/**
  The canonical entity records the projection stage emits (the
  `core.source` package). Each record other than the service relation is a
  value built once and never changed, so it is a datatype holding exactly
  the fields the builder sets on it. The service relation derives its
  service ids in place and caches its entity id, so it is a class.
 */
module CoreSource {
  import opened JavaLang
  import IdManager

  /** Classification of a service; its values do not matter here. */
  datatype Layer = Layer(name: string)

  /** Where the call was observed (client, server, proxy, ...). */
  datatype DetectPoint = DetectPoint(name: string)

  /** The kind of request; only `Database` is singled out by the projections. */
  datatype RequestType = Database | OtherRequest(name: string)

  /** Global traffic sample. */
  datatype All = All(
    name: Option<string>,
    serviceInstanceName: Option<string>,
    endpointName: Option<string>,
    latency: int32,
    status: bool,
    responseCode: int32,
    httpResponseStatusCode: int32,
    rpcStatusCode: Option<string>,
    requestType: Option<RequestType>,
    timeBucket: int64,
    tags: seq<string>,
    originalTags: map<string, string>)

  /** Per-service traffic sample. */
  datatype Service = Service(
    name: Option<string>,
    serviceInstanceName: Option<string>,
    endpointName: Option<string>,
    layer: Option<Layer>,
    normal: bool,
    latency: int32,
    status: bool,
    responseCode: int32,
    httpResponseStatusCode: int32,
    rpcStatusCode: Option<string>,
    requestType: Option<RequestType>,
    tags: seq<string>,
    timeBucket: int64,
    originalTags: map<string, string>)

  /** Per-instance traffic sample. */
  datatype ServiceInstance = ServiceInstance(
    name: Option<string>,
    serviceName: Option<string>,
    serviceNormal: bool,
    layer: Option<Layer>,
    endpointName: Option<string>,
    latency: int32,
    status: bool,
    responseCode: int32,
    httpResponseStatusCode: int32,
    rpcStatusCode: Option<string>,
    requestType: Option<RequestType>,
    tags: seq<string>,
    originalTags: map<string, string>,
    timeBucket: int64)

  /** One call between two service instances. */
  datatype ServiceInstanceRelation = ServiceInstanceRelation(
    sourceServiceName: Option<string>,
    sourceServiceNormal: bool,
    sourceServiceInstanceName: Option<string>,
    destServiceName: Option<string>,
    destServiceNormal: bool,
    destServiceInstanceName: Option<string>,
    endpoint: Option<string>,
    componentId: int32,
    latency: int32,
    status: bool,
    responseCode: int32,
    httpResponseStatusCode: int32,
    rpcStatusCode: Option<string>,
    requestType: Option<RequestType>,
    detectPoint: Option<DetectPoint>,
    timeBucket: int64)

  /** Per-endpoint traffic sample. */
  datatype Endpoint = Endpoint(
    name: Option<string>,
    serviceName: Option<string>,
    serviceNormal: bool,
    serviceInstanceName: Option<string>,
    latency: int32,
    status: bool,
    responseCode: int32,
    httpResponseStatusCode: int32,
    rpcStatusCode: Option<string>,
    requestType: Option<RequestType>,
    tags: seq<string>,
    originalTags: map<string, string>,
    timeBucket: int64)

  /** One parent-to-child endpoint call. */
  datatype EndpointRelation = EndpointRelation(
    endpoint: Option<string>,
    serviceName: Option<string>,
    serviceNormal: bool,
    serviceInstanceName: Option<string>,
    childEndpoint: Option<string>,
    childServiceName: Option<string>,
    childServiceNormal: bool,
    childServiceInstanceName: Option<string>,
    componentId: int32,
    rpcLatency: int32,
    status: bool,
    responseCode: int32,
    httpResponseStatusCode: int32,
    rpcStatusCode: Option<string>,
    requestType: Option<RequestType>,
    detectPoint: Option<DetectPoint>,
    timeBucket: int64)

  /** Service catalogue entry: no metrics at all. */
  datatype ServiceMeta = ServiceMeta(
    name: Option<string>,
    layer: Option<Layer>,
    normal: bool,
    timeBucket: int64)

  /** Database traffic sample, at service granularity. */
  datatype DatabaseAccess = DatabaseAccess(
    databaseTypeId: int32,
    latency: int32,
    name: Option<string>,
    status: bool,
    timeBucket: int64)

  /** `DefaultScopeDefine.SERVICE_RELATION`. */
  const SERVICE_RELATION: int := 4

  /** One observed call between two services. */
  class ServiceRelation {
    var entityId: Option<string>
    var sourceServiceId: Option<string>
    var sourceServiceName: Option<string>
    var isSourceNormal: bool
    var sourceServiceInstanceName: Option<string>
    var destServiceId: Option<string>
    var destServiceName: Option<string>
    var isDestNormal: bool
    var destServiceInstanceName: Option<string>
    var endpoint: Option<string>
    var componentId: int32
    var latency: int32
    var status: bool
    var responseCode: int32
    var httpResponseStatusCode: int32
    var rpcStatusCode: Option<string>
    var requestType: Option<RequestType>
    var detectPoint: Option<DetectPoint>
    var timeBucket: int64

    /** A record with every field at its Java default: null, zero or false. */
    constructor ()
      ensures entityId.None? && sourceServiceId.None? && destServiceId.None?
      ensures sourceServiceName.None? && !isSourceNormal && sourceServiceInstanceName.None?
      ensures destServiceName.None? && !isDestNormal && destServiceInstanceName.None?
      ensures endpoint.None? && componentId == 0 && latency == 0 && !status
      ensures responseCode == 0 && httpResponseStatusCode == 0 && rpcStatusCode.None?
      ensures requestType.None? && detectPoint.None? && timeBucket == 0
    {
      entityId, sourceServiceId, destServiceId := None, None, None;
      sourceServiceName, isSourceNormal, sourceServiceInstanceName := None, false, None;
      destServiceName, isDestNormal, destServiceInstanceName := None, false, None;
      endpoint, componentId, latency, status := None, 0, 0, false;
      responseCode, httpResponseStatusCode, rpcStatusCode := 0, 0, None;
      requestType, detectPoint, timeBucket := None, None, 0;
    }

    /** The setters for the two services, their flags and instances, and the endpoint label. */
    method SetCall(sourceServiceName: Option<string>, isSourceNormal: bool,
                   sourceServiceInstanceName: Option<string>, destServiceName: Option<string>,
                   isDestNormal: bool, destServiceInstanceName: Option<string>,
                   endpoint: Option<string>)
      modifies this`sourceServiceName, this`isSourceNormal, this`sourceServiceInstanceName,
               this`destServiceName, this`isDestNormal, this`destServiceInstanceName, this`endpoint
      ensures this.sourceServiceName == sourceServiceName && this.isSourceNormal == isSourceNormal
      ensures this.sourceServiceInstanceName == sourceServiceInstanceName
      ensures this.destServiceName == destServiceName && this.isDestNormal == isDestNormal
      ensures this.destServiceInstanceName == destServiceInstanceName
      ensures this.endpoint == endpoint
    {
      this.sourceServiceName, this.isSourceNormal := sourceServiceName, isSourceNormal;
      this.sourceServiceInstanceName := sourceServiceInstanceName;
      this.destServiceName, this.isDestNormal := destServiceName, isDestNormal;
      this.destServiceInstanceName, this.endpoint := destServiceInstanceName, endpoint;
    }

    /** The setters for the call's component, metrics, request type, detect point and time bucket. */
    method SetMetrics(componentId: int32, latency: int32, status: bool, responseCode: int32,
                      httpResponseStatusCode: int32, rpcStatusCode: Option<string>,
                      requestType: Option<RequestType>, detectPoint: Option<DetectPoint>,
                      timeBucket: int64)
      modifies this`componentId, this`latency, this`status, this`responseCode,
               this`httpResponseStatusCode, this`rpcStatusCode, this`requestType,
               this`detectPoint, this`timeBucket
      ensures this.componentId == componentId && this.latency == latency && this.status == status
      ensures this.responseCode == responseCode
      ensures this.httpResponseStatusCode == httpResponseStatusCode
      ensures this.rpcStatusCode == rpcStatusCode && this.requestType == requestType
      ensures this.detectPoint == detectPoint && this.timeBucket == timeBucket
    {
      this.componentId, this.latency, this.status := componentId, latency, status;
      this.responseCode, this.httpResponseStatusCode := responseCode, httpResponseStatusCode;
      this.rpcStatusCode, this.requestType := rpcStatusCode, requestType;
      this.detectPoint, this.timeBucket := detectPoint, timeBucket;
    }

    /** The scope every service relation belongs to, whatever its fields. */
    function Scope(): (id: int)
      ensures id == SERVICE_RELATION
    {
      SERVICE_RELATION
    }

    /**
      Derives both service ids from (name, normal flag). Only the two id
      fields are written; everything else is framed out.
     */
    method Prepare(ids: IdManager.ServiceIdScheme)
      modifies this`sourceServiceId, this`destServiceId
      ensures sourceServiceId == Some(ids.buildId(sourceServiceName, isSourceNormal))
      ensures destServiceId == Some(ids.buildId(destServiceName, isDestNormal))
    {
      sourceServiceId := Some(ids.buildId(sourceServiceName, isSourceNormal));
      destServiceId := Some(ids.buildId(destServiceName, isDestNormal));
    }

    /**
      The relation id, computed from the two service ids on the first call
      that finds the cache empty and stored there; once the cache holds a
      non-empty id, that id is returned unchanged, even if the service ids
      have changed since.
     */
    method GetEntityId(ids: IdManager.ServiceIdScheme) returns (id: string)
      modifies this`entityId
      ensures entityId == Some(id)
      ensures IsEmpty(old(entityId)) ==> id == ids.buildRelationId(sourceServiceId, destServiceId)
      ensures !IsEmpty(old(entityId)) ==> entityId == old(entityId)
    {
      if IsEmpty(entityId) {
        entityId := Some(ids.buildRelationId(sourceServiceId, destServiceId));
      }
      id := entityId.value;
    }
  }
}
