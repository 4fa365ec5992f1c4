/**
  The per-call accumulator of the trace analyser (`SourceBuilder`): the
  listener fills in one observed call's attributes, `Prepare` normalises
  the names in place, and each `To...` projection reads the builder and
  builds one canonical record, or none when the record does not apply.
 */
module Listener {
  import opened JavaLang
  import opened Naming
  import opened CoreSource

  /** The seven name fields `Prepare` rewrites. */
  datatype NameFields = NameFields(
    sourceServiceName: Option<string>,
    sourceEndpointOwnerServiceName: Option<string>,
    sourceServiceInstanceName: Option<string>,
    sourceEndpointName: Option<string>,
    destServiceName: Option<string>,
    destServiceInstanceName: Option<string>,
    destEndpointName: Option<string>)

  /**
    The names after normalisation, step by step as `prepare` assigns them:
    each endpoint name is formatted under its side's service name as it
    stands after that name has itself been formatted.
   */
  function PrepareNames(nc: NamingControl, n: NameFields): NameFields {
    var sourceService := nc.FormatServiceName(n.sourceServiceName);
    var owner := nc.FormatServiceName(n.sourceEndpointOwnerServiceName);
    var sourceInstance := nc.FormatInstanceName(n.sourceServiceInstanceName);
    var sourceEndpoint := nc.FormatEndpointName(sourceService, n.sourceEndpointName);
    var destService := nc.FormatServiceName(n.destServiceName);
    var destInstance := nc.FormatInstanceName(n.destServiceInstanceName);
    var destEndpoint := nc.FormatEndpointName(destService, n.destEndpointName);
    NameFields(sourceService, owner, sourceInstance, sourceEndpoint, destService, destInstance, destEndpoint)
  }

  /** Normalisation keeps each name's presence; an endpoint owner is never invented or lost. */
  lemma PrepareKeepsPresence(nc: NamingControl, n: NameFields)
    ensures PrepareNames(nc, n).sourceServiceName.None? <==> n.sourceServiceName.None?
    ensures PrepareNames(nc, n).sourceEndpointOwnerServiceName.None? <==> n.sourceEndpointOwnerServiceName.None?
    ensures PrepareNames(nc, n).sourceServiceInstanceName.None? <==> n.sourceServiceInstanceName.None?
    ensures PrepareNames(nc, n).destServiceName.None? <==> n.destServiceName.None?
    ensures PrepareNames(nc, n).destServiceInstanceName.None? <==> n.destServiceInstanceName.None?
  {
  }

  /**
    Under a normaliser whose formatters are idempotent, normalising names
    that are already normalised changes nothing.
   */
  lemma PrepareIdempotent(nc: NamingControl, n: NameFields)
    requires nc.Idempotent()
    ensures PrepareNames(nc, PrepareNames(nc, n)) == PrepareNames(nc, n)
  {
  }

  /** One `"key:value"` entry of the ordered tag list: both halves trimmed. */
  function RenderTag(tag: KeyStringValuePair): string {
    Trim(tag.key) + ":" + Trim(tag.value)
  }

  /** A tag as the agent reports it; protobuf strings are never null. */
  datatype KeyStringValuePair = KeyStringValuePair(key: string, value: string)

  class SourceBuilder {
    const namingControl: NamingControl

    var sourceServiceName: Option<string>
    var sourceLayer: Option<Layer>
    var isSourceNormal: bool
    var sourceServiceInstanceName: Option<string>
    /** Set only when the source endpoint belongs to another (always normal) service. */
    var sourceEndpointOwnerServiceName: Option<string>
    var sourceEndpointName: Option<string>
    var destServiceName: Option<string>
    var destLayer: Option<Layer>
    var isDestNormal: bool
    var destServiceInstanceName: Option<string>
    var destEndpointName: Option<string>
    var componentId: int32
    var latency: int32
    var status: bool
    var responseCode: int32
    var httpResponseStatusCode: int32
    var rpcStatusCode: Option<string>
    var requestType: Option<RequestType>
    var detectPoint: Option<DetectPoint>
    var timeBucket: int64
    /** Rendered tags in arrival order, duplicates kept. */
    var tags: seq<string>
    /** Raw tags by raw key, the last value written for a key winning. */
    var originalTags: map<string, string>

    /** A builder for one call: both sides normal, no tags, everything else null or zero. */
    constructor (namingControl: NamingControl)
      ensures this.namingControl == namingControl
      ensures isSourceNormal && isDestNormal
      ensures tags == [] && originalTags == map[]
      ensures sourceServiceName.None? && sourceLayer.None? && sourceServiceInstanceName.None?
      ensures sourceEndpointOwnerServiceName.None? && sourceEndpointName.None?
      ensures destServiceName.None? && destLayer.None? && destServiceInstanceName.None?
      ensures destEndpointName.None?
      ensures componentId == 0 && latency == 0 && !status && responseCode == 0
      ensures httpResponseStatusCode == 0 && rpcStatusCode.None?
      ensures requestType.None? && detectPoint.None? && timeBucket == 0
    {
      this.namingControl := namingControl;
      sourceServiceName, sourceLayer, isSourceNormal := None, None, true;
      sourceServiceInstanceName, sourceEndpointOwnerServiceName, sourceEndpointName := None, None, None;
      destServiceName, destLayer, isDestNormal := None, None, true;
      destServiceInstanceName, destEndpointName := None, None;
      componentId, latency, status, responseCode := 0, 0, false, 0;
      httpResponseStatusCode, rpcStatusCode := 0, None;
      requestType, detectPoint, timeBucket := None, None, 0;
      tags, originalTags := [], map[];
    }

    /** The builder's current name fields. */
    function Names(): NameFields
      reads this
    {
      NameFields(sourceServiceName, sourceEndpointOwnerServiceName, sourceServiceInstanceName,
                     sourceEndpointName, destServiceName, destServiceInstanceName, destEndpointName)
    }

    /**
      Normalises the seven name fields in place. The frame names exactly
      those fields: flags, layers, metrics and tags are left as they were.
     */
    method Prepare()
      modifies this`sourceServiceName, this`sourceEndpointOwnerServiceName,
               this`sourceServiceInstanceName, this`sourceEndpointName,
               this`destServiceName, this`destServiceInstanceName, this`destEndpointName
      ensures sourceServiceName == namingControl.FormatServiceName(old(sourceServiceName))
      ensures sourceEndpointOwnerServiceName == namingControl.FormatServiceName(old(sourceEndpointOwnerServiceName))
      ensures sourceServiceInstanceName == namingControl.FormatInstanceName(old(sourceServiceInstanceName))
      ensures sourceEndpointName == namingControl.FormatEndpointName(sourceServiceName, old(sourceEndpointName))
      ensures destServiceName == namingControl.FormatServiceName(old(destServiceName))
      ensures destServiceInstanceName == namingControl.FormatInstanceName(old(destServiceInstanceName))
      ensures destEndpointName == namingControl.FormatEndpointName(destServiceName, old(destEndpointName))
      ensures Names() == PrepareNames(namingControl, old(Names()))
    {
      sourceServiceName := namingControl.FormatServiceName(sourceServiceName);
      sourceEndpointOwnerServiceName := namingControl.FormatServiceName(sourceEndpointOwnerServiceName);
      sourceServiceInstanceName := namingControl.FormatInstanceName(sourceServiceInstanceName);
      sourceEndpointName := namingControl.FormatEndpointName(sourceServiceName, sourceEndpointName);
      destServiceName := namingControl.FormatServiceName(destServiceName);
      destServiceInstanceName := namingControl.FormatInstanceName(destServiceInstanceName);
      destEndpointName := namingControl.FormatEndpointName(destServiceName, destEndpointName);
    }

    /** Global traffic: the destination side's names with the call's metrics and tags. */
    function ToAll(): (r: All)
      reads this
      ensures r.name == destServiceName && r.serviceInstanceName == destServiceInstanceName
      ensures r.endpointName == destEndpointName
      ensures r.latency == latency && r.status == status && r.requestType == requestType
      ensures r.responseCode == responseCode && r.httpResponseStatusCode == httpResponseStatusCode
      ensures r.rpcStatusCode == rpcStatusCode && r.timeBucket == timeBucket
      ensures r.tags == tags && r.originalTags == originalTags
    {
      All(destServiceName, destServiceInstanceName, destEndpointName, latency, status,
          responseCode, httpResponseStatusCode, rpcStatusCode, requestType, timeBucket,
          tags, originalTags)
    }

    /** The destination service's traffic, with its layer and normal flag. */
    function ToService(): (r: Service)
      reads this
      ensures r.name == destServiceName && r.serviceInstanceName == destServiceInstanceName
      ensures r.endpointName == destEndpointName && r.layer == destLayer && r.normal == isDestNormal
      ensures r.latency == latency && r.status == status && r.requestType == requestType
      ensures r.responseCode == responseCode && r.httpResponseStatusCode == httpResponseStatusCode
      ensures r.rpcStatusCode == rpcStatusCode && r.timeBucket == timeBucket
      ensures r.tags == tags && r.originalTags == originalTags
    {
      Service(destServiceName, destServiceInstanceName, destEndpointName, destLayer, isDestNormal,
              latency, status, responseCode, httpResponseStatusCode, rpcStatusCode, requestType,
              tags, timeBucket, originalTags)
    }

    /**
      `r` is this call seen as a service relation: both sides' services,
      flags and instances, the destination endpoint as its label, and the
      call's component, metrics, request type, detect point and time bucket.
     */
    predicate Describes(r: ServiceRelation)
      reads this, r
    {
      && r.sourceServiceName == sourceServiceName && r.isSourceNormal == isSourceNormal
      && r.sourceServiceInstanceName == sourceServiceInstanceName
      && r.destServiceName == destServiceName && r.isDestNormal == isDestNormal
      && r.destServiceInstanceName == destServiceInstanceName
      && r.endpoint == destEndpointName && r.componentId == componentId
      && r.latency == latency && r.status == status && r.responseCode == responseCode
      && r.httpResponseStatusCode == httpResponseStatusCode && r.rpcStatusCode == rpcStatusCode
      && r.requestType == requestType && r.detectPoint == detectPoint
      && r.timeBucket == timeBucket
    }

    /**
      A fresh service relation from the source service to the destination
      service, labelled with the destination endpoint. The builder is not
      changed (the method has no frame) and the ids are left to the
      relation's own `Prepare`.
     */
    method ToServiceRelation() returns (r: ServiceRelation)
      ensures fresh(r)
      ensures r.entityId.None? && r.sourceServiceId.None? && r.destServiceId.None?
      ensures Describes(r)
    {
      r := new ServiceRelation();
      r.SetCall(sourceServiceName, isSourceNormal, sourceServiceInstanceName,
                destServiceName, isDestNormal, destServiceInstanceName, destEndpointName);
      r.SetMetrics(componentId, latency, status, responseCode, httpResponseStatusCode,
                   rpcStatusCode, requestType, detectPoint, timeBucket);
    }

    /** The destination instance's traffic, keyed by its service. */
    function ToServiceInstance(): (r: ServiceInstance)
      reads this
      ensures r.name == destServiceInstanceName && r.serviceName == destServiceName
      ensures r.serviceNormal == isDestNormal && r.layer == destLayer
      ensures r.endpointName == destEndpointName
      ensures r.latency == latency && r.status == status && r.requestType == requestType
      ensures r.responseCode == responseCode && r.httpResponseStatusCode == httpResponseStatusCode
      ensures r.rpcStatusCode == rpcStatusCode && r.timeBucket == timeBucket
      ensures r.tags == tags && r.originalTags == originalTags
    {
      ServiceInstance(destServiceInstanceName, destServiceName, isDestNormal, destLayer,
                      destEndpointName, latency, status, responseCode, httpResponseStatusCode,
                      rpcStatusCode, requestType, tags, originalTags, timeBucket)
    }

    /**
      The instance-to-instance relation: absent exactly when either instance
      name is null or empty; otherwise both sides' services, flags and
      instances, labelled with the destination endpoint.
     */
    function ToServiceInstanceRelation(): (r: Option<ServiceInstanceRelation>)
      reads this
      ensures r.None? <==> IsEmpty(sourceServiceInstanceName) || IsEmpty(destServiceInstanceName)
      ensures r.Some? ==>
        && r.value.sourceServiceName == sourceServiceName
        && r.value.sourceServiceNormal == isSourceNormal
        && r.value.sourceServiceInstanceName == sourceServiceInstanceName
        && r.value.destServiceName == destServiceName
        && r.value.destServiceNormal == isDestNormal
        && r.value.destServiceInstanceName == destServiceInstanceName
        && r.value.endpoint == destEndpointName
        && r.value.componentId == componentId && r.value.latency == latency
        && r.value.status == status && r.value.responseCode == responseCode
        && r.value.httpResponseStatusCode == httpResponseStatusCode
        && r.value.rpcStatusCode == rpcStatusCode && r.value.requestType == requestType
        && r.value.detectPoint == detectPoint && r.value.timeBucket == timeBucket
    {
      if IsEmpty(sourceServiceInstanceName) || IsEmpty(destServiceInstanceName) then
        None
      else
        Some(ServiceInstanceRelation(
          sourceServiceName, isSourceNormal, sourceServiceInstanceName,
          destServiceName, isDestNormal, destServiceInstanceName, destEndpointName,
          componentId, latency, status, responseCode, httpResponseStatusCode,
          rpcStatusCode, requestType, detectPoint, timeBucket))
    }

    /** The destination endpoint's traffic, with its service and instance. */
    function ToEndpoint(): (r: Endpoint)
      reads this
      ensures r.name == destEndpointName && r.serviceName == destServiceName
      ensures r.serviceNormal == isDestNormal && r.serviceInstanceName == destServiceInstanceName
      ensures r.latency == latency && r.status == status && r.requestType == requestType
      ensures r.responseCode == responseCode && r.httpResponseStatusCode == httpResponseStatusCode
      ensures r.rpcStatusCode == rpcStatusCode && r.timeBucket == timeBucket
      ensures r.tags == tags && r.originalTags == originalTags
    {
      Endpoint(destEndpointName, destServiceName, isDestNormal, destServiceInstanceName,
               latency, status, responseCode, httpResponseStatusCode, rpcStatusCode,
               requestType, tags, originalTags, timeBucket)
    }

    /**
      The parent-to-child endpoint relation: absent exactly when either
      endpoint name is null or empty. The parent endpoint is owned by the
      source service with its flag, unless an endpoint owner is set, which
      then owns it and counts as normal whatever the source flag says.
     */
    function ToEndpointRelation(): (r: Option<EndpointRelation>)
      reads this
      ensures r.None? <==> IsEmpty(sourceEndpointName) || IsEmpty(destEndpointName)
      ensures r.Some? && sourceEndpointOwnerServiceName.None? ==>
        r.value.serviceName == sourceServiceName && r.value.serviceNormal == isSourceNormal
      ensures r.Some? && sourceEndpointOwnerServiceName.Some? ==>
        r.value.serviceName == sourceEndpointOwnerServiceName && r.value.serviceNormal
      ensures r.Some? ==>
        && r.value.endpoint == sourceEndpointName
        && r.value.serviceInstanceName == sourceServiceInstanceName
        && r.value.childEndpoint == destEndpointName
        && r.value.childServiceName == destServiceName
        && r.value.childServiceNormal == isDestNormal
        && r.value.childServiceInstanceName == destServiceInstanceName
        && r.value.componentId == componentId && r.value.rpcLatency == latency
        && r.value.status == status && r.value.responseCode == responseCode
        && r.value.httpResponseStatusCode == httpResponseStatusCode
        && r.value.rpcStatusCode == rpcStatusCode && r.value.requestType == requestType
        && r.value.detectPoint == detectPoint && r.value.timeBucket == timeBucket
    {
      if IsEmpty(sourceEndpointName) || IsEmpty(destEndpointName) then
        None
      else
        var (owner, ownerNormal) :=
          if sourceEndpointOwnerServiceName.None? then (sourceServiceName, isSourceNormal)
          else (sourceEndpointOwnerServiceName, true);
        Some(EndpointRelation(
          sourceEndpointName, owner, ownerNormal, sourceServiceInstanceName,
          destEndpointName, destServiceName, isDestNormal, destServiceInstanceName,
          componentId, latency, status, responseCode, httpResponseStatusCode,
          rpcStatusCode, requestType, detectPoint, timeBucket))
    }

    /** The destination service's catalogue entry: name, layer, flag and time bucket only. */
    function ToServiceMeta(): (r: ServiceMeta)
      reads this
      ensures r.name == destServiceName && r.layer == destLayer
      ensures r.normal == isDestNormal && r.timeBucket == timeBucket
    {
      ServiceMeta(destServiceName, destLayer, isDestNormal, timeBucket)
    }

    /**
      Database traffic: present exactly when the request type is `DATABASE`
      (a null type does not qualify), keyed by the destination service and
      typed by the component id.
     */
    function ToDatabaseAccess(): (r: Option<DatabaseAccess>)
      reads this
      ensures r.Some? <==> requestType == Some(Database)
      ensures r.Some? ==>
        && r.value.databaseTypeId == componentId && r.value.name == destServiceName
        && r.value.latency == latency && r.value.status == status
        && r.value.timeBucket == timeBucket
    {
      if requestType != Some(Database) then
        None
      else
        Some(DatabaseAccess(componentId, latency, destServiceName, status, timeBucket))
    }

    /**
      Records one tag in both views: the trimmed rendering is appended to the
      ordered list, and the raw key is bound to the raw value in the map.
     */
    method SetTag(tag: KeyStringValuePair)
      modifies this`tags, this`originalTags
      ensures tags == old(tags) + [RenderTag(tag)]
      ensures originalTags == old(originalTags)[tag.key := tag.value]
    {
      tags := tags + [RenderTag(tag)];
      originalTags := originalTags[tag.key := tag.value];
    }
  }

  /**
    The metrics-bearing records of one call (global, service, instance,
    endpoint) carry the same latency, status, request type and time bucket.
   */
  lemma ProjectionsAgreeOnMetrics(b: SourceBuilder)
    ensures b.ToAll().latency == b.ToService().latency == b.ToServiceInstance().latency == b.ToEndpoint().latency
    ensures b.ToAll().status == b.ToService().status == b.ToServiceInstance().status == b.ToEndpoint().status
    ensures b.ToAll().requestType == b.ToService().requestType == b.ToServiceInstance().requestType == b.ToEndpoint().requestType
    ensures b.ToAll().timeBucket == b.ToService().timeBucket == b.ToServiceInstance().timeBucket == b.ToEndpoint().timeBucket
  {
  }

  /** The catalogue entry names the same service, layer and flag as the traffic record. */
  lemma ServiceMetaMatchesService(b: SourceBuilder)
    ensures b.ToServiceMeta().name == b.ToService().name
    ensures b.ToServiceMeta().layer == b.ToService().layer
    ensures b.ToServiceMeta().normal == b.ToService().normal
    ensures b.ToServiceMeta().timeBucket == b.ToService().timeBucket
  {
  }

  /** The child side of an endpoint relation is the endpoint the call's endpoint record describes. */
  lemma EndpointRelationChildIsEndpoint(b: SourceBuilder)
    ensures b.ToEndpointRelation().Some? ==>
      && b.ToEndpointRelation().value.childEndpoint == b.ToEndpoint().name
      && b.ToEndpointRelation().value.childServiceName == b.ToEndpoint().serviceName
      && b.ToEndpointRelation().value.childServiceNormal == b.ToEndpoint().serviceNormal
      && b.ToEndpointRelation().value.childServiceInstanceName == b.ToEndpoint().serviceInstanceName
  {
  }

  /** A database access is the destination service's traffic seen as a database. */
  lemma DatabaseAccessMatchesService(b: SourceBuilder)
    ensures b.ToDatabaseAccess().Some? ==>
      && b.ToDatabaseAccess().value.name == b.ToService().name
      && b.ToDatabaseAccess().value.latency == b.ToService().latency
      && b.ToDatabaseAccess().value.status == b.ToService().status
      && b.ToDatabaseAccess().value.timeBucket == b.ToService().timeBucket
  {
  }
}
