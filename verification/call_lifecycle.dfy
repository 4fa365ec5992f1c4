/**
  One call's life in the analyser, put together from the builder and the
  service relation: populate, `Prepare`, project, then derive identities.
  Each method works on objects it allocates itself, so it changes nothing
  its caller can see.
 */
module CallLifecycle {
  import opened JavaLang
  import opened Naming
  import opened IdManager
  import opened CoreSource
  import opened Listener

  /**
    The entity id of the service relation a builder projects: the relation
    id of the two service ids, each derived from its side's (name, normal
    flag), source first.
   */
  method ServiceRelationEntityId(b: SourceBuilder, ids: ServiceIdScheme) returns (id: string)
    ensures id == ids.buildRelationId(Some(ids.buildId(b.sourceServiceName, b.isSourceNormal)),
                                      Some(ids.buildId(b.destServiceName, b.isDestNormal)))
  {
    var relation := b.ToServiceRelation();
    relation.Prepare(ids);
    id := relation.GetEntityId(ids);
  }

  /**
    Two calls whose service names and normal flags agree give relations
    with the same entity id, however their instances, endpoints, component,
    codes, metrics, request type, detect point and time bucket differ.
   */
  method EntityIdIgnoresCallDetails(b1: SourceBuilder, b2: SourceBuilder, ids: ServiceIdScheme)
    returns (id1: string, id2: string)
    requires b1.sourceServiceName == b2.sourceServiceName && b1.isSourceNormal == b2.isSourceNormal
    requires b1.destServiceName == b2.destServiceName && b1.isDestNormal == b2.isDestNormal
    ensures id1 == id2
  {
    id1 := ServiceRelationEntityId(b1, ids);
    id2 := ServiceRelationEntityId(b2, ids);
  }

  /**
    Once computed, the entity id is kept: renaming the source service and
    deriving the ids again does not change what `GetEntityId` returns. This
    holds whenever the first relation id is non-empty; an empty one would be
    recomputed on every call.
   */
  method CachedEntityIdIsKept(ids: ServiceIdScheme, source: Option<string>, renamed: Option<string>,
                              dest: Option<string>)
    returns (first: string, second: string)
    requires ids.buildRelationId(Some(ids.buildId(source, true)), Some(ids.buildId(dest, true))) != ""
    ensures first == second
    ensures first == ids.buildRelationId(Some(ids.buildId(source, true)), Some(ids.buildId(dest, true)))
  {
    var r := new ServiceRelation();
    r.SetCall(source, true, None, dest, true, None, None);
    r.Prepare(ids);
    first := r.GetEntityId(ids);
    r.SetCall(renamed, true, None, dest, true, None, None);
    r.Prepare(ids);
    second := r.GetEntityId(ids);
  }

  /**
    Two tags under the same key: the ordered list keeps both renderings in
    arrival order, the map keeps one entry holding the second value.
   */
  method RepeatedTagKey(nc: NamingControl, key: string, first: string, second: string)
    returns (tags: seq<string>, originalTags: map<string, string>)
    ensures tags == [RenderTag(KeyStringValuePair(key, first)), RenderTag(KeyStringValuePair(key, second))]
    ensures originalTags == map[key := second]
    ensures |originalTags| == 1
  {
    var b := new SourceBuilder(nc);
    b.SetTag(KeyStringValuePair(key, first));
    b.SetTag(KeyStringValuePair(key, second));
    tags, originalTags := b.tags, b.originalTags;
    assert originalTags.Keys == {key};
  }

  /** `http.method` reported as GET, then as POST. */
  method HttpMethodTags(nc: NamingControl) returns (tags: seq<string>, originalTags: map<string, string>)
    ensures tags == ["http.method:GET", "http.method:POST"]
    ensures originalTags == map["http.method" := "POST"]
  {
    tags, originalTags := RepeatedTagKey(nc, "http.method", "GET", "POST");
    TrimKeepsClean("http.method");
    TrimKeepsClean("GET");
    TrimKeepsClean("POST");
    assert RenderTag(KeyStringValuePair("http.method", "GET")) == "http.method:GET";
    assert RenderTag(KeyStringValuePair("http.method", "POST")) == "http.method:POST";
  }

  /** Preparing under the verbatim normaliser keeps every name as reported. */
  lemma PrepareVerbatim(n: NameFields)
    ensures PrepareNames(Verbatim(), n) == n
  {
  }

  /**
    The builder for a traced RPC from frontend's /checkout to orders'
    /createOrder as the listener populates it; the source instance was
    reported empty.
   */
  method CheckoutReported(rpc: RequestType) returns (b: SourceBuilder)
    ensures fresh(b)
    ensures b.Names() == NameFields(Some("frontend"), None, Some(""), Some("/checkout"),
                                    Some("orders"), Some("i-1"), Some("/createOrder"))
    ensures b.requestType == Some(rpc) && b.latency == 42
    ensures b.namingControl == Verbatim()
  {
    b := new SourceBuilder(Verbatim());
    b.sourceServiceName, b.destServiceName := Some("frontend"), Some("orders");
    b.sourceServiceInstanceName, b.destServiceInstanceName := Some(""), Some("i-1");
    b.sourceEndpointName, b.destEndpointName := Some("/checkout"), Some("/createOrder");
    b.requestType, b.status, b.latency, b.timeBucket := Some(rpc), true, 42, 20240101120000;
  }

  /** The same builder after `Prepare`: the verbatim normaliser keeps every name. */
  method CheckoutBuilder(rpc: RequestType) returns (b: SourceBuilder)
    ensures fresh(b)
    ensures b.sourceServiceName == Some("frontend") && b.destServiceName == Some("orders")
    ensures b.sourceServiceInstanceName == Some("") && b.destServiceInstanceName == Some("i-1")
    ensures b.sourceEndpointName == Some("/checkout") && b.destEndpointName == Some("/createOrder")
    ensures b.sourceEndpointOwnerServiceName.None?
    ensures b.requestType == Some(rpc) && b.latency == 42
  {
    b := CheckoutReported(rpc);
    b.Prepare();
  }

  /**
    The records of that call: the service and endpoint relations are
    emitted, the instance relation (source instance empty) and the database
    access (not a database request) are not.
   */
  method CheckoutCall(rpc: RequestType)
    returns (serviceRelation: (Option<string>, Option<string>),
             endpointRelation: Option<EndpointRelation>,
             instanceRelation: Option<ServiceInstanceRelation>,
             databaseAccess: Option<DatabaseAccess>)
    requires rpc != Database
    ensures serviceRelation == (Some("frontend"), Some("orders"))
    ensures endpointRelation.Some?
    ensures endpointRelation.value.endpoint == Some("/checkout")
    ensures endpointRelation.value.childEndpoint == Some("/createOrder")
    ensures endpointRelation.value.serviceName == Some("frontend")
    ensures endpointRelation.value.rpcLatency == 42
    ensures instanceRelation.None?
    ensures databaseAccess.None?
  {
    var b := CheckoutBuilder(rpc);
    endpointRelation := b.ToEndpointRelation();
    instanceRelation := b.ToServiceInstanceRelation();
    databaseAccess := b.ToDatabaseAccess();
    var relation := b.ToServiceRelation();
    serviceRelation := (relation.sourceServiceName, relation.destServiceName);
  }

  /**
    A call relayed through a gateway: the parent endpoint is owned by the
    gateway, counted as normal, even though the source service is not.
   */
  method RelayedCallOwner() returns (owner: Option<string>, ownerNormal: bool)
    ensures owner == Some("gateway") && ownerNormal
  {
    var b := new SourceBuilder(Verbatim());
    b.sourceServiceName, b.isSourceNormal := Some("orderSvc"), false;
    b.sourceEndpointOwnerServiceName := Some("gateway");
    b.sourceEndpointName, b.destEndpointName := Some("/pay"), Some("/charge");
    b.Prepare();
    var relation := b.ToEndpointRelation();
    owner, ownerNormal := relation.value.serviceName, relation.value.serviceNormal;
  }
}
