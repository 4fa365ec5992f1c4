# SkyWalking trace-to-topology projection, modelled in Dafny

This project models the step of the SkyWalking OAP trace analyser that turns
one observed call into topology records. The listener fills a
`SourceBuilder` with the call's source side, destination side, call metadata
and tags. `prepare()` normalises the names in place. Nine projections then
each build one record: global traffic (`All`), `Service`, `ServiceRelation`,
`ServiceInstance`, `ServiceInstanceRelation`, `Endpoint`, `EndpointRelation`,
`ServiceMeta` and `DatabaseAccess`. Three of them may emit nothing. The
`ServiceRelation` record derives its two service ids in `prepare()` and
caches its relation id the first time `getEntityId()` is asked for it.

Files:

- `java_lang.dfy` (module `JavaLang`): nullable references as `Option`, Java
  `int`/`long` as `int32`/`int64`, `StringUtil.isEmpty`, and `String.trim()`
  characterised exactly. `trim()` strips every character up to U+0020 from
  both ends.
- `naming.dfy` (module `Naming`): the `NamingControl` the builder is given.
  Its three formatters are arbitrary total functions. Service and instance
  formatting maps null to null.
- `id_manager.dfy` (module `IdManager`): `IDManager.ServiceID.buildId` and
  `buildRelationId` as arbitrary total functions.
- `source.dfy` (module `CoreSource`): the enums, the eight record datatypes
  (one field per setter the builder calls), and the `ServiceRelation` class.
- `source_builder.dfy` (module `Listener`): the `SourceBuilder` class, the
  step-by-step name normalisation `PrepareNames` that `Prepare` is proved
  against, and lemmas relating the projections to one another.
- `call_lifecycle.dfy` (module `CallLifecycle`): the per-call lifecycle
  (populate, prepare, project, derive ids) on objects each method allocates
  itself. It also holds the worked examples: the checkout call, the relayed
  call and the repeated tag key.

Java `null` is `None` throughout. A projection that returns `null` in Java
returns `Option.None` here. `toServiceRelation` returns a fresh
`ServiceRelation` object, because that record is updated in place later.
`type` is a Dafny keyword, so the request type field is named `requestType`.
Lombok setters on the builder are plain field writes. On `ServiceRelation`
the builder's sixteen setter calls are grouped into two framed methods,
`SetCall` and `SetMetrics`.

Details of the source the model keeps:

- `toAll` is a ninth projection, next to the eight per-entity ones.
- Suppression tests `StringUtil.isEmpty`, so both a null and an empty
  instance or endpoint name suppress a record.
- The instance relation carries the instance names; the builder derives no
  ids for it.
- Only `ServiceRelation`'s id derivation and entity-id cache are modelled.

## Model

| member | source | states |
|---|---|---|
| `JavaLang.Trim` | oap-server/analyzer/agent-analyzer/src/main/java/org/apache/skywalking/oap/server/analyzer/provider/trace/parser/listener/SourceBuilder.java:328 | `trim()` yields an infix of the input. Every character cut from either end is ≤ U+0020, and a non-empty result starts and ends with a character above U+0020. |
| `JavaLang.TrimKeepsClean` | oap-server/analyzer/agent-analyzer/src/main/java/org/apache/skywalking/oap/server/analyzer/provider/trace/parser/listener/SourceBuilder.java:328 | A string with no strippable character at either end trims to itself. |
| `JavaLang.TrimIdempotent` | oap-server/analyzer/agent-analyzer/src/main/java/org/apache/skywalking/oap/server/analyzer/provider/trace/parser/listener/SourceBuilder.java:328 | Trimming twice equals trimming once. |
| `Listener.SourceBuilder.constructor` | oap-server/analyzer/agent-analyzer/src/main/java/org/apache/skywalking/oap/server/analyzer/provider/trace/parser/listener/SourceBuilder.java:44-116 | A new builder holds the given normaliser. Both sides are normal, the tag list and tag map are empty, and every other field is null, zero or false. |
| `Listener.SourceBuilder.Prepare` | oap-server/analyzer/agent-analyzer/src/main/java/org/apache/skywalking/oap/server/analyzer/provider/trace/parser/listener/SourceBuilder.java:118-126 | Each of the seven names is replaced by its formatted value. Each endpoint name is formatted under its side's *already formatted* service name. The frame allows only those seven fields to change, so flags, layers, metrics and tags are untouched. |
| `Listener.PrepareKeepsPresence` | oap-server/analyzer/agent-analyzer/src/main/java/org/apache/skywalking/oap/server/analyzer/provider/trace/parser/listener/SourceBuilder.java:119-124 | After normalisation the service and instance names, and the endpoint owner, are null exactly when they were null before. So the owner rule of the endpoint relation sees the same case after `prepare`. |
| `Listener.PrepareIdempotent` | oap-server/analyzer/agent-analyzer/src/main/java/org/apache/skywalking/oap/server/analyzer/provider/trace/parser/listener/SourceBuilder.java:118-126 | If every formatter is idempotent, normalising twice gives the same names as normalising once. |
| `CallLifecycle.PrepareVerbatim` | oap-server/analyzer/agent-analyzer/src/main/java/org/apache/skywalking/oap/server/analyzer/provider/trace/parser/listener/SourceBuilder.java:118-126 | Under the normaliser that keeps every name, normalisation leaves all seven names as reported. |
| `Listener.SourceBuilder.ToAll` | oap-server/analyzer/agent-analyzer/src/main/java/org/apache/skywalking/oap/server/analyzer/provider/trace/parser/listener/SourceBuilder.java:131-146 | Global traffic carries the destination service, instance and endpoint. It also carries every metric, the request type, the time bucket and both tag views. |
| `Listener.SourceBuilder.ToService` | oap-server/analyzer/agent-analyzer/src/main/java/org/apache/skywalking/oap/server/analyzer/provider/trace/parser/listener/SourceBuilder.java:151-168 | The service record is the destination service with its layer and normal flag, the call's metrics and both tag views. |
| `Listener.SourceBuilder.ToServiceRelation` | oap-server/analyzer/agent-analyzer/src/main/java/org/apache/skywalking/oap/server/analyzer/provider/trace/parser/listener/SourceBuilder.java:173-192 | A fresh relation is always returned and the builder is not changed. It holds both sides' services, flags and instances, the destination endpoint as its label, and the call's metadata. Its ids and cache are still null. |
| `Listener.SourceBuilder.ToServiceInstance` | oap-server/analyzer/agent-analyzer/src/main/java/org/apache/skywalking/oap/server/analyzer/provider/trace/parser/listener/SourceBuilder.java:198-215 | The instance record is the destination instance under the destination service (with its flag and layer), with the call's metrics and tags. |
| `Listener.SourceBuilder.ToServiceInstanceRelation` | oap-server/analyzer/agent-analyzer/src/main/java/org/apache/skywalking/oap/server/analyzer/provider/trace/parser/listener/SourceBuilder.java:220-242 | No record exactly when either instance name is null or empty. Otherwise the record's names, flags and instances are the builder's, its endpoint is the destination endpoint, and the metadata is copied. |
| `Listener.SourceBuilder.ToEndpoint` | oap-server/analyzer/agent-analyzer/src/main/java/org/apache/skywalking/oap/server/analyzer/provider/trace/parser/listener/SourceBuilder.java:247-263 | The endpoint record is the destination endpoint with its service, flag and instance, the call's metrics and tags. |
| `Listener.SourceBuilder.ToEndpointRelation` | oap-server/analyzer/agent-analyzer/src/main/java/org/apache/skywalking/oap/server/analyzer/provider/trace/parser/listener/SourceBuilder.java:268-296 | No record exactly when either endpoint name is null or empty. Without an endpoint owner, the parent endpoint belongs to (source service, source flag). With one, it belongs to (owner, normal) whatever the source flag says. The child side is the destination, and `rpcLatency` is the latency. |
| `Listener.SourceBuilder.ToServiceMeta` | oap-server/analyzer/agent-analyzer/src/main/java/org/apache/skywalking/oap/server/analyzer/provider/trace/parser/listener/SourceBuilder.java:302-309 | The catalogue entry is only the destination name, layer, normal flag and time bucket. |
| `Listener.SourceBuilder.ToDatabaseAccess` | oap-server/analyzer/agent-analyzer/src/main/java/org/apache/skywalking/oap/server/analyzer/provider/trace/parser/listener/SourceBuilder.java:314-325 | A record exactly when the request type is `DATABASE` (a null type gives none). It holds the component id as the database type, the destination service as the name, and the latency, status and time bucket. |
| `Listener.SourceBuilder.SetTag` | oap-server/analyzer/agent-analyzer/src/main/java/org/apache/skywalking/oap/server/analyzer/provider/trace/parser/listener/SourceBuilder.java:327-330 | Exactly one `trim(key):trim(value)` entry is appended to the tag list, with the earlier entries kept in order. The raw key is bound to the raw value in the map, and no other key changes. |
| `Listener.ProjectionsAgreeOnMetrics` | oap-server/analyzer/agent-analyzer/src/main/java/org/apache/skywalking/oap/server/analyzer/provider/trace/parser/listener/SourceBuilder.java:131-263 | Global, service, instance and endpoint records from one builder agree on latency, status, request type and time bucket. |
| `Listener.ServiceMetaMatchesService` | oap-server/analyzer/agent-analyzer/src/main/java/org/apache/skywalking/oap/server/analyzer/provider/trace/parser/listener/SourceBuilder.java:298-309 | The catalogue entry names the same service, layer, flag and time bucket as the service traffic record. |
| `Listener.EndpointRelationChildIsEndpoint` | oap-server/analyzer/agent-analyzer/src/main/java/org/apache/skywalking/oap/server/analyzer/provider/trace/parser/listener/SourceBuilder.java:282-285 | When emitted, the endpoint relation's child side is the endpoint, service, flag and instance of the endpoint record. |
| `Listener.DatabaseAccessMatchesService` | oap-server/analyzer/agent-analyzer/src/main/java/org/apache/skywalking/oap/server/analyzer/provider/trace/parser/listener/SourceBuilder.java:319-323 | When emitted, the database access carries the service record's name, latency, status and time bucket. |
| `CoreSource.ServiceRelation.constructor` | oap-server/server-core/src/main/java/org/apache/skywalking/oap/server/core/source/ServiceRelation.java:31-110 | A new relation has every modelled field at its Java default. The cached id and both service ids are null. |
| `CoreSource.ServiceRelation.SetCall` | oap-server/server-core/src/main/java/org/apache/skywalking/oap/server/core/source/ServiceRelation.java:52-76 | The setters for the two services, flags, instances and the endpoint label write exactly those fields. |
| `CoreSource.ServiceRelation.SetMetrics` | oap-server/server-core/src/main/java/org/apache/skywalking/oap/server/core/source/ServiceRelation.java:77-101 | The setters for the component, metrics, request type, detect point and time bucket write exactly those fields. |
| `CoreSource.ServiceRelation.Scope` | oap-server/server-core/src/main/java/org/apache/skywalking/oap/server/core/source/ServiceRelation.java:34-37 | The scope is always `SERVICE_RELATION`. |
| `CoreSource.ServiceRelation.Prepare` | oap-server/server-core/src/main/java/org/apache/skywalking/oap/server/core/source/ServiceRelation.java:112-116 | The source id is `buildId(sourceServiceName, isSourceNormal)` and the destination id is `buildId(destServiceName, isDestNormal)`. The frame allows only these two fields to change. |
| `CoreSource.ServiceRelation.GetEntityId` | oap-server/server-core/src/main/java/org/apache/skywalking/oap/server/core/source/ServiceRelation.java:39-50 | When the cache is null or empty, the method stores and returns `buildRelationId(sourceServiceId, destServiceId)`, source first. Otherwise it returns the cached id and leaves the cache as it was. Only the cache may change. |
| `CallLifecycle.ServiceRelationEntityId` | oap-server/analyzer/agent-analyzer/src/main/java/org/apache/skywalking/oap/server/analyzer/provider/trace/parser/listener/SourceBuilder.java:173-192 | Any builder's service relation, once prepared, has entity id `buildRelationId(buildId(source name, source flag), buildId(dest name, dest flag))`. |
| `CallLifecycle.EntityIdIgnoresCallDetails` | oap-server/server-core/src/main/java/org/apache/skywalking/oap/server/core/source/ServiceRelation.java:41-47 | For any two builders whose source and destination service names and normal flags agree, the service relations they project get equal entity ids, whatever else the builders hold (instances, endpoints, component, codes, metrics, request type, detect point, time bucket, tags). |
| `CallLifecycle.CachedEntityIdIsKept` | oap-server/server-core/src/main/java/org/apache/skywalking/oap/server/core/source/ServiceRelation.java:40-50 | A second `getEntityId` returns the first, non-empty id, even after the source service is renamed and the ids are derived again (the stale cache is kept). |
| `CallLifecycle.RepeatedTagKey` | oap-server/analyzer/agent-analyzer/src/main/java/org/apache/skywalking/oap/server/analyzer/provider/trace/parser/listener/SourceBuilder.java:327-330 | Two tags under one key leave two list entries, in order, but a single map entry holding the second value. |
| `CallLifecycle.HttpMethodTags` | oap-server/analyzer/agent-analyzer/src/main/java/org/apache/skywalking/oap/server/analyzer/provider/trace/parser/listener/SourceBuilder.java:327-330 | `http.method` set to GET then POST gives the list `["http.method:GET", "http.method:POST"]` and the map `{http.method: POST}`. |
| `CallLifecycle.CheckoutBuilder` | oap-server/analyzer/agent-analyzer/src/main/java/org/apache/skywalking/oap/server/analyzer/provider/trace/parser/listener/SourceBuilder.java:118-126 | The verbatim normaliser leaves the checkout call's names as reported. |
| `CallLifecycle.CheckoutCall` | oap-server/analyzer/agent-analyzer/src/main/java/org/apache/skywalking/oap/server/analyzer/provider/trace/parser/listener/SourceBuilder.java:173-325 | The frontend→orders RPC with an empty source instance yields a service relation frontend→orders and an endpoint relation /checkout→/createOrder with `rpcLatency` 42. It yields no instance relation and no database access. |
| `CallLifecycle.RelayedCallOwner` | oap-server/analyzer/agent-analyzer/src/main/java/org/apache/skywalking/oap/server/analyzer/provider/trace/parser/listener/SourceBuilder.java:274-280 | With owner "gateway" and a non-normal source "orderSvc", the endpoint relation's parent service is ("gateway", normal). |

## Left out

- The `NamingControl` policy (length limits, endpoint grouping, its errors) is not part of this model. The formatters are arbitrary functions passed in. A failure inside them would propagate out of `prepare` unchanged and is not modelled.
- `Naming.NamingControl.FormatServiceName` and `FormatInstanceName` are assumed to preserve null: a null name maps to null, and a present name maps to a present formatted name. The real formatters' behaviour on null is not part of this model.
- The `IDManager` encoding is not part of this model. `buildId` and `buildRelationId` are arbitrary functions, passed to the `ServiceRelation` methods as a parameter where Java calls static methods.
- `DefaultScopeDefine` is not part of this model. `SERVICE_RELATION` is given the value 4 it has there.
- The identity derivation of the records other than `ServiceRelation` (their `getEntityId` and any ids they derive) is not part of this model.
- The `Source` base class is not part of this model. `timeBucket` is a plain field of each record.
- `ServiceRelation`'s `tlsMode`, `sideCar` and `tcpInfo` are never set by the builder and are left out.
- The records share the builder's tag list and map by reference. The model copies them as values, so later tag writes are not seen through an already built record. This is faithful to the populate → prepare → project order and does not model aliasing.
- `Layer`, `DetectPoint` and `RequestType` are reduced to opaque values. `RequestType` distinguishes only `DATABASE`.
- The Lombok getters and the storage and query annotations (`@ScopeDeclaration`, `@ScopeDefaultColumn`) only register columns and are left out. The builder's setters are plain field writes.
- Downstream aggregation, persistence and the concurrent pipeline are not part of this model.
