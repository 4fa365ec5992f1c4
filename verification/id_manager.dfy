/**
  The identity deriver (`IDManager.ServiceID`). Its encoding is not part of
  this model: a service id is some string determined by the service name
  and its normal flag, and a relation id some string determined by the two
  service ids, in source-then-destination order.
 */
module IdManager {
  import opened JavaLang

  datatype ServiceIdScheme = ServiceIdScheme(
    buildId: (Option<string>, bool) -> string,
    buildRelationId: (Option<string>, Option<string>) -> string)
}
