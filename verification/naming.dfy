/**
  The name normaliser the builder is given (`NamingControl`). Its policy is
  not part of this model: the three formatters are arbitrary total functions.
  Formatting a service or an instance name is assumed to map a null name
  to null and a present name to its formatted value; formatting an
  endpoint name sees both the owning service name and the endpoint name,
  either of which may be null.
 */
module Naming {
  import opened JavaLang

  datatype NamingControl = NamingControl(
    serviceName: string -> string,
    instanceName: string -> string,
    endpointName: (Option<string>, Option<string>) -> Option<string>)
  {
    /** `formatServiceName`. */
    function FormatServiceName(name: Option<string>): Option<string> {
      match name
      case None => None
      case Some(s) => Some(serviceName(s))
    }

    /** `formatInstanceName`. */
    function FormatInstanceName(name: Option<string>): Option<string> {
      match name
      case None => None
      case Some(s) => Some(instanceName(s))
    }

    /** `formatEndpointName(serviceName, endpointName)`. */
    function FormatEndpointName(owner: Option<string>, name: Option<string>): Option<string> {
      endpointName(owner, name)
    }

    /**
      A normaliser whose formatters are projections: formatting an already
      formatted name changes nothing (for the endpoint: under the same owner).
     */
    ghost predicate Idempotent() {
      && (forall s :: serviceName(serviceName(s)) == serviceName(s))
      && (forall s :: instanceName(instanceName(s)) == instanceName(s))
      && (forall o, e :: endpointName(o, endpointName(o, e)) == endpointName(o, e))
    }
  }

  /** The normaliser that keeps every name as reported. */
  function Verbatim(): (nc: NamingControl)
    ensures nc.Idempotent()
    ensures forall s :: nc.FormatServiceName(s) == s
  {
    NamingControl(s => s, s => s, (o, e) => e)
  }
}
