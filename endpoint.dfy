/** The engine's record model, controllers/endpoint/endpoint.go. */
module Endpoint {
  import opened Wrappers

  /** Where an alias record points. */
  datatype AliasOpts = AliasOpts(dnsName: string, hostedZoneId: string, evaluateAliasTargetHealth: bool)

  /** The zero value of `AliasOpts`. */
  const NoAlias := AliasOpts("", "", false)

  /** One DNS record, desired or observed. `weight` is a pointer in Go; the diff compares
      endpoints with `reflect.DeepEqual`, which compares the pointees, so datatype equality
      over all nine fields is exactly that comparison. */
  datatype Endpoint = Endpoint(
    dnsName: string,
    recordClass: string,
    rdata: string,
    ttl: int,
    id: string,
    resourceOwner: string,
    weight: Option<int>,
    isAlias: bool,
    aliasTarget: AliasOpts)

  /** The endpoint with only its name and class set, every other field at its zero value. */
  function Named(dnsName: string, recordClass: string): (ep: Endpoint)
  {
    Endpoint(dnsName, recordClass, "", 0, "", "", None, false, NoAlias)
  }
}
