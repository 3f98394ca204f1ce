/** The intent a user declares, api/v1alpha1/resourcerecord_types.go. */
module ResourceRecordTypes {
  import opened Wrappers

  /** The record types the schema admits. */
  const RecordClasses: set<string> := {"A", "NS", "AAAA", "MX", "CNAME", "SRV", "TXT"}

  /** The largest TTL the schema admits (2^31 - 1). */
  const MaxTtl := 0x7fff_ffff

  /** The largest weight the schema admits. */
  const MaxWeight := 255

  datatype AliasTarget = AliasTarget(record: string, evaluateTargetHealth: bool, hostedZoneID: string)

  /** `ResourceRecordSpec`; `weight` and `id` are nullable pointers in Go. */
  datatype ResourceRecordSpec = ResourceRecordSpec(
    recordClass: string,
    ttl: int,
    weight: Option<int>,
    ownerRef: string,
    providerRef: string,
    rdata: string,
    isAlias: bool,
    aliasTarget: AliasTarget,
    id: Option<string>)

  /** The bounds the API server enforces on a spec before any controller sees it. */
  predicate Valid(spec: ResourceRecordSpec)
  {
    && spec.recordClass in RecordClasses
    && 0 <= spec.ttl <= MaxTtl
    && (spec.weight.Some? ==> 0 <= spec.weight.value <= MaxWeight)
  }
}
