/** The slice of the Route 53 API the engine uses (the SDK types of
    `github.com/aws/aws-sdk-go-v2/service/route53`, trimmed to the fields that are read or
    written) and a stand-in for the `Route53API` client interface. */
module Route53 {
  import opened Wrappers

  /** `types.RRTypeTxt`. */
  const RRTypeTxt := "TXT"

  datatype AliasTarget = AliasTarget(dnsName: string, hostedZoneId: string, evaluateTargetHealth: bool)

  /** `types.ResourceRecordSet`: optional pointers become `Option`, the record list keeps
      only each record's value. */
  datatype ResourceRecordSet = ResourceRecordSet(
    name: string,
    rrType: string,
    setIdentifier: Option<string>,
    weight: Option<int>,
    ttl: Option<int>,
    resourceRecords: seq<string>,
    aliasTarget: Option<AliasTarget>)

  /** What Route 53 guarantees of every record set it lists: an alias set carries its
      target, any other set carries a TTL and at least one value. The Go code dereferences
      these pointers and indexes the first value without checking. */
  predicate WellFormed(r: ResourceRecordSet)
  {
    r.aliasTarget.Some? || (r.ttl.Some? && |r.resourceRecords| > 0)
  }

  datatype ChangeAction = Create | Delete | Upsert

  datatype Change = Change(action: ChangeAction, resourceRecordSet: ResourceRecordSet)

  /** `ChangeResourceRecordSetsInput`: one batch of changes for one hosted zone. */
  datatype ChangeBatchRequest = ChangeBatchRequest(hostedZoneId: string, changes: seq<Change>)

  /** `ListResourceRecordSetsInput`: the zone and the optional start cursor. */
  datatype ListRequest = ListRequest(
    hostedZoneId: string,
    startRecordName: Option<string>,
    startRecordType: Option<string>,
    startRecordIdentifier: Option<string>)

  /** `ListResourceRecordSetsOutput`: one page and the cursor of the next one. */
  datatype ListOutput = ListOutput(
    resourceRecordSets: seq<ResourceRecordSet>,
    isTruncated: bool,
    nextRecordName: Option<string>,
    nextRecordType: Option<string>,
    nextRecordIdentifier: Option<string>)

  /** An error returned by the provider's API; its text is not modelled. */
  datatype ApiError = ApiError(code: string)

  datatype ListResponse = Listed(output: ListOutput) | Failed(cause: ApiError)

  /** The errors aws.go returns, each wrapped with the hosted zone it concerns. */
  datatype ProviderError =
    | ListError(zoneId: string, cause: ApiError)
    | ChangeError(zoneId: string, cause: ApiError)

  /** One call made on the client, in the order made. */
  datatype Call = ListCall(request: ListRequest) | ChangeCall(batch: ChangeBatchRequest)

  /** The request for the first page of a zone: no start cursor. */
  function FirstPage(hostedZoneId: string): ListRequest
  {
    ListRequest(hostedZoneId, None, None, None)
  }

  /** The request following `req`, from the cursor returned with its page. */
  function NextPage(req: ListRequest, out: ListOutput): ListRequest
  {
    ListRequest(req.hostedZoneId, out.nextRecordName, out.nextRecordType, out.nextRecordIdentifier)
  }

  /** Every page the provider answers with holds only well-formed record sets. */
  ghost predicate WellFormedListings(list: ListRequest -> ListResponse)
  {
    forall req :: list(req).Listed? ==>
      forall r :: r in list(req).output.resourceRecordSets ==> WellFormed(r)
  }

  /** A list of calls made from a list of listing requests. */
  function ListCalls(reqs: seq<ListRequest>): (calls: seq<Call>)
    ensures |calls| == |reqs|
    ensures forall k :: 0 <= k < |reqs| ==> calls[k] == ListCall(reqs[k])
  {
    seq(|reqs|, k requires 0 <= k < |reqs| => ListCall(reqs[k]))
  }

  lemma ListCallsConcat(a: seq<ListRequest>, b: seq<ListRequest>)
    ensures ListCalls(a + b) == ListCalls(a) + ListCalls(b)
  {
  }

  /** Regrouping a log that grows by appending. */
  lemma ConcatAssociative<T>(a: seq<T>, b: seq<T>, c: seq<T>)
    ensures (a + b) + c == a + (b + c)
  {
  }

  /** A client for Route 53. What the provider answers is fixed when the client is built
      (`list` answers listing requests, `change` says whether a batch is rejected); the
      client records every call it receives in `calls`. */
  class Route53Client {
    const list: ListRequest -> ListResponse
    const change: ChangeBatchRequest -> Option<ApiError>
    var calls: seq<Call>

    constructor (list: ListRequest -> ListResponse, change: ChangeBatchRequest -> Option<ApiError>)
      ensures this.list == list && this.change == change
      ensures calls == []
    {
      this.list := list;
      this.change := change;
      calls := [];
    }

    /** `ListResourceRecordSets`. */
    method ListResourceRecordSets(req: ListRequest) returns (resp: ListResponse)
      modifies this
      ensures resp == list(req)
      ensures calls == old(calls) + [ListCall(req)]
    {
      resp := list(req);
      calls := calls + [ListCall(req)];
    }

    /** `ChangeResourceRecordSets`: `None` is success. */
    method ChangeResourceRecordSets(batch: ChangeBatchRequest) returns (err: Option<ApiError>)
      modifies this
      ensures err == change(batch)
      ensures calls == old(calls) + [ChangeCall(batch)]
    {
      err := change(batch);
      calls := calls + [ChangeCall(batch)];
    }
  }
}
