/** Pagination, `AllRecords` in controllers/provider/aws.go: list a whole zone page by page,
    following the cursor returned with each truncated page. */
module Paging {
  import opened Wrappers
  import opened Route53

  /** The listing from `req` reaches, within `n` requests, a page that fails or is not
      truncated. Route 53 zones are finite, so their listing always ends. */
  ghost predicate ListingEnds(list: ListRequest -> ListResponse, req: ListRequest, n: nat)
    decreases n
  {
    n > 0 &&
    (list(req).Failed? || !list(req).output.isTruncated || ListingEnds(list, NextPage(req, list(req).output), n - 1))
  }

  /** The listing of a whole zone ends. */
  ghost predicate PagingEnds(list: ListRequest -> ListResponse, hostedZoneId: string)
  {
    exists n :: ListingEnds(list, FirstPage(hostedZoneId), n)
  }

  /** The record sets gathered from `req` on: the pages in fetch order, or the first
      listing error wrapped with the zone id (the pages gathered so far are dropped). */
  function Pages(list: ListRequest -> ListResponse, req: ListRequest, n: nat): Result<seq<ResourceRecordSet>, ProviderError>
    requires ListingEnds(list, req, n)
    decreases n
  {
    match list(req)
    case Failed(e) => Err(ListError(req.hostedZoneId, e))
    case Listed(out) =>
      if !out.isTruncated then Ok(out.resourceRecordSets)
      else
        match Pages(list, NextPage(req, out), n - 1)
        case Ok(rest) => Ok(out.resourceRecordSets + rest)
        case Err(e) => Err(e)
  }

  /** A result with `prefix` put in front of its record sets. */
  function Prepend(prefix: seq<ResourceRecordSet>, r: Result<seq<ResourceRecordSet>, ProviderError>): Result<seq<ResourceRecordSet>, ProviderError>
  {
    match r
    case Ok(rest) => Ok(prefix + rest)
    case Err(e) => Err(e)
  }

  /** The requests made from `req` on: each page's request, up to the first that fails or is
      not truncated. */
  function PageRequests(list: ListRequest -> ListResponse, req: ListRequest, n: nat): seq<ListRequest>
    requires ListingEnds(list, req, n)
    decreases n
  {
    [req] + if list(req).Listed? && list(req).output.isTruncated then PageRequests(list, NextPage(req, list(req).output), n - 1) else []
  }

  /** The record sets of a whole zone. */
  ghost function AllPages(list: ListRequest -> ListResponse, hostedZoneId: string): Result<seq<ResourceRecordSet>, ProviderError>
    requires PagingEnds(list, hostedZoneId)
  {
    var n :| ListingEnds(list, FirstPage(hostedZoneId), n);
    Pages(list, FirstPage(hostedZoneId), n)
  }

  /** The requests made to list a whole zone. */
  ghost function AllPageRequests(list: ListRequest -> ListResponse, hostedZoneId: string): seq<ListRequest>
    requires PagingEnds(list, hostedZoneId)
  {
    var n :| ListingEnds(list, FirstPage(hostedZoneId), n);
    PageRequests(list, FirstPage(hostedZoneId), n)
  }

  /** The bound on the number of requests does not change what is gathered or requested. */
  lemma {:induction false} PagesBoundIrrelevant(list: ListRequest -> ListResponse, req: ListRequest, n1: nat, n2: nat)
    requires ListingEnds(list, req, n1) && ListingEnds(list, req, n2)
    ensures Pages(list, req, n1) == Pages(list, req, n2)
    ensures PageRequests(list, req, n1) == PageRequests(list, req, n2)
    decreases n1
  {
    if list(req).Listed? && list(req).output.isTruncated {
      PagesBoundIrrelevant(list, NextPage(req, list(req).output), n1 - 1, n2 - 1);
    }
  }

  /** A zone's record sets and requests are those gathered under any bound that suffices. */
  lemma AllPagesAnyBound(list: ListRequest -> ListResponse, hostedZoneId: string, n: nat)
    requires ListingEnds(list, FirstPage(hostedZoneId), n)
    ensures PagingEnds(list, hostedZoneId)
    ensures AllPages(list, hostedZoneId) == Pages(list, FirstPage(hostedZoneId), n)
    ensures AllPageRequests(list, hostedZoneId) == PageRequests(list, FirstPage(hostedZoneId), n)
  {
    var m :| ListingEnds(list, FirstPage(hostedZoneId), m) && AllPages(list, hostedZoneId) == Pages(list, FirstPage(hostedZoneId), m);
    PagesBoundIrrelevant(list, FirstPage(hostedZoneId), n, m);
    var m2 :| ListingEnds(list, FirstPage(hostedZoneId), m2) && AllPageRequests(list, hostedZoneId) == PageRequests(list, FirstPage(hostedZoneId), m2);
    PagesBoundIrrelevant(list, FirstPage(hostedZoneId), n, m2);
  }

  /** The requests follow the cursor: the first is `req`, each later one is built from the
      previous page's next name, type and identifier, every page before the last was listed
      and truncated, and the last failed or was not truncated. All stay in one zone. */
  lemma {:induction false} PageRequestsFollowCursor(list: ListRequest -> ListResponse, req: ListRequest, n: nat)
    requires ListingEnds(list, req, n)
    ensures var reqs := PageRequests(list, req, n);
      && 1 <= |reqs| <= n
      && reqs[0] == req
      && (forall k :: 0 <= k < |reqs| ==> reqs[k].hostedZoneId == req.hostedZoneId)
      && (forall k :: 0 <= k < |reqs| - 1 ==>
            list(reqs[k]).Listed? && list(reqs[k]).output.isTruncated && reqs[k + 1] == NextPage(reqs[k], list(reqs[k]).output))
      && (list(reqs[|reqs| - 1]).Failed? || !list(reqs[|reqs| - 1]).output.isTruncated)
    decreases n
  {
    if list(req).Listed? && list(req).output.isTruncated {
      var next := NextPage(req, list(req).output);
      PageRequestsFollowCursor(list, next, n - 1);
      var rest := PageRequests(list, next, n - 1);
      var reqs := PageRequests(list, req, n);
      assert reqs == [req] + rest;
      forall k | 0 <= k < |reqs| - 1
        ensures list(reqs[k]).Listed? && list(reqs[k]).output.isTruncated && reqs[k + 1] == NextPage(reqs[k], list(reqs[k]).output)
      {
        if k > 0 {
          assert reqs[k] == rest[k - 1] && reqs[k + 1] == rest[k];
        }
      }
    }
  }

  /** The record sets of the listed pages, in order. */
  function Joined(list: ListRequest -> ListResponse, reqs: seq<ListRequest>): seq<ResourceRecordSet>
    decreases |reqs|
  {
    if reqs == [] then []
    else (if list(reqs[0]).Listed? then list(reqs[0]).output.resourceRecordSets else []) + Joined(list, reqs[1..])
  }

  /** The gathered record sets are the concatenation of every requested page, in fetch order;
      on failure the error is the last request's, wrapped with the zone id. */
  lemma {:induction false} PagesAreConcatenation(list: ListRequest -> ListResponse, req: ListRequest, n: nat)
    requires ListingEnds(list, req, n)
    ensures var reqs := PageRequests(list, req, n);
      var last := list(reqs[|reqs| - 1]);
      && (Pages(list, req, n).Ok? <==> last.Listed?)
      && (Pages(list, req, n).Ok? ==> Pages(list, req, n).value == Joined(list, reqs))
      && (last.Failed? ==> Pages(list, req, n) == Err(ListError(req.hostedZoneId, last.cause)))
    decreases n
  {
    var reqs := PageRequests(list, req, n);
    if list(req).Listed? && list(req).output.isTruncated {
      var next := NextPage(req, list(req).output);
      PagesAreConcatenation(list, next, n - 1);
      var rest := PageRequests(list, next, n - 1);
      assert reqs == [req] + rest;
      assert reqs[1..] == rest;
      assert reqs[|reqs| - 1] == rest[|rest| - 1];
    } else {
      assert reqs == [req];
      assert reqs[1..] == [];
    }
  }
}
