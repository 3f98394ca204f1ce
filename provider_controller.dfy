/** The zone cache of controllers/provider_controller.go: `updateCache`, which lists the
    Provider resources and stores every record set of each provider's hosted zone under
    `namespace/name`, and `updateCacheInBackground`, which empties the cache, refreshes it
    once and then once per tick, logging every failed refresh and carrying on. */
module ProviderController {
  import opened Wrappers
  import opened Route53
  import opened Paging
  import opened Provider

  /** A Provider resource as the refresh reads it. */
  datatype ProviderObject = ProviderObject(namespace: string, name: string, hostedZoneId: string, hostedZoneName: string)

  /** Why a refresh stopped: the Provider list could not be read, a provider's client could
      not be built, or its zone could not be listed. */
  datatype RefreshError =
    | ProviderListFailed(cause: ApiError)
    | ClientInitFailed(cause: ApiError)
    | FetchFailed(failure: ProviderError)

  /** The cache key of a provider, its namespace and name joined by a slash. */
  function CacheKey(p: ProviderObject): string
  {
    p.namespace + "/" + p.name
  }

  lemma KeyLayout(p: ProviderObject)
    ensures |CacheKey(p)| > |p.namespace| && CacheKey(p)[|p.namespace|] == '/'
    ensures forall i :: 0 <= i < |p.namespace| ==> CacheKey(p)[i] == p.namespace[i] && p.namespace[i] in p.namespace
  {
  }

  /** Namespaces hold no slash, so the key names one provider. */
  lemma CacheKeyInjective(p: ProviderObject, q: ProviderObject)
    requires '/' !in p.namespace && '/' !in q.namespace
    requires CacheKey(p) == CacheKey(q)
    ensures p.namespace == q.namespace && p.name == q.name
  {
    var key := CacheKey(p);
    if |p.namespace| != |q.namespace| {
      KeyLayout(p);
      KeyLayout(q);
      assert false;
    }
    assert p.namespace == key[..|p.namespace|];
    assert q.namespace == key[..|q.namespace|];
    assert p.name == key[|p.namespace| + 1..];
    assert q.name == key[|q.namespace| + 1..];
  }

  /** Every listed provider's zone can be listed to its end. */
  ghost predicate ZonesPage(list: ListRequest -> ListResponse, ps: seq<ProviderObject>)
  {
    forall p :: p in ps ==> PagingEnds(list, p.hostedZoneId)
  }

  /** The cache and the error after refreshing from a provider list. */
  datatype RefreshOutcome = RefreshOutcome(entries: map<string, seq<ResourceRecordSet>>, error: Option<RefreshError>)

  /** The refresh of the remaining providers `ps` over the cache `entries`, in list order:
      the first provider whose client cannot be built, or whose zone cannot be listed, stops
      the refresh with its error; each other provider's entry is replaced by its zone. */
  ghost function Refresh(list: ListRequest -> ListResponse, connect: ProviderObject -> Option<ApiError>,
                         ps: seq<ProviderObject>, entries: map<string, seq<ResourceRecordSet>>): RefreshOutcome
    requires ZonesPage(list, ps)
    decreases |ps|
  {
    if ps == [] then RefreshOutcome(entries, None)
    else if connect(ps[0]).Some? then RefreshOutcome(entries, Some(ClientInitFailed(connect(ps[0]).value)))
    else
      match AllPages(list, ps[0].hostedZoneId)
      case Err(e) => RefreshOutcome(entries, Some(FetchFailed(e)))
      case Ok(sets) => Refresh(list, connect, ps[1..], entries[CacheKey(ps[0]) := sets])
  }

  /** The calls a refresh makes to Route 53: every listing of every zone it reaches. */
  ghost function RefreshCalls(list: ListRequest -> ListResponse, connect: ProviderObject -> Option<ApiError>,
                              ps: seq<ProviderObject>): seq<Call>
    requires ZonesPage(list, ps)
    decreases |ps|
  {
    if ps == [] || connect(ps[0]).Some? then []
    else
      ListCalls(AllPageRequests(list, ps[0].hostedZoneId))
      + if AllPages(list, ps[0].hostedZoneId).Err? then [] else RefreshCalls(list, connect, ps[1..])
  }

  /** One refresh, given what listing the Provider resources returned. */
  ghost function Cycle(list: ListRequest -> ListResponse, connect: ProviderObject -> Option<ApiError>,
                       listing: Result<seq<ProviderObject>, ApiError>,
                       entries: map<string, seq<ResourceRecordSet>>): RefreshOutcome
    requires listing.Ok? ==> ZonesPage(list, listing.value)
  {
    if listing.Err? then RefreshOutcome(entries, Some(ProviderListFailed(listing.error)))
    else Refresh(list, connect, listing.value, entries)
  }

  ghost function CycleCalls(list: ListRequest -> ListResponse, connect: ProviderObject -> Option<ApiError>,
                            listing: Result<seq<ProviderObject>, ApiError>): seq<Call>
    requires listing.Ok? ==> ZonesPage(list, listing.value)
  {
    if listing.Err? then [] else RefreshCalls(list, connect, listing.value)
  }

  /** The error lines `updateCache` writes itself: one when a client cannot be built or a
      zone cannot be listed, none when listing the Provider resources fails. */
  function UpdateCacheLog(error: Option<RefreshError>): (lines: seq<RefreshError>)
    ensures |lines| <= 1 && (lines != [] ==> error.Some? && lines[0] == error.value)
  {
    if error.Some? && !error.value.ProviderListFailed? then [error.value] else []
  }

  /** The error lines of one refresh: `updateCache`'s own, then the caller's line for the
      error it returns. A failed client or zone listing is thus logged twice. */
  function CycleLog(error: Option<RefreshError>): (lines: seq<RefreshError>)
    ensures error.None? <==> lines == []
    ensures error.Some? ==> lines[|lines| - 1] == error.value
    ensures forall e :: e in lines ==> error == Some(e)
  {
    UpdateCacheLog(error) + if error.Some? then [error.value] else []
  }

  /** Every listing that succeeds names providers whose zones can be listed to the end. */
  ghost predicate ListingsPage(list: ListRequest -> ListResponse, listings: seq<Result<seq<ProviderObject>, ApiError>>)
  {
    forall l :: l in listings && l.Ok? ==> ZonesPage(list, l.value)
  }

  /** The cache after one refresh per listing, in order, from `entries`. */
  ghost function RunEntries(list: ListRequest -> ListResponse, connect: ProviderObject -> Option<ApiError>,
                            listings: seq<Result<seq<ProviderObject>, ApiError>>,
                            entries: map<string, seq<ResourceRecordSet>>): map<string, seq<ResourceRecordSet>>
    requires ListingsPage(list, listings)
    decreases |listings|
  {
    if listings == [] then entries
    else RunEntries(list, connect, listings[1..], Cycle(list, connect, listings[0], entries).entries)
  }

  /** The errors logged by one refresh per listing, in order. */
  ghost function RunLog(list: ListRequest -> ListResponse, connect: ProviderObject -> Option<ApiError>,
                        listings: seq<Result<seq<ProviderObject>, ApiError>>,
                        entries: map<string, seq<ResourceRecordSet>>): seq<RefreshError>
    requires ListingsPage(list, listings)
    decreases |listings|
  {
    if listings == [] then []
    else
      var outcome := Cycle(list, connect, listings[0], entries);
      CycleLog(outcome.error)
      + RunLog(list, connect, listings[1..], outcome.entries)
  }

  /** The Route 53 calls of one refresh per listing, in order. */
  ghost function RunCalls(list: ListRequest -> ListResponse, connect: ProviderObject -> Option<ApiError>,
                          listings: seq<Result<seq<ProviderObject>, ApiError>>,
                          entries: map<string, seq<ResourceRecordSet>>): seq<Call>
    requires ListingsPage(list, listings)
    decreases |listings|
  {
    if listings == [] then []
    else
      CycleCalls(list, connect, listings[0])
      + RunCalls(list, connect, listings[1..], Cycle(list, connect, listings[0], entries).entries)
  }

  /** One refresh of `RunEntries`, `RunLog` and `RunCalls`, from position `i` of the listings. */
  lemma RunAt(list: ListRequest -> ListResponse, connect: ProviderObject -> Option<ApiError>,
              listings: seq<Result<seq<ProviderObject>, ApiError>>, i: int, entries: map<string, seq<ResourceRecordSet>>)
    requires ListingsPage(list, listings) && 0 <= i < |listings|
    ensures listings[i] in listings && ListingsPage(list, listings[i + 1..])
    ensures var outcome := Cycle(list, connect, listings[i], entries);
      && RunEntries(list, connect, listings[i..], entries) == RunEntries(list, connect, listings[i + 1..], outcome.entries)
      && RunLog(list, connect, listings[i..], entries)
         == CycleLog(outcome.error) + RunLog(list, connect, listings[i + 1..], outcome.entries)
      && RunCalls(list, connect, listings[i..], entries)
         == CycleCalls(list, connect, listings[i]) + RunCalls(list, connect, listings[i + 1..], outcome.entries)
  {
    assert listings[i] in listings;
    assert listings[i..][0] == listings[i] && listings[i..][1..] == listings[i + 1..];
    assert forall l :: l in listings[i..] ==> l in listings;
  }

  /** The process-wide zone cache and the errors of the error lines logged, in order. */
  class ZoneCache {
    var entries: map<string, seq<ResourceRecordSet>>
    var logged: seq<RefreshError>

    constructor ()
      ensures entries == map[] && logged == []
    {
      entries := map[];
      logged := [];
    }

    /** `updateCache`: `providers` is what listing the Provider resources returned and
        `connect` says whether building each provider's client fails. A client that cannot be
        built or a zone that cannot be listed is logged here before its error is returned. */
    method UpdateCache(providers: Result<seq<ProviderObject>, ApiError>, connect: ProviderObject -> Option<ApiError>,
                       route53: Route53Client)
      returns (err: Option<RefreshError>)
      requires providers.Ok? ==> ZonesPage(route53.list, providers.value)
      modifies this, route53
      ensures logged == old(logged) + UpdateCacheLog(err)
      ensures var outcome := Cycle(route53.list, connect, providers, old(entries));
        entries == outcome.entries && err == outcome.error
      ensures route53.calls == old(route53.calls) + CycleCalls(route53.list, connect, providers)
    {
      if providers.Err? {
        return Some(ProviderListFailed(providers.error));
      }
      var ps := providers.value;
      assert ps[0..] == ps;
      for i := 0 to |ps|
        invariant logged == old(logged)
        invariant Refresh(route53.list, connect, ps[i..], entries) == Refresh(route53.list, connect, ps, old(entries))
        invariant old(route53.calls) + RefreshCalls(route53.list, connect, ps)
               == route53.calls + RefreshCalls(route53.list, connect, ps[i..])
      {
        var p := ps[i];
        assert p in ps && ps[i..][0] == p && ps[i..][1..] == ps[i + 1..];
        var cacheKey := CacheKey(p);
        var initErr := connect(p);
        if initErr.Some? {
          logged := logged + [ClientInitFailed(initErr.value)];
          return Some(ClientInitFailed(initErr.value));
        }
        ghost var callsBefore := route53.calls;
        var client := new Route53Provider(p.hostedZoneId, route53);
        var cacheData := client.AllRecords(p.hostedZoneName);
        if cacheData.Err? {
          logged := logged + [FetchFailed(cacheData.error)];
          return Some(FetchFailed(cacheData.error));
        }
        ConcatAssociative(callsBefore, ListCalls(AllPageRequests(route53.list, p.hostedZoneId)),
                          RefreshCalls(route53.list, connect, ps[i + 1..]));
        entries := entries[cacheKey := cacheData.value];
      }
      return None;
    }

    /** The start of `updateCacheInBackground`: empty the cache, refresh it, and log a failure
        after `updateCache`'s own error line. */
    method Start(providers: Result<seq<ProviderObject>, ApiError>, connect: ProviderObject -> Option<ApiError>,
                 route53: Route53Client)
      requires providers.Ok? ==> ZonesPage(route53.list, providers.value)
      modifies this, route53
      ensures var outcome := Cycle(route53.list, connect, providers, map[]);
        entries == outcome.entries
        && logged == old(logged) + CycleLog(outcome.error)
      ensures route53.calls == old(route53.calls) + CycleCalls(route53.list, connect, providers)
    {
      entries := map[];
      var err := UpdateCache(providers, connect, route53);
      ConcatAssociative(old(logged), UpdateCacheLog(err), if err.Some? then [err.value] else []);
      if err.Some? {
        logged := logged + [err.value];
      }
    }

    /** One tick of `updateCacheInBackground`: refresh the cache as it stands and log a failure
        after `updateCache`'s own error line. */
    method Tick(providers: Result<seq<ProviderObject>, ApiError>, connect: ProviderObject -> Option<ApiError>,
                route53: Route53Client)
      requires providers.Ok? ==> ZonesPage(route53.list, providers.value)
      modifies this, route53
      ensures var outcome := Cycle(route53.list, connect, providers, old(entries));
        entries == outcome.entries
        && logged == old(logged) + CycleLog(outcome.error)
      ensures route53.calls == old(route53.calls) + CycleCalls(route53.list, connect, providers)
    {
      var err := UpdateCache(providers, connect, route53);
      ConcatAssociative(old(logged), UpdateCacheLog(err), if err.Some? then [err.value] else []);
      if err.Some? {
        logged := logged + [err.value];
      }
    }

    /** `updateCacheInBackground` until its context ends: the initial refresh, then one per
        tick. A failed refresh is logged and the next tick refreshes again. */
    method Background(initial: Result<seq<ProviderObject>, ApiError>, ticks: seq<Result<seq<ProviderObject>, ApiError>>,
                      connect: ProviderObject -> Option<ApiError>, route53: Route53Client)
      requires ListingsPage(route53.list, [initial] + ticks)
      modifies this, route53
      ensures entries == RunEntries(route53.list, connect, [initial] + ticks, map[])
      ensures logged == old(logged) + RunLog(route53.list, connect, [initial] + ticks, map[])
      ensures route53.calls == old(route53.calls) + RunCalls(route53.list, connect, [initial] + ticks, map[])
    {
      var listings := [initial] + ticks;
      assert listings[1..] == ticks;
      RunAt(route53.list, connect, listings, 0, map[]);
      ghost var logBefore, callsBefore := old(logged), old(route53.calls);
      Start(initial, connect, route53);
      ghost var first := Cycle(route53.list, connect, initial, map[]);
      ConcatAssociative(logBefore, CycleLog(first.error),
                        RunLog(route53.list, connect, ticks, entries));
      ConcatAssociative(callsBefore, CycleCalls(route53.list, connect, initial),
                        RunCalls(route53.list, connect, ticks, entries));
      assert ticks[0..] == ticks;
      for i := 0 to |ticks|
        invariant RunEntries(route53.list, connect, ticks[i..], entries) == RunEntries(route53.list, connect, listings, map[])
        invariant logBefore + RunLog(route53.list, connect, listings, map[])
               == logged + RunLog(route53.list, connect, ticks[i..], entries)
        invariant callsBefore + RunCalls(route53.list, connect, listings, map[])
               == route53.calls + RunCalls(route53.list, connect, ticks[i..], entries)
      {
        RunAt(route53.list, connect, ticks, i, entries);
        ghost var loggedBefore, tickCallsBefore := logged, route53.calls;
        ghost var outcome := Cycle(route53.list, connect, ticks[i], entries);
        Tick(ticks[i], connect, route53);
        ConcatAssociative(loggedBefore, CycleLog(outcome.error),
                          RunLog(route53.list, connect, ticks[i + 1..], entries));
        ConcatAssociative(tickCallsBefore, CycleCalls(route53.list, connect, ticks[i]),
                          RunCalls(route53.list, connect, ticks[i + 1..], entries));
      }
    }
  }

  /** A refresh never drops a key: providers that are no longer listed keep their zones. */
  lemma {:induction false} RefreshKeepsKeys(list: ListRequest -> ListResponse, connect: ProviderObject -> Option<ApiError>,
                                            ps: seq<ProviderObject>, entries: map<string, seq<ResourceRecordSet>>)
    requires ZonesPage(list, ps)
    ensures entries.Keys <= Refresh(list, connect, ps, entries).entries.Keys
    decreases |ps|
  {
    if ps != [] && connect(ps[0]).None? && AllPages(list, ps[0].hostedZoneId).Ok? {
      RefreshKeepsKeys(list, connect, ps[1..], entries[CacheKey(ps[0]) := AllPages(list, ps[0].hostedZoneId).value]);
    }
  }

  /** A key that no listed provider has is left exactly as it was. */
  lemma {:induction false} RefreshLeavesOthers(list: ListRequest -> ListResponse, connect: ProviderObject -> Option<ApiError>,
                                               ps: seq<ProviderObject>, entries: map<string, seq<ResourceRecordSet>>, key: string)
    requires ZonesPage(list, ps)
    requires forall p :: p in ps ==> CacheKey(p) != key
    ensures var out := Refresh(list, connect, ps, entries).entries;
      (key in out <==> key in entries) && (key in entries ==> out[key] == entries[key])
    decreases |ps|
  {
    if ps != [] && connect(ps[0]).None? && AllPages(list, ps[0].hostedZoneId).Ok? {
      assert ps[0] in ps;
      RefreshLeavesOthers(list, connect, ps[1..], entries[CacheKey(ps[0]) := AllPages(list, ps[0].hostedZoneId).value], key);
    }
  }

  /** A provider whose client builds and whose zone lists in full. */
  ghost predicate Refreshable(list: ListRequest -> ListResponse, connect: ProviderObject -> Option<ApiError>, p: ProviderObject)
    requires PagingEnds(list, p.hostedZoneId)
  {
    connect(p).None? && AllPages(list, p.hostedZoneId).Ok?
  }

  /** A refresh succeeds exactly when every listed provider can be refreshed. */
  lemma {:induction false} RefreshSucceedsIff(list: ListRequest -> ListResponse, connect: ProviderObject -> Option<ApiError>,
                                              ps: seq<ProviderObject>, entries: map<string, seq<ResourceRecordSet>>)
    requires ZonesPage(list, ps)
    ensures Refresh(list, connect, ps, entries).error.None? <==> forall p :: p in ps ==> Refreshable(list, connect, p)
    ensures Refresh(list, connect, ps, entries).error.Some? ==> !Refresh(list, connect, ps, entries).error.value.ProviderListFailed?
    decreases |ps|
  {
    if ps != [] {
      assert ps[0] in ps;
      if Refreshable(list, connect, ps[0]) {
        RefreshSucceedsIff(list, connect, ps[1..], entries[CacheKey(ps[0]) := AllPages(list, ps[0].hostedZoneId).value]);
        assert forall p :: p in ps <==> p == ps[0] || p in ps[1..];
      }
    }
  }

  /** When a refresh fails, it failed at some provider `k`: every earlier provider was
      refreshed and the cache is what refreshing those alone gives; the error is the one of
      provider `k`; provider `k` and every later one keep their previous entries. */
  lemma {:induction false} RefreshFirstFailure(list: ListRequest -> ListResponse, connect: ProviderObject -> Option<ApiError>,
                                               ps: seq<ProviderObject>, entries: map<string, seq<ResourceRecordSet>>)
    requires ZonesPage(list, ps)
    requires Refresh(list, connect, ps, entries).error.Some?
    ensures exists k :: 0 <= k < |ps| && FailsAt(list, connect, ps, entries, k)
    decreases |ps|
  {
    assert ps[0] in ps;
    assert ps[..0] == [];
    if Refreshable(list, connect, ps[0]) {
      var next := entries[CacheKey(ps[0]) := AllPages(list, ps[0].hostedZoneId).value];
      RefreshFirstFailure(list, connect, ps[1..], next);
      var k :| 0 <= k < |ps[1..]| && FailsAt(list, connect, ps[1..], next, k);
      assert ps[1..][..k] == ps[..k + 1][1..];
      assert ps[..k + 1][0] == ps[0];
      assert ps[1..][k] == ps[k + 1];
      assert FailsAt(list, connect, ps, entries, k + 1);
    } else {
      assert FailsAt(list, connect, ps, entries, 0);
    }
  }

  /** Provider `k` is where the refresh of `ps` stopped. */
  ghost predicate FailsAt(list: ListRequest -> ListResponse, connect: ProviderObject -> Option<ApiError>,
                          ps: seq<ProviderObject>, entries: map<string, seq<ResourceRecordSet>>, k: int)
    requires ZonesPage(list, ps) && 0 <= k < |ps|
  {
    var out := Refresh(list, connect, ps, entries);
    var p := ps[k];
    && ps[k] in ps
    && (forall q :: q in ps[..k] ==> q in ps)
    && Refresh(list, connect, ps[..k], entries).error.None?
    && out.entries == Refresh(list, connect, ps[..k], entries).entries
    && !Refreshable(list, connect, p)
    && out.error == Some(if connect(p).Some? then ClientInitFailed(connect(p).value)
                         else FetchFailed(AllPages(list, p.hostedZoneId).error))
  }

  /** After a successful refresh, a provider's entry holds its zone's record sets, unless a
      later provider in the list has the same key (the later one wins). */
  lemma {:induction false} RefreshEntries(list: ListRequest -> ListResponse, connect: ProviderObject -> Option<ApiError>,
                                          ps: seq<ProviderObject>, entries: map<string, seq<ResourceRecordSet>>, i: int)
    requires ZonesPage(list, ps) && 0 <= i < |ps|
    requires Refresh(list, connect, ps, entries).error.None?
    requires forall j :: i < j < |ps| ==> CacheKey(ps[j]) != CacheKey(ps[i])
    ensures ps[i] in ps && Refreshable(list, connect, ps[i])
    ensures var out := Refresh(list, connect, ps, entries).entries;
      CacheKey(ps[i]) in out && out[CacheKey(ps[i])] == AllPages(list, ps[i].hostedZoneId).value
    decreases |ps|
  {
    assert ps[0] in ps && ps[i] in ps;
    RefreshSucceedsIff(list, connect, ps, entries);
    var next := entries[CacheKey(ps[0]) := AllPages(list, ps[0].hostedZoneId).value];
    if i == 0 {
      assert forall p :: p in ps[1..] ==> CacheKey(p) != CacheKey(ps[0]) by {
        forall p | p in ps[1..]
          ensures CacheKey(p) != CacheKey(ps[0])
        {
          var j :| 0 <= j < |ps[1..]| && ps[1..][j] == p;
          assert ps[j + 1] == p;
        }
      }
      RefreshLeavesOthers(list, connect, ps[1..], next, CacheKey(ps[0]));
    } else {
      assert ps[1..][i - 1] == ps[i];
      RefreshEntries(list, connect, ps[1..], next, i - 1);
    }
  }

  /** A failed refresh never stops the next one: the cache after one more tick is that
      tick's refresh of the cache before it, and its error lines, if any, are logged last. */
  lemma {:induction false} RunOneMore(list: ListRequest -> ListResponse, connect: ProviderObject -> Option<ApiError>,
                                      listings: seq<Result<seq<ProviderObject>, ApiError>>, tick: Result<seq<ProviderObject>, ApiError>,
                                      entries: map<string, seq<ResourceRecordSet>>)
    requires ListingsPage(list, listings + [tick])
    ensures ListingsPage(list, listings) && (tick.Ok? ==> ZonesPage(list, tick.value))
    ensures var before := RunEntries(list, connect, listings, entries);
      var outcome := Cycle(list, connect, tick, before);
      && RunEntries(list, connect, listings + [tick], entries) == outcome.entries
      && RunLog(list, connect, listings + [tick], entries)
         == RunLog(list, connect, listings, entries) + CycleLog(outcome.error)
    decreases |listings|
  {
    assert tick == (listings + [tick])[|listings|];
    assert forall l :: l in listings ==> l in listings + [tick];
    if listings == [] {
      assert [tick][1..] == [];
    } else {
      var first := Cycle(list, connect, listings[0], entries);
      assert (listings + [tick])[0] == listings[0];
      assert (listings + [tick])[1..] == listings[1..] + [tick];
      assert listings[0] in listings;
      RunOneMore(list, connect, listings[1..], tick, first.entries);
      var e0 := CycleLog(first.error);
      var outcome := Cycle(list, connect, tick, RunEntries(list, connect, listings, entries));
      var e1 := CycleLog(outcome.error);
      ConcatAssociative(e0, RunLog(list, connect, listings[1..], first.entries), e1);
    }
  }
}
