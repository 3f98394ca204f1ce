/** The convergence driver, `Route53Provider` in controllers/provider/aws.go: `records`,
    `AllRecords` and `Converge`, and what they achieve together with the diff engine. */
module Provider {
  import opened Wrappers
  import opened Endpoint
  import opened ResourceRecordTypes
  import opened Route53
  import opened Names
  import opened Diff
  import opened Records
  import opened Paging

  /** The desired endpoint `Converge` builds from a spec, before any owner's name is set. */
  function DesiredEndpoint(spec: ResourceRecordSpec): (ep: Endpoint)
    ensures ep.recordClass == spec.recordClass && ep.ttl == spec.ttl
    ensures ep.isAlias == spec.isAlias
    ensures spec.isAlias ==>
      ep.aliasTarget == AliasOpts(spec.aliasTarget.record, spec.aliasTarget.hostedZoneID, spec.aliasTarget.evaluateTargetHealth)
      && ep.rdata == ""
    ensures !spec.isAlias ==> ep.rdata == spec.rdata && ep.aliasTarget == NoAlias
    ensures ep.weight == spec.weight
    ensures ep.id == (if spec.id.Some? then spec.id.value else "")
    ensures ep.dnsName == "" && ep.resourceOwner == ""
  {
    var base := Named("", spec.recordClass).(ttl := spec.ttl);
    var shaped :=
      if spec.isAlias then
        base.(isAlias := true,
              aliasTarget := AliasOpts(spec.aliasTarget.record, spec.aliasTarget.hostedZoneID, spec.aliasTarget.evaluateTargetHealth))
      else base.(rdata := spec.rdata);
    var weighted := if spec.weight.Some? then shaped.(weight := spec.weight) else shaped;
    if spec.id.Some? then weighted.(id := spec.id.value) else weighted
  }

  /** The result of the change call, wrapped with the zone id on failure. */
  function ChangeOutcome(zoneId: string, err: Option<ApiError>): Option<ProviderError>
  {
    if err.Some? then Some(ChangeError(zoneId, err.value)) else None
  }

  /** The scan of one listed page inside `records`: walk the sets from the owner's FQDN,
      stop at the first foreign name or rejected set identifier, and write every accepted
      match, built on one reused accumulator, into the map under the owner. */
  method StoreMatches(sets: seq<ResourceRecordSet>, fqdn: string, recordType: string, id: Option<string>,
                      owner: string, endpoints: map<string, Endpoint>) returns (updated: map<string, Endpoint>)
    requires AllWellFormed(sets)
    ensures var hit := Resolve(sets, fqdn, recordType, id);
      updated == if hit.Some? then endpoints[owner := hit.value] else endpoints
  {
    updated := endpoints;
    var ep := Named(fqdn, recordType);
    ghost var stored: Option<Endpoint> := None;
    assert sets[0..] == sets;
    var j := 0;
    while j < |sets|
      invariant 0 <= j <= |sets|
      invariant AllWellFormed(sets[j..])
      invariant Scan(sets[j..], fqdn, recordType, id, ep, stored) == Resolve(sets, fqdn, recordType, id)
      invariant updated == if stored.Some? then endpoints[owner := stored.value] else endpoints
    {
      var r := sets[j];
      ScanAt(sets, j, fqdn, recordType, id, ep, stored);
      ghost var ep0 := ep;
      if r.name == fqdn {
        if r.rrType == recordType {
          if r.aliasTarget.Some? {
            ep := ep.(aliasTarget := AliasOpts(r.aliasTarget.value.dnsName, r.aliasTarget.value.hostedZoneId,
                                               r.aliasTarget.value.evaluateTargetHealth));
          } else {
            ep := ep.(rdata := r.resourceRecords[0]);
            ep := ep.(ttl := r.ttl.value);
          }
          if id.Some? {
            if r.setIdentifier.Some? && id.value == r.setIdentifier.value {
              ep := ep.(id := r.setIdentifier.value);
            } else {
              break;
            }
          }
          if r.weight.Some? {
            ep := ep.(weight := r.weight);
          }
          assert ep == Step(ep0, r, id);
          updated := updated[owner := ep];
          stored := Some(ep);
        }
      } else {
        break;
      }
      j := j + 1;
    }
  }

  /** A Route 53 provider bound to one hosted zone and one client. */
  class Route53Provider {
    const hostedZoneId: string
    const client: Route53Client

    constructor (hostedZoneId: string, client: Route53Client)
      ensures this.hostedZoneId == hostedZoneId && this.client == client
    {
      this.hostedZoneId := hostedZoneId;
      this.client := client;
    }

    /** `records`: one listing per owner from its FQDN; the scan of each page stores every
        accepted match under the owner, reusing one accumulator, and breaks on a foreign
        name or a rejected set identifier. */
    method Records(zoneId: string, zoneName: string, owners: seq<string>, recordType: string, id: Option<string>)
      returns (res: Result<map<string, Endpoint>, ProviderError>)
      requires WellFormedListings(client.list)
      modifies client
      ensures res == Resolved(client.list, zoneId, zoneName, owners, recordType, id, map[])
      ensures client.calls == old(client.calls) + ListCalls(ResolveRequests(client.list, zoneId, zoneName, owners))
    {
      var endpoints: map<string, Endpoint> := map[];
      assert owners[0..] == owners;
      for i := 0 to |owners|
        invariant Resolved(client.list, zoneId, zoneName, owners[i..], recordType, id, endpoints)
               == Resolved(client.list, zoneId, zoneName, owners, recordType, id, map[])
        invariant old(client.calls) + ListCalls(ResolveRequests(client.list, zoneId, zoneName, owners))
               == client.calls + ListCalls(ResolveRequests(client.list, zoneId, zoneName, owners[i..]))
      {
        var owner := owners[i];
        var fqdn := BuildFQDN(owner, zoneName);
        var req := OwnerRequest(zoneId, fqdn);
        ResolvedAt(client.list, zoneId, zoneName, owners, i, recordType, id, endpoints);
        ghost var callsBefore := client.calls;
        var output := client.ListResourceRecordSets(req);
        if output.Failed? {
          return Err(ListError(zoneId, output.cause));
        }
        ConcatAssociative(callsBefore, [ListCall(req)], ListCalls(ResolveRequests(client.list, zoneId, zoneName, owners[i + 1..])));
        endpoints := StoreMatches(output.output.resourceRecordSets, fqdn, recordType, id, owner, endpoints);
      }
      return Ok(endpoints);
    }

    /** `AllRecords`: every record set of the provider's zone, page after page, following
        the next name, type and identifier of each truncated page. */
    method AllRecords(zoneName: string) returns (res: Result<seq<ResourceRecordSet>, ProviderError>)
      requires PagingEnds(client.list, hostedZoneId)
      modifies client
      ensures res == AllPages(client.list, hostedZoneId)
      ensures client.calls == old(client.calls) + ListCalls(AllPageRequests(client.list, hostedZoneId))
    {
      ghost var first := FirstPage(hostedZoneId);
      ghost var n: nat :| ListingEnds(client.list, first, n);
      AllPagesAnyBound(client.list, hostedZoneId, n);
      var result: seq<ResourceRecordSet> := [];
      var params := FirstPage(hostedZoneId);
      var isTrunc := true;
      ghost var bound := n;
      match Pages(client.list, first, n) {
        case Ok(rest) => assert [] + rest == rest;
        case Err(_) =>
      }
      while isTrunc
        invariant params.hostedZoneId == hostedZoneId
        invariant isTrunc ==> ListingEnds(client.list, params, bound)
        invariant isTrunc ==> Pages(client.list, first, n) == Prepend(result, Pages(client.list, params, bound))
        invariant isTrunc ==>
          old(client.calls) + ListCalls(PageRequests(client.list, first, n))
            == client.calls + ListCalls(PageRequests(client.list, params, bound))
        invariant !isTrunc ==> Pages(client.list, first, n) == Ok(result)
        invariant !isTrunc ==> client.calls == old(client.calls) + ListCalls(PageRequests(client.list, first, n))
        decreases bound
      {
        ghost var callsBefore := client.calls;
        ghost var reqs := PageRequests(client.list, params, bound);
        var output := client.ListResourceRecordSets(params);
        if output.Failed? {
          assert reqs == [params];
          assert ListCalls(reqs) == [ListCall(params)];
          return Err(ListError(hostedZoneId, output.cause));
        }
        ghost var out := output.output;
        ghost var prefix := result;
        result := result + output.output.resourceRecordSets;
        isTrunc := output.output.isTruncated;
        params := params.(startRecordName := output.output.nextRecordName,
                          startRecordType := output.output.nextRecordType,
                          startRecordIdentifier := output.output.nextRecordIdentifier);
        if isTrunc {
          ghost var later := PageRequests(client.list, params, bound - 1);
          assert reqs == [reqs[0]] + later;
          ListCallsConcat([reqs[0]], later);
          assert ListCalls([reqs[0]]) == [ListCall(reqs[0])];
          ConcatAssociative(callsBefore, [ListCall(reqs[0])], ListCalls(later));
          match Pages(client.list, params, bound - 1) {
            case Ok(rest) => ConcatAssociative(prefix, out.resourceRecordSets, rest);
            case Err(_) =>
          }
        } else {
          assert reqs == [reqs[0]];
        }
        bound := bound - 1;
      }
      return Ok(result);
    }

    /** `Converge`: build the desired endpoint, resolve the owners' actual endpoints, diff
        them, and submit the changes as one batch for the zone when there are any. */
    method Converge(zoneId: string, zoneName: string, owners: seq<string>, rrSpec: ResourceRecordSpec)
      returns (err: Option<ProviderError>)
      requires WellFormedListings(client.list)
      modifies client
      ensures var found := Resolved(client.list, zoneId, zoneName, owners, rrSpec.recordClass, rrSpec.id, map[]);
        var listed := old(client.calls) + ListCalls(ResolveRequests(client.list, zoneId, zoneName, owners));
        if found.Err? then
          err == Some(found.error) && client.calls == listed
        else
          var changes := DiffSpec(owners, zoneName, DesiredEndpoint(rrSpec), found.value);
          if changes == [] then
            err == None && client.calls == listed
          else
            var batch := ChangeBatchRequest(zoneId, changes);
            client.calls == listed + [ChangeCall(batch)] && err == ChangeOutcome(zoneId, client.change(batch))
    {
      var desired := Named("", rrSpec.recordClass).(ttl := rrSpec.ttl);
      if rrSpec.isAlias {
        desired := desired.(isAlias := true);
        desired := desired.(aliasTarget := AliasOpts(rrSpec.aliasTarget.record, rrSpec.aliasTarget.hostedZoneID,
                                                     rrSpec.aliasTarget.evaluateTargetHealth));
      } else {
        desired := desired.(rdata := rrSpec.rdata);
      }
      if rrSpec.weight.Some? {
        desired := desired.(weight := rrSpec.weight);
      }
      if rrSpec.id.Some? {
        desired := desired.(id := rrSpec.id.value);
      }
      assert desired == DesiredEndpoint(rrSpec);

      var currentRecords := Records(zoneId, zoneName, owners, rrSpec.recordClass, rrSpec.id);
      if currentRecords.Err? {
        return Some(currentRecords.error);
      }

      var changes := Diff.Diff(owners, zoneName, desired, currentRecords.value);

      if 0 < |changes| {
        var changeErr := client.ChangeResourceRecordSets(ChangeBatchRequest(zoneId, changes));
        if changeErr.Some? {
          return Some(ChangeError(zoneId, changeErr.value));
        }
      }
      return None;
    }
  }

  /** Round trip: the record set a non-alias change creates for an owner, once it is the
      first set listed from the owner's FQDN and nothing after it overrides it, resolves to
      exactly the desired endpoint. Sets of the owner's name and other types, such as its TXT
      owner marker, are skipped. With an identifier, the next set of the desired type, such as
      another weighted set of the name, carries another identifier and ends the scan. A set
      identifier without a weight is excluded: the change then carries no identifier and the
      identifier filter rejects it. */
  lemma CreatedRecordResolves(spec: ResourceRecordSpec, fqdn: string, rest: seq<ResourceRecordSet>)
    requires !spec.isAlias && (spec.id.Some? ==> spec.weight.Some?)
    requires AllWellFormed(rest)
    requires NothingOverrides(rest, fqdn, spec.recordClass, spec.id)
    ensures var desired := Stamp(DesiredEndpoint(spec), fqdn);
      AllWellFormed([RecordSetFor(desired)] + rest) &&
      Resolve([RecordSetFor(desired)] + rest, fqdn, spec.recordClass, spec.id) == Some(desired)
  {
    var desired := Stamp(DesiredEndpoint(spec), fqdn);
    var rrs := RecordSetFor(desired);
    var sets := [rrs] + rest;
    assert forall r :: r in sets ==> r == rrs || r in rest;
    assert sets[0] == rrs && sets[1..] == rest;
    var next := Step(Named(fqdn, spec.recordClass), rrs, spec.id);
    assert next == desired;
    ScanNothingOverrides(rest, fqdn, spec.recordClass, spec.id, next, Some(next));
  }

  /** One owner of `ConvergedAfterCreate`: its listing resolves to the desired endpoint. */
  lemma OwnerConverged(list: ListRequest -> ListResponse, zoneId: string, zoneName: string, o: string,
                       spec: ResourceRecordSpec)
    requires WellFormedListings(list)
    requires !spec.isAlias && (spec.id.Some? ==> spec.weight.Some?)
    requires var fqdn := BuildFQDN(o, zoneName);
      var resp := list(OwnerRequest(zoneId, fqdn));
      && resp.Listed?
      && |resp.output.resourceRecordSets| > 0
      && resp.output.resourceRecordSets[0] == RecordSetFor(Stamp(DesiredEndpoint(spec), fqdn))
      && NothingOverrides(resp.output.resourceRecordSets[1..], fqdn, spec.recordClass, spec.id)
    ensures OwnerHit(list, zoneId, zoneName, spec.recordClass, spec.id, o) == Some(Stamp(DesiredEndpoint(spec), BuildFQDN(o, zoneName)))
  {
    var fqdn := BuildFQDN(o, zoneName);
    var sets := list(OwnerRequest(zoneId, fqdn)).output.resourceRecordSets;
    assert sets == [sets[0]] + sets[1..];
    assert forall r :: r in sets[1..] ==> r in sets;
    CreatedRecordResolves(spec, fqdn, sets[1..]);
  }

  /** Converge reaches a fixed point: when every owner's listing succeeds and starts with the
      record set its change would write, and nothing after it overrides it, the diff is empty
      and `Converge` submits nothing. */
  lemma ConvergedAfterCreate(list: ListRequest -> ListResponse, zoneId: string, zoneName: string, owners: seq<string>,
                             spec: ResourceRecordSpec)
    requires WellFormedListings(list)
    requires !spec.isAlias && (spec.id.Some? ==> spec.weight.Some?)
    requires forall o :: o in owners ==>
      var fqdn := BuildFQDN(o, zoneName);
      var resp := list(OwnerRequest(zoneId, fqdn));
      && resp.Listed?
      && |resp.output.resourceRecordSets| > 0
      && resp.output.resourceRecordSets[0] == RecordSetFor(Stamp(DesiredEndpoint(spec), fqdn))
      && NothingOverrides(resp.output.resourceRecordSets[1..], fqdn, spec.recordClass, spec.id)
    ensures var found := Resolved(list, zoneId, zoneName, owners, spec.recordClass, spec.id, map[]);
      found.Ok? && DiffSpec(owners, zoneName, DesiredEndpoint(spec), found.value) == []
  {
    var desired := DesiredEndpoint(spec);
    ResolvedFailsIff(list, zoneId, zoneName, owners, spec.recordClass, spec.id, map[]);
    var found := Resolved(list, zoneId, zoneName, owners, spec.recordClass, spec.id, map[]);
    ResolvedEntries(list, zoneId, zoneName, owners, spec.recordClass, spec.id, map[]);
    forall o | o in owners
      ensures Converged(o, zoneName, desired, found.value)
    {
      OwnerConverged(list, zoneId, zoneName, o, spec);
    }
    DiffEmptyIff(owners, zoneName, desired, found.value);
  }

  /** An alias intent never converges: resolution never marks an endpoint as an alias, so
      every owner gets a Create or an Upsert on every call. */
  lemma AliasIntentAlwaysChanges(list: ListRequest -> ListResponse, zoneId: string, zoneName: string, owners: seq<string>,
                                 spec: ResourceRecordSpec)
    requires WellFormedListings(list)
    requires spec.isAlias
    ensures var found := Resolved(list, zoneId, zoneName, owners, spec.recordClass, spec.id, map[]);
      found.Ok? ==>
        var changes := DiffSpec(owners, zoneName, DesiredEndpoint(spec), found.value);
        |changes| == |owners| && forall c :: c in changes ==> c.action == Create || c.action == Upsert
  {
    var desired := DesiredEndpoint(spec);
    var found := Resolved(list, zoneId, zoneName, owners, spec.recordClass, spec.id, map[]);
    if found.Ok? {
      ResolvedShapes(list, zoneId, zoneName, owners, spec.recordClass, spec.id);
      forall o | o in owners
        ensures !Converged(o, zoneName, desired, found.value)
      {
      }
      DiffFull(owners, zoneName, desired, found.value);
      DiffNeverDeletes(owners, zoneName, desired, found.value);
    }
  }

  /** A set identifier without a weight: the change carries no identifier (one is written
      only with a weight), so the set it writes fails the identifier filter and resolves to
      nothing, whatever follows it on the page. */
  lemma UnweightedIdentifierNeverResolves(spec: ResourceRecordSpec, fqdn: string, rest: seq<ResourceRecordSet>)
    requires !spec.isAlias && spec.id.Some? && spec.weight.None?
    requires AllWellFormed(rest)
    ensures var written := RecordSetFor(Stamp(DesiredEndpoint(spec), fqdn));
      && written.setIdentifier.None?
      && AllWellFormed([written] + rest)
      && Resolve([written] + rest, fqdn, spec.recordClass, spec.id).None?
  {
    var written := RecordSetFor(Stamp(DesiredEndpoint(spec), fqdn));
    var sets := [written] + rest;
    assert forall r :: r in sets ==> r == written || r in rest;
    assert sets[0] == written;
    ResolveFirstMatchDecides(sets, 0, fqdn, spec.recordClass, spec.id);
  }

  /** Such an intent never converges: even when every owner's listing starts with the set its
      change wrote, every owner gets a Create again on every call. */
  lemma UnweightedIdentifierAlwaysCreates(list: ListRequest -> ListResponse, zoneId: string, zoneName: string,
                                          owners: seq<string>, spec: ResourceRecordSpec)
    requires WellFormedListings(list)
    requires !spec.isAlias && spec.id.Some? && spec.weight.None?
    requires forall o :: o in owners ==>
      var fqdn := BuildFQDN(o, zoneName);
      var resp := list(OwnerRequest(zoneId, fqdn));
      && resp.Listed?
      && |resp.output.resourceRecordSets| > 0
      && resp.output.resourceRecordSets[0] == RecordSetFor(Stamp(DesiredEndpoint(spec), fqdn))
    ensures var found := Resolved(list, zoneId, zoneName, owners, spec.recordClass, spec.id, map[]);
      && found.Ok?
      && var changes := DiffSpec(owners, zoneName, DesiredEndpoint(spec), found.value);
         |changes| == |owners| && forall c :: c in changes ==> c.action == Create
  {
    var desired := DesiredEndpoint(spec);
    ResolvedFailsIff(list, zoneId, zoneName, owners, spec.recordClass, spec.id, map[]);
    var found := Resolved(list, zoneId, zoneName, owners, spec.recordClass, spec.id, map[]);
    ResolvedEntries(list, zoneId, zoneName, owners, spec.recordClass, spec.id, map[]);
    forall o | o in owners
      ensures o !in found.value
    {
      var fqdn := BuildFQDN(o, zoneName);
      var sets := list(OwnerRequest(zoneId, fqdn)).output.resourceRecordSets;
      assert sets == [sets[0]] + sets[1..];
      assert forall r :: r in sets[1..] ==> r in sets;
      UnweightedIdentifierNeverResolves(spec, fqdn, sets[1..]);
    }
    DiffFull(owners, zoneName, desired, found.value);
    DiffChangesFromOwners(owners, zoneName, desired, found.value);
  }
}
