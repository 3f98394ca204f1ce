/** Record resolution, `records` in controllers/provider/aws.go: for each owner, one listing
    of the zone starting at the owner's FQDN, scanned for record sets of that name and of
    the desired type. */
module Records {
  import opened Wrappers
  import opened Endpoint
  import opened Route53
  import opened Names

  predicate AllWellFormed(sets: seq<ResourceRecordSet>)
  {
    forall r :: r in sets ==> WellFormed(r)
  }

  /** The endpoint's view of a record set's alias target. */
  function AliasOf(t: Route53.AliasTarget): AliasOpts
  {
    AliasOpts(t.dnsName, t.hostedZoneId, t.evaluateTargetHealth)
  }

  /** Copies a matching set's alias target, or else its first value and TTL, into the
      accumulator; every other field keeps what earlier matches wrote. */
  function Absorb(ep: Endpoint, r: ResourceRecordSet): Endpoint
    requires WellFormed(r)
  {
    if r.aliasTarget.Some? then ep.(aliasTarget := AliasOf(r.aliasTarget.value))
    else ep.(rdata := r.resourceRecords[0], ttl := r.ttl.value)
  }

  /** Whether a set passes the set-identifier filter: no identifier was asked for, or the set
      has exactly that identifier. */
  predicate IdAccepts(id: Option<string>, r: ResourceRecordSet)
  {
    id.None? || (r.setIdentifier.Some? && r.setIdentifier.value == id.value)
  }

  /** The accumulator after a match that passes the filter and is stored. */
  function Step(ep: Endpoint, r: ResourceRecordSet, id: Option<string>): Endpoint
    requires WellFormed(r)
  {
    var copied := Absorb(ep, r);
    var identified := if id.Some? then copied.(id := id.value) else copied;
    if r.weight.Some? then identified.(weight := r.weight) else identified
  }

  /** The scan of one page from accumulator `ep`, where `stored` is what was last written for
      the owner: a set with another name ends the scan; a set with the right name and
      another type is skipped; a match that fails the identifier filter ends the scan without
      being stored; any other match is stored. */
  function Scan(sets: seq<ResourceRecordSet>, fqdn: string, recordType: string, id: Option<string>,
                ep: Endpoint, stored: Option<Endpoint>): Option<Endpoint>
    requires AllWellFormed(sets)
    decreases |sets|
  {
    if sets == [] || sets[0].name != fqdn then stored
    else if sets[0].rrType != recordType then Scan(sets[1..], fqdn, recordType, id, ep, stored)
    else if !IdAccepts(id, sets[0]) then stored
    else
      var next := Step(ep, sets[0], id);
      Scan(sets[1..], fqdn, recordType, id, next, Some(next))
  }

  /** One step of `Scan` from position `j` of a page. */
  lemma ScanAt(sets: seq<ResourceRecordSet>, j: int, fqdn: string, recordType: string, id: Option<string>,
               ep: Endpoint, stored: Option<Endpoint>)
    requires AllWellFormed(sets) && 0 <= j < |sets|
    ensures WellFormed(sets[j]) && AllWellFormed(sets[j..]) && AllWellFormed(sets[j + 1..])
    ensures Scan(sets[j..], fqdn, recordType, id, ep, stored) ==
      if sets[j].name != fqdn then stored
      else if sets[j].rrType != recordType then Scan(sets[j + 1..], fqdn, recordType, id, ep, stored)
      else if !IdAccepts(id, sets[j]) then stored
      else
        var next := Step(ep, sets[j], id);
        Scan(sets[j + 1..], fqdn, recordType, id, next, Some(next))
  {
    assert sets[j] in sets;
    assert forall r :: r in sets[j..] ==> r in sets;
    assert forall r :: r in sets[j + 1..] ==> r in sets;
    assert sets[j..][0] == sets[j] && sets[j..][1..] == sets[j + 1..];
  }

  /** The endpoint an owner's page resolves to, if any. */
  function Resolve(sets: seq<ResourceRecordSet>, fqdn: string, recordType: string, id: Option<string>): Option<Endpoint>
    requires AllWellFormed(sets)
  {
    Scan(sets, fqdn, recordType, id, Named(fqdn, recordType), None)
  }

  /** The listing request made for one owner: the zone, starting at the owner's FQDN. */
  function OwnerRequest(zoneId: string, fqdn: string): ListRequest
  {
    ListRequest(zoneId, Some(fqdn), None, None)
  }

  /** What one owner resolves to under a listing oracle (nothing when its listing fails). */
  function OwnerHit(list: ListRequest -> ListResponse, zoneId: string, zoneName: string, recordType: string,
                    id: Option<string>, owner: string): Option<Endpoint>
    requires WellFormedListings(list)
  {
    var fqdn := BuildFQDN(owner, zoneName);
    match list(OwnerRequest(zoneId, fqdn))
    case Failed(_) => None
    case Listed(out) => Resolve(out.resourceRecordSets, fqdn, recordType, id)
  }

  /** The map `records` returns for the remaining owners, starting from the entries `found`
      so far: the first failed listing aborts with the error wrapped with the zone id. */
  function Resolved(list: ListRequest -> ListResponse, zoneId: string, zoneName: string, owners: seq<string>,
                    recordType: string, id: Option<string>, found: map<string, Endpoint>): Result<map<string, Endpoint>, ProviderError>
    requires WellFormedListings(list)
    decreases |owners|
  {
    if owners == [] then Ok(found)
    else
      match list(OwnerRequest(zoneId, BuildFQDN(owners[0], zoneName)))
      case Failed(e) => Err(ListError(zoneId, e))
      case Listed(_) =>
        var hit := OwnerHit(list, zoneId, zoneName, recordType, id, owners[0]);
        Resolved(list, zoneId, zoneName, owners[1..], recordType, id,
                 if hit.Some? then found[owners[0] := hit.value] else found)
  }

  /** The listing requests `records` makes: one per owner, up to the first that fails. */
  function ResolveRequests(list: ListRequest -> ListResponse, zoneId: string, zoneName: string, owners: seq<string>): seq<ListRequest>
    decreases |owners|
  {
    if owners == [] then []
    else
      var req := OwnerRequest(zoneId, BuildFQDN(owners[0], zoneName));
      [req] + if list(req).Failed? then [] else ResolveRequests(list, zoneId, zoneName, owners[1..])
  }

  /** One owner's step of `Resolved` and `ResolveRequests`, from position `i` of the owners. */
  lemma ResolvedAt(list: ListRequest -> ListResponse, zoneId: string, zoneName: string, owners: seq<string>, i: int,
                   recordType: string, id: Option<string>, found: map<string, Endpoint>)
    requires WellFormedListings(list) && 0 <= i < |owners|
    ensures var fqdn := BuildFQDN(owners[i], zoneName);
      var req := OwnerRequest(zoneId, fqdn);
      && ListCalls(ResolveRequests(list, zoneId, zoneName, owners[i..]))
         == [ListCall(req)] + (if list(req).Failed? then [] else ListCalls(ResolveRequests(list, zoneId, zoneName, owners[i + 1..])))
      && (list(req).Failed? ==> Resolved(list, zoneId, zoneName, owners[i..], recordType, id, found) == Err(ListError(zoneId, list(req).cause)))
      && (list(req).Listed? ==>
            var hit := Resolve(list(req).output.resourceRecordSets, fqdn, recordType, id);
            Resolved(list, zoneId, zoneName, owners[i..], recordType, id, found)
            == Resolved(list, zoneId, zoneName, owners[i + 1..], recordType, id,
                        if hit.Some? then found[owners[i] := hit.value] else found))
  {
    var req := OwnerRequest(zoneId, BuildFQDN(owners[i], zoneName));
    assert owners[i..][0] == owners[i] && owners[i..][1..] == owners[i + 1..];
    if list(req).Failed? {
      assert ResolveRequests(list, zoneId, zoneName, owners[i..]) == [req];
    } else {
      var later := ResolveRequests(list, zoneId, zoneName, owners[i + 1..]);
      assert ResolveRequests(list, zoneId, zoneName, owners[i..]) == [req] + later;
      ListCallsConcat([req], later);
    }
    assert ListCalls([req]) == [ListCall(req)];
  }

  /** What every resolved endpoint looks like for an owner's FQDN. */
  predicate ResolvedShape(e: Endpoint, fqdn: string, recordType: string, id: Option<string>)
  {
    && e.dnsName == fqdn
    && e.recordClass == recordType
    && !e.isAlias
    && e.resourceOwner == ""
    && e.id == (if id.Some? then id.value else "")
  }

  /** Resolution never produces an alias endpoint: `IsAlias` is never set. The name and class
      are the owner's FQDN and the asked type; the set identifier is the one asked for. */
  lemma {:induction false} ScanShape(sets: seq<ResourceRecordSet>, fqdn: string, recordType: string, id: Option<string>,
                                     ep: Endpoint, stored: Option<Endpoint>)
    requires AllWellFormed(sets)
    requires ep.dnsName == fqdn && ep.recordClass == recordType && !ep.isAlias && ep.resourceOwner == ""
    requires id.None? ==> ep.id == ""
    requires stored.Some? ==> ResolvedShape(stored.value, fqdn, recordType, id)
    ensures var res := Scan(sets, fqdn, recordType, id, ep, stored);
      res.Some? ==> ResolvedShape(res.value, fqdn, recordType, id)
    decreases |sets|
  {
    if sets != [] && sets[0].name == fqdn {
      if sets[0].rrType != recordType {
        ScanShape(sets[1..], fqdn, recordType, id, ep, stored);
      } else if IdAccepts(id, sets[0]) {
        var next := Step(ep, sets[0], id);
        ScanShape(sets[1..], fqdn, recordType, id, next, Some(next));
      }
    }
  }

  lemma ResolveShape(sets: seq<ResourceRecordSet>, fqdn: string, recordType: string, id: Option<string>)
    requires AllWellFormed(sets)
    ensures var res := Resolve(sets, fqdn, recordType, id);
      res.Some? ==> ResolvedShape(res.value, fqdn, recordType, id)
  {
    ScanShape(sets, fqdn, recordType, id, Named(fqdn, recordType), None);
  }

  /** Sets after the first one with another name are never looked at. */
  lemma {:induction false} ScanStopsAtOtherName(sets: seq<ResourceRecordSet>, k: nat, fqdn: string, recordType: string,
                                                id: Option<string>, ep: Endpoint, stored: Option<Endpoint>)
    requires AllWellFormed(sets)
    requires k < |sets| && sets[k].name != fqdn
    ensures AllWellFormed(sets[..k])
    ensures Scan(sets, fqdn, recordType, id, ep, stored) == Scan(sets[..k], fqdn, recordType, id, ep, stored)
    decreases k
  {
    assert forall r :: r in sets[..k] ==> r in sets;
    if k > 0 && sets[0].name == fqdn {
      assert sets[..k][1..] == sets[1..][..k - 1];
      if sets[0].rrType != recordType {
        ScanStopsAtOtherName(sets[1..], k - 1, fqdn, recordType, id, ep, stored);
      } else if IdAccepts(id, sets[0]) {
        var next := Step(ep, sets[0], id);
        ScanStopsAtOtherName(sets[1..], k - 1, fqdn, recordType, id, next, Some(next));
      }
    }
  }

  /** What a resolved endpoint took from the set that matched last: its alias target, or its
      first value and TTL, and its weight when it has one. */
  predicate TakenFrom(e: Endpoint, r: ResourceRecordSet)
    requires WellFormed(r)
  {
    && (r.aliasTarget.Some? ==> e.aliasTarget == AliasOf(r.aliasTarget.value))
    && (r.aliasTarget.None? ==> e.rdata == r.resourceRecords[0] && e.ttl == r.ttl.value)
    && (r.weight.Some? ==> e.weight == r.weight)
  }

  /** A page without a set of the owner's name and the asked type leaves what was stored. */
  lemma {:induction false} ScanNoMatch(sets: seq<ResourceRecordSet>, fqdn: string, recordType: string, id: Option<string>,
                                       ep: Endpoint, stored: Option<Endpoint>)
    requires AllWellFormed(sets)
    requires forall j :: 0 <= j < |sets| && sets[j].name == fqdn ==> sets[j].rrType != recordType
    ensures Scan(sets, fqdn, recordType, id, ep, stored) == stored
    decreases |sets|
  {
    if sets != [] && sets[0].name == fqdn {
      assert forall r :: r in sets[1..] ==> r in sets;
      ScanNoMatch(sets[1..], fqdn, recordType, id, ep, stored);
    }
  }

  /** Once something is stored, the scan resolves to something. */
  lemma {:induction false} ScanKeepsSome(sets: seq<ResourceRecordSet>, fqdn: string, recordType: string, id: Option<string>,
                                         ep: Endpoint, stored: Option<Endpoint>)
    requires AllWellFormed(sets) && stored.Some?
    ensures Scan(sets, fqdn, recordType, id, ep, stored).Some?
    decreases |sets|
  {
    if sets != [] && sets[0].name == fqdn {
      assert forall r :: r in sets[1..] ==> r in sets;
      if sets[0].rrType != recordType {
        ScanKeepsSome(sets[1..], fqdn, recordType, id, ep, stored);
      } else if IdAccepts(id, sets[0]) {
        var next := Step(ep, sets[0], id);
        ScanKeepsSome(sets[1..], fqdn, recordType, id, next, Some(next));
      }
    }
  }

  /** A set of the owner's name and another type is skipped: the scan is the same with it
      removed from the page. */
  lemma {:induction false} ScanSkipsOtherType(sets: seq<ResourceRecordSet>, j: nat, fqdn: string, recordType: string,
                                              id: Option<string>, ep: Endpoint, stored: Option<Endpoint>)
    requires AllWellFormed(sets) && j < |sets|
    requires sets[j].name == fqdn && sets[j].rrType != recordType
    ensures AllWellFormed(sets[..j] + sets[j + 1..])
    ensures Scan(sets[..j] + sets[j + 1..], fqdn, recordType, id, ep, stored) == Scan(sets, fqdn, recordType, id, ep, stored)
    decreases j
  {
    var dropped := sets[..j] + sets[j + 1..];
    assert forall r :: r in sets[..j] ==> r in sets;
    assert forall r :: r in sets[j + 1..] ==> r in sets;
    assert forall r :: r in sets[1..] ==> r in sets;
    if j == 0 {
      assert dropped == sets[1..];
    } else {
      assert dropped[0] == sets[0];
      assert dropped[1..] == sets[1..][..j - 1] + sets[1..][j..];
      if sets[0].name == fqdn {
        if sets[0].rrType != recordType {
          ScanSkipsOtherType(sets[1..], j - 1, fqdn, recordType, id, ep, stored);
        } else if IdAccepts(id, sets[0]) {
          var next := Step(ep, sets[0], id);
          ScanSkipsOtherType(sets[1..], j - 1, fqdn, recordType, id, next, Some(next));
        }
      }
    }
  }

  /** On a page whose sets all carry the owner's name, and whose sets of the asked type all
      pass the identifier filter, the last set `k` of the asked type wins. */
  lemma {:induction false} ScanLastMatchWins(sets: seq<ResourceRecordSet>, k: nat, fqdn: string, recordType: string,
                                             id: Option<string>, ep: Endpoint, stored: Option<Endpoint>)
    requires AllWellFormed(sets) && k < |sets|
    requires forall j :: 0 <= j < |sets| ==> sets[j].name == fqdn
    requires forall j :: 0 <= j < |sets| && sets[j].rrType == recordType ==> IdAccepts(id, sets[j])
    requires sets[k].rrType == recordType
    requires forall j :: k < j < |sets| ==> sets[j].rrType != recordType
    ensures WellFormed(sets[k])
    ensures var res := Scan(sets, fqdn, recordType, id, ep, stored);
      res.Some? && TakenFrom(res.value, sets[k])
    decreases |sets|
  {
    assert sets[k] in sets;
    assert forall r :: r in sets[1..] ==> r in sets;
    if k == 0 {
      var next := Step(ep, sets[0], id);
      ScanNoMatch(sets[1..], fqdn, recordType, id, next, Some(next));
    } else if sets[0].rrType != recordType {
      ScanLastMatchWins(sets[1..], k - 1, fqdn, recordType, id, ep, stored);
    } else {
      var next := Step(ep, sets[0], id);
      ScanLastMatchWins(sets[1..], k - 1, fqdn, recordType, id, next, Some(next));
    }
  }

  /** The page as Route 53 lists it from an owner's FQDN: the owner's `m` sets, then a set of
      another name or the end. When every set of the asked type among them passes the
      identifier filter (always so when no identifier is asked), the last one, `k`, wins;
      the owner's sets of other types, such as its TXT owner marker, are skipped. */
  lemma ResolveLastMatchWins(sets: seq<ResourceRecordSet>, m: nat, k: nat, fqdn: string, recordType: string, id: Option<string>)
    requires AllWellFormed(sets) && k < m <= |sets|
    requires forall j :: 0 <= j < m ==> sets[j].name == fqdn
    requires m < |sets| ==> sets[m].name != fqdn
    requires forall j :: 0 <= j < m && sets[j].rrType == recordType ==> IdAccepts(id, sets[j])
    requires sets[k].rrType == recordType
    requires forall j :: k < j < m ==> sets[j].rrType != recordType
    ensures WellFormed(sets[k])
    ensures var res := Resolve(sets, fqdn, recordType, id);
      res.Some? && TakenFrom(res.value, sets[k])
  {
    var ep := Named(fqdn, recordType);
    var owned := sets[..m];
    if m < |sets| {
      ScanStopsAtOtherName(sets, m, fqdn, recordType, id, ep, None);
    } else {
      assert owned == sets;
    }
    ScanLastMatchWins(owned, k, fqdn, recordType, id, ep, None);
  }

  /** The accumulator is reused across matches: a value set followed by an alias set of the
      same name and type resolves to an endpoint holding the value and TTL of the first and
      the alias target of the second, and still not marked as an alias. */
  lemma ResolveKeepsEarlierFields(valueSet: ResourceRecordSet, aliasSet: ResourceRecordSet, fqdn: string, recordType: string)
    requires valueSet.name == fqdn && valueSet.rrType == recordType
    requires valueSet.aliasTarget.None? && valueSet.ttl.Some? && |valueSet.resourceRecords| > 0
    requires aliasSet.name == fqdn && aliasSet.rrType == recordType && aliasSet.aliasTarget.Some?
    ensures AllWellFormed([valueSet, aliasSet])
    ensures var res := Resolve([valueSet, aliasSet], fqdn, recordType, None);
      && res.Some?
      && res.value.rdata == valueSet.resourceRecords[0]
      && res.value.ttl == valueSet.ttl.value
      && res.value.aliasTarget == AliasOf(aliasSet.aliasTarget.value)
      && !res.value.isAlias
  {
    var sets := [valueSet, aliasSet];
    var first := Step(Named(fqdn, recordType), valueSet, None);
    var second := Step(first, aliasSet, None);
    assert sets[1..] == [aliasSet];
    assert [aliasSet][1..] == [];
    assert Scan(sets, fqdn, recordType, None, Named(fqdn, recordType), None)
        == Scan([aliasSet], fqdn, recordType, None, first, Some(first))
        == Scan([], fqdn, recordType, None, second, Some(second));
  }

  /** When every set of the asked type is an alias set, the resolved endpoint keeps TTL 0 and
      an empty value: alias matches copy only the alias fields. */
  lemma {:induction false} ScanAliasOnly(sets: seq<ResourceRecordSet>, fqdn: string, recordType: string, id: Option<string>,
                                         ep: Endpoint, stored: Option<Endpoint>)
    requires AllWellFormed(sets)
    requires forall r :: r in sets && r.rrType == recordType ==> r.aliasTarget.Some?
    requires ep.rdata == "" && ep.ttl == 0
    requires stored.Some? ==> stored.value.rdata == "" && stored.value.ttl == 0
    ensures var res := Scan(sets, fqdn, recordType, id, ep, stored);
      res.Some? ==> res.value.rdata == "" && res.value.ttl == 0
    decreases |sets|
  {
    if sets != [] && sets[0].name == fqdn {
      assert forall r :: r in sets[1..] ==> r in sets;
      if sets[0].rrType != recordType {
        ScanAliasOnly(sets[1..], fqdn, recordType, id, ep, stored);
      } else if IdAccepts(id, sets[0]) {
        var next := Step(ep, sets[0], id);
        ScanAliasOnly(sets[1..], fqdn, recordType, id, next, Some(next));
      }
    }
  }

  lemma ResolveAliasOnly(sets: seq<ResourceRecordSet>, fqdn: string, recordType: string, id: Option<string>)
    requires AllWellFormed(sets)
    requires forall r :: r in sets && r.rrType == recordType ==> r.aliasTarget.Some?
    ensures var res := Resolve(sets, fqdn, recordType, id);
      res.Some? ==> res.value.rdata == "" && res.value.ttl == 0
  {
    ScanAliasOnly(sets, fqdn, recordType, id, Named(fqdn, recordType), None);
  }

  /** With a set identifier asked for, whatever is resolved came from a set of the owner's
      name and the asked type carrying exactly that identifier: its alias target, or its
      value and TTL, and its weight. */
  lemma {:induction false} ScanIdentifierSource(sets: seq<ResourceRecordSet>, fqdn: string, recordType: string, id: Option<string>,
                                                ep: Endpoint, stored: Option<Endpoint>)
    requires AllWellFormed(sets) && id.Some?
    ensures var res := Scan(sets, fqdn, recordType, id, ep, stored);
      res.Some? && res != stored ==>
        exists r :: r in sets && r.name == fqdn && r.rrType == recordType && r.setIdentifier == id
                    && WellFormed(r) && TakenFrom(res.value, r)
    decreases |sets|
  {
    if sets != [] && sets[0].name == fqdn {
      assert forall r :: r in sets[1..] ==> r in sets;
      if sets[0].rrType != recordType {
        ScanIdentifierSource(sets[1..], fqdn, recordType, id, ep, stored);
      } else if IdAccepts(id, sets[0]) {
        var next := Step(ep, sets[0], id);
        ScanIdentifierSource(sets[1..], fqdn, recordType, id, next, Some(next));
        assert sets[0].setIdentifier == id && TakenFrom(next, sets[0]);
      }
    }
  }

  lemma ResolveIdentifierSource(sets: seq<ResourceRecordSet>, fqdn: string, recordType: string, id: Option<string>)
    requires AllWellFormed(sets) && id.Some?
    ensures var res := Resolve(sets, fqdn, recordType, id);
      res.Some? ==>
        exists r :: r in sets && r.name == fqdn && r.rrType == recordType && r.setIdentifier == id
                    && WellFormed(r) && TakenFrom(res.value, r)
  {
    ScanIdentifierSource(sets, fqdn, recordType, id, Named(fqdn, recordType), None);
  }

  /** A set of the owner's name and the asked type that fails the identifier filter ends the
      scan: when every set before it has the owner's name, nothing from it on is looked at. */
  lemma {:induction false} ScanStopsAtRejected(sets: seq<ResourceRecordSet>, k: nat, fqdn: string, recordType: string,
                                               id: Option<string>, ep: Endpoint, stored: Option<Endpoint>)
    requires AllWellFormed(sets) && k < |sets|
    requires forall j :: 0 <= j < k ==> sets[j].name == fqdn
    requires sets[k].name == fqdn && sets[k].rrType == recordType && !IdAccepts(id, sets[k])
    ensures AllWellFormed(sets[..k])
    ensures Scan(sets, fqdn, recordType, id, ep, stored) == Scan(sets[..k], fqdn, recordType, id, ep, stored)
    decreases k
  {
    assert forall r :: r in sets[..k] ==> r in sets;
    assert forall r :: r in sets[1..] ==> r in sets;
    if k > 0 {
      assert sets[..k][1..] == sets[1..][..k - 1];
      if sets[0].rrType != recordType {
        ScanStopsAtRejected(sets[1..], k - 1, fqdn, recordType, id, ep, stored);
      } else if IdAccepts(id, sets[0]) {
        var next := Step(ep, sets[0], id);
        ScanStopsAtRejected(sets[1..], k - 1, fqdn, recordType, id, next, Some(next));
      }
    }
  }

  /** Nothing on the page replaces what is stored: among the owner's sets at the head of the
      page, the first one of the asked type, if any, fails the identifier filter. */
  predicate NothingOverrides(sets: seq<ResourceRecordSet>, fqdn: string, recordType: string, id: Option<string>)
  {
    forall k :: 0 <= k < |sets| && sets[k].rrType == recordType
                && (forall j :: 0 <= j <= k ==> sets[j].name == fqdn)
                && (forall j :: 0 <= j < k ==> sets[j].rrType != recordType)
      ==> !IdAccepts(id, sets[k])
  }

  /** Such a page leaves what was stored. */
  lemma {:induction false} ScanNothingOverrides(sets: seq<ResourceRecordSet>, fqdn: string, recordType: string,
                                                id: Option<string>, ep: Endpoint, stored: Option<Endpoint>)
    requires AllWellFormed(sets) && NothingOverrides(sets, fqdn, recordType, id)
    ensures Scan(sets, fqdn, recordType, id, ep, stored) == stored
    decreases |sets|
  {
    if sets != [] && sets[0].name == fqdn {
      if sets[0].rrType != recordType {
        assert forall r :: r in sets[1..] ==> r in sets;
        var rest := sets[1..];
        forall k | 0 <= k < |rest| && rest[k].rrType == recordType
                   && (forall j :: 0 <= j <= k ==> rest[j].name == fqdn)
                   && (forall j :: 0 <= j < k ==> rest[j].rrType != recordType)
          ensures !IdAccepts(id, rest[k])
        {
          assert forall j :: 1 <= j <= k + 1 ==> sets[j] == rest[j - 1];
          assert sets[k + 1] == rest[k];
        }
        ScanNothingOverrides(rest, fqdn, recordType, id, ep, stored);
      }
    }
  }

  /** The first set of the owner's name and the asked type decides whether anything is
      resolved: something is exactly when that set passes the identifier filter. With an
      identifier asked, a first such set with a missing or different identifier ends the scan,
      even when a later set carries the asked identifier. */
  lemma ResolveFirstMatchDecides(sets: seq<ResourceRecordSet>, k: nat, fqdn: string, recordType: string, id: Option<string>)
    requires AllWellFormed(sets)
    requires k < |sets|
    requires forall j :: 0 <= j < k ==> sets[j].name == fqdn && sets[j].rrType != recordType
    requires sets[k].name == fqdn && sets[k].rrType == recordType
    ensures Resolve(sets, fqdn, recordType, id).Some? <==> IdAccepts(id, sets[k])
  {
    var ep := Named(fqdn, recordType);
    var j := 0;
    while j < k
      invariant 0 <= j <= k
      invariant AllWellFormed(sets[j..])
      invariant Scan(sets, fqdn, recordType, id, ep, None) == Scan(sets[j..], fqdn, recordType, id, ep, None)
    {
      assert sets[j..][1..] == sets[j + 1..];
      assert forall r :: r in sets[j + 1..] ==> r in sets[j..];
      j := j + 1;
    }
    ScanAt(sets, k, fqdn, recordType, id, ep, None);
    if IdAccepts(id, sets[k]) {
      var next := Step(ep, sets[k], id);
      ScanKeepsSome(sets[k + 1..], fqdn, recordType, id, next, Some(next));
    }
  }

  /** Every entry of the resolved map belongs to a listed owner and is that owner's
      resolution; owners whose page resolves to nothing keep what they had. */
  lemma {:induction false} ResolvedEntries(list: ListRequest -> ListResponse, zoneId: string, zoneName: string, owners: seq<string>,
                                           recordType: string, id: Option<string>, found: map<string, Endpoint>)
    requires WellFormedListings(list)
    ensures var res := Resolved(list, zoneId, zoneName, owners, recordType, id, found);
      res.Ok? ==>
        && (forall o :: o in owners && OwnerHit(list, zoneId, zoneName, recordType, id, o).Some? ==>
              o in res.value && res.value[o] == OwnerHit(list, zoneId, zoneName, recordType, id, o).value)
        && (forall o :: o !in owners || OwnerHit(list, zoneId, zoneName, recordType, id, o).None? ==>
              (o in res.value <==> o in found) && (o in found ==> res.value[o] == found[o]))
    decreases |owners|
  {
    if owners != [] {
      var hit := OwnerHit(list, zoneId, zoneName, recordType, id, owners[0]);
      var next := if hit.Some? then found[owners[0] := hit.value] else found;
      ResolvedEntries(list, zoneId, zoneName, owners[1..], recordType, id, next);
      assert forall o :: o in owners <==> o == owners[0] || o in owners[1..];
    }
  }

  /** `records` fails exactly when the listing of some owner fails. */
  lemma {:induction false} ResolvedFailsIff(list: ListRequest -> ListResponse, zoneId: string, zoneName: string, owners: seq<string>,
                                            recordType: string, id: Option<string>, found: map<string, Endpoint>)
    requires WellFormedListings(list)
    ensures var res := Resolved(list, zoneId, zoneName, owners, recordType, id, found);
      (res.Err? <==> exists o :: o in owners && list(OwnerRequest(zoneId, BuildFQDN(o, zoneName))).Failed?)
      && (res.Err? ==> res.error.ListError? && res.error.zoneId == zoneId)
    decreases |owners|
  {
    if owners != [] {
      var hit := OwnerHit(list, zoneId, zoneName, recordType, id, owners[0]);
      var next := if hit.Some? then found[owners[0] := hit.value] else found;
      ResolvedFailsIff(list, zoneId, zoneName, owners[1..], recordType, id, next);
      assert forall o :: o in owners <==> o == owners[0] || o in owners[1..];
    }
  }

  /** Every resolved endpoint has its owner's FQDN, the asked class, the asked identifier,
      and is not marked as an alias. */
  lemma ResolvedShapes(list: ListRequest -> ListResponse, zoneId: string, zoneName: string, owners: seq<string>,
                       recordType: string, id: Option<string>)
    requires WellFormedListings(list)
    ensures var res := Resolved(list, zoneId, zoneName, owners, recordType, id, map[]);
      res.Ok? ==> forall o :: o in res.value ==>
        o in owners && ResolvedShape(res.value[o], BuildFQDN(o, zoneName), recordType, id)
  {
    ResolvedEntries(list, zoneId, zoneName, owners, recordType, id, map[]);
    var res := Resolved(list, zoneId, zoneName, owners, recordType, id, map[]);
    if res.Ok? {
      forall o | o in res.value
        ensures o in owners && ResolvedShape(res.value[o], BuildFQDN(o, zoneName), recordType, id)
      {
        var fqdn := BuildFQDN(o, zoneName);
        var resp := list(OwnerRequest(zoneId, fqdn));
        if resp.Listed? {
          ResolveShape(resp.output.resourceRecordSets, fqdn, recordType, id);
        }
      }
    }
  }
}
