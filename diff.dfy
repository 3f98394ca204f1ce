/** The diff engine, `diff` in controllers/provider/aws.go: one Create or Upsert change per
    owner whose record is missing or differs from the desired endpoint. */
module Diff {
  import opened Wrappers
  import opened Endpoint
  import opened Route53
  import opened Names

  /** The desired endpoint as compared for one owner: its name is that owner's FQDN. */
  function Stamp(desired: Endpoint, fqdn: string): Endpoint
  {
    desired.(dnsName := fqdn)
  }

  /** The record set a change carries for endpoint `ep`: an alias set carries only the
      alias target, any other set its TTL and one record holding `rdata`; a weighted
      endpoint adds its set identifier and weight in both shapes. */
  function RecordSetFor(ep: Endpoint): (rrs: ResourceRecordSet)
  {
    var shaped :=
      if ep.isAlias then
        ResourceRecordSet(ep.dnsName, ep.recordClass, None, None, None, [],
          Some(AliasTarget(ep.aliasTarget.dnsName, ep.aliasTarget.hostedZoneId, ep.aliasTarget.evaluateAliasTargetHealth)))
      else
        ResourceRecordSet(ep.dnsName, ep.recordClass, None, None, Some(ep.ttl), [ep.rdata], None);
    if ep.weight.Some? then shaped.(setIdentifier := Some(ep.id), weight := ep.weight) else shaped
  }

  /** An owner needs no change: its actual endpoint exists and equals the desired one. */
  predicate Converged(owner: string, zoneName: string, desired: Endpoint, actual: map<string, Endpoint>)
  {
    owner in actual && actual[owner] == Stamp(desired, BuildFQDN(owner, zoneName))
  }

  /** The action for an owner that has not converged. */
  function ActionFor(owner: string, actual: map<string, Endpoint>): ChangeAction
  {
    if owner !in actual then Create else Upsert
  }

  /** The change an unconverged owner receives. */
  function ChangeFor(owner: string, zoneName: string, desired: Endpoint, actual: map<string, Endpoint>): Change
  {
    Change(ActionFor(owner, actual), RecordSetFor(Stamp(desired, BuildFQDN(owner, zoneName))))
  }

  /** The changes one owner contributes: none when converged, else its change. */
  function OwnerChanges(owner: string, zoneName: string, desired: Endpoint, actual: map<string, Endpoint>): seq<Change>
  {
    if Converged(owner, zoneName, desired, actual) then [] else [ChangeFor(owner, zoneName, desired, actual)]
  }

  /** The changes `diff` returns, owner by owner. */
  function DiffSpec(owners: seq<string>, zoneName: string, desired: Endpoint, actual: map<string, Endpoint>): seq<Change>
    decreases |owners|
  {
    if owners == [] then []
    else OwnerChanges(owners[0], zoneName, desired, actual) + DiffSpec(owners[1..], zoneName, desired, actual)
  }

  /** `diff`. The loop rewrites the name of its by-value copy of the desired endpoint for each
      owner before building that owner's change and comparing. */
  method Diff(owners: seq<string>, zoneName: string, desiredEp: Endpoint, actualEps: map<string, Endpoint>)
    returns (changes: seq<Change>)
    ensures changes == DiffSpec(owners, zoneName, desiredEp, actualEps)
  {
    changes := [];
    var ep := desiredEp;
    assert owners[0..] == owners;
    for i := 0 to |owners|
      invariant ep.(dnsName := desiredEp.dnsName) == desiredEp
      invariant changes + DiffSpec(owners[i..], zoneName, desiredEp, actualEps) == DiffSpec(owners, zoneName, desiredEp, actualEps)
    {
      var owner := owners[i];
      var fqdn := BuildFQDN(owner, zoneName);
      ep := ep.(dnsName := fqdn);
      var rrs: ResourceRecordSet;
      if ep.isAlias {
        rrs := ResourceRecordSet(fqdn, ep.recordClass, None, None, None, [],
          Some(AliasTarget(ep.aliasTarget.dnsName, ep.aliasTarget.hostedZoneId, ep.aliasTarget.evaluateAliasTargetHealth)));
      } else {
        rrs := ResourceRecordSet(fqdn, ep.recordClass, None, None, Some(ep.ttl), [ep.rdata], None);
      }
      if ep.weight.Some? {
        rrs := rrs.(setIdentifier := Some(ep.id), weight := ep.weight);
      }
      assert ep == Stamp(desiredEp, fqdn);
      assert rrs == RecordSetFor(ep);
      ghost var before := changes;
      if owner !in actualEps {
        changes := changes + [Change(Create, rrs)];
      } else if ep != actualEps[owner] {
        changes := changes + [Change(Upsert, rrs)];
      }
      ghost var mine := OwnerChanges(owner, zoneName, desiredEp, actualEps);
      ghost var later := DiffSpec(owners[i + 1..], zoneName, desiredEp, actualEps);
      assert changes == before + mine;
      DiffSpecFrom(owners, i, zoneName, desiredEp, actualEps);
      ConcatAssociative(before, mine, later);
    }
  }

  /** Unfolding the diff of a suffix of the owners by one owner. */
  lemma DiffSpecFrom(owners: seq<string>, i: nat, zoneName: string, desired: Endpoint, actual: map<string, Endpoint>)
    requires i < |owners|
    ensures DiffSpec(owners[i..], zoneName, desired, actual)
         == OwnerChanges(owners[i], zoneName, desired, actual) + DiffSpec(owners[i + 1..], zoneName, desired, actual)
  {
    assert owners[i..][1..] == owners[i + 1..];
  }

  predicate NamesDistinct(changes: seq<Change>)
  {
    forall i, j :: 0 <= i < j < |changes| ==> changes[i].resourceRecordSet.name != changes[j].resourceRecordSet.name
  }

  lemma NamesDistinctPrepend(head: seq<Change>, after: seq<Change>)
    requires |head| <= 1 && NamesDistinct(after)
    requires head != [] ==> forall c :: c in after ==> c.resourceRecordSet.name != head[0].resourceRecordSet.name
    ensures NamesDistinct(head + after)
  {
    var changes := head + after;
    forall i, j | 0 <= i < j < |changes|
      ensures changes[i].resourceRecordSet.name != changes[j].resourceRecordSet.name
    {
      if i < |head| {
        assert changes[j] == after[j - |head|];
      } else {
        assert changes[i] == after[i - |head|] && changes[j] == after[j - |head|];
      }
    }
  }

  /** At most one change per owner. */
  lemma {:induction false} DiffLength(owners: seq<string>, zoneName: string, desired: Endpoint, actual: map<string, Endpoint>)
    ensures |DiffSpec(owners, zoneName, desired, actual)| <= |owners|
    decreases |owners|
  {
    if owners != [] {
      DiffLength(owners[1..], zoneName, desired, actual);
    }
  }

  /** One change for every owner when no owner has converged. */
  lemma {:induction false} DiffFull(owners: seq<string>, zoneName: string, desired: Endpoint, actual: map<string, Endpoint>)
    requires forall o :: o in owners ==> !Converged(o, zoneName, desired, actual)
    ensures |DiffSpec(owners, zoneName, desired, actual)| == |owners|
    decreases |owners|
  {
    if owners != [] {
      DiffFull(owners[1..], zoneName, desired, actual);
    }
  }

  /** Changes for a concatenation of owner lists are the changes for each list, in order:
      owners are handled independently and their order is kept. */
  lemma {:induction false} DiffAppend(owners1: seq<string>, owners2: seq<string>, zoneName: string, desired: Endpoint, actual: map<string, Endpoint>)
    ensures DiffSpec(owners1 + owners2, zoneName, desired, actual)
         == DiffSpec(owners1, zoneName, desired, actual) + DiffSpec(owners2, zoneName, desired, actual)
    decreases |owners1|
  {
    if owners1 == [] {
      assert owners1 + owners2 == owners2;
    } else {
      assert (owners1 + owners2)[1..] == owners1[1..] + owners2;
      DiffAppend(owners1[1..], owners2, zoneName, desired, actual);
    }
  }

  /** The diff is empty exactly when every owner has converged. */
  lemma {:induction false} DiffEmptyIff(owners: seq<string>, zoneName: string, desired: Endpoint, actual: map<string, Endpoint>)
    ensures DiffSpec(owners, zoneName, desired, actual) == [] <==>
      forall o :: o in owners ==> Converged(o, zoneName, desired, actual)
    decreases |owners|
  {
    if owners != [] {
      DiffEmptyIff(owners[1..], zoneName, desired, actual);
      assert forall o :: o in owners ==> o == owners[0] || o in owners[1..];
    }
  }

  /** Every change comes from an owner that has not converged, and is that owner's change:
      Create when the owner has no actual endpoint, Upsert when it differs. */
  lemma {:induction false} DiffChangesFromOwners(owners: seq<string>, zoneName: string, desired: Endpoint, actual: map<string, Endpoint>)
    ensures forall c :: c in DiffSpec(owners, zoneName, desired, actual) ==>
      exists o :: o in owners && !Converged(o, zoneName, desired, actual) && c == ChangeFor(o, zoneName, desired, actual)
    decreases |owners|
  {
    if owners != [] {
      DiffChangesFromOwners(owners[1..], zoneName, desired, actual);
      assert forall o :: o in owners[1..] ==> o in owners;
    }
  }

  /** Every owner that has not converged receives its change. */
  lemma {:induction false} DiffCoversOwners(owners: seq<string>, zoneName: string, desired: Endpoint, actual: map<string, Endpoint>)
    ensures forall o :: o in owners && !Converged(o, zoneName, desired, actual) ==>
      ChangeFor(o, zoneName, desired, actual) in DiffSpec(owners, zoneName, desired, actual)
    decreases |owners|
  {
    if owners != [] {
      DiffCoversOwners(owners[1..], zoneName, desired, actual);
      assert forall o :: o in owners ==> o == owners[0] || o in owners[1..];
    }
  }

  /** The diff never deletes. */
  lemma DiffNeverDeletes(owners: seq<string>, zoneName: string, desired: Endpoint, actual: map<string, Endpoint>)
    ensures forall c :: c in DiffSpec(owners, zoneName, desired, actual) ==> c.action != Delete
  {
    DiffChangesFromOwners(owners, zoneName, desired, actual);
  }

  /** The shape of every change: named for its owner, typed by the desired class; an alias
      change carries the desired alias target and no TTL or record, any other change the
      desired TTL and exactly one record holding `rdata` and no alias target; the set
      identifier and weight are present exactly when the desired weight is. */
  lemma DiffChangeShapes(owners: seq<string>, zoneName: string, desired: Endpoint, actual: map<string, Endpoint>)
    ensures forall c :: c in DiffSpec(owners, zoneName, desired, actual) ==>
      var rrs := c.resourceRecordSet;
      && (exists o :: o in owners && rrs.name == BuildFQDN(o, zoneName))
      && rrs.rrType == desired.recordClass
      && (desired.isAlias ==>
            && rrs.ttl.None? && rrs.resourceRecords == []
            && rrs.aliasTarget == Some(AliasTarget(desired.aliasTarget.dnsName, desired.aliasTarget.hostedZoneId,
                                                   desired.aliasTarget.evaluateAliasTargetHealth)))
      && (!desired.isAlias ==>
            rrs.ttl == Some(desired.ttl) && rrs.resourceRecords == [desired.rdata] && rrs.aliasTarget.None?)
      && (desired.weight.Some? ==> rrs.setIdentifier == Some(desired.id) && rrs.weight == desired.weight)
      && (desired.weight.None? ==> rrs.setIdentifier.None? && rrs.weight.None?)
  {
    DiffChangesFromOwners(owners, zoneName, desired, actual);
  }

  /** Distinct owners get changes with distinct names: at most one change per record name. */
  lemma {:induction false} DiffNamesDistinct(owners: seq<string>, zoneName: string, desired: Endpoint, actual: map<string, Endpoint>)
    requires forall i, j :: 0 <= i < j < |owners| ==> owners[i] != owners[j]
    ensures NamesDistinct(DiffSpec(owners, zoneName, desired, actual))
    decreases |owners|
  {
    if owners != [] {
      var first := owners[0];
      var rest := owners[1..];
      assert forall i, j :: 0 <= i < j < |rest| ==> rest[i] != rest[j] by {
        forall i, j | 0 <= i < j < |rest| ensures rest[i] != rest[j] {
          assert rest[i] == owners[i + 1] && rest[j] == owners[j + 1];
        }
      }
      DiffNamesDistinct(rest, zoneName, desired, actual);
      var head := OwnerChanges(first, zoneName, desired, actual);
      var after := DiffSpec(rest, zoneName, desired, actual);
      var changes := head + after;
      assert DiffSpec(owners, zoneName, desired, actual) == changes;
      if head != [] {
        DiffChangesFromOwners(rest, zoneName, desired, actual);
        forall c | c in after
          ensures c.resourceRecordSet.name != head[0].resourceRecordSet.name
        {
          var o :| o in rest && !Converged(o, zoneName, desired, actual) && c == ChangeFor(o, zoneName, desired, actual);
          if c.resourceRecordSet.name == head[0].resourceRecordSet.name {
            BuildFQDNInjective(o, first, zoneName);
            assert false;
          }
        }
      }
      NamesDistinctPrepend(head, after);
    }
  }
}
