/** Name helpers of controllers/provider/aws.go: absolute domain names (section 3.1 of
    RFC 1034: a name ending in the root label is written with a trailing dot) and the
    owner marker kept in TXT records. */
module Names {
  import opened Endpoint
  import opened Route53

  /** The prefix of an owner marker's value, `recordOwnerPrefix`. */
  const RecordOwnerPrefix := "dns-rr-owner: "

  predicate HasPrefix(s: string, prefix: string)
  {
    |prefix| <= |s| && s[..|prefix|] == prefix
  }

  predicate HasSuffix(s: string, suffix: string)
  {
    |suffix| <= |s| && s[|s| - |suffix|..] == suffix
  }

  /** True when a zone name is already absolute or empty, so that joining it to an owner
      already ends in a dot. */
  predicate EndsInRoot(zone: string)
  {
    zone == "" || zone[|zone| - 1] == '.'
  }

  /** `buildFQDN`: the owner joined to the zone with a dot, with one dot appended when the
      result does not already end in one. */
  function BuildFQDN(owner: string, zone: string): (fqdn: string)
  {
    var joined := owner + "." + zone;
    if HasSuffix(joined, ".") then joined else joined + "."
  }

  /** What `BuildFQDN` builds: an absolute name that starts with the owner and a dot and
      continues with the zone, with a dot appended exactly when the zone is relative. */
  lemma BuildFQDNShape(owner: string, zone: string)
    ensures HasSuffix(BuildFQDN(owner, zone), ".")
    ensures HasPrefix(BuildFQDN(owner, zone), owner + ".")
    ensures EndsInRoot(zone) ==> BuildFQDN(owner, zone) == owner + "." + zone
    ensures !EndsInRoot(zone) ==> BuildFQDN(owner, zone) == owner + "." + zone + "."
  {
    var joined := owner + "." + zone;
    if zone != "" {
      assert joined[|joined| - 1] == zone[|zone| - 1];
    }
    assert (joined + ".")[..|owner + "."|] == owner + ".";
    assert joined[..|owner + "."|] == owner + ".";
  }

  /** What `BuildFQDN` puts after the owner. */
  function FQDNTail(zone: string): string
  {
    if EndsInRoot(zone) then "." + zone else "." + zone + "."
  }

  lemma BuildFQDNSplit(owner: string, zone: string)
    ensures BuildFQDN(owner, zone) == owner + FQDNTail(zone)
  {
    BuildFQDNShape(owner, zone);
    assert owner + "." + zone == owner + ("." + zone);
    assert owner + "." + zone + "." == owner + ("." + zone + ".");
  }

  lemma AppendCancel<T>(a: seq<T>, b: seq<T>, t: seq<T>)
    requires a + t == b + t
    ensures a == b
  {
    assert |a| == |b|;
    assert a == (a + t)[..|a|];
    assert b == (b + t)[..|b|];
  }

  /** A relative zone name and the same name written absolute give the same FQDN. The empty
      zone is excluded: `BuildFQDN(o, "")` is `o + "."`, `BuildFQDN(o, ".")` is `o + ".."`. */
  lemma BuildFQDNAbsoluteZone(owner: string, zone: string)
    requires !EndsInRoot(zone)
    ensures BuildFQDN(owner, zone) == BuildFQDN(owner, zone + ".")
  {
    var dotted := zone + ".";
    assert EndsInRoot(dotted) by {
      assert dotted[|dotted| - 1] == '.';
    }
    BuildFQDNSplit(owner, zone);
    BuildFQDNSplit(owner, dotted);
    assert FQDNTail(zone) == FQDNTail(dotted) by {
      assert ("." + zone) + "." == "." + (zone + ".");
    }
  }

  /** The exception of the empty zone: its absolute spelling adds a second dot. */
  lemma BuildFQDNEmptyZone(owner: string)
    ensures BuildFQDN(owner, "") == owner + "."
    ensures BuildFQDN(owner, ".") == owner + ".."
    ensures BuildFQDN(owner, "") != BuildFQDN(owner, ".")
  {
    BuildFQDNShape(owner, "");
    BuildFQDNShape(owner, ".");
    assert |BuildFQDN(owner, "")| != |BuildFQDN(owner, ".")|;
  }

  /** Within one zone, different owners get different names. */
  lemma BuildFQDNInjective(owner1: string, owner2: string, zone: string)
    requires BuildFQDN(owner1, zone) == BuildFQDN(owner2, zone)
    ensures owner1 == owner2
  {
    BuildFQDNSplit(owner1, zone);
    BuildFQDNSplit(owner2, zone);
    AppendCancel(owner1, owner2, FQDNTail(zone));
  }

  /** `isOwnerOfRecord`: the record set is a TXT set named like the endpoint whose first value
      carries the owner prefix. The first value is read only once name and type have matched,
      and Go indexes it without a check, so such a set must hold a value. */
  predicate IsOwnerOfRecord(rrs: ResourceRecordSet, ep: Endpoint, ownerId: string)
    requires rrs.name == ep.dnsName && rrs.rrType == RRTypeTxt ==> |rrs.resourceRecords| > 0
  {
    if rrs.name != ep.dnsName then false
    else if rrs.rrType != RRTypeTxt then false
    else if !HasPrefix(rrs.resourceRecords[0], RecordOwnerPrefix) then false
    else true
  }

  /** `buildOwnerRecordValue`: the owner id, followed by `-` and the set identifier when the
      endpoint has one. */
  function BuildOwnerRecordValue(ep: Endpoint, ownerId: string): (value: string)
    ensures HasPrefix(value, ownerId)
    ensures ep.id == "" <==> value == ownerId
    ensures ep.id != "" ==> value[|ownerId|..] == "-" + ep.id
  {
    var value := ownerId;
    if ep.id != "" then value + "-" + ep.id else value
  }

  /** Under one owner id, the marker value tells set identifiers apart. */
  lemma OwnerRecordValueSeparatesIds(ep1: Endpoint, ep2: Endpoint, ownerId: string)
    requires BuildOwnerRecordValue(ep1, ownerId) == BuildOwnerRecordValue(ep2, ownerId)
    ensures ep1.id == ep2.id
  {
    var v := BuildOwnerRecordValue(ep1, ownerId);
    if ep1.id != "" && ep2.id != "" {
      assert "-" + ep1.id == v[|ownerId|..] == "-" + ep2.id;
      assert ep1.id == ("-" + ep1.id)[1..];
      assert ep2.id == ("-" + ep2.id)[1..];
    }
  }

  /** A marker written for an endpoint is recognised as owning it, by any owner id: the
      `ownerId` argument of `isOwnerOfRecord` is never consulted. */
  lemma OwnerRecordRecognised(rrs: ResourceRecordSet, ep: Endpoint, ownerId: string, askedId: string)
    requires rrs.name == ep.dnsName && rrs.rrType == RRTypeTxt
    requires |rrs.resourceRecords| > 0
    requires rrs.resourceRecords[0] == RecordOwnerPrefix + BuildOwnerRecordValue(ep, ownerId)
    ensures IsOwnerOfRecord(rrs, ep, askedId)
  {
    var value := rrs.resourceRecords[0];
    assert value[..|RecordOwnerPrefix|] == RecordOwnerPrefix;
  }

  /** Within one zone, a marker kept at one owner's name never claims the record of another
      owner: `isOwnerOfRecord` compares names, and `BuildFQDN` gives different owners
      different names. */
  lemma OwnerMarkerClaimsOnlyItsOwner(rrs: ResourceRecordSet, ep: Endpoint, ownerId: string,
                                      markerOwner: string, recordOwner: string, zone: string)
    requires rrs.name == BuildFQDN(markerOwner, zone) && ep.dnsName == BuildFQDN(recordOwner, zone)
    requires rrs.name == ep.dnsName && rrs.rrType == RRTypeTxt ==> |rrs.resourceRecords| > 0
    requires IsOwnerOfRecord(rrs, ep, ownerId)
    ensures markerOwner == recordOwner
  {
    BuildFQDNInjective(markerOwner, recordOwner, zone);
  }
}
