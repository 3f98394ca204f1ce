/** The cases of controllers/provider/aws_test.go, and one weighted page, stated over the
    model. */
module Scenarios {
  import opened Wrappers
  import opened Endpoint
  import opened Route53
  import opened Names
  import opened Diff
  import opened Records

  /** TestBuildFQDN: a zone with or without the root dot gives the same absolute name. */
  lemma FQDNWithAndWithoutRoot()
    ensures BuildFQDN("test", "example.com") == "test.example.com."
    ensures BuildFQDN("test", "example.com.") == "test.example.com."
  {
    BuildFQDNShape("test", "example.com");
    BuildFQDNShape("test", "example.com.");
  }

  /** The endpoint of the A-record cases of TestDiff. */
  function TestA(rdata: string): Endpoint
  {
    Named("test.example.com.", "A").(rdata := rdata, ttl := 300)
  }

  function TestAlias(dnsName: string, zoneId: string, health: bool): Endpoint
  {
    Named("test.example.com.", "A").(isAlias := true, aliasTarget := AliasOpts(dnsName, zoneId, health))
  }

  /** TestDiff, "no diff": an owner whose record equals the desired one gets no change. */
  lemma DiffNoDiff()
    ensures DiffSpec(["test"], "example.com", TestA("192.0.2.1"), map["test" := TestA("192.0.2.1")]) == []
  {
    FQDNWithAndWithoutRoot();
  }

  /** TestDiff, "no record": a missing record is created with its TTL and value. */
  lemma DiffNoRecord()
    ensures DiffSpec(["test"], "example.com", TestA("192.0.2.1"), map[]) ==
      [Change(Create, ResourceRecordSet("test.example.com.", "A", None, None, Some(300), ["192.0.2.1"], None))]
  {
    FQDNWithAndWithoutRoot();
  }

  /** TestDiff, "diff in rdata": a record with another value is upserted. */
  lemma DiffInRdata()
    ensures DiffSpec(["test"], "example.com", TestA("192.0.2.1"), map["test" := TestA("198.51.100.1")]) ==
      [Change(Upsert, ResourceRecordSet("test.example.com.", "A", None, None, Some(300), ["192.0.2.1"], None))]
  {
    FQDNWithAndWithoutRoot();
  }

  /** TestDiff, "diff in alias target": an alias with another target is upserted, carrying
      only the alias target. */
  lemma DiffInAliasTarget()
    ensures var desired := TestAlias("target.example.com.", "Z0123456789ABCDEFGHIJ", true);
      var actual := TestAlias("wrong.example.com.", "Z0987654321ZYXVUTSRQP", false);
      DiffSpec(["test"], "example.com", desired, map["test" := actual]) ==
        [Change(Upsert, ResourceRecordSet("test.example.com.", "A", None, None, None, [],
                                          Some(AliasTarget("target.example.com.", "Z0123456789ABCDEFGHIJ", true))))]
  {
    FQDNWithAndWithoutRoot();
  }

  /** TestDiff, "diff in record type": a plain record where an alias is desired is upserted. */
  lemma DiffInRecordType()
    ensures var desired := TestAlias("target.example.com.", "Z0123456789ABCDEFGHIJ", true);
      DiffSpec(["test"], "example.com", desired, map["test" := TestA("198.51.100.1")]) ==
        [Change(Upsert, ResourceRecordSet("test.example.com.", "A", None, None, None, [],
                                          Some(AliasTarget("target.example.com.", "Z0123456789ABCDEFGHIJ", true))))]
  {
    FQDNWithAndWithoutRoot();
  }

  /** TestDiff, "diff in record class": a record of another class is upserted. */
  lemma DiffInRecordClass()
    ensures var desired := Named("test.example.com.", "TXT").(rdata := "test", ttl := 300);
      DiffSpec(["test"], "example.com", desired, map["test" := TestA("198.51.100.1")]) ==
        [Change(Upsert, ResourceRecordSet("test.example.com.", "TXT", None, None, Some(300), ["test"], None))]
  {
    FQDNWithAndWithoutRoot();
  }

  /** TestRecords, "get matched record": the first set matches; the next set has another
      name, so the scan ends there. */
  lemma RecordsMatched()
    ensures var sets := [
        ResourceRecordSet("test.example.com.", "A", None, None, Some(300), ["198.51.100.1"], None),
        ResourceRecordSet("test.example.com.example.com.", "TXT", None, None, Some(600), ["expected ignore"], None)];
      AllWellFormed(sets) && Resolve(sets, "test.example.com.", "A", None) == Some(TestA("198.51.100.1"))
  {
    var sets := [
        ResourceRecordSet("test.example.com.", "A", None, None, Some(300), ["198.51.100.1"], None),
        ResourceRecordSet("test.example.com.example.com.", "TXT", None, None, Some(600), ["expected ignore"], None)];
    assert sets[1..][1..] == [];
    assert Scan(sets[1..], "test.example.com.", "A", None, TestA("198.51.100.1"), Some(TestA("198.51.100.1")))
        == Some(TestA("198.51.100.1"));
  }

  /** TestRecords, "get matched alias record": an alias set yields its target, with no
      value, no TTL and no alias flag. */
  lemma RecordsMatchedAlias()
    ensures var sets := [
        ResourceRecordSet("alias.example.com.", "A", None, None, None, [],
                          Some(AliasTarget("test.example.com.", "Z0123456789ABCDEFGHIJ", true)))];
      AllWellFormed(sets) &&
      Resolve(sets, "alias.example.com.", "A", None) ==
        Some(Named("alias.example.com.", "A").(aliasTarget := AliasOpts("test.example.com.", "Z0123456789ABCDEFGHIJ", true)))
  {
    var sets := [
        ResourceRecordSet("alias.example.com.", "A", None, None, None, [],
                          Some(AliasTarget("test.example.com.", "Z0123456789ABCDEFGHIJ", true)))];
    assert sets[1..] == [];
  }

  /** A weighted page as Route 53 lists it, sorted by set identifier: asking for the first
      identifier resolves to that set's value, TTL and weight; the second set carries another
      identifier and ends the scan. */
  lemma RecordsWeightedPage()
    ensures var sets := [
        ResourceRecordSet("test.example.com.", "A", Some("a"), Some(1), Some(300), ["192.0.2.1"], None),
        ResourceRecordSet("test.example.com.", "A", Some("b"), Some(2), Some(300), ["192.0.2.2"], None)];
      AllWellFormed(sets) &&
      Resolve(sets, "test.example.com.", "A", Some("a")) == Some(TestA("192.0.2.1").(id := "a", weight := Some(1)))
  {
    var sets := [
        ResourceRecordSet("test.example.com.", "A", Some("a"), Some(1), Some(300), ["192.0.2.1"], None),
        ResourceRecordSet("test.example.com.", "A", Some("b"), Some(2), Some(300), ["192.0.2.2"], None)];
    var first := TestA("192.0.2.1").(id := "a", weight := Some(1));
    assert sets[1..][0] == sets[1];
    assert Scan(sets[1..], "test.example.com.", "A", Some("a"), first, Some(first)) == Some(first);
  }
}
