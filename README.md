# dns-rr: the Route 53 convergence engine, in Dafny

dns-rr is a Kubernetes operator. Users declare DNS records as `ResourceRecord` resources, and the
operator converges Route 53 hosted zones to them. This project models the engine behind that:

- the Route 53 provider of `controllers/provider/aws.go`. `Converge` builds the desired endpoint
  from a record spec and resolves each owner's current record (`records`: one listing per owner,
  scanned from the owner's absolute name). It diffs the two (`diff`: one Create or Upsert per owner
  that is missing or differs) and submits every change in one batch. `AllRecords` pages through a
  whole zone, and `buildFQDN`, `buildOwnerRecordValue` and `isOwnerOfRecord` are name helpers.
- the zone cache of `controllers/provider_controller.go`. `updateCache` lists the Provider
  resources and stores every record set of each provider's zone under `namespace/name`. The
  background task empties the cache, refreshes it once, and then refreshes it once per tick.

Route 53 is an oracle. The class `Route53.Route53Client` answers listing requests with a fixed
function `list` and change batches with a fixed function `change`, and it logs every call in
`calls`. Each method states its result and the exact calls it makes in terms of pure specification
functions:

- `Records.Resolved` and `Records.ResolveRequests` for `records`;
- `Paging.AllPages` and `Paging.AllPageRequests` for `AllRecords`;
- `Diff.DiffSpec` for `diff`;
- `ProviderController.Refresh` and `ProviderController.RefreshCalls` for `updateCache`;
- `ProviderController.RunEntries`, `ProviderController.RunLog` and `ProviderController.RunCalls`
  for the background task.

Lemmas then state what those functions guarantee.

Modules:

- `Wrappers`: `Option` and `Result`.
- `Endpoint`: the engine's record.
- `ResourceRecordTypes`: the user's intent.
- `Route53`: the SDK shapes used, and the client.
- `Names`: the name helpers.
- `Diff`: the diff engine.
- `Records`: record resolution.
- `Paging`: zone listing.
- `Provider`: the `Route53Provider` class.
- `ProviderController`: the `ZoneCache` class.
- `Scenarios`: the cases of `controllers/provider/aws_test.go`, and one weighted page.

Behaviour of the code worth knowing, which the model keeps as written:

- **Set-identifier mismatch.** When `records` looks for a set identifier and meets a set of the
  owner's name and type with a different or missing identifier, it leaves the scan (`break`). It
  does not skip that set and look further. `Records.ResolveFirstMatchDecides` states the
  consequence: only the first such set can match.
- **Refresh failure.** A failed client construction or zone listing in `updateCache` aborts the
  whole refresh. Later providers are not refreshed in that round. Entries written earlier in the
  round remain.
- **Reads by `records`.** `records` queries Route 53 directly. It does not read the zone cache.
- **Alias intents.** `Converge` copies the spec's TTL into the desired endpoint for alias records
  too. `records` never sets `IsAlias` on what it resolves. So an alias intent is never found
  converged (`Provider.AliasIntentAlwaysChanges`).
- **Identifier without a weight.** `diff` writes a set identifier only together with a weight,
  but `records` filters by the spec's identifier. So a non-alias intent with an identifier and
  no weight is never found either, and every call creates it again
  (`Provider.UnweightedIdentifierAlwaysCreates`).
- **Error lines.** `updateCache` logs a failed client construction or zone listing itself, and
  its caller logs the returned error again. Such a failure appears twice in the log.

## Model

The functions `Names.BuildFQDN` (controllers/provider/aws.go:239-245), `Names.IsOwnerOfRecord`
(controllers/provider/aws.go:247-257) and `ProviderController.CacheKey`
(controllers/provider_controller.go:134) model those lines directly. Their properties are stated
by the lemmas in the rows that cite the same lines.

| member | source | states |
|---|---|---|
| Names.BuildFQDNShape | controllers/provider/aws.go:239-245 | the FQDN ends in a dot and starts with the owner and a dot; it is owner + "." + zone when the zone is empty or ends in a dot, and that followed by one more dot otherwise |
| Names.BuildFQDNAbsoluteZone | controllers/provider/aws.go:239-245 | a non-empty zone without a trailing dot and the same zone with one give the same FQDN |
| Names.BuildFQDNEmptyZone | controllers/provider/aws.go:239-245 | the exception: zone "" gives owner. while zone "." gives owner.., so the two differ |
| Names.BuildFQDNInjective | controllers/provider/aws.go:239-245 | within one zone, equal FQDNs imply equal owners |
| Names.BuildOwnerRecordValue | controllers/provider/aws.go:259-265 | the value starts with the owner id; it is the owner id exactly when the endpoint has no set identifier, else it continues with "-" and the identifier |
| Names.OwnerRecordValueSeparatesIds | controllers/provider/aws.go:259-265 | under one owner id, equal marker values imply equal set identifiers |
| Names.OwnerRecordRecognised | controllers/provider/aws.go:247-257 | a TXT set named like the endpoint whose first value is the prefix plus a built marker value is recognised as owning it, whatever owner id is asked (the id is never consulted) |
| Names.OwnerMarkerClaimsOnlyItsOwner | controllers/provider/aws.go:247-257 | within one zone, a marker set at one owner's FQDN is an owner record only of an endpoint at that same owner's FQDN |
| Diff.Diff | controllers/provider/aws.go:108-158 | the loop, rewriting its copy's name per owner, returns exactly DiffSpec: per owner in order, nothing when converged, else a Create (no actual endpoint) or an Upsert (endpoint differs) carrying the owner's record set |
| Diff.DiffLength | controllers/provider/aws.go:111-156 | at most one change per owner |
| Diff.DiffFull | controllers/provider/aws.go:111-156 | exactly one change per owner when no owner has converged |
| Diff.DiffAppend | controllers/provider/aws.go:111-156 | owners are handled independently and in order: the diff of a concatenation is the concatenation of the diffs |
| Diff.DiffEmptyIff | controllers/provider/aws.go:145-154 | the diff is empty iff every owner's actual endpoint exists and deep-equals the desired endpoint named for that owner |
| Diff.DiffChangesFromOwners | controllers/provider/aws.go:145-154 | every change is the change of some listed owner that has not converged |
| Diff.DiffCoversOwners | controllers/provider/aws.go:145-154 | every owner that has not converged receives its change |
| Diff.DiffNeverDeletes | controllers/provider/aws.go:145-155 | no change is a Delete |
| Diff.DiffChangeShapes | controllers/provider/aws.go:113-143 | every change is named by an owner's FQDN and typed by the desired class; alias: alias target only, no TTL or record; otherwise: TTL and the single record rdata; set identifier and weight exactly when a weight is desired |
| Diff.DiffNamesDistinct | controllers/provider/aws.go:111-156 | distinct owners give changes with pairwise distinct names |
| Records.ScanShape | controllers/provider/aws.go:174-212 | from a named accumulator, the scan yields an endpoint with the owner's FQDN and the asked class, never marked alias, with the asked identifier |
| Records.ResolveShape | controllers/provider/aws.go:174-212 | the same for the scan from the fresh accumulator |
| Records.ScanStopsAtOtherName | controllers/provider/aws.go:179-212 | the scan ignores everything from the first set with another name on |
| Records.ScanNoMatch | controllers/provider/aws.go:179-212 | a page with no set of the owner's name and the asked type leaves what was stored |
| Records.ScanKeepsSome | controllers/provider/aws.go:179-212 | once an entry is stored, the scan resolves to something |
| Records.ScanSkipsOtherType | controllers/provider/aws.go:179-182 | a set of the owner's name and another type is skipped: removing it from the page leaves the scan unchanged |
| Records.ScanLastMatchWins | controllers/provider/aws.go:179-208 | on a page of the owner's name whose sets of the type all pass the identifier filter, the last set k of the type wins: its alias target or its value and TTL, and its weight |
| Records.ResolveLastMatchWins | controllers/provider/aws.go:174-212 | on a page listed from the FQDN (the owner's sets, then another name or the end), with every set of the type among them passing the identifier filter (always so with no identifier asked), the last set of the type wins; sets of other types, such as the TXT owner marker, are skipped |
| Records.ResolveKeepsEarlierFields | controllers/provider/aws.go:175-208 | the accumulator is reused: a value set then an alias set resolve to the first's value and TTL with the second's alias target, still not marked alias |
| Records.ScanAliasOnly | controllers/provider/aws.go:183-193 | when every set of the type is an alias set, the result keeps an empty value and TTL 0 |
| Records.ResolveAliasOnly | controllers/provider/aws.go:183-193 | the same from the fresh accumulator |
| Records.ScanIdentifierSource | controllers/provider/aws.go:179-209 | with an identifier asked, a new result is taken from a set of the owner's name and type carrying exactly that identifier: its alias target or its value and TTL, and its weight |
| Records.ResolveIdentifierSource | controllers/provider/aws.go:174-212 | the same from the fresh accumulator: whatever is resolved carries the fields of a set with the asked identifier |
| Records.ScanStopsAtRejected | controllers/provider/aws.go:179-202 | a set of the owner's name and type that fails the identifier filter ends the scan: when all sets before it have the owner's name, the scan equals the scan of the sets before it |
| Records.ScanNothingOverrides | controllers/provider/aws.go:179-212 | when the first set of the asked type among the owner's sets at the head of the page fails the identifier filter, or there is none, the scan leaves what was stored |
| Records.ResolveFirstMatchDecides | controllers/provider/aws.go:179-212 | the first set of the owner's name and type decides: something is resolved iff it passes the identifier filter; with an identifier asked, a first such set without it yields nothing even when a later set carries it |
| Records.ResolvedEntries | controllers/provider/aws.go:160-217 | on success every owner whose page resolves maps to that resolution; every other key keeps its earlier entry or stays absent |
| Records.ResolvedFailsIff | controllers/provider/aws.go:169-172 | records fails iff some owner's listing fails, with a listing error for the zone |
| Records.ResolvedShapes | controllers/provider/aws.go:160-217 | every key of the result is a listed owner and its endpoint has the owner's FQDN, the asked class and identifier, not marked alias |
| Paging.PagesBoundIrrelevant | controllers/provider/aws.go:219-237 | the record sets and requests of a listing do not depend on the request bound used to define them |
| Paging.AllPagesAnyBound | controllers/provider/aws.go:219-237 | a zone's record sets and requests are those under any sufficient bound |
| Paging.PageRequestsFollowCursor | controllers/provider/aws.go:224-234 | the first request starts the zone; each next one carries the previous page's next name, type and identifier; every page but the last was truncated; the last failed or was not truncated; all stay in the zone |
| Paging.PagesAreConcatenation | controllers/provider/aws.go:224-234 | the result is the concatenation of every page in fetch order when the last listing succeeds, else the last listing's error for the zone |
| Route53.Route53Client.ListResourceRecordSets | controllers/provider/route53api.go:12 | the answer is the oracle's, and the call is logged |
| Route53.Route53Client.ChangeResourceRecordSets | controllers/provider/route53api.go:13 | the answer is the oracle's, and the call is logged |
| Provider.DesiredEndpoint | controllers/provider/aws.go:61-82 | the desired endpoint has the spec's class and TTL; alias: the alias flag and target, no value; otherwise: the value and no target; the weight; the identifier or ""; no name and no owner |
| Provider.StoreMatches | controllers/provider/aws.go:174-212 | the page loop, with its reused accumulator and breaks, writes the owner's entry exactly when the page resolves, with that resolution, and leaves every other entry alone |
| Provider.Route53Provider.constructor | controllers/provider/aws.go:25-28 | a provider is bound to a zone id and a client |
| Provider.Route53Provider.Records | controllers/provider/aws.go:160-217 | the result is Resolved (first listing failure aborts with a zone error; otherwise each owner's resolution is stored) and the calls are one listing per owner from its FQDN, up to the first failure |
| Provider.Route53Provider.AllRecords | controllers/provider/aws.go:219-237 | the result is every page of the zone joined, or the first listing error, and the calls are exactly the cursor-following requests |
| Provider.Route53Provider.Converge | controllers/provider/aws.go:60-106 | a records failure is returned with no change call; an empty diff makes no change call and succeeds; otherwise exactly one batch holding the whole diff is sent for the zone and its failure is returned wrapped with the zone |
| Provider.CreatedRecordResolves | controllers/provider/aws.go:108-212 | round trip: the record set a non-alias change writes, listed first for its FQDN, resolves to exactly the desired endpoint for that owner, provided the first later set of the owner's name and the desired type, if any, fails the identifier filter (another weighted set of the name carries another identifier); same-name sets of other types (the TXT marker) are skipped (identifier requires weight) |
| Provider.OwnerConverged | controllers/provider/aws.go:60-106 | an owner whose listing starts with the set its change writes, under the same condition on the sets after it, resolves to the desired endpoint |
| Provider.ConvergedAfterCreate | controllers/provider/aws.go:60-106 | fixed point: once every owner's listing starts with the set its change writes, under the same condition on the sets after it, the diff is empty, so Converge sends nothing |
| Provider.AliasIntentAlwaysChanges | controllers/provider/aws.go:60-106 | for an alias intent, whenever records succeeds the diff has one Create or Upsert per owner |
| Provider.UnweightedIdentifierNeverResolves | controllers/provider/aws.go:139-202 | for a non-alias spec with an identifier and no weight, the set its change writes carries no identifier, and a page starting with it resolves to nothing |
| Provider.UnweightedIdentifierAlwaysCreates | controllers/provider/aws.go:60-106 | for such a spec, even when every owner's listing starts with the set its change wrote, records succeeds and the diff has one Create per owner |
| ProviderController.CacheKeyInjective | controllers/provider_controller.go:134 | when namespaces hold no slash, equal cache keys mean equal namespace and name |
| ProviderController.ZoneCache.constructor | controllers/provider_controller.go:45-48 | the cache starts empty with nothing logged |
| ProviderController.UpdateCacheLog | controllers/provider_controller.go:136-145 | updateCache's own error lines: at most one, and only for the error it returns |
| ProviderController.CycleLog | controllers/provider_controller.go:102-117 | a refresh logs nothing iff it succeeds; otherwise every line carries its error and the caller's line comes last |
| ProviderController.ZoneCache.UpdateCache | controllers/provider_controller.go:121-151 | a provider list failure returns its error and leaves cache, log and Route 53 untouched; otherwise the cache becomes Refresh of the old cache, the error is Refresh's and is logged once here, and the calls are exactly the zone listings reached |
| ProviderController.ZoneCache.Start | controllers/provider_controller.go:102-106 | the cache is emptied, then refreshed; a failure is logged after updateCache's own line |
| ProviderController.ZoneCache.Tick | controllers/provider_controller.go:110-117 | the cache as it stands is refreshed; a failure is logged after updateCache's own line |
| ProviderController.ZoneCache.Background | controllers/provider_controller.go:96-119 | after the initial refresh and one refresh per tick, the cache, the log and the calls are those of refreshing for each listing in turn from an empty cache |
| ProviderController.RefreshKeepsKeys | controllers/provider_controller.go:131-150 | a refresh never removes a key |
| ProviderController.RefreshLeavesOthers | controllers/provider_controller.go:131-150 | a key no listed provider has keeps its presence and its value |
| ProviderController.RefreshSucceedsIff | controllers/provider_controller.go:131-150 | a refresh succeeds iff every listed provider's client builds and its zone lists; its error is never a provider-list error |
| ProviderController.RefreshFirstFailure | controllers/provider_controller.go:133-146 | a failed refresh failed at some provider k: the providers before k all refreshed, the cache is what refreshing them alone gives, and the error is provider k's (client or listing) |
| ProviderController.RefreshEntries | controllers/provider_controller.go:141-146 | after a successful refresh, a provider not followed by another with the same key holds exactly its zone's record sets |
| ProviderController.RunOneMore | controllers/provider_controller.go:102-117 | a failed refresh never stops the next: one more tick refreshes the cache left by the earlier ones and appends its error lines, if any, to the log |
| Scenarios.FQDNWithAndWithoutRoot | controllers/provider/aws_test.go:16-43 | "test" in "example.com" and in "example.com." both give "test.example.com." |
| Scenarios.DiffNoDiff | controllers/provider/aws_test.go:58-78 | an equal record gives no change |
| Scenarios.DiffNoRecord | controllers/provider/aws_test.go:80-105 | a missing record gives one Create with TTL 300 and the value |
| Scenarios.DiffInRdata | controllers/provider/aws_test.go:107-139 | another value gives one Upsert |
| Scenarios.DiffInAliasTarget | controllers/provider/aws_test.go:141-182 | another alias target gives one Upsert carrying only the alias target |
| Scenarios.DiffInRecordType | controllers/provider/aws_test.go:184-221 | a plain record where an alias is desired gives one Upsert carrying the alias target |
| Scenarios.DiffInRecordClass | controllers/provider/aws_test.go:223-254 | a record of another class gives one Upsert of the TXT record |
| Scenarios.RecordsMatched | controllers/provider/aws_test.go:286-332 | the A set is resolved with its value and TTL; the next set, of another name, is ignored |
| Scenarios.RecordsMatchedAlias | controllers/provider/aws_test.go:334-379 | an alias set resolves to its target, with no value, TTL 0 and no alias flag |
| Scenarios.RecordsWeightedPage | controllers/provider/aws.go:179-209 | on the page [A id a weight 1, A id b weight 2], asking for a resolves to a's value, TTL 300, identifier and weight |

## Left out

- `NewClient` and `credFromSecretRef` (controllers/provider/aws.go:30-58, 267-312) read Kubernetes
  Secrets and load AWS configuration. That is foreign I/O. Client construction is the parameter
  `connect`, which says whether it fails for a provider; its "empty region" error is one such
  failure. All built clients answer through the one `Route53Client` oracle, which tells zones
  apart by hosted zone id.
- The `NewClient` call in `updateCache` passes a fourth argument (the cache) that the listed
  `NewClient` does not take. The model passes nothing.
- The RWMutex, the goroutine, the ticker and context cancellation in `updateCacheInBackground`
  are concurrency and timing. A tick is an explicit `Tick` call, and the end of the context is the
  end of the tick sequence given to `Background`. The log is a sequence of errors, one per error
  line. Log texts and the informational log lines are not modelled.
- `ProviderReconciler.Reconcile` and the ResourceRecord controller are left out. The first holds
  only TODOs; the second holds the Kubernetes scaffolding that calls `Converge`.
- Error texts from `errors.Wrapf` and `fmt.Errorf` are not modelled. Errors are tagged values
  that carry the zone id and the cause.
- Deleting records is not modelled: it is a TODO in the source. Multi-value record sets are not
  modelled either: only the first value is read. There is no dry-run switch in the code.
- Panics are not modelled. Go dereferences a non-alias set's TTL and first value without checking
  them. `Route53.WellFormedListings` excludes such sets from every listing (a precondition of
  `Records` and `Converge`). `Names.IsOwnerOfRecord` requires a first value wherever it reads one.
- Provider.Route53Provider.AllRecords: requires that the listing of the zone reaches an
  untruncated or failed page (`Paging.PagingEnds`). A Route 53 zone is finite, but the oracle could
  loop forever; that case is not modelled.
- ProviderController.ZoneCache.Background and ProviderController.RunOneMore: transient failures
  between ticks are not modelled. `connect` and the oracle depend only on the provider and the
  request, so a client build or zone listing that fails on one tick and succeeds on a later one
  cannot be expressed. What varies from tick to tick is the Provider listing.
- The oracle is fixed for a run. A change batch does not alter what later listings return, and
  Route 53's validation of batches (such as rejecting a Create of an existing set) is only the
  `change` function's answer.
- Integer widths are not modelled: TTLs and weights are unbounded. `ResourceRecordTypes.Valid`
  records the bounds the API server enforces on specs (TTL at most 2^31-1, weight at most 255).
  It is documentation only: no contract requires it, since aws.go never relies on these bounds.
  Converting the 32-bit TTL to 64 bits in `Converge` cannot wrap.
- `reflect.DeepEqual` on endpoints is datatype equality. This is exact because it compares the
  pointed-to weight, not the pointer.
- The changes built by `diff` point into the loop's copy of the desired endpoint. Only that copy's
  name changes between owners, and each change takes its name from a fresh string. So values are
  enough to model the changes.
- `Route53Provider.records` and the page scan are split into `Records` and `StoreMatches` to keep
  each proof small. `StoreMatches` takes the map and returns it updated, where Go writes it in
  place.
