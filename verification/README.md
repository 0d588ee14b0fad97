# aether-powerdns: a verified model of the operator's DNS layer

aether-powerdns is a Kubernetes operator. `Zone` and `RRSet` resources declare what a PowerDNS server should
hold; two reconcilers carry the declarations into the PowerDNS API, sharing that API with people and programs
that use it directly. Other reconcilers bring the servers up and put dnsdist in front of them. This project
states, in Dafny, what those reconcilers do and proves what they keep, over every run.

`dafny verify dfyconfig.toml` checks everything.

## How the model is built

**The protocol** (`Machine`) is a step machine. One step is one API call, or the cluster reads that open a
pass. Between any two steps anything may happen: another resource's pass takes a step, a user creates, edits
or deletes a resource, someone uses the PowerDNS API directly, a server changes phase or disappears. A call
may succeed, fail without effect, or take effect and fail all the same; a read may miss a zone that exists; a
write back to the cluster may fail. `Run` is any such interleaving, so a lemma over `Run` holds for all of
them.

PowerDNS (`PowerDNS`, in `Store.dfy`) is a map from server and zone name to kind, masters, serial, keys and
record sets, with the store semantics the repository's own fake relies on. Four history variables carry no
behaviour: who wrote a record set last, which incarnation a zone is, which RRSets were released and with what
excuse, and which incarnations the Zone controller has sent its SOA to.

**The reconcilers** (`Reconcilers`) are written as the operator runs them, as methods of a class that update
the cluster and the store call by call, with the operator's loops. Each says what it leaves in the store and is
proved to be exactly a pass of the step machine left to run without interleaving; such a pass is in turn a run
(`Reachability`). So what is proved of runs is proved of the methods. `ZoneParts` cuts a Zone pass at the
controller's function boundaries and says what each part means for the store.

**On top** sit the invariants over runs: `Ownership` and `Relocation`, `Coexistence`, `Conflicts` and `Drains`,
`KeyHistory`, `Seeding`, `ReadyRuns` (with `ReadyTruth` for a pass by itself), `AppliedRuns`, `Quiescence` and `Settling`. Where a
theorem has to ask for more than one would hope, a run for all inputs shows that it must: `StrayRecord`,
`LateRival`, `LeftBehind`, `SharedZone`, `DroppedZone`. Around them: `ServiceMerge` and `Convergence` (Services
under optimistic concurrency), `PhaseMachine` (the phases of a PowerDNSServer), `ExtraSettings` and `ConfigHash`
(pdns.conf and the hash over it), `DnsDist` (the dnsdist frontend).

### Findings

- *A record can outlive an acknowledged DELETE*, when its Zone moves. Let a Zone go under policy Orphan and
  declare it again, same name, at another place; the RRSet's deletion then goes there and is acknowledged there,
  and the old record stays. This is so from every system and for every such declaration
  (`StrayRecord.MovedZoneLeavesRecord`). It is also the only way: while a Zone key stands for one place, deleted
  and declared again there or not, every record written through it is held through a finalizer or excused
  (`Relocation.OwnedWhileZoneStays`, `Relocation.RecordsAreOwned`), and a key that has moved is covered again once
  the place is clear (`Relocation.OwnedSinceClear`).
- *A record set goes with the last of its claimants, if they hold their finalizers.* Released beside a survivor or
  after a DELETE, in any order: once the last is gone so is the record (`Drains.RecordGoesWithItsClaimants`). A
  survivor that has no finalizer yet, or a policy edited from Orphan while the release is pending, can leave it
  behind (`LeftBehind.FreshSurvivorLeavesRecord`, `LeftBehind.PendingReleaseLeavesRecord`).
- *A conflict freezes a record except for passes already on their way.* Rivals are looked for once, when a pass
  opens. While two live RRSets claim a record, a step that changes it belongs to a pass that was on its way to it
  before (`Conflicts.ContestedChangeIsOld`); and from every system such a pass can be on its way
  (`LateRival.ContestedRecordMayChange`). The same goes for a DELETE beside a live claimant
  (`Conflicts.NoDeleteUnderSurvivor`, `LateRival.ClaimedRecordMayBeDeleted`).
- *Two Zones may stand for one zone.* Nothing refuses two Zone resources with the same server and zone name.
  From every system with two such Zones a run gives the zone two keys (`SharedZone.TwoZonesMintTwice`), or has it
  seeded twice (`SharedZone.TwoZonesSeedTwice`), so the theorems on keys and seeding must ask for distinct Zones.
- *Convergence of a Service is not idempotent for every declaration.* Two declared ports that match each other,
  the first with a fixed NodePort and the second without, make the second convergence write again. The exact
  condition is `ServiceMerge.IdempotentExactlyWhen`; another, also exact, decides whether NodePorts assigned
  later unsettle it (`ServiceMerge.FillKeepsConvergedExactlyWhen`). Both hold exactly if every declared port without
  a NodePort is the first it matches (`ServiceMerge.OpenPortsFirstExactlyWhen`), as uniquely matching ports are.
- *The hash preimage marks neither where the configuration ends nor where a Secret does.* The front of the first
  key may as well belong to the configuration (`ConfigHash.PreimageIsAmbiguous`), and keys in order may be in one
  Secret or in two (`ConfigHash.SecretsRunTogether`). With equal key sets it is unambiguous
  (`ConfigHash.PreimageDetermines`); so it is behind configurations that end their last line, as rendered ones do,
  with equally many entries in each Secret (`ConfigHash.PreimageDeterminesBySize`).
- *Published outputs are final.* API key Secret, backend Secret and API endpoint never change once their phase
  is past, whatever is edited later, `spec.api` included (`PhaseMachine.OutputsAreFinal`).

### Readings

Where documentation and code differ the code is followed. Text stands for its bytes in `Sorting` and
`ConfigHash`; order by code point and order by UTF-8 byte agree. A "not found" answer to a write is taken to be
true; one to a read is not. User edits keep what the CRDs make immutable (an RRSet's zone reference, name and
type; a Zone's server reference and zone name). Uids, incarnations and key ids come from one counter.

## Model

| member | source | states |
|---|---|---|
| `Relocation.RecordsAreOwned` | internal/controller/rrset_controller.go:49-206 | in every state of every run, a record last written for an RRSet is held by that RRSet with its finalizer on, or the RRSet was released with a recorded excuse other than an acknowledged DELETE, or the Zone resource it was written through is gone and its key has stood for another place since the start, and since any moment at which the place was clear of the key's records and passes |
| `Relocation.OwnedSinceClear` | internal/controller/rrset_controller.go:164-206 | once a place is clear, for as long as the key stands for it and wherever it stood before, every record written there through it is held or excused |
| `Relocation.OwnedWhileZoneStays` | internal/controller/rrset_controller.go:164-206 | while a Zone key stands for one place whenever it exists, every record written through it lies there and is held or excused, without exception |
| `StrayRecord.MovedZoneLeavesRecord` | internal/controller/rrset_controller.go:164-206 | from every system with an RRSet that may write through a Zone under policy Orphan, and for every declaration of that Zone at another place, a run with every call acknowledged leaves a record of a released RRSet behind |
| `StrayRecord.SomeZoneMayMove` | internal/controller/rrset_controller.go:164-206 | there are such systems among the initial ones |
| `Ownership.ReplaceNeedsFinalizer` | internal/controller/rrset_controller.go:55-64 | a REPLACE is only ever due for an RRSet that exists with its finalizer persisted, for the record it declares, where its Zone stands |
| `Ownership.ExcusesAreTrue` | internal/controller/rrset_controller.go:151-206 | every excuse under which an RRSet was or is being released was true of it at an earlier moment of the run (policy Orphan, Zone missing or deleting, another live claimant, server missing, deleting or Failed), and one released as deleted had the DELETE of its pass acknowledged |
| `Ownership.ExcusedPassReleases` | internal/controller/rrset_controller.go:151-206 | the other way round: whenever an excuse holds, a deletion pass whose cluster calls succeed releases the RRSet, without touching PowerDNS, under an excuse that holds |
| `Ownership.StepKeepsInv` | internal/controller/rrset_controller.go:49-206 | every step of anyone keeps the inductive invariant behind ownership, passes in flight included |
| `Ownership.InvAlways` | internal/controller/rrset_controller.go:49-206 | that invariant holds throughout every run |
| `Coexistence.EveryChangeHasACause` | internal/controller/rrset_controller.go:123-134 | if a step changes a record set, the step is a direct API user's on it, removes the whole zone, is the apex seed of a new zone, or is the PATCH of an RRSet pass that was on its way to exactly this record set |
| `Coexistence.PassesAimAtDeclarations` | internal/controller/rrset_controller.go:66-121 | a pass only sets out for a record set its RRSet declares, at the place its Zone stands for |
| `Coexistence.UndeclaredRecordsSurvive` | internal/controller/rrset_controller.go:123-134 | over whole runs, a record set no RRSet declares, outside the apex seed and untouched by direct API users, stays as it is for as long as its zone is not removed |
| `Conflicts.ConflictIsSymmetric` | internal/controller/rrset_controller.go:212-232 | among live RRSets, conflict goes both ways |
| `Conflicts.RivalsAreClaimants` | internal/controller/rrset_controller.go:212-232 | whoever the scan over the index finds claims the same record set of the same Zone |
| `Conflicts.ClaimantsAreRivals` | internal/controller/rrset_controller.go:212-232 | whoever claims the same record set of the same Zone is found by the scan |
| `Conflicts.RivalKeepsStore` | internal/controller/rrset_controller.go:103-113 | beside another live claimant an uninterrupted pass leaves PowerDNS as it was, whatever its gates say and however its calls fare |
| `Conflicts.BothAreRejected` | internal/controller/rrset_controller.go:103-113 | with the Zone live, not Secondary and covering the name, and its server there, admitting the namespace and Ready, a pass of either of two live claimants ends marked Conflict |
| `Conflicts.RivalStopsPass` | internal/controller/rrset_controller.go:174-180 | with another live claimant a pass heads for neither a REPLACE nor a DELETE, a deleting RRSet is released instead |
| `Conflicts.NoDeleteUnderSurvivor` | internal/controller/rrset_controller.go:174-180 | over runs, while some live RRSet claims a record set, however many are being deleted beside it, no DELETE becomes due for it |
| `Conflicts.NobodySetsOut` | internal/controller/rrset_controller.go:103-113 | over runs, while two live RRSets claim a record set no pass sets out for it |
| `Conflicts.ContestedChangeIsOld` | internal/controller/rrset_controller.go:103-134 | over runs, while two live RRSets claim a record set, an RRSet step that changes it is the REPLACE or DELETE of a pass that was on its way to it, for the same target, at the start |
| `Conflicts.ContestedRecordIsFrozen` | internal/controller/rrset_controller.go:103-113 | so it is frozen from any moment when no pass is on its way to it |
| `LateRival.ContestedRecordMayChange` | internal/controller/rrset_controller.go:103-134 | from every system with an RRSet that has something to write, and for every declaration of the same record set by another, a run from rest reaches a state in which both claim it and an RRSet step changes it |
| `LateRival.ClaimedRecordMayBeDeleted` | internal/controller/rrset_controller.go:174-198 | from every system with an RRSet whose deletion heads for its DELETE, and for every such declaration, a run from rest reaches a state in which the other is a live claimant and the DELETE is sent all the same |
| `Conflicts.UnopposedPassInstalls` | internal/controller/rrset_controller.go:115-143 | one healthy pass of an unopposed RRSet leaves it Applied and its record set served with the declared TTL, or 3600, and the multiset of the declared records; by at most one PATCH and one serial, after which the records are the declared ones in order and all enabled; none if it was served already; and no other record set is changed |
| `AppliedRuns.AppliedStatusIsTruthful` | internal/controller/rrset_controller.go:115-143 | over runs with anything going on beside the pass: the moment an RRSet's status turns Applied, PowerDNS serves the TTL and the records this RRSet declared when the pass opened, where its Zone stood then |
| `AppliedRuns.OnlyPassesTurnApplied` | internal/controller/rrset_controller.go:123-143 | a status turns Applied only through a pass of that RRSet that was on its way to its record set, and the record set is served as the pass wants it then |
| `AppliedRuns.AppliedPassServes` | internal/controller/rrset_controller.go:49-144 | a pass by itself that ends Applied, whatever failed before, leaves what the RRSet declares served |
| `AppliedRuns.PassReports` | internal/controller/rrset_controller.go:66-143 | a pass whose cluster writes succeed leaves the status it reports, not ready with its reason or Applied |
| `AppliedRuns.ReasonsByClass` | internal/controller/zone_controller.go:353-361 | the reason told of a failed call is that the API is out of reach exactly if it was |
| `Drains.RecordGoesWithItsClaimants` | internal/controller/rrset_controller.go:151-232 | over any run from the start in which the Zone has stood alone for its place, from any moment with a live claimant and all holding their finalizers under policy Delete, Zone and server staying live: whichever are deleted when, released beside a survivor or after a DELETE, with any passes on the way and any calls failing, the record set is absent once the last claimant has been let go |
| `Drains.DrainedRecordIsGone` | internal/controller/rrset_controller.go:151-232 | the same from any moment at which some claimant, live or deleting, is not yet at its release |
| `Drains.ReleaseOpensBesideLive` | internal/controller/rrset_controller.go:164-206 | with Zone and server live and policy Delete, a claimant's pass opens to a release without DELETE only beside a live claimant |
| `LeftBehind.PendingReleaseLeavesRecord` | internal/controller/rrset_controller.go:151-162 | from every system with a sole claimant under policy Orphan, a run with the policy edited while the release is pending leaves no claimant and the record set as it was |
| `LeftBehind.FreshSurvivorLeavesRecord` | internal/controller/rrset_controller.go:224-228 | from every system with a sole claimant, and for every declaration of the same record set by another, a run in which that other excuses the first one's release and is deleted before it has a finalizer leaves no claimant and the record set as it was |
| `Drains.PassesMatchAlways` | internal/controller/rrset_controller.go:66-134 | over any run from the start in which the Zone stands alone for its place, a pass on its way is to a record set exactly if its RRSet claims it, which is all that theorem asks of passes |
| `Drains.OneReleaseIsEnough` | internal/controller/rrset_controller.go:164-206 | if besides none of them is on its way to write, the record set is absent as soon as any one of them has been let go |
| `Drains.HealthyPassDrains` | internal/controller/rrset_controller.go:151-206 | a healthy deletion pass does release its RRSet, removes the record set and changes no other |
| `KeyHistory.KeysAreNeverRemoved` | internal/controller/zone_controller.go:230-276 | over runs without direct edits of the keys, whatever keys there were: no key is removed while the zone lasts |
| `KeyHistory.NeverASecondKey` | internal/controller/zone_controller.go:230-276 | from at most one key, any run of toggles, failing calls and interleavings without direct edits of the keys, the zone dropped or made directly or not, keeps at most one |
| `KeyHistory.SameDsEveryTime` | internal/controller/zone_controller.go:266-275 | any two enabled passes about to report on the same incarnation of a zone report the same DS records, given that since each opened the zone was not dropped or made directly |
| `KeyHistory.ReportsTheKey` | internal/controller/zone_controller.go:266-275 | each such pass reports the DS records of the zone's one key |
| `DroppedZone.StaleReportDiffers` | internal/controller/zone_controller.go:266-275 | from every system with a live signed Zone whose zone has DS records, a run in which the zone is dropped and made again under a pass about to report has two reports due on one incarnation with different DS records |
| `KeyHistory.MintedOnlyWhenEmpty` | internal/controller/zone_controller.go:249-262 | a pass about to mint a key finds the key list empty when it does, for any initial keys and whether the zone is dropped or made directly meanwhile or not |
| `SharedZone.TwoZonesMintTwice` | internal/controller/zone_controller.go:249-262 | from every system with two live Zones, gates open and signed, at one place without keys, a run leaves two keys |
| `Seeding.SeedsAtMostOnce` | internal/controller/zone_controller.go:164-224 | over runs, a pass about to send the SOA is the first to do so for the incarnation at hand |
| `SharedZone.TwoZonesSeedTwice` | internal/controller/zone_controller.go:164-224 | from every system with two live Zones, gates open, at one place without a zone, a run seeds one incarnation with the other pass about to seed it again |
| `Seeding.ApexEditsSurvive` | internal/controller/zone_controller.go:100-112 | while the zone lasts, no Zone pass changes any record of it, SOA and NS included, once no seed is pending |
| `Seeding.UndeclaredApexSurvives` | internal/controller/zone_controller.go:100-112 | in a zone that stands with no seed pending, an undeclared record set, at the apex as anywhere, stays as it is over whole runs for as long as the zone is not removed |
| `Seeding.CreationSeeds` | internal/controller/zone_controller.go:164-220 | creating and seeding a zone that is not Secondary leaves it with the declared kind, Native where none is declared, the declared masters, and the declared SOA at its apex |
| `Seeding.CreationRegistersNameservers` | internal/controller/zone_controller.go:169-182 | the declared nameservers, in order and enabled, become the NS record set of the apex of the zone created; without any there is none |
| `Seeding.SeedReadsBack` | internal/controller/zone_controller.go:187-211 | split into its fields (section 3.3.13 of RFC 1035), the seeded content reads back as the first nameserver or the zone, the declared hostmaster or the default, serial 0 and the timers, under the declared TTL or 3600 |
| `Seeding.FailedSeedIsRolledBack` | internal/controller/zone_controller.go:208-219 | a failed seed followed by an acknowledged compensating delete leaves the zone absent and the Zone not ready for the seed's reason |
| `ReadyRuns.ReadyStatusIsTruthful` | internal/controller/zone_controller.go:100-159 | over runs with everything else going on beside the pass, its zone's kind, masters, keys and existence not written directly since it opened: the moment a Zone's status turns Ready, PowerDNS holds the zone with the declared kind, Native where none is declared, and the declared masters, some key active exactly if DNSSEC is enabled, and the DS records in the status are those of the active keys |
| `ReadyRuns.ReportIsTruthful` | internal/controller/zone_controller.go:100-159 | the same of any pass about to report |
| `ReadyRuns.OnlyReportsTurnReady` | internal/controller/zone_controller.go:143-158 | a Zone's status turns Ready only through the report of a pass of that Zone |
| `ReadyTruth.ReadyIsTruthful` | internal/controller/zone_controller.go:100-159 | for a pass by itself: if it reports Ready, found, created or adopted, PowerDNS holds the zone with the declared kind, or Native, and the declared masters when it ends, signed exactly if declared |
| `ReadyTruth.DriveIsTruthful` | internal/controller/zone_controller.go:100-159 | the same from any point of a pass by itself, given what the pass has established there |
| `ReadyTruth.DsInOrder` | internal/controller/zone_controller.go:266-275 | the DS records of several keys are those of each active one, in the order of the keys |
| `Quiescence.ConvergedIsQuiet` | internal/controller/rrset_controller.go:123-143 | from a converged system, any interleaving of passes with any failed or missed calls leaves the whole store, serials included, unchanged |
| `Quiescence.ConvergedServesDeclared` | internal/controller/rrset_controller.go:245-287 | in a converged system every RRSet whose gates are open is served with its declared TTL and records, in a zone of the declared kind and masters |
| `Quiescence.HealthyPassSettles` | internal/controller/zone_controller.go:100-159 | from any state of PowerDNS, one healthy pass of a Zone whose gates are open settles the declared kind, masters and signing and reports it Ready |
| `Settling.EveryWorkableSystemSettles` | internal/controller/zone_controller.go:53-159 | from every system with distinct Zones and nothing being deleted, whatever PowerDNS holds, healthy passes over the Zones and then the RRSets are a run to a converged system |
| `Settling.ZonePassTends` | internal/controller/zone_controller.go:53-159 | a healthy Zone pass changes no other Zone, no RRSet and no zone of PowerDNS but its own |
| `Settling.RRSetPassTends` | internal/controller/rrset_controller.go:49-144 | a healthy RRSet pass changes no other RRSet, no Zone, and of PowerDNS at most its own record set, if its gates let it |
| `Reachability.RRSetPassIsReached` | internal/controller/rrset_controller.go:49-144 | what an uninterrupted RRSet pass makes of a system is reached by a run |
| `Reachability.ZonePassIsReached` | internal/controller/zone_controller.go:53-98 | what an uninterrupted Zone pass makes of a system is reached by a run |
| `ZonePasses.OnePassPerZone` | internal/controller/zone_controller.go:53-98 | with distinct Zones, at most one pass works in a zone |
| `ZonePasses.ZoneInvAlways` | internal/controller/zone_controller.go:53-98 | Zone passes in flight match their Zones, and incarnations are unique, throughout every run |
| `Effects.RRSetStepEffect` | internal/controller/rrset_controller.go:49-206 | what one step of an RRSet pass may change: its own RRSet, the store by its one call, the releases; never Zones or servers |
| `Effects.ZoneStepEffect` | internal/controller/zone_controller.go:53-310 | what one step of a Zone pass may change: its own Zone and the store by its one call; never RRSets, servers or releases |
| `Machine.ZStepDescends` | internal/controller/zone_controller.go:53-310 | whatever the replies, a Zone pass comes to an end |
| `ZoneParts.PartsMakeThePass` | internal/controller/zone_controller.go:100-159 | get, create or adopt, repair kind and masters, converge keys, report: put together they are the step machine's pass |
| `ZoneParts.DriveCreate` | internal/controller/zone_controller.go:164-224 | creation with seed and rollback is what the machine does from its creation call on |
| `ZoneParts.DriveKeys` | internal/controller/zone_controller.go:230-276 | key convergence is what the machine does from its listing on |
| `ZoneParts.DriveLoop` | internal/controller/zone_controller.go:236-247 | the deactivation loop, one call per active key, is the machine's |
| `ZoneParts.FetchMeans` | internal/controller/zone_controller.go:101-112 | the zone object at hand is the stored one in kind and masters; a zone that was there, and every other, is left alone |
| `ZoneParts.DnssecMeans` | internal/controller/zone_controller.go:230-276 | key convergence removes no key, mints one only where there is none and changes nothing else; on success some key is active exactly if DNSSEC is enabled, the first being switched on where none was, and the DS records are those of the active keys |
| `ZoneParts.DeleteMeans` | internal/controller/zone_controller.go:283-310 | a Zone is let go only under policy Orphan, without a server, or with its zone gone from PowerDNS |
| `ZoneParts.DeleteReleases` | internal/controller/zone_controller.go:283-310 | the other way round: with the cluster write succeeding, a Zone under policy Orphan or without a server is let go, and so is one whose delete is acknowledged, its zone then gone |
| `ZoneParts.StatusMeans` | internal/controller/zone_controller.go:143-158 | what the status says after a pass: Ready with the DS records and the serial of the zone that was there, or Pending with what was reported before |
| `ZoneParts.InvalidIsFailed` | internal/controller/zone_controller.go:69-73 | a Secondary with DNSSEC enabled is marked Failed and PowerDNS is not asked |
| `ZoneParts.ServerlessIsPending` | internal/controller/zone_controller.go:75-97 | a Zone whose server is missing, does not admit it, is not Ready or has no API published is marked Pending, the rest of its status kept, and PowerDNS is not asked |
| `ZoneParts.FetchAdopts` | internal/controller/zone_controller.go:101-112 | a zone the first read missed is adopted as it is once its creation is answered with "already exists" |
| `Reconcilers.Operator.ReconcileRRSet` | internal/controller/rrset_controller.go:49-144 | one reconcile of an RRSet is a pass of the step machine, in system, result and inputs consumed; marked Applied, PowerDNS serves the declared TTL and records where the Zone stands |
| `Reconcilers.Operator.ReconcileRRSetDelete` | internal/controller/rrset_controller.go:151-162 | so is the deletion branch |
| `Reconcilers.Operator.DeleteFromPowerDNS` | internal/controller/rrset_controller.go:164-206 | the branches of the deletion, each with its excuse, and what is left of the pass after them |
| `Reconcilers.Operator.FindConflict` | internal/controller/rrset_controller.go:212-232 | the scan finds a conflict exactly when another live RRSet has the same zone index entry, name and type |
| `Reconcilers.Operator.Gate` | internal/controller/rrset_controller.go:66-121 | open exactly if the Zone exists, is live, not Secondary, Ready and covers the name, its server exists, admits the namespace, is Ready and can be reached, and there is no rival; the reason given otherwise is that of the first gate that is shut, in the order of the code |
| `Reconcilers.Operator.Apply` | internal/controller/rrset_controller.go:115-143 | compare and PATCH is the machine's pass from its read on |
| `Reconcilers.Operator.AlreadyServed` | internal/controller/rrset_controller.go:266-287 | the comparison on the zone object, in whatever order it lists, is true exactly if TTL and contents are served |
| `Reconcilers.Operator.ReconcileZoneResource` | internal/controller/zone_controller.go:53-98 | one reconcile of a Zone is a pass of the step machine, and what it reports Ready is so in PowerDNS |
| `Reconcilers.Operator.ReconcileZone` | internal/controller/zone_controller.go:100-159 | reported Ready, PowerDNS holds the zone with the declared kind, or Native, and the declared masters, signed exactly if wanted, with the DS records reported; and it is the step machine's pass from its first call on |
| `Reconcilers.Operator.FetchZone` | internal/controller/zone_controller.go:101-112 | on success the zone is there with the kind and masters returned, found, created or adopted; one that was there before is left alone, as are all others |
| `Reconcilers.Operator.CreateZone` | internal/controller/zone_controller.go:164-224 | success leaves the declared kind and masters and the declared SOA at the apex of a zone that was not there before; a failed seed with an acknowledged delete leaves no zone |
| `Reconcilers.Operator.EnsureDNSSEC` | internal/controller/zone_controller.go:230-276 | on success some key is active exactly if DNSSEC is enabled, the first where none was, and the DS records returned are those of the active keys; in any case no key is gone, one is new only where there was none, and nothing else has changed |
| `Reconcilers.Operator.DeactivateKeys` | internal/controller/zone_controller.go:236-247 | one call per active key, in order, up to the first error |
| `Reconcilers.Operator.CollectDs` | internal/controller/zone_controller.go:269-275 | the DS records of the active keys, in order |
| `Reconcilers.Operator.AnyActive` | internal/controller/zone_controller.go:249 | true exactly if some key is active |
| `Reconcilers.Operator.ReconcileZoneDelete` | internal/controller/zone_controller.go:283-310 | released only under policy Orphan, without a server, or with the zone gone from PowerDNS, the first two always and without touching it; otherwise the Zone stays |
| `Reconcilers.Operator.Refuse` | internal/controller/zone_controller.go:69-97 | nothing stands in the way exactly if the Zone is no signed Secondary and its server exists, admits the namespace, is Ready and can be reached; the reason given otherwise is true |
| `Records.ContentsMatch` | internal/controller/rrset_controller.go:271-283 | the counting loop with the length test is multiset equality |
| `Records.RRSetMatches` | internal/controller/rrset_controller.go:266-287 | true exactly if the first record set of that name and type has the same TTL and the same multiset of contents |
| `Records.ListingOrderIsIrrelevant` | internal/controller/rrset_controller.go:266-287 | the order in which PowerDNS lists a zone does not matter to the comparison |
| `Records.DesiredIsDeclared` | internal/controller/rrset_controller.go:245-287 | the comparison is true exactly if the record set has the declared TTL, or 3600, and the multiset of the declared records |
| `Records.WrittenAsDeclared` | internal/controller/rrset_controller.go:245-258 | what a REPLACE carries is the declared records in order, all enabled, under the declared TTL or 3600 |
| `Names.NameInZoneIsLabelSuffix` | internal/controller/rrset_controller.go:297-299 | on qualified names, the string test holds exactly if the zone's labels end the name's labels (section 3.1 of RFC 1034) |
| `Names.NameInZoneIsPartialOrder` | internal/controller/rrset_controller.go:297-299 | reflexive, transitive and antisymmetric |
| `Names.PatternsAreQualified` | config/crd/dns.aetherplatform.cloud_rrsets.yaml:62 | names of the CRD's form are qualified, so the two lemmas above apply to them |
| `Names.JoinLabels` | internal/controller/rrset_controller.go:297-299 | splitting a qualified name into labels loses nothing |
| `Refs.IndexMatchesResolution` | internal/controller/pdnsaccess.go:52-58 | for slash-free targets the index string matches exactly if the reference resolves to the target |
| `Refs.RefsByParts` | internal/controller/pdnsaccess.go:52-58 | an empty namespace means the referrer's, any other is kept, and the index string is of the same object |
| `Refs.PlacesByParts` | internal/controller/zone_controller.go:342-351 | an RRSet belongs to the Zone it refers to, a Zone to the zone it names on the server it refers to, a record set to the name and type declared |
| `Refs.SlashesCollide` | internal/controller/pdnsaccess.go:52-58 | with slashes two different references share an index string |
| `Refs.RRSetsForZone` | internal/controller/rrset_controller.go:310-323 | the fan-out from a Zone is exactly the RRSets that resolve to it, each once |
| `Refs.ZonesForServer` | internal/controller/zone_controller.go:363-376 | the fan-out from a server is exactly the Zones that resolve to it, each once |
| `Refs.ScanAllowed` | internal/controller/pdnsaccess.go:37-47 | the loop over the allow-list decides own namespace, wildcard or listed |
| `ServiceMerge.MergeLosesNothing` | internal/controller/converge.go:43-71 | a merge keeps every undeclared annotation and foreign field of what it replaces and the NodePort of the port each declared one is paired with, and invents nothing |
| `ServiceMerge.MergeDelivers` | internal/controller/converge.go:43-71 | a merge has the declared type, selector, load balancer IP and traffic policy, every declared annotation, and each declared port with its name, number, protocol and target; its NodePort is the declared one, or if open that of the first live port it is paired with, on types that keep them, or 0 |
| `ServiceMerge.PairingByParts` | internal/controller/converge.go:83-88 | ports pair by name if either has one, else by number and protocol |
| `ServiceMerge.PortsMatchIsEquivalence` | internal/controller/converge.go:83-88 | pairing ports is an equivalence |
| `ServiceMerge.IdempotentExactlyWhen` | internal/controller/converge.go:45-76 | merging twice is merging once, from every live Service, exactly if the type keeps no NodePorts or no open declared port has a fixed first match |
| `ServiceMerge.ClashingPortsWriteTwice` | internal/controller/converge.go:45-76 | a declaration whose second convergence still writes |
| `ServiceMerge.FillKeepsConvergedExactlyWhen` | internal/controller/converge.go:48-61 | NodePorts assigned later never unsettle a converged Service exactly if every open declared port is the first it matches or that first is fixed |
| `ServiceMerge.ConvergedStaysQuiet` | internal/controller/converge.go:73-76 | with fill-safe ports, no run of NodePort assignments, foreign writes and convergence passes makes convergence write a converged Service again |
| `ServiceMerge.AtMostOneWrite` | internal/controller/converge.go:32-79 | from any Service at all, with every open declared port the first it matches, such a run has at most one write |
| `ServiceMerge.OpenPortsFirstExactlyWhen` | internal/controller/converge.go:45-61 | that condition is exactly the two above together, and uniquely matching ports meet it |
| `Convergence.UpdateService` | internal/controller/converge.go:32-79 | whatever other clients write in between and however calls fail: at most one write takes effect, it is the merge of the very version it replaced and loses nothing foreign; on success everything declared has arrived, in the live Service if nothing was written, else in the write; a converged Service is not written; conflict is reported only after five attempts, and with every call answered and the Service not deleted it succeeds if in any of the five nobody writes between read and write |
| `Convergence.TryService` | internal/controller/converge.go:33-78 | the same of one attempt |
| `Convergence.MergeInto` | internal/controller/converge.go:43-71 | the updated object is the merge: everything declared has arrived and nothing foreign is lost |
| `Convergence.CarryNodePorts` | internal/controller/converge.go:46-61 | the nested loops carry the NodePort of the first matching live port to each open declared one |
| `Convergence.WriteConverges` | internal/controller/converge.go:32-79 | a faithful write of an idempotent declaration is converged |
| `ApiObject.ApiServer.Update` | internal/controller/converge.go:77 | an update takes effect only on exactly the version it names |
| `PhaseMachine.ServerReconciler.Reconcile` | internal/controller/powerdnsserver_controller.go:60-99 | one pass, whatever it finds: the persisted phase stays or advances by one, published outputs are kept, each phase implies the outputs before it, a pass that moves on publishes the API key Secret, API endpoint or DNS endpoint its phase is for, a Ready one keeps DNS endpoint and replicas up to date, failure only on an invalid spec or a gateway without parents, and a healthy pass advances; without finalizer, under deletion or unread it leaves the status alone |
| `PhaseMachine.ServerReconciler.Live` | internal/controller/powerdnsserver_controller.go:60-99 | so for every persisted status of any run with arbitrary spec edits |
| `PhaseMachine.ServerReconciler.AcceptSpec` | internal/controller/powerdnsserver_controller.go:125-136 | exactly when the first phase fails and when it advances, and the API key Secret it publishes |
| `PhaseMachine.ServerReconciler.EnsureAPIKey` | internal/controller/powerdnsserver_controller.go:772-808 | the Secret named by the user, found or created |
| `PhaseMachine.ServerReconciler.ProvisionBackend` | internal/controller/powerdnsserver_controller.go:203-250 | advances exactly when the backend is up and the status is written |
| `PhaseMachine.ServerReconciler.InitializeSchema` | internal/controller/powerdnsserver_controller.go:252-297 | advances exactly when the schema Job succeeded and the status is written |
| `PhaseMachine.ServerReconciler.DeployServer` | internal/controller/powerdnsserver_controller.go:320-337 | advances exactly when a replica is available and the status is written, publishing the API endpoint and the configuration hash |
| `PhaseMachine.EndpointReadsBack` | internal/controller/powerdnsserver_controller.go:320-337 | cut at colons and dots, the API endpoint reads back as plain HTTP, the API Service of the server in its namespace, and the declared port or 8081 |
| `PhaseMachine.ServerReconciler.ExposeDNS` | internal/controller/powerdnsserver_controller.go:581-638 | exactly when it becomes Ready, and with which DNS endpoint: the IP, or else the host name, of the first ingress that has either, the cluster IP, or the gateway's parents read back at the commas with the server's namespace where they have none; and exactly when it fails |
| `PhaseMachine.ServerReconciler.KeepReady` | internal/controller/powerdnsserver_controller.go:640-662 | Ready is never left; where its reads and writes succeed the DNS endpoint is re-derived by the same rules, empty without an address, ready tells whether all replicas are available, and both replica counts are the Deployment's |
| `PhaseMachine.ServerReconciler.RefreshDNSEndpoint` | internal/controller/powerdnsserver_controller.go:980-1031 | the endpoint is the one found by those rules, nothing else of the status changes, and it is written whenever it changed |
| `PhaseMachine.ServerReconciler.RefreshReplicaStatus` | internal/controller/powerdnsserver_controller.go:712-757 | what is mirrored from the Deployment, written only on change, and then shown |
| `PhaseMachine.ValidateSpec` | internal/controller/powerdnsserver_controller.go:141-199 | passes exactly the specs the rules allow |
| `PhaseMachine.SuffixesFit` | internal/controller/powerdnsserver_controller.go:181-194 | the loop with its seen set accepts exactly non-empty, pairwise distinct suffixes |
| `PhaseMachine.ScanIngress` | internal/controller/powerdnsserver_controller.go:604-614 | the first address by IP or host name |
| `PhaseMachine.PhasesOnlyAdvance` | internal/controller/powerdnsserver_controller.go:79-98 | over runs phases never go back, Ready is never left, Failed is final |
| `PhaseMachine.NoPhaseIsSkipped` | internal/controller/powerdnsserver_controller.go:79-98 | every phase below the present one was persisted before |
| `PhaseMachine.OutputsAreFinal` | internal/controller/powerdnsserver_controller.go:203-337 | over runs with arbitrary edits, each published output stays for good once its phase is past |
| `PhaseMachine.ReadyPassesTheGuard` | internal/controller/pdnsaccess.go:18-21 | a server seen Ready passes the publication guard, and status.ready implies phase Ready |
| `ExtraSettings.BlockRoundTrip` | internal/manifests/manifests.go:211-226 | reading the rendered block line by line at the first `=` yields exactly the accepted entries |
| `ExtraSettings.ReadUndoesRender` | internal/manifests/manifests.go:211-226 | the same for any well-formed lines, later settings winning |
| `ExtraSettings.RenderedOrRefused` | internal/manifests/manifests.go:189-200 | an entry is rendered, with its value, exactly if it has no violation |
| `ExtraSettings.SameTextExactlyWhen` | internal/manifests/manifests.go:211-226 | two maps render the same text exactly if their accepted entries agree |
| `ExtraSettings.RejectedEntryIsInvisible` | internal/manifests/manifests.go:202-226 | adding a rejected entry leaves the text as it was |
| `ExtraSettings.ManagedKeysAreProtected` | internal/manifests/manifests.go:118-161 | in the whole file a managed key is looked up as if nothing had been supplied, an accepted one as supplied |
| `ExtraSettings.OperatorKeysAreProtected` | internal/manifests/manifests.go:118-161 | so for the operator's own reserved names and the `gpgsql-` family |
| `ExtraSettings.OperatorRefuses` | internal/manifests/manifests.go:140-200 | the names refused are these ten and everything that begins with `gpgsql-`, and no other well-made key with a one-line value |
| `ExtraSettings.KeyPatternByChars` | internal/manifests/manifests.go:163-173 | a key is well made exactly if it is of lower-case letters, digits and dashes and does not begin with a dash |
| `ExtraSettings.ManagedContract` | internal/manifests/manifests.go:118-138 | whatever the user supplies, the rendered file read back launches the database backend, listens on port 53, and serves the API on the declared port, or 8081, to everyone |
| `ExtraSettings.MessagesAreViolations` | internal/manifests/manifests.go:175-200 | the messages are exactly the violations of the entries |
| `ExtraSettings.ValidateExtraSettings` | internal/manifests/manifests.go:175-186 | one message per rejected entry in key order, none exactly if all entries are accepted |
| `ExtraSettings.RenderExtraSettings` | internal/manifests/manifests.go:211-226 | the loop, with its header on the first accepted entry only, writes the block, which reads back as the accepted entries |
| `Sorting.KeysInOrder` | internal/manifests/manifests.go:228-235 | whatever order the map is iterated in, the keys come out in the one sorted order |
| `Sorting.SortedIsUnique` | internal/manifests/manifests.go:228-235 | sorted permutations of each other are equal |
| `Sorting.SortForgetsOrder` | internal/manifests/manifests.go:228-235 | permutations sort to the same sequence |
| `Sorting.LeIsLexicographic` | internal/manifests/manifests.go:228-235 | the order is lexicographic: a beginning comes first, else the smaller character where two texts first differ |
| `ConfigHash.ConfigPreimage` | internal/manifests/manifests.go:84-103 | the bytes written are a function of the configuration and the maps, no iteration order enters |
| `ConfigHash.StreamReadsBack` | internal/manifests/manifests.go:84-103 | split at its NULs, what is written for secrets without NULs is their keys and values by turns |
| `ConfigHash.PreimageDetermines` | internal/manifests/manifests.go:84-103 | without NULs and with equal key sets per secret, preimages agree exactly if configuration and secrets do |
| `ConfigHash.PreimageDeterminesPairs` | internal/manifests/manifests.go:84-103 | behind configurations that end their last line, preimages agree exactly if the configuration and the whole list of keys and values do, whichever keys there are |
| `ConfigHash.PreimageDeterminesBySize` | internal/manifests/manifests.go:84-103 | with equally many entries in each Secret besides, exactly if configuration and secrets do |
| `ConfigHash.SecretsRunTogether` | internal/manifests/manifests.go:84-103 | otherwise not: keys in order give the same preimage in one Secret or in two, behind any configuration |
| `ConfigHash.PreimageIsAmbiguous` | internal/manifests/manifests.go:84-103 | and without the final newline the front of the first key may be taken for the end of the configuration |
| `DnsDist.RenderDNSDist` | internal/controller/dnsdist_controller.go:156-231 | validate, resolve, render: what comes out has one backend line per reference in strictly increasing order of names, and read back each has the usable cluster IP of its DNS Service on port 53 as address, and its name; caching, rate limit and TLS listeners are as declared; and it comes out whenever validation passes and all backends are up |
| `DnsDist.ConfIsComplete` | internal/manifests/dnsdist.go:73-90 | the backend lines found in the text, read back at their quotes, are those, and no others |
| `DnsDist.BackendReadsBack` | internal/manifests/dnsdist.go:86-90 | the first quoted text of a backend line is the address with port 53, the second the name |
| `DnsDist.FeaturesReadBack` | internal/manifests/dnsdist.go:92-114 | read back, the text has a packet cache of the declared size, or 100000, unless switched off, the declared query rate if any, and a DoT and a DoH listener with their certificate and key exactly if enabled |
| `DnsDist.OrderOfRefsIsIrrelevant` | internal/manifests/dnsdist.go:81-90 | any permutation of the references renders the same text |
| `DnsDist.DNSDistConfig` | internal/manifests/dnsdist.go:73-114 | the text written is the configuration |
| `DnsDist.ValidateDNSDist` | internal/controller/dnsdist_controller.go:156-189 | passes exactly the specs the rules allow |
| `DnsDist.CheckRefs` | internal/controller/dnsdist_controller.go:157-169 | the loop with its seen set finds the first unnamed, foreign or repeated reference, if any |
| `DnsDist.BackendsReady` | internal/controller/dnsdist_controller.go:197-231 | resolved exactly the referenced names, each with the usable cluster IP of its DNS Service, else the first obstacle |

## Left out

- HTTP, JSON, URL escaping and timeouts of the PowerDNS client: only its result classes remain.
- Informer caches: cluster reads are current. A stale list could hide a rival or a deletion mark for a while.
- Resource version conflicts on Zones, RRSets and PowerDNSServers: a conflicting write is one that fails.
- A "not found" answer to a write while the zone exists: such answers are taken to be true.
- Writes that take effect after a later call, and PowerDNS canonicalising kinds or contents.
- Users taking finalizers off by hand.
- Events, conditions and their timestamps, failure messages, requeue intervals.
- The disabled flag of records: `rrsetMatches` does not compare it, so nothing is claimed of it.
- Rectification: it runs only in the pass that activates a key, so nothing is claimed of it.
- SHA-256 and its truncation: only the bytes hashed are modelled.
- `updateConfigMap` and `deleteIfExists`: they would add only easy members beside `updateService`.
- API server defaulting on creation, other than NodePorts, which are assigned in later steps.
- Deployment, Job, NetworkPolicy, PodMonitor, route and CNPG manifests, and their drift.
- The longer comments in the managed part of pdns.conf; they are comment lines without effect on reading.
- Protection of `loglevel`: it is managed but not reserved, and an entry for it is accepted.
- The rest of the DNSDist reconciler: status, additional Services, routes.
- Conflicts.ContestedRecordIsFrozen: asks that no pass is on its way to the record when the conflict begins, because it is false otherwise (`LateRival.ContestedRecordMayChange`); `Conflicts.ContestedChangeIsOld` is the exact form.
- Conflicts.NoDeleteUnderSurvivor: excepts a DELETE due at the start, because one is sent (`LateRival.ClaimedRecordMayBeDeleted`).
- KeyHistory.SameDsEveryTime: asks that the zone is not dropped or made directly since each pass opened, because it is false otherwise (`DroppedZone.StaleReportDiffers`).
- ReadyRuns.ReadyStatusIsTruthful: asks for distinct Zones and that the zone's kind, masters, keys and existence are not written directly while the pass is under way; what is true then may be changed by anyone afterwards.
- Seeding.SeedsAtMostOnce: asks for Zones distinct in server and zone name, because it is false without (`SharedZone.TwoZonesSeedTwice`).
- KeyHistory.NeverASecondKey: asks for Zones distinct in server and zone name, because it is false without (`SharedZone.TwoZonesMintTwice`).
- Settling.EveryWorkableSystemSettles: asks for Zones distinct in server and zone name, and that servers admit the Zones naming them: a Zone shut out keeps RRSets from a namespace that is admitted waiting.
- Drains.RecordGoesWithItsClaimants: asks for finalizers and policy Delete on all claimants and for a live one, because it is false otherwise (`LeftBehind.FreshSurvivorLeavesRecord`, `LeftBehind.PendingReleaseLeavesRecord`), and for the Zone to have stood for its place, because of `StrayRecord.MovedZoneLeavesRecord`.
- DnsDist.ConfIsComplete: asks for names and addresses without line breaks and quotes, as Kubernetes names and cluster IPs are.
- DnsDist.FeaturesReadBack: asks the same, and says nothing of the fixed opening lines, the window and the message of the rate limit.
- PhaseMachine.EndpointReadsBack: asks for names without dots and colons, as names of Services are.
- ServiceMerge.MergeDelivers: a declared annotation that is taken out of the declaration stays on the live Service, as in the code.
