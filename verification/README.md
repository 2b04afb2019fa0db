# Verified model of the network reconciler

`network-reconciler` runs on every node of a Proxmox cluster. It maps the external
addresses of the VMs that run on its node to their internal ones with nftables, and puts
each external address on the loopback interface so that FRR announces it. It learns where
VMs are from cluster events, learns the mappings from NetBox, and keeps a backup of each
VM's mappings so that a NetBox outage does not take VMs off the network. This project
models that behaviour in Dafny and proves what it promises.

`dafny verify dfyconfig.toml` checks everything.

## How the model is built

A node is a value (`Nodes.Node`): VM records, backup store, mapping cache, the record of
past applies, the kernel's ruleset and loopback addresses, and the fetch gate. What can
happen to it is a relation (`Nodes.Step`) between two node values, an act, and the kernel
operations the act performs in their order. Which operations fail, what a failed write or
a failed `nft -f` leaves behind, which backups cannot be read, and the order in which Go
walks its maps are all arbitrary. A run is any sequence of steps, and the main results are
about every run.

The stateful parts of the source are classes here: `BackupStores.BackupStore`,
`Placement.PlacementStore`, `Reconcilers.Reconciler` and the host they act on
(`Kernels.Host`, which logs every operation). Their methods have the source's loops and
branches, and each is proved to move the object's abstract value along the relation: an
apply is an apply step, a reconcile or a cluster event is a path of steps with exactly the
acts the event calls for, and the host's log grows by exactly the operations of those
steps. What holds of every run therefore holds of the methods.

| file | content |
|---|---|
| `Options.dfy`, `Text.dfy`, `Net.dfy` | optional values, text and decimal rendering, mappings, sorting, the ruleset key |
| `Backup.dfy`, `BackupStore.dfy` | the write-behind backup store as a value, its refinement of a plain map, and the store as an object |
| `Flusher.dfy` | the backup store at the level of locks, channel operations and single file accesses: enqueue, load, the directory scan, the flusher and close |
| `Placement.dfy` | VM records: lifecycle events against snapshots, staging, expiry |
| `MappingCache.dfy`, `DeltaEffects.dfy` | webhook deltas on the mapping cache, and what each kind of delta does to cache, records and backups |
| `Kernel.dfy`, `Apply.dfy`, `ApplyStep.dfy` | kernel operations, the announcing pass, which mappings an apply programs, and one whole apply |
| `Node.dfy`, `Events.dfy`, `EventOutcomes.dfy`, `Staging.dfy` | the node, its steps and invariants, the acts each cluster event causes, what becomes of the node by them, and what ends the staging of a VM |
| `Outcomes.dfy`, `Adoption.dfy` | what an apply gives each VM and leaves in its backup, the grace of an unlisted VM, and what becomes of addresses left by a previous process |
| `RunSafety.dfy`, `Retention.dfy`, `GateRuns.dfy`, `FetchGate.dfy` | results over all runs of one node |
| `Ownership.dfy`, `Serving.dfy`, `Migration.dfy` | when a node does not announce a VM's addresses, when it keeps announcing them, and all interleavings of the two nodes of a migration |
| `Feasibility.dfy` | every step has an outcome, and a migration meets all assumptions made about it |
| `NetboxFetch.dfy`, `NetboxResults.dfy` | the batched NetBox fetch against one lookup per address, and which mappings it returns |
| `Resolving.dfy`, `Reconciler.dfy` | the reconciler as an object |

## Where the code does less than one would expect

* A backup file that is empty cannot be deleted while its content is cached: nil and empty
  bytes compare equal, so the tombstone is dropped as redundant
  (`Backup.EmptyFileSurvivesDelete`). This and a directory scan that loses sight of
  unreadable files are the only operations that do not refine the plain map
  (`Backup.StepRefines` is an equivalence).
* A save is dropped as redundant, and its value never reaches the disk, exactly when it
  repeats a cached copy of a value that is not what the file holds or will hold
  (`Flusher.SaveDecides`). There are two ways to that (`Flusher.StaleTwoWays`): a batch in
  flight is replacing the cached value (`Flusher.StaleSaveIsLost` is a run), or a load or
  the directory scan has installed a copy it had read before a write of that file
  (`Flusher.RacedSaveIsLost` is a run with nothing in flight).
* A load is answered wrongly while the flusher has taken a newer value and not yet recorded
  the outcome of writing it (`Flusher.AnswersTargetIff`, `Flusher.BehindUntilRecorded`). So
  for that long the old mappings of a VM just deleted are answered, even once its file is
  gone (`Flusher.DeletedIsAnswered` is a run), and on a scanned store nothing at all while
  a save whose first write failed is tried again (`Flusher.RetryIsAnsweredAbsent` is a
  run). For a value at rest the answer is wrong exactly if the cached copy misleads or a
  scan has lost the file.
* The one grace apply of an unlisted VM is one only while the backup store is open
  (`Retention.GraceNeedsOpenStore`). That takes a flush to be over before the next load: a
  fetch that is believed while the removal is in flight finds the old backup and grants
  a second one.
* A deletion by webhook sticks exactly if nft succeeded in that apply and the backup store
  was open or had no backup left (`Retention.DeletionNeedsSuccess`). That takes a flush to
  be over before the next load: a fetch that fails while the removal is in flight finds
  the old backup and programs the VM again. In the same way a fetch that fails while a
  newer save is in flight programs the older mappings, against `Retention.ServiceIsKept`.
* The deletion of a VM by webhook without its VMID leaves the VM's backup where it is,
  unless the VM is active here: by the time the backup is to be deleted the cache has
  forgotten the name (`DeltaEffects.DeletedVMLosesBackup` is an equivalence).
* A record that a snapshot has touched gives way to any lifecycle event, however old;
  the exception for skewed clocks has no bound (`EventOutcomes.StopHandled` and its kin,
  `EventOutcomes.GivesWay`). And a migrate.started too old to be taken still moves the
  staging time of a VM that is staged (`EventOutcomes.StartedHandled`).
* A name can be both waiting and resolved, exactly when an address delta brings its VMID
  together with a name surrounded by white space (`MappingCache.UpdateUnresolved`).
* Lifecycle events converge only if they carry a time: the zero time always wins
  (`Placement.TwoLivesCommute`).
* The comment on staged VMs says only migrate.synced, migrate.failed or the expiry sweep
  may leave staging. In the code a staged VM also becomes active by a running snapshot that
  is not older than its record and by a webhook delta for the VM that carries its VMID,
  and becomes absent by a local stop, shutdown or destroy and by the webhook delta of its
  deletion. `Staging.LeavesStagedIff` lists all the steps that do it, and
  `Staging.EventsThatUnstage` all the cluster events, times included. The webhook delta
  makes the target announce the VM before migrate.synced.
* A numeric `proxmox_vmid` between zero and one is accepted and becomes VMID 0
  (`NetboxFetch.VmidPositive`).
* A target that hears of the VM starting before it hears of the migration takes the VM on
  at once (`Migration.LocalStartActivates`).

## Model

| member | source | states |
|---|---|---|
| Backup.EncodeRoundTrip | internal/reconciler/backup.go:215-263 | decoding an encoded non-empty list gives the list back, for one mapping (object) and for several (array), and equal encodings mean equal lists |
| Backup.DecodeIs | internal/reconciler/backup.go:215-227 | reading a file fails exactly on empty and malformed content, and otherwise gives the mappings the content lists |
| Backup.StepRefines | internal/reconciler/backup.go:101-188 | save, delete, load, warm, flush and close do to the store what they do to a plain map, if and only if the call is not a delete over an empty file or a scan that loses a file |
| Backup.RunRefines | internal/reconciler/backup.go:232-296 | over any history, with any failing writes and reads, the store stands for the plain map that began as the directory |
| Backup.LoadAnswers | internal/reconciler/backup.go:147-188 | load gives the decoded value of the plain map, absent if it has none, an error only for a disk read that fails |
| Backup.WarmSees | internal/reconciler/backup.go:101-144 | after a scan a load gives what is queued, else what the file holds if its VMID is positive and it could be read or was known, else nothing |
| Backup.LostIs | internal/reconciler/backup.go:114-143 | the files a scan loses: only on disk, and unreadable or under a VMID that is not positive |
| Backup.FlushDrains | internal/reconciler/backup.go:345-385 | flush succeeds exactly if nothing stays queued, then the directory equals the map; either way the map is unchanged |
| Backup.UnchangedSaveIsFree | internal/reconciler/backup.go:229-283 | saving what is already held queues nothing |
| Backup.EmptyFileSurvivesDelete | internal/reconciler/backup.go:276-283 | concrete store in which a delete has no effect |
| BackupStores.BackupStore.Warm | internal/reconciler/backup.go:101-144 | the scan, its read failures and queued writes that must not be clobbered |
| BackupStores.BackupStore.Load | internal/reconciler/backup.go:147-188 | result and new state of one load |
| BackupStores.BackupStore.Enqueue | internal/reconciler/backup.go:265-284 | queues unless closed or redundant |
| BackupStores.BackupStore.Save | internal/reconciler/backup.go:232-244 | an empty list is a delete |
| BackupStores.BackupStore.Delete | internal/reconciler/backup.go:247-249 | queues a tombstone |
| BackupStores.BackupStore.All | internal/reconciler/backup.go:192-213 | exactly the mappings of the known VMIDs, and no state changes |
| BackupStores.KnownAfterScan | internal/reconciler/backup.go:192-213 | after a scan of a fresh store the known mappings are exactly those in readable files of positive VMIDs |
| BackupStores.BackupStore.Flush | internal/reconciler/backup.go:345-385 | the entry-by-entry loop does what the whole-batch description says, success included |
| BackupStores.BackupStore.FlushOne | internal/reconciler/backup.go:356-377 | a failed write forgets the cached copy and requeues unless superseded |
| BackupStores.BackupStore.Close | internal/reconciler/backup.go:429-471 | refuses later writes, flushes, and reports success exactly if nothing is left |
| Flusher.NoLostWakeup | internal/reconciler/backup.go:284-342 | in every interleaving, queued work on a store that is not stopped has a token, a flusher on its way to a batch, or a caller about to signal |
| Flusher.QuietMeansWritten | internal/reconciler/backup.go:298-342 | when all is quiet every accepted write is on disk |
| Flusher.OneOfEach | internal/reconciler/backup.go:284-300 | one flusher, each channel closed at most once, nothing queued before a flusher is due |
| Flusher.NothingAcceptedAfterClose | internal/reconciler/backup.go:265-275 | a closed store accepts nothing, ever |
| Flusher.SettledStays | internal/reconciler/backup.go:429-452 | a shut store whose flusher has finished stays so |
| Flusher.CleanCloseMeansWritten | internal/reconciler/backup.go:429-471 | a close that returns no error means every accepted write is on disk, for good |
| Flusher.ReportsIfDrained | internal/reconciler/backup.go:443-471 | a close that has waited for the flusher, or found none, returns no error if and only if nothing is queued |
| Flusher.StaysStopped | internal/reconciler/backup.go:320-342 | once stopped the flusher makes its last flush and ends, whether or not that succeeds |
| Flusher.ScanIsForGood | internal/reconciler/backup.go:131-143 | a scan spares the copies of queued VMs, and after it no load goes to disk |
| Flusher.OnlyEnqueueRetargets | internal/reconciler/backup.go:364-377 | no flush, failure or requeue replaces a newer queued value or changes what a VM's file will hold |
| Flusher.SaveDecides | internal/reconciler/backup.go:276-284 | a save decides its file's content if and only if it does not repeat a cached value other than the one the file is heading to; otherwise it changes nothing |
| Flusher.StaleTwoWays | internal/reconciler/backup.go:280-283 | such a cached value is one a batch in flight replaces, or one that misleads about a file at rest |
| Flusher.OnlyRacesMislead | internal/reconciler/backup.go:146-188 | a cached copy begins to mislead only when a load or the scan installs a read that a write has overtaken |
| Flusher.OnlyWritesOvertake | internal/reconciler/backup.go:170-187 | a read is overtaken only by a write of its own file |
| Flusher.MisledMeansRaced | internal/reconciler/backup.go:101-188 | in every run, a misleading copy was preceded by an overtaken read of its file |
| Flusher.AnswersTargetIff | internal/reconciler/backup.go:147-169 | a load is answered with what the file holds or will hold if and only if that is still queued, or is in flight and not behind, or is at rest and neither misleads nor was lost by a scan |
| Flusher.WrongAnswers | internal/reconciler/backup.go:147-188 | in every run a load is answered with something else than what was accepted last in exactly these cases, and a misleading copy at rest was raced |
| Flusher.BehindUntilRecorded | internal/reconciler/backup.go:351-377 | while a batch is in flight the old cached value goes on being answered, past the write of the file, until its outcome is recorded or a read is installed |
| Flusher.OnlyScansLose | internal/reconciler/backup.go:114-143 | a file at rest is lost only by a scan that did not read it |
| Flusher.DeletedIsAnswered | internal/reconciler/backup.go:149-163 | a run on an open store with no other load and no scan in which a deleted VM's old mappings are answered, before and after its file is removed |
| Flusher.RetryIsAnsweredAbsent | internal/reconciler/backup.go:364-377 | a run on a scanned store in which a load is answered with nothing while a failed save is tried again |
| Flusher.StaleSaveIsLost | internal/reconciler/backup.go:351-377 | a run that loses a save while a batch is in flight |
| Flusher.RacedSaveIsLost | internal/reconciler/backup.go:171-187 | a run that loses a save with nothing in flight, after a load was overtaken |
| Flusher.RunInv | internal/reconciler/backup.go:101-385 | every reachable state, loads and scans included, keeps the birth, close, wake-up and ledger invariants |
| Placement.SnapshotsConverge | internal/state/store.go:88-117 | the same snapshots at distinct times give the same status in every order of arrival |
| Placement.LatestSnapWins | internal/state/store.go:88-117 | namely the status of the snapshot observed last |
| Placement.LifecyclesConverge | internal/state/store.go:182-209 | the same for lifecycle events with distinct, non-zero times |
| Placement.LatestLifeWins | internal/state/store.go:182-209 | namely the status of the latest event |
| Placement.TwoLivesCommute | internal/state/store.go:185-191 | two events commute if and only if both carry a time, agree, or the untimed one is later anyway |
| Placement.HeardLeavesStaged | internal/state/store.go:97-116 | of snapshots and local starts, exactly a running snapshot no older than the record makes a staged VM leave staging |
| Staging.LeavesStagedIff | internal/state/store.go:97-109 | over all steps of a node: a staged VM leaves staging exactly by an accepted placement elsewhere, a running snapshot no older than the record, expiry, or an accepted VM delta that names it; and which of these make it active |
| Staging.EventsThatUnstage | internal/reconciler/reconciler.go:544-648 | handling an event moves a staged VM out of staging if and only if it is the VM's own migrate.synced or migrate.failed, its stop here or a snapshot of it running here, and no older than the record allows; and makes it active if and only if it says that the VM runs here |
| EventOutcomes.StopHandled | internal/reconciler/reconciler.go:623-632 | a stop, shutdown or destroy here makes a VM of any record absent and queues a reconcile |
| EventOutcomes.StartHandled | internal/reconciler/reconciler.go:611-621 | a start here makes it active and queues a reconcile, unless it is staged |
| EventOutcomes.StartedHandled | internal/reconciler/reconciler.go:547-560 | migrate.started stages it on the target and cuts over |
| EventOutcomes.SyncedHandled | internal/reconciler/reconciler.go:563-597 | migrate.synced makes it active on the target, absent on the source, and cuts over; it concerns nobody else |
| EventOutcomes.FailedHandled | internal/reconciler/reconciler.go:600-609 | migrate.failed makes it absent on the target and cuts over |
| EventOutcomes.SnapshotHandled | internal/reconciler/reconciler.go:634-637 | a snapshot no older than the record makes a VM active or absent as it says, and a staged one that does not run waits |
| EventOutcomes.BatchEndHandled | internal/reconciler/reconciler.go:639-648 | in every run, the end of a batch queues a reconcile if and only if the last fetch is not fresh or saw other VMs |
| EventOutcomes.HeldIs | internal/reconciler/reconciler.go:433-447 | active and staged VMs count |
| EventOutcomes.OthersIgnored | internal/reconciler/reconciler.go:543-649 | no other event changes anything |
| EventOutcomes.FetchHandled | internal/reconciler/reconciler.go:672-697 | a fetch is remembered with its time and VMs, replaces the cache, and programs every active VM it lists with exactly what it lists |
| EventOutcomes.FailureHandled | internal/reconciler/reconciler.go:662-671 | a failed fetch leaves cache and gate alone and programs every active VM with its backup, or else with what it had |
| EventOutcomes.QueueTaken | internal/reconciler/reconciler.go:476-484 | taking the signal clears it |
| EventOutcomes.PrimedFromBackups | internal/reconciler/reconciler.go:268-297 | a process that starts without NetBox begins with exactly the mappings in its readable backups |
| Placement.StagedStays | internal/reconciler/reconciler.go:611-618 | staging survives any mix of not-running snapshots, older running ones and local starts |
| Placement.PlacementStore.Set | internal/state/store.go:182-210 | the staleness rule and the new record |
| Placement.PlacementStore.SetActive | internal/state/store.go:63-67 | new records after the event |
| Placement.PlacementStore.SetStaged | internal/state/store.go:70-77 | new records, with the staging time |
| Placement.PlacementStore.SetAbsent | internal/state/store.go:80-84 | new records after the event |
| Placement.PlacementStore.UpdateFromSnapshot | internal/state/store.go:88-117 | new records after a snapshot |
| Placement.PlacementStore.ExpireStaged | internal/state/store.go:123-141 | clears and reports exactly the markers set by the cutoff |
| Placement.PlacementStore.Select | internal/state/store.go:144-169 | each VM of the status once |
| MappingCache.LateResolution | internal/reconciler/reconciler.go:1106-1206 | wherever in a stream of address deltas the VMID of a fresh name becomes known, the cache ends up the same |
| MappingCache.UpdateUnresolved | internal/reconciler/reconciler.go:1110-1205 | no name becomes both waiting and resolved, if and only if the delta is not an address delta with a stray name |
| MappingCache.UpdateFiled | internal/reconciler/reconciler.go:1106-1206 | entries under a VMID carry it, waiting entries carry none, after every delta |
| MappingCache.ListingOfVM | internal/reconciler/reconciler.go:1095-1104 | however the cache is walked, a VM gets back exactly its entries |
| MappingCache.ListingMembers | internal/reconciler/reconciler.go:1095-1104 | a listing holds exactly what is cached |
| MappingCache.RebuildFiled | internal/reconciler/reconciler.go:1082-1093 | a rebuilt cache files each mapping under its VMID, in order, with nothing waiting |
| MappingCache.RebuildNames | internal/reconciler/reconciler.go:1082-1093 | a rebuilt cache knows exactly the names in the list, each with the VMID it comes with last |
| MappingCache.EntriesHave | internal/reconciler/reconciler.go:1172-1186 | the entries of an address delta lead from exactly the outside addresses that parse to its internal address |
| DeltaEffects.DeletedVMIsForgotten | internal/reconciler/reconciler.go:1122-1142 | the deletion of a VM removes its mappings, all names leading to it and what waited under them, and nothing of others |
| DeltaEffects.NamedVMTakesOver | internal/reconciler/reconciler.go:1110-1118 | a VM that comes with its VMID takes over what waited under its name, otherwise unchanged, and nothing else changes |
| DeltaEffects.AddressesReplace | internal/reconciler/reconciler.go:1144-1205 | an address delta replaces the mappings of its VM by exactly those it brings, ties the name to the VMID, and leaves other VMs and names alone |
| DeltaEffects.AddressesWait | internal/reconciler/reconciler.go:1199-1201 | with no VMID known they wait under the name |
| DeltaEffects.AddressesGo | internal/reconciler/reconciler.go:1157-1165 | a delta that takes addresses away leaves the VM none, filed or waiting |
| DeltaEffects.AddressesStay | internal/reconciler/reconciler.go:1167-1170 | a delta whose internal address does not parse, or that is about nobody, changes nothing |
| DeltaEffects.DeltaPlaces | internal/reconciler/reconciler.go:716-738 | a VM delta with name and VMID makes the VM absent or active whatever it was; no other delta touches a record |
| DeltaEffects.DeletedVMLosesBackup | internal/reconciler/reconciler.go:1001-1019 | a deleted VM is not programmed any more, and its backup goes if and only if the delta has the VMID, the VM is active here or there was none |
| DeltaEffects.AddressesBackedUp | internal/reconciler/reconciler.go:1030-1080 | merging an address delta keeps exactly the backed-up mappings it does not speak about and adds those it brings; an unreadable backup stays |
| DeltaEffects.AddressesElsewhere | internal/reconciler/reconciler.go:1008-1028 | an address delta touches no other backup, and not that of a VM that is not active here |
| Net.SortMappings | internal/reconciler/reconciler.go:971-982 | sorts in place: ordered, and a permutation |
| Net.SortedMeans | internal/reconciler/reconciler.go:971-982 | the order is external address, then internal address, then VMID |
| Net.SortedIsRules | internal/reconciler/reconciler.go:878-881 | sorting any arrangement of the mappings yields one and the same ruleset |
| Net.RulesetKeyInjective | internal/reconciler/reconciler.go:986-995 | two rulesets have the same key if and only if they are equal |
| Net.KeyIsCanonical | internal/reconciler/reconciler.go:880-881 | keys of two sorted lists agree if and only if the lists have the same bag of address pairs |
| Net.KeyByPlace | internal/reconciler/reconciler.go:986-995 | two lists have the same key if and only if they agree place by place on external and internal address |
| Net.BuildRulesetKey | internal/reconciler/reconciler.go:986-995 | the loop computes the key |
| Kernels.PassConverges | internal/reconciler/reconciler.go:1227-1272 | announced addresses stay a subset of the loopback; a pass reaches its goal if and only if none of its operations fails |
| Kernels.PassInKernel | internal/reconciler/reconciler.go:1244-1266 | what a pass does to the loopback, in any order |
| Kernels.Host.NftApply | internal/nftables/manager.go:52-78 | success installs the rules; failure may leave any |
| Kernels.Host.Advertise | internal/frr/manager.go:34-46 | adds the address unless it fails |
| Kernels.Host.Withdraw | internal/frr/manager.go:51-63 | removes the address unless it fails |
| Apply.RulesetHas | internal/reconciler/reconciler.go:850-857 | the ruleset has a rule for exactly the addresses to be announced |
| Apply.RulesetTranslates | internal/nftables/manager.go:113-121 | a rule is in the ruleset if and only if some programmed mapping leads from its external to its internal address |
| Apply.RulesetCounts | internal/nftables/manager.go:113-121 | and it is there as many times as there are such mappings |
| ApplySteps.SkipRefines | internal/reconciler/reconciler.go:896-914 | an apply without error leaves the ruleset an unconditional nft run would, and keeps "a valid key is the key of what is installed" |
| ApplySteps.KernelAfter | internal/reconciler/reconciler.go:896-943 | ruleset and loopback after an apply, for either order of its halves and any failures |
| ApplySteps.AdvertiseAfterRule | internal/reconciler/reconciler.go:883-897 | at the moment an address goes up, its DNAT rule is installed |
| ApplySteps.WithdrawBeforeTeardown | internal/reconciler/reconciler.go:891-897 | when nothing is newly announced every withdrawal precedes the nft run |
| ApplySteps.NeverLeaves | internal/reconciler/reconciler.go:1223-1226 | an address that stays wanted, or is not this process's, is on the loopback at every moment of the apply |
| ApplySteps.ExactScoping | internal/reconciler/reconciler.go:765-772 | after an apply without errors exactly the programmed addresses are announced |
| ApplySteps.QuietApply | internal/reconciler/reconciler.go:896-904 | an apply of unchanged rules runs no nft, and does nothing at all if all is announced |
| ApplySteps.SuccessMakesUnchanged | internal/reconciler/reconciler.go:911-913 | after success the same mappings count as unchanged |
| Nodes.RunInv | internal/reconciler/reconciler.go:754-967 | in every run: valid key means installed rules, announced is on the loopback, the cache is filed, cached backups are true |
| RunSafety.EverySuccessInstalls | internal/reconciler/reconciler.go:896-914 | in every run from boot, every apply without error leaves the ruleset of what it programs |
| RunSafety.EveryRuleTranslates | internal/nftables/manager.go:113-121 | in every run, after an apply without error the kernel translates exactly what the programmed mappings translate, to the same internal addresses and as often |
| RunSafety.NftRunsIf | internal/reconciler/reconciler.go:896-914 | nft runs at most once, and is skipped if and only if the last run succeeded and the kernel has the rules already; the apply errs if and only if it ran and failed |
| RunSafety.EveryAdvertiseHasItsRule | internal/reconciler/reconciler.go:883-943 | in every run, whenever an address goes up its rule is there |
| RunSafety.EverySuccessScopes | internal/reconciler/reconciler.go:758-858 | in every run, after an apply without errors the announced set is exactly the addresses programmed for active VMs |
| RunSafety.KernelIsReplayed | internal/reconciler/reconciler.go:896-943 | in every run the kernel is what replaying the logged operations makes of the initial one |
| RunSafety.TeardownOrder | internal/reconciler/reconciler.go:891-897 | a step that adds no announcement withdraws before it touches rules |
| RunSafety.StillWantedStays | internal/reconciler/reconciler.go:1225-1226 | an address announced and still wanted never leaves the loopback meanwhile |
| RunSafety.ForeignIsSafe | internal/reconciler/reconciler.go:1280-1299 | an address never wanted and never adopted stays up and is never withdrawn, through any run, shutdown included |
| RunSafety.UnknownIsSafe | internal/reconciler/reconciler.go:1280-1299 | so is an address in no mapping the node ever programs, caches or backs up |
| Adoption.ManagedIsKnown | internal/reconciler/reconciler.go:211-220 | the managed addresses are those of the mappings cached, waiting or backed up |
| Adoption.LoopbackAfter | internal/reconciler/reconciler.go:1227-1272 | after an apply in which nothing fails an address is up if and only if it is programmed, or was up, not announced by this process and, in the apply that compares with the kernel, not known; the comparison is made once the kernel can be listed |
| Adoption.LeftoversGo | internal/reconciler/reconciler.go:1274-1308 | in every run, after the apply that compares with the kernel, of the known addresses exactly the programmed ones are up, whatever a previous process left |
| RunSafety.ShutdownWithdraws | internal/reconciler/reconciler.go:310-317 | shutdown removes all and only what this process announced, up to failing withdrawals |
| Retention.OneGraceApply | internal/reconciler/reconciler.go:820-838 | in every run whose loads never fall into a flush under way, an unlisted VM is programmed by at most one believed apply, whatever fails, is retried or arrives by webhook in between |
| Retention.GraceNeedsOpenStore | internal/reconciler/reconciler.go:828-828 | no flush being under way, a second grace is granted if and only if the backup store is closed |
| Outcomes.WhatIsProgrammed | internal/reconciler/reconciler.go:780-848 | what an active VM gets: what the apply is handed for it; handed nothing, nothing from a delta, else its whole backup, else nothing if the apply is credible and what it had last if not |
| Outcomes.WhatIsBackedUp | internal/reconciler/reconciler.go:794-848 | what an apply leaves in the backup of a VM, case by case |
| Outcomes.GraceServesWhole | internal/reconciler/reconciler.go:806-828 | a credible apply that misses a VM programs exactly its backup, and records that if nft succeeds |
| Outcomes.GraceInstalls | internal/reconciler/reconciler.go:806-828 | and its rules are installed |
| Outcomes.ExactlyOneGrace | internal/reconciler/reconciler.go:806-828 | in every run, of the applies that miss a VM exactly one credible one programs it, the first to meet it here, and with the whole backup it had when it was first missed; flushes under way aside |
| Retention.DeletionIsFinal | internal/reconciler/reconciler.go:801-805 | after a successful delta apply that leaves a VM without mappings, no later apply that does not list it programs it, deltas about other VMs included; loads that fall into a flush under way aside |
| Retention.DeletionNeedsSuccess | internal/reconciler/reconciler.go:801-838 | no flush being under way, the next fallback programs the VM again if and only if nft failed and it had been programmed, or the store is closed and still has a backup |
| Retention.BackupAgreesWithCache | internal/reconciler/reconciler.go:699-714 | after a delta the backup of every active VM is its cache entries, or nothing if it has none; a closed store keeps what it had |
| Retention.AfterApply | internal/reconciler/reconciler.go:794-848 | what one apply leaves in a VM's backup |
| Retention.AlwaysBackedUp | internal/reconciler/reconciler.go:830-838 | in runs where nft succeeds, a programmed VM's backup, queued writes included, is absent or equals what is programmed |
| Retention.ServiceIsKept | internal/reconciler/reconciler.go:780-792 | in such runs, loads that fall into a flush under way aside, a fetch that failed or found nothing at all leaves every active, programmed VM with exactly its mappings |
| Retention.RepeatsItself | internal/reconciler/reconciler.go:830-838 | repeating such an apply over the same VMs, no flush being under way at its loads, programs the same |
| Retention.RepetitionIsQuiet | internal/reconciler/reconciler.go:896-904 | and changes neither ruleset nor announcements, also with flushes, queued signals, cache refills and other VMs' events in between |
| FetchGate.KeyOfInjective | internal/reconciler/reconciler.go:433-447 | two sets of VMs have the same fingerprint if and only if they are equal |
| FetchGate.KeyTextIsKeyOf | internal/reconciler/reconciler.go:439-446 | sorting makes the fingerprint independent of the order of gathering |
| FetchGate.GateSound | internal/reconciler/reconciler.go:420-430 | over any history of fetches a snapshot batch skips the fetch if and only if the last success is young enough and saw the same VMs |
| FetchGate.SortIds | internal/reconciler/reconciler.go:439-439 | ascending, same elements |
| FetchGate.ActiveStateKey | internal/reconciler/reconciler.go:433-447 | computes the fingerprint of the active and staged VMs |
| GateRuns.GateRemembers | internal/reconciler/reconciler.go:657-676 | in every run the gate is what the fetches that succeeded made of it |
| GateRuns.SkipsOnlyWhenRedundant | internal/reconciler/reconciler.go:412-430 | the equivalence of GateSound for every reachable node |
| Ownership.UpdateOwned | internal/reconciler/reconciler.go:1106-1206 | a delta that maps none of v's addresses to another VM leaves them to v in the cache |
| Ownership.OwnedStep | internal/reconciler/reconciler.go:699-858 | if v's addresses belong to v alone in everything a node remembers, they still do after every step, deltas included |
| Ownership.ClearStep | internal/reconciler/reconciler.go:765-772 | a step that does not leave v active announces none of its addresses |
| Ownership.FlawlessScopes | internal/reconciler/reconciler.go:765-858 | after an apply without errors v's addresses are up exactly as far as v is programmed with them |
| Serving.ServedStep | internal/reconciler/reconciler.go:780-858 | an address announced for an active VM stays announced, at every moment, through any step that is handed it or nothing believable, whatever fails |
| Serving.ServedPath | internal/reconciler/reconciler.go:754-967 | the same over any stretch of a run |
| Serving.BeginsToServe | internal/reconciler/reconciler.go:794-858 | an apply without errors that is handed the address begins that service |
| Migration.StartedTurn | internal/reconciler/reconciler.go:547-560 | migrate.started stages the VM on the target and announces nothing |
| Migration.CalmTurn | internal/reconciler/reconciler.go:488-738 | a turn without news about the VM keeps it away, announces nothing for it, and takes its addresses down if it ends in an apply without errors |
| Migration.SilentUntilSynced | internal/reconciler/reconciler.go:547-618 | over every interleaving, deltas about other VMs included, the target does not hold the VM or its addresses before migrate.synced |
| Migration.SilentTurnsUntilSynced | internal/reconciler/reconciler.go:547-618 | nor does it announce one of them at any moment before |
| Migration.FailedTurn | internal/reconciler/reconciler.go:599-609 | after migrate.failed the VM is not on the target, which has announced nothing for it |
| Migration.FailedIsSilent | internal/reconciler/reconciler.go:547-618 | over every interleaving of a migration that fails, the target never announces one of the VM's addresses, before or after |
| Migration.SourceTurn | internal/reconciler/reconciler.go:581-597 | after migrate.synced the VM is not on the source, and a cutover without errors takes its addresses down |
| Migration.TargetTurn | internal/reconciler/reconciler.go:564-580 | after migrate.synced the VM is active on the target, whether or not the cutover works |
| Migration.TargetCutsOver | internal/reconciler/reconciler.go:570-576 | a warm cutover without errors brings up exactly the addresses cached for the VM |
| Migration.GoneAfterSync | internal/state/store.go:88-117 | the source stays silent from its first apply without errors after migrate.synced, late running snapshots and the VM's own stop there included |
| Migration.TakesOver | internal/reconciler/reconciler.go:563-580 | from its first apply without errors after migrate.synced the target announces the address at every moment |
| Migration.ServesUntilSynced | internal/reconciler/reconciler.go:754-967 | up to its own migrate.synced the source announces the address at every moment while its turns sustain it |
| Migration.HandsOver | internal/reconciler/reconciler.go:546-597 | if the target is up before the source hears of migrate.synced, there is no moment of the migration at which neither announces the address |
| Migration.OnlyTargetAdvertises | internal/reconciler/reconciler.go:546-597 | the whole migration: the target is silent before migrate.synced and announces from its first apply without errors on; the source is silent from its own; so from then on only the target announces the VM |
| Migration.LocalStartActivates | internal/reconciler/reconciler.go:611-621 | a local start takes an inactive VM on if and only if it is not staged |
| Feasibility.StepHappens | internal/reconciler/reconciler.go:754-967 | every act has an outcome in every state, whatever fails |
| Feasibility.AMigrationHappens | internal/reconciler/reconciler.go:546-597 | three turns that meet every assumption of the migration result and move the address from the source to the target |
| NetboxFetch.BatchedIsNaive | internal/netbox/client.go:44-114 | the batched fetch returns, as a bag, what one lookup per address returns, and fails if and only if a page or a batch cannot be had |
| NetboxFetch.BatchesPartition | internal/netbox/client.go:143-161 | the batches are the ids in order, none empty, none over a hundred, as few as possible |
| NetboxFetch.NeededIds | internal/netbox/client.go:78-86 | the ids asked for are exactly those of waiting addresses, each once |
| NetboxFetch.ResolveAllCovers | internal/netbox/client.go:146-182 | what the batches teach agrees with the lookup and covers every id asked for |
| NetboxFetch.ResolveAllFails | internal/netbox/client.go:163-168 | resolving fails if and only if one batch does |
| NetboxFetch.AtoiItoa | internal/netbox/client.go:207-215 | a VMID written as text is read back |
| NetboxFetch.VmidPositive | internal/netbox/client.go:194-198 | usable VMIDs are not negative, and zero exactly for a fraction below one |
| NetboxResults.VmidDenotes | internal/netbox/client.go:193-218 | a field gives the VMID k if and only if it is a positive number whose integral part is k, or a text that spells the positive 64-bit number k |
| NetboxResults.IntegersAreThemselves | internal/netbox/client.go:203-216 | so an integer gives itself, as a number and as text |
| NetboxResults.AllPages | internal/netbox/client.go:60-94 | the results are those of all pages on the way to the last one, and there are none if a request fails before it |
| NetboxResults.FetchedYields | internal/netbox/client.go:44-138 | a successful fetch returns a mapping if and only if an address on some page sits on an interface of a named VM, leads to it from an outside address, and the VMID is so determined |
| NetboxFetch.FetchNATMappings | internal/netbox/client.go:44-114 | the loops compute the two-phase fetch |
| NetboxFetch.FetchProxmoxVMIDs | internal/netbox/client.go:143-183 | the batch loop, abandoned at the first failure |
| NetboxFetch.ExpandIP | internal/netbox/client.go:117-138 | one mapping per outside address that parses |
| NetboxFetch.ReadPages | internal/netbox/client.go:60-94 | the page loop: inline mappings, waiting addresses, ids |
| Resolving.ResolveOneIs | internal/reconciler/reconciler.go:794-848 | resolving active VMs one after the other does what the whole apply says, in any order |
| Resolving.PartOneMore | internal/reconciler/reconciler.go:794-858 | the backups after one more VM |
| Reconcilers.Reconciler.constructor | internal/reconciler/reconciler.go:178-203 | a new reconciler on fresh stores is a booted node |
| Reconcilers.Reconciler.HasNewAdvertisements | internal/reconciler/reconciler.go:233-243 | true exactly if something desired is not announced |
| Reconcilers.Reconciler.ManagedIPs | internal/reconciler/reconciler.go:211-220 | exactly the cached and backed-up external addresses |
| Reconcilers.Reconciler.AdoptOnce | internal/reconciler/reconciler.go:1240-1242 | adoption happens once, of managed addresses only, if the kernel can be listed |
| Reconcilers.Reconciler.AdoptKernelState | internal/reconciler/reconciler.go:1287-1317 | what adoption adds |
| Reconcilers.Reconciler.AdvertiseMissing | internal/reconciler/reconciler.go:1245-1254 | attempts each missing address once and remembers the successes |
| Reconcilers.Reconciler.WithdrawStale | internal/reconciler/reconciler.go:1257-1266 | attempts each stale address once and forgets the successes |
| Reconcilers.Reconciler.ReconcileBGP | internal/reconciler/reconciler.go:1227-1272 | an announcing pass, its operations in the log, and its error |
| Reconcilers.Reconciler.Resolve | internal/reconciler/reconciler.go:795-848 | one VM's mappings and what becomes of its backup |
| Reconcilers.Reconciler.DesiredState | internal/reconciler/reconciler.go:758-858 | the loop over active VMs yields what the apply is to program, its rules as a bag, and its addresses |
| Reconcilers.Reconciler.ApplyNFT | internal/reconciler/reconciler.go:899-914 | nft runs unless skipped; the fingerprint after success, failure and skip |
| Reconcilers.Reconciler.Converge | internal/reconciler/reconciler.go:896-948 | the two halves in the order the directions call for, stopping at an nft error |
| Reconcilers.Reconciler.ApplyMappings | internal/reconciler/reconciler.go:754-967 | a whole apply is an apply step; it errs exactly if nft had to run and failed |
| Reconcilers.Reconciler.CachedMappings | internal/reconciler/reconciler.go:1095-1104 | a listing of the cache |
| Reconcilers.Reconciler.RebuildMappingCache | internal/reconciler/reconciler.go:1082-1093 | the cache of a fetch |
| Reconcilers.Reconciler.ApplyDeltaToState | internal/reconciler/reconciler.go:716-738 | placement after a delta |
| Reconcilers.Reconciler.ApplyDeltaToCache | internal/reconciler/reconciler.go:1106-1206 | cache after a delta |
| Reconcilers.Reconciler.SyncBackupFromDelta | internal/reconciler/reconciler.go:1001-1080 | backups after a delta, read failures included |
| Reconcilers.Reconciler.ReconcileFromWebhookDelta | internal/reconciler/reconciler.go:699-714 | one delta is one apply step that believes its cache |
| Reconcilers.Reconciler.Reconcile | internal/reconciler/reconciler.go:657-697 | record and believe a fetch, or fall back to the backups |
| Reconcilers.Reconciler.RunQueued | internal/reconciler/reconciler.go:476-484 | takes the queued signal and runs one reconcile |
| Reconcilers.Reconciler.CutOver | internal/reconciler/reconciler.go:337-356 | applies from a warm cache, queues a reconcile for a cold one |
| Reconcilers.Reconciler.OnSynced | internal/reconciler/reconciler.go:563-597 | the target's and the source's part of migrate.synced |
| Reconcilers.Reconciler.HandleEvent | internal/reconciler/reconciler.go:488-649 | each event leads through exactly the acts of the first case that matches |
| Reconcilers.Reconciler.ShouldFullFetchForSnapshot | internal/reconciler/reconciler.go:420-430 | the gate's decision, changing nothing |
| Reconcilers.Reconciler.Prime | internal/reconciler/reconciler.go:268-297 | scan, then seed the cache from NetBox or from every backed-up mapping |
| Reconcilers.Reconciler.Tick | internal/reconciler/reconciler.go:453-462 | expires staged markers and queues a reconcile |
| Reconcilers.Reconciler.FlushBackups | internal/reconciler/reconciler.go:301-303 | a flush step and its success |
| Reconcilers.Reconciler.CloseBackups | internal/reconciler/reconciler.go:306-308 | a close step and its success |
| Reconcilers.Reconciler.FlushRoutes | internal/reconciler/reconciler.go:315-317 | withdraws what was announced and adopts nothing |

## Left out

Assumptions of the node model:

- Handling an event, one apply, one load and one flush each happen as a single step of a node. The source does not hold a lock across the check and the set at internal/reconciler/reconciler.go:612-620, nor around the fallback apply at internal/reconciler/reconciler.go:670. Within a step every intermediate kernel state is observable. Flusher.dfy takes load, scan and flush apart, but without a concurrent `FlushBackups`.
- Backup file names are taken to be the decimal VMID; a second file whose name parses to the same number (leading zeros, a plus sign) is not modelled.
- Other cluster nodes writing the same backup files; each node's directory is its own.
- Backup JSON is a value that is empty, null, an object, an array or malformed; the text, field-level decoding and the case of an object that decodes with missing fields are not modelled. Temporary files and renames are one write that succeeds or leaves anything in the file.
- Backup.EncodeRoundTrip: is about the shapes of the JSON values, not about marshalled text.
- BackupStores.BackupStore.Close: the wait for the flusher and the expiry of its context are in Flusher.dfy only.
- Addresses are an ordered type with a text form that is one-to-one and free of `>` and `;`; parsing address text is an arbitrary partial function. White space and letter case are ASCII.
- A ruleset is a sequence of address pairs; the nftables template is not part of this model. An `nft -f` that fails may leave any ruleset.
- Kernels.Host.Advertise: an `ip addr` command that fails is taken to have changed nothing.
- Kernels.Host.Withdraw: likewise.
- Disabled FRR, where these commands do nothing, is not modelled.
- `sort.Slice` is an insertion sort here; both order by the same comparison.
- The debounced verification reconcile after a cutover is a queued signal that may appear at any time. Timers, backoff lengths and contexts have no effect on the results and are not modelled.
- Times are integers; `time.Since` saturates as in Go. A JSON number too large for an integer is not modelled in the NetBox fetch.

Restrictions of single results:

- Retention.RepetitionIsQuiet: as RepeatsItself, with no other apply, shutdown or directory scan and no change of the active VMs in between; that nothing at all happens also asks that kernel adoption is done and the first pass met no error.
- Flusher.WrongAnswers: speaks of the answer a load would get at one moment; a load that goes to disk is three steps, and what it installs is the subject of OnlyRacesMislead.
- Retention.ServiceIsKept: in runs in which nft succeeds and the backup store is not closed; and a load is answered with the newest accepted value, which Flusher.BehindUntilRecorded shows to be false while a batch is in flight.
- Retention.AlwaysBackedUp: about the newest accepted value of the backup, not about what a load is answered while it is in flight.
- Retention.RepeatsItself: likewise assumes that no batch is in flight when the two applies load; it asks that the first apply could read the backups of its active VMs; after a read that fails the second one may find more.
- Retention.OneGraceApply: stated for an open backup store, which GraceNeedsOpenStore shows to be necessary, and with each load and each flush as one step; a believed fetch that loads while the removal is in flight grants a second grace (Flusher.DeletedIsAnswered is the state it meets).
- Outcomes.ExactlyOneGrace: as OneGraceApply; and of the VM's backup it asks that it is in memory when the VM is first missed and can be read at the apply that serves it.
- Retention.GraceNeedsOpenStore: with each load and each flush as one step, as OneGraceApply.
- Retention.DeletionNeedsSuccess: its equivalence takes each load and each flush as one step; a fallback that loads while the removal is in flight programs the VM again although nft succeeded on an open store (Flusher.DeletedIsAnswered is the state it meets).
- Retention.DeletionIsFinal: likewise with each load and each flush as one step; for an open backup store, or a closed one whose backup of the VM is gone already; DeletionNeedsSuccess gives the closed case exactly.
- Migration.OnlyTargetAdvertises: assumes that nothing fetched, seeded or brought by a webhook maps the VM's addresses to another VM or leaves one waiting under a name; that before migrate.synced on the target, and after it on the source, no webhook delta for a virtual machine names this VM (it would be placed without regard to where it runs, see Staging.LeavesStagedIff); that the target's staged marker does not expire before migrate.synced; that the migrate events are not older than the node's record of the VM; that the VM starts on the target only after migrate.started and does not stop there between that and migrate.synced; that it does not start again on the source after migrate.synced, and that its stop there, if reported after that, is not dated earlier; that no snapshot shows it running on the target before migrate.synced unless it is older than migrate.started, nor on the source afterwards unless it is older than migrate.synced; that no other migration of it is reported meanwhile; and that the directory is scanned at most once. After its first apply without errors the target's turns must leave the VM active and be handed the address or nothing believable. Between the target's and the source's turn both may announce the VM; the code does not exclude that.
- Migration.FailedIsSilent: with the same assumptions about the target, migrate.failed in the place of migrate.synced.
- Migration.HandsOver: assumes of the target what OnlyTargetAdvertises does, and of the source that its turns up to migrate.synced leave the VM active and are handed the address or nothing believable.
- NetboxResults.FetchedYields: for a server that answers each batch with the VMs asked for, as BatchedIsNaive.
- DeltaEffects.DeletedVMLosesBackup: for an open backup store; a closed one keeps what it has.
- Adoption.LoopbackAfter: for an apply in which no nft or ip operation fails; what failures leave behind is in Kernels.PassInKernel and ApplySteps.KernelAfter.
- NetboxFetch.BatchedIsNaive: the equality holds for a server that answers each batch with the VMs asked for; the failure condition needs no such assumption.
- MappingCache.LateResolution: stated for a name and a VMID not yet in the cache.

Not modelled at all:

- Agreement of the cache with NetBox between full fetches: an address delta replaces all entries of its VM.
- Streak counters, log levels, latency watchdogs and metrics.
- The webhook server, signatures, `EnsureWebhook`, configuration, NATS connections and the order of `nft.Flush` at process exit.
