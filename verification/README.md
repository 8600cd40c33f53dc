# Verified model of wol

wol wakes, checks and opens machines on a local network. It keeps an inventory of
relays, sites, machines, groups and profiles, runs batches over fleets of machines,
owns remote sessions, probes presence, and updates its own executable. This project
models the parts of that program in which a mistake is hard to see, and proves what
they promise. Check it with `dafny verify dfyconfig.toml` (Dafny 4.11).

| file | what it is about |
|---|---|
| `Fleet.dfy` | the batch scheduler: worker pools per site under one global semaphore, as a transition system over every interleaving |
| `LateStarts.dfy` | a fleet run in which every slot starts an operation after the cancellation |
| `Retry.dfy` | batch, retry and batch again in the terminal client, down to the operations the fleet starts |
| `Tables.dfy` | one table of the inventory and the import loop that fills it, for any row type |
| `Inventory.dfy`, `Text.dfy` | the six row types, their normalisers, and the string functions that decide identity |
| `Import.dfy` | the whole import, and what it keeps |
| `ImportTwice.dfy`, `Examples.dfy` | what one import stores, when importing a file twice is importing it once, exactly, and inputs for which things go wrong |
| `RoundTrip.dfy`, `RoundTripIff.dfy` | export and import rebuild the inventory under a bijection of IDs, and exactly when they do |
| `Rows.dfy` | the rows field by field: what is accepted, what is stored for it, what is left alone, and what comes back |
| `Store.dfy` | the store as a class over six tables, its transactions, and every run of them |
| `Reachable.dfy` | which runs of transactions lead to stores that can be exported and imported again, exactly |
| `RemoteFlow.dfy` | ownership of sessions and streams while Open, Stop and Close interleave |
| `Cache.dfy` | the single-flight presence cache with a clock |
| `Sweep.dfy` | the TCP sweep whose results may be dropped on cancellation |
| `Versions.dfy`, `SemVer.dfy` | the version order, and where it is that of section 11 of Semantic Versioning 2.0.0 |
| `Zip.dfy` | the ZIP central-directory preflight over arbitrary bytes |
| `Budgets.dfy`, `Checksum.dfy`, `Replace.dfy` | extraction budgets, the checksum manifest, and replacing the executable step by step |
| `WakeRoute.dfy` | the terminal's wake preview against the route the service takes |
| `Args.dfy` | the repeated flag.Parse against a one-pass grammar |
| `Sums.dfy`, `Octets.dfy` | sums and multisets over a sequence, used by the protocols; bytes |

Concurrent code is a state, an `Action` for each atomic step of one goroutine, and the
runs of those actions (`Legal`, `Exec`); theorems quantify over all of them. Code that
changes fields or rows is a class, code that loops is a method with a loop, and each
such method is proved against a specification function about which the lemmas speak.

Where the code departs from what one would expect, the model follows the code, and the
exact condition is a theorem:

- A second import of a file is without effect exactly if its group names are trimmed and
  no machine without a type was new (`ImportTwice.ImportTwiceIff`). Groups are looked up
  by the name as written but stored trimmed, and only an insert defaults the type.
- An exported inventory comes back the same exactly if every row is stored in the form an
  import gives it (`RoundTripIff.ExportImportIff`), and along a run of transactions that
  form is kept exactly by the clean ones (`Reachable.CleanRunIff`). Three kinds of
  transaction are not clean. A site whose subnet only parses once trimmed is stored with
  the subnet `<nil>`, which no import accepts (`Reachable.BlankSubnetIsLost`,
  `Examples.BlankSubnet`). A known machine imported without a type loses its own. And a
  machine that moves to an address that is not a local one in its usual spelling spoils
  the profiles that follow it (`Reachable.SyncKeepsCanonicalIff`); if the address is
  not local at all the export is refused by every store (`Reachable.ForeignAddressIsLost`,
  `Examples.ForeignAddress`).
- Versions compare as the standard says exactly if their numbers fit an int and no
  identifier is a hyphen followed by such a number (`SemVer.AgreesIff`).
- The repeated flag parser departs from the one-pass grammar exactly when a flag takes
  `--` for its value before a positional, and flags or another `--` follow (`Args.SafeIff`).
- The second context check of a fleet worker and its call are two steps, so operations
  may still start after a cancellation, exactly if some worker is between the two
  (`Fleet.MayStartIff`). They are at most one for each global slot
  (`Fleet.FewStartsAfterCancel`), and there are runs in which each slot starts one
  (`LateStarts.EverySlotStartsLate`). None does in runs in which the check and the call
  are one step (`Fleet.AtomicCheckStartsNothing`).
- A caller that looked and missed probes although a fresh result is cached exactly if since
  its look one was stored, less than a TTL ago, that was not invalidated
  (`Cache.RepeatedProbeIff`); such runs exist (`Cache.TwoProbesInSequence`,
  `Cache.BothMiss`).
- A sweep that reports all ports unreachable can be believed in every run exactly if there
  is one port or the caller does not cancel (`Sweep.TruthfulIff`), and it reports so
  whenever every probe found it so exactly if the caller does not cancel
  (`Sweep.ExactIff`). `Sweep.PartialCount` and `Sweep.NoCount` are the cancelled runs, for
  any number of ports: a silent port left out of the count, and no port in it at all. A
  sweep that has counted every port is right, cancelled or not (`Sweep.CountedIsExact`).
- On Windows, a failed installation leaves no executable in place, only its `.old` copy,
  exactly if there was one, staging it and moving it aside succeed, and both the rename that
  installs the new one and the rename that puts it back fail (`Replace.ReplaceOnWindows`;
  `Replace.StrandedDisk` is such a disk).

## Model

| member | source | states |
|---|---|---|
| Fleet.GroupBySite | internal/fleet/fleet.go:36-43 | the grouped map has exactly the sites that have a device, each with its devices in inventory order |
| Fleet.StartPool | internal/fleet/fleet.go:46-56 | a pool has the site's clamped number of workers, and no more than it has devices |
| Fleet.Launch | internal/fleet/fleet.go:27-86 | for any iteration order of the grouped map, Run starts in the state from which all runs are considered |
| Fleet.GroupingConserves | internal/fleet/fleet.go:41-65 | queueing by site puts every device in one queue and none in two |
| Fleet.GroupSplits | internal/fleet/fleet.go:41-43 | a site's machines are in inventory order: grouping one list after the other is grouping both |
| Fleet.RunConserves | internal/fleet/fleet.go:34-88 | in every interleaving each device is in exactly one of queued, held or reported, and no device is operated on twice |
| Fleet.RunBounded | internal/fleet/fleet.go:28-85 | running operations never exceed the clamped global limit or a site's clamped limit, occupancy is the number of slot holders, and a release finds a slot to give back |
| Fleet.SlotsAre | internal/fleet/fleet.go:28-33 | as many global slots as asked for, 16 if less than one, 32 if more |
| Fleet.PoolsAre | internal/fleet/fleet.go:46-56 | as many workers as the last setting of the site says, 4 if none or less than one, at most 16, and no more than its machines |
| Fleet.NeverMore | internal/fleet/fleet.go:28-85 | in every interleaving at most 32 operations run at once, at most as many as asked for, at most 16 at one site, and at most as many as the site is set to |
| Fleet.TakenInOrder | internal/fleet/fleet.go:60-70 | in every run each site's queue is the end of what it was, so its machines are taken in inventory order |
| Fleet.NoNewWaiters | internal/fleet/fleet.go:72-80 | after a cancellation only workers that were waiting for a slot then can still get one |
| Fleet.OutcomesDelivered | internal/fleet/fleet.go:66-87 | in every interleaving the reports, sent or held, tell exactly the statuses and details that the operations returned, device by device |
| Fleet.NoStartAfterCancel | internal/fleet/fleet.go:72-80 | after a cancellation an operation can only start in a worker that had already passed its second check |
| Fleet.MayStartIff | internal/fleet/fleet.go:72-80 | from any reachable cancelled state some continuation starts an operation exactly if a worker has passed its second check and not yet called |
| Fleet.AtomicCheckStartsNothing | internal/fleet/fleet.go:75-77 | in runs in which that check and the call are one step, started operations are the same after a cancellation as at it |
| Fleet.FewStartsAfterCancel | internal/fleet/fleet.go:72-80 | in any run at most as many operations start after it as there are global slots |
| LateStarts.EverySlotStartsLate | internal/fleet/fleet.go:72-80 | with up to 16 machines at one site and as many slots, a run in which none has started when it is cancelled and all start afterwards |
| Fleet.RoomToSend | internal/fleet/fleet.go:34-82 | a worker that has a result always finds room for it on the channel, read or not |
| Fleet.StepDecreases | internal/fleet/fleet.go:66-88 | every step of every goroutine decreases a measure |
| Fleet.RunsAreFinite | internal/fleet/fleet.go:66-88 | no run is longer than that measure |
| Fleet.Progress | internal/fleet/fleet.go:66-88 | until the result channel closes some goroutine can move, even if nobody reads |
| Fleet.ClosedIsComplete | internal/fleet/fleet.go:70-87 | when the channel closes there is exactly one result per device, labelled with it, and without a cancellation each was operated on |
| Fleet.MaximalRun | internal/fleet/fleet.go:27-88 | every run is bounded in length, and one that cannot go on has closed the channel with one result per device, each telling what its operation returned |
| Retry.WakeModel.PrepareBatch | internal/tui/fleet.go:110-128 | targets are the marked machines in inventory order, unless a batch is running |
| Retry.WakeModel.StartBatch | internal/tui/fleet.go:129-150 | a batch over the targets starts under a new number with no results |
| Retry.WakeModel.ApplyFleetMsg | internal/tui/fleet.go:28-43 | results of the current batch are appended in order, those of an older one change nothing |
| Retry.WakeModel.RetryBatch | internal/tui/fleet.go:151-169 | exactly the machines with a result other than sent or online are marked and become the targets; it is a wake if any result is sent or failed |
| Retry.RetryTargets | internal/tui/fleet.go:151-169 | with one result per target, the next targets are the previous ones without a success, in order |
| Retry.SelectSplits | internal/tui/fleet.go:115-120 | targets are in inventory order: selecting from one list after the other is selecting from both |
| Retry.RetryForever | internal/tui/fleet.go:110-169 | over any number of rounds no target that succeeded is run again and none that did not is lost |
| Retry.BatchIsOneEach | internal/fleet/fleet.go:66-87 | a completed fleet run delivers the one result per target that the rounds rely on |
| Retry.BatchTells | internal/tui/fleet.go:129-150 | the results of a batch are exactly what its operations returned, or tell of a cancellation, and at most 16 operations run at once |
| Retry.NoSuccessIsRepeated | internal/tui/fleet.go:110-169 | over any batches in any interleavings an operation starts on exactly the marked machines that no earlier round reported as sent or online, at most once a round, and on all of them in a round that is not cancelled |
| Retry.PlayRounds | internal/tui/fleet.go:28-169 | the model's methods, driven through any rounds with messages of other batches in between, start each batch over the targets that the rounds before it leave |
| Retry.FollowersAvoidSuccess | internal/tui/fleet.go:110-169 | with one result per target such a batch is over the marked machines without a success so far, in inventory order |
| Tables.UpsertRow | internal/store/store.go:962-1070 | select by natural key, then update that row or insert one under a fresh ID, or fail on a UNIQUE constraint |
| Tables.LoadRows | internal/store/store.go:838-931 | the import loop over one table is the fold of its entries, stopping at the first error |
| Tables.LoadIsPlace | internal/store/store.go:838-931 | it succeeds exactly if every entry can be planned and the planned entries can be placed |
| Tables.PlaceIds | internal/store/store.go:838-894 | the ID map covers exactly the entries with an ID and leads to the rows they went to |
| Tables.PlaceKeepsUnique | internal/store/store.go:962-1070 | UNIQUE constraints hold after every load |
| Tables.PlaceRows | internal/store/store.go:962-1070 | entries with distinct keys each end up as the row planned for them, and only their rows are new |
| Tables.PlaceLeavesOthers | internal/store/store.go:962-1070 | rows that no entry went to are untouched |
| Tables.PlaceAllIff | internal/store/store.go:962-1070 | a property all rows had holds of all rows afterwards exactly if what the last entry of each key stores has it |
| Tables.PlaceTwice | internal/store/store.go:838-931 | repeatable entries loaded again change no row, no ID and mint nothing |
| Tables.PlaceTwiceOnlyIf | internal/store/store.go:1010-1054 | and only such entries can be loaded again with no effect |
| Tables.ListRows | internal/store/store.go:797-823 | an export lists every row once, in any order |
| Tables.RoundTripTable | internal/store/store.go:797-931 | listed rows loaded into an empty table come back under a bijection of IDs, with references renamed |
| Inventory.NormSiteTwice | internal/store/site_config.go:12-50 | a normalised site is a fixed point of the normaliser exactly if its subnet was empty or parsed untrimmed |
| Inventory.NormRemoteTwice | internal/store/remote_profile.go:37-135 | a normalised remote profile is a fixed point |
| Inventory.NormPowerTwice | internal/store/power_profile.go:38-49 | a normalised power profile is a fixed point |
| Import.ImportKeepsReferences | internal/store/store.go:825-934 | an accepted import leaves no site, machine, group or profile pointing at a row that is not there |
| Import.ImportKeepsTidy | internal/store/store.go:825-934 | it keeps keys unique and in stored form, and IDs fresh |
| Import.PlannedRemoteRefers | internal/store/store.go:908-918 | an imported profile belongs to the machine its file ID was mapped to |
| ImportTwice.ImportMerges | internal/store/store.go:825-934 | an accepted import of a file with distinct natural keys stores every entry in all six tables, leaves the rest untouched and adds nothing else |
| Rows.ImportAccepts | internal/store/store.go:825-960 | every entry of an accepted file meets the conditions of its kind, field by field, and the version is at most 6 |
| Rows.PlansSite | internal/store/site_config.go:12-50 | a site is accepted exactly under these conditions, and stored with these fields and defaults |
| Rows.PlansDevice | internal/store/store.go:1002-1040 | so is a machine; only a new one gets a type if it has none |
| Rows.PlansGroup | internal/store/store.go:1042-1070 | so is a group, members in order |
| Rows.PlansRemote | internal/store/remote_profile.go:37-135 | so is a remote profile, with the ports, mode, application and certificate policy of its protocol |
| Rows.PlansPower | internal/store/power_profile.go:38-49 | so is a power profile |
| Rows.ImportStores | internal/store/store.go:825-1070 | an accepted import of a file with distinct keys stores every field of every entry as it is, but for references, blanks, letter case and the literal defaults |
| Rows.UniqueIff | internal/store/store.go:962-1070 | the UNIQUE constraints mean that no name, MAC or profiled machine is there twice |
| ImportTwice.SecondImportIsNoop | internal/store/store.go:825-934 | a repeatable file imported again is accepted and changes nothing |
| ImportTwice.NoopOnlyIfRepeatable | internal/store/store.go:1002-1070 | if the second import is accepted and changes nothing, the file was repeatable |
| ImportTwice.ImportTwiceIff | internal/store/store.go:825-1070 | for files with distinct natural keys the second import is without effect exactly if group names are trimmed and no machine without a type was new |
| Examples.UntrimmedGroup | internal/store/store.go:1045-1054 | a file with the group " a" cannot be imported twice with no effect |
| Examples.UntrimmedGroupAtHome | internal/store/store.go:1045-1054 | with a concrete network and supply of IDs its second import fails or changes the store |
| Examples.TypelessDevice | internal/store/store.go:1010-1035 | nor can a file with a machine that has no type |
| Examples.TypelessDeviceAtHome | internal/store/store.go:1010-1035 | with a concrete network, supply of IDs and machine its second import fails or changes the store |
| Examples.BlankSubnet | internal/store/site_config.go:17-24 | a site that is stored with a subnet no import accepts |
| Examples.ForeignAddress | internal/store/site_config.go:54-81 | a well-formed store of one machine and its profile that moves to an address whose export no store accepts |
| Examples.ForeignAddressAtHome | internal/store/remote_profile.go:37-135 | on a concrete network there are such a machine, profile and address |
| RoundTrip.GroupStays | internal/store/store.go:896-907 | a group's members come back in order, each under its new ID |
| RoundTrip.ProfileMoves | internal/store/remote_profile.go:37-135 | a canonical profile assigned to another machine is still canonical |
| RoundTrip.ExportImport | internal/store/store.go:797-934 | a well-formed store exported and imported into an empty one is accepted and equals the original, relay secrets blank, under a bijection of IDs through which every reference and member order is mapped |
| RoundTripIff.ExportImportIff | internal/store/store.go:797-934 | a store with valid references comes back so, relay secrets blank, exactly if every row is in the form an import gives it |
| Rows.CanonicalIff | internal/store/store.go:825-1070 | the rows that an import would leave as they are, are those with these fields: trimmed, in lower case, filled in and within bounds |
| Rows.DeviceAloneIff | internal/store/store.go:1002-1040 | for a machine: a trimmed name, a valid MAC in lower case, a type, a platform, a strategy, and valid addresses and ports |
| Rows.RemoteAloneIff | internal/store/remote_profile.go:37-135 | for a remote profile: a known protocol and mode, a local host in its usual spelling, ports, and the policies of its protocol |
| Rows.RoundTripByFields | internal/store/store.go:797-1070 | a store with valid references comes back from its export with only references renamed and relay secrets gone, field by field, exactly if its rows have those fields |
| Store.Store.Export | internal/store/store.go:797-823 | the file has version 6 and holds every row of every table, relays with every field but the secret |
| Store.Store.ImportMachines | internal/store/store.go:838-894 | relays, then sites, then machines, each through the ID maps of the tables before it |
| Store.Store.ImportMembers | internal/store/store.go:896-931 | groups and both kinds of profile, each through the machines' ID map |
| Store.Store.ImportTables | internal/store/store.go:825-933 | the six loops in order, or the first error |
| Store.Store.Import | internal/store/store.go:825-934 | all or nothing: a rejected import leaves the store exactly as it was |
| Store.Store.DeleteDevice | internal/store/store.go:589-617 | exactly the machine, its memberships and its profiles go, all other rows stay as they are; an unknown machine changes nothing |
| Store.Store.DeleteSite | internal/store/store.go:485-512 | refused while a machine is assigned to the site, otherwise only the site goes |
| Store.Store.DeleteGroup | internal/store/store.go:732-752 | only the group goes; an unknown one is an error |
| Store.Store.DeleteWakeRelay | internal/store/relay.go:118-145 | refused while a site uses the relay, otherwise it goes, exactly the machines that used it lose it, and nothing else changes |
| Store.Store.SyncDeviceAddress | internal/store/site_config.go:54-81 | compare and set: only if the address is still the old one it is followed, profiles that reached the machine still do, and those with a host of their own are untouched |
| Store.ApplyKeepsKeyed | internal/store/store.go:485-1070 | every transaction keeps keys unique and tidy and IDs fresh |
| Store.ApplyKeepsReferences | internal/store/store.go:485-934 | every transaction keeps every reference |
| Store.RunsKeepReferences | internal/store/store.go:485-934 | so does every run of imports, deletions and address changes |
| Store.WithoutAppend | internal/store/store.go:665-680 | the members left in a group keep their order |
| Store.FollowBackIff | internal/store/site_config.go:54-81 | following an address and then back restores the store exactly if no profile of the machine had the new address for its own host |
| Store.DeviceDeletedReferences | internal/store/store.go:589-617 | deleting a machine leaves no group or profile pointing at it |
| Reachable.UpdatedCanonicalIff | internal/store/store.go:1010-1035 | an updated machine is stored as an import would store it exactly if it came with a type |
| Reachable.BlankSubnetIsLost | internal/store/site_config.go:17-24 | a subnet that parses only once trimmed is stored as one that no import accepts |
| Reachable.UnplannableSite | internal/store/store.go:848-861 | a file with a site the normaliser refuses is refused by every store |
| Reachable.ImportCanonicalIff | internal/store/store.go:825-934 | an accepted import leaves every row in the form an import would give it exactly if, of the last entries for each site and machine, no subnet needs trimming and no known machine lacks a type |
| Reachable.SyncKeepsCanonicalIff | internal/store/site_config.go:54-81 | following an address keeps that form exactly if no profile follows or the address is a local one in its usual spelling |
| Reachable.ForeignAddressIsLost | internal/store/site_config.go:54-81 | a profile that follows its machine to an address that is not local makes the export a file no store accepts |
| Reachable.ApplyCanonicalIff | internal/store/store.go:485-934 | a transaction keeps that form exactly if it is refused or clean |
| Reachable.CleanRunIff | internal/store/store.go:485-934 | every store along a run has that form exactly if every transaction of the run is clean |
| Reachable.ReachableRoundTrips | internal/store/store.go:797-934 | after any clean run of transactions the inventory survives an export and an import |
| Reachable.ReachableRoundTripIff | internal/store/store.go:797-934 | after any run at all it comes back the same exactly if every row is in that form |
| RemoteFlow.Manager.Publish | internal/remoteflow/flow.go:98-109 | the machine leads to the handle in the table of its kind, the other table is untouched, and the handle it replaces is returned; after Close nothing changes and the handle itself is returned |
| RemoteFlow.Manager.Unregister | internal/remoteflow/flow.go:195-205 | the machine is in neither table, every other entry is as it was, and exactly its stream and session are returned |
| RemoteFlow.Manager.Seal | internal/remoteflow/flow.go:227-233 | the first section of Close only sets closed |
| RemoteFlow.Manager.Drain | internal/remoteflow/flow.go:235-245 | the second empties both tables and hands every registered handle over once |
| RemoteFlow.Collect | internal/remoteflow/flow.go:236-244 | ranging over a table collects its values, each as often as it is registered |
| RemoteFlow.MovePasses | internal/remoteflow/flow.go:93-145 | each step of a call passes on every handle it takes over, closes it, or makes one |
| RemoteFlow.OneOwner | internal/remoteflow/flow.go:93-255 | in every interleaving of Open, Stop and Close each started handle is with one call, in one table entry, or closed once |
| RemoteFlow.NothingLeaks | internal/remoteflow/flow.go:71-255 | once all calls returned, one of them Close, everything ever started has been closed and both tables are empty |
| RemoteFlow.StopStops | internal/remoteflow/flow.go:195-212 | in every interleaving, when Stop takes the lock both entries of the machine and no others go, and once it has returned their handles are closed |
| RemoteFlow.OpenOpens | internal/remoteflow/flow.go:93-145 | in every interleaving, when Open takes the lock its handle is registered in the table of its kind, and once it has returned the one it replaced, or after Close its own, is closed |
| RemoteFlow.WorkDecreases | internal/remoteflow/flow.go:93-255 | every step of a call decreases a measure over all calls and tables |
| RemoteFlow.CallsAreFinite | internal/remoteflow/flow.go:93-255 | so the calls in progress take boundedly many steps |
| RemoteFlow.CanAlwaysMove | internal/remoteflow/flow.go:93-255 | and a call that has not returned can always move |
| Cache.Cache.Get | internal/presence/cache.go:51-68 | forced or without a key nothing is found or changed; otherwise a hit is an unexpired entry, marked as cached, and an expired one is dropped |
| Cache.Cache.Set | internal/presence/cache.go:70-81 | a result is stored until a TTL from now |
| Cache.Cache.Invalidate | internal/presence/cache.go:83-90 | only the entry under the key goes |
| Cache.Cache.Join | internal/presence/cache.go:102-114 | the call in flight for the key, or a new one that is now in flight |
| Cache.Cache.Finish | internal/presence/cache.go:118-125 | only the call under the key is no longer in flight |
| Cache.SingleFlight | internal/presence/cache.go:94-134 | at most one probe per key runs at any moment, its call is the one in flight for the key, and every call in flight belongs to a running probe |
| Cache.WaitersGetTheOwners | internal/presence/cache.go:103-131 | an answered waiter got its owner's result and no error, or the probe's raw result and the owner's cancellation |
| Cache.ErrorsAreCancellations | internal/presence/cache.go:103-131 | in every run a context error comes only to a caller that was cancelled itself, or whose owner for the same key was |
| Cache.HitsAreFresh | internal/presence/cache.go:51-134 | a hit is the result of a completed probe for the same key whose owner's context was live when it returned, stored less than a TTL before |
| Cache.ForcedNeverHits | internal/presence/cache.go:51-68 | in every run a caller that forces a probe, or has no key, is never answered from the cache, and its look changes no entry |
| Cache.LookHitsIff | internal/presence/cache.go:51-81 | in every run any other look is a hit exactly if the last result stored for the key is less than a TTL old and was not invalidated |
| Cache.OwnersGetTheirs | internal/presence/cache.go:115-133 | an owner whose context was live gets the result of its own probe |
| Cache.ProbesAsReturned | internal/presence/cache.go:127 | in every run the result recorded for a probe is the one that the probe returned |
| Cache.CallersAsAsked | internal/presence/cache.go:94 | in every run each caller has the key and the force flag it came with |
| Cache.NobodyStuck | internal/presence/cache.go:98-134 | a caller without an answer can move, or waits for an owner that can |
| Cache.EveryoneIsAnswered | internal/presence/cache.go:94-134 | in every run each caller makes at most seven moves, and while some caller has no answer some caller can move |
| Cache.RepeatedProbeIff | internal/presence/cache.go:51-134 | in every run, after an unforced look that missed, the key is fresh exactly if the steps since then stored a result for it, less than a TTL ago, and have not invalidated it |
| Cache.StoredSinceLook | internal/presence/cache.go:51-134 | what such a caller could have found is the result of a store after its look |
| Cache.TwoProbesInSequence | internal/presence/cache.go:98-114 | two callers that both missed may probe one after the other |
| Cache.BothMiss | internal/presence/cache.go:98-102 | and two such callers can be reached |
| Sweep.Tally | internal/presence/presence.go:445-461 | a hit exactly if some result is online; without one, all unreachable exactly if there are results and each is |
| Sweep.AlwaysRoom | internal/presence/presence.go:411-436 | a goroutine that wants to send finds room on the channel |
| Sweep.HitIff | internal/presence/presence.go:404-461 | however goroutines and cancellation interleave, a hit is reported exactly if some probe that ran was online |
| Sweep.HitAsFound | internal/presence/presence.go:414-461 | a sweep that ends reports a hit exactly if some step of it found a port online |
| Sweep.OutcomeAsFound | internal/presence/presence.go:414-436 | the outcome of a goroutine that has left is what its probe found, or that it never probed |
| Sweep.NoProbeAfterHit | internal/presence/presence.go:414-424 | once a port has announced that it is online, or the caller has cancelled, a port that has not looked at the context is never probed |
| Sweep.CompleteIff | internal/presence/presence.go:404-461 | with no hit and no cancelled caller every port was probed and counted, and all are unreachable exactly if each probe was |
| Sweep.SweepEnds | internal/presence/presence.go:414-443 | a goroutine that has not left can move, and every move leads it on |
| Sweep.MaximalSweep | internal/presence/presence.go:414-456 | every sweep takes boundedly many steps, and one that cannot go on has closed its channel and been read to the end |
| Sweep.CountedIsExact | internal/presence/presence.go:441-461 | in any run, once every port is counted, all are reported unreachable exactly if each probe found it so |
| Sweep.TruthfulIff | internal/presence/presence.go:404-461 | over all sweeps of n ports that end, a report of all unreachable is sure to be true of every probe exactly if n is one or the caller does not cancel |
| Sweep.ExactIff | internal/presence/presence.go:404-461 | over all sweeps that end, all are sure to be reported unreachable whenever every probe found it so, and only then, exactly if the caller does not cancel |
| Sweep.PartialCount | internal/presence/presence.go:426-434 | for every n of at least two, a cancelled run in which one port is unreachable, one is silent and dropped, and all are reported unreachable |
| Sweep.NoCount | internal/presence/presence.go:426-434 | for every n, a cancelled run in which every probe found its port unreachable and every result is dropped |
| Versions.SplitPreRelease | internal/updater/updater.go:209-214 | the version is cut at its first hyphen |
| Versions.ComparePreRelease | internal/updater/updater.go:186-207 | the first differing identifier decides, then the number of identifiers |
| Versions.CompareBases | internal/updater/updater.go:149-171 | the first differing number decides, missing numbers being zero |
| Versions.CompareVersions | internal/updater/updater.go:131-181 | it computes the order of which the next rows speak |
| Versions.IdsPreorder | internal/updater/updater.go:186-207 | identifiers are totally preordered: numbers before words |
| Versions.OrderOpposite | internal/updater/updater.go:131-214 | on all strings, swapping the versions negates the answer |
| Versions.OrderTransitive | internal/updater/updater.go:131-214 | on all strings, the order is transitive, strictly where either step is strict |
| SemVer.FittingAgree | internal/updater/updater.go:131-214 | versions that fit are ordered as Semantic Versioning 2.0.0, section 11, orders them |
| SemVer.Misfit | internal/updater/updater.go:159-195 | every version that does not fit is ordered wrongly against some version that does |
| SemVer.AgreesIff | internal/updater/updater.go:131-214 | a version compares as the standard says with all that fit exactly if it fits itself |
| SemVer.HyphenIsNotMinus | internal/updater/updater.go:186-207 | for every n > 0 that fits an int, 1.0.0--n comes before 1.0.0-0 in the code and after it in the standard |
| SemVer.TagIsCleaned | internal/updater/updater.go:121-127 | a printed version between blanks and after a v or V is ordered as the version |
| SemVer.NumberIs | internal/updater/updater.go:159-190 | digits are read as the number they make, with a sign or not, up to the bounds of a 64-bit int |
| SemVer.MissingIsZero | internal/updater/updater.go:157-171 | numbers that are missing count as zero |
| SemVer.WordIsZero | internal/updater/updater.go:159-164 | so do parts that do not start like numbers |
| SemVer.BlankIsLeast | internal/updater/updater.go:135-143 | a blank version comes before every other |
| Zip.FindEnd | internal/updater/zip_limits.go:14-28 | the end record is the last one within the searched tail, or there is none |
| Zip.ReadWide | internal/updater/zip_limits.go:33-50 | the zip64 record is used only if the locator leads to one within the archive |
| Zip.ReadDirectory | internal/updater/zip_limits.go:20-51 | which directory the archive declares, if its comment fits |
| Zip.CountZipDirectory | internal/updater/zip_limits.go:74-90 | the walk's verdict, without reading out of range |
| Zip.CountedIff | internal/updater/zip_limits.go:74-90 | a walk is accepted exactly if it is a chain of at most so many whole records |
| Zip.PreflightZipDirectory | internal/updater/zip_limits.go:13-72 | the preflight's verdict on any bytes |
| Zip.AcceptedFrom | internal/updater/zip_limits.go:74-90 | a walk over n whole records is accepted under exactly the limits of at least n |
| Zip.AcceptedIff | internal/updater/zip_limits.go:52-72 | accepted exactly if the declared number of records is within the limit, the declared directory lies within the archive, and the chains from both the derived start and the declared offset hold at most so many records |
| Zip.WellFormedIff | internal/updater/zip_limits.go:13-90 | a well-formed archive, given byte by byte, with any comment, is accepted exactly if it has at most so many entries, and refused as too large otherwise |
| Zip.WideIff | internal/updater/zip_limits.go:33-50 | so is one whose numbers are in a zip64 record behind its locator |
| Zip.CutShort | internal/updater/zip_limits.go:20-22 | an archive whose comment is cut off is refused |
| Zip.NoEnd | internal/updater/zip_limits.go:26-28 | and one without an end record |
| Zip.LostRecord | internal/updater/zip_limits.go:36-46 | and one whose zip64 locator leads to no record, or to another disk |
| Zip.CutRecord | internal/updater/zip_limits.go:74-90 | and a walk that comes to a record that is cut off |
| Budgets.ExpansionReader.Read | internal/updater/limits.go:55-73 | what was handed out and what remains always add up to the budget, and too large is reported only when the stream is longer |
| Budgets.ReadMany | internal/updater/limits.go:50-73 | any reads with any buffer sizes hand out a prefix of the stream within the budget |
| Budgets.ReadOut | internal/updater/limits.go:50-73 | read to the end, and unless the reader fails, the end comes exactly if the stream is within the budget, after all of it; otherwise too large comes after exactly the budget |
| Budgets.SizesWithin | internal/updater/updater.go:675-681 | in 64 bits, without wrapping, it accepts exactly the sizes whose mathematical sum is within the limit |
| Budgets.ReadBoundedBinary | internal/updater/limits.go:35-47 | whatever chunks the reader delivers, at most limit + 1 bytes are taken; unless the reader fails, the stream is returned whole if it is not empty and within the limit and refused otherwise |
| Checksum.ReadLine | internal/updater/checksum.go:96-110 | a line is blank, malformed, or names one file with one digest |
| Checksum.LineSaysIff | internal/updater/checksum.go:96-110 | a line says a name and a digest exactly if it is 64 hex digits, a space, a space or an asterisk, and the name, up to a carriage return |
| Checksum.AcceptableIff | internal/updater/checksum.go:94-110 | a line is accepted exactly if it has at most 65535 bytes and is blank or says something |
| Checksum.DecodedAt | internal/updater/checksum.go:103-106 | each byte of the digest is two hex digits in either case, the high one first |
| Checksum.ChecksumForAsset | internal/updater/checksum.go:91-126 | a digest is returned exactly if every line is blank or well formed, no name repeats, and a line names the asset with it |
| Checksum.LookupUndoesPrint | scripts/package.sh:35 | for printed manifests with distinct plain names lookup returns exactly the printed digests |
| Replace.Stage | internal/updater/updater.go:795-826 | staging the new bytes touches nothing but the temporary file, whatever fails |
| Replace.ReplaceExecutable | internal/updater/updater.go:770-846 | every state in between has the target untouched or whole, it succeeds exactly if none of the six operations fails, and an error leaves everything but the temporary file as it was |
| Replace.Swap | internal/updater/updater.go:828-838 | between the renames the old executable is in place or under its old name, and which of them fail decides where it ends up |
| Replace.ReplaceOnWindows | internal/updater/updater.go:770-846 | an error leaves the target as it was exactly unless, in the schedule of faults, the installing and the put-back rename both fail after all before them succeeded |
| Replace.StrandedDisk | internal/updater/updater.go:828-838 | on a disk where those two renames fail the error leaves no executable, only its copy |
| WakeRoute.InheritedRelay | internal/tui/state_helpers.go:81-87 | the loop over the listed sites finds the relay a machine inherits |
| WakeRoute.RouteTarget | internal/tui/state_helpers.go:204-228 | the loop finds the destination and port that the service defaults to |
| WakeRoute.RelayCapability | internal/tui/state_helpers.go:98-115 | the loop over the listed relays judges the machine's relay |
| WakeRoute.WakeCapability | internal/tui/state_helpers.go:80-127 | with the lists equal to the store it is the preview of which the next rows speak |
| WakeRoute.ReadyIsTaken | internal/wake/service.go:83-153 | a machine shown as ready passes every check of the service along the same route |
| WakeRoute.ReadyIff | internal/wake/service.go:83-153 | it is shown as ready exactly if those checks pass and the port, or the relay's SSH settings, are usable |
| WakeRoute.RefusedIsBlocked | internal/wake/service.go:83-153 | what the service refuses is shown as blocked, for the same reason unless the MAC is bad as well |
| WakeRoute.RouteIs | internal/wake/service.go:83-133 | the machine's own relay, address and port come before its site's, and those before the broadcast address and port 9; which route or refusal follows |
| WakeRoute.ChecksPassIff | internal/wake/service.go:136-154 | a wake goes ahead exactly if the machine is enabled or forced, its MAC is valid and its route resolves |
| WakeRoute.ReadyExactly | internal/tui/state_helpers.go:80-127 | the terminal shows a machine as ready exactly if it is enabled, its MAC is valid, and the relay or the destination and port are in order |
| Args.ReadingSound | cmd/wol/cmd_tui.go:41-57 | what a flag set reads depends only on the arguments it consumes |
| Args.WithEquals | cmd/wol/cmd_tui.go:44-47 | a flag with an equals sign has what follows it for its value, after one dash or two |
| Args.WithoutEquals | cmd/wol/cmd_tui.go:44-47 | a switch alone is true, any other flag takes the next argument whatever it is, and must have one |
| Args.NoName | cmd/wol/cmd_tui.go:44-47 | three dashes, or an equals sign after the dashes, is an error |
| Args.Parse | cmd/wol/cmd_tui.go:44-47 | one pass of the flag parser: it stops before the first positional or after the terminator |
| Args.ParseInterspersed | cmd/wol/cmd_tui.go:41-57 | the loop terminates with the settings and positionals of which the next rows speak |
| Args.SafeIff | cmd/wol/cmd_tui.go:38-57 | it reads a line as the one-pass grammar does exactly if no flag takes the terminator as its value before positionals that flags or another terminator follow |
| Args.CanonicalLine | cmd/wol/cmd_tui.go:38-57 | moving the positionals behind all flags and a terminator gives the grammar's reading, safe line or not |
| Args.PlainLineIff | cmd/wol/cmd_tui.go:38-57 | moving them behind the flags without a terminator does so exactly if none looks like a flag, or the last flag takes the terminator and the first positional does not |
| Args.DashesAsValue | cmd/wol/cmd_tui.go:52-54 | a line on which the two differ |

## Left out

- Time stamps, SQL text, migrations, JSON encoding and the format of IDs: a table is a map, and fresh IDs are an injective supply.
- `Check` and `Wake` of the fleet: an operation returns any status and detail, and is assumed to return; per-site timeouts are not part of the state.
- Panics inside an operation or a probe.
- The caller's `group.DeviceIDs`, which Import rewrites in place: files are values here, so importing twice means importing the decoded file twice.
- `CreateDevice`, `CreateGroup` and the other single-row forms: they check no references, so no reference invariant holds across them.
- The order of exported rows: Export lists them in any order, and the theorems hold for every order.
- Row IDs of profiles beyond their being fresh, and the wake and power attempt logs.
- net.ParseIP, net.ParseCIDR, wol.ParseMAC and the host and resolution patterns: a `Net` value answers for them, with the laws in `Lawful` where a theorem needs them; its hint test stands for the length and line-break rules of user hints.
- strings.ToLower and strings.EqualFold outside ASCII, and any Unicode encoding: strings are sequences of characters.
- Concurrent transactions: SQLite has one connection here, and the checks that DeleteSite and DeleteWakeRelay make before their transaction are one step with it.
- The clock as a physical one: it is a number that never goes back.
- `ProbeBatch`, `Summarize` and the decision table of `Probe`: counting and cases without interplay beyond the sweep's.
- Native desktop clients of Open, wake-before-open, and a session that ends on its own: they leave nothing for the manager to own.
- 64-bit wrap-around of batch numbers and cache call numbers.
- The Go ZIP reader after the preflight, tar archives, and the names under which binaries are found.
- The network interface of a wake route, which no decision depends on.
- Symbolic links, permissions, fsync and the `.old` clean-up at the next start in the replacement of the executable; the temporary file's name is assumed to be unused.
- Sockets, ARP, ping, SSH, Docker, Moonlight, HTTP, key storage, signatures and terminal rendering.
- Fleet.NoStartAfterCancel: does not promise that nothing starts once the context is cancelled, because the code's check and call are two steps; Fleet.AtomicCheckStartsNothing has the one-step reading and LateStarts.EverySlotStartsLate the run that fails.
- Checksum.ChecksumForAsset: takes the test for a blank line as a parameter, because strings.TrimSpace decodes UTF-8; LookupUndoesPrint assumes only that visible ASCII is not blank.
