# OFCIR, modelled and verified

OFCIR keeps pools of CI machines. Two Kubernetes controllers look after the
custom resources CIResource and CIPool, a small HTTP API lets CI jobs acquire
and release a resource, and providers hand out the machines. This project
models these parts in Dafny and proves what they keep together.

The model has three layers.

* **Objects that change in place.** `CirFsm.CIResourceFSM`,
  `CirController.CIResourceReconciler`, `PoolController.CIPoolReconciler`,
  `AcquireCommand.AcquireCmd`, `ReleaseCommand.ReleaseCmd`,
  `Dummy.DummyProvider`, `Equinix.EquinixProvider` and `Aws.AwsProvider` follow
  the Go code: the same fields, branches, loops, early returns and constants,
  working on an `ApiServers.ApiServer`. Every method is proved against a
  function of the state before (`Handle`, `Persist`, `PoolPass`, `Serve`,
  `Search`, ...).
* **Theorems about those functions**: which edge a pass takes, which members an
  eviction labels, which resource a request gets, where a launch ends up.
* **One transition system**, `OfcirSystem`: the API server with resource
  versions, a status subresource and finalizers, both controllers, any number
  of requests working from reads as old as they like, administrators, and a
  provider. Updates may be refused, may not arrive, or may take effect and be
  reported as failed. The safety, conservation, drain and timing theorems
  quantify over every run of it. Lemmas show that the reconciler, the pool
  pass, the acquire search and the release command are such runs.

Every object has a history of events in the system (granted, freed, expired,
entered a state, cleaned, returned, vanished). `Histories` folds a history into
a small record and proves that each flag of the record means the property
written with quantifiers over the history; `Lifecycle` proves the inductive
invariant over objects, records, snapshots and pools.

Reads of requests and of the pool controller are separate steps, so they may be
stale. The CIResource controller reads, calls the provider and writes in one
step; a write of it that another write overtakes is one that does not arrive.
`Config` says which premises a run has: whether Spec.State is edited by hand,
whether the provider hands out ids again, whether it takes a Release of what it
has not handed out for done, whether a List may fail.

## What the code does not give

Some properties one might expect are false of the code. Each has a lemma with
a run or an input that shows it, next to the exact or the sufficient condition:

* the drain branch of the pool controller goes on after a failed List
  (`PoolGuard.FailedListOrphans`); a member can be orphaned if and only if a
  List may fail (`PoolGuard.OrphansIffListsFail`);
* a lost write after a Release lets two resources share a machine when the
  provider hands the id out again before that pass is repeated
  (`Ledger.LostReleaseShares`, reached by a run from the empty system in
  `LostRelease.SharedMachineIsReachable`); the books balance throughout a run if and only
  if that does not happen, and always with a provider that never reissues an id
  (`Ledger.Conservation`);
* two kinds of members block a drain: one that is in use while its Spec asks
  for neither use nor release, and one whose Release worked but whose write was
  lost, with a provider that refuses to release a machine twice
  (`Dangling.DanglingForever`, reached in `LostRelease.BlockedMemberIsReachable`;
  Equinix is such a provider, `Equinix.ReleasedIsRefused`). The controllers can
  finish a drain, and every fair run finishes it, if and only if no member is
  blocked (`DrainRuns.DrainsIffNothingBlocked`,
  `DrainRuns.FairRunsDrainIffNothingBlocked`). Both take it that what else the
  provider is asked works in the end; a provider that refuses an Acquire for good,
  as Equinix does while lost devices fill the pool
  (`Equinix.LeakedDevicesRefuseAll`), keeps a member from getting on as well;
* a second eviction pass labels beyond the excess
  (`PoolTheorems.SecondPassOverEvicts`); how many members any pass leaves, and
  exactly when enough stay, is `PoolTheorems.ExactlySoManyStay`;
* names sort by numeral up to 9999 and no further (`Names.SortsAlikeIffNarrow`);
* the AWS guard counts running instances of the configured regions only, so it
  is no cap (`Aws.GuardMissesPending`); it is one exactly when the counts cover
  the whole pool (`Aws.GuardCapsIffAllCounted`), and over runs the excess is what
  an Acquire failed to see (`Aws.InstanceCap`). The Equinix guard is a cap, up to
  what a single Acquire leaves behind errors (`Equinix.DeviceCapHolds`,
  `Equinix.UnheardReachesCap`);
* the acquire command takes every negative priority for a fallback pool, the
  state machine only -1; they agree exactly when no priority is below -1
  (`AcquireCommand.FallbackNotionsAgree`).

Where code and documentation disagree the model follows the code:

* docs/cir-states.dot draws edges back from "provisioning wait" to
  "provisioning" and from "clean wait" to "cleaning"; no event takes them;
* api/v1/cipool_types.go:35 says that an offline pool cannot be selected when
  looking for a resource; the acquire command does not look at the pool's state;
* api/v1/ciresource_types.go:61 describes an error state; nothing ever enters it.

## Model

| member | source | states |
|---|---|---|
| Api.IdsAreStrings | controllers/ciresource_fsm.go:16 | The empty string and the dummy id name no machine, every other string does, and storing ids as strings confuses none |
| Api.AcceptedUpdateIsFresh | api/v1/ciresource_types.go:125 | An Update is accepted exactly when its version is the stored one, the same request is never accepted twice, status is a subresource it cannot change, and a refused request changes nothing |
| ApiServers.ApiServer.ListCirs | controllers/cipool_controller.go:170 | A list holds every stored object exactly once, in an order of the server's own |
| CirFsm.TableFollowsDiagram | docs/cir-states.dot:13-27 | Every registered transition joins two registered states and is an edge of the documented diagram |
| CirFsm.RegistrationIsTable | controllers/ciresource_fsm.go:28-66 | The registered transitions of a state are exactly those of the table |
| CirFsm.LookupsSucceed | controllers/ciresource_fsm.go:342-377 | In a registered state neither the state lookup nor any event lookup fails; a failed pass leaves the object and both flags alone; at most one provider call is made |
| CirFsm.PersistedHalfIsAll | controllers/ciresource_fsm.go:71-254 | The two dirty flags are never both raised, and the half of the object that will not be written is unchanged in memory |
| CirFsm.StatusWriteIsOneEdge | controllers/ciresource_fsm.go:368-389 | A pass raises the status flag exactly when it moves the state, and then along one edge of the diagram |
| CirFsm.MainWrites | controllers/ciresource_fsm.go:391-395 | Exactly when each of the three spec/metadata writes is asked for, and what it is: finalizer on in None, finalizer off in Delete after a Release that worked or reported not-found (or with the dummy id and no call), Spec back to Available in InUse after the time-out |
| CirFsm.WhenProvisioningIsEntered | controllers/ciresource_fsm.go:71-104 | Exactly when Provisioning and ProvisioningWait are entered, by any object and whatever the provider answers |
| CirFsm.WhenRestIsEntered | controllers/ciresource_fsm.go:85-228 | Exactly when Available, Maintenance and InUse are entered |
| CirFsm.WhenTheEndIsEntered | controllers/ciresource_fsm.go:126-208 | Exactly when Cleaning, CleaningWait and Delete are entered |
| CirFsm.CIResourceFSM.constructor | controllers/ciresource_fsm.go:21-69 | The machine starts with exactly the nine states registered, their rows right, and clean flags |
| CirFsm.CIResourceFSM.BuildRow | controllers/ciresource_fsm.go:316-318 | The row built from any list of transitions maps exactly the listed events, each to the target it was last given |
| CirFsm.RegisteredRow | controllers/ciresource_fsm.go:28-66 | The row of a registered state answers every lookup as the table does |
| CirFsm.CIResourceFSM.State | controllers/ciresource_fsm.go:309-322 | Registering any state adds or replaces its row and leaves the others |
| CirFsm.CIResourceFSM.TriggerEvent | controllers/ciresource_fsm.go:368-389 | Moves the status state and raises the status flag; the two error cases change nothing |
| CirFsm.CIResourceFSM.UpdateResourceOnly | controllers/ciresource_fsm.go:391-395 | Raises the resource flag only |
| CirFsm.CIResourceFSM.HandleStateNone | controllers/ciresource_fsm.go:71-83 | Object, flags, calls, delay and error are those of the verdict for None |
| CirFsm.CIResourceFSM.HandleStateProvisioning | controllers/ciresource_fsm.go:85-104 | The same for Provisioning |
| CirFsm.CIResourceFSM.HandleStateProvisioningWait | controllers/ciresource_fsm.go:106-124 | The same for ProvisioningWait |
| CirFsm.CIResourceFSM.HandleStateAvailable | controllers/ciresource_fsm.go:126-145 | The same for Available |
| CirFsm.CIResourceFSM.HandleStateMaintenance | controllers/ciresource_fsm.go:147-164 | The same for Maintenance |
| CirFsm.CIResourceFSM.HandleStateInUse | controllers/ciresource_fsm.go:166-185 | The same for InUse |
| CirFsm.CIResourceFSM.HandleStateCleaning | controllers/ciresource_fsm.go:187-208 | The same for Cleaning |
| CirFsm.CIResourceFSM.HandleStateCleaningWait | controllers/ciresource_fsm.go:210-228 | The same for CleaningWait |
| CirFsm.CIResourceFSM.HandleStateDelete | controllers/ciresource_fsm.go:230-254 | The same for Delete |
| CirFsm.CIResourceFSM.Process | controllers/ciresource_fsm.go:329-366 | A pass of the machine leaves the object, the flags, the provider calls and the answer that the verdict for its state says |
| Addresses.AcquiredIsStored | controllers/ciresource_fsm.go:94-103 | After a landed pass that acquired, the server's copy is in ProvisioningWait with the answered id and the pool's provider info, stamped, the rest as it was |
| Addresses.ReadyIsStored | controllers/ciresource_fsm.go:113-119 | After a landed pass over a machine that is ready, the server's copy is Available with exactly the answered address and metadata, under the same id |
| Addresses.EmptiedIsStored | controllers/ciresource_fsm.go:190-203 | After a landed cleaning pass a fallback object has the dummy id and no address, extra data or provider info |
| Addresses.OtherwiseOnlyStateMoves | controllers/ciresource_fsm.go:126-254 | Every other pass moves nothing of the status but the state and the stamp |
| Addresses.CallsAreAboutTheObject | controllers/ciresource_fsm.go:85-254 | A pass asks at most one thing: Acquire with the pool's size, name and type, or something about the machine the object names, each in its own state |
| Addresses.ReconcileReports | controllers/ciresource_controller.go:68-87 | A reconcile reports an error exactly when the pass failed or its write was not answered with success, and comes back at once, in 30 or in 60 seconds |
| Addresses.NoMachineNoTrace | controllers/ciresource_fsm.go:199-203 | In every run an object that names no machine carries no address, extra data or provider info of one |
| Addresses.AddressIsTheMachines | controllers/ciresource_fsm.go:114-115 | In every run driven by the dummy, an available or used object carries the address and metadata that the provider has for the machine it names |
| CirController.PersistStoresVerdict | controllers/ciresource_controller.go:69-76 | Writing one half stores exactly the object the machine had in memory, plus the stamp; the write fails only by not being delivered |
| CirController.OnlyStateAndFinalizerMove | controllers/ciresource_fsm.go:71-254 | A pass touches no identity, label, deletion mark or other part of Spec |
| CirController.CIResourceReconciler.UpdateResource | controllers/ciresource_controller.go:115-117 | One Update of the object in memory |
| CirController.CIResourceReconciler.UpdateStatus | controllers/ciresource_controller.go:119-124 | Stamps the status, then one status update |
| CirController.CIResourceReconciler.Reconcile | controllers/ciresource_controller.go:48-113 | An object that is missing or cannot be read is no error; a pool that is missing, or a pool or secret that cannot be read, is; otherwise server, provider and result are those of one verdict persisted |
| OfcirSystem.SwapIsUpdate | pkg/server/commands/acquire.go:152 | The compare-and-swap of the runs is the server's Update |
| OfcirSystem.ReconcileStepIsReconcile | controllers/ciresource_controller.go:69-76 | The reconcile step of the runs is the reconciler's write |
| OfcirSystem.DeleteStepIsDelete | controllers/cipool_controller.go:266 | The delete step of the runs is the server's delete |
| Histories.LeaseOkMeans | pkg/server/commands/acquire.go:147-168 | The lease flag of a history's record means that two grants have a release or a time-out between them |
| Histories.CleanOkMeans | controllers/ciresource_fsm.go:187-228 | The tenants flag means that a tenancy with a machine is settled before the next availability |
| Histories.ReprovisionOkMeans | controllers/ciresource_fsm.go:173-175 | The loop flag means one re-provisioning per lease |
| Histories.KeepOkMeans | controllers/ciresource_fsm.go:230-254 | The machines flag means that every recorded machine was given back before the object vanished |
| Histories.WalkOkMeans | docs/cir-states.dot:13-27 | The walk flag means that consecutive entries join up along diagram edges from None |
| Histories.ExpiryOkMeans | controllers/ciresource_fsm.go:177-181 | The expiry flag means that a time-out comes strictly after entry plus Timeout |
| Histories.BookStateIsLatest | controllers/ciresource_controller.go:119-124 | The record carries the latest committed entry |
| Lifecycle.AcceptedMeansUnchanged | pkg/server/commands/acquire.go:137-168 | When an update built from an old read is accepted, the stored object is the one that was read |
| Lifecycle.AcquireKeeps | pkg/server/commands/acquire.go:143-152 | A grant keeps the object sound |
| Lifecycle.ReleaseKeeps | pkg/server/commands/release.go:55-64 | A release keeps the object sound |
| Lifecycle.ReconcileKeeps | controllers/ciresource_fsm.go:71-254 | Every landed pass, from every state and whatever the provider answers, leaves a sound object or a vanished one with its record in order |
| Lifecycle.IsGuarded | controllers/ciresource_fsm.go:71-83 | Past None, with a machine or under deletion, an object has its finalizer; Delete means deletion was asked for |
| Lifecycle.StepKeeps | controllers/ciresource_controller.go:48-87 | Every step of the system keeps the invariant over objects, histories, pools, snapshots and the pool pass |
| Lifecycle.RunKeeps | controllers/ciresource_controller.go:48-87 | So does every run |
| Safety.ReconcileIsOneStep | controllers/ciresource_controller.go:69-76 | From every reachable state a reconcile fails only in the provider, marks at most one half, and leaves on the server the object as it was, a spec or metadata change, or exactly one edge of the diagram; only a Delete object goes |
| Safety.LeaseExclusion | pkg/server/commands/acquire.go:137-168 | Over every interleaving, with stale reads and updates that report an error after taking effect, no resource is granted twice unless a release or the time-out put its Spec back in between |
| Safety.CleanedBetweenTenants | controllers/ciresource_fsm.go:166-228 | In every run, with arbitrary Spec edits, a resource that was in use with a machine is available again only after Clean and then CleanCompleted for that id, or, in a fallback pool, after a Release that worked or reported not-found and the reset to the dummy id |
| Safety.EveryLifeWalksTheDiagram | docs/cir-states.dot:13-27 | The committed states of every object walk the diagram; Delete is entered from Available or Maintenance only; Error is never entered |
| Safety.NothingVanishesWithMachine | controllers/ciresource_fsm.go:230-250 | Every machine an object ever recorded was given back, or found gone, before the object vanished |
| Safety.OneReprovisioningPerLease | controllers/ciresource_fsm.go:173-175 | A fallback resource goes from InUse back to Provisioning at most once per lease |
| Safety.LeaseIsNotCutShort | controllers/ciresource_fsm.go:177-181 | The time-out fires strictly after the stamp plus Timeout |
| Safety.IdleFallbackCostsNothing | controllers/ciresource_fsm.go:89-92 | An available fallback resource nobody asked for has the dummy id and no address; one with a machine is asked for |
| Safety.StampIsTimeOfEntry | controllers/ciresource_controller.go:119-124 | In every reachable state but None the stamp is set and is the time of the latest committed status write |
| Safety.FinalizerGuardsTheMachine | controllers/ciresource_fsm.go:73-79 | Every reachable object is in a registered state; past None or with a machine it has the finalizer; Delete implies deletion requested |
| Safety.RequestsTouchRestingObjectsOnly | controllers/cipool_controller.go:235-249 | Requests and eviction labels change only objects that are Available, InUse, Maintenance or Error at that moment, and never their status |
| LeaseClock.LeaseBound | controllers/ciresource_fsm.go:177-184 | With reconciles of each object in use at most 60 s apart whose writes land, no unreleased lease is older than Timeout plus 60 s |
| Ledger.PassOnAccount | controllers/ciresource_fsm.go:94-103 | Which passes acquire or give back, from which id and to which |
| Ledger.AcquiredBalances | controllers/ciresource_fsm.go:94-100 | A machine may be handed out with the books staying balanced if and only if no object still names it after a Release whose write was lost |
| Ledger.StepBalances | controllers/ciresource_fsm.go:187-254 | A step of the system keeps the books balanced if and only if it hands out no such machine |
| Ledger.Conservation | controllers/ciresource_fsm.go:187-254 | At every moment of a run no two resources name one machine and what is handed out is what is named and not dangling plus the Acquires whose write was lost, if and only if no such machine is handed out; with a provider that never reissues an id that is every run |
| Ledger.ExactConservation | controllers/ciresource_fsm.go:94-103 | When the writes after Acquire and Release land, the machines handed out are exactly those that live resources name |
| Ledger.LostReleaseShares | pkg/providers/dummy.go:86-96 | The condition can fail: one lost write after a Release and a reissued id let two resources share a machine |
| PoolGuard.NoCirOutlivesItsPool | controllers/cipool_controller.go:75-117 | In every run without List failures, every resource's pool exists and has its finalizer |
| PoolGuard.FailedListOrphans | controllers/cipool_controller.go:88-114 | A failed List in the drain branch lets any pool under deletion go while it has members |
| PoolGuard.OrphansIffListsFail | controllers/cipool_controller.go:88-114 | From every reachable world with no pass under way, a member of a pool under deletion can be orphaned if and only if a List may fail |
| Drain.PassLowersRank | controllers/ciresource_fsm.go:71-254 | Every landed pass over any object lowers its rank or ends it |
| Drain.StepDescends | controllers/cipool_controller.go:86-117 | While a pool drains and no pass is under way that read it before its deletion, no step but grants from it and edits of its members raises its rank, whatever happens to other pools, and every step that changes a member or removes the pool lowers it |
| Drain.DrainIsBounded | controllers/cipool_controller.go:86-117 | However steps interleave, the productive steps of a draining run are at most the rank at its start |
| Drain.StuckForever | controllers/ciresource_fsm.go:168-184 | A member in use whose Spec is neither Available nor InUse stays so under every controller step |
| Dangling.StepBooks | controllers/ciresource_fsm.go:187-254 | Where no id is reissued the account balances at every step, and a machine that dangles is named by an object in Delete, or in Cleaning in a fallback pool |
| Dangling.DanglingForever | controllers/ciresource_fsm.go:230-254 | With a provider that refuses to release a machine twice, an object whose Release worked and whose write was lost stays as it is in every run, whatever anybody does |
| LostRelease.SharedMachineIsReachable | controllers/ciresource_fsm.go:242-249 | A run from the empty system in which one lost write after a Release and one reissued id make two objects name one machine |
| LostRelease.BlockedMemberIsReachable | controllers/ciresource_fsm.go:242-249 | A run from the empty system in which one lost write after a Release blocks a member, which is not stuck, for ever |
| FairDrain.DutyLowers | controllers/cipool_controller.go:86-117 | A helped pass over a member whose lease is over, a label, a deletion mark, and taking the finalizer off an empty pool each lower the rank when they are owed and land |
| FairDrain.AttendedRunDrains | controllers/cipool_controller.go:86-117 | Every draining run, whatever else goes on in it, has at most as many such steps as the rank, and with that many it ends with the members and the pool gone |
| FairDrain.StepKeepsDrainable | controllers/ciresource_fsm.go:168-184 | While a pool drains, and what its members give back to a provider that refuses a second Release is recorded, no member gets blocked |
| FairDrain.RoundLowers | controllers/cipool_controller.go:86-117 | A stretch of a run in which nothing owed from beginning to end is left undone lowers the rank: what is owed stays owed until something productive happens |
| FairDrain.FairRunDrains | controllers/cipool_controller.go:86-117 | Every fair run of as many such stretches as the rank ends drained, where what members give back to a provider that refuses a second Release is recorded |
| FairDrain.FairRunEnds | controllers/cipool_controller.go:86-117 | Without that premise every such run ends drained or with a member blocked by such a lost write |
| DrainRuns.ControllersSettle | controllers/cipool_controller.go:86-117 | From every sound world the controllers alone can go on until the drain is done or only blocked members are left |
| DrainRuns.FairRunExists | controllers/cipool_controller.go:86-117 | There are fair runs of the controllers of any length from every such world |
| DrainRuns.FairRunsDrainIffNothingBlocked | controllers/cipool_controller.go:86-117 | From every reachable world whose lists work, every fair run of the whole system, in which what members give back to a provider that refuses a second Release is recorded, drains the pool, members first, if and only if no member is blocked |
| PassDuties.WorkingPassDoesDuties | controllers/cipool_controller.go:86-117 | One working pass over a pool under deletion does every label, mark and finalizer that was owed, and leaves no label and no mark owed |
| DrainRuns.DrainsIffNothingBlocked | controllers/cipool_controller.go:86-117 | From every reachable world the controllers can bring a pool under deletion to its end, members first, if and only if no member is stuck and none names a machine that a provider which refuses a second Release has taken back |
| Names.NumeralOfCirName | controllers/cipool_controller.go:299-304 | Reading the number after the last dash undoes writing cir-%04d, for every numeral in range, also wider than four digits |
| Names.NamesLookSo | controllers/cipool_controller.go:279 | Numeral 7 is cir-0007, 12345 is cir-12345 |
| Names.HighestIsMaximum | controllers/cipool_controller.go:295-315 | The highest numeral bounds every well-formed name's and is one of them or 0 |
| Names.GetHighestResourceNumeral | controllers/cipool_controller.go:295-315 | The loop computes that highest numeral, skipping malformed names |
| Names.FreshNames | controllers/cipool_controller.go:206-209 | Whatever the existing names, the new ones differ from them and from each other |
| Names.PaddedOrder | controllers/cipool_controller.go:279 | For every width, zero-padded decimals that fit compare as strings exactly as they do as numbers |
| Names.NamesSortByNumeral | controllers/cipool_controller.go:176-178 | Up to 9999 the name order is the numeral order |
| Names.SortsAlikeIffNarrow | controllers/cipool_controller.go:231-232 | Names up to a numeral sort as the numerals do if and only if it is at most 9999 |
| Names.FirstWideNameSortsEarly | controllers/cipool_controller.go:279 | For every width the first number that does not fit sorts before the last that does |
| Names.WideNamesSortWrong | controllers/cipool_controller.go:231-232 | So 10000 counts as older than 9999 |
| Sorting.SortSorts | controllers/cipool_controller.go:176-178 | The stable sort sorts and loses nothing |
| Sorting.SortIsStable | pkg/server/commands/acquire.go:107-115 | Elements that tie keep their order |
| PoolController.CIPoolReconciler.Reconcile | controllers/cipool_controller.go:60-165 | One reconcile leaves server and result as `PoolPass` says, for some list the server may return and any fate of each request |
| PoolController.CIPoolReconciler.ManageCIResourcesFor | controllers/cipool_controller.go:167-224 | The same for the resizing, with the error of the last creation only |
| PoolController.CIPoolReconciler.DeleteCIResources | controllers/cipool_controller.go:226-273 | The same for the eviction loop and the batch delete; skipped members do not reach the check that enough are selected |
| PoolController.CIPoolReconciler.CreateCIResource | controllers/cipool_controller.go:275-293 | One Create of a member of the pool with the numeral's name |
| PoolController.CIPoolReconciler.SavePoolStatus | controllers/cipool_controller.go:317-322 | Stamps the pool status, then one status update |
| PoolController.CIPoolReconciler.Filter | controllers/cipool_controller.go:91-96 | The members among a list, in its order |
| PoolTheorems.SortedListing | controllers/cipool_controller.go:176-186 | Sorting and filtering a list gives the pool's stored members, each once, by name |
| PoolTheorems.SelectionWalks | controllers/cipool_controller.go:232-264 | The loop walks down to a cut: the eligible members from there on whose update lands carry the label on the server afterwards, those whose update is accepted are counted, nothing else is written, and it stops early only when the excess is made up |
| PoolTheorems.EvictionPass | controllers/cipool_controller.go:226-264 | At most the excess is selected, all unlabelled and Available, Maintenance or Error; no eligible later member is passed over unless its update failed; fewer only if every eligible one was tried; the selected ones carry the label on the server |
| PoolTheorems.EnoughStay | controllers/cipool_controller.go:226-273 | After a pass at least the target less earlier labels and unheard updates stay unlabelled |
| PoolTheorems.ExactlySoManyStay | controllers/cipool_controller.go:226-273 | Where no answer is lost a pass takes exactly the excess, or all it can have, from the unlabelled members; at least the target stay if and only if the earlier labels and the ones it adds are together no more than the excess |
| PoolTheorems.SecondPassOverEvicts | controllers/cipool_controller.go:241-243 | A second pass skips the labelled member without counting it and labels another: a pool that should keep one member keeps none |
| PoolTheorems.GrowAdds | controllers/cipool_controller.go:206-215 | The creation loop adds exactly the members whose creation reaches the server, newborn and with the given spec, and touches nothing else |
| PoolRuns.ScaleUpConverges | controllers/cipool_controller.go:188-223 | A pass that finds too few members ends at Spec.Size less the creations that did not arrive, never above |
| PoolRuns.DeficitShrinks | controllers/cipool_controller.go:203-215 | The deficit shrinks exactly when a creation arrives |
| PoolRuns.NothingLeftToDo | controllers/cipool_controller.go:189-199 | A pass over a settled pool changes nothing exactly when Spec.Size, Status.Size and the number of members agree |
| PoolRuns.ThreePassesConverge | controllers/cipool_controller.go:188-223 | One pass brings a settled pool to its size, the next records it, the third is a no-op |
| PoolSettling.FirstPassProtects | controllers/cipool_controller.go:76-85 | A pass over a live pool without its finalizer puts it on and does nothing else |
| PoolSettling.NextPassSyncs | controllers/cipool_controller.go:120-132 | The next takes over Spec.State as Status.State, with the rest of the pool and all members as they were; an invalid state is an error and changes nothing |
| PoolSettling.OfflinePoolRests | controllers/cipool_controller.go:135-138 | An offline pool rests for a minute, untouched |
| PoolSettling.UnreadablePassChangesNothing | controllers/cipool_controller.go:64-73 | A pool, secret or list that cannot be read ends the pass without a change, each with its own answer |
| PoolSettling.GrowReports | controllers/cipool_controller.go:208-215 | The loop counts the creations it is told of and keeps the error of the last one only |
| PoolSettling.ScaleUpReports | controllers/cipool_controller.go:153-164 | A pass that adds members fails exactly when the last creation did, and otherwise comes back in a second or, with nothing to add, in a minute |
| PoolSettling.ScaleDownLeaves | controllers/cipool_controller.go:216-221 | A whole pass over a pool with too many members evicts towards Spec.Size: the exact number left, and the answer of the pass |
| PoolSettling.DrainReports | controllers/cipool_controller.go:98-117 | The answer of a pass over a pool under deletion: ten seconds while members are listed and the batch delete is answered |
| PoolSettling.NewestGoFirst | controllers/cipool_controller.go:231-232 | Up to 9999 no member is labelled before one with a higher numeral that might have been, unless the update of that one failed |
| PoolSettling.PassesSettle | controllers/cipool_controller.go:75-132 | Reliable passes settle any live pool with a valid state, one step each, and touch no member |
| PoolSettling.PassesConverge | controllers/cipool_controller.go:75-223 | From creation on, reliable passes protect the pool, take over its state, bring it to its size and record that, or leave an offline one alone; then a pass changes nothing |
| PoolRuns.FinalizerGoesLast | controllers/cipool_controller.go:98-114 | A pass takes the pool finalizer off if and only if the pool was read and is under deletion, no member is listed or the list could not be had, and the write arrives |
| PoolRuns.NewMembersAreGuarded | controllers/cipool_controller.go:203-215 | A pass makes members only for its own pool, not under deletion and with the finalizer in place |
| PoolRuns.SelectIsRun | controllers/cipool_controller.go:232-264 | The selection loop is a run of labelling steps of the system |
| PoolRuns.GrowIsRun | controllers/cipool_controller.go:208-215 | The creation loop is a run of creating steps |
| PassRefinement.BatchIsRun | controllers/cipool_controller.go:266-270 | The batch delete is a run of single deletes, up to version numbers |
| PassRefinement.PassIsRun | controllers/cipool_controller.go:60-165 | Every whole pass of the pool controller, whatever fails in it, is a run of the system |
| PassRefinement.RunsAreReady | controllers/cipool_controller.go:60-165 | Every reachable world is one such a pass may start from |
| AcquireCommand.AcquireCmd.Run | pkg/server/commands/acquire.go:56-134 | For some lists the server may return and some shuffle, each answer comes under exactly its own condition, a grant names in every field what was granted, and the server is left as the searches leave it |
| AcquireCommand.AcquireCmd.LookForAvailableResource | pkg/server/commands/acquire.go:136-172 | The search loop, with its checks of the context and its updates, is `Look` |
| AcquireCommand.AcquireCmd.FilterPools | pkg/server/commands/acquire.go:68-74 | The map of the pools a request may draw on |
| AcquireCommand.AcquireCmd.Split | pkg/server/commands/acquire.go:89-103 | Default and fallback candidates, in list order |
| AcquireCommand.Contains | pkg/server/commands/acquire.go:42-49 | Whether a type is among the wanted ones |
| AcquireCommand.Shuffle | pkg/server/commands/acquire.go:105 | Any random source gives a permutation |
| AcquireCommand.Context.Err | pkg/server/commands/acquire.go:138-140 | Once expired, a context stays so |
| AcquireCommand.WantedPoolsServe | pkg/server/commands/acquire.go:68-74 | A request draws on exactly the pools of a wanted type its caller may use, offline ones included |
| AcquireCommand.FallbackNotionsAgree | pkg/server/commands/acquire.go:98 | The command's and the machine's notion of a fallback pool agree exactly when no priority is below -1 |
| AcquireCommand.LookFinds | pkg/server/commands/acquire.go:136-172 | A search takes the first obtainable candidate it comes to in time, and changes no other object except through updates reported as failed |
| AcquireCommand.LookStores | pkg/server/commands/acquire.go:150-152 | The object it takes has its Spec in use on the server afterwards, and the status it had |
| AcquireCommand.PriorityOptimalGrant | pkg/server/commands/acquire.go:89-171 | For every shuffle, stale list and pattern of failures at most one resource is granted, and its stored Spec asks for use; its priority is minimal among the obtainable default ones; a fallback only after every default one failed and in time; nobody is turned away in time while something could be had |
| AcquireCommand.RequestIsAnswered | pkg/server/commands/acquire.go:56-171 | The answer of a whole request, field by field: a grant names the listed member granted, its pool and provider, provider info and type; each other answer comes under exactly its own condition |
| AcquireCommand.LookIsRun | pkg/server/commands/acquire.go:136-172 | The search is a run of acquire steps of the system, after which the histories have exactly the grant it answers with |
| ReleaseCommand.ReleaseCmd.Run | pkg/server/commands/release.go:32-74 | Each of the five answers comes under exactly its own condition, and the stored object asks for Available, all else as it was, exactly when it was open to the caller and in use and the write arrived |
| ReleaseCommand.ReleaseEndsTheLease | pkg/server/commands/release.go:50-64 | A release answered with success found the object in use and permitted, and the machine's next pass goes to Cleaning; other answers but a server error change nothing |
| ReleaseCommand.ReleaseIsStep | pkg/server/commands/release.go:55-64 | A release is a step of the system, and the history is told of it exactly when the stored object was written |
| Dummy.DummyProvider.constructor | pkg/providers/dummy.go:23-43 | Ten different instances dummy-0 to dummy-9, each with its address, all free |
| Dummy.DummyProvider.Acquire | pkg/providers/dummy.go:45-56 | Some free instance, which is then not free; an error exactly when none is |
| Dummy.DummyProvider.AcquireCompleted | pkg/providers/dummy.go:58-66 | The instance, or an error for an unknown id |
| Dummy.DummyProvider.Clean | pkg/providers/dummy.go:68-75 | An error exactly for an unknown id, never not-found |
| Dummy.DummyProvider.CleanCompleted | pkg/providers/dummy.go:77-84 | The same |
| Dummy.DummyProvider.Release | pkg/providers/dummy.go:86-96 | Frees the instance by id alone; an unknown id is an error other than not-found |
| Dummy.DummyIsHonest | pkg/providers/dummy.go:45-96 | Whatever it picks, its answers are those the runs allow a provider, and its stock follows the system's account, lost writes included |
| Dummy.DummyRunIsLegal | pkg/providers/dummy.go:45-96 | Every run driven by the dummy is a run of the system |
| Dummy.DummyConserves | pkg/providers/dummy.go:45-96 | Its used instances are exactly the machines live resources name, when the writes after Acquire and Release land |
| Equinix.EquinixProvider.Acquire | pkg/providers/equinix.go:74-120 | The counting loops and the loop over the metros are the guard and the placement |
| Equinix.EquinixProvider.AcquireCompleted | pkg/providers/equinix.go:122-142 | Ready with an address when active, an error when failed or not to be had, otherwise not ready |
| Equinix.EquinixProvider.CleanCompleted | pkg/providers/equinix.go:157-160 | Cleaned exactly when the device is active, not cleaned while it is pending, otherwise an error |
| Equinix.EquinixProvider.Release | pkg/providers/equinix.go:162-167 | Deletes the device; its errors are never not-found |
| Equinix.GuardCountsEnough | pkg/providers/equinix.go:83-90 | The tag count is no less than the number of tagged devices |
| Equinix.GuardCountsExactly | pkg/providers/equinix.go:83-90 | It is that number where no device carries a tag twice, whatever other pools have |
| Equinix.AcquireMakesIff | pkg/providers/equinix.go:77-119 | An Acquire returns a device if and only if the list is to hand, fewer devices than the size carry the tag, and some metro answers with success |
| Equinix.RunTagsOnce | pkg/providers/equinix.go:105 | In every run no device carries a tag twice |
| Equinix.WithoutKeepsOthers | pkg/providers/equinix.go:163 | A Release takes away exactly the devices of its id; the others stay in order and are found as before |
| Equinix.FirstMetroWins | pkg/providers/equinix.go:98-119 | The device comes from the first metro that answers with success, also when earlier creations left devices behind errors; none exactly when no metro answers so |
| Equinix.FindsTheDevice | pkg/providers/equinix.go:127 | A device is found exactly when one of that id is there |
| Equinix.ReleasedIsRefused | pkg/providers/equinix.go:162-167 | Once a device was released, every further Release of it fails, and not as not-found, whatever happens in between short of its id being given out again |
| Equinix.LeakedDevicesRefuseAll | pkg/providers/equinix.go:77-93 | While lost devices fill the pool, every Acquire for it is refused |
| Equinix.DeviceCap | pkg/providers/equinix.go:77-117 | In every run, whatever Acquires leak, the devices tagged with a pool never exceed the largest size used by more than what a single Acquire leaves over its one device |
| Equinix.DeviceCapHolds | pkg/providers/equinix.go:77-117 | So never by more than the number of metros less one, and not at all when failed creations make no device |
| Equinix.UnheardReachesCap | pkg/providers/equinix.go:109-113 | The first cap is reached: one Acquire of size one may leave as many devices as there are metros |
| Aws.AwsProvider.Acquire | pkg/providers/aws.go:395-456 | Calls, cloud and answer are those of `Search` |
| Aws.AwsProvider.CountPoolInstances | pkg/providers/aws.go:398-409 | The sum of the regional counts, or an error if one fails |
| Aws.AwsProvider.Launch | pkg/providers/aws.go:417-455 | The loop over regions, with its abort |
| Aws.AwsProvider.LaunchInRegion | pkg/providers/aws.go:418-452 | The loop over instance types; no subnet aborts |
| Aws.AwsProvider.RunInstanceInRegion | pkg/providers/aws.go:116-185 | The loop over subnets; an answer without an instance id breaks it |
| Aws.AwsProvider.GetTotalAmountOfPoolInstancesInRegion | pkg/providers/aws.go:236-258 | The number of running instances of the pool in the region |
| Aws.AwsProvider.FindInstanceRegion | pkg/providers/aws.go:210-234 | The lookup loop is `FindRegion` |
| Aws.AwsProvider.GetSupportedRegions | pkg/providers/aws.go:521-525 | The region of every place an Acquire may launch in is looked up, at the position it is configured at, and no other |
| Aws.AwsProvider.AcquireCompleted | pkg/providers/aws.go:458-490 | Ready exactly when the instance is met by the lookup, runs and has an address that can be had; not ready exactly when it is met in another state; otherwise an error that is not not-found |
| Aws.AwsProvider.Release | pkg/providers/aws.go:502-519 | Terminates exactly that instance when it is found; otherwise nothing |
| Aws.PlacementIsLexicographic | pkg/providers/aws.go:411-455 | Nothing is launched unless the counts sum below the pool size; then the calls are the open attempts in the order of region, type and subnet up to the first that launches, which is returned; an error exactly when none does |
| Aws.TotalCountsEachOnce | pkg/providers/aws.go:242-255 | With distinct regions the counts sum up to the number of the pool's running instances in them |
| Aws.OtherPoolsUncounted | pkg/providers/aws.go:244 | Instances of other pools change neither the count nor the answer |
| Aws.AcquireLaunchesIff | pkg/providers/aws.go:398-455 | An Acquire launches if and only if every count is to hand, the pool's running instances are fewer than its size, and some open place launches |
| Aws.SubnetsOfRegion | pkg/providers/aws.go:419-422 | The configured subnets, or the deprecated one where there are none |
| Aws.FindsIffMet | pkg/providers/aws.go:210-233 | The lookup finds the instance's region if and only if it answers and no region listed before fails to describe |
| Aws.AcquiredIsFoundAgain | pkg/providers/aws.go:458-467 | The id that Acquire returns leads back to the region it was launched in, under exactly that condition |
| Aws.GuardMissesPending | pkg/providers/aws.go:242-247 | A launched instance is not counted until it runs: the next Acquire that has a place for another launches it, and the pool has two more than before |
| Aws.GuardCapsIffAllCounted | pkg/providers/aws.go:398-415 | An Acquire that launches leaves no more instances of the pool than its size, for every size, if and only if the counts cover every instance the pool has |
| Aws.InstanceCap | pkg/providers/aws.go:398-415 | In every run the instances of a pool never exceed the largest size used by more than an Acquire failed to see |

## Left out

- The Ironic, IBM Cloud and libvirt providers: thin calls into foreign SDKs; in the runs a provider is any that answers honestly.
- Request building, credentials, JSON and base64 decoding, the Equinix client cache and error texts: I/O plumbing.
- The constant Clean and CleanCompleted of AWS, and Reinstall of Equinix: they keep no state.
- The HTTP server, tokens, the splitting of the type parameter and the status command: the set of permitted pools and the wanted types are inputs.
- The REST clientset, manager set-up, manifests and generated code.
- Logging, transition guards and the hook before any state: never used by the controllers.
- The namespace, labels other than the eviction label, values of that label other than present and absent, finalizers other than OFCIR's, and the Extra field of Spec.
- Administrators' changes to priority, provider or time-out of a pool, to a pool reference or a label of a resource, and operator restarts: they break the properties by design.
- Times are whole seconds of one clock; truncation by the API encoding is not modelled.
- Updates that change nothing still get a new version here.
- Reads of the CIResource controller are current; a stale read there repeats provider calls, which the runs show as writes that do not arrive.
- PoolController.CIPoolReconciler.Reconcile: one pass meets no write of others between its list and its updates, except as a fate given to each update; the runs interleave them freely.
- AcquireCommand.AcquireCmd.Run: the same; `AcquireCommand.PriorityOptimalGrant` takes lists of any age.
- AcquireCommand.Shuffle: works on a sequence value, and the library sort is the function `Sorting.StableSort`, so aliasing of the slice is not captured.
- Names.FreshNames: numerals past the largest int are not modelled; Go would wrap around there.
- PassRefinement.PassIsRun: up to version numbers, because the batch delete is one request to the server.
- Equinix.EquinixProvider.Acquire: the list comes in the order of creation; the count does not depend on it.
- Aws.InstanceCap: a failed RunInstances call makes no instance, and a terminated instance is gone at once.
- DrainRuns.DrainsIffNothingBlocked: a provider that reissues ids is taken to take back any id it knows at any time, as the dummy does.
