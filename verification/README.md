# Whereabouts address management: a Dafny model

Whereabouts hands out cluster-wide unique IP addresses from many uncoordinated CNI processes. A *pool* is a
stored map from decimal offsets to owners (container, pod reference, interface). An ADD or DEL reads a pool,
computes a new list, and writes it back only if the pool still has the version that was read. Networks whose
ranges overlap also keep one *reservation* object per address (in the code: OverlappingRangeIPReservation,
here *ORIP*). An operator assigns slices of a range to nodes and cleans up after pods that have gone.

The project models this code and proves what it is relied on for.

| file | models |
|---|---|
| `Prelude.dfy` | options, results, duplicate-free sequences |
| `Addressing.dfy`, `RangeDivision.dfy` | addresses as (family, number), usable ranges, counting, dividing a range |
| `Allocation.dfy`, `AllocationLaws.dfy` | the allocator: scan, candidate list, preferred address, in-place release, capacity |
| `Codec.dfy` | the stored map, the list of records, and the operator's view of a key |
| `AddAttempt.dfy`, `PoolRelease.dfy` | one ADD attempt, one DEL and one rollback as changes of a single key |
| `PoolProtocol.dfy` | any number of processes, the operator and crashes on one pool |
| `OverlapProtocol.dfy`, `OverlapSafety.dfy` | interleaved ADD, DEL and rollback over several overlapping pools |
| `OverlapRuns.dfy` | particular runs of it: what can be held, and what can go wrong |
| `OverlapRetry.dfy` | what the retry loop does when other pods reserve the addresses it picks |
| `Cluster.dfy`, `Effects.dfy`, `Rollback.dfy`, `Transaction.dfy`, `Release.dfy` | a whole multi-range ADD with rollback, and a whole DEL, call by call, where any call may fail |
| `Interleaving.dfy` | one ADD attempt and one DEL pass while others act between any two calls: each call is a step of the overlap protocol |
| `ReservationNames.dfy` | the names of reservation objects |
| `NodeSlices.dfy`, `NodeSliceController.dfy`, `NodeSliceRuns.dfy` | node slices: one pass in place, and all runs of passes |
| `OrphanCleanup.dfy` | orphan cleanup and release through a lagging cache, while others interfere between any two calls |

Code that updates state step by step is written as methods and classes with loops: the allocator's loops, the
in-place list removal, the codecs, the pool object and the API server, the retry loops, the rollback, the node
slice arrays and the operator's cleanup. Each is proved against a function or a relation, about which the laws
are then proved. The two protocol modules are step machines, because their claims are about every interleaving.

## What is assumed

- A call to the API server is atomic, and a failed call changes nothing. It fails for now or for good (in the code:
  a `Temporary` error or any other); ghost counters record both, so that success can be promised when too few fail.
- A pod reference names at most one live pod, a container belongs to one pod, pod references are not empty.
- A pool's range is written as its network address, as it is when it comes from a configuration: ranges are masked
  on loading (`pkg/config/config.go:213`, `222`). Its keys are canonical decimals inside the address family. `Codec.KeyViewsAgreeExactly` and `Codec.MapRoundTripExactly` show what each half of this is needed for.
- The operator's write to a pool's allocations is a merge patch without a version test (section 2 of RFC 7396),
  modelled as "remove these keys from the current map". The process writes are guarded by a JSON Patch `test` on
  the resource version (section 4.6 of RFC 6902).
- `OverlapProtocol` further assumes: pod UIDs are distinct and not empty, each pod has one interface in the
  network and a fixed list of ranges, one CNI call per pod is in flight, fetching and deleting a reservation under
  the UID guard is one step, and neither the operator nor legacy names delete reservations.
- The exclusion theorem is for runs in which no reservation of a live pod is deleted as a stale one (`NoLiveDrops`).
  It is enough that no pod starts while an ADD of an earlier pod of the same name is still in flight (`NoLateAdds`,
  `OverlapSafety.LateAddsAreTheCause`). A pod may go away at any time, also during its own ADD; a UID does not come
  back.
- An address is *held* from the success of an ADD whose pod is live then, if every range of the ADD that returned it
  was committed, until the DEL of its container begins, the pod goes away, or a newer container of the pod lands its
  first pool write.
- Per-node pools stand still while the operator assigns slices: the operator fetches such a pool and deletes it if
  empty in two calls without a precondition.
- `Transaction` and `Release` are about a single call with nobody else writing. `Interleaving` has one attempt and one
  pass of them with everybody else free to write any pool and to create and delete reservations between any two
  calls; its pools exist, and its reservations carry pod UIDs.
- The operator reads reservations through a cache that shows some earlier state and does not go back in time, and a
  pool as it was at some earlier moment.
- An address in ::ffff:0:0/96 is an IPv4 address; IPv6 ranges that meet that block are not modelled, except in
  `ReservationNames`, where both ways of writing it are.

## What turned out not to hold

- **An ADD can succeed without writing anything.** If every attempt of the retry loop meets a reservation of
  another pod, the loop ends without an error and the last address is returned
  (`pkg/storage/kubernetes/ipam.go:904-927`, `1049`). `OverlapRetry.FallsThroughExactly` gives the exact
  condition for every configuration: at least as many addresses as there are attempts come before the first one
  that is free of other pods' reservations. `OverlapRetry.SecondRangeGetsDuplicate` gives the concrete case.
- **An ADD that outlives its pod breaks the exclusion.** If a pod is replaced by one of the same name while its ADD
  is in flight, the old ADD takes the new pod's reservation for a stale one and deletes it
  (`pkg/storage/kubernetes/ipam.go:930-948`); a third pod can then reserve the address through another pool, and two
  live pods hold it. `OverlapRuns.LateAddBreaksExclusion` is that run; `OverlapSafety.CrossPoolExclusion` holds for
  all runs without such a delete, and `OverlapSafety.HeldSurviveExactly` shows that no other step costs a held
  reservation.
- **An address that one range falls through on and another range gets is not kept.** The first range leaves an older
  container's entry for it in place, and that container's DEL deletes the reservation
  (`OverlapRuns.FellThroughIsNotKept`). Such an address does not count as held; the other addresses of the ADD do.
- **Ready does not always mean that every node has a slice.** Ready is written by an assignment pass, where it does,
  and unconditionally by creating a pool, by changing its spec and by repairing its status; an assignment that then
  fails leaves the repaired status standing. Any change of the text counts as a change of the spec, also from "25" to
  "/25". `NodeSliceRuns.ReadyServesAllExactly` gives the exact condition for every pass, whatever writes of it fail;
  `NodeSliceRuns.ReadyWithoutSlot`, `NodeSliceRuns.ReadyAfterRespelling` and
  `NodeSliceRuns.ReadyAfterRepairWithoutSlot` give an input for each case.
- **The operator and the allocator read the same key as different addresses** unless the range is written as its
  network address (`Codec.KeyViewsAgreeExactly`; `Codec.HostAddressMisread` has 10.0.0.1/24). Only pools written by
  hand are concerned, since configured ranges are masked on loading.
- **Offsets are absolute values**, so an address below the base gets the key of its mirror image
  (`Codec.KeysCollideExactly`).
- **The first rollback attempt never takes effect**, because the pool object keeps the version from before its
  own write (`PoolProtocol.RollbackWithoutRereadConflicts`); four attempts with a re-read remain.

## Model

| member | source | states |
|---|---|---|
| `Addressing.UsableBetweenEnds` | pkg/iphelpers/iphelpers.go:197-231 | the first and last usable address bound exactly the host addresses of a block, /31, /32, /127 and /128 included, and the usable range is never empty |
| `Addressing.CountIsUsableSize` | pkg/iphelpers/iphelpers.go:247-286 | CountUsableIPs is the number of usable addresses, clamped to 2^31-1, for every prefix length of both families |
| `RangeDivision.DivisionPartitions` | pkg/iphelpers/iphelpers.go:118-163 | every address of the range lies in exactly the slice given by its distance from the base, and every address of a slice lies in the range |
| `RangeDivision.DivisionCovers` | pkg/iphelpers/iphelpers.go:118-163 | every address of the range lies in some slice |
| `RangeDivision.DivisionDisjoint` | pkg/iphelpers/iphelpers.go:118-163 | no address lies in two slices |
| `RangeDivision.DivisionAligned` | pkg/iphelpers/iphelpers.go:118-163 | every slice of an aligned range is itself an aligned block |
| `RangeDivision.Subdivide` | vendor/github.com/telekom/t-caas-go-library/pkg/netutil/netutil.go:111-133 | succeeds exactly when the slice length fits and the count is within the limit, and then fills the result with the division in order |
| `RangeDivision.DivideRangeBySize` | pkg/iphelpers/iphelpers.go:118-163 | succeeds exactly for a parsed network address, a slice length between the range's and the family's, and a count within the limits; the result is the division |
| `Allocation.LowestIsMinimum` | pkg/allocate/allocate.go:186-239 | the reference scan returns an eligible address below all others, and none only when no address is eligible |
| `Allocation.MinimumIsLowest` | pkg/allocate/allocate.go:186-239 | an eligible address below all others is the one the scan returns |
| `Allocation.FirstPickIsFirst` | pkg/allocate/allocate.go:252-285 | the candidate route returns the first candidate of the list that is eligible, and none only when no candidate is |
| `Allocation.ParseExcludedRanges` | pkg/allocate/allocate.go:311-368 | fails exactly when an exclude does not parse; otherwise an address is excluded exactly when a parsed prefix contains it |
| `Allocation.MakeReservedMap` | pkg/allocate/allocate.go:303-309 | holds exactly the addresses of the records |
| `Allocation.SkipExcludedSubnets` | pkg/allocate/allocate.go:334-343 | finds a target exactly when the address is excluded; every address up to the target is then excluded too |
| `Allocation.IterateForAssignment` | pkg/allocate/allocate.go:193-247 | the scan that jumps over excluded subnets returns the lowest eligible address, fails exactly when there is none, and stops at the all-ones address; `AllocationLaws.EligibleExactly` says what is eligible |
| `Allocation.PickForAssignment` | pkg/allocate/allocate.go:252-285 | takes the first eligible candidate and fails exactly when no candidate is eligible |
| `Allocation.PreferredExcluded` | pkg/allocate/allocate.go:72-95 | tells exactly whether the preferred address is excluded |
| `Allocation.AssignIP` | pkg/allocate/allocate.go:33-124 | the order of the routes: the pod's own record with the new container, then the preferred address, then the candidates or the scan, with the same error cases |
| `AllocationLaws.AssignedIsSound` | pkg/allocate/allocate.go:58-124 | whichever route is taken, a new address is in the subnet, in the effective range, outside every exclude, unreserved and allowed by the candidate list; addresses and owners stay pairwise distinct |
| `AllocationLaws.BoundsExactly` | pkg/allocate/allocate.go:287-301 | what the two ends of the effective range are, in terms of the usable addresses (L2) or of the block (L3): the first is range_start exactly when that is such an address, otherwise the lowest one; the last is range_end exactly when that is one and not below the first, otherwise the highest |
| `AllocationLaws.EligibleExactly` | pkg/iphelpers/iphelpers.go:367-396 | an address is eligible exactly when it is usable (L2) or in the block (L3), unreserved, not excluded, not below a range_start that counts and not above a range_end that counts |
| `AllocationLaws.NewAddressInBounds` | pkg/allocate/allocate.go:58-124 | whichever route is taken, no new address is below a range_start that counts or above a range_end that counts |
| `AllocationLaws.EmptyPoolAssignsStart` | pkg/allocate/allocate.go:193-239 | an empty pool without excludes, candidates and preference gives out range_start if that counts, otherwise its lowest address |
| `AllocationLaws.ExhaustedExactly` | pkg/allocate/allocate.go:98-124 | an ADD by a new owner is refused for exhaustion exactly when no allowed address is eligible |
| `AllocationLaws.AssignTakesOne` | pkg/allocate/allocate.go:193-239 | a successful ADD removes exactly its address from the eligible ones |
| `AllocationLaws.ExactCapacity` | pkg/allocate/allocate.go:193-239 | in any series of ADDs by different new owners the i-th succeeds exactly when i is below the number of eligible addresses at the start |
| `AllocationLaws.EmptyPoolCapacity` | pkg/iphelpers/iphelpers.go:247-286 | for an empty pool that number, clamped, is CountUsableIPs, for every prefix length of both families |
| `AllocationLaws.DeallocatedIsExact` | pkg/allocate/allocate.go:127-152 | release removes one matching record if there is one, reports its address and keeps all other records as a multiset; a list with one match is left without any |
| `AllocationLaws.RemoveIdxFromSlice` | pkg/allocate/allocate.go:149-152 | in place, the last record takes the freed position and the list is one shorter |
| `AllocationLaws.DeallocateIP` | pkg/allocate/allocate.go:127-147 | in place, the first record of the container and interface is removed and its address returned |
| `Codec.DecimalRoundTrip` | pkg/storage/kubernetes/ipam.go:315-340 | a decimal key parses back to its number |
| `Codec.ToIPReservationList` | pkg/storage/kubernetes/ipam.go:315-328 | for whatever visiting order: one record per key that parses, keys that do not are skipped |
| `Codec.ToAllocationMap` | pkg/storage/kubernetes/ipam.go:330-340 | fails exactly when a record has no offset; later records overwrite earlier ones of the same key |
| `Codec.CanonicalMapRoundTrips` | pkg/storage/kubernetes/ipam.go:315-340 | map to list to map is the identity on canonical maps, in every visiting order |
| `Codec.MapRoundTripExactly` | pkg/storage/kubernetes/ipam.go:315-340 | it is the identity on no other maps |
| `Codec.ListRoundTrip` | pkg/storage/kubernetes/ipam.go:315-340 | list to map to list gives back the same records up to order, for distinct addresses at or above the base |
| `Codec.KeyViewsAgreeExactly` | internal/controller/ippool_controller.go:618-631 | the operator's and the allocator's reading of keys agree on every key exactly when the range is written as its network address |
| `Codec.HostAddressMisread` | internal/controller/ippool_controller.go:618-631 | with the range written as 10.0.0.1/24 the operator reads key 0 as 10.0.0.0 and the allocator as 10.0.0.1 |
| `Codec.KeysCollideExactly` | pkg/iphelpers/iphelpers.go:318-336 | two addresses of a family get the same key exactly when they are equal or mirror images about the base |
| `AddAttempt.ReadsAs` | pkg/storage/kubernetes/ipam.go:315-328 | reading a canonical map in any order visits every offset exactly once |
| `AddAttempt.WritesAs` | pkg/storage/kubernetes/ipam.go:330-340 | what a list of records stores is the canonical form of its offsets |
| `AddAttempt.RealDropsDummies` | pkg/storage/kubernetes/ipam.go:977-983 | dummy records appended to a list leave no trace after filtering |
| `AddAttempt.EligibleByOffset` | pkg/allocate/allocate.go:193-239 | an address is eligible for the attempt exactly when its offset is free in the pool and no dummy, bound or exclude rules it out |
| `AddAttempt.AttemptSetsOneKey` | pkg/storage/kubernetes/ipam.go:884-900 | read, add dummies, assign, filter, encode equals setting one key: the pod's own with the new container, or a new eligible one, the lowest without candidates and preference; no dummy is stored; refusal for exhaustion means that nothing was left |
| `AddAttempt.AttemptIgnoresOrder` | pkg/storage/kubernetes/ipam.go:315-328 | the address or the error does not depend on the order in which the map is read |
| `PoolRelease.ReleaseRemovesOneKey` | pkg/storage/kubernetes/ipam.go:957-1008 | a DEL that finds a record stores the pool without exactly that key, in every reading order; one that finds none had nothing to remove |
| `PoolRelease.RollbackRemovesOwnKey` | pkg/storage/kubernetes/ipam.go:1155-1172 | a rollback finds a record exactly when the entry its ADD wrote is still there unchanged, and then stores the pool without exactly that key |
| `PoolProtocol.AttemptIsJustified` | pkg/storage/kubernetes/ipam.go:884-900 | an ADD attempt only ever takes the pod's own key or a free one when it has none |
| `PoolProtocol.StepKeepsInv` | pkg/storage/kubernetes/ipam.go:257-313 | every step keeps the invariant; a write that lands was decided on the content it replaces |
| `PoolProtocol.RunKeepsInv` | pkg/storage/kubernetes/ipam.go:796-1047 | in every run, with operator removals and crashes, each (pod, interface) owns at most one key |
| `PoolProtocol.NoLostUpdates` | pkg/storage/kubernetes/ipam.go:257-313 | the pool always equals the replay of all commits, one at a time in commit order |
| `PoolProtocol.OwnerChangesOnlyThroughRemoval` | pkg/storage/kubernetes/ipam.go:796-1047 | if a key has different owners at two moments, the pool was without it at some moment between |
| `PoolProtocol.RollbackIsExact` | pkg/storage/kubernetes/ipam.go:1127-1205 | in every interleaving a rollback removes nothing but the (address, container, pod, interface) its own ADD committed |
| `PoolProtocol.DeleteIsExact` | pkg/storage/kubernetes/ipam.go:957-1008 | in every interleaving a DEL removes nothing but an entry of its own container; an entry taken over by a newer sandbox stays |
| `PoolProtocol.ObjectStaysOld` | pkg/storage/kubernetes/ipam.go:298-301 | a pool object that has been written stays older than the stored pool until it is read again |
| `PoolProtocol.RollbackWithoutRereadConflicts` | pkg/storage/kubernetes/ipam.go:1138-1183 | a rollback through the pool object of its own ADD never changes the pool |
| `OverlapProtocol.AttemptMayChoose` | pkg/storage/kubernetes/ipam.go:884-900 | whatever its configuration, an ADD attempt chooses as the step machine lets it: the pod's own entry, or a free address not taken when it has none |
| `OverlapSafety.StaleIsExpendable` | pkg/storage/kubernetes/ipam.go:929-951 | a reservation dropped as stale is one that nobody holds and no ADD of a live pod relies on, unless the pod of its UID is live |
| `OverlapSafety.NextRangeKeeps` | pkg/storage/kubernetes/ipam.go:1045-1083 | finishing a range, and with it possibly the ADD, keeps the invariant |
| `OverlapSafety.FallThroughKeeps` | pkg/storage/kubernetes/ipam.go:904-927 | so does falling through; what the pod then owns in that pool is at most the address it fell through on |
| `OverlapSafety.ChooseKeeps` | pkg/storage/kubernetes/ipam.go:888-955 | so does choosing an address and checking it cluster-wide |
| `OverlapSafety.DropStaleKeeps` | pkg/storage/kubernetes/ipam.go:929-948 | so does deleting a stale reservation of a pod that is not live |
| `OverlapSafety.WriteKeeps` | pkg/storage/kubernetes/ipam.go:995-1008 | so does the pool write, whether it lands and takes over from an older container or conflicts |
| `OverlapSafety.ReserveStepKeeps` | pkg/storage/kubernetes/ipam.go:1012-1044 | so does creating the reservation, or failing to |
| `OverlapSafety.UndoKeeps` | pkg/storage/kubernetes/ipam.go:1021-1031 | so does removing the entry of a range that could not be reserved |
| `OverlapSafety.RollKeeps` | pkg/storage/kubernetes/ipam.go:1127-1235 | so does each step of a rollback |
| `OverlapSafety.HeldIsNotFound` | pkg/allocate/allocate.go:127-147 | a DEL does not find an address the pod holds through another container |
| `OverlapSafety.DelReadKeeps` | pkg/storage/kubernetes/ipam.go:861-868 | the read of a DEL keeps the invariant |
| `OverlapSafety.DelPatchKeeps` | pkg/storage/kubernetes/ipam.go:957-1008 | so does the pool write of a DEL |
| `OverlapSafety.DelReleaseKeeps` | pkg/storage/kubernetes/ipam.go:1012-1019 | so does the guarded delete of a DEL |
| `OverlapSafety.PodStopKeeps` | pkg/storage/kubernetes/ipam.go:929-951 | so does a pod's end, whatever it is doing |
| `OverlapSafety.PodStartKeeps` | pkg/storage/kubernetes/ipam.go:929-951 | so does a pod's start, also beside ADDs of earlier pods of its name |
| `OverlapSafety.StepKeepsInv` | pkg/storage/kubernetes/ipam.go:796-1047 | every step of ADD, DEL, rollback, crash and pod lifecycle keeps the invariant, unless it deletes a live pod's reservation as a stale one |
| `OverlapSafety.RunKeepsInv` | pkg/storage/kubernetes/ipam.go:796-1047 | so does every run without such a step |
| `OverlapSafety.CrossPoolExclusion` | pkg/storage/kubernetes/ipam.go:394-470 | at every moment of every such run, what a live pod holds is reserved under its UID, and two live pods never hold the same address, even through different pools |
| `OverlapSafety.HeldSurviveExactly` | pkg/storage/kubernetes/ipam.go:929-948 | in an invariant state, every held address stays reserved in a step if and only if the step is not the deletion of its reservation as a stale one |
| `OverlapSafety.LateAddsAreTheCause` | pkg/storage/kubernetes/ipam.go:929-948 | in a run in which pods are replaced only after their ADDs have ended, no live pod's reservation is ever deleted as a stale one |
| `OverlapRuns.HoldsAreReachable` | pkg/storage/kubernetes/ipam.go:796-1083 | any address can come to be held: the exclusion theorem is not empty |
| `OverlapRuns.LateAddBreaksExclusion` | pkg/storage/kubernetes/ipam.go:930-948 | a run with a late ADD in which two live pods hold the same address |
| `OverlapRuns.FellThroughIsNotKept` | pkg/storage/kubernetes/ipam.go:904-927 | a run without a late ADD in which an address that one range fell through on and another got is lost to another live pod although no DEL has ended the ADD |
| `OverlapRetry.FreshIsBest` | pkg/allocate/allocate.go:58-124 | an attempt picks the first address in a fixed order (preferred, then candidates as listed or numbers upwards), and finds one if any is left |
| `OverlapRetry.ConflictUnblocksOne` | pkg/storage/kubernetes/ipam.go:908-927 | each conflict uses up exactly one of the addresses that come before the first open one |
| `OverlapRetry.FallsThroughExactly` | pkg/storage/kubernetes/ipam.go:904-927 | for every configuration, a new pod's loop ends without error and without a write exactly when at least as many addresses reserved by others come before the first open one as there are attempts |
| `OverlapRetry.OtherwiseWritesFirstOpen` | pkg/storage/kubernetes/ipam.go:904-927 | otherwise it writes the first address not reserved by others, or fails because there is none |
| `OverlapRetry.MalformedFails` | pkg/storage/kubernetes/ipam.go:894-899 | a configuration that does not parse fails at the first attempt |
| `OverlapRetry.OwnedFallsThroughExactly` | pkg/storage/kubernetes/ipam.go:904-927 | a pod that already has an entry falls through exactly when its own address is reserved by another |
| `OverlapRetry.ReservedStartFallsThrough` | pkg/storage/kubernetes/ipam.go:904-927 | if others reserve the first usable addresses, as many as there are attempts, the loop falls through and returns one of them |
| `OverlapRetry.SecondRangeGetsDuplicate` | pkg/storage/kubernetes/ipam.go:1049-1083 | with 100 attempts, an empty 10.0.0.0/24 whose first 100 usable addresses are reserved by others returns one of those |
| `Cluster.ApiServer.GetIPPool` | pkg/storage/kubernetes/ipam.go:121-237 | returns an object that shows the stored pool; a missing pool is created empty and the caller told to try again; nothing else changes; an existing pool is returned unless the call fails |
| `Cluster.ApiServer.SomeError` | pkg/storage/kubernetes/ipam.go:995-1008 | any call may fail, for now or for good, and each failure is counted |
| `Cluster.ApiServer.GetExistingIPPool` | pkg/storage/kubernetes/ipam.go:139-210 | the same without creating; not-found only when there is no pool |
| `Cluster.ApiServer.CreateReservation` | pkg/storage/kubernetes/ipam.go:407-425 | creates only where there is none |
| `Cluster.ApiServer.DeleteReservation` | pkg/storage/kubernetes/ipam.go:427-442 | deletes the reservation unless both UIDs are known and differ |
| `Cluster.KubernetesIPPool.constructor` | pkg/storage/kubernetes/ipam.go:245-249 | the object starts as a copy of what is stored |
| `Cluster.KubernetesIPPool.Allocations` | pkg/storage/kubernetes/ipam.go:252-254 | the records of the content, each offset once |
| `Cluster.KubernetesIPPool.Update` | pkg/storage/kubernetes/ipam.go:257-313 | the object is overwritten in any case; the server only when its version is the one read; the object's version stays |
| `Effects.Compose` | pkg/storage/kubernetes/ipam.go:796-1084 | what successive steps of an ADD add is disjoint and adds up |
| `Effects.StaysSecured` | pkg/storage/kubernetes/ipam.go:796-1084 | what an ADD has secured, and what others have reserved, survives its further steps |
| `Rollback.RollbackReservation` | pkg/storage/kubernetes/ipam.go:1207-1235 | at most five guarded deletes; either the delete happened or nothing changed; it gives up only after too many failed calls |
| `Rollback.Clean` | pkg/storage/kubernetes/ipam.go:1155-1165 | drops exactly the records that match the commit and tells whether there was one |
| `Rollback.PlanRemoval` | pkg/storage/kubernetes/ipam.go:1155-1172 | finds a record exactly when the object still has the entry its ADD wrote, and then the list stands for the pool without that entry |
| `Rollback.RemoveEntry` | pkg/storage/kubernetes/ipam.go:1155-1183 | the stored pool loses exactly the committed entry, or is unchanged; with an object that is up to date only a failed call prevents it |
| `Rollback.RereadAndRemove` | pkg/storage/kubernetes/ipam.go:1144-1183 | an attempt with a pool that is read again removes exactly the committed entry unless a call fails; it ends the rollback only if the write fails for good |
| `Rollback.RollbackEntry` | pkg/storage/kubernetes/ipam.go:1138-1187 | at most five attempts, the first with the old object; afterwards the entry is gone, or was never written, or nothing has changed; the last only if the four attempts with a re-read met a failed call each, or one that failed for good |
| `Rollback.RollbackOne` | pkg/storage/kubernetes/ipam.go:1128-1193 | one commit: takes away only what that commit added, and all of it unless a rollback met four failed calls or one that failed for good |
| `Rollback.RollbackCommitted` | pkg/storage/kubernetes/ipam.go:1127-1195 | all commits: takes away only what they added, and all of it if no call fails, and also if fewer than four fail and none for good |
| `Transaction.WithoutDummies` | pkg/storage/kubernetes/ipam.go:977-983 | keeps exactly the records that are to be stored |
| `Transaction.AllocationAlreadyInPool` | pkg/storage/kubernetes/ipam.go:1088-1095 | tells exactly whether the pool has the address under the same pod and interface |
| `Transaction.PlanAttempt` | pkg/storage/kubernetes/ipam.go:882-900 | the planned write sets exactly one key of the pool that was read, and is called new exactly when the pool did not have the key |
| `Transaction.CheckReservation` | pkg/storage/kubernetes/ipam.go:904-953 | afterwards the address is free, or ours, or somebody else's; only a stale reservation may be gone |
| `Transaction.WritePool` | pkg/storage/kubernetes/ipam.go:995-1008 | adds exactly the planned key, or nothing |
| `Transaction.WriteAndReserve` | pkg/storage/kubernetes/ipam.go:995-1044 | entry and reservation are both there, or a new entry has been removed again unless four calls failed or one for good |
| `Transaction.CheckAndWrite` | pkg/storage/kubernetes/ipam.go:904-1047 | from a planned write on: with no failed call it ends in a conflict with nothing changed exactly when another pod has the address reserved, and commits otherwise; a failed one leaves nothing behind unless four calls failed or one for good |
| `Transaction.Attempt` | pkg/storage/kubernetes/ipam.go:796-1047 | one pass: the chosen address is the one the pool as stored calls for, and is not among the taken ones unless the pod owned it; a failed or repeated pass leaves nothing behind |
| `Transaction.DecidedIsTurn` | pkg/storage/kubernetes/ipam.go:796-1047 | a pass without failed calls is one turn of the loop over a pool and reservations that stand still, in whatever order the pool was read |
| `Transaction.LoopIgnoresOrder` | pkg/storage/kubernetes/ipam.go:315-328 | the order in which the pool is read does not matter to that loop |
| `Transaction.Pass` | pkg/storage/kubernetes/ipam.go:796-1047 | one pass next to what earlier passes added; it ends the loop with a served address the pod is entitled to, or goes on; without failed calls it fails only if the configuration does not parse or nothing is left |
| `Transaction.RefusesIsRefused` | pkg/storage/kubernetes/ipam.go:894-899 | a loop without failed calls that is refused has a configuration that does not parse, or the pod owns nothing in the pool and every allowed address is stored, taken, or with overlap checking reserved by another |
| `Transaction.AllocateRange` | pkg/storage/kubernetes/ipam.go:785-1066 | at most 100 passes; success means that the address is secured or reserved by somebody else, and was the pod's already or is allowed by the configuration and not taken; failure leaves nothing behind; without failed calls it ends exactly as the loop of OverlapRetry, a missing pool costing one attempt, and fails only if the range refuses the pod; all of it with and without overlap checking |
| `Transaction.OwnedMayRepeat` | pkg/storage/kubernetes/ipam.go:1077-1081 | if a later range of an ADD gives out a taken address, the pod owned it in that range's pool before the ADD, or an earlier range has the same pool |
| `Transaction.SoFarRefused` | pkg/storage/kubernetes/ipam.go:736-1086 | if range number i of an ADD refuses the pod, its configuration does not parse, or the pod owned nothing in its pool before the ADD and at most i addresses were then left in it |
| `Transaction.Allocate` | pkg/storage/kubernetes/ipam.go:736-1086 | a multi-range ADD changes nothing but what it adds, container IDs on the pod's own entries and stale reservations; a failed one restores every pool and leaves none of its reservations if no call fails, and also if fewer than four fail and none for good; after success every range is served, with an address the pod owned before or that its configuration allows; with overlap checking two ranges give the same address only where the pod owned it before or both have the same pool; without failed calls it succeeds unless some range does not parse, or has no more addresses left than there are ranges before it |
| `Release.OwnersMakeSingle` | pkg/allocate/allocate.go:45-56 | unique owners and one pod per container leave a container at most one entry per interface |
| `Release.Pop` | pkg/allocate/allocate.go:127-152 | through the in-place removal, the list written back lacks exactly one entry of the container |
| `Release.PopEntry` | pkg/storage/kubernetes/ipam.go:861-1008 | the pool half of a DEL pass: one entry of the container goes and its address is returned, or no pool changes; nothing is found only when there is nothing; anything else is a failed call |
| `Release.ReleaseAttempt` | pkg/storage/kubernetes/ipam.go:861-1047 | one pass of a DEL; the address of an entry already removed is kept so that its reservation is still deleted; it is repeated only after a failure that may pass and fails only after one for good |
| `Release.ReleaseRange` | pkg/storage/kubernetes/ipam.go:785-1051 | only the container's entries and their reservations can go; after success the container's single entry and its reservation are gone; it succeeds unless a call fails for good or each of the 100 passes has a failed call |
| `Release.Deallocate` | pkg/storage/kubernetes/ipam.go:736-1086 | a DEL over all ranges: other entries, other pools and other reservations are untouched; after success no configured range has an entry of the container left; it succeeds unless a call fails for good or 100 calls fail |
| `Interleaving.Session.Interfere` | pkg/storage/kubernetes/ipam.go:257-313 | whatever others write, create and delete, pools stay, versions do not go back, and a pool of the same version has the same content |
| `Interleaving.FetchExplained` | pkg/storage/kubernetes/ipam.go:868-883 | in every state of the protocol that shows what is stored, the read of a pool is its fetch step |
| `Interleaving.FreeExplained` | pkg/storage/kubernetes/ipam.go:904-955 | so is finding no reservation for the planned address the choice of it |
| `Interleaving.OursExplained` | pkg/storage/kubernetes/ipam.go:928-953 | so is finding the pod's own reservation, of this UID or a stale one |
| `Interleaving.ConflictExplained` | pkg/storage/kubernetes/ipam.go:914-927 | so is finding another pod's reservation, up to the fall-through of the last attempt |
| `Interleaving.DropExplained` | pkg/storage/kubernetes/ipam.go:929-948 | the guarded delete is the drop of a stale reservation |
| `Interleaving.WriteExplained` | pkg/storage/kubernetes/ipam.go:995-1008 | a landed pool write is the write of the decided entry |
| `Interleaving.ReserveExplained` | pkg/storage/kubernetes/ipam.go:1012-1046 | a created reservation commits the range |
| `Interleaving.UndoExplained` | pkg/storage/kubernetes/ipam.go:1018-1032 | a landed rollback write takes back the entry |
| `Interleaving.Undo` | pkg/storage/kubernetes/ipam.go:1127-1195 | the rollback of one entry under interference, at most five attempts: each call is explained, and in the end the entry was taken back in one step or left |
| `Interleaving.Attempt` | pkg/storage/kubernetes/ipam.go:796-1047 | one ADD attempt while everybody else acts between its calls: every call is explained by steps of the protocol, and the outcome says where the operation then stands |
| `Interleaving.FindExplained` | pkg/storage/kubernetes/ipam.go:861-979 | the read of a DEL that finds an entry of its container |
| `Interleaving.NoneExplained` | pkg/storage/kubernetes/ipam.go:957-975 | the read of a DEL that finds nothing, with or without an address remembered |
| `Interleaving.PatchExplained` | pkg/storage/kubernetes/ipam.go:995-1008 | the landed pool write of a DEL |
| `Interleaving.ReleaseExplained` | pkg/storage/kubernetes/ipam.go:1012-1019 | the guarded delete of a DEL |
| `Interleaving.Pass` | pkg/storage/kubernetes/ipam.go:861-1047 | one DEL pass while everybody else acts between its calls, in the same way |
| `Interleaving.SomeStateShows` | pkg/storage/kubernetes/ipam.go:121-237 | whatever is stored, some state of the protocol shows it: the explanations are not empty |
| `Interleaving.CallContinuesRun` | pkg/storage/kubernetes/ipam.go:796-1047 | whenever the pod and everybody else have run the protocol to what the next call finds, the steps of that call continue the run to what it leaves |
| `ReservationNames.NormalizeIP` | pkg/storage/kubernetes/ipam.go:478-495 | the name is the network followed by the text of the address; `ReservationNames.NameReads` says what that text is |
| `ReservationNames.TextReads` | pkg/storage/kubernetes/ipam.go:480-488 | the text read back gives the address: four decimals between dots, the first weighing most, or eight groups of four hexadecimal digits between dashes, the first weighing most |
| `ReservationNames.NameReads` | pkg/storage/kubernetes/ipam.go:478-495 | a name is the network and a dash, or nothing for the unnamed network, and then text that reads back as the address, an IPv4-mapped one as IPv4 |
| `ReservationNames.DocumentedNames` | pkg/storage/kubernetes/ipam.go:478-495 | 10.0.0.1 in the unnamed network is named 10.0.0.1, its IPv4-mapped form in network blue is named blue-10.0.0.1, and ::1 is named by its eight groups |
| `ReservationNames.TextInjective` | pkg/storage/kubernetes/ipam.go:480-488 | different addresses, of either family, have different text forms |
| `ReservationNames.NamesIdentify` | pkg/storage/kubernetes/ipam.go:478-495 | two names are equal exactly when address and network are, for named and unnamed networks and network names with dashes |
| `NodeSlices.EnsuredIsSafe` | internal/controller/nodeslice_controller.go:309-397 | a pass moves no live node, frees a slot only of a deleted node that does not block, keeps the ranges and keeps node names unique |
| `NodeSlices.FilledFacts` | internal/controller/nodeslice_controller.go:350-375 | filling keeps every taken slot; a node left without a slot means that no slot is empty |
| `NodeSlices.EnoughSlotsAssignAll` | internal/controller/nodeslice_controller.go:350-375 | if the slots not held by blocked deleted nodes number at least the live nodes, every live node gets one |
| `NodeSlices.AllAssignedNeedSlots` | internal/controller/nodeslice_controller.go:350-375 | and only then |
| `NodeSlices.MadeIsSafe` | internal/controller/nodeslice_controller.go:602-619 | new allocations have the ranges of the division and no node twice |
| `NodeSlices.RepairedIsSafe` | internal/controller/nodeslice_controller.go:432-455 | a repair restores the ranges of the division and keeps node names unique |
| `NodeSliceController.MakeAllocations` | internal/controller/nodeslice_controller.go:602-619 | fills the array with the division, nodes first come first |
| `NodeSliceController.RepairAllocations` | internal/controller/nodeslice_controller.go:432-455 | keeps the node names when the old ranges start like the new division, otherwise starts over |
| `NodeSliceController.PoolStore.ReleaseDeletedNodeSlice` | internal/controller/nodeslice_controller.go:399-417 | releases exactly when the pool of the slice is absent or empty, deleting an empty one, unless a call fails |
| `NodeSliceController.ReleaseDeleted` | internal/controller/nodeslice_controller.go:323-348 | in place, frees exactly the slots of deleted nodes that do not block, deletes exactly their empty pools, and tells whether any blocks; it fails exactly when a call does |
| `NodeSliceController.AssignUnassigned` | internal/controller/nodeslice_controller.go:350-375 | in place, gives free slots in order to nodes without one, and tells exactly whether a node was left over |
| `NodeSliceController.EnsureNodeAssignments` | internal/controller/nodeslice_controller.go:309-397 | the array ends as the pass says, and exactly the empty pools of deleted nodes are gone; the condition is Ready exactly when nothing blocks and every live node has a slot; it fails exactly when a call does |
| `NodeSliceController.ComputeSliceStats` | internal/controller/nodeslice_controller.go:191-202 | used is the number of slots with a node, and used and free add up to the total |
| `NodeSliceRuns.PassKeepsUnique` | internal/controller/nodeslice_controller.go:94-187 | every reconcile pass keeps node names unique |
| `NodeSliceRuns.NoNodeHoldsTwoSlots` | internal/controller/nodeslice_controller.go:94-187 | in every run of create, spec change, repair, node join and leave, no node name is in two slots |
| `NodeSliceRuns.SlotsAreSomeDivision` | internal/controller/nodeslice_controller.go:94-305 | in every state of every run, whatever writes failed, the slots are missing or are the complete division an earlier pass asked for |
| `NodeSliceRuns.CleanPassMatchesDivision` | internal/controller/nodeslice_controller.go:94-187 | after a pass without failed writes the slot ranges are the division of the range |
| `NodeSliceRuns.ReadyAfterAssignment` | internal/controller/nodeslice_controller.go:376-396 | after an assignment pass Ready means exactly that nothing blocks and every live node has a slot, and then it has exactly one |
| `NodeSliceRuns.MadeAssignsAllExactly` | internal/controller/nodeslice_controller.go:602-619 | new allocations serve every node exactly when nodes do not outnumber slices |
| `NodeSliceRuns.RepairServesExactly` | internal/controller/nodeslice_controller.go:432-455 | a repair serves every node exactly when the stored slots did and start like the division, or they do not and nodes do not outnumber slices |
| `NodeSliceRuns.ReadyServesAllExactly` | internal/controller/nodeslice_controller.go:94-305 | after any pass, whatever writes of it fail, that leaves the pool Ready, every live node has exactly one slot if and only if the last write of the pass served it: newly made slots with no more nodes than slices, repaired ones as above, an assignment always, and none at all if the stored slots served everybody |
| `NodeSliceRuns.ReadyWithoutSlot` | internal/controller/nodeslice_controller.go:205-249 | two nodes and one slice: the pool is Ready and a node has no slot |
| `NodeSliceRuns.ReadyAfterRespelling` | internal/controller/nodeslice_controller.go:166-176 | two slices and three nodes: a pass with the same spec leaves the pool Stalled, one with a respelled spec leaves it Ready and a node without a slot |
| `NodeSliceRuns.ReadyAfterRepairWithoutSlot` | internal/controller/nodeslice_controller.go:285-305 | one node and one slice: after a create without status and a repair without assignment the pool is Ready and the node has no slot |
| `NodeSliceRuns.FastIPAMDisjoint` | pkg/storage/kubernetes/ipam.go:819-859 | addresses newly assigned on two different nodes from one slice pool state never coincide |
| `NodeSliceRuns.FastIPAMDisjointInRuns` | pkg/storage/kubernetes/ipam.go:819-859 | so it is in every state a run of the operator can reach, whatever writes failed |
| `OrphanCleanup.ReservationStore.Interfere` | internal/webhook/overlappingrange_webhook.go:48-89 | whatever others create and delete and however the cache catches up, an object UID never changes its owner and the cache does not go back |
| `OrphanCleanup.ReservationStore.Delete` | internal/controller/ippool_controller.go:589-607 | deletes exactly the object with the given UID, or nothing |
| `OrphanCleanup.CleanupOne` | internal/controller/ippool_controller.go:560-609 | however old the reads are, deletes nothing but an object of the allocation's owner; success means that it was gone or somebody else's at some moment since the given one; it fails only if a call fails or is refused |
| `OrphanCleanup.CleanupKey` | internal/controller/ippool_controller.go:541-610 | the same for every listed reservation of one orphaned key; a failure is remembered and the others still tried |
| `OrphanCleanup.CleanupOverlappingReservations` | internal/controller/ippool_controller.go:530-613 | whatever others do between the calls and however far the cache lags, only reservations of an orphaned allocation's address and owner are deleted; success means that every such reservation the list showed was dealt with since the moment it shows; it fails only if a call fails or is refused |
| `OrphanCleanup.RemoveAllocations` | internal/controller/ippool_controller.go:502-515 | removes exactly the given keys |
| `OrphanCleanup.IPPool.PatchRemove` | internal/controller/patchhelper.go:90-142 | removes the keys from whatever is stored at that time, or nothing |
| `OrphanCleanup.IPPool.UpdateFinalizer` | internal/controller/ippool_controller.go:244-270 | changes the finalizer only of a pool that is as it was read |
| `OrphanCleanup.CollectOrphans` | internal/controller/ippool_controller.go:298-371 | collects exactly the allocations that the pod checks call orphaned |
| `OrphanCleanup.Reconcile` | internal/controller/ippool_controller.go:222-449 | a key is removed only if the pool as read had it and the pod checks call its allocation orphaned, only in the last write, and only after its reservations were dealt with; every deleted reservation is justified by such a key, or by any key of a pool that is being deleted; the finalizer goes only after the reservations of everything the pool then holds were dealt with; if no call fails or is refused, no orphaned key is left and a pool that is being deleted loses its finalizer |

## Left out

- Leader election, timeouts, back-off and jitter: the safety claims do not depend on them.
- The choice of the pool for a node slice inside an ADD: `NodeSliceRuns` has the choice, `Transaction` takes the range as given.
- Reading the preferred address from the pod annotation: it is part of the range configuration here.
- Context cancellation: an ADD or DEL that is cancelled ends like one whose call failed.
- Legacy reservation names and `denormalizeIPName`: the cleanup takes the decoding of names as an arbitrary function.
- The pod checks that make an allocation an orphan: an arbitrary predicate.
- JSON and patch encoding, conditions, events and metrics, config loading, certificates, installation.
- Pool names: pools are identified by their range; that two ranges get different names is not claimed, and it is not so for every pair.
- Fetching and deleting a reservation as two separate calls in `OverlapProtocol`: there the guard and the delete are one step.
- The retry loop and the final rollback of an ADD under interference: `Interleaving` has single attempts and passes, which the steps between them connect; the loops are in `Transaction` and `Release`.
- Creation of pools on demand in `OverlapProtocol` and `PoolProtocol`: pools exist from the start; `Cluster` has the creation.
- DeleteReservation: the second delete under the legacy name is not modelled; there are no legacy names here.
- ReleaseDeletedNodeSlice: fetching the pool and deleting it are one undisturbed call here; a pool that fills between the two would be deleted with its allocations.
- ReleaseRange: with more than one entry of the container in a pool only one is sure to go, so completeness is claimed for at most one.
- AllocateRange: that a served address may be somebody else's is the fall-through; when it happens is exact only for a loop in which no call fails.
- PatchRemove: the merge patch also removes a key that has been taken over since the pool was read, so no claim is made about the owner of a removed key.
