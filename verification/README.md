# A verified model of the GPU scheduler

This project models the GPU scheduler and its inference control plane in Dafny and proves what the parts promise each
other. `dafny verify dfyconfig.toml` checks all of it. Loops and objects of the program are methods and classes here,
each proved against a specification; the theorems are lemmas about those specifications.

## Placement and the reservation ledger

`Types`, `BinPacker`, `Fifo` and `Strategy` are the two scheduling strategies. Bin packing is optimal: no choice of k
eligible GPUs on any single node has less free memory. Both strategies succeed on the same inputs. `GangPlanner` plans
a gang on a copy of the node arrays; `GangSafety` shows that a plan keeps capacity and, without shared jobs, exclusive
use.

`Ledger` holds the registry's state and operations as functions, `Registry` the object that implements them.
`LedgerRuns` proves that the two tables always equal the sums over the per-pod records. `Allocator`, `Disagg` and
`Watcher` choose devices and reserve them; `Commit` proves that committing a gang plan moves the registry exactly as
the planner moved its shadow. `PlacementRuns` puts all of it together: over every run, reservations stay within
capacity. `Sharing` and `GangSharing` say exactly when placements and gangs keep GPUs without MPS exclusive, and prove
it over runs. `Reported` says what all of this means for the agents' reports: exactly which pods can be placed, and on
which devices. `RunningMemory` follows the memory of the pods that really run: eviction gives a reservation back
before the pod is gone, and the scheduler starts no pass while an evicted pod is still listed, so every running pod is
recorded or awaited. `Overfill` is the pass in which this is not enough, and `NegativeMemory` follows a negative
annotation into the ledger.

## Preemption and resuming

`Preemption` selects victims greedily. The source calls the result the smallest set
(`internal/scheduler/preemption.go`, line 67); it is the shortest prefix of the eviction order, and
`GreedyIsSmallestExactly` says when the two coincide. `Resume` gives the n-th re-creation of a pod in closed form, and
`EvictionRuns` proves that evictions run out although replacements come back with higher priority.

## The admission webhook

`JsonPatch` is a small model of RFC 6901 (pointers, section 4 with its escapes in section 3) and RFC 6902 (`add` in
section 4.1, `remove` in section 4.2) with failure. `Webhook` generates the operation list; `WebhookMeaning` and
`WebhookTheorem` prove that applying it means the intended transformation of the pod, and `Injected` says entry by
entry what the patched pod holds. The comment in the source speaks of mounting the MPS pipe in "each container"; the
code mounts it in the app containers only, and so does the model.

## Pressure, rebalancing and draining

`Pressure` is the proxy's hysteresis, and `Hotness` says what makes a tick hot. `Rebalancer` is the per-group timers
and decisions, and `Decisions` says exactly when a run of reports leads to which action. `Cluster` is the list of
inference workers, `Scaling` the checks and the execution of a decision, and `ServingPods` says which pods the router
may choose and which one a removal takes. `WorkerCap` says exactly when executed additions keep the live pods of a
role within its maximum, `CapBreaks` shows how they do not, `RoleFloor` says exactly when a served role keeps a ready,
undrained pod, and `ScalingRuns` proves cap and floor over runs. The execution script is told the action and the model
group but not which pod was drained; `RoleFloorExactly` says for which scripts the floor holds, and
`FixedScriptEmptiesRole` shows how a script with a fixed pod name loses it.

`Router`, `Drain`, `DrainRuns` and `DrainFinal` are the drain protocol between scheduler and proxy. Every critical
section is one step, and selecting a worker and counting the request are two. `ZeroIsFinalExactly` says when a zero
poll can be trusted under the router's own choice of workers; the scheduler itself waits for the zero only.

`GangCollector` sorts pending pods into standalone pods, ready gangs and timed-out gangs. `Collections`, `Text`,
`Pods` and `ControlPlane` hold what the others share.

## Where the code and its promises differ

- Greedy eviction is not minimal (`Preemption.GreedyIsNotSmallest`, exactly when: `Preemption.GreedyIsSmallestExactly`).
- A pod whose original priority is -1 loses it at the second resume when there is a boost
  (`Resume.OriginalPriorityKeptExactly`).
- A resumed pod has no labels, so a pool label that bound the victim no longer binds it
  (`Reported.ResumeKeepsRoutingExactly`).
- A victim has lost its reservation while it still runs, so a pod placed later in the same pass can overfill its GPU
  (`Overfill.PlacedAfterEvictionOverfills`, exactly when: `RunningMemory.StartsKeepMemoryExactly`). Later passes wait for
  it; when its deletion failed, all scheduling waits until the pod is gone (`RunningMemory.AwaitedPodStopsScheduling`).
- A negative memory annotation makes a later release clamp and forget another pod's reservation
  (`NegativeMemory.NegativeAnnotationBreaksLedger`, exactly when: `Ledger.ReleaseAgreesExactly`).
- An unnamed pressure state with one lone unified worker decides ScaleBoth at once. The execution blocks that action, so
  only the cooldown starts (`Rebalancer.SustainedExactly`).
- Shared pods that ask for several GPUs, and shared gang members, stack on GPUs without MPS
  (`Sharing.PlacementsKeepExclusiveExactly` over all choices and `Sharing.PolicyKeepsExclusiveExactly` for each policy,
  `GangSharing.CommitKeepsExclusiveExactly` for a gang's plan).
- The worker cap is exceeded when a live pod is neither counted nor seen as on its way: one without the workflow
  annotation, one in another namespace, or one on a node that is no longer registered (`CapBreaks.UnseenPods`, exactly
  when: `WorkerCap.CapHoldsExactly`).
- The removal script may delete another pod than the drained one (`RoleFloor.FixedScriptEmptiesRole`, exactly when:
  `RoleFloor.RoleFloorExactly`).
- A drained worker's zero poll need not be final: a request may have chosen it without being counted, or the proxy's
  snapshot may still offer it (exactly when it is final: `DrainFinal.ZeroIsFinalExactly`).
- A new worker gets no request while another worker of its role and group has statistics, and of several new workers
  only the first does (`DrainFinal.SecondWorkerStarves`, exactly when: `DrainFinal.NeverServedExactly`).

## Model

| member | source | states |
|---|---|---|
| BinPacker.FindCandidates | internal/allocator/binpack.go:122-150 | the candidate list holds exactly the eligible GPUs, each with its waste; an error exactly when there is none |
| BinPacker.SelectBestFit | internal/allocator/binpack.go:91-99 | no candidate wastes less than the answer |
| BinPacker.Schedule | internal/allocator/binpack.go:18-40 | succeeds exactly when some GPU is eligible, and then every eligible GPU of every node has more total memory minus used memory than the chosen one, or as much and is no busier |
| BinPacker.SortedPrefixIsBest | internal/allocator/binpack.go:186-199 | sorting a node's eligible GPUs by waste and taking k gives a choice whose total waste is at most that of every k-subset of them |
| BinPacker.FindGangCandidates | internal/allocator/binpack.go:152-212 | exactly one least-waste candidate for each node that has k eligible GPUs, in node order, and none for the others |
| BinPacker.SelectGangSchedulerBestFit | internal/allocator/binpack.go:101-109 | the least total waste among the candidates |
| BinPacker.ArgminIsOptimal | internal/allocator/binpack.go:42-109 | the least of the per-node optima has the least free memory over every choice on every node |
| BinPacker.WasteIsFreeMemory | internal/allocator/binpack.go:176-199 | the waste that the code compares is the total memory minus the used memory of the chosen GPUs, less the request |
| BinPacker.ScheduleGang | internal/allocator/binpack.go:42-109 | success exactly when k > 0 and one node has k eligible GPUs; the result is k of them whose total memory minus used memory sums to at most that of every choice of k eligible GPUs on every single node |
| Fifo.Schedule | internal/allocator/fifo.go:17-48 | the first eligible GPU in node and GPU order; an error exactly when there is none, empty input told apart |
| Fifo.CollectUpTo | internal/allocator/fifo.go:80-103 | reaches k placements exactly when the node has k eligible GPUs, and then holds the first k of them and nothing older |
| Fifo.ScheduleGang | internal/allocator/fifo.go:50-115 | the first node that fits, with its first k eligible GPUs; no placement of an earlier node leaks into the result; every error case told apart |
| Strategy.Schedule | internal/allocator/strategy.go:5-8 | both strategies place a one-GPU job exactly when some GPU is eligible, and on an eligible GPU |
| Strategy.ScheduleGang | internal/allocator/strategy.go:5-8 | in the named memory modes both strategies succeed on exactly the same inputs; every success is k distinct positions of eligible GPUs of one node |
| Types.TotalShareCovers | internal/allocator/binpack.go:46-53 | in total mode k times the per-GPU share lies in [memory, memory + k) for non-negative memory |
| Types.TotalShareExact | internal/allocator/binpack.go:46-53 | for any integer the share covers the total exactly when memory > -k or k divides memory - 1 |
| Types.ChoiceHasDistinctIDs | internal/allocator/binpack.go:152-212 | the GPUs of one gang placement have distinct ids |
| GangPlanner.DeepCopyNodes | internal/allocator/gang_multi_pod.go:75-83 | the copy shows the same nodes, and every GPU array of it is fresh and separate, so the caller's arrays cannot change |
| GangPlanner.SubtractFromShadow | internal/allocator/gang_multi_pod.go:85-103 | exactly the named GPUs of the named node change, each by one pod and memory / number of GPUs |
| GangPlanner.PlaceOne | internal/allocator/gang_multi_pod.go:34-58 | fails only when no shadow node fits the job; succeeds with as many eligible GPUs of one shadow node as the job asks for |
| GangPlanner.ScheduleMultiPodGang | internal/allocator/gang_multi_pod.go:21-73 | all or nothing: a plan for every pod in which each step fits the shadow the earlier steps left, or the first pod that no shadow node can host; the caller's nodes stay untouched |
| GangSafety.ShadowHardware | internal/allocator/gang_multi_pod.go:75-103 | the shadow differs from the nodes in used memory and pod counts only |
| GangSafety.PlanKeepsCapacity | internal/allocator/gang_multi_pod.go:21-103 | no prefix of a plan drives a GPU of the shadow over its total memory |
| GangSafety.PlanIsExclusive | internal/allocator/gang_multi_pod.go:21-103 | with no shared job, GPUs are pairwise distinct across the whole gang and each used GPU held no pod before |
| GangSafety.UsedWasFree | internal/allocator/gang_multi_pod.go:31-70 | a non-shared pod gets GPUs that no pod held and no earlier member took |
| Registry.Registry.UpdateFromReport | internal/gpu/registry.go:52-68 | the report replaces the node entry, MIG availability included; both tables and all records stay |
| Registry.Registry.RemoveStaleNodes | internal/gpu/registry.go:87-96 | exactly the nodes last seen at least the threshold ago disappear; the ledger stays |
| Registry.Registry.MarkGPUAllocatedForPod | internal/gpu/registry.go:233-264 | one more pod and the memory on that GPU, one more entry in the pod's record, nothing else |
| Registry.Registry.MarkMIGAllocatedForPod | internal/gpu/registry.go:267-299 | the instance becomes unavailable and the record grows; both tables stay |
| Registry.Registry.ReleasePod | internal/gpu/registry.go:301-343 | every entry is given back, clamped at zero together with its count, and the record is gone |
| Registry.Registry.GetNodes | internal/gpu/registry.go:406-458 | one view per registered node, used memory and pod count read from the ledger |
| Registry.Registry.FindAvailableFullGPU | internal/gpu/registry.go:170-210 | exactly the healthy non-MIG GPUs whose reported free memory minus reservations suffices |
| Registry.Registry.FindAvailableMPSGPU | internal/gpu/registry.go:148-157 | exactly those of them with MPS |
| Registry.Registry.FindAvailableNonMPSGPU | internal/gpu/registry.go:159-168 | exactly those of them without MPS that hold no pod |
| Registry.Registry.FindAvailableMIG | internal/gpu/registry.go:117-146 | exactly the available instances of healthy MIG GPUs that are large enough |
| Ledger.MarkOK | internal/gpu/registry.go:233-264 | marking a non-negative amount keeps both tables equal to the sums over the records |
| Ledger.MarkAgrees | internal/gpu/registry.go:233-264 | for any amount, also a negative one, a mark keeps tables and records in step |
| Ledger.MarkMIGOK | internal/gpu/registry.go:267-299 | MIG entries never disturb the ledger of whole GPUs |
| Ledger.ReleaseAgreesExactly | internal/gpu/registry.go:301-343 | a release keeps tables and records in step if and only if no entry meets the clamp |
| Ledger.NonNegativeNeverClamps | internal/gpu/registry.go:327-333 | with non-negative records no release reaches the clamp |
| Ledger.ReleaseOK | internal/gpu/registry.go:301-343 | a release keeps both tables equal to the sums over the records |
| Ledger.ReleaseGivesBack | internal/gpu/registry.go:324-333 | a release takes the memory and one pod off the GPU, or leaves nothing and no pod where less is reserved; every other GPU keeps both |
| LedgerRuns.LedgerEqualsRecords | internal/gpu/registry.go:52-343 | over every run of marks, MIG marks, releases, reports and stale-node removals, both tables equal the sums over all pods' records at every point and no clamp fires |
| NegativeMemory.NegativeAnnotationBreaksLedger | internal/scheduler/helpers.go:12-33 | a pod annotated with memory -10 is routed to a GPU and reserves -10 MB there; releasing the pod placed before it leaves tables that no longer agree with the records |
| LedgerRuns.MarkThenRollbackRestoresView | internal/scheduler/watcher.go:352-372 | marking all entries of a new pod and rolling back restores nodes, records and every table entry |
| LedgerRuns.ReleaseIsIdempotent | internal/gpu/registry.go:301-343 | a second release of the same pod changes nothing |
| Pods.PodKeyIsInjective | internal/gpu/registry.go:237-252 | namespace/name keys identify pods, because a namespace has no slash |
| Pods.MemoryIsRead | internal/scheduler/helpers.go:12-33 | a memory annotation that is written is read back, the first name before the second, and the resource request counts when there is none |
| Pods.CountIsRead | internal/scheduler/helpers.go:69-85 | a positive GPU count that is written is read back; otherwise the GPU limit counts, or one |
| Pods.PriorityIsRead | internal/scheduler/helpers.go:50-67 | a written priority is read back |
| Pods.PriorityByDefault | internal/scheduler/helpers.go:50-67 | with neither a written priority nor a configured workflow of the name, the default counts |
| Pods.PriorityOfWorkflow | internal/scheduler/helpers.go:50-67 | without a written priority the first configured workflow of the pod's name gives it |
| Allocator.RoutedMemoryIsReserved | internal/allocator/routing.go:76-88 | the memory that routing checks is the memory that the scheduler later reserves |
| Allocator.SelectBestMIG | internal/allocator/routing.go:91-108 | the smallest instance, ties by the pod count that the sharing preference asks for |
| Allocator.SelectBestFullGPU | internal/allocator/routing.go:110-126 | the least free memory, ties by the pod count that the sharing preference asks for |
| Allocator.Allocator.AutoSelectPool | internal/allocator/allocator.go:84-92 | MIG exactly when an instance is large enough |
| Allocator.Allocator.AllocateFromMIG | internal/allocator/allocator.go:106-130 | an answer exactly when an instance fits, and then a best one |
| Allocator.Allocator.AllocateFromFullGPU | internal/allocator/allocator.go:132-165 | shared jobs only on MPS GPUs, others only on free GPUs without MPS; an answer exactly when one fits, and then a best one |
| Allocator.Allocator.AllocateWithRouting | internal/allocator/allocator.go:44-82 | success exactly when the first pool, or without strict mode the other one, has a device; a best device of the first pool that has one |
| Disagg.SelectDisaggFullGPUCandidate | internal/scheduler/watcher.go:459-513 | an unshared whole GPU for a prefill or decode pod exactly when one exists: on the first preferred node that offers one, else anywhere, and always with the least free memory there |
| Watcher.Watcher.SchedulePod | internal/scheduler/watcher.go:213-372 | a valid pod is placed exactly when a placement exists; a failed bind leaves the rolled-back registry, a placed pod exactly its reservation, a pod without room exactly the released and awaited victims |
| Watcher.Watcher.Choose | internal/scheduler/watcher.go:250-328 | a decision exactly when the pod's branch (several GPUs, prefill/decode, routing) has one, and one that branch allows |
| Watcher.Watcher.Reserve | internal/scheduler/watcher.go:280-372 | reserve first, bind, roll back when the bind fails |
| Watcher.Watcher.HandleNoCapacityForPod | internal/scheduler/watcher.go:383-400 | greedy victims unless none would do; every selected victim loses its record and is awaited, also one whose deletion failed |
| Watcher.Watcher.ScheduleGang | internal/scheduler/watcher.go:551-618 | a plan that fails changes nothing; otherwise the registry is the commit of a valid plan in which exactly the bound members keep their reservation |
| Watcher.ReleasedVictimsAreForgotten | internal/scheduler/watcher.go:391-394 | after the victim loop a record is left exactly for the pods that are not victims |
| Watcher.Watcher.AwaitEvictions | internal/scheduler/watcher.go:157-173 | in any order, awaited keys that are gone are dropped; the pass goes on exactly when none is still listed, and then nothing is awaited |
| RunningMemory.InvOverRuns | internal/scheduler/watcher.go:155-400 | over every run of passes, starts, evictions and ends, every running pod has its record or is awaited, and never both |
| RunningMemory.PassBeginsRecorded | internal/scheduler/watcher.go:157-173 | a pass that is not deferred begins with nothing awaited and no memory running without a record |
| RunningMemory.StartsKeepMemoryExactly | internal/scheduler/watcher.go:280-324 | in a pass, every start that the reservations allow keeps the memory of the pods running on each GPU within its total if and only if no awaited pod still runs with GPU memory |
| RunningMemory.MemoryWithoutLatePlacement | internal/scheduler/watcher.go:133-210 | memory holds on every GPU over every run in which no pod is placed after an eviction of its own pass |
| RunningMemory.AwaitedPodStopsScheduling | internal/scheduler/watcher.go:157-173 | once the pass that evicted it is over, an awaited pod that does not end, as after a failed deletion, keeps every later pass from beginning: nothing is placed and nothing evicted |
| RunningMemory.VictimsAreEvicted | internal/scheduler/watcher.go:391-394 | making room evicts one victim after the other: the reservations are gone, the keys awaited, and what runs on the GPUs stays |
| RunningMemory.AwaitIsBegin | internal/scheduler/watcher.go:157-173 | what waiting leaves in the awaited keys, and whether it goes on, is the step that begins a pass |
| RunningMemory.PlacementIsStart | internal/scheduler/watcher.go:280-372 | a bound one-pod placement on whole GPUs is a start that the reservations allow |
| RunningMemory.MemberIsStart | internal/scheduler/watcher.go:577-605 | so is a bound gang member, whichever binds failed before it |
| Overfill.PlacedAfterEvictionOverfills | internal/scheduler/watcher.go:383-400 | in one pass on a 100 MB GPU: no room for 50 MB, the only possible victim with 60 MB is evicted and runs on, the next pod is placed with 80 MB, and 140 MB run |
| Overfill.VictimIsForced | internal/scheduler/preemption.go:68-109 | the victims chosen in that pass can only be the one 60 MB pod |
| Commit.MarkRefinesCharge | internal/scheduler/watcher.go:577-583 | marking one placement moves the registry's view exactly as the planner moved its shadow, although the two split the memory in different code |
| Commit.ShareIsExact | internal/scheduler/watcher.go:577-583 | each GPU of a member is reserved its memory divided by the number of its GPUs, rounded down |
| Commit.CommitRefinesPlan | internal/scheduler/watcher.go:577-605 | after the commit loop the view is the starting view charged with exactly the placements whose bind succeeded |
| Commit.AllBoundShowsShadow | internal/scheduler/watcher.go:551-605 | when every bind succeeds, GetNodes shows the planner's final shadow GPU by GPU |
| PlacementRuns.DecisionFits | internal/scheduler/watcher.go:250-328 | every placement decision fits the unreserved memory of its GPUs and, unless a shared pod asks for several GPUs, adds no second pod to a GPU without MPS |
| PlacementRuns.CapacityOverRuns | internal/scheduler/watcher.go:213-618 | over every run of routed, disaggregated, multi-GPU and gang placements, failed binds, releases and reports, reservations stay within every GPU's memory |
| Reported.CanPlaceExactly | internal/scheduler/watcher.go:250-328 | a pod can be placed if and only if the reports and the ledger leave it a place: k different healthy GPUs of one node with room, a healthy unshared GPU without pods for a prefill or decode pod, or a device of a pool that its labels allow |
| Reported.NodeOffersExactly | internal/gpu/registry.go:406-458 | the view of a node fits a k-GPU job if and only if its report lists k different GPUs that are healthy, not full, with enough unreserved memory, and free unless the job is shared |
| Reported.DecisionIsReported | internal/scheduler/watcher.go:250-328 | a decision takes as many GPUs as the pod asks for, on one node, each with the memory asked for; each is one that its node reports, healthy, and with room for the pod's share |
| Reported.MemberIsReported | internal/allocator/gang_multi_pod.go:31-70 | every GPU of a gang member is one that its node reports, healthy, and with room for the member's whole memory before the gang |
| Reported.WholeIsTightest | internal/allocator/routing.go:110-126 | a routed pod gets the whole GPU with the least unreserved memory among all that may take it, and between equals the one with most pods if it is shared, fewest otherwise |
| Reported.InstanceIsSmallest | internal/allocator/routing.go:91-108 | a routed pod gets the smallest available MIG instance of a healthy GPU that is large enough, with the same rule between equals |
| Reported.RoutedPoolExactly | internal/allocator/allocator.go:44-82 | a routed pod gets a MIG instance exactly when one fits, or, with the label for whole GPUs, exactly when no whole GPU does |
| Reported.PrivateIsTightest | internal/scheduler/watcher.go:459-513 | a prefill or decode pod goes to the first preferred node that reports a GPU for it and there to the one with the least unreserved memory, else to the least anywhere |
| Reported.MarkedInstanceIsTaken | internal/gpu/registry.go:267-299 | marking an instance takes it off the offers of its node, and no other instance off any |
| Reported.ReleasedInstanceIsBack | internal/gpu/registry.go:301-327 | releasing the pod again leaves the whole registry as it was before the mark, if the instances of the name were available |
| Reported.RequiredExactly | internal/allocator/binpack.go:46-53 | a pod for several GPUs asks of each for its memory, for a share that just covers the total, or for none, by its annotation |
| Reported.InvalidExactly | internal/scheduler/helpers.go:257-300 | a pod is turned away exactly when it plays a phase without a group or while shared, or names a group without a known role |
| Sharing.SharedPodsStack | internal/allocator/binpack.go:167-180 | whenever a node with k eligible GPUs offers an eligible GPU without MPS that already holds a pod, some decision puts a shared k-GPU pod there, and exclusive use is lost |
| Sharing.PlacementsKeepExclusiveExactly | internal/scheduler/watcher.go:250-328 | every placement that may be decided on keeps GPUs without MPS exclusive if and only if the pod does not share several GPUs or no node that can host it offers it an occupied GPU without MPS |
| Sharing.PlacedKeepsExclusiveExactly | internal/scheduler/watcher.go:250-282 | reserving k chosen GPUs of a node keeps exclusive use if and only if none of them is an occupied GPU without MPS |
| Sharing.PolicyKeepsExclusiveExactly | internal/allocator/strategy.go:5-8 | policy by policy: a pod that shares several GPUs keeps exclusive use if and only if, with first fit, the first k eligible GPUs of the first node that fits, or, with bin packing, every least-waste choice, contain no occupied GPU without MPS |
| GangSharing.OnlySharedStack | internal/allocator/gang_multi_pod.go:31-70 | only a shared gang member can be the second pod on a GPU |
| GangSharing.CommitKeepsExclusiveExactly | internal/scheduler/watcher.go:577-605 | committing a plan keeps exclusive use, whichever binds fail, if and only if no member takes a GPU without MPS that held a pod or was given one by an earlier member |
| GangSharing.OneMemberKeepsExclusiveExactly | internal/scheduler/watcher.go:551-605 | scheduling a gang of one shared pod keeps exclusive use, whatever plan is found and whether or not the bind succeeds, if and only if no node that can host the pod offers it an occupied GPU without MPS |
| GangSharing.SharesOnlyOneStacksNothing | internal/allocator/allocator.go:132-150 | shared pods that ask for one GPU outside gangs never stack |
| GangSharing.ExclusiveOverRuns | internal/scheduler/watcher.go:213-618 | over every run of reports, releases, placements and gangs in which no event stacks, a GPU without MPS holds at most one pod |
| Preemption.SelectVictims | internal/scheduler/preemption.go:68-109 | the shortest non-empty prefix of an eviction order over the preemptible pods of strictly lower priority that frees enough; for non-negative memory, failure exactly when nothing is eligible or everything eligible frees too little |
| Preemption.EligibleAreExact | internal/scheduler/preemption.go:70-79 | eligible are exactly the preemptible candidates of strictly lower priority |
| Preemption.NoSparedPodRanksBefore | internal/scheduler/preemption.go:85-103 | no spared eligible pod ranks strictly before a victim in workflow rank, then priority |
| Preemption.TrainingGoesFirst | internal/scheduler/preemption.go:81-103 | no training pod is spared while another pod is evicted, no inference pod while one of another kind is, and within a workflow no pod of lower priority |
| Preemption.DecidedBySum | internal/scheduler/preemption.go:85-107 | the outcome depends on the sum of eligible memory, not on how the sort breaks ties |
| Preemption.GreedyIsSmallestExactly | internal/scheduler/preemption.go:61-107 | greedy eviction along an order meets the documented "smallest set" if and only if for no number of pods the eviction order frees too little where that many largest pods would free enough |
| Preemption.GreedyIsNotSmallest | internal/scheduler/preemption.go:61-107 | two training pods are evicted where one would do |
| Preemption.Preempt | internal/scheduler/preemption.go:119-160 | all selected victims are returned, also those whose deletion failed; exactly the deleted ones are re-created where they ask for it |
| Preemption.TryAutoResume | internal/scheduler/preemption.go:225-254 | a replacement exactly for an auto-resume pod with a retry left whose creation succeeds |
| Resume.BuildResumePod | internal/scheduler/preemption.go:162-223 | the replacement's annotations, name and scheduling fields |
| Resume.ResumeRecords | internal/scheduler/preemption.go:162-223 | the replacement reads back its count, its original priority and the capped boosted priority, and carries no assigned GPUs |
| Resume.ResumeKeepsRequest | internal/scheduler/preemption.go:162-223 | every annotation but the five bookkeeping ones is kept, so the replacement asks for the same memory, GPUs, sharing and workflow; it prefers the victim's node and has no labels |
| Reported.ResumeKeepsRoutingExactly | internal/scheduler/preemption.go:186-199 | the replacement, which has no labels, can be routed exactly where the victim could if and only if fallback was allowed or the victim's pool label did not keep it from the only pool with a device for it |
| Resume.NamesKeepBaseExactly | internal/scheduler/preemption.go:188-194 | two resumes in a row keep the base name if and only if it neither contains "-resume-" nor ends in "-resume" |
| Resume.ResumeChainClosedForm | internal/scheduler/preemption.go:162-198 | the n-th resume has count n, the original priority, priority min(100, original + n x boost) and name base-resume-n |
| Resume.OriginalPriorityKeptExactly | internal/scheduler/helpers.go:215-224 | the original priority survives the second resume if and only if it is not the sentinel -1 or there is no boost |
| Resume.ChainNamesAreDistinct | internal/scheduler/preemption.go:162-198 | no two pods of a resume chain share a name |
| Resume.ChainRespectsRetries | internal/scheduler/preemption.go:225-239 | a chain goes on exactly while the retry limit allows it, and each resume is the next element of the closed form |
| EvictionRuns.NextLowersMeasure | internal/scheduler/preemption.go:225-254 | each eviction lowers the sum of one plus remaining retries, although the replacement comes back with higher priority |
| EvictionRuns.EvictionsAreBounded | internal/scheduler/preemption.go:119-160 | without arrivals from outside, the evictions of any run number at most the initial sum |
| EvictionRuns.PreemptIsRun | internal/scheduler/preemption.go:125-160 | what Preempt evicts and creates is a run of evictions with the same pods in the same order, so the bound applies to it |
| EvictionRuns.PreemptLowersMeasure | internal/scheduler/preemption.go:119-160 | each preemption lowers the measure by at least the number of pods it evicts |
| Text.ItoaRoundTrip | internal/scheduler/preemption.go:172-182 | numbers written into annotations are read back unchanged |
| JsonPatch.PointerRoundTrip | internal/scheduler/webhook.go:261-274 | RFC 6901: every token list can be written as a pointer and parsed back |
| JsonPatch.RenderedApply | internal/scheduler/webhook.go:23-28 | RFC 6902: applying written operations is applying the edits they stand for |
| JsonPatch.EditsUnderKey | internal/scheduler/webhook.go:97-277 | edits below a member succeed or fail as on the member alone, and change nothing beside it |
| JsonPatch.EachElement | internal/scheduler/webhook.go:101-274 | edits written per list position transform exactly those elements |
| Webhook.HasEnv | internal/scheduler/webhook.go:286-293 | true exactly when the name is among the variables |
| Webhook.BuildSharedGPUPatches | internal/scheduler/webhook.go:97-277 | the operations in the order in which the loops append them |
| Webhook.Mutate | internal/scheduler/webhook.go:58-95 | patches exactly for decodable Pod objects whose annotations ask for sharing, with the memory limit that their annotations give |
| WebhookMeaning.EnvEditsMean | internal/scheduler/webhook.go:119-133 | adding the list with its first variable when there was none, and appending otherwise, both append all variables |
| WebhookMeaning.MpsMountEditsMean | internal/scheduler/webhook.go:244-257 | the later "-" append is safe because the earlier mount group created the list |
| WebhookMeaning.ContainerPhases | internal/scheduler/webhook.go:101-274 | the four groups of one container, each from the state the group before it left |
| WebhookMeaning.RemoveEditsMean | internal/scheduler/webhook.go:259-274 | both removals together take the GPU resource out of limits and requests and never miss their target |
| WebhookTheorem.PatchMeansTransform | internal/scheduler/webhook.go:97-277 | for every pod document that decodes, the written operations applied in order give exactly the intended document, and fail exactly when there is no spec object |
| WebhookTheorem.TransformedContainer | internal/scheduler/webhook.go:101-274 | old variables stay as a prefix, missing ones follow, two mounts follow the old ones, no GPU resource is left, all other members stay |
| WebhookTheorem.EnvIsComplete | internal/scheduler/webhook.go:101-133 | all three variables are defined afterwards |
| WebhookTheorem.TransformedPod | internal/scheduler/webhook.go:137-257 | every container and init container is transformed in place, both volumes follow the old ones, everything else stays |
| Injected.PatchGivesPatchedPod | internal/scheduler/webhook.go:97-277 | applying the operations gives the pod as it should be, entry by entry: in each app container each missing one of the three variables once and with its own value, the two mounts, no GPU resource and every other resource as it was; in each init container the first variable and the first mount only; both volumes; all else unchanged |
| Injected.ContainerGets | internal/scheduler/webhook.go:101-257 | behind a container's own variables, NVIDIA_VISIBLE_DEVICES is all, CUDA_MPS_PINNED_DEVICE_MEM_LIMIT the limit and CUDA_MPS_PIPE_DIRECTORY /tmp/nvidia-mps, each once and only if it was missing |
| Injected.InitContainerGets | internal/scheduler/webhook.go:137-242 | an init container sees the GPUs and their information, and gets neither limit nor pipe; its resources stay |
| Injected.LimitPerDevice | internal/scheduler/webhook.go:295-307 | the limit, split at its commas, names device i with the pod's memory for every i below the GPU count, in order |
| Injected.NullIsAbsent | internal/scheduler/webhook.go:62-66 | a null list or resource member decodes like an absent one, in containers and in the spec |
| Pressure.Flags | internal/proxy/proxy.go:194-213 | at most one hot flag survives, and the two flags say the class of the load |
| Hotness.AggregateIsTotals | internal/proxy/proxy.go:127-168 | a group is measured exactly when one of its workers is ready and routable, and its aggregate is the number, the requests and the sampled latencies of its prefill and of its decode workers |
| Hotness.ClassExactly | internal/proxy/proxy.go:170-213 | a role is hot exactly when it has at least one request more per worker than the other, or its mean latency reaches its own threshold; with both hot the hotter one counts, and decode at a tie |
| Hotness.ClassWithoutThresholds | internal/proxy/proxy.go:195-199 | without thresholds decode is hot if and only if both roles have workers and decode requests x prefill workers - prefill requests x decode workers >= prefill workers x decode workers, and prefill the other way round |
| Hotness.ThresholdsExactly | internal/proxy/proxy.go:265-284 | a group has thresholds exactly when the first configuration of its name states two positive ones |
| Hotness.ReportedFigures | internal/proxy/proxy.go:246-257 | the reported requests are those of both roles, the reported latencies the means over the sampled workers |
| Pressure.Monitor.Measure | internal/proxy/proxy.go:127-168 | one aggregate per group with a measured worker |
| Pressure.Monitor.TickGroup | internal/proxy/proxy.go:170-257 | tracker and report of the group after the tick; other groups untouched |
| Pressure.Monitor.Tick | internal/proxy/proxy.go:123-258 | every measured group takes its step once, whatever the map order; the others keep tracker and report |
| Pressure.Monitor.Loop | internal/proxy/proxy.go:95-263 | after any ticks, the tracker of every group is the last one of the history of the ticks at which the group was measured |
| Pressure.LoopIsHistory | internal/proxy/proxy.go:95-263 | the trackers that the loop goes through are a history, so the run theorems below hold of the loop |
| Pressure.CountersAreRunLengths | internal/proxy/proxy.go:215-228 | each counter is the length of the current run of its class |
| Pressure.SwitchesAreSustained | internal/proxy/proxy.go:230-244 | a switch to a hot state ends at least S ticks of its class, a switch to Normal at least max(1, S/2) calm ticks |
| Pressure.SustainedRunSwitches | internal/proxy/proxy.go:230-244 | out of cooldown such a run does switch the state |
| Pressure.SwitchesExactly | internal/proxy/proxy.go:230-244 | a tick switches to a state if and only if it is not the current one, its run is long enough and the last switch is a cooldown ago |
| Pressure.SwitchesAreSpaced | internal/proxy/proxy.go:239-244 | consecutive switches are at least a cooldown apart |
| Pressure.SustainTicksCoverWindow | internal/proxy/proxy.go:101-113 | S ticks cover the configured window and S - 1 would not |
| Rebalancer.Rebalancer.Evaluate | internal/scheduler/rebalancer.go:140-279 | timers and decision of the group after one report; other groups keep their timers |
| Rebalancer.ActionGuards | internal/scheduler/rebalancer.go:140-279 | each action implies its permission, pressure state, cooldown and worker bounds |
| Decisions.DecidesExactly | internal/scheduler/rebalancer.go:140-279 | one evaluation decides on an action if and only if the report is heard and calls for it by permission, state, latency threshold and worker counts, its timer has lasted the window (in a named state), and the cooldown is over |
| Decisions.TimersAreDates | internal/scheduler/rebalancer.go:153-176 | in every run the timer of a state is the date at which its unbroken run of heard reports started, and the date of the last action that of the last decision to act |
| Decisions.RunStartIsFirst | internal/scheduler/rebalancer.go:153-176 | that start is the first report from which on every heard report had the state |
| Decisions.ActsExactly | internal/scheduler/rebalancer.go:140-279 | in every run the n-th decision is a given action if and only if the report calls for it, the unbroken run of its state spans the window (in a named state), and the last decision to act is a cooldown ago |
| Rebalancer.OneTimerAtATime | internal/scheduler/rebalancer.go:153-176 | in every run at most one of the three timers is set |
| Rebalancer.ActionsAreSustained | internal/scheduler/rebalancer.go:126-131 | an action in a named state ends an unbroken suffix of accepted reports of that state that spans the sustain window |
| Rebalancer.UnnamedStateDecidesAtOnce | internal/scheduler/rebalancer.go:189-212 | an unnamed state with a lone unified worker decides ScaleBoth at the first report, without any sustained run |
| Rebalancer.SustainedExactly | internal/scheduler/rebalancer.go:140-279 | in every run decisions to act on an input are sustained if and only if its state is named, the unnamed state decides nothing there, or there is no window to sustain |
| Rebalancer.ActionsAreSpaced | internal/scheduler/rebalancer.go:133-138 | N actions of a group span at least (N - 1) cooldowns |
| Cluster.CollectInferenceWorkers | cmd/scheduler/main.go:849-894 | the workers are exactly the running, ready pods of this scheduler on registered nodes with a known role, a draining one not routable |
| Cluster.WorkersListDraining | cmd/scheduler/main.go:869-882 | a marked pod appears as draining and not routable or not at all, which is what the drain protocol assumes of a fetch |
| ServingPods.RoutedPodsExactly | cmd/scheduler/main.go:849-894 | the router may choose a worker of this name for a role of a group if and only if the pod of that name runs ready and undrained on a registered node with that role, that group, an endpoint and, for prefill and decode, NVLink |
| Scaling.FindInProgress | cmd/scheduler/main.go:458-492 | true exactly when a live pod of the role is not ready |
| Scaling.FindDraining | cmd/scheduler/main.go:494-527 | true exactly when a live pod of the role carries the mark |
| Scaling.CheckDeduplication | cmd/scheduler/main.go:425-456 | lets an action through exactly when the listing works and neither the maximum, a pod on its way nor a draining pod blocks it |
| Scaling.SelectScaleDownTarget | cmd/scheduler/main.go:529-581 | a target exactly when at least two pods serve; no serving pod is newer |
| Scaling.TargetIsUnique | cmd/scheduler/main.go:570-580 | the target does not depend on how the sort orders equal elements |
| ServingPods.TargetIsNewest | cmd/scheduler/main.go:529-581 | the drained pod is a live, ready, undrained inference pod of the role and the last created of these, with the greatest name among equals |
| ServingPods.RemovalTakesItsRole | cmd/scheduler/main.go:686-739 | a decode removal drains a decode pod in service and a prefill removal a prefill pod |
| ServingPods.OnlyDrainedPodsGo | cmd/scheduler/main.go:686-761 | handling a removal takes a pod away only after the target was marked and some answer listed no request on it |
| Scaling.Scheduler.MarkPodDraining | cmd/scheduler/main.go:583-603 | the two drain annotations of that pod, nothing else |
| Scaling.Scheduler.ClearPodDraining | cmd/scheduler/main.go:605-625 | the two drain annotations of that pod are gone, nothing else changes |
| Scaling.Scheduler.HandleRebalancerAction | cmd/scheduler/main.go:686-761 | the cluster after each outcome: no script, no target, mark failed, drained, drain failed and cleared or not |
| Scaling.Scheduler.ProcessPolicy | cmd/scheduler/main.go:365-423 | an action is executed exactly when there is a report, the decision is an action, it is no dry run and nothing blocks it |
| RoleFloor.ClearUndoesMark | cmd/scheduler/main.go:605-625 | clearing after a timed-out drain gives every role the serving pods it had before the mark |
| RoleFloor.TargetServes | cmd/scheduler/main.go:529-581 | the target serves the role and is not the last that does |
| RoleFloor.RoleFloorExactly | cmd/scheduler/main.go:686-761 | a served role stays served if and only if the script does not delete its last pod beside the drained one; a drain that times out never costs the floor |
| RoleFloor.FixedScriptEmptiesRole | cmd/scheduler/main.go:741-747 | a script that deletes a fixed pod, as one must that is not told the target, empties a role of two whose other pod is newer |
| WorkerCap.SelectGroup | cmd/scheduler/main.go:378-383 | the workers of one group |
| WorkerCap.CountedWorkers | cmd/scheduler/main.go:425-434 | the compared worker count is the number of running pods of the role on registered nodes |
| WorkerCap.UnblockedIsBelowMax | cmd/scheduler/main.go:436-446 | an addition that nothing blocks starts strictly below the maximum of live pods when the check sees enough |
| WorkerCap.CountedAtMostLive | cmd/scheduler/main.go:425-446 | the compared count is at most the number of live pods, and equal to it if and only if every live pod of the role is running, ready and on a registered node |
| WorkerCap.CapHoldsExactly | cmd/scheduler/main.go:436-446 | for every maximum an unblocked addition starts below it and does not exceed it, if and only if the check sees a pod on its way or counts every live pod of the role |
| CapBreaks.UnseenPodsDoNotBlock | cmd/scheduler/main.go:458-492 | a live pod that is neither counted nor seen as on its way takes the role one further and changes nothing for the check, so a role can end any way above its maximum |
| CapBreaks.UnseenPodBreaksCap | cmd/scheduler/main.go:385-446 | beside one counted worker an unseen pod lets the rebalancer decide on, and the check pass, an addition that ends with three live pods at a maximum of two |
| CapBreaks.UnseenPods | cmd/scheduler/main.go:467-489 | three kinds of unseen pods: pending without the workflow annotation, pending in another namespace, and ready on a node that is no longer registered |
| ScalingRuns.StuckMarkBlocksRemoval | cmd/scheduler/main.go:494-527 | a mark that could not be cleared blocks later removals of the role |
| ScalingRuns.CapOverRuns | cmd/scheduler/main.go:365-456 | over every run whose additions start where the check sees enough of their role, the live pods of a role never exceed its maximum |
| ScalingRuns.FloorOverRuns | cmd/scheduler/main.go:686-739 | over every run, with everyone else's changes between mark and script, a served role stays served |
| ScalingRuns.HandledIsRun | cmd/scheduler/main.go:686-761 | what handling one action leaves behind is the end of such a run |
| Router.FindBest | internal/proxy/router.go:94-191 | no worker with statistics is less loaded than the answer; one without statistics is chosen only when none has any |
| Router.FindRequestWorker | internal/proxy/router.go:19-92 | a route exactly when a unified worker or a pair can serve the group; a pair exactly when there is no unified worker or the group is hot; each worker is the best of its role by its own metric |
| Router.AnswerMeans | internal/proxy/router.go:19-191 | the answer is a unified worker least loaded by time between tokens, or a prefill worker least loaded by time to the first token with a decode worker least loaded by time between tokens; a pair exactly when both roles are served and the group is hot or has no unified worker |
| Drain.Proxy.BeginWorkerRequest | internal/proxy/server.go:313-323 | one more request on that worker, a first one included |
| Drain.Proxy.EndWorkerRequest | internal/proxy/server.go:324-332 | one less, never below zero |
| Drain.Proxy.BeginAll | internal/proxy/server.go:412-415 | the locked section counts every chosen worker |
| Drain.Proxy.EndAll | internal/proxy/server.go:416-421 | the deferred section ends every chosen worker |
| Drain.Proxy.RecordWorkerPhase | internal/proxy/server.go:281-305 | a phase sample changes the averages only, never the request count |
| Drain.SmoothedStaysBetween | internal/proxy/server.go:281-305 | a recorded average stays between its old value and the sample |
| Drain.SamplesAreApart | internal/proxy/server.go:279-305 | a prefill sample moves the first-token latency only and a decode sample the other, a fifth of the way to the sample |
| Drain.WaitForWorkerInflightZero | cmd/scheduler/main.go:627-675 | drained at the first answer that does not show the worker busy, an error at the first failed poll, a timeout only when every answer shows it busy |
| DrainRuns.CountersAreExact | internal/proxy/server.go:313-351 | under every interleaving each counter is the number of open requests on the worker |
| DrainRuns.GuardNeverFires | internal/proxy/server.go:324-332 | the guard against a count at or below zero never fires |
| DrainRuns.SyncCloses | internal/proxy/proxy.go:326-329 | installing an answer fetched after the mark leaves no route to the worker |
| DrainRuns.LoadNeverRises | internal/proxy/router.go:29-42 | once closed, selected plus counted requests on the worker never rise while the mark stays |
| DrainFinal.ZeroIsFinalExactly | internal/proxy/server.go:122-136 | a zero of a marked worker is final if and only if no request has chosen it, counted or not, and under the router's own choice it is not in line for one, neither in the snapshot nor in an answer on its way |
| DrainFinal.TurnComes | internal/proxy/router.go:94-191 | a worker in line gets one more request by new requests alone, with the snapshot as it is: the router turns to the less loaded workers of its list until it is this one's turn |
| DrainFinal.NewWorkerStarves | internal/proxy/router.go:168-174 | a worker that is out of line in every snapshot of a run by the statistics at its start never gets a request in that run, however busy the others are |
| DrainFinal.NeverServedExactly | internal/proxy/router.go:94-191 | while the snapshot stays, a worker without requests gets none in any run if and only if it is not in line: no statistics, and others of its list have some or come first, or its list is not used |
| DrainFinal.SecondWorkerStarves | internal/proxy/router.go:94-191 | of two unified workers the second never gets a request while the snapshot stays, and the first always can: whether the first is busy with statistics and the second idle without, or both are new |
| GangCollector.Collector.Group | internal/scheduler/gang.go:31-54 | one state per gang id with its pods in order, the size stated by its first pod and its earliest creation |
| GangCollector.Collector.SortOut | internal/scheduler/gang.go:56-64 | whatever the map order, complete gangs are ready and old incomplete ones timed out, once each |
| GangCollector.Collector.Collect | internal/scheduler/gang.go:28-67 | ready exactly the gangs with as many pods as the first one asks for, timed out exactly the incomplete ones whose earliest pod is too old, standalone exactly the pods without a gang |
| GangCollector.MemberAt | internal/scheduler/gang.go:31-48 | each pod stands in its gang behind the members that came before it |
| GangCollector.GangByAnnotation | internal/scheduler/gang.go:28-62 | a gang is the pods whose annotation names it, and it is ready exactly when they are as many as its first pod asks for |
| GangCollector.GangIDsAreGangs | internal/scheduler/gang.go:32-46 | the gangs of the partition are exactly the ids that some pod carries |
| GangCollector.CollectionIsPartition | internal/scheduler/gang.go:28-67 | every pod ends, once, in the standalone list, one complete gang or one incomplete gang |

## Left out

- GangSafety.PlanKeepsCapacity: counts what the planner charges, the pod's memory divided by its number of GPUs, although it checks the whole memory on each GPU.
- PlacementRuns.CapacityOverRuns: takes choosing and reserving of one pod or gang as one step among placements, as the single scheduling loop does, and does not split it further.
- GangSharing.ExclusiveOverRuns: is about runs in which no event stacks; when an event can stack is stated exactly for one placement and one gang.
- Sharing.PlacementsKeepExclusiveExactly: is about every choice of eligible GPUs of one node; Sharing.PolicyKeepsExclusiveExactly is about the choices that the configured strategy makes, in any order of nodes and ties that its sorts allow.
- GangSharing.CommitKeepsExclusiveExactly: is about a plan; whether the planner can find a plan that stacks is reduced to the registry for gangs of one pod only, because for more it depends on whether the rest of the gang still fits.
- RunningMemory.PlacementIsStart: links placements on whole GPUs, as RunningMemory.MemberIsStart does for gangs; what runs on MIG instances is not followed.
- LedgerRuns.LedgerEqualsRecords: needs non-negative requests, because with a negative one the law is false.
- Webhook.Mutate: takes the two resource quantities that the annotation getters fall back to as numbers.
- Resume.ResumeChainClosedForm: needs a base name without "-resume-" and without "-resume" at its end, and an original priority other than -1 unless there is no boost, because otherwise it is false.
- Rebalancer.ActionsAreSustained: is about the three named pressure states; the unnamed one is treated in Rebalancer.SustainedExactly.
- ScalingRuns.CapOverRuns: takes the worker list and the pod list of a tick as one snapshot, and needs additions to start where the check sees enough, because otherwise the cap does not hold.
- ScalingRuns.FloorOverRuns: needs a removal script that deletes no other pod than the drained one, and speaks of the scheduler's own steps; pods that others remove are theirs.
- DrainFinal.ZeroIsFinalExactly: the pressure reports may say anything at each request; how they follow from the load is not part of the drain model.
- DrainFinal.NeverServedExactly: is about runs that keep the proxy's snapshot; over changing snapshots DrainFinal.NewWorkerStarves is one way.
- WebhookTheorem.PatchMeansTransform: is about JSON values; null list elements and member names in another letter case, which Go's decoder also accepts, are not modelled.
- Scaling.Scheduler.ProcessPolicy: is one policy of a tick; the loop over the policies calls it once for each, and the last report of a group wins.
- Router.FindBest: stands for the three functions that differ in the metric only.
- Fixed-width integers: numbers are unbounded, so neither 64-bit overflow nor the range error of number parsing is modelled.
- Rounding: latencies, pressure scores and averages are real numbers.
- Order of equal elements: sorting gives some sorted permutation, as the source's sort promises no more.
- Kubernetes calls: the outcomes of bind, delete, create, update and list, the preemption candidates, and the script's effect are inputs.
- Nil arguments: nil pods, jobs, workers and reports are not modelled.
- Preferred nodes of disaggregated pods: resolveDisaggPreferredNodes is not part of this model; its answer is an input.
- MIG availability across reports and sharing of report slices between registry and agent.
- The order in which the watcher walks its queue and the creation time of resumed pods.
- internal/gpu/manager.go, Allocate without routing, the extender, reconcileExistingPods and the deprecated mark and release calls without a pod.
- The queue, the env injector, configuration checks, HTTP handling, streaming, metrics, events, logging, the dashboard and the benchmark.
- White space beyond U+00FF in trimmed annotations.
- Resource quantities are numbers; parsing them is not modelled.
