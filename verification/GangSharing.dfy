/** Exactly when gangs keep GPUs without MPS exclusive, and exclusive use over whole runs. */
module GangSharing {
  import opened Collections
  import opened Types
  import opened Strategy
  import opened Pods
  import opened Ledger
  import opened LedgerRuns
  import opened GangPlanner
  import opened GangSafety
  import opened Commit
  import opened Watcher
  import opened PlacementRuns
  import opened Sharing

  // ---------- Plans that stack ----------

  /** Placement i takes GPU b of node a, which lacks MPS and already holds a pod in the shadow that the earlier placements
      left. */
  ghost predicate StacksOn(view: seq<Node>, ps: seq<PodPlacement>, i: nat, a: int, b: int)
    requires i < |ps|
  {
    var shadow := ShadowAfter(view, ps, i);
    && ValidIndex(shadow, a, b) && Uses(shadow, a, b, ps[i].nodeName, ps[i].gpuIDs)
    && !shadow[a].gpus[b].mps && shadow[a].gpus[b].allocatedPods >= 1
  }

  ghost predicate PlanStacks(view: seq<Node>, ps: seq<PodPlacement>) {
    exists i: nat, a, b :: i < |ps| && StacksOn(view, ps, i, a, b)
  }

  /** Only shared members can stack. */
  lemma OnlySharedStack(view: seq<Node>, pods: seq<PodRef>, jobs: seq<Job>, ps: seq<PodPlacement>, i: nat, a: int, b: int)
    requires WellNamed(view) && ValidPlan(view, pods, jobs, ps) && i < |ps| && StacksOn(view, ps, i, a, b)
    ensures jobs[i].shared
  {
    ShadowHardware(view, pods, jobs, ps, i);
    assert ValidStep(view, pods, jobs, ps, i);
    UsedIsEligible(ShadowAfter(view, ps, i), ps[i].nodeName, ps[i].gpuIDs, GPUCountOf(jobs[i]), jobs[i].memoryMB, jobs[i].shared, a, b);
  }

  /** A GPU without MPS that starts with at most one pod keeps at most one, unless the plan stacks. */
  lemma {:induction false} NoStackStaysExclusive(view: seq<Node>, pods: seq<PodRef>, jobs: seq<Job>, ps: seq<PodPlacement>,
                                                 n: nat, a: int, b: int)
    requires WellNamed(view) && ValidPlan(view, pods, jobs, ps) && n <= |ps| && ValidIndex(view, a, b)
    requires !PlanStacks(view, ps) && !view[a].gpus[b].mps && view[a].gpus[b].allocatedPods <= 1
    ensures ValidIndex(ShadowAfter(view, ps, n), a, b) && ShadowAfter(view, ps, n)[a].gpus[b].allocatedPods <= 1
  {
    if n > 0 {
      NoStackStaysExclusive(view, pods, jobs, ps, n - 1, a, b);
      ShadowHardware(view, pods, jobs, ps, n);
      ShadowHardware(view, pods, jobs, ps, n - 1);
      var before := ShadowAfter(view, ps, n - 1);
      ChargeAt(before, ps[n - 1].nodeName, ps[n - 1].gpuIDs, ps[n - 1].memoryMB, a, b);
      assert !StacksOn(view, ps, n - 1, a, b);
    }
  }

  lemma {:induction false} CountsNeverDrop(view: seq<Node>, pods: seq<PodRef>, jobs: seq<Job>, ps: seq<PodPlacement>,
                                           i: nat, n: nat, a: int, b: int)
    requires WellNamed(view) && ValidPlan(view, pods, jobs, ps) && i <= n <= |ps| && ValidIndex(view, a, b)
    ensures ValidIndex(ShadowAfter(view, ps, n), a, b) && ValidIndex(ShadowAfter(view, ps, i), a, b)
    ensures ShadowAfter(view, ps, n)[a].gpus[b].allocatedPods >= ShadowAfter(view, ps, i)[a].gpus[b].allocatedPods
    decreases n
  {
    ShadowHardware(view, pods, jobs, ps, i);
    if i < n {
      CountsNeverDrop(view, pods, jobs, ps, i, n - 1, a, b);
      ShadowHardware(view, pods, jobs, ps, n);
      ChargeAt(ShadowAfter(view, ps, n - 1), ps[n - 1].nodeName, ps[n - 1].gpuIDs, ps[n - 1].memoryMB, a, b);
    }
  }

  /** A plan that stacks leaves two pods on a GPU without MPS. */
  lemma StackedShadow(view: seq<Node>, pods: seq<PodRef>, jobs: seq<Job>, ps: seq<PodPlacement>) returns (a: int, b: int)
    requires WellNamed(view) && ValidPlan(view, pods, jobs, ps) && PlanStacks(view, ps)
    ensures ValidIndex(view, a, b) && ValidIndex(ShadowAfter(view, ps, |ps|), a, b)
    ensures !view[a].gpus[b].mps && ShadowAfter(view, ps, |ps|)[a].gpus[b].allocatedPods >= 2
  {
    var i: nat;
    i, a, b :| i < |ps| && StacksOn(view, ps, i, a, b);
    ShadowHardware(view, pods, jobs, ps, i);
    ShadowHardware(view, pods, jobs, ps, i + 1);
    ChargeAt(ShadowAfter(view, ps, i), ps[i].nodeName, ps[i].gpuIDs, ps[i].memoryMB, a, b);
    CountsNeverDrop(view, pods, jobs, ps, i + 1, |ps|, a, b);
  }

  // ---------- Committing a plan ----------

  function AllTrue(n: nat): seq<bool> {
    seq(n, i => true)
  }

  /** With every bind successful, the counts go up by exactly what the plan holds. */
  lemma {:induction false} AllBoundCounts(s: State, ps: seq<PodPlacement>, i: nat, n: string, g: string)
    requires s.reservations.Keys == s.podCounts.Keys && i <= |ps| && Sensible(ps)
    ensures Committed(s, ps, AllTrue(|ps|), i).PodCount(n, g) == s.PodCount(n, g) + PlannedPods(ps, i, n, g)
  {
    hide Release, MarkUpTo, FullGPUEntries;
    if i > 0 {
      AllBoundCounts(s, ps, i - 1, n, g);
      var es := EntriesFor(ps[i - 1]);
      EntriesAreFull(ps[i - 1]);
      MarkUpToTables(Committed(s, ps, AllTrue(|ps|), i - 1), es, |es|, KeyOf(ps[i - 1]), n, g);
      assert es[..|es|] == es;
    }
  }

  /** Whichever binds fail, committing the plan keeps GPUs without MPS exclusive. */
  ghost predicate CommitKeepsExclusive(s: State, hw: Hardware, ps: seq<PodPlacement>)
    requires s.reservations.Keys == s.podCounts.Keys
  {
    forall binds :: |binds| == |ps| ==> Exclusive(Committed(s, ps, binds, |ps|), hw)
  }

  /** The registry after a commit in which every bind succeeds shows the final shadow's counts. */
  lemma {:induction false} FinalCount(s: State, hw: Hardware, view: seq<Node>, ps: seq<PodPlacement>, a: int, b: int)
    requires s.reservations.Keys == s.podCounts.Keys && NodesOK(s, hw) && IsViewOf(view, s) && Sensible(ps)
    requires ValidIndex(view, a, b) && ValidIndex(ShadowAfter(view, ps, |ps|), a, b)
    ensures Committed(s, ps, AllTrue(|ps|), |ps|).PodCount(view[a].name, view[a].gpus[b].id)
         == ShadowAfter(view, ps, |ps|)[a].gpus[b].allocatedPods
    ensures s.PodCount(view[a].name, view[a].gpus[b].id) + PlannedPods(ps, |ps|, view[a].name, view[a].gpus[b].id)
         == ShadowAfter(view, ps, |ps|)[a].gpus[b].allocatedPods
    ensures hw.mps(view[a].name, view[a].gpus[b].id) == view[a].gpus[b].mps
  {
    ViewShows(view, s, hw, a, b);
    hide NodesOK, IsViewOf, Committed;
    ShadowShowsPlan(view, ps, |ps|, a, b);
    AllBoundCounts(s, ps, |ps|, view[a].name, view[a].gpus[b].id);
  }

  lemma UnstackedCommit(s: State, hw: Hardware, view: seq<Node>, pods: seq<PodRef>, jobs: seq<Job>, ps: seq<PodPlacement>,
                        binds: seq<bool>, n: string, g: string)
    requires s.reservations.Keys == s.podCounts.Keys && LedgerOK(s) && NodesOK(s, hw) && IsViewOf(view, s) && WellNamed(view)
    requires ValidPlan(view, pods, jobs, ps) && Sensible(ps) && |binds| == |ps|
    requires !PlanStacks(view, ps) && !hw.mps(n, g) && s.PodCount(n, g) <= 1
    ensures Committed(s, ps, binds, |ps|).PodCount(n, g) <= 1
  {
    hide LedgerOK, NodesOK, IsViewOf, WellNamed, ValidPlan, PlanStacks, Committed, Sensible;
    CommittedBound(s, ps, binds, |ps|, n, g);
    if a, b :| ValidIndex(view, a, b) && view[a].name == n && view[a].gpus[b].id == g {
      ViewShows(view, s, hw, a, b);
      NoStackStaysExclusive(view, pods, jobs, ps, |ps|, a, b);
      FinalCount(s, hw, view, ps, a, b);
    } else {
      PlannedOnView(view, pods, jobs, ps, |ps|, n, g);
    }
  }

  lemma StackedCommit(s: State, hw: Hardware, view: seq<Node>, pods: seq<PodRef>, jobs: seq<Job>, ps: seq<PodPlacement>)
    requires s.reservations.Keys == s.podCounts.Keys && NodesOK(s, hw) && IsViewOf(view, s) && WellNamed(view)
    requires ValidPlan(view, pods, jobs, ps) && Sensible(ps) && PlanStacks(view, ps)
    ensures !Exclusive(Committed(s, ps, AllTrue(|ps|), |ps|), hw)
  {
    hide NodesOK, IsViewOf, WellNamed, ValidPlan, PlanStacks, Committed, Sensible;
    var a, b := StackedShadow(view, pods, jobs, ps);
    FinalCount(s, hw, view, ps, a, b);
  }

  /** Committing a valid plan keeps exclusive use, whichever binds fail, if and only if no member of the plan takes a GPU
      without MPS that held a pod, or was given one by an earlier member. */
  lemma CommitKeepsExclusiveExactly(s: State, hw: Hardware, view: seq<Node>, pods: seq<PodRef>, jobs: seq<Job>, ps: seq<PodPlacement>)
    requires Inv(s, hw) && Exclusive(s, hw) && IsViewOf(view, s) && ValidPlan(view, pods, jobs, ps) && Sensible(ps)
    ensures s.reservations.Keys == s.podCounts.Keys
    ensures CommitKeepsExclusive(s, hw, ps) <==> !PlanStacks(view, ps)
  {
    assert s.reservations.Keys == s.podCounts.Keys;
    ViewIsWellNamed(view, s, hw);
    hide LedgerOK, NodesOK, IsViewOf, WellNamed, ValidPlan, PlanStacks, Committed, Sensible, WithinTotals;
    if PlanStacks(view, ps) {
      StackedCommit(s, hw, view, pods, jobs, ps);
      assert |AllTrue(|ps|)| == |ps|;
    } else {
      forall binds: seq<bool>, n, g | |binds| == |ps| && !hw.mps(n, g)
        ensures Committed(s, ps, binds, |ps|).PodCount(n, g) <= 1
      {
        UnstackedCommit(s, hw, view, pods, jobs, ps, binds, n, g);
      }
    }
  }

  // ---------- Scheduling a gang ----------

  ghost predicate GangsKeepExclusive(s: State, hw: Hardware, pods: seq<Pod>)
    requires s.reservations.Keys == s.podCounts.Keys
  {
    forall ps :: IsGangPlan(s, pods, ps) ==> CommitKeepsExclusive(s, hw, ps)
  }

  /** The planner may answer with a plan that stacks. */
  ghost predicate GangMayStack(s: State, pods: seq<Pod>) {
    exists view, ps :: IsViewOf(view, s) && |ps| == |pods| && ValidPlan(view, RefsOf(pods), JobsOf(pods), ps) && PlanStacks(view, ps)
  }

  /** Scheduling the gang keeps exclusive use, whatever plan is found and whichever binds fail, if and only if the planner
      cannot answer with a plan that stacks. */
  lemma GangsKeepExclusiveExactly(s: State, hw: Hardware, pods: seq<Pod>)
    requires Inv(s, hw) && Exclusive(s, hw) && forall i :: 0 <= i < |pods| ==> GetGPUMemory(pods[i]) >= 0
    ensures s.reservations.Keys == s.podCounts.Keys
    ensures GangsKeepExclusive(s, hw, pods) <==> !GangMayStack(s, pods)
  {
    assert s.reservations.Keys == s.podCounts.Keys;
    hide Inv, Exclusive, IsViewOf, ValidPlan, PlanStacks, CommitKeepsExclusive, Sensible, GetGPUMemory;
    forall view: seq<Node>, ps: seq<PodPlacement>
      | IsViewOf(view, s) && |ps| == |pods| && ValidPlan(view, RefsOf(pods), JobsOf(pods), ps)
      ensures CommitKeepsExclusive(s, hw, ps) <==> !PlanStacks(view, ps)
    {
      PlansAreSensible(s, pods, ps);
      CommitKeepsExclusiveExactly(s, hw, view, RefsOf(pods), JobsOf(pods), ps);
    }
  }

  // ---------- A gang of one ----------

  /** What the planner asks for on behalf of the only member: its whole memory on each of its GPUs. */
  lemma OneMemberPlan(s: State, hw: Hardware, pod: Pod, n: string, g: GPU) returns (view: seq<Node>, ps: seq<PodPlacement>)
    requires NodesOK(s, hw) && IsSharedGPUPod(pod) && n in s.nodes
    requires IsStackingGPU(NodeView(s, n), g, GPUCountOf(JobOf(pod)), GetGPUMemory(pod))
    ensures IsViewOf(view, s) && |ps| == 1 && ValidPlan(view, RefsOf([pod]), JobsOf([pod]), ps) && PlanStacks(view, ps)
  {
    hide GetGPUMemory, GetGPUCount, NodesOK, IsStackingGPU, NodeView;
    var k, memoryMB := GPUCountOf(JobOf(pod)), GetGPUMemory(pod);
    view := ViewExists(s);
    var a :| 0 <= a < |view| && view[a].name == n;
    ViewNode(view, s, a);
    hide IsViewOf;
    var chosen := ChoiceWith(view[a], g, k, memoryMB);
    ps := [PodPlacement(RefsOf([pod])[0], n, IDs(chosen), memoryMB)];
    OneStepIsValid(view, pod, view[a], chosen, ps);
    OneStepStacks(view, a, g, k, memoryMB, ps, chosen);
  }

  lemma OneStepIsValid(view: seq<Node>, pod: Pod, node: Node, chosen: seq<GPU>, ps: seq<PodPlacement>)
    requires node in view && IsSharedGPUPod(pod)
    requires IsChoice(node, chosen, GPUCountOf(JobOf(pod)), GetGPUMemory(pod), true)
    requires ps == [PodPlacement(RefsOf([pod])[0], node.name, IDs(chosen), GetGPUMemory(pod))]
    ensures ValidPlan(view, RefsOf([pod]), JobsOf([pod]), ps)
  {
    hide GetGPUMemory, GetGPUCount, IsChoice, IDs;
    assert |IDs(chosen)| == |chosen| == GPUCountOf(JobOf(pod)) by { ChoiceSize(node, chosen, GPUCountOf(JobOf(pod)), GetGPUMemory(pod)); }
    assert PlacesOn(view, node, chosen, node.name, IDs(chosen), GPUCountOf(JobOf(pod)), GetGPUMemory(pod), true);
    assert ShadowAfter(view, ps, 0) == view;
    assert ValidStep(view, RefsOf([pod]), JobsOf([pod]), ps, 0);
  }

  lemma ChoiceSize(node: Node, chosen: seq<GPU>, k: int, requiredMB: int)
    requires IsChoice(node, chosen, k, requiredMB, true)
    ensures |IDs(chosen)| == |chosen| == k
  {
  }

  lemma OneStepStacks(view: seq<Node>, a: nat, g: GPU, k: int, memoryMB: int, ps: seq<PodPlacement>, chosen: seq<GPU>)
    requires a < |view| && IsStackingGPU(view[a], g, k, memoryMB) && chosen != [] && chosen[0] == g
    requires |ps| == 1 && ps[0].nodeName == view[a].name && ps[0].gpuIDs == IDs(chosen)
    ensures PlanStacks(view, ps)
  {
    hide NodeFits, Eligible;
    var b :| 0 <= b < |view[a].gpus| && view[a].gpus[b] == g;
    assert IDs(chosen)[0] == g.id;
    assert ShadowAfter(view, ps, 0) == view;
    assert StacksOn(view, ps, 0, a, b);
  }

  /** A gang of one shared pod may stack exactly when some node that can host it offers an occupied GPU without MPS. */
  lemma OneMemberStacksExactly(s: State, hw: Hardware, pod: Pod)
    requires NodesOK(s, hw) && IsSharedGPUPod(pod)
    ensures GangMayStack(s, [pod]) <==> HasStackingGPU(s, GPUCountOf(JobOf(pod)), GetGPUMemory(pod))
  {
    hide GetGPUMemory, GetGPUCount, NodesOK, IsStackingGPU, NodeView, IsViewOf, ValidPlan, PlanStacks;
    if HasStackingGPU(s, GPUCountOf(JobOf(pod)), GetGPUMemory(pod)) {
      var n, g :| n in s.nodes && IsStackingGPU(NodeView(s, n), g, GPUCountOf(JobOf(pod)), GetGPUMemory(pod));
      var view, ps := OneMemberPlan(s, hw, pod, n, g);
    }
    if GangMayStack(s, [pod]) {
      var view: seq<Node>, ps: seq<PodPlacement> :| IsViewOf(view, s) && |ps| == |[pod]|
        && ValidPlan(view, RefsOf([pod]), JobsOf([pod]), ps) && PlanStacks(view, ps);
      OneMemberNeedsStackingGPU(s, hw, pod, view, ps);
    }
  }

  /** Scheduling a gang of one shared pod keeps exclusive use, whatever plan is found and whether or not the bind succeeds,
      if and only if no node that can host the pod offers it an occupied GPU without MPS. */
  lemma OneMemberKeepsExclusiveExactly(s: State, hw: Hardware, pod: Pod)
    requires Inv(s, hw) && Exclusive(s, hw) && IsSharedGPUPod(pod) && GetGPUMemory(pod) >= 0
    ensures s.reservations.Keys == s.podCounts.Keys
    ensures GangsKeepExclusive(s, hw, [pod]) <==> !HasStackingGPU(s, GPUCountOf(JobOf(pod)), GetGPUMemory(pod))
  {
    hide GangsKeepExclusive, GangMayStack, HasStackingGPU, GetGPUMemory, Exclusive, LedgerOK, NodesOK, WithinTotals;
    GangsKeepExclusiveExactly(s, hw, [pod]);
    OneMemberStacksExactly(s, hw, pod);
  }

  lemma OneMemberNeedsStackingGPU(s: State, hw: Hardware, pod: Pod, view: seq<Node>, ps: seq<PodPlacement>)
    requires NodesOK(s, hw) && IsSharedGPUPod(pod) && IsViewOf(view, s) && |ps| == 1
    requires ValidPlan(view, RefsOf([pod]), JobsOf([pod]), ps) && PlanStacks(view, ps)
    ensures HasStackingGPU(s, GPUCountOf(JobOf(pod)), GetGPUMemory(pod))
  {
    ViewIsWellNamed(view, s, hw);
    hide GetGPUMemory, GetGPUCount, NodesOK, IsViewOf, WellNamed, Eligible, NodeFits, NodeView, Places;
    var i: nat, a, b :| i < |ps| && StacksOn(view, ps, i, a, b);
    assert ShadowAfter(view, ps, 0) == view;
    assert ValidStep(view, RefsOf([pod]), JobsOf([pod]), ps, 0);
    var k, memoryMB := GPUCountOf(JobOf(pod)), GetGPUMemory(pod);
    UsedIsEligible(view, ps[0].nodeName, ps[0].gpuIDs, k, memoryMB, true, a, b);
    PlacedNodeFits(view, ps[0].nodeName, ps[0].gpuIDs, k, memoryMB, a);
    ViewNode(view, s, a);
    assert IsStackingGPU(NodeView(s, view[a].name), view[a].gpus[b], k, memoryMB);
  }

  lemma PlacedNodeFits(view: seq<Node>, nodeName: string, ids: seq<string>, k: int, requiredMB: int, a: nat)
    requires WellNamed(view) && Places(view, nodeName, ids, k, requiredMB, true) && a < |view| && view[a].name == nodeName
    ensures NodeFits(view[a], k, requiredMB, true)
  {
    hide NodeFits, IsChoice;
    var node, chosen :| PlacesOn(view, node, chosen, nodeName, ids, k, requiredMB, true);
    var c :| 0 <= c < |view| && view[c] == node;
    ChoiceNeedsFit(node, chosen, k, requiredMB, true);
  }

  // ---------- Runs ----------

  /** The event gives no GPU without MPS a second pod. */
  ghost predicate StacksNothing(s: State, e: Event) {
    match e
    case EvPlace(pod, _, _, _) => !MayStack(s, pod)
    case EvGang(pods, ps, _) =>
      forall view :: IsViewOf(view, s) && ValidPlan(view, RefsOf(pods), JobsOf(pods), ps) ==> !PlanStacks(view, ps)
    case _ => true
  }

  /** Shared pods that ask for one GPU and stay out of gangs never stack. */
  lemma SharesOnlyOneStacksNothing(s: State, e: Event, hw: Hardware)
    requires NodesOK(s, hw) && SharesOnlyOneGPU(e)
    ensures StacksNothing(s, e)
  {
    hide HasStackingGPU, IsViewOf, ValidPlan, NodesOK;
    if e.EvGang? {
      forall view | IsViewOf(view, s) && ValidPlan(view, RefsOf(e.pods), JobsOf(e.pods), e.placements)
        ensures !PlanStacks(view, e.placements)
      {
        ViewIsWellNamed(view, s, hw);
        UnsharedPlanDoesNotStack(view, e.pods, e.placements);
      }
    }
  }

  lemma UnsharedPlanDoesNotStack(view: seq<Node>, pods: seq<Pod>, ps: seq<PodPlacement>)
    requires WellNamed(view) && ValidPlan(view, RefsOf(pods), JobsOf(pods), ps) && NoneShared(pods)
    ensures !PlanStacks(view, ps)
  {
    hide WellNamed, StacksOn;
    if PlanStacks(view, ps) {
      var i: nat, a, b :| i < |ps| && StacksOn(view, ps, i, a, b);
      OnlySharedStack(view, RefsOf(pods), JobsOf(pods), ps, i, a, b);
    }
  }

  lemma StepKeepsExclusive(s: State, e: Event, r: State, hw: Hardware)
    requires Inv(s, hw) && Exclusive(s, hw) && IsStep(s, e, r, hw) && StacksNothing(s, e)
    ensures Exclusive(r, hw)
  {
    match e
    case EvPlace(pod, preferred, d, bound) => PlaceKeepsExclusive(s, hw, pod, preferred, d, bound);
    case EvGang(pods, ps, binds) => GangKeepsExclusive(s, hw, pods, ps, binds);
    case _ => StepKeepsInv(s, e, r, hw);
  }

  lemma GangKeepsExclusive(s: State, hw: Hardware, pods: seq<Pod>, ps: seq<PodPlacement>, binds: seq<bool>)
    requires Inv(s, hw) && Exclusive(s, hw) && |binds| == |ps|
    requires Enabled(s, EvGang(pods, ps, binds), hw) && StacksNothing(s, EvGang(pods, ps, binds))
    ensures s.reservations.Keys == s.podCounts.Keys
    ensures Exclusive(Committed(s, ps, binds, |ps|), hw)
  {
    PlansAreSensible(s, pods, ps);
    var view: seq<Node> :| IsViewOf(view, s) && ValidPlan(view, RefsOf(pods), JobsOf(pods), ps);
    hide Inv, Exclusive, IsViewOf, ValidPlan, PlanStacks, Sensible;
    CommitKeepsExclusiveExactly(s, hw, view, RefsOf(pods), JobsOf(pods), ps);
  }

  /** Exclusive use over runs: while no event stacks, a GPU without MPS never holds two pods. */
  lemma {:induction false} ExclusiveOverRuns(run: seq<State>, events: seq<Event>, hw: Hardware, i: nat)
    requires IsRun(run, events, hw) && Inv(run[0], hw) && Exclusive(run[0], hw) && i < |run|
    requires forall j :: 0 <= j < |events| ==> StacksNothing(run[j], events[j])
    ensures Exclusive(run[i], hw)
  {
    if i > 0 {
      ExclusiveOverRuns(run, events, hw, i - 1);
      CapacityOverRuns(run, events, hw, i - 1);
      hide Inv, Exclusive, StacksNothing;
      assert IsStep(run[i - 1], events[i - 1], run[i], hw);
      StepKeepsExclusive(run[i - 1], events[i - 1], run[i], hw);
    }
  }
}
