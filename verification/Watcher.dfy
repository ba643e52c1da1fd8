/** internal/scheduler/watcher.go: placing one pod, placing a gang, and making room by preemption. */
module Watcher {
  import opened Collections
  import opened Types
  import opened Strategy
  import opened Pods
  import opened ControlPlane
  import opened Ledger
  import opened LedgerRuns
  import opened GangPlanner
  import opened Commit
  import opened Resume
  import opened P = Preemption
  import R = Registry
  import A = Allocator
  import D = Disagg

  // ---------- What a one-pod placement may choose ----------

  function PlacementEntries(ps: seq<GPUPlacement>): (es: seq<Entry>)
    ensures |es| == |ps|
  {
    seq(|ps|, i requires 0 <= i < |ps| => Entry(ps[i].nodeName, ps[i].gpuID, ps[i].memoryMB, false))
  }

  function RequiredOf(pod: Pod): int
    requires GetGPUCount(pod) > 0
  {
    RequiredMB(GetGPUMemory(pod), GetGPUCount(pod), GetMemoryMode(pod))
  }

  ghost predicate GangFits(s: State, k: int, requiredMB: int, shared: bool) {
    exists n :: n in s.nodes && NodeFits(NodeView(s, n), k, requiredMB, shared)
  }

  ghost predicate DisaggFits(s: State, memoryMB: int) {
    exists n, g :: n in s.nodes && g in NodeView(s, n).gpus && D.IsDisaggGPU(g, memoryMB)
  }

  ghost predicate RoutedFits(s: State, pod: Pod) {
    var memoryMB, shared := A.RoutedMemory(pod, JobOf(pod)), IsSharedGPUPod(pod);
    var first := A.FirstPool(s, pod, memoryMB);
    A.PoolHas(s, first, memoryMB, shared) || (!A.ClassifyJob(pod).strict && A.PoolHas(s, A.OtherPool(first), memoryMB, shared))
  }

  /** Some placement exists for the pod: several GPUs of one node, a whole unshared GPU for prefill and decode pods,
      or a device of the pools that routing tries. */
  ghost predicate CanPlace(s: State, pod: Pod) {
    if GetGPUCount(pod) > 1 then GangFits(s, GetGPUCount(pod), RequiredOf(pod), IsSharedGPUPod(pod))
    else if GetDisaggIntent(pod).isDisagg then DisaggFits(s, GetGPUMemory(pod))
    else RoutedFits(s, pod)
  }

  datatype Decision = FullGPUs(entries: seq<Entry>) | OneMIG(nodeName: string, uuid: string)

  ghost predicate GangDecision(s: State, pod: Pod, es: seq<Entry>)
    requires GetGPUCount(pod) > 0
  {
    exists view, ps :: IsViewOf(view, s) && es == PlacementEntries(ps)
      && GangPlaced(view, ps, GetGPUCount(pod), RequiredOf(pod), IsSharedGPUPod(pod))
  }

  /** The entries of what the policy takes on some view of the registry. */
  ghost predicate PolicyDecision(policy: Policy, s: State, pod: Pod, es: seq<Entry>)
    requires GetGPUCount(pod) > 0
  {
    exists view, ps :: IsViewOf(view, s) && es == PlacementEntries(ps)
      && PolicyPlaced(policy, view, ps, GetGPUCount(pod), RequiredOf(pod), IsSharedGPUPod(pod))
  }

  ghost predicate DisaggDecision(s: State, pod: Pod, preferred: seq<string>, es: seq<Entry>) {
    exists view, c :: IsViewOf(view, s) && D.IsDisaggChoice(view, preferred, GetGPUMemory(pod), c)
      && es == [Entry(c.nodeName, c.gpuID, GetGPUMemory(pod), false)]
  }

  ghost predicate RoutedDecision(s: State, pod: Pod, d: Decision) {
    var memoryMB, shared := A.RoutedMemory(pod, JobOf(pod)), IsSharedGPUPod(pod);
    var first := A.FirstPool(s, pod, memoryMB);
    exists r :: A.BestInPool(s, r, if A.PoolHas(s, first, memoryMB, shared) then first else A.OtherPool(first), memoryMB, shared)
      && d == if r.isMIG then OneMIG(r.nodeName, r.device) else FullGPUs([Entry(r.nodeName, r.device, GetGPUMemory(pod), false)])
  }

  ghost predicate IsDecision(s: State, pod: Pod, preferred: seq<string>, d: Decision) {
    if GetGPUCount(pod) > 1 then d.FullGPUs? && GangDecision(s, pod, d.entries)
    else if GetDisaggIntent(pod).isDisagg then d.FullGPUs? && DisaggDecision(s, pod, preferred, d.entries)
    else RoutedDecision(s, pod, d)
  }

  /** A valid plan for all pods of the gang, on the view of registry state s. */
  ghost predicate IsGangPlan(s: State, pods: seq<Pod>, ps: seq<PodPlacement>) {
    |ps| == |pods| && exists view :: IsViewOf(view, s) && ValidPlan(view, RefsOf(pods), JobsOf(pods), ps)
  }

  lemma ViewFitsAsState(view: seq<Node>, s: State, k: int, requiredMB: int, shared: bool)
    requires IsViewOf(view, s)
    ensures SomeNodeFits(view, k, requiredMB, shared) <==> GangFits(s, k, requiredMB, shared)
  {
    hide NodeFits, NodeView;
    if SomeNodeFits(view, k, requiredMB, shared) {
      var i :| 0 <= i < |view| && NodeFits(view[i], k, requiredMB, shared);
      assert view[i] == NodeView(s, view[i].name);
    }
    if GangFits(s, k, requiredMB, shared) {
      var n :| n in s.nodes && NodeFits(NodeView(s, n), k, requiredMB, shared);
      var i :| 0 <= i < |view| && view[i].name == n;
      assert view[i] == NodeView(s, n);
    }
  }

  lemma ViewOffersAsState(view: seq<Node>, s: State, memoryMB: int)
    requires IsViewOf(view, s)
    ensures (exists c :: D.IsCandidate(view, c, memoryMB)) <==> DisaggFits(s, memoryMB)
  {
    hide NodeView;
    if c: D.DisaggCandidate :| D.IsCandidate(view, c, memoryMB) {
      var i, g :| 0 <= i < |view| && g in view[i].gpus && D.IsDisaggGPU(g, memoryMB)
        && c == D.DisaggCandidate(view[i].name, g.id, g.AvailableMB());
      assert view[i] == NodeView(s, view[i].name);
    }
    if DisaggFits(s, memoryMB) {
      var n, g :| n in s.nodes && g in NodeView(s, n).gpus && D.IsDisaggGPU(g, memoryMB);
      var i :| 0 <= i < |view| && view[i].name == n;
      assert view[i] == NodeView(s, n);
      assert D.IsCandidate(view, D.DisaggCandidate(n, g.id, g.AvailableMB()), memoryMB);
    }
  }

  // ---------- What happens to the registry ----------

  /** Reserve, bind, and release again if the bind fails. */
  function Place(s: State, d: Decision, memoryMB: int, key: string, bound: bool): (r: State)
    requires s.reservations.Keys == s.podCounts.Keys
    ensures r.reservations.Keys == r.podCounts.Keys
  {
    var t := match d
             case FullGPUs(es) => MarkUpTo(s, es, |es|, key)
             case OneMIG(n, uuid) => MarkMIG(s, n, uuid, memoryMB, key);
    if bound then t else Release(t, key)
  }

  /** The first n victims released. */
  function ReleaseVictims(s: State, victims: seq<Candidate>, n: nat): (r: State)
    requires n <= |victims| && s.reservations.Keys == s.podCounts.Keys
    ensures r.reservations.Keys == r.podCounts.Keys
  {
    if n == 0 then s
    else Release(ReleaseVictims(s, victims, n - 1), PodKey(victims[n - 1].pod.namespace, victims[n - 1].pod.name))
  }

  datatype Outcome =
    | InvalidIntent
    | NoRoom(victims: seq<Candidate>)
    | Placed(decision: Decision, bound: bool)

  lemma SomeVictim(victims: seq<Candidate>, eligible: seq<Candidate>, requiredMB: int)
    requires AreVictims(victims, eligible, requiredMB)
    ensures victims != []
  {
  }

  /** The evictions waited for after the first n victims. */
  function Waited(pending: map<string, int>, victims: seq<Candidate>, n: nat, now: int): map<string, int>
    requires n <= |victims|
  {
    if n == 0 then pending
    else Waited(pending, victims, n - 1, now)[PodKey(victims[n - 1].pod.namespace, victims[n - 1].pod.name) := now]
  }

  class Watcher {
    const registry: R.Registry
    const allocator: A.Allocator
    const policy: Policy
    const orchestrator: Option<ResumeConfig>
    const workflows: WorkflowConfig
    var pendingEvictions: map<string, int>

    ghost predicate Valid()
      reads this, registry
    {
      registry.Valid() && allocator.registry == registry
    }

    constructor (registry: R.Registry, policy: Policy, orchestrator: Option<ResumeConfig>, workflows: WorkflowConfig)
      requires registry.Valid()
      ensures Valid() && this.registry == registry && pendingEvictions == map[]
    {
      var a := new A.Allocator(registry);
      this.registry, this.allocator, this.policy, this.orchestrator, this.workflows := registry, a, policy, orchestrator, workflows;
      pendingEvictions := map[];
    }

    method ChooseSeveral(pod: Pod) returns (r: Option<Decision>)
      requires Valid() && GetGPUCount(pod) > 1
      ensures r.Some? <==> GangFits(registry.Value(), GetGPUCount(pod), RequiredOf(pod), IsSharedGPUPod(pod))
      ensures r.Some? ==> r.value.FullGPUs? && GangDecision(registry.Value(), pod, r.value.entries)
      ensures r.Some? ==> PolicyDecision(policy, registry.Value(), pod, r.value.entries)
    {
      var view := registry.GetNodes();
      var result := Strategy.ScheduleGang(policy, JobOf(pod), view, GetGPUCount(pod), GetMemoryMode(pod));
      ViewFitsAsState(view, registry.Value(), GetGPUCount(pod), RequiredOf(pod), IsSharedGPUPod(pod));
      hide GangFits, SomeNodeFits, IsViewOf, GangPlaced, PolicyPlaced;
      if result.Err? {
        return None;
      }
      assert GangDecision(registry.Value(), pod, PlacementEntries(result.value));
      assert PolicyDecision(policy, registry.Value(), pod, PlacementEntries(result.value));
      return Some(FullGPUs(PlacementEntries(result.value)));
    }

    method ChooseDisagg(pod: Pod, preferred: seq<string>) returns (r: Option<Decision>)
      requires Valid()
      ensures r.Some? <==> DisaggFits(registry.Value(), GetGPUMemory(pod))
      ensures r.Some? ==> r.value.FullGPUs? && DisaggDecision(registry.Value(), pod, preferred, r.value.entries)
    {
      var view := registry.GetNodes();
      var candidate := D.SelectDisaggFullGPUCandidate(view, preferred, GetGPUMemory(pod));
      ViewOffersAsState(view, registry.Value(), GetGPUMemory(pod));
      hide DisaggFits, IsViewOf, D.IsCandidate;
      if candidate.None? {
        return None;
      }
      assert D.IsCandidate(view, candidate.value, GetGPUMemory(pod));
      return Some(FullGPUs([Entry(candidate.value.nodeName, candidate.value.gpuID, GetGPUMemory(pod), false)]));
    }

    method ChooseRouted(pod: Pod) returns (r: Option<Decision>)
      requires Valid()
      ensures r.Some? <==> RoutedFits(registry.Value(), pod)
      ensures r.Some? ==> RoutedDecision(registry.Value(), pod, r.value)
    {
      var routed := allocator.AllocateWithRouting(pod, JobOf(pod));
      hide A.PoolHas, A.BestInPool, A.FirstPool;
      if routed.None? {
        return None;
      }
      var d := routed.value;
      if d.isMIG {
        return Some(OneMIG(d.nodeName, d.device));
      }
      return Some(FullGPUs([Entry(d.nodeName, d.device, GetGPUMemory(pod), false)]));
    }

    /** Pick devices for the pod; nothing is reserved yet. */
    method Choose(pod: Pod, preferred: seq<string>) returns (r: Option<Decision>)
      requires Valid()
      ensures r.Some? <==> CanPlace(registry.Value(), pod)
      ensures r.Some? ==> IsDecision(registry.Value(), pod, preferred, r.value)
      ensures r.Some? && GetGPUCount(pod) > 1 ==> r.value.FullGPUs? && PolicyDecision(policy, registry.Value(), pod, r.value.entries)
    {
      hide GangFits, DisaggFits, RoutedFits, GangDecision, PolicyDecision, DisaggDecision, RoutedDecision;
      if GetGPUCount(pod) > 1 {
        r := ChooseSeveral(pod);
      } else if GetDisaggIntent(pod).isDisagg {
        r := ChooseDisagg(pod, preferred);
      } else {
        r := ChooseRouted(pod);
      }
    }

    /** Reserve the chosen devices, bind, and roll back if the bind fails. */
    method Reserve(pod: Pod, d: Decision, bound: bool)
      requires Valid()
      modifies registry
      ensures Valid()
      ensures registry.Value() == Place(old(registry.Value()), d, GetGPUMemory(pod), PodKey(pod.namespace, pod.name), bound)
    {
      hide Mark, MarkMIG, Release;
      match d {
        case FullGPUs(es) =>
          for i := 0 to |es|
            invariant Valid()
            invariant registry.Value() == MarkUpTo(old(registry.Value()), es, i, PodKey(pod.namespace, pod.name))
          {
            registry.MarkGPUAllocatedForPod(es[i].nodeName, es[i].gpuUUID, es[i].memoryMB, pod.namespace, pod.name);
          }
        case OneMIG(n, uuid) =>
          registry.MarkMIGAllocatedForPod(n, uuid, GetGPUMemory(pod), pod.namespace, pod.name);
      }
      if !bound {
        registry.ReleasePod(pod.namespace, pod.name);
      }
    }

    /** schedulePod. Whether the bind succeeds, the pods that could be evicted and how the cluster answers are inputs. */
    method SchedulePod(pod: Pod, preferred: seq<string>, bindOK: bool, candidates: seq<Candidate>, cluster: Cluster, now: int)
      returns (outcome: Outcome)
      requires Valid()
      modifies this`pendingEvictions, registry
      ensures Valid()
      ensures outcome.InvalidIntent? <==> !GetDisaggIntent(pod).isValid
      ensures outcome.NoRoom? <==> GetDisaggIntent(pod).isValid && !CanPlace(old(registry.Value()), pod)
      ensures match outcome
              case InvalidIntent => registry.Value() == old(registry.Value())
              case Placed(d, bound) =>
                && bound == bindOK && IsDecision(old(registry.Value()), pod, preferred, d)
                && registry.Value() == Place(old(registry.Value()), d, GetGPUMemory(pod), PodKey(pod.namespace, pod.name), bound)
              case NoRoom(victims) =>
                && registry.Value() == ReleaseVictims(old(registry.Value()), victims, |victims|)
                && pendingEvictions == Waited(old(pendingEvictions), victims, |victims|, now)
                && AreEvicted(victims, pod, candidates)
      ensures outcome.Placed? && GetGPUCount(pod) > 1 ==>
                outcome.decision.FullGPUs? && PolicyDecision(policy, old(registry.Value()), pod, outcome.decision.entries)
    {
      if !GetDisaggIntent(pod).isValid {
        return InvalidIntent;
      }
      var d := Choose(pod, preferred);
      hide CanPlace, IsDecision, PolicyDecision, Place, ReleaseVictims, AreVictims, EligibleOf;
      if d.None? {
        var victims := HandleNoCapacityForPod(pod, candidates, cluster, now);
        return NoRoom(victims);
      }
      Reserve(pod, d.value, bindOK);
      return Placed(d.value, bindOK);
    }

    /** The greedy victims for the pod's memory; none only without an orchestrator or when no eviction would do. */
    ghost predicate AreEvicted(victims: seq<Candidate>, pod: Pod, candidates: seq<Candidate>) {
      var eligible := EligibleOf(candidates, GetPriority(pod, workflows));
      if victims == [] then orchestrator.None? || eligible == [] || NoPrefixFrees(eligible, GetGPUMemory(pod))
      else orchestrator.Some? && AreVictims(victims, eligible, GetGPUMemory(pod))
    }

    /** Evict victims if that would free enough. Every selected victim loses its reservation and is waited for, also
        one whose deletion failed. */
    method HandleNoCapacityForPod(pod: Pod, candidates: seq<Candidate>, cluster: Cluster, now: int) returns (victims: seq<Candidate>)
      requires Valid()
      modifies this`pendingEvictions, registry
      ensures Valid()
      ensures registry.Value() == ReleaseVictims(old(registry.Value()), victims, |victims|)
      ensures pendingEvictions == Waited(old(pendingEvictions), victims, |victims|, now)
      ensures AreEvicted(victims, pod, candidates)
    {
      hide AreVictims, EligibleOf, NoPrefixFrees, Release;
      victims := [];
      if orchestrator.None? {
        return;
      }
      var r, evicted, created :=
        P.Preempt(GetPriority(pod, workflows), GetGPUMemory(pod), candidates, orchestrator.value, cluster);
      if r.Err? {
        return;
      }
      victims := r.value;
      SomeVictim(victims, EligibleOf(candidates, GetPriority(pod, workflows)), GetGPUMemory(pod));
      for i := 0 to |victims|
        invariant Valid()
        invariant registry.Value() == ReleaseVictims(old(registry.Value()), victims, i)
        invariant pendingEvictions == Waited(old(pendingEvictions), victims, i, now)
      {
        var v := victims[i].pod;
        registry.ReleasePod(v.namespace, v.name);
        pendingEvictions := pendingEvictions[PodKey(v.namespace, v.name) := now];
      }
    }

    /** Before a pass, in any order: drop the awaited keys that are gone, and defer the pass at the first that is still
        listed. */
    method AwaitEvictions(listed: seq<string>) returns (proceed: bool)
      modifies this`pendingEvictions
      ensures proceed <==> forall k :: k in old(pendingEvictions) ==> k !in listed
      ensures proceed ==> pendingEvictions == map[]
      ensures forall k :: k in pendingEvictions ==> k in old(pendingEvictions) && pendingEvictions[k] == old(pendingEvictions[k])
      ensures forall k :: k in old(pendingEvictions) && k in listed ==> k in pendingEvictions
    {
      var todo := pendingEvictions.Keys;
      while todo != {}
        invariant todo <= pendingEvictions.Keys
        invariant pendingEvictions == old(pendingEvictions) - (old(pendingEvictions).Keys - todo)
        invariant forall k :: k in old(pendingEvictions) && k !in todo ==> k !in listed
        decreases |todo|
      {
        var key :| key in todo;
        var stillExists := false;
        for i := 0 to |listed|
          invariant !stillExists && key !in listed[..i]
        {
          if listed[i] == key {
            stillExists := true;
            break;
          }
        }
        if stillExists {
          return false;
        }
        pendingEvictions := pendingEvictions - {key};
        todo := todo - {key};
      }
      return true;
    }

    /** The fresh slices GetNodes hands out. */
    method NodeInfos(view: seq<Node>) returns (nodes: seq<NodeInfo>)
      ensures View(nodes) == view
      ensures forall i :: 0 <= i < |nodes| ==> fresh(nodes[i].gpus)
    {
      nodes := [];
      for i := 0 to |view|
        invariant |nodes| == i
        invariant forall a :: 0 <= a < i ==> fresh(nodes[a].gpus)
        invariant forall a :: 0 <= a < i ==> nodes[a].name == view[a].name && nodes[a].gpus[..] == view[a].gpus
      {
        var gpus := new GPU[|view[i].gpus|](j requires 0 <= j < |view[i].gpus| => view[i].gpus[j]);
        assert gpus[..] == view[i].gpus;
        nodes := nodes + [NodeInfo(view[i].name, gpus)];
      }
    }

    /** scheduleGang: plan on the registry's view, then commit placement by placement; binds[i] says whether the i-th
        bind succeeds. A plan that fails commits nothing. */
    method ScheduleGang(pods: seq<Pod>, binds: seq<bool>) returns (r: Result<seq<PodPlacement>, GangError>)
      requires Valid() && |binds| == |pods|
      modifies registry
      ensures Valid()
      ensures r.Err? ==> registry.Value() == old(registry.Value())
      ensures r.Ok? ==> |r.value| == |pods| && registry.Value() == Committed(old(registry.Value()), r.value, binds, |pods|)
      ensures r.Ok? ==> IsGangPlan(old(registry.Value()), pods, r.value)
    {
      var view := registry.GetNodes();
      var nodes := NodeInfos(view);
      r := ScheduleMultiPodGang(policy, RefsOf(pods), nodes, JobsOf(pods));
      hide IsViewOf, ValidPlan;
      if r.Err? {
        return;
      }
      assert View(nodes) == view;
      assert IsGangPlan(old(registry.Value()), pods, r.value);
      CommitAll(r.value, binds);
    }

    method CommitAll(ps: seq<PodPlacement>, binds: seq<bool>)
      requires Valid() && |binds| == |ps|
      modifies registry
      ensures Valid()
      ensures registry.Value() == Committed(old(registry.Value()), ps, binds, |ps|)
    {
      hide CommitOne;
      for i := 0 to |ps|
        invariant Valid()
        invariant registry.Value() == Committed(old(registry.Value()), ps, binds, i)
      {
        CommitPlacement(ps[i], binds[i]);
      }
    }

    /** One round of the commit loop. */
    method CommitPlacement(p: PodPlacement, bound: bool)
      requires Valid()
      modifies registry
      ensures Valid()
      ensures registry.Value() == CommitOne(old(registry.Value()), p, bound)
    {
      hide Mark, Release;
      for j := 0 to |p.gpuIDs|
        invariant Valid()
        invariant registry.Value() == MarkUpTo(old(registry.Value()), EntriesFor(p), j, KeyOf(p))
      {
        var memPerGPU := TruncDiv(p.memoryMB, |p.gpuIDs|);
        registry.MarkGPUAllocatedForPod(p.nodeName, p.gpuIDs[j], memPerGPU, p.pod.namespace, p.pod.name);
      }
      if !bound {
        registry.ReleasePod(p.pod.namespace, p.pod.name);
      }
    }
  }

  function RefsOf(pods: seq<Pod>): seq<PodRef> {
    seq(|pods|, i requires 0 <= i < |pods| => PodRef(pods[i].namespace, pods[i].name))
  }

  function JobsOf(pods: seq<Pod>): seq<Job> {
    seq(|pods|, i requires 0 <= i < |pods| => JobOf(pods[i]))
  }

  // ---------- Victims lose their records ----------

  lemma {:induction false} ReleasedVictimsAreForgotten(s: State, victims: seq<Candidate>, n: nat, key: string)
    requires n <= |victims| && s.reservations.Keys == s.podCounts.Keys
    ensures key in ReleaseVictims(s, victims, n).allocs
        <==> key in s.allocs && forall i :: 0 <= i < n ==> PodKey(victims[i].pod.namespace, victims[i].pod.name) != key
  {
    if n > 0 {
      ReleasedVictimsAreForgotten(s, victims, n - 1, key);
    }
  }
}
