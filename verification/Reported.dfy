/** What placement means in terms of the agents' reports, the ledger and the pod's own annotations and labels: which pods can
    be placed, on which devices, and which device is taken first. */
module Reported {
  import opened Collections
  import opened Types
  import opened Text
  import opened Strategy
  import opened Pods
  import opened ControlPlane
  import opened Ledger
  import opened GangPlanner
  import opened GangSafety
  import opened Watcher
  import R = Registry
  import A = Allocator
  import D = Disagg
  import Resume

  // ---------- Devices that a report offers ----------

  ghost predicate IsReported(s: State, n: string, g: GPUInfo) {
    n in s.nodes && g in s.nodes[n].gpus
  }

  /** The strategies may use the GPU: healthy, not full, enough unreserved memory, and free unless the job is shared. */
  predicate HasRoom(s: State, n: string, g: GPUInfo, requiredMB: int, shared: bool) {
    var reserved := s.Reserved(n, g.uuid);
    && g.healthy && (shared || s.PodCount(n, g.uuid) <= 0)
    && g.totalMB - reserved >= requiredMB && (g.totalMB <= 0 || reserved != g.totalMB)
  }

  /** A prefill or decode pod may use the GPU. */
  predicate HasPrivateRoom(s: State, n: string, g: GPUInfo, memoryMB: int) {
    g.healthy && !g.mpsEnabled && s.PodCount(n, g.uuid) <= 0 && g.totalMB - s.Reserved(n, g.uuid) >= memoryMB
  }

  /** The memory reported free, less what is reserved; a report of no free memory is not believed where the used memory
      leaves some. */
  function Unreserved(s: State, n: string, g: GPUInfo): int {
    (if g.freeMB == 0 && g.totalMB > g.usedMB then g.totalMB - g.usedMB else g.freeMB) - s.Reserved(n, g.uuid)
  }

  /** Routing may use the whole GPU. */
  ghost predicate IsWholeGPU(s: State, n: string, g: GPUInfo, memoryMB: int, shared: bool) {
    && IsReported(s, n, g) && g.healthy && !g.migEnabled && Unreserved(s, n, g) >= memoryMB
    && (if shared then g.mpsEnabled else !g.mpsEnabled && s.PodCount(n, g.uuid) == 0)
  }

  /** Routing may use the MIG instance. */
  ghost predicate IsInstance(s: State, n: string, g: GPUInfo, m: MIGInstance, memoryMB: int) {
    IsReported(s, n, g) && g.healthy && g.migEnabled && m in g.migInstances && m.available && m.memoryMB >= memoryMB
  }

  ghost predicate HasWholeGPU(s: State, memoryMB: int, shared: bool) {
    exists n, g :: IsWholeGPU(s, n, g, memoryMB, shared)
  }

  ghost predicate HasInstance(s: State, memoryMB: int) {
    exists n, g, m :: IsInstance(s, n, g, m, memoryMB)
  }

  // ---------- Several GPUs of one node ----------

  ghost predicate Increasing(idx: seq<nat>, n: nat) {
    && (forall i, j :: 0 <= i < j < |idx| ==> idx[i] < idx[j])
    && (forall i :: 0 <= i < |idx| ==> idx[i] < n)
  }

  /** Node n reports k different GPUs with room. */
  ghost predicate OffersSeveral(s: State, n: string, k: nat, requiredMB: int, shared: bool) {
    n in s.nodes && exists idx: seq<nat> :: |idx| == k && AreWithRoom(s, n, idx, requiredMB, shared)
  }

  ghost predicate AreWithRoom(s: State, n: string, idx: seq<nat>, requiredMB: int, shared: bool)
    requires n in s.nodes
  {
    && Increasing(idx, |s.nodes[n].gpus|)
    && forall i :: 0 <= i < |idx| ==> HasRoom(s, n, s.nodes[n].gpus[idx[i]], requiredMB, shared)
  }

  /** The view shows each reported GPU with its health, its reservations and its pods. */
  lemma ViewOffers(s: State, n: string, requiredMB: int, shared: bool)
    requires n in s.nodes
    ensures NodeView(s, n).name == n && |NodeView(s, n).gpus| == |s.nodes[n].gpus|
    ensures forall j :: 0 <= j < |s.nodes[n].gpus| ==>
              var g, v := s.nodes[n].gpus[j], NodeView(s, n).gpus[j];
              && v.id == g.uuid && v.mps == g.mpsEnabled && v.utilization == g.utilization as real
              && v.totalMB - v.usedMB == g.totalMB - s.Reserved(n, g.uuid)
              && (Eligible(v, requiredMB, shared) <==> HasRoom(s, n, g, requiredMB, shared))
              && (D.IsDisaggGPU(v, requiredMB) <==> HasPrivateRoom(s, n, g, requiredMB))
  {
  }

  /** The positions of the eligible ones among the first n GPUs. */
  lemma {:induction false} EligiblePositions(gpus: seq<GPU>, n: nat, requiredMB: int, shared: bool) returns (idx: seq<nat>)
    requires n <= |gpus|
    ensures Increasing(idx, n) && |idx| == |EligibleUpTo(gpus, n, requiredMB, shared)|
    ensures forall i :: 0 <= i < |idx| ==> Eligible(gpus[idx[i]], requiredMB, shared)
  {
    if n == 0 {
      idx := [];
    } else {
      idx := EligiblePositions(gpus, n - 1, requiredMB, shared);
      if Eligible(gpus[n - 1], requiredMB, shared) {
        idx := idx + [n - 1];
      }
    }
  }

  /** There are at least as many eligible GPUs as eligible positions. */
  lemma {:induction false} PositionsAreEligible(gpus: seq<GPU>, n: nat, idx: seq<nat>, requiredMB: int, shared: bool)
    requires n <= |gpus| && Increasing(idx, n)
    requires forall i :: 0 <= i < |idx| ==> Eligible(gpus[idx[i]], requiredMB, shared)
    ensures |EligibleUpTo(gpus, n, requiredMB, shared)| >= |idx|
  {
    hide Eligible;
    if idx != [] {
      var last := idx[|idx| - 1];
      PositionsAreEligible(gpus, last, idx[..|idx| - 1], requiredMB, shared);
      EligibleNext(gpus, last, requiredMB, shared);
      EligibleOfPrefix(gpus, last + 1, n, requiredMB, shared);
    }
  }

  lemma NodeOffersExactly(s: State, n: string, k: nat, requiredMB: int, shared: bool)
    requires n in s.nodes
    ensures NodeFits(NodeView(s, n), k, requiredMB, shared) <==> OffersSeveral(s, n, k, requiredMB, shared)
  {
    var gpus := NodeView(s, n).gpus;
    ViewOffers(s, n, requiredMB, shared);
    hide Eligible, HasRoom, EligibleUpTo, NodeView, HasPrivateRoom;
    if NodeFits(NodeView(s, n), k, requiredMB, shared) {
      var idx := EligiblePositions(gpus, |gpus|, requiredMB, shared);
      assert |idx[..k]| == k && AreWithRoom(s, n, idx[..k], requiredMB, shared);
    }
    if idx: seq<nat> :| |idx| == k && AreWithRoom(s, n, idx, requiredMB, shared) {
      PositionsAreEligible(gpus, |gpus|, idx, requiredMB, shared);
    }
  }

  // ---------- Which pods can be placed ----------

  predicate PlaysPhase(pod: Pod) {
    pod.Says("gpu-scheduler/inference-role", "prefill") || pod.Says("gpu-scheduler/inference-role", "decode")
  }

  predicate WantsPool(pod: Pod, pool: string) {
    "gpu-scheduler.io/pool" in pod.labels && pod.labels["gpu-scheduler.io/pool"] == pool
  }

  predicate AllowsFallback(pod: Pod) {
    && "gpu-scheduler.io/allow-fallback" in pod.labels
    && pod.labels["gpu-scheduler.io/allow-fallback"] in {"1", "t", "T", "TRUE", "true", "True"}
  }

  /** Routing finds a device: in the pool that the label names, in the other one only if the label for it is absent or
      unknown, or fallback is allowed. */
  ghost predicate Routable(s: State, pod: Pod) {
    var whole, instance := HasWholeGPU(s, GetGPUMemory(pod), IsSharedGPUPod(pod)), HasInstance(s, GetGPUMemory(pod));
    if WantsPool(pod, "mig") then instance || (AllowsFallback(pod) && whole)
    else if WantsPool(pod, "full") then whole || (AllowsFallback(pod) && instance)
    else instance || whole
  }

  lemma WholeGPUsAreCandidates(s: State, memoryMB: int, shared: bool)
    ensures A.FullPoolHas(s, memoryMB, shared) <==> HasWholeGPU(s, memoryMB, shared)
  {
    if c :| R.IsFullCandidate(s, c, memoryMB) && A.Admits(c, shared) {
      var g :| g in s.nodes[c.nodeName].gpus && R.FitsFull(s, c.nodeName, g, memoryMB) && c == R.FullCandidate(s, c.nodeName, g);
      assert IsWholeGPU(s, c.nodeName, g, memoryMB, shared);
    }
    if n, g :| IsWholeGPU(s, n, g, memoryMB, shared) {
      assert R.IsFullCandidate(s, R.FullCandidate(s, n, g), memoryMB);
    }
  }

  lemma InstancesAreCandidates(s: State, memoryMB: int)
    ensures A.MIGPoolHas(s, memoryMB) <==> HasInstance(s, memoryMB)
  {
    if c :| R.IsMIGCandidate(s, c, memoryMB) {
      var g, m :| g in s.nodes[c.nodeName].gpus && m in g.migInstances && R.FitsMIG(g, m, memoryMB)
        && c == R.MIGCandidateOf(s, c.nodeName, g, m);
      assert IsInstance(s, c.nodeName, g, m, memoryMB);
    }
    if n, g, m :| IsInstance(s, n, g, m, memoryMB) {
      assert R.IsMIGCandidate(s, R.MIGCandidateOf(s, n, g, m), memoryMB);
    }
  }

  lemma RoutableExactly(s: State, pod: Pod)
    ensures RoutedFits(s, pod) <==> Routable(s, pod)
  {
    A.RoutedMemoryIsReserved(pod);
    WholeGPUsAreCandidates(s, GetGPUMemory(pod), IsSharedGPUPod(pod));
    InstancesAreCandidates(s, GetGPUMemory(pod));
    hide A.FullPoolHas, A.MIGPoolHas, HasWholeGPU, HasInstance, GetGPUMemory, IsSharedGPUPod, A.ExtractGPUMemoryRequest;
  }

  lemma PrivateExactly(s: State, memoryMB: int)
    ensures DisaggFits(s, memoryMB) <==> exists n, g :: IsReported(s, n, g) && HasPrivateRoom(s, n, g, memoryMB)
  {
    if n, v :| n in s.nodes && v in NodeView(s, n).gpus && D.IsDisaggGPU(v, memoryMB) {
      ViewOffers(s, n, memoryMB, false);
      var j :| 0 <= j < |s.nodes[n].gpus| && NodeView(s, n).gpus[j] == v;
      assert IsReported(s, n, s.nodes[n].gpus[j]);
    }
    if n, g :| IsReported(s, n, g) && HasPrivateRoom(s, n, g, memoryMB) {
      ViewOffers(s, n, memoryMB, false);
      var j :| 0 <= j < |s.nodes[n].gpus| && s.nodes[n].gpus[j] == g;
      assert NodeView(s, n).gpus[j] in NodeView(s, n).gpus;
    }
  }

  /** The reports and the ledger leave a place for the pod. */
  ghost predicate HasPlace(s: State, pod: Pod) {
    if GetGPUCount(pod) > 1 then
      exists n :: OffersSeveral(s, n, GetGPUCount(pod), RequiredOf(pod), IsSharedGPUPod(pod))
    else if PlaysPhase(pod) then exists n, g :: IsReported(s, n, g) && HasPrivateRoom(s, n, g, GetGPUMemory(pod))
    else Routable(s, pod)
  }

  lemma PhaseIsDisagg(pod: Pod)
    ensures GetDisaggIntent(pod).isDisagg <==> PlaysPhase(pod)
  {
  }

  /** A placement exists if and only if the reports and the ledger leave a place: k different healthy GPUs of one node with
      room, a healthy unshared GPU without pods for prefill and decode pods, or a device of a pool the labels allow. */
  lemma CanPlaceExactly(s: State, pod: Pod)
    ensures CanPlace(s, pod) <==> HasPlace(s, pod)
  {
    PhaseIsDisagg(pod);
    hide GetGPUCount, GetGPUMemory, GetDisaggIntent, IsSharedGPUPod, PlaysPhase, RequiredMB, RoutedFits, Routable, DisaggFits;
    hide NodeView, NodeFits, OffersSeveral;
    if GetGPUCount(pod) > 1 {
      forall n | n in s.nodes
        ensures NodeFits(NodeView(s, n), GetGPUCount(pod), RequiredOf(pod), IsSharedGPUPod(pod))
            <==> OffersSeveral(s, n, GetGPUCount(pod), RequiredOf(pod), IsSharedGPUPod(pod))
      {
        NodeOffersExactly(s, n, GetGPUCount(pod), RequiredOf(pod), IsSharedGPUPod(pod));
      }
      OnlyRegisteredOffer(s, GetGPUCount(pod), RequiredOf(pod), IsSharedGPUPod(pod));
    } else {
      PrivateExactly(s, GetGPUMemory(pod));
      RoutableExactly(s, pod);
    }
  }

  lemma OnlyRegisteredOffer(s: State, k: nat, requiredMB: int, shared: bool)
    ensures forall n :: OffersSeveral(s, n, k, requiredMB, shared) ==> n in s.nodes
  {
  }

  // ---------- Which devices are taken ----------

  /** The GPU may take the pod's share. */
  ghost predicate MayTake(s: State, n: string, g: GPUInfo, pod: Pod) {
    if GetGPUCount(pod) > 1 then IsReported(s, n, g) && HasRoom(s, n, g, RequiredOf(pod), IsSharedGPUPod(pod))
    else if PlaysPhase(pod) then IsReported(s, n, g) && HasPrivateRoom(s, n, g, GetGPUMemory(pod))
    else IsWholeGPU(s, n, g, GetGPUMemory(pod), IsSharedGPUPod(pod))
  }

  ghost predicate TakesReported(s: State, e: Entry, pod: Pod) {
    exists g: GPUInfo :: g.uuid == e.gpuUUID && MayTake(s, e.nodeName, g, pod)
  }

  /** Every whole GPU of a decision is one that its node reports, that is healthy, and that may take the pod's share. */
  lemma DecisionIsReported(s: State, pod: Pod, preferred: seq<string>, es: seq<Entry>, i: nat)
    requires IsDecision(s, pod, preferred, FullGPUs(es)) && i < |es|
    ensures TakesReported(s, es[i], pod)
    ensures es[i].memoryMB == (if GetGPUCount(pod) > 1 then RequiredOf(pod) else GetGPUMemory(pod)) && !es[i].isMIG
    ensures |es| == (if GetGPUCount(pod) > 1 then GetGPUCount(pod) else 1) && es[i].nodeName == es[0].nodeName
    ensures exists g :: IsReported(s, es[i].nodeName, g) && g.uuid == es[i].gpuUUID && g.healthy
  {
    PhaseIsDisagg(pod);
    hide GetGPUCount, GetGPUMemory, GetDisaggIntent, IsSharedGPUPod, PlaysPhase, RequiredMB, GangDecision, DisaggDecision, RoutedDecision;
    if GetGPUCount(pod) > 1 {
      SeveralAreReported(s, pod, es, i);
    } else if PlaysPhase(pod) {
      PrivateIsReported(s, pod, preferred, es);
    } else {
      RoutedIsReported(s, pod, es);
    }
    var g: GPUInfo :| g.uuid == es[i].gpuUUID && MayTake(s, es[i].nodeName, g, pod);
    assert IsReported(s, es[i].nodeName, g) && g.healthy;
  }

  lemma ShownIsReported(s: State, view: seq<Node>, node: Node, v: GPU, requiredMB: int, shared: bool) returns (g: GPUInfo)
    requires IsViewOf(view, s) && node in view && v in node.gpus
    ensures IsReported(s, node.name, g) && g.uuid == v.id && g.healthy == v.healthy
    ensures Eligible(v, requiredMB, shared) <==> HasRoom(s, node.name, g, requiredMB, shared)
    ensures D.IsDisaggGPU(v, requiredMB) <==> HasPrivateRoom(s, node.name, g, requiredMB)
    ensures v.AvailableMB() == g.totalMB - s.Reserved(node.name, g.uuid)
  {
    var a :| 0 <= a < |view| && view[a] == node;
    var j :| 0 <= j < |node.gpus| && node.gpus[j] == v;
    g := s.nodes[node.name].gpus[j];
  }

  lemma SeveralAreReported(s: State, pod: Pod, es: seq<Entry>, i: nat)
    requires GetGPUCount(pod) > 1 && GangDecision(s, pod, es) && i < |es|
    ensures |es| == GetGPUCount(pod) && es[i].memoryMB == RequiredOf(pod) && !es[i].isMIG && es[i].nodeName == es[0].nodeName
    ensures TakesReported(s, es[i], pod)
  {
    hide GetGPUCount, IsSharedGPUPod, RequiredOf, IsViewOf, Eligible, HasRoom, IsChoice, IsReported, HasPrivateRoom;
    var k, requiredMB, shared := GetGPUCount(pod), RequiredOf(pod), IsSharedGPUPod(pod);
    var view: seq<Node>, ps: seq<GPUPlacement> :| IsViewOf(view, s) && es == PlacementEntries(ps) && GangPlaced(view, ps, k, requiredMB, shared);
    var node: Node, chosen: seq<GPU> :| PlacesOn(view, node, chosen, ps[0].nodeName, PlacementIDs(ps), k, requiredMB, shared);
    assert PlacementIDs(ps)[i] == es[i].gpuUUID && IDs(chosen)[i] == chosen[i].id;
    ChoiceIsFromNode(node, chosen, k, requiredMB, shared, i);
    var g := ShownIsReported(s, view, node, chosen[i], requiredMB, shared);
  }

  lemma PrivateIsReported(s: State, pod: Pod, preferred: seq<string>, es: seq<Entry>)
    requires GetGPUCount(pod) <= 1 && PlaysPhase(pod) && DisaggDecision(s, pod, preferred, es)
    ensures |es| == 1 && TakesReported(s, es[0], pod) && es[0].memoryMB == GetGPUMemory(pod) && !es[0].isMIG
  {
    hide GetGPUCount, GetGPUMemory, PlaysPhase, IsViewOf, D.IsDisaggGPU, HasPrivateRoom, IsReported;
    var view: seq<Node>, c: D.DisaggCandidate :| IsViewOf(view, s) && D.IsDisaggChoice(view, preferred, GetGPUMemory(pod), c)
      && es == [Entry(c.nodeName, c.gpuID, GetGPUMemory(pod), false)];
    var a, v :| 0 <= a < |view| && v in view[a].gpus && D.IsDisaggGPU(v, GetGPUMemory(pod))
      && c == D.DisaggCandidate(view[a].name, v.id, v.AvailableMB());
    var g := ShownIsReported(s, view, view[a], v, GetGPUMemory(pod), false);
  }

  /** The routed device and the pool it is from. */
  lemma RoutedDevice(s: State, pod: Pod, d: Decision) returns (r: A.Routed, pool: A.Pool)
    requires RoutedDecision(s, pod, d)
    ensures A.BestInPool(s, r, pool, GetGPUMemory(pod), IsSharedGPUPod(pod))
    ensures d == if r.isMIG then OneMIG(r.nodeName, r.device) else FullGPUs([Entry(r.nodeName, r.device, GetGPUMemory(pod), false)])
    ensures pool == if A.PoolHas(s, A.FirstPool(s, pod, GetGPUMemory(pod)), GetGPUMemory(pod), IsSharedGPUPod(pod))
                    then A.FirstPool(s, pod, GetGPUMemory(pod)) else A.OtherPool(A.FirstPool(s, pod, GetGPUMemory(pod)))
  {
    A.RoutedMemoryIsReserved(pod);
    assert A.RoutedMemory(pod, JobOf(pod)) == GetGPUMemory(pod);
    hide GetGPUMemory, IsSharedGPUPod, A.RoutedMemory, A.BestInPool, A.PoolHas, A.FirstPool, A.OtherPool;
    var memoryMB, shared := GetGPUMemory(pod), IsSharedGPUPod(pod);
    var first := A.FirstPool(s, pod, memoryMB);
    pool := if A.PoolHas(s, first, memoryMB, shared) then first else A.OtherPool(first);
    r :| A.BestInPool(s, r, pool, memoryMB, shared)
      && d == if r.isMIG then OneMIG(r.nodeName, r.device) else FullGPUs([Entry(r.nodeName, r.device, memoryMB, false)]);
  }

  lemma RoutedIsReported(s: State, pod: Pod, es: seq<Entry>)
    requires GetGPUCount(pod) <= 1 && !PlaysPhase(pod) && RoutedDecision(s, pod, FullGPUs(es))
    ensures |es| == 1 && TakesReported(s, es[0], pod) && es[0].memoryMB == GetGPUMemory(pod) && !es[0].isMIG
  {
    var g := WholeIsTightest(s, pod, es);
  }

  /** a is the better whole GPU for the pod: less unreserved memory; between equals more pods for a shared pod, fewer for
      another. */
  predicate TighterGPU(s: State, n: string, a: GPUInfo, n': string, b: GPUInfo, shared: bool) {
    var freeA, freeB, podsA, podsB := Unreserved(s, n, a), Unreserved(s, n', b), s.PodCount(n, a.uuid), s.PodCount(n', b.uuid);
    freeA < freeB || (freeA == freeB && if shared then podsA >= podsB else podsA <= podsB)
  }

  /** A routed pod gets a reported whole GPU that may take it, and every other such GPU has more unreserved memory, or as
      much and, by the sharing preference, no better pod count. */
  lemma WholeIsTightest(s: State, pod: Pod, es: seq<Entry>) returns (g: GPUInfo)
    requires RoutedDecision(s, pod, FullGPUs(es))
    ensures |es| == 1 && g.uuid == es[0].gpuUUID && es[0].memoryMB == GetGPUMemory(pod) && !es[0].isMIG
    ensures IsWholeGPU(s, es[0].nodeName, g, GetGPUMemory(pod), IsSharedGPUPod(pod))
    ensures forall n, h :: IsWholeGPU(s, n, h, GetGPUMemory(pod), IsSharedGPUPod(pod)) ==>
              TighterGPU(s, es[0].nodeName, g, n, h, IsSharedGPUPod(pod))
  {
    var r, pool := RoutedDevice(s, pod, FullGPUs(es));
    var memoryMB, shared := GetGPUMemory(pod), IsSharedGPUPod(pod);
    hide GetGPUMemory, IsSharedGPUPod, A.PoolHas, A.FirstPool, RoutedDecision;
    var c :| A.IsBestFull(s, c, memoryMB, shared) && r.nodeName == c.nodeName && r.device == c.gpuUUID;
    g :| g in s.nodes[c.nodeName].gpus && R.FitsFull(s, c.nodeName, g, memoryMB) && c == R.FullCandidate(s, c.nodeName, g);
    forall n, h | IsWholeGPU(s, n, h, memoryMB, shared)
      ensures TighterGPU(s, c.nodeName, g, n, h, shared)
    {
      assert R.IsFullCandidate(s, R.FullCandidate(s, n, h), memoryMB);
      assert !A.BetterFull(shared, R.FullCandidate(s, n, h), c);
    }
  }

  /** A routed MIG instance is reported available and large enough, and no other such instance is smaller; between equals
      its GPU has more pods if the pod is shared, fewer otherwise. */
  lemma InstanceIsSmallest(s: State, pod: Pod, node: string, uuid: string) returns (g: GPUInfo, m: MIGInstance)
    requires RoutedDecision(s, pod, OneMIG(node, uuid))
    ensures m.uuid == uuid && IsInstance(s, node, g, m, GetGPUMemory(pod))
    ensures forall n, h, o :: IsInstance(s, n, h, o, GetGPUMemory(pod)) ==>
              var podsG, podsH := s.PodCount(node, g.uuid), s.PodCount(n, h.uuid);
              m.memoryMB < o.memoryMB || (m.memoryMB == o.memoryMB && if IsSharedGPUPod(pod) then podsG >= podsH else podsG <= podsH)
  {
    var r, pool := RoutedDevice(s, pod, OneMIG(node, uuid));
    var memoryMB, shared := GetGPUMemory(pod), IsSharedGPUPod(pod);
    hide GetGPUMemory, IsSharedGPUPod, A.PoolHas, A.FirstPool, RoutedDecision;
    var c :| A.IsBestMIG(s, c, memoryMB, shared) && r.nodeName == c.nodeName && r.device == c.migUUID;
    g, m :| g in s.nodes[c.nodeName].gpus && m in g.migInstances && R.FitsMIG(g, m, memoryMB) && c == R.MIGCandidateOf(s, c.nodeName, g, m);
    forall n, h, o | IsInstance(s, n, h, o, memoryMB)
      ensures !A.BetterMIG(shared, R.MIGCandidateOf(s, n, h, o), c)
    {
      assert R.IsMIGCandidate(s, R.MIGCandidateOf(s, n, h, o), memoryMB);
    }
  }

  /** Without a label for whole GPUs a routed pod gets a MIG instance exactly when one fits; with that label, exactly when
      no whole GPU does. */
  lemma RoutedPoolExactly(s: State, pod: Pod, d: Decision)
    requires RoutedDecision(s, pod, d)
    ensures d.OneMIG? <==> if WantsPool(pod, "full") then !HasWholeGPU(s, GetGPUMemory(pod), IsSharedGPUPod(pod))
                           else HasInstance(s, GetGPUMemory(pod))
  {
    var r, pool := RoutedDevice(s, pod, d);
    WholeGPUsAreCandidates(s, GetGPUMemory(pod), IsSharedGPUPod(pod));
    InstancesAreCandidates(s, GetGPUMemory(pod));
    hide A.FullPoolHas, A.MIGPoolHas, HasWholeGPU, HasInstance, GetGPUMemory, IsSharedGPUPod, A.ExtractGPUMemoryRequest, RoutedDecision;
  }

  // ---------- Prefill and decode pods ----------

  ghost predicate OffersPrivate(s: State, n: string, memoryMB: int) {
    exists g :: IsReported(s, n, g) && HasPrivateRoom(s, n, g, memoryMB)
  }

  lemma OffersAsView(s: State, view: seq<Node>, n: string, memoryMB: int)
    requires IsViewOf(view, s)
    ensures D.NodeOffers(view, n, memoryMB) <==> OffersPrivate(s, n, memoryMB)
  {
    if c :| D.IsCandidate(view, c, memoryMB) && c.nodeName == n {
      var a, v :| 0 <= a < |view| && v in view[a].gpus && D.IsDisaggGPU(v, memoryMB)
        && c == D.DisaggCandidate(view[a].name, v.id, v.AvailableMB());
      var g := ShownIsReported(s, view, view[a], v, memoryMB, false);
    }
    if g :| IsReported(s, n, g) && HasPrivateRoom(s, n, g, memoryMB) {
      var c := ReportedIsCandidate(s, view, n, g, memoryMB);
    }
  }

  lemma ReportedIsCandidate(s: State, view: seq<Node>, n: string, g: GPUInfo, memoryMB: int) returns (c: D.DisaggCandidate)
    requires IsViewOf(view, s) && IsReported(s, n, g) && HasPrivateRoom(s, n, g, memoryMB)
    ensures D.IsCandidate(view, c, memoryMB) && c == D.DisaggCandidate(n, g.uuid, g.totalMB - s.Reserved(n, g.uuid))
  {
    var a :| 0 <= a < |view| && view[a].name == n;
    var j :| 0 <= j < |s.nodes[n].gpus| && s.nodes[n].gpus[j] == g;
    var v := view[a].gpus[j];
    assert v == GPUView(s, n, g) && v in view[a].gpus && D.IsDisaggGPU(v, memoryMB);
    c := D.DisaggCandidate(n, g.uuid, g.totalMB - s.Reserved(n, g.uuid));
  }

  /** The first of the preferred nodes that offers the pod a GPU. */
  ghost predicate IsFirstOffer(s: State, preferred: seq<string>, n: string, memoryMB: int) {
    exists i :: 0 <= i < |preferred| && preferred[i] == n && OffersPrivate(s, n, memoryMB)
      && forall j :: 0 <= j < i ==> !OffersPrivate(s, preferred[j], memoryMB)
  }

  /** A prefill or decode pod goes to the first preferred node that reports a GPU for it, and there to the GPU with the
      least unreserved memory; if none does, to the GPU with the least unreserved memory anywhere. */
  lemma PrivateIsTightest(s: State, pod: Pod, preferred: seq<string>, es: seq<Entry>) returns (g: GPUInfo)
    requires DisaggDecision(s, pod, preferred, es)
    ensures |es| == 1 && g.uuid == es[0].gpuUUID && es[0].memoryMB == GetGPUMemory(pod)
    ensures IsReported(s, es[0].nodeName, g) && HasPrivateRoom(s, es[0].nodeName, g, GetGPUMemory(pod))
    ensures (exists i :: 0 <= i < |preferred| && OffersPrivate(s, preferred[i], GetGPUMemory(pod)))
              ==> IsFirstOffer(s, preferred, es[0].nodeName, GetGPUMemory(pod))
    ensures forall n, h :: (IsReported(s, n, h) && HasPrivateRoom(s, n, h, GetGPUMemory(pod))
                            && (n == es[0].nodeName || !IsFirstOffer(s, preferred, es[0].nodeName, GetGPUMemory(pod))))
              ==> g.totalMB - s.Reserved(es[0].nodeName, g.uuid) <= h.totalMB - s.Reserved(n, h.uuid)
  {
    var memoryMB := GetGPUMemory(pod);
    hide GetGPUMemory, IsViewOf, HasPrivateRoom, OffersPrivate, D.IsCandidate, D.NodeOffers, IsReported;
    var view: seq<Node>, c: D.DisaggCandidate :| IsViewOf(view, s) && D.IsDisaggChoice(view, preferred, memoryMB, c)
      && es == [Entry(c.nodeName, c.gpuID, memoryMB, false)];
    g := CandidateIsReported(s, view, c, memoryMB);
    forall n
      ensures D.NodeOffers(view, n, memoryMB) <==> OffersPrivate(s, n, memoryMB)
    {
      OffersAsView(s, view, n, memoryMB);
    }
    if exists i :: 0 <= i < |preferred| && OffersPrivate(s, preferred[i], memoryMB) {
      var i :| 0 <= i < |preferred| && c.nodeName == preferred[i] && forall j :: 0 <= j < i ==> !D.NodeOffers(view, preferred[j], memoryMB);
      assert IsFirstOffer(s, preferred, c.nodeName, memoryMB);
    }
    forall n, h | IsReported(s, n, h) && HasPrivateRoom(s, n, h, memoryMB)
                  && (n == c.nodeName || !IsFirstOffer(s, preferred, c.nodeName, memoryMB))
      ensures c.freeMB <= h.totalMB - s.Reserved(n, h.uuid)
    {
      var d := ReportedIsCandidate(s, view, n, h, memoryMB);
    }
  }

  lemma CandidateIsReported(s: State, view: seq<Node>, c: D.DisaggCandidate, memoryMB: int) returns (g: GPUInfo)
    requires IsViewOf(view, s) && D.IsCandidate(view, c, memoryMB)
    ensures g.uuid == c.gpuID && IsReported(s, c.nodeName, g) && HasPrivateRoom(s, c.nodeName, g, memoryMB)
    ensures c.freeMB == g.totalMB - s.Reserved(c.nodeName, g.uuid) && OffersPrivate(s, c.nodeName, memoryMB)
  {
    var a, v :| 0 <= a < |view| && v in view[a].gpus && D.IsDisaggGPU(v, memoryMB)
      && c == D.DisaggCandidate(view[a].name, v.id, v.AvailableMB());
    g := ShownIsReported(s, view, view[a], v, memoryMB, false);
  }

  // ---------- Gangs ----------

  lemma {:induction false} ChargesRaise(g: GPU, ids: seq<string>, n: nat, perGPU: int)
    requires n <= |ids| && perGPU >= 0
    ensures var h := ChargeGPU(g, ids, n, perGPU);
            h == g.(usedMB := h.usedMB, allocatedPods := h.allocatedPods) && h.usedMB >= g.usedMB && h.allocatedPods >= g.allocatedPods
  {
    if n > 0 {
      ChargesRaise(g, ids, n - 1, perGPU);
    }
  }

  /** The shadow is the view with some more memory used and some more pods. */
  lemma {:induction false} ShadowRaises(view: seq<Node>, ps: seq<PodPlacement>, n: nat, a: int, b: int)
    requires n <= |ps| && ValidIndex(view, a, b) && forall i :: 0 <= i < |ps| ==> ps[i].memoryMB >= 0
    ensures var shadow := ShadowAfter(view, ps, n);
            && shadow[a].name == view[a].name && |shadow[a].gpus| == |view[a].gpus|
            && var g, h := view[a].gpus[b], shadow[a].gpus[b];
               h == g.(usedMB := h.usedMB, allocatedPods := h.allocatedPods) && h.usedMB >= g.usedMB && h.allocatedPods >= g.allocatedPods
  {
    if n > 0 {
      ShadowRaises(view, ps, n - 1, a, b);
      var p, before := ps[n - 1], ShadowAfter(view, ps, n - 1);
      ChargesRaise(before[a].gpus[b], p.gpuIDs, |p.gpuIDs|, PerGPUCharge(p.memoryMB, |p.gpuIDs|));
    }
  }

  lemma {:induction false} ShadowNodes(view: seq<Node>, ps: seq<PodPlacement>, n: nat, a: int)
    requires n <= |ps| && 0 <= a < |view|
    ensures ShadowAfter(view, ps, n)[a].name == view[a].name && |ShadowAfter(view, ps, n)[a].gpus| == |view[a].gpus|
  {
    if n > 0 {
      ShadowNodes(view, ps, n - 1, a);
    }
  }

  /** Each GPU of a gang member is one that its node reports, that is healthy, and that had room for the member's whole
      memory before the gang. */
  lemma MemberIsReported(s: State, pods: seq<Pod>, ps: seq<PodPlacement>, i: nat, j: nat)
    requires IsGangPlan(s, pods, ps) && i < |ps| && j < |ps[i].gpuIDs|
    requires forall m :: 0 <= m < |pods| ==> GetGPUMemory(pods[m]) >= 0
    ensures |ps[i].gpuIDs| == (if GetGPUCount(pods[i]) <= 0 then 1 else GetGPUCount(pods[i])) && ps[i].memoryMB == GetGPUMemory(pods[i])
    ensures exists g: GPUInfo :: IsReported(s, ps[i].nodeName, g) && g.uuid == ps[i].gpuIDs[j] && g.healthy
              && HasRoom(s, ps[i].nodeName, g, GetGPUMemory(pods[i]), IsSharedGPUPod(pods[i]))
  {
    hide GetGPUMemory, IsSharedGPUPod, IsViewOf, Eligible, HasRoom, GetGPUCount, Places;
    var view: seq<Node> :| IsViewOf(view, s) && ValidPlan(view, RefsOf(pods), JobsOf(pods), ps);
    forall m | 0 <= m < |ps|
      ensures ps[m].memoryMB == GetGPUMemory(pods[m])
    {
      assert ValidStep(view, RefsOf(pods), JobsOf(pods), ps, m);
    }
    assert ValidStep(view, RefsOf(pods), JobsOf(pods), ps, i);
    var a, b := MemberGPU(view, ps, i, j, GPUCountOf(JobOf(pods[i])), GetGPUMemory(pods[i]), IsSharedGPUPod(pods[i]));
    var g := ShownIsReported(s, view, view[a], view[a].gpus[b], GetGPUMemory(pods[i]), IsSharedGPUPod(pods[i]));
    RoomIsHealthy(s, ps[i].nodeName, g, GetGPUMemory(pods[i]), IsSharedGPUPod(pods[i]));
  }

  lemma RoomIsHealthy(s: State, n: string, g: GPUInfo, requiredMB: int, shared: bool)
    requires HasRoom(s, n, g, requiredMB, shared)
    ensures g.healthy
  {
  }

  lemma MemberGPU(view: seq<Node>, ps: seq<PodPlacement>, i: nat, j: nat, k: int, memoryMB: int, shared: bool) returns (a: int, b: int)
    requires i < |ps| && j < |ps[i].gpuIDs| && memoryMB >= 0 && forall m :: 0 <= m < |ps| ==> ps[m].memoryMB >= 0
    requires Places(ShadowAfter(view, ps, i), ps[i].nodeName, ps[i].gpuIDs, k, memoryMB, shared)
    ensures ValidIndex(view, a, b) && view[a].name == ps[i].nodeName && view[a].gpus[b].id == ps[i].gpuIDs[j]
    ensures Eligible(view[a].gpus[b], memoryMB, shared)
  {
    var shadow := ShadowAfter(view, ps, i);
    var node: Node, chosen: seq<GPU> :| PlacesOn(shadow, node, chosen, ps[i].nodeName, ps[i].gpuIDs, k, memoryMB, shared);
    ChoiceIsFromNode(node, chosen, k, memoryMB, shared, j);
    a :| 0 <= a < |shadow| && shadow[a] == node;
    b :| 0 <= b < |node.gpus| && node.gpus[b] == chosen[j];
    hide ShadowAfter;
    ShadowNodes(view, ps, i, a);
    ShadowRaises(view, ps, i, a, b);
  }

  // ---------- MIG instances are taken one by one ----------

  /** Node n offers the instance of this name. */
  ghost predicate OffersInstance(s: State, n: string, uuid: string, memoryMB: int) {
    exists g, m :: IsInstance(s, n, g, m, memoryMB) && m.uuid == uuid
  }

  lemma SetIsLocal(s: State, r: State, n: string, uuid: string, n': string, j: int, l: int)
    requires r.nodes == SetMIG(s.nodes, n, uuid, false)
    requires n' in s.nodes && 0 <= j < |s.nodes[n'].gpus| && 0 <= l < |s.nodes[n'].gpus[j].migInstances|
    ensures n' in r.nodes && j < |r.nodes[n'].gpus| && l < |r.nodes[n'].gpus[j].migInstances|
    ensures var g, h := s.nodes[n'].gpus[j], r.nodes[n'].gpus[j];
            && h.healthy == g.healthy && h.migEnabled == g.migEnabled
            && h.migInstances[l] == if n' == n && g.migInstances[l].uuid == uuid then g.migInstances[l].(available := false)
                                    else g.migInstances[l]
  {
  }

  /** Marking an instance takes it off the offers of its node, and no other instance off any. */
  lemma MarkedInstanceIsTaken(s: State, n: string, uuid: string, key: string, reservedMB: int, n': string, other: string, memoryMB: int)
    ensures OffersInstance(MarkMIG(s, n, uuid, reservedMB, key), n', other, memoryMB)
        <==> OffersInstance(s, n', other, memoryMB) && !(n' == n && other == uuid)
  {
    var r := MarkMIG(s, n, uuid, reservedMB, key);
    if g, m :| IsInstance(s, n', g, m, memoryMB) && m.uuid == other {
      var j :| 0 <= j < |s.nodes[n'].gpus| && s.nodes[n'].gpus[j] == g;
      var l :| 0 <= l < |g.migInstances| && g.migInstances[l] == m;
      SetIsLocal(s, r, n, uuid, n', j, l);
      if !(n' == n && other == uuid) {
        assert IsInstance(r, n', r.nodes[n'].gpus[j], r.nodes[n'].gpus[j].migInstances[l], memoryMB);
      }
    }
    if g, m :| IsInstance(r, n', g, m, memoryMB) && m.uuid == other {
      var j :| 0 <= j < |r.nodes[n'].gpus| && r.nodes[n'].gpus[j] == g;
      var l :| 0 <= l < |g.migInstances| && g.migInstances[l] == m;
      SetIsLocal(s, r, n, uuid, n', j, l);
      assert IsInstance(s, n', s.nodes[n'].gpus[j], s.nodes[n'].gpus[j].migInstances[l], memoryMB);
    }
  }

  // ---------- Which pods are valid ----------

  /** A pod is turned away exactly when it plays a phase without a group or while shared, or names a group without a role
      that the scheduler knows. */
  lemma InvalidExactly(pod: Pod)
    ensures !GetDisaggIntent(pod).isValid
        <==> if PlaysPhase(pod) then !HasGroup(pod) || pod.Says("gpu-scheduler/shared", "true")
             else HasGroup(pod) && !pod.Says("gpu-scheduler/inference-role", "unified")
  {
    hide TrimSpace;
  }

  predicate HasGroup(pod: Pod) {
    "gpu-scheduler/model-group" in pod.annotations && TrimSpace(pod.annotations["gpu-scheduler/model-group"]) != ""
  }

  /** What a pod for several GPUs asks of each: its memory, or a share of it that just covers the total, or none. */
  lemma RequiredExactly(pod: Pod)
    requires GetGPUCount(pod) > 0 && GetGPUMemory(pod) >= 0
    ensures var k, memory, mode := GetGPUCount(pod), GetGPUMemory(pod), "gpu-scheduler/memory-mode";
            if pod.Says(mode, "total") then memory <= k * RequiredOf(pod) < memory + k
            else RequiredOf(pod) == if pod.Says(mode, "none") then 0 else memory
  {
    TotalShareCovers(GetGPUMemory(pod), GetGPUCount(pod));
    hide GetGPUMemory, GetGPUCount;
  }

  /** Marking a new pod's instance and releasing the pod leaves every instance as it was, if those of the name were
      available. */
  lemma ReleasedInstanceIsBack(s: State, n: string, uuid: string, key: string, reservedMB: int)
    requires s.reservations.Keys == s.podCounts.Keys && key !in s.allocs
    requires forall g, m :: IsReported(s, n, g) && m in g.migInstances && m.uuid == uuid ==> m.available
    ensures Release(MarkMIG(s, n, uuid, reservedMB, key), key) == s
  {
    var t := MarkMIG(s, n, uuid, reservedMB, key);
    var e := Entry(n, uuid, reservedMB, true);
    assert t.allocs[key] == [e];
    assert ReleaseUpTo(t, [e], 0) == t;
    SetTwice(s.nodes, n, uuid);
    assert t.allocs - {key} == s.allocs;
  }

  lemma SetTwice(nodes: map<string, NodeGPUs>, n: string, uuid: string)
    requires forall g, m :: n in nodes && g in nodes[n].gpus && m in g.migInstances && m.uuid == uuid ==> m.available
    ensures SetMIG(SetMIG(nodes, n, uuid, false), n, uuid, true) == nodes
  {
    if n in nodes {
      var gpus := nodes[n].gpus;
      forall j | 0 <= j < |gpus|
        ensures SetMIGInGPU(SetMIGInGPU(gpus[j], uuid, false), uuid, true) == gpus[j]
      {
        assert gpus[j] in gpus;
        forall l | 0 <= l < |gpus[j].migInstances|
          ensures SetMIGInstance(SetMIGInstance(gpus[j].migInstances[l], uuid, false), uuid, true) == gpus[j].migInstances[l]
        {
          assert gpus[j].migInstances[l] in gpus[j].migInstances;
        }
        assert SetMIGInGPU(SetMIGInGPU(gpus[j], uuid, false), uuid, true).migInstances == gpus[j].migInstances;
      }
      assert SetMIGInGPUs(SetMIGInGPUs(gpus, uuid, false), uuid, true) == gpus;
    }
  }

  // ---------- Replacements ----------

  /** The replacement of an evicted pod has no labels, so a pool label no longer binds it: it can be routed exactly where the
      victim could, unless the label, without fallback, names a pool with nothing for the pod while the other pool has. */
  lemma ResumeKeepsRoutingExactly(s: State, victim: Pod, n: int, cfg: Resume.ResumeConfig)
    ensures var whole, instance := HasWholeGPU(s, GetGPUMemory(victim), IsSharedGPUPod(victim)), HasInstance(s, GetGPUMemory(victim));
            (Routable(s, Resume.ResumePod(victim, n, cfg)) <==> Routable(s, victim))
            <==> AllowsFallback(victim) || !((WantsPool(victim, "mig") && whole && !instance) || (WantsPool(victim, "full") && instance && !whole))
  {
    Resume.ResumeKeepsRequest(victim, n, cfg);
    hide HasWholeGPU, HasInstance, GetGPUMemory, IsSharedGPUPod, Resume.ResumePod, GetGPUCount, GetMemoryMode, GetWorkflow;
  }
}
