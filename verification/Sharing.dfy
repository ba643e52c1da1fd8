/** Exactly when one-pod placements keep GPUs without MPS exclusive. A shared pod that asks for several GPUs ignores the
    pods already there. */
module Sharing {
  import opened Collections
  import opened Types
  import opened Strategy
  import opened Pods
  import opened Ledger
  import opened LedgerRuns
  import opened GangSafety
  import opened Watcher
  import opened PlacementRuns

  // ---------- The condition ----------

  /** The node can host k GPUs of a shared pod, and this one would do although it lacks MPS and already holds a pod. */
  predicate IsStackingGPU(node: Node, g: GPU, k: int, requiredMB: int) {
    && NodeFits(node, k, requiredMB, true)
    && g in node.gpus && Eligible(g, requiredMB, true) && !g.mps && g.allocatedPods >= 1
  }

  ghost predicate HasStackingGPU(s: State, k: int, requiredMB: int) {
    exists n, g :: n in s.nodes && IsStackingGPU(NodeView(s, n), g, k, requiredMB)
  }

  /** The pod shares several GPUs and some node offers it a GPU on which it would be the second pod. */
  ghost predicate MayStack(s: State, pod: Pod) {
    StacksPods(pod) && HasStackingGPU(s, GetGPUCount(pod), RequiredOf(pod))
  }

  /** No placement that the scheduler may decide on gives a GPU without MPS a second pod. */
  ghost predicate PlacementsKeepExclusive(s: State, hw: Hardware, pod: Pod, preferred: seq<string>)
    requires s.reservations.Keys == s.podCounts.Keys
  {
    forall d, bound :: Enabled(s, EvPlace(pod, preferred, d, bound), hw) ==> Exclusive(Next(s, EvPlace(pod, preferred, d, bound)), hw)
  }

  // ---------- A view of every registered node ----------

  lemma {:induction false} NodesAsSequence(names: set<string>) returns (r: seq<string>)
    ensures forall i, j :: 0 <= i < j < |r| ==> r[i] != r[j]
    ensures forall n :: n in r <==> n in names
    decreases |names|
  {
    if names == {} {
      r := [];
    } else {
      var n :| n in names;
      var rest := NodesAsSequence(names - {n});
      r := [n] + rest;
      assert forall m :: m in r <==> m == n || m in rest;
    }
  }

  lemma ViewExists(s: State) returns (view: seq<Node>)
    ensures IsViewOf(view, s)
  {
    var names := NodesAsSequence(s.nodes.Keys);
    assert forall i :: 0 <= i < |names| ==> names[i] in names;
    view := seq(|names|, i requires 0 <= i < |names| => NodeView(s, names[i]));
    forall n | n in s.nodes
      ensures exists i :: 0 <= i < |view| && view[i].name == n
    {
      var i :| 0 <= i < |names| && names[i] == n;
      assert view[i].name == n;
    }
  }

  // ---------- Without such a GPU ----------

  /** A GPU that a shared pod takes is a stacking GPU, unless it has MPS or is free. */
  lemma TakenGPU(s: State, hw: Hardware, view: seq<Node>, ps: seq<GPUPlacement>, k: int, requiredMB: int, n: string, g: string)
    requires NodesOK(s, hw) && IsViewOf(view, s) && GangPlaced(view, ps, k, requiredMB, true)
    requires exists i :: 0 <= i < k && ps[i].nodeName == n && ps[i].gpuID == g
    ensures hw.mps(n, g) || s.PodCount(n, g) <= 0 || HasStackingGPU(s, k, requiredMB)
  {
    hide Eligible, EligibleGPUs, NodesOK, IsViewOf, IsChoice;
    var i :| 0 <= i < k && ps[i].nodeName == n && ps[i].gpuID == g;
    var node: Node, chosen: seq<GPU> :| PlacesOn(view, node, chosen, ps[0].nodeName, PlacementIDs(ps), k, requiredMB, true);
    assert PlacementIDs(ps)[i] == g && IDs(chosen)[i] == chosen[i].id;
    ChoiceNeedsFit(node, chosen, k, requiredMB, true);
    ChosenIsEligible(node, chosen, k, requiredMB, i);
    var a :| 0 <= a < |view| && view[a] == node;
    var b :| 0 <= b < |node.gpus| && node.gpus[b] == chosen[i];
    ViewShows(view, s, hw, a, b);
    ViewNode(view, s, a);
    assert view[a].name == n && view[a].gpus[b].id == g;
    if !hw.mps(n, g) && s.PodCount(n, g) > 0 {
      assert IsStackingGPU(NodeView(s, n), chosen[i], k, requiredMB);
    }
  }

  lemma ChosenIsEligible(node: Node, chosen: seq<GPU>, k: int, requiredMB: int, i: nat)
    requires IsChoice(node, chosen, k, requiredMB, true) && i < |chosen| == k
    ensures chosen[i] in node.gpus && Eligible(chosen[i], requiredMB, true)
  {
    ChoiceIsFromNode(node, chosen, k, requiredMB, true, i);
  }

  lemma ViewNode(view: seq<Node>, s: State, a: nat)
    requires IsViewOf(view, s) && a < |view|
    ensures view[a].name in s.nodes && view[a] == NodeView(s, view[a].name)
  {
  }

  lemma SharedFits(s: State, hw: Hardware, pod: Pod, es: seq<Entry>, n: string, g: string)
    requires NodesOK(s, hw) && GetGPUCount(pod) > 0 && GangDecision(s, pod, es) && IsSharedGPUPod(pod)
    requires !HasStackingGPU(s, GetGPUCount(pod), RequiredOf(pod))
    ensures Sum(es, CountOn(n, g)) <= 1
    ensures Sum(es, CountOn(n, g)) > 0 && !hw.mps(n, g) ==> s.PodCount(n, g) <= 0
  {
    hide NodesOK, IsViewOf, GangPlaced, HasStackingGPU, RequiredOf, GetGPUCount;
    var view: seq<Node>, ps: seq<GPUPlacement> :| IsViewOf(view, s) && es == PlacementEntries(ps)
      && GangPlaced(view, ps, GetGPUCount(pod), RequiredOf(pod), IsSharedGPUPod(pod));
    EntriesSpread(s, hw, view, ps, GetGPUCount(pod), RequiredOf(pod), n, g);
    if Sum(es, CountOn(n, g)) > 0 {
      TakenGPU(s, hw, view, ps, GetGPUCount(pod), RequiredOf(pod), n, g);
    }
  }

  /** A GPU is used by at most one of the placements, and counted when it is. */
  lemma EntriesSpread(s: State, hw: Hardware, view: seq<Node>, ps: seq<GPUPlacement>, k: int, requiredMB: int, n: string, g: string)
    requires NodesOK(s, hw) && IsViewOf(view, s) && GangPlaced(view, ps, k, requiredMB, true)
    ensures var used := exists i :: 0 <= i < k && ps[i].nodeName == n && ps[i].gpuID == g;
            Sum(PlacementEntries(ps), CountOn(n, g)) == if used then 1 else 0
  {
    ViewIsWellNamed(view, s, hw);
    hide NodesOK, IsViewOf, WellNamed, Places;
    var es, ids := PlacementEntries(ps), PlacementIDs(ps);
    PlacedIDsAreDistinct(view, ps[0].nodeName, ids, k, requiredMB, true);
    assert forall i :: 0 <= i < k ==> es[i].gpuUUID == ids[i] == ps[i].gpuID;
    SpreadOnce(es, ps[0].nodeName, requiredMB, n, g);
    assert (exists i :: 0 <= i < |es| && es[i].nodeName == n && es[i].gpuUUID == g)
      <==> (exists i :: 0 <= i < k && ps[i].nodeName == n && ps[i].gpuID == g);
  }

  // ---------- With such a GPU ----------

  /** g and k - 1 other eligible GPUs. */
  lemma ChoiceWith(node: Node, g: GPU, k: int, requiredMB: int) returns (chosen: seq<GPU>)
    requires k > 0 && IsStackingGPU(node, g, k, requiredMB)
    ensures IsChoice(node, chosen, k, requiredMB, true) && chosen[0] == g
  {
    var eligible := EligibleGPUs(node.gpus, requiredMB, true);
    assert g in multiset(node.gpus);
    EligibleCount(node.gpus, requiredMB, true, g);
    hide EligibleGPUs;
    var p := IndexOfMember(eligible, g);
    var others := eligible[..p] + eligible[p + 1..];
    MultisetRemove(eligible, p);
    chosen := [g] + others[..k - 1];
    assert others == others[..k - 1] + others[k - 1..];
    assert multiset(others[..k - 1]) <= multiset(others);
    assert multiset(chosen) == multiset{g} + multiset(others[..k - 1]);
    assert multiset(eligible) == multiset{g} + multiset(others);
  }

  /** A stacking GPU can get its second pod: some decision puts a shared pod there, and exclusive use is lost. */
  lemma SharedPodsStack(s: State, hw: Hardware, pod: Pod, preferred: seq<string>, n: string, g: GPU) returns (es: seq<Entry>)
    requires s.reservations.Keys == s.podCounts.Keys && NodesOK(s, hw)
    requires GetGPUMemory(pod) >= 0 && StacksPods(pod)
    requires n in s.nodes && IsStackingGPU(NodeView(s, n), g, GetGPUCount(pod), RequiredOf(pod))
    ensures Enabled(s, EvPlace(pod, preferred, FullGPUs(es), true), hw)
    ensures Next(s, EvPlace(pod, preferred, FullGPUs(es), true)).PodCount(n, g.id) == s.PodCount(n, g.id) + 1
    ensures !Exclusive(Next(s, EvPlace(pod, preferred, FullGPUs(es), true)), hw)
  {
    hide RequiredOf, GetGPUCount, GetGPUMemory, NodesOK, IsStackingGPU, IsDecision, IsChoice, NodeView, Next, Exclusive;
    var chosen := ChoiceWith(NodeView(s, n), g, GetGPUCount(pod), RequiredOf(pod));
    es := StackingEntries(s, hw, pod, preferred, n, chosen);
    StackedTwice(s, Next(s, EvPlace(pod, preferred, FullGPUs(es), true)), hw, n, g, GetGPUCount(pod), RequiredOf(pod));
  }

  lemma StackedTwice(s: State, r: State, hw: Hardware, n: string, g: GPU, k: int, requiredMB: int)
    requires NodesOK(s, hw) && n in s.nodes && IsStackingGPU(NodeView(s, n), g, k, requiredMB)
    requires r.PodCount(n, g.id) == s.PodCount(n, g.id) + 1
    ensures !Exclusive(r, hw)
  {
    ShownCount(s, hw, n, g);
  }

  lemma StackingEntries(s: State, hw: Hardware, pod: Pod, preferred: seq<string>, n: string, chosen: seq<GPU>) returns (es: seq<Entry>)
    requires s.reservations.Keys == s.podCounts.Keys && NodesOK(s, hw) && n in s.nodes
    requires GetGPUMemory(pod) >= 0 && StacksPods(pod)
    requires IsChoice(NodeView(s, n), chosen, GetGPUCount(pod), RequiredOf(pod), true)
    ensures Enabled(s, EvPlace(pod, preferred, FullGPUs(es), true), hw) && chosen != []
    ensures Next(s, EvPlace(pod, preferred, FullGPUs(es), true)).PodCount(n, chosen[0].id) == s.PodCount(n, chosen[0].id) + 1
  {
    hide RequiredOf, GetGPUCount, GetGPUMemory, NodesOK, IsDecision, EligibleGPUs, IsViewOf, GangPlaced, FullGPUEntries, MarkUpTo, PodKey;
    var view := ViewExists(s);
    es := StackingDecision(s, view, NodeView(s, n), chosen, pod, preferred);
    DecisionIsFull(s, pod, preferred, es);
    StackingCounts(s, hw, view, PlacementsOn(n, chosen, RequiredOf(pod)), GetGPUCount(pod), RequiredOf(pod), PodKey(pod.namespace, pod.name));
  }

  lemma ShownCount(s: State, hw: Hardware, n: string, g: GPU)
    requires NodesOK(s, hw) && n in s.nodes && g in NodeView(s, n).gpus
    ensures s.PodCount(n, g.id) == g.allocatedPods && hw.mps(n, g.id) == g.mps
  {
    assert ReportOK(n, s.nodes[n].gpus, hw);
  }

  lemma StackingDecision(s: State, view: seq<Node>, node: Node, chosen: seq<GPU>, pod: Pod, preferred: seq<string>)
    returns (es: seq<Entry>)
    requires IsViewOf(view, s) && node.name in s.nodes && node == NodeView(s, node.name)
    requires StacksPods(pod) && IsChoice(node, chosen, GetGPUCount(pod), RequiredOf(pod), true)
    ensures es == PlacementEntries(PlacementsOn(node.name, chosen, RequiredOf(pod)))
    ensures GangPlaced(view, PlacementsOn(node.name, chosen, RequiredOf(pod)), GetGPUCount(pod), RequiredOf(pod), true)
    ensures IsDecision(s, pod, preferred, FullGPUs(es))
  {
    hide RequiredOf, GetGPUCount, IsChoice, NodeView;
    var i :| 0 <= i < |view| && view[i].name == node.name;
    ViewNode(view, s, i);
    PlacementsOnArePlaced(view, node, chosen, GetGPUCount(pod), RequiredOf(pod), true);
    hide IsViewOf, GangPlaced;
    es := PlacementEntries(PlacementsOn(node.name, chosen, RequiredOf(pod)));
  }

  /** Marking a shared placement counts its first GPU once more. */
  lemma StackingCounts(s: State, hw: Hardware, view: seq<Node>, ps: seq<GPUPlacement>, k: int, requiredMB: int, key: string)
    requires s.reservations.Keys == s.podCounts.Keys && NodesOK(s, hw) && IsViewOf(view, s)
    requires GangPlaced(view, ps, k, requiredMB, true) && FullGPUEntries(PlacementEntries(ps))
    ensures k > 0 && |ps| == k
    ensures MarkUpTo(s, PlacementEntries(ps), k, key).PodCount(ps[0].nodeName, ps[0].gpuID)
         == s.PodCount(ps[0].nodeName, ps[0].gpuID) + 1
  {
    var es := PlacementEntries(ps);
    var n, g := ps[0].nodeName, ps[0].gpuID;
    assert k > 0 && |ps| == k;
    hide NodesOK, IsViewOf, GangPlaced, MarkUpTo, Sum, CountOn;
    EntriesSpread(s, hw, view, ps, k, requiredMB, n, g);
    MarkUpToTables(s, es, k, key, n, g);
    assert es[..k] == es;
  }

  // ---------- The exact condition ----------

  lemma PlaceKeepsExclusive(s: State, hw: Hardware, pod: Pod, preferred: seq<string>, d: Decision, bound: bool)
    requires Inv(s, hw) && Exclusive(s, hw) && !MayStack(s, pod)
    requires Enabled(s, EvPlace(pod, preferred, d, bound), hw)
    ensures s.reservations.Keys == s.podCounts.Keys
    ensures Exclusive(Next(s, EvPlace(pod, preferred, d, bound)), hw)
  {
    var e := EvPlace(pod, preferred, d, bound);
    assert s.reservations.Keys == s.podCounts.Keys;
    hide Enabled, Inv, Next, MayStack;
    forall n, g | !hw.mps(n, g)
      ensures Next(s, e).PodCount(n, g) <= 1
    {
      PlaceKeepsOne(s, hw, pod, preferred, d, bound, n, g);
    }
  }

  lemma PlaceKeepsOne(s: State, hw: Hardware, pod: Pod, preferred: seq<string>, d: Decision, bound: bool, n: string, g: string)
    requires s.reservations.Keys == s.podCounts.Keys
    requires Inv(s, hw) && !MayStack(s, pod) && Enabled(s, EvPlace(pod, preferred, d, bound), hw)
    requires !hw.mps(n, g) && s.PodCount(n, g) <= 1
    ensures Next(s, EvPlace(pod, preferred, d, bound)).PodCount(n, g) <= 1
  {
    var e := EvPlace(pod, preferred, d, bound);
    if !StacksPods(pod) {
      TablesBound(s, hw, e, n, g);
    } else {
      hide GetGPUCount, GetGPUMemory, RequiredOf, HasStackingGPU, GangDecision, LedgerOK, NodesOK, WithinTotals;
      SharedFits(s, hw, pod, d.entries, n, g);
      DecisionIsFull(s, pod, preferred, d.entries);
      MarksBound(s, d.entries, PodKey(pod.namespace, pod.name), bound, n, g);
    }
  }

  /** From a state that keeps capacity and exclusive use, every placement that may be decided on keeps exclusive use if and
      only if the pod does not share several GPUs or no node offers it an occupied GPU without MPS. */
  lemma PlacementsKeepExclusiveExactly(s: State, hw: Hardware, pod: Pod, preferred: seq<string>)
    requires Inv(s, hw) && Exclusive(s, hw) && GetGPUMemory(pod) >= 0
    ensures s.reservations.Keys == s.podCounts.Keys
    ensures PlacementsKeepExclusive(s, hw, pod, preferred) <==> !MayStack(s, pod)
  {
    assert s.reservations.Keys == s.podCounts.Keys;
    hide Enabled, Next, IsStackingGPU, RequiredOf, GetGPUCount, GetGPUMemory, Exclusive, LedgerOK, NodesOK, WithinTotals;
    if MayStack(s, pod) {
      var n, g :| n in s.nodes && IsStackingGPU(NodeView(s, n), g, GetGPUCount(pod), RequiredOf(pod));
      var es := SharedPodsStack(s, hw, pod, preferred, n, g);
      assert Enabled(s, EvPlace(pod, preferred, FullGPUs(es), true), hw);
    } else {
      forall d, bound | Enabled(s, EvPlace(pod, preferred, d, bound), hw)
        ensures Exclusive(Next(s, EvPlace(pod, preferred, d, bound)), hw)
      {
        PlaceKeepsExclusive(s, hw, pod, preferred, d, bound);
      }
    }
  }

  // ---------- Policy by policy ----------

  /** The GPU lacks MPS and already holds a pod. */
  predicate IsOccupied(g: GPU) {
    !g.mps && g.allocatedPods >= 1
  }

  /** Marking these GPUs keeps exclusive use if and only if none of them lacks MPS and already holds a pod. */
  lemma PlacedKeepsExclusiveExactly(s: State, hw: Hardware, view: seq<Node>, node: Node, chosen: seq<GPU>, k: int, requiredMB: int, key: string)
    requires s.reservations.Keys == s.podCounts.Keys && NodesOK(s, hw) && Exclusive(s, hw) && IsViewOf(view, s)
    requires k > 0 && requiredMB >= 0 && node in view && IsChoice(node, chosen, k, requiredMB, true)
    ensures Exclusive(MarkUpTo(s, PlacementEntries(PlacementsOn(node.name, chosen, requiredMB)), k, key), hw)
        <==> forall g :: g in chosen ==> !IsOccupied(g)
  {
    var ps := PlacementsOn(node.name, chosen, requiredMB);
    var r := MarkUpTo(s, PlacementEntries(ps), k, key);
    hide NodesOK, IsViewOf, IsChoice, MarkUpTo;
    forall n, g
      ensures r.PodCount(n, g) == s.PodCount(n, g) + if n == node.name && g in IDs(chosen) then 1 else 0
    {
      PlacedCount(s, hw, view, node, chosen, k, requiredMB, key, n, g);
    }
    forall g | g in chosen
      ensures s.PodCount(node.name, g.id) == g.allocatedPods && hw.mps(node.name, g.id) == g.mps && g.id in IDs(chosen)
    {
      ChosenIsShown(s, hw, view, node, chosen, k, requiredMB, g);
    }
    CountsDecide(s, r, hw, node.name, chosen);
  }

  lemma CountsDecide(s: State, r: State, hw: Hardware, name: string, chosen: seq<GPU>)
    requires Exclusive(s, hw)
    requires forall n, g :: r.PodCount(n, g) == s.PodCount(n, g) + if n == name && g in IDs(chosen) then 1 else 0
    requires forall g :: g in chosen ==> s.PodCount(name, g.id) == g.allocatedPods && hw.mps(name, g.id) == g.mps && g.id in IDs(chosen)
    ensures Exclusive(r, hw) <==> forall g :: g in chosen ==> !IsOccupied(g)
  {
    if forall g :: g in chosen ==> !IsOccupied(g) {
      forall n, g | !hw.mps(n, g)
        ensures r.PodCount(n, g) <= 1
      {
        assert s.PodCount(n, g) <= 1;
        if n == name && g in IDs(chosen) {
          var i :| 0 <= i < |chosen| && IDs(chosen)[i] == g;
          assert chosen[i] in chosen && chosen[i].id == g;
        }
      }
    }
    if g :| g in chosen && IsOccupied(g) {
      assert r.PodCount(name, g.id) > 1;
    }
  }

  lemma PlacedCount(s: State, hw: Hardware, view: seq<Node>, node: Node, chosen: seq<GPU>, k: int, requiredMB: int, key: string,
                    n: string, g: string)
    requires s.reservations.Keys == s.podCounts.Keys && NodesOK(s, hw) && IsViewOf(view, s)
    requires k > 0 && requiredMB >= 0 && node in view && IsChoice(node, chosen, k, requiredMB, true)
    ensures MarkUpTo(s, PlacementEntries(PlacementsOn(node.name, chosen, requiredMB)), k, key).PodCount(n, g)
         == s.PodCount(n, g) + if n == node.name && g in IDs(chosen) then 1 else 0
  {
    var ps := PlacementsOn(node.name, chosen, requiredMB);
    var es := PlacementEntries(ps);
    assert |chosen| == k;
    PlacementsOnArePlaced(view, node, chosen, k, requiredMB, true);
    hide NodesOK, IsViewOf, GangPlaced, IsChoice, MarkUpTo, Sum, CountOn;
    EntriesSpread(s, hw, view, ps, k, requiredMB, n, g);
    MarkUpToTables(s, es, k, key, n, g);
    assert es[..k] == es;
    assert forall i :: 0 <= i < k ==> ps[i].gpuID == IDs(chosen)[i];
  }

  lemma ChosenIsShown(s: State, hw: Hardware, view: seq<Node>, node: Node, chosen: seq<GPU>, k: int, requiredMB: int, g: GPU)
    requires NodesOK(s, hw) && IsViewOf(view, s) && node in view && IsChoice(node, chosen, k, requiredMB, true) && g in chosen
    ensures s.PodCount(node.name, g.id) == g.allocatedPods && hw.mps(node.name, g.id) == g.mps && g.id in IDs(chosen)
  {
    var i :| 0 <= i < |chosen| && chosen[i] == g;
    assert IDs(chosen)[i] == g.id;
    ChosenIsEligible(node, chosen, k, requiredMB, i);
    hide NodesOK, IsChoice, Eligible;
    var a :| 0 <= a < |view| && view[a] == node;
    ViewNode(view, s, a);
    ShownCount(s, hw, node.name, g);
  }

  /** Some GPUs that the policy may take, on a view of the registry, include an occupied one without MPS. */
  ghost predicate PolicyMayStack(policy: Policy, s: State, k: int, requiredMB: int) {
    exists view, node, chosen, g ::
      IsViewOf(view, s) && PolicyChoice(policy, view, node, chosen, k, requiredMB, true) && g in chosen && IsOccupied(g)
  }

  /** Whatever the policy decides for the pod, placing it keeps GPUs without MPS exclusive. */
  ghost predicate PolicyKeepsExclusive(policy: Policy, s: State, hw: Hardware, pod: Pod)
    requires s.reservations.Keys == s.podCounts.Keys && GetGPUCount(pod) > 0
  {
    forall es, key :: PolicyDecision(policy, s, pod, es) ==> Exclusive(Place(s, FullGPUs(es), GetGPUMemory(pod), key, true), hw)
  }

  /** For a pod that shares several GPUs: with first fit exclusive use is lost if and only if, in some order of the nodes,
      one of the first k eligible GPUs of the first node that fits is occupied without MPS; with bin packing it can be
      lost if and only if some least-waste choice contains such a GPU. */
  lemma PolicyKeepsExclusiveExactly(policy: Policy, s: State, hw: Hardware, pod: Pod)
    requires Inv(s, hw) && Exclusive(s, hw) && GetGPUMemory(pod) >= 0 && StacksPods(pod)
    ensures s.reservations.Keys == s.podCounts.Keys
    ensures PolicyKeepsExclusive(policy, s, hw, pod) <==> !PolicyMayStack(policy, s, GetGPUCount(pod), RequiredOf(pod))
  {
    assert s.reservations.Keys == s.podCounts.Keys;
    hide Inv, Exclusive, GetGPUMemory, GetGPUCount, RequiredOf, PolicyMayStack, PolicyDecision, Place, IsSharedGPUPod;
    if PolicyMayStack(policy, s, GetGPUCount(pod), RequiredOf(pod)) {
      var es := PolicyStacks(policy, s, hw, pod);
    } else {
      forall es, key | PolicyDecision(policy, s, pod, es)
        ensures Exclusive(Place(s, FullGPUs(es), GetGPUMemory(pod), key, true), hw)
      {
        PolicyDoesNotStack(policy, s, hw, pod, es, key);
      }
    }
  }

  lemma PolicyStacks(policy: Policy, s: State, hw: Hardware, pod: Pod) returns (es: seq<Entry>)
    requires Inv(s, hw) && Exclusive(s, hw) && GetGPUMemory(pod) >= 0 && StacksPods(pod)
    requires s.reservations.Keys == s.podCounts.Keys && PolicyMayStack(policy, s, GetGPUCount(pod), RequiredOf(pod))
    ensures PolicyDecision(policy, s, pod, es) && !Exclusive(Place(s, FullGPUs(es), GetGPUMemory(pod), "", true), hw)
  {
    hide Inv, Exclusive, GetGPUMemory, GetGPUCount, RequiredOf, Place, IsSharedGPUPod, IsViewOf, PolicyChoice, IsOccupied;
    var k, requiredMB := GetGPUCount(pod), RequiredOf(pod);
    var view, node, chosen, g :|
      IsViewOf(view, s) && PolicyChoice(policy, view, node, chosen, k, requiredMB, true) && g in chosen && IsOccupied(g);
    PolicyPlacementExactly(policy, s, hw, pod, view, node, chosen, "");
    var ps := PlacementsOn(node.name, chosen, requiredMB);
    assert PolicyPlaced(policy, view, ps, k, requiredMB, true);
    es := PlacementEntries(ps);
  }

  lemma PolicyDoesNotStack(policy: Policy, s: State, hw: Hardware, pod: Pod, es: seq<Entry>, key: string)
    requires Inv(s, hw) && Exclusive(s, hw) && GetGPUMemory(pod) >= 0 && StacksPods(pod)
    requires s.reservations.Keys == s.podCounts.Keys && !PolicyMayStack(policy, s, GetGPUCount(pod), RequiredOf(pod))
    requires PolicyDecision(policy, s, pod, es)
    ensures Exclusive(Place(s, FullGPUs(es), GetGPUMemory(pod), key, true), hw)
  {
    hide Inv, Exclusive, GetGPUMemory, GetGPUCount, RequiredOf, Place, IsSharedGPUPod, IsViewOf, PolicyChoice, IsOccupied;
    var k, requiredMB := GetGPUCount(pod), RequiredOf(pod);
    var view: seq<Node>, ps: seq<GPUPlacement> :| IsViewOf(view, s) && es == PlacementEntries(ps)
      && PolicyPlaced(policy, view, ps, k, requiredMB, true);
    var node, chosen :| PolicyChoice(policy, view, node, chosen, k, requiredMB, true) && ps == PlacementsOn(node.name, chosen, requiredMB);
    PolicyPlacementExactly(policy, s, hw, pod, view, node, chosen, key);
  }

  lemma PolicyPlacementExactly(policy: Policy, s: State, hw: Hardware, pod: Pod, view: seq<Node>, node: Node, chosen: seq<GPU>, key: string)
    requires Inv(s, hw) && Exclusive(s, hw) && GetGPUMemory(pod) >= 0 && StacksPods(pod)
    requires s.reservations.Keys == s.podCounts.Keys
    requires IsViewOf(view, s) && PolicyChoice(policy, view, node, chosen, GetGPUCount(pod), RequiredOf(pod), true)
    ensures Exclusive(Place(s, FullGPUs(PlacementEntries(PlacementsOn(node.name, chosen, RequiredOf(pod)))), GetGPUMemory(pod), key, true), hw)
        <==> forall g :: g in chosen ==> !IsOccupied(g)
  {
    RequiredIsNonNegative(GetGPUMemory(pod), GetGPUCount(pod), GetMemoryMode(pod));
    PolicyChoiceIsChoice(policy, view, node, chosen, GetGPUCount(pod), RequiredOf(pod), true);
    ChoiceCount(node, chosen, GetGPUCount(pod), RequiredOf(pod));
    hide LedgerOK, NodesOK, WithinTotals, Exclusive, IsViewOf, PolicyChoice, GetGPUMemory, GetGPUCount, IsChoice, MarkUpTo, RequiredMB;
    PlacedKeepsExclusiveExactly(s, hw, view, node, chosen, GetGPUCount(pod), RequiredOf(pod), key);
  }

  lemma ChoiceCount(node: Node, chosen: seq<GPU>, k: int, requiredMB: int)
    requires IsChoice(node, chosen, k, requiredMB, true)
    ensures |PlacementEntries(PlacementsOn(node.name, chosen, requiredMB))| == k
  {
  }
}
