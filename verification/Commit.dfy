/** internal/scheduler/watcher.go, scheduleGang after planning: the registry follows the plan's shadow. */
module Commit {
  import opened Collections
  import opened Types
  import opened Strategy
  import opened Pods
  import opened Ledger
  import opened LedgerRuns
  import opened GangPlanner

  function KeyOf(p: PodPlacement): string {
    PodKey(p.pod.namespace, p.pod.name)
  }

  /** The reservations made for one placement. */
  function EntriesFor(p: PodPlacement): (es: seq<Entry>)
    ensures |es| == |p.gpuIDs|
  {
    seq(|p.gpuIDs|, i requires 0 <= i < |p.gpuIDs| => Entry(p.nodeName, p.gpuIDs[i], TruncDiv(p.memoryMB, |p.gpuIDs|), false))
  }

  /** Mark every GPU of the placement, then bind; a failed bind releases the pod. */
  function CommitOne(s: State, p: PodPlacement, bound: bool): (r: State)
    requires s.reservations.Keys == s.podCounts.Keys
    ensures r.reservations.Keys == r.podCounts.Keys
  {
    var t := MarkUpTo(s, EntriesFor(p), |p.gpuIDs|, KeyOf(p));
    if bound then t else Release(t, KeyOf(p))
  }

  function Committed(s: State, ps: seq<PodPlacement>, bound: seq<bool>, n: nat): (r: State)
    requires n <= |ps| == |bound| && s.reservations.Keys == s.podCounts.Keys
    ensures r.reservations.Keys == r.podCounts.Keys
  {
    if n == 0 then s else CommitOne(Committed(s, ps, bound, n - 1), ps[n - 1], bound[n - 1])
  }

  /** The placements among the first n whose bind succeeded. */
  function BoundOnly(ps: seq<PodPlacement>, bound: seq<bool>, n: nat): (r: seq<PodPlacement>)
    requires n <= |ps| == |bound|
    ensures (forall i :: 0 <= i < n ==> bound[i]) ==> r == ps[..n]
  {
    if n == 0 then []
    else
      var r := BoundOnly(ps, bound, n - 1);
      if bound[n - 1] then r + [ps[n - 1]] else r
  }

  /** The pods of a gang are distinct and hold nothing yet. */
  ghost predicate FreshPods(s: State, ps: seq<PodPlacement>) {
    && (forall i :: 0 <= i < |ps| ==> KeyOf(ps[i]) !in s.allocs)
    && (forall i, j :: 0 <= i < j < |ps| ==> KeyOf(ps[i]) != KeyOf(ps[j]))
  }

  ghost predicate Sensible(ps: seq<PodPlacement>) {
    forall i :: 0 <= i < |ps| ==> ps[i].memoryMB >= 0 && |ps[i].gpuIDs| > 0
  }

  // ---------- One placement ----------

  lemma EntriesAreFull(p: PodPlacement)
    requires p.memoryMB >= 0 && |p.gpuIDs| > 0
    ensures FullGPUEntries(EntriesFor(p))
  {
    var share := TruncDiv(p.memoryMB, |p.gpuIDs|);
    assert share >= 0;
    forall i | 0 <= i < |p.gpuIDs|
      ensures !EntriesFor(p)[i].isMIG && EntriesFor(p)[i].memoryMB >= 0
    {
      assert EntriesFor(p)[i] == Entry(p.nodeName, p.gpuIDs[i], share, false);
    }
  }

  /** The share reserved on each GPU is the memory divided by their number, rounded down. */
  lemma ShareIsExact(p: PodPlacement, i: nat)
    requires p.memoryMB >= 0 && i < |p.gpuIDs|
    ensures var share, k := EntriesFor(p)[i].memoryMB, |p.gpuIDs|;
            k * share <= p.memoryMB < k * share + k
    ensures EntriesFor(p)[i].nodeName == p.nodeName && EntriesFor(p)[i].gpuUUID == p.gpuIDs[i] && !EntriesFor(p)[i].isMIG
  {
    assert EntriesFor(p)[i] == Entry(p.nodeName, p.gpuIDs[i], TruncDiv(p.memoryMB, |p.gpuIDs|), false);
    DividedShare(p.memoryMB, |p.gpuIDs|);
  }

  lemma DividedShare(memoryMB: int, k: nat)
    requires memoryMB >= 0 && k > 0
    ensures k * TruncDiv(memoryMB, k) <= memoryMB < k * TruncDiv(memoryMB, k) + k
  {
    assert memoryMB == k * (memoryMB / k) + memoryMB % k;
  }

  lemma SameShare(memoryMB: int, k: nat)
    requires k > 0
    ensures TruncDiv(memoryMB, k) == PerGPUCharge(memoryMB, k)
  {
  }

  /** GPU g of a node with the entries' memory and count added. */
  function AddEntries(g: GPU, nodeName: string, es: seq<Entry>): GPU {
    g.(usedMB := g.usedMB + Sum(es, MemOn(nodeName, g.id)), allocatedPods := g.allocatedPods + Sum(es, CountOn(nodeName, g.id)))
  }

  /** What the shadow charges a GPU is what the registry adds for it. */
  lemma {:induction false} ChargeIsEntries(g: GPU, p: PodPlacement, n: nat)
    requires n <= |p.gpuIDs|
    ensures ChargeGPU(g, p.gpuIDs, n, PerGPUCharge(p.memoryMB, |p.gpuIDs|)) == AddEntries(g, p.nodeName, EntriesFor(p)[..n])
  {
    if n > 0 {
      ChargeIsEntries(g, p, n - 1);
      SameShare(p.memoryMB, |p.gpuIDs|);
      TakeNext(EntriesFor(p), n - 1, MemOn(p.nodeName, g.id));
      TakeNext(EntriesFor(p), n - 1, CountOn(p.nodeName, g.id));
    }
  }

  lemma {:induction false} EntriesElsewhere(es: seq<Entry>, n: string, g: string)
    requires forall i :: 0 <= i < |es| ==> es[i].nodeName != n || es[i].gpuUUID != g
    ensures Sum(es, MemOn(n, g)) == 0 && Sum(es, CountOn(n, g)) == 0
  {
    if es != [] {
      EntriesElsewhere(es[1..], n, g);
    }
  }

  lemma MarkChargesNode(s: State, t: State, p: PodPlacement, n: string)
    requires n in s.nodes && t.nodes == s.nodes
    requires forall g :: t.Reserved(n, g) == s.Reserved(n, g) + Sum(EntriesFor(p), MemOn(n, g))
    requires forall g :: t.PodCount(n, g) == s.PodCount(n, g) + Sum(EntriesFor(p), CountOn(n, g))
    ensures NodeView(t, n) == ChargeNode(NodeView(s, n), p.nodeName, p.gpuIDs, p.memoryMB)
  {
    var infos := s.nodes[n].gpus;
    assert EntriesFor(p)[..|p.gpuIDs|] == EntriesFor(p);
    forall j | 0 <= j < |infos|
      ensures NodeView(t, n).gpus[j] == ChargeNode(NodeView(s, n), p.nodeName, p.gpuIDs, p.memoryMB).gpus[j]
    {
      if n == p.nodeName {
        ChargeIsEntries(GPUView(s, n, infos[j]), p, |p.gpuIDs|);
      } else {
        EntriesElsewhere(EntriesFor(p), n, infos[j].uuid);
      }
    }
  }

  /** Marking a placement moves the registry's view exactly as the planner moved its shadow. */
  lemma MarkRefinesCharge(view: seq<Node>, s: State, p: PodPlacement)
    requires IsViewOf(view, s) && s.reservations.Keys == s.podCounts.Keys
    requires p.memoryMB >= 0 && |p.gpuIDs| > 0
    ensures IsViewOf(Charge(view, p.nodeName, p.gpuIDs, p.memoryMB), CommitOne(s, p, true))
  {
    var t := CommitOne(s, p, true);
    var charged := Charge(view, p.nodeName, p.gpuIDs, p.memoryMB);
    EntriesAreFull(p);
    assert EntriesFor(p)[..|p.gpuIDs|] == EntriesFor(p);
    forall n, g
      ensures t.Reserved(n, g) == s.Reserved(n, g) + Sum(EntriesFor(p), MemOn(n, g))
      ensures t.PodCount(n, g) == s.PodCount(n, g) + Sum(EntriesFor(p), CountOn(n, g))
    {
      MarkUpToTables(s, EntriesFor(p), |p.gpuIDs|, KeyOf(p), n, g);
    }
    hide MarkUpTo, CommitOne;
    assert t.nodes == s.nodes;
    ViewFollows(view, charged, s, t, p);
  }

  lemma ViewFollows(view: seq<Node>, charged: seq<Node>, s: State, t: State, p: PodPlacement)
    requires IsViewOf(view, s) && t.nodes == s.nodes
    requires charged == Charge(view, p.nodeName, p.gpuIDs, p.memoryMB)
    requires forall n, g :: t.Reserved(n, g) == s.Reserved(n, g) + Sum(EntriesFor(p), MemOn(n, g))
    requires forall n, g :: t.PodCount(n, g) == s.PodCount(n, g) + Sum(EntriesFor(p), CountOn(n, g))
    ensures IsViewOf(charged, t)
  {
    forall i | 0 <= i < |charged|
      ensures charged[i].name == view[i].name && charged[i] == NodeView(t, charged[i].name)
    {
      MarkChargesNode(s, t, p, view[i].name);
    }
    forall n | n in t.nodes
      ensures exists i :: 0 <= i < |charged| && charged[i].name == n
    {
      var i :| 0 <= i < |view| && view[i].name == n;
      assert charged[i].name == n;
    }
  }

  lemma SameViewKeepsView(view: seq<Node>, s: State, t: State)
    requires IsViewOf(view, s) && SameView(s, t)
    ensures IsViewOf(view, t)
  {
    forall i | 0 <= i < |view|
      ensures view[i] == NodeView(t, view[i].name)
    {
      assert NodeView(t, view[i].name).gpus == NodeView(s, view[i].name).gpus;
    }
  }

  // ---------- The whole gang ----------

  lemma CommitOneLedger(s: State, p: PodPlacement, bound: bool)
    requires s.reservations.Keys == s.podCounts.Keys
    requires LedgerOK(s) && p.memoryMB >= 0 && |p.gpuIDs| > 0 && KeyOf(p) !in s.allocs
    ensures LedgerOK(CommitOne(s, p, bound))
    ensures CommitOne(s, p, bound).allocs.Keys <= s.allocs.Keys + {KeyOf(p)}
  {
    EntriesAreFull(p);
    MarkUpToOK(s, EntriesFor(p), |p.gpuIDs|, KeyOf(p));
    hide LedgerOK;
    MarkUpToRecords(s, EntriesFor(p), |p.gpuIDs|, KeyOf(p));
    ReleaseOK(MarkUpTo(s, EntriesFor(p), |p.gpuIDs|, KeyOf(p)), KeyOf(p));
  }

  lemma {:induction false} CommittedLedger(s: State, ps: seq<PodPlacement>, bound: seq<bool>, n: nat)
    requires s.reservations.Keys == s.podCounts.Keys
    requires n <= |ps| == |bound| && LedgerOK(s) && Sensible(ps) && FreshPods(s, ps)
    ensures LedgerOK(Committed(s, ps, bound, n))
    ensures forall i :: n <= i < |ps| ==> KeyOf(ps[i]) !in Committed(s, ps, bound, n).allocs
  {
    hide LedgerOK, CommitOne;
    if n > 0 {
      CommittedLedger(s, ps, bound, n - 1);
      CommitOneLedger(Committed(s, ps, bound, n - 1), ps[n - 1], bound[n - 1]);
    }
  }

  /** Commit refines plan: after the commit loop the registry's view is the starting view charged, GPU by GPU, with
      exactly the placements whose bind succeeded. */
  lemma {:induction false} CommitRefinesPlan(view: seq<Node>, s: State, ps: seq<PodPlacement>, bound: seq<bool>, n: nat)
    requires s.reservations.Keys == s.podCounts.Keys
    requires n <= |ps| == |bound| && LedgerOK(s) && Sensible(ps) && FreshPods(s, ps) && IsViewOf(view, s)
    ensures var b := BoundOnly(ps, bound, n);
            IsViewOf(ShadowAfter(view, b, |b|), Committed(s, ps, bound, n))
  {
    hide LedgerOK, IsViewOf, CommitOne;
    if n > 0 {
      CommitRefinesPlan(view, s, ps, bound, n - 1);
      CommittedLedger(s, ps, bound, n - 1);
      var b := BoundOnly(ps, bound, n - 1);
      CommitOneRefines(view, b, Committed(s, ps, bound, n - 1), ps[n - 1], bound[n - 1]);
    }
  }

  lemma CommitOneRefines(view: seq<Node>, b: seq<PodPlacement>, t: State, p: PodPlacement, bound: bool)
    requires t.reservations.Keys == t.podCounts.Keys
    requires LedgerOK(t) && p.memoryMB >= 0 && |p.gpuIDs| > 0 && KeyOf(p) !in t.allocs
    requires IsViewOf(ShadowAfter(view, b, |b|), t)
    ensures var b' := if bound then b + [p] else b;
            IsViewOf(ShadowAfter(view, b', |b'|), CommitOne(t, p, bound))
  {
    if bound {
      hide LedgerOK, IsViewOf, CommitOne;
      MarkRefinesCharge(ShadowAfter(view, b, |b|), t, p);
      assert (b + [p])[..|b|] == b[..|b|];
      ShadowOfPrefix(view, b + [p], b, |b|);
    } else {
      EntriesAreFull(p);
      hide LedgerOK;
      MarkThenRollbackRestoresView(t, EntriesFor(p), KeyOf(p));
      hide IsViewOf, SameView;
      SameViewKeepsView(ShadowAfter(view, b, |b|), t, CommitOne(t, p, false));
    }
  }

  /** With every bind successful, the registry shows exactly the planner's final shadow. */
  lemma AllBoundShowsShadow(view: seq<Node>, s: State, ps: seq<PodPlacement>, bound: seq<bool>)
    requires s.reservations.Keys == s.podCounts.Keys
    requires |ps| == |bound| && LedgerOK(s) && Sensible(ps) && FreshPods(s, ps) && IsViewOf(view, s)
    requires forall i :: 0 <= i < |bound| ==> bound[i]
    ensures IsViewOf(ShadowAfter(view, ps, |ps|), Committed(s, ps, bound, |ps|))
  {
    CommitRefinesPlan(view, s, ps, bound, |ps|);
    assert ps[..|ps|] == ps;
  }
}
