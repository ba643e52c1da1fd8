/** What every valid gang plan keeps, whatever strategy produced it. */
module GangSafety {
  import opened Collections
  import opened Types
  import opened Strategy
  import opened GangPlanner

  ghost predicate Distinct(ids: seq<string>) {
    forall i, j :: 0 <= i < j < |ids| ==> ids[i] != ids[j]
  }

  ghost predicate ValidIndex(nodes: seq<Node>, a: int, b: int) {
    0 <= a < |nodes| && 0 <= b < |nodes[a].gpus|
  }

  /** The placement named by (nodeName, ids) uses GPU b of node a. */
  ghost predicate Uses(nodes: seq<Node>, a: int, b: int, nodeName: string, ids: seq<string>)
    requires ValidIndex(nodes, a, b)
  {
    nodes[a].name == nodeName && nodes[a].gpus[b].id in ids
  }

  /** Two views of the same hardware: everything but the usage of the GPUs agrees. */
  ghost predicate SameHardware(m: seq<Node>, n: seq<Node>) {
    && |m| == |n|
    && (forall a :: 0 <= a < |m| ==> m[a].name == n[a].name && |m[a].gpus| == |n[a].gpus|)
    && (forall a, b :: ValidIndex(m, a, b) ==>
          m[a].gpus[b] == n[a].gpus[b].(usedMB := m[a].gpus[b].usedMB, allocatedPods := m[a].gpus[b].allocatedPods))
  }

  lemma SameHardwareNames(m: seq<Node>, n: seq<Node>)
    requires SameHardware(m, n) && WellNamed(n)
    ensures WellNamed(m)
  {
    forall a | 0 <= a < |m|
      ensures UniqueIDs(m[a].gpus)
    {
      forall i, j | 0 <= i < j < |m[a].gpus|
        ensures m[a].gpus[i].id != m[a].gpus[j].id
      {
        assert ValidIndex(m, a, i) && ValidIndex(m, a, j);
      }
    }
  }

  // ---------- One charge ----------

  lemma {:induction false} ChargeGPUOnce(g: GPU, ids: seq<string>, n: nat, perGPU: int)
    requires n <= |ids| && Distinct(ids)
    ensures ChargeGPU(g, ids, n, perGPU) == if g.id in ids[..n] then Bump(g, perGPU) else g
  {
    if n > 0 {
      ChargeGPUOnce(g, ids, n - 1, perGPU);
      assert ids[..n] == ids[..n - 1] + [ids[n - 1]];
      if ids[n - 1] == g.id {
        assert g.id !in ids[..n - 1];
      }
    }
  }

  /** A charge with distinct ids bumps the used GPUs once and leaves the others alone. */
  lemma ChargeAt(nodes: seq<Node>, nodeName: string, ids: seq<string>, memoryMB: int, a: int, b: int)
    requires ValidIndex(nodes, a, b) && Distinct(ids)
    ensures ValidIndex(Charge(nodes, nodeName, ids, memoryMB), a, b)
    ensures Charge(nodes, nodeName, ids, memoryMB)[a].gpus[b]
         == if Uses(nodes, a, b, nodeName, ids) then Bump(nodes[a].gpus[b], PerGPUCharge(memoryMB, |ids|))
            else nodes[a].gpus[b]
  {
    ChargeGPUOnce(nodes[a].gpus[b], ids, |ids|, PerGPUCharge(memoryMB, |ids|));
    assert ids[..|ids|] == ids;
  }

  lemma ChargeKeepsHardware(nodes: seq<Node>, nodeName: string, ids: seq<string>, memoryMB: int)
    requires Distinct(ids)
    ensures SameHardware(Charge(nodes, nodeName, ids, memoryMB), nodes)
  {
    var charged := Charge(nodes, nodeName, ids, memoryMB);
    forall a, b | ValidIndex(charged, a, b)
      ensures charged[a].gpus[b] == nodes[a].gpus[b].(usedMB := charged[a].gpus[b].usedMB, allocatedPods := charged[a].gpus[b].allocatedPods)
    {
      ChargeAt(nodes, nodeName, ids, memoryMB, a, b);
    }
  }

  lemma PlacedIDsAreDistinct(nodes: seq<Node>, nodeName: string, ids: seq<string>, k: int, requiredMB: int, shared: bool)
    requires WellNamed(nodes) && Places(nodes, nodeName, ids, k, requiredMB, shared)
    ensures Distinct(ids) && |ids| == k
  {
    var node: Node, chosen: seq<GPU> :| PlacesOn(nodes, node, chosen, nodeName, ids, k, requiredMB, shared);
    var a :| 0 <= a < |nodes| && nodes[a] == node;
    forall i, j | 0 <= i < j < |ids|
      ensures ids[i] != ids[j]
    {
      ChoiceHasDistinctIDs(node, chosen, k, requiredMB, shared, i, j);
    }
  }

  /** Every GPU a placement uses was eligible. */
  lemma UsedIsEligible(nodes: seq<Node>, nodeName: string, ids: seq<string>, k: int, requiredMB: int, shared: bool, a: int, b: int)
    requires WellNamed(nodes) && Places(nodes, nodeName, ids, k, requiredMB, shared)
    requires ValidIndex(nodes, a, b) && Uses(nodes, a, b, nodeName, ids)
    ensures Eligible(nodes[a].gpus[b], requiredMB, shared)
  {
    var node: Node, chosen: seq<GPU> :| PlacesOn(nodes, node, chosen, nodeName, ids, k, requiredMB, shared);
    assert nodes[a] == node;
    var i :| 0 <= i < |ids| && ids[i] == nodes[a].gpus[b].id;
    ChoiceIsFromNode(node, chosen, k, requiredMB, shared, i);
    assert chosen[i].id == nodes[a].gpus[b].id;
    var c :| 0 <= c < |node.gpus| && node.gpus[c] == chosen[i];
    assert b == c;
  }

  /** Each id of a placement is a GPU of the node it names. */
  lemma PlacedIDExists(nodes: seq<Node>, nodeName: string, ids: seq<string>, k: int, requiredMB: int, shared: bool, i: nat)
    returns (a: int, b: int)
    requires Places(nodes, nodeName, ids, k, requiredMB, shared) && i < |ids|
    ensures ValidIndex(nodes, a, b) && nodes[a].name == nodeName && nodes[a].gpus[b].id == ids[i]
  {
    var node: Node, chosen: seq<GPU> :| PlacesOn(nodes, node, chosen, nodeName, ids, k, requiredMB, shared);
    a :| 0 <= a < |nodes| && nodes[a] == node;
    ChoiceIsFromNode(node, chosen, k, requiredMB, shared, i);
    b :| 0 <= b < |node.gpus| && node.gpus[b] == chosen[i];
  }

  // ---------- The shadow of a plan ----------

  /** The shadow differs from the nodes in usage only, and its pod counts never drop. */
  lemma {:induction false} ShadowHardware(nodes: seq<Node>, pods: seq<PodRef>, jobs: seq<Job>, placements: seq<PodPlacement>, n: nat)
    requires WellNamed(nodes) && ValidPlan(nodes, pods, jobs, placements) && n <= |placements|
    ensures SameHardware(ShadowAfter(nodes, placements, n), nodes)
    ensures WellNamed(ShadowAfter(nodes, placements, n))
    ensures forall i :: 0 <= i < n ==> Distinct(placements[i].gpuIDs)
  {
    if n > 0 {
      ShadowHardware(nodes, pods, jobs, placements, n - 1);
      var before := ShadowAfter(nodes, placements, n - 1);
      var p := placements[n - 1];
      assert ValidStep(nodes, pods, jobs, placements, n - 1);
      PlacedIDsAreDistinct(before, p.nodeName, p.gpuIDs, GPUCountOf(jobs[n - 1]), jobs[n - 1].memoryMB, jobs[n - 1].shared);
      ChargeKeepsHardware(before, p.nodeName, p.gpuIDs, p.memoryMB);
      SameHardwareTrans(Charge(before, p.nodeName, p.gpuIDs, p.memoryMB), before, nodes);
    }
    SameHardwareNames(ShadowAfter(nodes, placements, n), nodes);
  }

  lemma SameHardwareTrans(l: seq<Node>, m: seq<Node>, n: seq<Node>)
    requires SameHardware(l, m) && SameHardware(m, n)
    ensures SameHardware(l, n)
  {
    forall a, b | ValidIndex(l, a, b)
      ensures l[a].gpus[b] == n[a].gpus[b].(usedMB := l[a].gpus[b].usedMB, allocatedPods := l[a].gpus[b].allocatedPods)
    {
      assert ValidIndex(m, a, b);
    }
  }

  ghost predicate WithinCapacity(nodes: seq<Node>) {
    forall a, b :: ValidIndex(nodes, a, b) ==> nodes[a].gpus[b].usedMB <= nodes[a].gpus[b].totalMB
  }

  /** No plan drives a GPU of the shadow over its memory: each share is at most the memory that was checked. */
  lemma {:induction false} PlanKeepsCapacity(nodes: seq<Node>, pods: seq<PodRef>, jobs: seq<Job>, placements: seq<PodPlacement>, n: nat)
    requires WellNamed(nodes) && WithinCapacity(nodes)
    requires ValidPlan(nodes, pods, jobs, placements) && n <= |placements|
    requires forall i :: 0 <= i < |jobs| ==> jobs[i].memoryMB >= 0
    ensures WithinCapacity(ShadowAfter(nodes, placements, n))
  {
    if n > 0 {
      PlanKeepsCapacity(nodes, pods, jobs, placements, n - 1);
      ShadowHardware(nodes, pods, jobs, placements, n);
      ShadowHardware(nodes, pods, jobs, placements, n - 1);
      var before := ShadowAfter(nodes, placements, n - 1);
      var p := placements[n - 1];
      assert ValidStep(nodes, pods, jobs, placements, n - 1);
      ChargeKeepsCapacity(before, p, GPUCountOf(jobs[n - 1]), jobs[n - 1].shared);
    }
  }

  lemma ChargeKeepsCapacity(nodes: seq<Node>, p: PodPlacement, k: int, shared: bool)
    requires WellNamed(nodes) && WithinCapacity(nodes) && p.memoryMB >= 0
    requires Places(nodes, p.nodeName, p.gpuIDs, k, p.memoryMB, shared)
    ensures WithinCapacity(Charge(nodes, p.nodeName, p.gpuIDs, p.memoryMB))
  {
    PlacedIDsAreDistinct(nodes, p.nodeName, p.gpuIDs, k, p.memoryMB, shared);
    var charged := Charge(nodes, p.nodeName, p.gpuIDs, p.memoryMB);
    forall a, b | ValidIndex(charged, a, b)
      ensures charged[a].gpus[b].usedMB <= charged[a].gpus[b].totalMB
    {
      assert ValidIndex(nodes, a, b);
      ChargeAt(nodes, p.nodeName, p.gpuIDs, p.memoryMB, a, b);
      if Uses(nodes, a, b, p.nodeName, p.gpuIDs) {
        UsedIsEligible(nodes, p.nodeName, p.gpuIDs, k, p.memoryMB, shared, a, b);
        ShareIsAtMostMemory(p.memoryMB, |p.gpuIDs|);
      }
    }
  }

  lemma QuotientBounds(m: int, k: int, q: int, r: int)
    requires m >= 0 && k > 1 && m == k * q + r && 0 <= r < k
    ensures 0 <= q <= m
  {
    NonZeroMultiple(k, q);
    if q >= 0 {
      assert k * q >= q;
    }
  }

  lemma ShareIsAtMostMemory(memoryMB: int, k: int)
    requires memoryMB >= 0
    ensures 0 <= PerGPUCharge(memoryMB, k) <= memoryMB
  {
    if k > 1 {
      QuotientBounds(memoryMB, k, memoryMB / k, memoryMB % k);
    }
  }

  // ---------- Exclusive use within a gang ----------

  ghost predicate CountsNonNegative(nodes: seq<Node>) {
    forall a, b :: ValidIndex(nodes, a, b) ==> nodes[a].gpus[b].allocatedPods >= 0
  }

  /** A GPU used by one of the first n placements carries a pod in the shadow; the others are as they were. */
  lemma {:induction false} ShadowCount(nodes: seq<Node>, pods: seq<PodRef>, jobs: seq<Job>, placements: seq<PodPlacement>,
                                       n: nat, a: int, b: int)
    requires WellNamed(nodes) && CountsNonNegative(nodes)
    requires ValidPlan(nodes, pods, jobs, placements) && n <= |placements| && ValidIndex(nodes, a, b)
    ensures ValidIndex(ShadowAfter(nodes, placements, n), a, b)
    ensures ShadowAfter(nodes, placements, n)[a].gpus[b].allocatedPods >= nodes[a].gpus[b].allocatedPods
    ensures (exists i :: 0 <= i < n && Uses(nodes, a, b, placements[i].nodeName, placements[i].gpuIDs))
              ==> ShadowAfter(nodes, placements, n)[a].gpus[b].allocatedPods >= 1
  {
    if n > 0 {
      ShadowCount(nodes, pods, jobs, placements, n - 1, a, b);
      ShadowHardware(nodes, pods, jobs, placements, n);
      ShadowHardware(nodes, pods, jobs, placements, n - 1);
      var before := ShadowAfter(nodes, placements, n - 1);
      var p := placements[n - 1];
      ChargeAt(before, p.nodeName, p.gpuIDs, p.memoryMB, a, b);
      assert Uses(before, a, b, p.nodeName, p.gpuIDs) <==> Uses(nodes, a, b, p.nodeName, p.gpuIDs);
    }
  }

  /** A gang of non-shared jobs uses every GPU at most once, and only GPUs that held no pod. */
  lemma PlanIsExclusive(nodes: seq<Node>, pods: seq<PodRef>, jobs: seq<Job>, placements: seq<PodPlacement>)
    requires WellNamed(nodes) && CountsNonNegative(nodes) && ValidPlan(nodes, pods, jobs, placements)
    requires forall i :: 0 <= i < |jobs| ==> !jobs[i].shared
    ensures forall i :: 0 <= i < |placements| ==> Distinct(placements[i].gpuIDs)
    ensures forall i, j, id :: 0 <= i < j < |placements| && id in placements[i].gpuIDs && id in placements[j].gpuIDs
              ==> placements[i].nodeName != placements[j].nodeName
    ensures forall i, a, b ::
              0 <= i < |placements| && ValidIndex(nodes, a, b) && Uses(nodes, a, b, placements[i].nodeName, placements[i].gpuIDs)
              ==> nodes[a].gpus[b].allocatedPods == 0
  {
    ShadowHardware(nodes, pods, jobs, placements, |placements|);
    forall i, a, b | 0 <= i < |placements| && ValidIndex(nodes, a, b)
      && Uses(nodes, a, b, placements[i].nodeName, placements[i].gpuIDs)
      ensures nodes[a].gpus[b].allocatedPods == 0
    {
      UsedWasFree(nodes, pods, jobs, placements, i, a, b);
    }
    forall i, j, id | 0 <= i < j < |placements| && id in placements[i].gpuIDs && id in placements[j].gpuIDs
      ensures placements[i].nodeName != placements[j].nodeName
    {
      if placements[i].nodeName == placements[j].nodeName {
        NoSharedGPU(nodes, pods, jobs, placements, i, j, id);
      }
    }
  }

  lemma UsedWasFree(nodes: seq<Node>, pods: seq<PodRef>, jobs: seq<Job>, placements: seq<PodPlacement>, i: nat, a: int, b: int)
    requires WellNamed(nodes) && CountsNonNegative(nodes) && ValidPlan(nodes, pods, jobs, placements)
    requires i < |placements| && !jobs[i].shared && ValidIndex(nodes, a, b)
    requires Uses(nodes, a, b, placements[i].nodeName, placements[i].gpuIDs)
    ensures nodes[a].gpus[b].allocatedPods == 0
    ensures !exists j :: 0 <= j < i && Uses(nodes, a, b, placements[j].nodeName, placements[j].gpuIDs)
  {
    var shadow := ShadowAfter(nodes, placements, i);
    ShadowHardware(nodes, pods, jobs, placements, i);
    ShadowCount(nodes, pods, jobs, placements, i, a, b);
    assert ValidStep(nodes, pods, jobs, placements, i);
    var p := placements[i];
    assert Uses(shadow, a, b, p.nodeName, p.gpuIDs);
    UsedIsEligible(shadow, p.nodeName, p.gpuIDs, GPUCountOf(jobs[i]), jobs[i].memoryMB, jobs[i].shared, a, b);
  }

  lemma NoSharedGPU(nodes: seq<Node>, pods: seq<PodRef>, jobs: seq<Job>, placements: seq<PodPlacement>, i: nat, j: nat, id: string)
    requires WellNamed(nodes) && CountsNonNegative(nodes) && ValidPlan(nodes, pods, jobs, placements)
    requires i < j < |placements| && !jobs[j].shared
    requires id in placements[i].gpuIDs && id in placements[j].gpuIDs
    ensures placements[i].nodeName != placements[j].nodeName
  {
    var p := placements[j];
    var x :| 0 <= x < |p.gpuIDs| && p.gpuIDs[x] == id;
    assert ValidStep(nodes, pods, jobs, placements, j);
    var a, b := PlacedIDExists(ShadowAfter(nodes, placements, j), p.nodeName, p.gpuIDs, GPUCountOf(jobs[j]),
                               jobs[j].memoryMB, jobs[j].shared, x);
    ShadowHardware(nodes, pods, jobs, placements, j);
    assert Uses(nodes, a, b, p.nodeName, p.gpuIDs);
    UsedWasFree(nodes, pods, jobs, placements, j, a, b);
    assert !Uses(nodes, a, b, placements[i].nodeName, placements[i].gpuIDs);
  }
}
