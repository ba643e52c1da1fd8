/** internal/allocator/gang_multi_pod.go: planning a gang of pods, one after the other, on a shadow copy of the nodes. */
module GangPlanner {
  import opened Collections
  import opened Types
  import opened Strategy

  /** types.NodeInfo: copying the struct copies the slice header, so two copies share the same GPUs. */
  datatype NodeInfo = NodeInfo(name: string, gpus: array<GPU>)

  datatype PodRef = PodRef(namespace: string, name: string)

  datatype PodPlacement = PodPlacement(pod: PodRef, nodeName: string, gpuIDs: seq<string>, memoryMB: int)

  datatype GangError = LengthMismatch | Unplaceable(index: nat)

  /** What the nodes currently say. */
  function View(nodes: seq<NodeInfo>): (r: seq<Node>)
    reads set i | 0 <= i < |nodes| :: nodes[i].gpus
  {
    seq(|nodes|, i requires 0 <= i < |nodes| reads set a | 0 <= a < |nodes| :: nodes[a].gpus => Node(nodes[i].name, nodes[i].gpus[..]))
  }

  ghost predicate SeparateGPUs(nodes: seq<NodeInfo>) {
    forall i, j :: 0 <= i < j < |nodes| ==> nodes[i].gpus != nodes[j].gpus
  }

  // ---------- Charging a placement, on values ----------

  /** A GPU count of zero or less means one GPU. */
  function GPUCountOf(job: Job): int {
    if job.gpuCount <= 0 then 1 else job.gpuCount
  }

  /** What each GPU of a placement is charged. */
  function PerGPUCharge(memoryMB: int, k: int): int {
    if k > 1 then TruncDiv(memoryMB, k) else memoryMB
  }

  /** One charge for each of the first n ids that names this GPU. */
  function ChargeGPU(g: GPU, ids: seq<string>, n: nat, perGPU: int): GPU
    requires n <= |ids|
  {
    if n == 0 then g
    else
      var h := ChargeGPU(g, ids, n - 1, perGPU);
      if ids[n - 1] == g.id then Bump(h, perGPU) else h
  }

  function Bump(g: GPU, perGPU: int): GPU {
    g.(usedMB := g.usedMB + perGPU, allocatedPods := g.allocatedPods + 1)
  }

  function ChargeGPUs(gpus: seq<GPU>, ids: seq<string>, perGPU: int): (r: seq<GPU>)
    ensures |r| == |gpus|
  {
    seq(|gpus|, j requires 0 <= j < |gpus| => ChargeGPU(gpus[j], ids, |ids|, perGPU))
  }

  function ChargeNode(node: Node, nodeName: string, ids: seq<string>, memoryMB: int): Node {
    if node.name != nodeName then node
    else Node(node.name, ChargeGPUs(node.gpus, ids, PerGPUCharge(memoryMB, |ids|)))
  }

  function Charge(nodes: seq<Node>, nodeName: string, ids: seq<string>, memoryMB: int): (r: seq<Node>)
    ensures |r| == |nodes|
  {
    seq(|nodes|, i requires 0 <= i < |nodes| => ChargeNode(nodes[i], nodeName, ids, memoryMB))
  }

  /** The shadow after the first n placements. */
  function ShadowAfter(nodes: seq<Node>, placements: seq<PodPlacement>, n: nat): (r: seq<Node>)
    requires n <= |placements|
    ensures |r| == |nodes|
  {
    if n == 0 then nodes
    else
      var p := placements[n - 1];
      Charge(ShadowAfter(nodes, placements, n - 1), p.nodeName, p.gpuIDs, p.memoryMB)
  }

  lemma {:induction false} ShadowOfPrefix(nodes: seq<Node>, a: seq<PodPlacement>, b: seq<PodPlacement>, n: nat)
    requires n <= |a| && n <= |b| && a[..n] == b[..n]
    ensures ShadowAfter(nodes, a, n) == ShadowAfter(nodes, b, n)
  {
    if n > 0 {
      assert a[n - 1] == a[..n][n - 1] == b[..n][n - 1] == b[n - 1];
      assert a[..n - 1] == a[..n][..n - 1] == b[..n][..n - 1] == b[..n - 1];
      ShadowOfPrefix(nodes, a, b, n - 1);
    }
  }

  // ---------- Plans ----------

  /** Placement i is what a strategy may answer for job i on the shadow that the earlier placements left. */
  ghost predicate ValidStep(nodes: seq<Node>, pods: seq<PodRef>, jobs: seq<Job>, placements: seq<PodPlacement>, i: nat)
    requires i < |placements| && i < |jobs| && i < |pods|
  {
    var p := placements[i];
    && p.pod == pods[i] && p.memoryMB == jobs[i].memoryMB
    && |p.gpuIDs| == GPUCountOf(jobs[i])
    && Places(ShadowAfter(nodes, placements, i), p.nodeName, p.gpuIDs, GPUCountOf(jobs[i]), jobs[i].memoryMB, jobs[i].shared)
  }

  /** A plan for the first |placements| pods; nothing is said about how the strategy chose. */
  ghost predicate ValidPlan(nodes: seq<Node>, pods: seq<PodRef>, jobs: seq<Job>, placements: seq<PodPlacement>) {
    && |placements| <= |jobs| == |pods|
    && forall i :: 0 <= i < |placements| ==> ValidStep(nodes, pods, jobs, placements, i)
  }

  lemma ValidPlanExtend(nodes: seq<Node>, pods: seq<PodRef>, jobs: seq<Job>, placements: seq<PodPlacement>, p: PodPlacement)
    requires ValidPlan(nodes, pods, jobs, placements) && |placements| < |jobs|
    requires var i := |placements|;
             p.pod == pods[i] && p.memoryMB == jobs[i].memoryMB && |p.gpuIDs| == GPUCountOf(jobs[i])
             && Places(ShadowAfter(nodes, placements, i), p.nodeName, p.gpuIDs, GPUCountOf(jobs[i]), jobs[i].memoryMB, jobs[i].shared)
    ensures ValidPlan(nodes, pods, jobs, placements + [p])
    ensures ShadowAfter(nodes, placements + [p], |placements| + 1)
         == Charge(ShadowAfter(nodes, placements, |placements|), p.nodeName, p.gpuIDs, p.memoryMB)
  {
    var longer := placements + [p];
    forall i | 0 <= i <= |placements|
      ensures ShadowAfter(nodes, longer, i) == ShadowAfter(nodes, placements, i)
    {
      assert longer[..i] == placements[..i];
      ShadowOfPrefix(nodes, longer, placements, i);
    }
    forall i | 0 <= i < |longer|
      ensures ValidStep(nodes, pods, jobs, longer, i)
    {
      if i < |placements| {
        assert ValidStep(nodes, pods, jobs, placements, i);
      }
    }
  }

  // ---------- The planner ----------

  method DeepCopyNodes(nodes: seq<NodeInfo>) returns (cp: seq<NodeInfo>)
    ensures View(cp) == View(nodes)
    ensures SeparateGPUs(cp) && forall i :: 0 <= i < |cp| ==> fresh(cp[i].gpus)
  {
    cp := [];
    for i := 0 to |nodes|
      invariant |cp| == i
      invariant forall a :: 0 <= a < i ==> fresh(cp[a].gpus)
      invariant forall a :: 0 <= a < i ==> cp[a].name == nodes[a].name && cp[a].gpus[..] == nodes[a].gpus[..]
      invariant SeparateGPUs(cp)
    {
      var source := nodes[i].gpus;
      var gpus := new GPU[source.Length](j requires 0 <= j < source.Length reads source => source[j]);
      assert gpus[..] == source[..];
      cp := cp + [NodeInfo(nodes[i].name, gpus)];
    }
  }

  /** Charge one node's GPUs in place. */
  method ChargeInPlace(gpus: array<GPU>, ids: seq<string>, perGPU: int)
    modifies gpus
    ensures gpus[..] == ChargeGPUs(old(gpus[..]), ids, perGPU)
  {
    for j := 0 to gpus.Length
      invariant forall a :: 0 <= a < j ==> gpus[a] == ChargeGPU(old(gpus[a]), ids, |ids|, perGPU)
      invariant forall a :: j <= a < gpus.Length ==> gpus[a] == old(gpus[a])
    {
      for i := 0 to |ids|
        invariant gpus[j] == ChargeGPU(old(gpus[j]), ids, i, perGPU)
        invariant gpus[j].id == old(gpus[j]).id
        invariant forall a :: 0 <= a < j ==> gpus[a] == ChargeGPU(old(gpus[a]), ids, |ids|, perGPU)
        invariant forall a :: j < a < gpus.Length ==> gpus[a] == old(gpus[a])
      {
        if gpus[j].id == ids[i] {
          gpus[j] := Bump(gpus[j], perGPU);
        }
      }
    }
  }

  method SubtractFromShadow(shadow: seq<NodeInfo>, nodeName: string, gpuIDs: seq<string>, memoryMB: int)
    requires SeparateGPUs(shadow)
    modifies set i | 0 <= i < |shadow| :: shadow[i].gpus
    ensures View(shadow) == Charge(old(View(shadow)), nodeName, gpuIDs, memoryMB)
  {
    var perGPU := PerGPUCharge(memoryMB, |gpuIDs|);
    for i := 0 to |shadow|
      invariant forall a :: 0 <= a < i && shadow[a].name == nodeName
                  ==> shadow[a].gpus[..] == ChargeGPUs(old(shadow[a].gpus[..]), gpuIDs, perGPU)
      invariant forall a :: 0 <= a < i && shadow[a].name != nodeName ==> shadow[a].gpus[..] == old(shadow[a].gpus[..])
      invariant forall a :: i <= a < |shadow| ==> shadow[a].gpus[..] == old(shadow[a].gpus[..])
    {
      if shadow[i].name == nodeName {
        ChargeInPlace(shadow[i].gpus, gpuIDs, perGPU);
      }
    }
  }

  /** Ask the strategy for one pod. */
  method PlaceOne(policy: Policy, job: Job, shadow: seq<Node>) returns (r: Option<SchedulingResult>)
    ensures r.None? ==> !SomeNodeFits(shadow, GPUCountOf(job), job.memoryMB, job.shared)
    ensures r.Some? ==> |r.value.gpuIDs| == GPUCountOf(job)
                        && Places(shadow, r.value.nodeName, r.value.gpuIDs, GPUCountOf(job), job.memoryMB, job.shared)
  {
    var k := GPUCountOf(job);
    if k > 1 {
      var result := Strategy.ScheduleGang(policy, job, shadow, k, PerGPU);
      if result.Err? {
        return None;
      }
      var gpuIDs := PlacementIDs(result.value);
      return Some(SchedulingResult(result.value[0].nodeName, gpuIDs));
    } else {
      var result := Strategy.Schedule(policy, job, shadow);
      if result.Err? {
        NodeFitsThenGPUFits(shadow, job.memoryMB, job.shared);
        return None;
      }
      return Some(result.value);
    }
  }

  lemma NodeFitsThenGPUFits(nodes: seq<Node>, requiredMB: int, shared: bool)
    ensures SomeNodeFits(nodes, 1, requiredMB, shared) ==> SomeGPUFits(nodes, requiredMB, shared)
  {
    if SomeNodeFits(nodes, 1, requiredMB, shared) {
      var i :| 0 <= i < |nodes| && NodeFits(nodes[i], 1, requiredMB, shared);
      var eligible := EligibleGPUs(nodes[i].gpus, requiredMB, shared);
      assert eligible[0] in multiset(eligible);
      EligibleMember(nodes[i].gpus, requiredMB, shared, eligible[0]);
      var j :| 0 <= j < |nodes[i].gpus| && nodes[i].gpus[j] == eligible[0];
    }
  }

  /** placements is a valid plan for the first i pods, and no node of the shadow it leaves fits job i. */
  ghost predicate StuckAt(nodes: seq<Node>, pods: seq<PodRef>, jobs: seq<Job>, placements: seq<PodPlacement>, i: nat) {
    && i < |jobs| && |placements| == i
    && ValidPlan(nodes, pods, jobs, placements)
    && !SomeNodeFits(ShadowAfter(nodes, placements, i), GPUCountOf(jobs[i]), jobs[i].memoryMB, jobs[i].shared)
  }

  /** Every pod placed, or none: on success a valid plan for all pods, on failure the first pod that did not fit
      the shadow its predecessors left. The caller's nodes are not in the frame. */
  method ScheduleMultiPodGang(policy: Policy, pods: seq<PodRef>, nodes: seq<NodeInfo>, jobs: seq<Job>)
    returns (r: Result<seq<PodPlacement>, GangError>)
    ensures |pods| != |jobs| <==> r == Err(LengthMismatch)
    ensures r.Ok? ==> |r.value| == |jobs| && ValidPlan(View(nodes), pods, jobs, r.value)
    ensures r.Err? && r.error.Unplaceable? ==> exists placements :: StuckAt(View(nodes), pods, jobs, placements, r.error.index)
  {
    if |pods| != |jobs| {
      return Err(LengthMismatch);
    }
    var shadow := DeepCopyNodes(nodes);
    ghost var start := View(nodes);
    var placements: seq<PodPlacement> := [];
    for i := 0 to |jobs|
      invariant |placements| == i && ValidPlan(start, pods, jobs, placements)
      invariant View(shadow) == ShadowAfter(start, placements, i)
      invariant View(nodes) == start
      invariant forall a :: 0 <= a < |shadow| ==> fresh(shadow[a].gpus)
    {
      var placed := PlaceOne(policy, jobs[i], View(shadow));
      if placed.None? {
        assert StuckAt(View(nodes), pods, jobs, placements, i);
        return Err(Unplaceable(i));
      }
      var p := PodPlacement(pods[i], placed.value.nodeName, placed.value.gpuIDs, jobs[i].memoryMB);
      ValidPlanExtend(start, pods, jobs, placements, p);
      placements := placements + [p];
      SubtractFromShadow(shadow, p.nodeName, p.gpuIDs, p.memoryMB);
    }
    return Ok(placements);
  }
}
