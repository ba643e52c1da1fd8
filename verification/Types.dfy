/** The entities of pkg/types: GPUs, nodes, jobs and placement results. */
module Types {
  import opened Collections

  datatype MemoryMode = PerGPU | TotalMemory | NoMemory | OtherMode

  /** A GPU as the scheduler sees it; usedMB is reserved memory, not what the agent measured. */
  datatype GPU = GPU(id: string, totalMB: int, usedMB: int, utilization: real,
                     healthy: bool, allocatedPods: int, mps: bool)
  {
    function AvailableMB(): int { totalMB - usedMB }
  }

  datatype Node = Node(name: string, gpus: seq<GPU>)

  datatype Job = Job(memoryMB: int, gpuCount: int, shared: bool)

  datatype GPUPlacement = GPUPlacement(nodeName: string, gpuID: string, memoryMB: int)

  datatype ScheduleError = NoNodes | BadGPUCount | UnsupportedMode | NoCapacity

  datatype SchedulingResult = SchedulingResult(nodeName: string, gpuIDs: seq<string>)

  /** Division of Go integers: the quotient is truncated toward zero. */
  function TruncDiv(a: int, b: int): int
    requires b > 0
  {
    if a >= 0 then a / b else -((-a) / b)
  }

  /** Memory asked of each GPU of a k-GPU job. */
  function RequiredMB(memoryMB: int, k: int, mode: MemoryMode): int
    requires k > 0
  {
    match mode
    case TotalMemory => TruncDiv(memoryMB + k - 1, k)
    case PerGPU => memoryMB
    case _ => 0
  }

  /** The filter every strategy applies to one GPU. */
  predicate Eligible(g: GPU, requiredMB: int, shared: bool) {
    && g.healthy
    && (shared || g.allocatedPods <= 0)
    && !(g.totalMB > 0 && g.AvailableMB() == 0)
    && g.AvailableMB() >= requiredMB
  }

  /** The eligible ones among the first n GPUs, in order. */
  function EligibleUpTo(gpus: seq<GPU>, n: nat, requiredMB: int, shared: bool): (r: seq<GPU>)
    requires n <= |gpus|
    ensures |r| <= n
  {
    if n == 0 then []
    else
      EligibleUpTo(gpus, n - 1, requiredMB, shared)
        + (if Eligible(gpus[n - 1], requiredMB, shared) then [gpus[n - 1]] else [])
  }

  /** The eligible GPUs of a list, in order. */
  function EligibleGPUs(gpus: seq<GPU>, requiredMB: int, shared: bool): seq<GPU> {
    EligibleUpTo(gpus, |gpus|, requiredMB, shared)
  }

  /** Filtering keeps exactly the eligible elements, each as often as it occurs. */
  lemma EligibleCount(gpus: seq<GPU>, requiredMB: int, shared: bool, g: GPU)
    ensures multiset(EligibleGPUs(gpus, requiredMB, shared))[g]
         == if Eligible(g, requiredMB, shared) then multiset(gpus)[g] else 0
  {
    EligibleUpToCount(gpus, |gpus|, requiredMB, shared, g);
    assert gpus[..|gpus|] == gpus;
  }

  lemma EligibleNext(gpus: seq<GPU>, j: nat, requiredMB: int, shared: bool)
    requires j < |gpus|
    ensures EligibleUpTo(gpus, j + 1, requiredMB, shared) ==
            if Eligible(gpus[j], requiredMB, shared) then EligibleUpTo(gpus, j, requiredMB, shared) + [gpus[j]]
            else EligibleUpTo(gpus, j, requiredMB, shared)
  {
  }

  lemma EligibleMember(gpus: seq<GPU>, requiredMB: int, shared: bool, g: GPU)
    requires g in multiset(EligibleGPUs(gpus, requiredMB, shared))
    ensures g in gpus && Eligible(g, requiredMB, shared)
  {
    EligibleCount(gpus, requiredMB, shared, g);
    hide EligibleGPUs, Eligible;
  }

  /** Filtering one more GPU keeps the count right. */
  lemma FilterStep(before: seq<GPU>, kept: seq<GPU>, x: GPU, all: seq<GPU>, keptAll: seq<GPU>, requiredMB: int, shared: bool, g: GPU)
    requires all == before + [x] && keptAll == (if Eligible(x, requiredMB, shared) then kept + [x] else kept)
    requires multiset(kept)[g] == if Eligible(g, requiredMB, shared) then multiset(before)[g] else 0
    ensures multiset(keptAll)[g] == if Eligible(g, requiredMB, shared) then multiset(all)[g] else 0
  {
    hide Eligible;
    CountAfterAppend(before, x, g);
    CountAfterAppend(kept, x, g);
  }

  lemma {:induction false} EligibleUpToCount(gpus: seq<GPU>, n: nat, requiredMB: int, shared: bool, g: GPU)
    requires n <= |gpus|
    ensures multiset(EligibleUpTo(gpus, n, requiredMB, shared))[g]
         == if Eligible(g, requiredMB, shared) then multiset(gpus[..n])[g] else 0
  {
    if n == 0 {
      assert gpus[..0] == [];
    } else {
      EligibleUpToCount(gpus, n - 1, requiredMB, shared, g);
      EligibleNext(gpus, n - 1, requiredMB, shared);
      hide Eligible, EligibleUpTo;
      FilterStep(gpus[..n - 1], EligibleUpTo(gpus, n - 1, requiredMB, shared), gpus[n - 1], gpus[..n],
                 EligibleUpTo(gpus, n, requiredMB, shared), requiredMB, shared, g);
    }
  }

  /** The eligible part of a prefix is a prefix of the eligible part. */
  lemma {:induction false} EligibleOfPrefix(gpus: seq<GPU>, n: nat, m: nat, requiredMB: int, shared: bool)
    requires n <= m <= |gpus|
    ensures EligibleUpTo(gpus, n, requiredMB, shared) <= EligibleUpTo(gpus, m, requiredMB, shared)
    decreases m
  {
    if n < m {
      EligibleOfPrefix(gpus, n, m - 1, requiredMB, shared);
    }
  }

  /** k eligible GPUs of one node, each position used at most once. */
  ghost predicate IsChoice(node: Node, choice: seq<GPU>, k: int, requiredMB: int, shared: bool) {
    && |choice| == k
    && multiset(choice) <= multiset(EligibleGPUs(node.gpus, requiredMB, shared))
  }

  /** Some single node can host the job. */
  ghost predicate SomeNodeFits(nodes: seq<Node>, k: int, requiredMB: int, shared: bool) {
    exists i :: 0 <= i < |nodes| && NodeFits(nodes[i], k, requiredMB, shared)
  }

  predicate NodeFits(node: Node, k: int, requiredMB: int, shared: bool) {
    |EligibleGPUs(node.gpus, requiredMB, shared)| >= k
  }

  /** Some GPU of some node can host a one-GPU job. */
  ghost predicate SomeGPUFits(nodes: seq<Node>, requiredMB: int, shared: bool) {
    exists i, j :: 0 <= i < |nodes| && 0 <= j < |nodes[i].gpus| && Eligible(nodes[i].gpus[j], requiredMB, shared)
  }

  function PlacementsOn(nodeName: string, gpus: seq<GPU>, requiredMB: int): (r: seq<GPUPlacement>) {
    seq(|gpus|, i requires 0 <= i < |gpus| => GPUPlacement(nodeName, gpus[i].id, requiredMB))
  }

  predicate UniqueIDs(gpus: seq<GPU>) {
    forall i, j :: 0 <= i < j < |gpus| ==> gpus[i].id != gpus[j].id
  }

  predicate UniqueNames(nodes: seq<Node>) {
    forall i, j :: 0 <= i < j < |nodes| ==> nodes[i].name != nodes[j].name
  }

  /** Node names identify nodes and GPU ids identify the GPUs of a node. */
  predicate WellNamed(nodes: seq<Node>) {
    && UniqueNames(nodes)
    && (forall i :: 0 <= i < |nodes| ==> UniqueIDs(nodes[i].gpus))
  }

  /** The GPUs of a choice have pairwise distinct ids when the node's ids are distinct. */
  lemma ChoiceHasDistinctIDs(node: Node, choice: seq<GPU>, k: int, requiredMB: int, shared: bool, i: nat, j: nat)
    requires IsChoice(node, choice, k, requiredMB, shared)
    requires UniqueIDs(node.gpus)
    requires i < j < |choice|
    ensures choice[i].id != choice[j].id
  {
    ChoiceIsFromNode(node, choice, k, requiredMB, shared, i);
    ChoiceIsFromNode(node, choice, k, requiredMB, shared, j);
    if choice[i] == choice[j] {
      var g := choice[i];
      assert choice == choice[..i] + [g] + choice[i + 1..j] + [g] + choice[j + 1..];
      assert multiset(choice)[g] >= 2;
      EligibleCount(node.gpus, requiredMB, shared, g);
      UniqueOccursOnce(node.gpus, g);
      assert false;
    }
  }

  lemma ChoiceIsFromNode(node: Node, choice: seq<GPU>, k: int, requiredMB: int, shared: bool, i: nat)
    requires IsChoice(node, choice, k, requiredMB, shared)
    requires i < |choice|
    ensures choice[i] in node.gpus && Eligible(choice[i], requiredMB, shared)
  {
    assert choice[i] in multiset(choice);
    EligibleMember(node.gpus, requiredMB, shared, choice[i]);
  }

  /** Only a node with k eligible GPUs offers a choice of k. */
  lemma ChoiceNeedsFit(node: Node, choice: seq<GPU>, k: int, requiredMB: int, shared: bool)
    requires IsChoice(node, choice, k, requiredMB, shared)
    ensures NodeFits(node, k, requiredMB, shared)
  {
    SubsetIsNoLonger(choice, EligibleGPUs(node.gpus, requiredMB, shared));
  }

  lemma {:induction false} UniqueOccursOnce(gpus: seq<GPU>, g: GPU)
    requires UniqueIDs(gpus)
    ensures multiset(gpus)[g] <= 1
  {
    if gpus != [] {
      var n := |gpus| - 1;
      assert gpus == gpus[..n] + [gpus[n]];
      UniqueOccursOnce(gpus[..n], g);
      if g == gpus[n] {
        assert g !in gpus[..n];
        assert multiset(gpus[..n])[g] == 0;
      }
    }
  }

  /** k times the per-GPU share covers the total and overshoots it by less than k, for every total >= 0. */
  lemma TotalShareCovers(memoryMB: int, k: int)
    requires k > 0 && memoryMB >= 0
    ensures memoryMB <= k * RequiredMB(memoryMB, k, TotalMemory) < memoryMB + k
  {
    TotalShareExact(memoryMB, k);
  }

  /** For any integer total, the cover holds exactly when memoryMB > -k or k divides memoryMB - 1. */
  lemma TotalShareExact(memoryMB: int, k: int)
    requires k > 0
    ensures memoryMB <= k * RequiredMB(memoryMB, k, TotalMemory) < memoryMB + k
        <==> (memoryMB > -k || (memoryMB - 1) % k == 0)
  {
    var n := memoryMB + k - 1;
    if n >= 0 {
      assert n == k * (n / k) + n % k;
    } else {
      var m := -n;
      assert m == k * (m / k) + m % k;
      assert k * (-(m / k)) == -(k * (m / k));
      DivisibleNegation(m, memoryMB, k);
    }
  }

  lemma DivisibleNegation(m: int, memoryMB: int, k: int)
    requires k > 0 && m == -(memoryMB + k - 1)
    ensures m % k == 0 <==> (memoryMB - 1) % k == 0
  {
    var a := memoryMB - 1;
    assert a == k * (a / k) + a % k;
    assert m == k * (m / k) + m % k;
    if m % k == 0 {
      RemainderIsUnique(a, -(m / k) - 1, 0, k);
    }
    if a % k == 0 {
      RemainderIsUnique(m, -(a / k) - 1, 0, k);
    }
  }

  lemma RemainderIsUnique(a: int, q: int, r: int, k: int)
    requires k > 0 && 0 <= r < k && a == k * q + r
    ensures a % k == r
  {
    var d := a / k - q;
    assert a == k * (a / k) + a % k;
    assert k * d == r - a % k by {
      assert k * d == k * (a / k) - k * q;
    }
    NonZeroMultiple(k, d);
  }

  lemma NonZeroMultiple(k: int, d: int)
    requires k > 0
    ensures d >= 1 ==> k * d >= k
    ensures d <= -1 ==> k * d <= -k
  {
  }
}
