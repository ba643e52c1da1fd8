/** internal/scheduler/preemption.go: choosing victims, and why evictions cannot go on forever. */
module Preemption {
  import opened Collections
  import opened Text
  import opened Pods
  import opened Resume

  datatype Candidate = Candidate(pod: Pod, priority: int, workflow: string, preemptible: bool, memoryMB: int)

  datatype VictimError = NoneEligible | NotEnough

  function WorkflowEvictOrder(workflow: string): int {
    if workflow == "training" then 0 else if workflow == "inference" then 1 else 2
  }

  predicate IsEligible(c: Candidate, requesterPriority: int) {
    c.preemptible && c.priority < requesterPriority
  }

  /** Training before inference before the rest, and low priority first within a workflow. */
  predicate EvictsBefore(a: Candidate, b: Candidate) {
    var oa, ob := WorkflowEvictOrder(a.workflow), WorkflowEvictOrder(b.workflow);
    if oa != ob then oa < ob else a.priority < b.priority
  }

  function EligibleUpTo(candidates: seq<Candidate>, n: nat, requesterPriority: int): (r: seq<Candidate>)
    requires n <= |candidates|
    ensures forall c :: c in r ==> c in candidates && IsEligible(c, requesterPriority)
  {
    if n == 0 then []
    else
      EligibleUpTo(candidates, n - 1, requesterPriority)
        + (if IsEligible(candidates[n - 1], requesterPriority) then [candidates[n - 1]] else [])
  }

  function EligibleOf(candidates: seq<Candidate>, requesterPriority: int): seq<Candidate> {
    EligibleUpTo(candidates, |candidates|, requesterPriority)
  }

  const Memory: Candidate -> int := (c: Candidate) => c.memoryMB

  /** An eviction order: the eligible pods, sorted; equal ranks in any order. */
  ghost predicate IsOrder(order: seq<Candidate>, eligible: seq<Candidate>) {
    multiset(order) == multiset(eligible) && SortedBy(order, EvictsBefore)
  }

  /** No non-empty prefix of the order shorter than n frees enough. */
  ghost predicate TooLittleBefore(order: seq<Candidate>, n: nat, requiredMB: int)
    requires n <= |order| + 1
  {
    forall k :: 0 < k < n ==> Sum(order[..k], Memory) < requiredMB
  }

  /** The shortest non-empty prefix of the order that frees enough. */
  ghost predicate IsShortestPrefix(order: seq<Candidate>, victims: seq<Candidate>, requiredMB: int) {
    && 0 < |victims| <= |order| && victims == order[..|victims|]
    && Sum(victims, Memory) >= requiredMB
    && TooLittleBefore(order, |victims|, requiredMB)
  }

  ghost predicate AreVictims(victims: seq<Candidate>, eligible: seq<Candidate>, requiredMB: int) {
    exists order :: IsOrder(order, eligible) && IsShortestPrefix(order, victims, requiredMB)
  }

  ghost predicate NoPrefixFrees(eligible: seq<Candidate>, requiredMB: int) {
    exists order :: IsOrder(order, eligible) && TooLittleBefore(order, |order| + 1, requiredMB)
  }

  method SelectVictims(requesterPriority: int, requiredMB: int, candidates: seq<Candidate>)
    returns (r: Result<seq<Candidate>, VictimError>)
    ensures r.Ok? ==> AreVictims(r.value, EligibleOf(candidates, requesterPriority), requiredMB)
    ensures r == Err(NoneEligible) <==> EligibleOf(candidates, requesterPriority) == []
    ensures r.Err? && r.error != NoneEligible ==> NoPrefixFrees(EligibleOf(candidates, requesterPriority), requiredMB)
    ensures var eligible := EligibleOf(candidates, requesterPriority);
            NonNegativeMemory(eligible) ==> (r.Ok? <==> eligible != [] && Sum(eligible, Memory) >= requiredMB)
  {
    var eligible := CollectEligible(requesterPriority, candidates);
    hide EligibleOf;
    if eligible == [] {
      return Err(NoneEligible);
    }
    var order := SortSlice(eligible, EvictsBefore);
    assert IsOrder(order, eligible);
    var picked := PickGreedily(order, requiredMB);
    if picked.Some? {
      assert AreVictims(picked.value, eligible, requiredMB);
      DecidedBySum(eligible, requiredMB, picked.value);
      return Ok(picked.value);
    }
    assert NoPrefixFrees(eligible, requiredMB);
    DecidedBySum(eligible, requiredMB, []);
    return Err(NotEnough);
  }

  method CollectEligible(requesterPriority: int, candidates: seq<Candidate>) returns (eligible: seq<Candidate>)
    ensures eligible == EligibleOf(candidates, requesterPriority)
  {
    eligible := [];
    for i := 0 to |candidates|
      invariant eligible == EligibleUpTo(candidates, i, requesterPriority)
    {
      if !candidates[i].preemptible {
        continue;
      }
      if candidates[i].priority >= requesterPriority {
        continue;
      }
      eligible := eligible + [candidates[i]];
    }
  }

  /** Add victims in eviction order until enough is freed. */
  method PickGreedily(order: seq<Candidate>, requiredMB: int) returns (r: Option<seq<Candidate>>)
    ensures r.Some? ==> IsShortestPrefix(order, r.value, requiredMB)
    ensures r.None? ==> TooLittleBefore(order, |order| + 1, requiredMB)
  {
    var victims: seq<Candidate> := [];
    var freedMB := 0;
    for i := 0 to |order|
      invariant victims == order[..i] && freedMB == Sum(victims, Memory)
      invariant TooLittleBefore(order, i + 1, requiredMB)
    {
      TakeNext(order, i, Memory);
      victims := victims + [order[i]];
      freedMB := freedMB + order[i].memoryMB;
      assert victims == order[..i + 1];
      if freedMB >= requiredMB {
        return Some(victims);
      }
    }
    return None;
  }

  // ---------- What the answer means ----------

  lemma EligibleAreExact(candidates: seq<Candidate>, n: nat, requesterPriority: int, c: Candidate)
    requires n <= |candidates|
    ensures c in EligibleUpTo(candidates, n, requesterPriority) <==> c in candidates[..n] && c.preemptible && c.priority < requesterPriority
  {
    if n > 0 {
      EligibleAreExact(candidates, n - 1, requesterPriority, c);
      assert candidates[..n] == candidates[..n - 1] + [candidates[n - 1]];
    }
  }

  /** Victims are eligible, and no eligible pod that was spared ranks strictly before a victim. */
  lemma NoSparedPodRanksBefore(victims: seq<Candidate>, eligible: seq<Candidate>, requiredMB: int)
    requires AreVictims(victims, eligible, requiredMB)
    ensures multiset(victims) <= multiset(eligible)
    ensures forall v, c :: v in victims && c in multiset(eligible) - multiset(victims) ==> !EvictsBefore(c, v)
  {
    hide Sum, TooLittleBefore;
    var order :| IsOrder(order, eligible) && IsShortestPrefix(order, victims, requiredMB);
    SplitOrder(order, |victims|, eligible);
    forall v, c | v in victims && c in multiset(order[|victims|..])
      ensures !EvictsBefore(c, v)
    {
      EarlierRanksFirst(order, |victims|, v, c);
    }
  }

  lemma SplitOrder(order: seq<Candidate>, n: nat, eligible: seq<Candidate>)
    requires multiset(order) == multiset(eligible) && n <= |order|
    ensures multiset(order[..n]) <= multiset(eligible)
    ensures multiset(eligible) - multiset(order[..n]) == multiset(order[n..])
  {
    assert order == order[..n] + order[n..];
  }

  lemma EarlierRanksFirst(order: seq<Candidate>, n: nat, v: Candidate, c: Candidate)
    requires SortedBy(order, EvictsBefore) && n <= |order|
    requires v in order[..n] && c in multiset(order[n..])
    ensures !EvictsBefore(c, v)
  {
    var i :| 0 <= i < n && order[i] == v;
    var j := IndexOfMember(order[n..], c);
    assert order[n + j] == c;
  }

  /** Where the eviction stops: no training pod is spared while another pod is evicted, no inference pod while a pod of
      another kind is, and within one workflow no pod of lower priority. */
  lemma TrainingGoesFirst(victims: seq<Candidate>, eligible: seq<Candidate>, requiredMB: int, v: Candidate, spared: Candidate)
    requires AreVictims(victims, eligible, requiredMB) && v in victims && spared in multiset(eligible) - multiset(victims)
    ensures spared.workflow == "training" ==> v.workflow == "training"
    ensures spared.workflow == "inference" ==> v.workflow in {"training", "inference"}
    ensures spared.workflow == v.workflow ==> v.priority <= spared.priority
    ensures v.workflow !in {"training", "inference"} && spared.workflow !in {"training", "inference"} ==> v.priority <= spared.priority
  {
    NoSparedPodRanksBefore(victims, eligible, requiredMB);
    hide AreVictims;
    assert !EvictsBefore(spared, v);
  }

  ghost predicate NonNegativeMemory(eligible: seq<Candidate>) {
    forall c :: c in eligible ==> c.memoryMB >= 0
  }

  lemma {:induction false} PrefixSumsGrow(s: seq<Candidate>, k: nat, n: nat)
    requires k <= n <= |s| && NonNegativeMemory(s)
    ensures Sum(s[..k], Memory) <= Sum(s[..n], Memory)
    decreases n
  {
    if k < n {
      PrefixSumsGrow(s, k, n - 1);
      TakeNext(s, n - 1, Memory);
      assert s[n - 1] in s;
    }
  }

  lemma OrderKeepsMembers(order: seq<Candidate>, eligible: seq<Candidate>)
    requires multiset(order) == multiset(eligible)
    ensures |order| == |eligible| && Sum(order, Memory) == Sum(eligible, Memory)
    ensures NonNegativeMemory(eligible) ==> NonNegativeMemory(order)
  {
    SumOfPermutation(order, eligible, Memory);
    SubsetIsNoLonger(order, eligible);
    SubsetIsNoLonger(eligible, order);
    assert forall c :: c in order ==> c in multiset(order);
  }

  /** For non-negative memory, success and failure depend on the sum alone, not on the eviction order. */
  lemma DecidedBySum(eligible: seq<Candidate>, requiredMB: int, victims: seq<Candidate>)
    ensures NonNegativeMemory(eligible) ==>
              (AreVictims(victims, eligible, requiredMB) ==> eligible != [] && Sum(eligible, Memory) >= requiredMB)
    ensures NonNegativeMemory(eligible) ==>
              (eligible != [] && NoPrefixFrees(eligible, requiredMB) ==> Sum(eligible, Memory) < requiredMB)
  {
    if !NonNegativeMemory(eligible) {
      return;
    }
    if AreVictims(victims, eligible, requiredMB) {
      var order :| IsOrder(order, eligible) && IsShortestPrefix(order, victims, requiredMB);
      OrderKeepsMembers(order, eligible);
      PrefixSumsGrow(order, |victims|, |order|);
      assert order[..|order|] == order;
    }
    if eligible != [] && NoPrefixFrees(eligible, requiredMB) {
      var order :| IsOrder(order, eligible) && TooLittleBefore(order, |order| + 1, requiredMB);
      OrderKeepsMembers(order, eligible);
      assert order[..|order|] == order;
    }
  }

  // ---------- "The smallest set that frees enough memory" ----------

  /** No smaller non-empty set of eligible pods frees enough. */
  ghost predicate IsSmallestSet(victims: seq<Candidate>, eligible: seq<Candidate>, requiredMB: int) {
    forall choice :: 0 < |choice| < |victims| && multiset(choice) <= multiset(eligible) ==> Sum(choice, Memory) < requiredMB
  }

  const Saved: Candidate -> int := (c: Candidate) => -c.memoryMB

  lemma {:induction false} SavedIsNegated(s: seq<Candidate>)
    ensures Sum(s, Saved) == -Sum(s, Memory)
  {
    if s != [] {
      SavedIsNegated(s[1..]);
    }
  }

  /** The eligible pods listed by decreasing memory. */
  ghost predicate IsDescending(desc: seq<Candidate>, eligible: seq<Candidate>) {
    multiset(desc) == multiset(eligible) && Ascending(desc, Saved)
  }

  /** Of all choices of k pods, the k largest free most. */
  lemma LargestFreeMost(desc: seq<Candidate>, choice: seq<Candidate>)
    requires Ascending(desc, Saved) && multiset(choice) <= multiset(desc)
    ensures |choice| <= |desc| && Sum(choice, Memory) <= Sum(desc[..|choice|], Memory)
  {
    PrefixIsLeast(desc, choice, Saved);
    SavedIsNegated(choice);
    SavedIsNegated(desc[..|choice|]);
  }

  /** Some number of pods is too few in eviction order but enough when the largest are taken. */
  ghost predicate OrderWastesPods(order: seq<Candidate>, desc: seq<Candidate>, requiredMB: int)
    requires |desc| == |order|
  {
    exists n :: 0 < n < |order| && Sum(order[..n], Memory) < requiredMB && Sum(desc[..n], Memory) >= requiredMB
  }

  /** Greedy eviction along an order finds a smallest set if and only if for no number of pods the eviction order frees
      too little where the largest pods would free enough. */
  lemma GreedyIsSmallestExactly(order: seq<Candidate>, desc: seq<Candidate>, victims: seq<Candidate>, eligible: seq<Candidate>,
                                requiredMB: int)
    requires NonNegativeMemory(eligible) && IsOrder(order, eligible) && IsDescending(desc, eligible)
    requires IsShortestPrefix(order, victims, requiredMB)
    ensures |desc| == |order|
    ensures IsSmallestSet(victims, eligible, requiredMB) <==> !OrderWastesPods(order, desc, requiredMB)
  {
    OrderKeepsMembers(order, eligible);
    OrderKeepsMembers(desc, eligible);
    SmallestByCount(victims, eligible, requiredMB, desc);
    hide IsSmallestSet, IsOrder, IsDescending, NonNegativeMemory;
    WastedBeforeLast(order, desc, victims, requiredMB);
  }

  lemma WastedBeforeLast(order: seq<Candidate>, desc: seq<Candidate>, victims: seq<Candidate>, requiredMB: int)
    requires NonNegativeMemory(order) && NonNegativeMemory(desc) && |desc| == |order|
    requires IsShortestPrefix(order, victims, requiredMB)
    ensures OrderWastesPods(order, desc, requiredMB) <==> |victims| > 1 && Sum(desc[..|victims| - 1], Memory) >= requiredMB
  {
    var m := |victims| - 1;
    if OrderWastesPods(order, desc, requiredMB) {
      var n :| 0 < n < |order| && Sum(order[..n], Memory) < requiredMB && Sum(desc[..n], Memory) >= requiredMB;
      if n > m {
        PrefixSumsGrow(order, |victims|, n);
        assert false;
      }
      PrefixSumsGrow(desc, n, m);
    }
    if m > 0 && Sum(desc[..m], Memory) >= requiredMB {
      assert Sum(order[..m], Memory) < requiredMB;
    }
  }

  /** In terms of the victims: one pod suffices, or the |victims| - 1 largest eligible pods would not free enough. */
  lemma SmallestByCount(victims: seq<Candidate>, eligible: seq<Candidate>, requiredMB: int, desc: seq<Candidate>)
    requires NonNegativeMemory(eligible) && AreVictims(victims, eligible, requiredMB) && IsDescending(desc, eligible)
    ensures 0 < |victims| <= |desc|
    ensures IsSmallestSet(victims, eligible, requiredMB)
        <==> |victims| == 1 || Sum(desc[..|victims| - 1], Memory) < requiredMB
  {
    OrderKeepsMembers(desc, eligible);
    NoSparedPodRanksBefore(victims, eligible, requiredMB);
    SubsetIsNoLonger(victims, eligible);
    hide AreVictims;
    if |victims| > 1 {
      SmallestByLargest(victims, eligible, requiredMB, desc);
    }
  }

  lemma SmallestByLargest(victims: seq<Candidate>, eligible: seq<Candidate>, requiredMB: int, desc: seq<Candidate>)
    requires NonNegativeMemory(desc) && IsDescending(desc, eligible) && 1 < |victims| <= |desc|
    ensures IsSmallestSet(victims, eligible, requiredMB) <==> Sum(desc[..|victims| - 1], Memory) < requiredMB
  {
    var n := |victims| - 1;
    var largest := desc[..n];
    assert desc == largest + desc[n..];
    assert multiset(largest) <= multiset(eligible);
    if Sum(largest, Memory) < requiredMB {
      forall choice | 0 < |choice| < |victims| && multiset(choice) <= multiset(eligible)
        ensures Sum(choice, Memory) < requiredMB
      {
        LargestFreeMost(desc, choice);
        PrefixSumsGrow(desc, |choice|, n);
      }
    }
  }

  /** The documented "smallest set" is not what greedy gives: two training pods are evicted where one would do. */
  lemma GreedyIsNotSmallest(small: Candidate, large: Candidate)
    requires small.workflow == "training" == large.workflow && small.priority < large.priority
    requires small.memoryMB == 10 && large.memoryMB == 100
    ensures AreVictims([small, large], [small, large], 100)
    ensures !IsSmallestSet([small, large], [small, large], 100)
  {
    var order := [small, large];
    assert order[..1] == [small] && order[..2] == order;
    assert Sum([small], Memory) == 10 && Sum([large], Memory) == 100;
    SumConcat([small], [large], Memory);
    assert [small] + [large] == order;
    assert IsOrder(order, order) && IsShortestPrefix(order, order, 100);
    assert multiset([large]) <= multiset(order);
  }

  // ---------- Preempt ----------

  /** What the cluster answers: whether deleting a victim and creating its replacement succeed. */
  datatype Cluster = Cluster(deletes: Pod -> bool, creates: Pod -> bool)

  function Evicted(victims: seq<Candidate>, n: nat, cluster: Cluster): seq<Pod>
    requires n <= |victims|
  {
    if n == 0 then []
    else Evicted(victims, n - 1, cluster) + (if cluster.deletes(victims[n - 1].pod) then [victims[n - 1].pod] else [])
  }

  function Replacement(victim: Pod, cfg: ResumeConfig, cluster: Cluster): seq<Pod> {
    match Resumed(victim, cfg)
    case Some(pod) => if cluster.creates(pod) then [pod] else []
    case None => []
  }

  function Replacements(victims: seq<Candidate>, n: nat, cfg: ResumeConfig, cluster: Cluster): seq<Pod>
    requires n <= |victims|
  {
    if n == 0 then []
    else
      Replacements(victims, n - 1, cfg, cluster)
        + (if cluster.deletes(victims[n - 1].pod) then Replacement(victims[n - 1].pod, cfg, cluster) else [])
  }

  method TryAutoResume(victim: Pod, cfg: ResumeConfig, cluster: Cluster) returns (created: seq<Pod>)
    ensures created == Replacement(victim, cfg, cluster)
    ensures created != [] <==> && victim.Says("gpu-scheduler/auto-resume", "true") && GetPreemptCount(victim) < cfg.maxRetries
                               && cluster.creates(ResumePod(victim, GetPreemptCount(victim) + 1, cfg))
  {
    if !GetAutoResume(victim) {
      return [];
    }
    var preemptCount := GetPreemptCount(victim) + 1;
    if preemptCount > cfg.maxRetries {
      return [];
    }
    var pod := BuildResumePod(victim, preemptCount, cfg);
    if !cluster.creates(pod) {
      return [];
    }
    return [pod];
  }

  /** Every selected victim is returned, also one whose deletion failed; only deleted ones are replaced. */
  method Preempt(requesterPriority: int, requiredMB: int, candidates: seq<Candidate>, cfg: ResumeConfig, cluster: Cluster)
    returns (r: Result<seq<Candidate>, VictimError>, evicted: seq<Pod>, created: seq<Pod>)
    ensures r.Ok? ==> AreVictims(r.value, EligibleOf(candidates, requesterPriority), requiredMB)
    ensures r.Ok? ==> evicted == Evicted(r.value, |r.value|, cluster) && created == Replacements(r.value, |r.value|, cfg, cluster)
    ensures r.Err? ==> evicted == [] && created == []
    ensures r == Err(NoneEligible) <==> EligibleOf(candidates, requesterPriority) == []
    ensures r.Err? && r.error != NoneEligible ==> NoPrefixFrees(EligibleOf(candidates, requesterPriority), requiredMB)
  {
    r := SelectVictims(requesterPriority, requiredMB, candidates);
    hide AreVictims, NoPrefixFrees, EligibleOf;
    evicted, created := [], [];
    if r.Err? {
      return;
    }
    var victims := r.value;
    for i := 0 to |victims|
      invariant evicted == Evicted(victims, i, cluster)
      invariant created == Replacements(victims, i, cfg, cluster)
    {
      if !cluster.deletes(victims[i].pod) {
        continue;
      }
      evicted := evicted + [victims[i].pod];
      var resumed := TryAutoResume(victims[i].pod, cfg, cluster);
      created := created + resumed;
    }
  }
}
