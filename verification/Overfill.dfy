/** A GPU overfilled within one scheduling pass: a pod finds no room, its victim is evicted but runs on, and the next pod of
    the same pass is placed on the memory that the victim still holds. */
module Overfill {
  import opened Collections
  import opened Types
  import opened Text
  import opened Pods
  import opened ControlPlane
  import opened Ledger
  import opened LedgerRuns
  import opened Watcher
  import opened PlacementRuns
  import opened NegativeMemory
  import A = Allocator
  import R = Registry
  import P = Preemption
  import M = RunningMemory

  /** A shared pod with a memory and a priority annotation. */
  function RankedPod(name: string, memory: string, priority: string): Pod {
    Pod("x", name, map[MEMORY := memory, SHARED := "true", PRIORITY := priority], map[], 0, None, None, "", "s", None)
  }

  /** v runs with 60 MB, r asks for 50 MB and may evict it, b asks for 80 MB. */
  const V := RankedPod("v", "60", "1")
  const RQ := RankedPod("r", "50", "3")
  const B := RankedPod("b", "80", "2")

  const KEY_V := PodKey("x", "v")
  const KEY_B := PodKey("x", "b")

  const VICTIM := P.Candidate(V, 1, "inference", true, 60)

  function Reserves(memoryMB: int): seq<Entry> {
    [Entry("n", "g", memoryMB, false)]
  }

  ghost predicate IsHardware(hw: Hardware) {
    hw.total("n", "g") == 100 && hw.mps("n", "g")
  }

  // ---------- What the pods ask for ----------

  lemma RankedKeys()
    ensures MEMORY != MEMORY_IO && MEMORY != SHARED && MEMORY_IO != SHARED
    ensures PRIORITY != MEMORY && PRIORITY != MEMORY_IO && PRIORITY != SHARED
    ensures "gpu-scheduler/gpu-count" !in {MEMORY, SHARED, PRIORITY}
    ensures "gpu-scheduler/inference-role" !in {MEMORY, SHARED, PRIORITY}
    ensures "gpu-scheduler/model-group" !in {MEMORY, SHARED, PRIORITY}
  {
    AnnotationKeys();
    assert |PRIORITY| == 22 && |MEMORY| == 23 && |MEMORY_IO| == 26 && |SHARED| == 20;
    assert |"gpu-scheduler/gpu-count"| == 23 && |"gpu-scheduler/inference-role"| == 28 && |"gpu-scheduler/model-group"| == 25;
  }

  lemma RankedPodReads(name: string, memory: string, priority: string, memoryMB: int, rank: int, cfg: WorkflowConfig)
    requires Atoi(memory) == Some(memoryMB) && Atoi(priority) == Some(rank)
    ensures var pod := RankedPod(name, memory, priority);
            && GetGPUMemory(pod) == memoryMB && GetGPUCount(pod) == 1 && IsSharedGPUPod(pod)
            && GetPriority(pod, cfg) == rank
            && GetDisaggIntent(pod).isValid && !GetDisaggIntent(pod).isDisagg
  {
    RankedKeys();
    hide Atoi;
  }

  lemma Numbers()
    ensures Atoi("60") == Some(60) && Atoi("50") == Some(50) && Atoi("80") == Some(80)
    ensures Atoi("1") == Some(1) && Atoi("2") == Some(2) && Atoi("3") == Some(3)
  {
    ItoaRoundTrip(60);
    ItoaRoundTrip(50);
    ItoaRoundTrip(80);
    ItoaRoundTrip(1);
    ItoaRoundTrip(2);
    ItoaRoundTrip(3);
    assert NatToString(6) == "6" && NatToString(60) == NatToString(6) + "0";
    assert NatToString(5) == "5" && NatToString(50) == NatToString(5) + "0";
    assert NatToString(8) == "8" && NatToString(80) == NatToString(8) + "0";
    assert Itoa(60) == "60" && Itoa(50) == "50" && Itoa(80) == "80";
    assert Itoa(1) == "1" && Itoa(2) == "2" && Itoa(3) == "3";
  }

  lemma PodsRead(cfg: WorkflowConfig)
    ensures GetGPUMemory(V) == 60 && GetGPUMemory(RQ) == 50 && GetGPUMemory(B) == 80
    ensures GetPriority(V, cfg) == 1 && GetPriority(RQ, cfg) == 3 && GetPriority(B, cfg) == 2
    ensures GetGPUCount(V) == GetGPUCount(RQ) == GetGPUCount(B) == 1
    ensures IsSharedGPUPod(V) && IsSharedGPUPod(RQ) && IsSharedGPUPod(B)
    ensures !GetDisaggIntent(V).isDisagg && !GetDisaggIntent(RQ).isDisagg && !GetDisaggIntent(B).isDisagg
  {
    hide Atoi, GetGPUMemory, GetPriority, GetGPUCount, GetDisaggIntent, IsSharedGPUPod;
    Numbers();
    RankedPodReads("v", "60", "1", 60, 1, cfg);
    RankedPodReads("r", "50", "3", 50, 3, cfg);
    RankedPodReads("b", "80", "2", 80, 2, cfg);
  }

  lemma KeysDiffer()
    ensures KEY_V != KEY_B
  {
    assert KEY_V[2] == 'v' && KEY_B[2] == 'b';
  }

  // ---------- No room for the requester ----------

  /** With less than the memory asked for left on the only GPU, routing finds no place. */
  lemma NoRoomFor(s: State, pod: Pod)
    requires s.nodes == REPORTED.nodes && GetGPUCount(pod) == 1 && !GetDisaggIntent(pod).isDisagg
    requires GetGPUMemory(pod) > 100 - s.Reserved("n", "g")
    ensures !CanPlace(s, pod)
  {
    var memoryMB := GetGPUMemory(pod);
    A.RoutedMemoryIsReserved(pod);
    assert A.RoutedMemory(pod, JobOf(pod)) == memoryMB;
    hide GetGPUMemory, A.RoutedMemory, A.FirstPool;
    NoCandidate(s, memoryMB);
    assert forall pool, shared :: !A.PoolHas(s, pool, memoryMB, shared);
  }

  lemma NoCandidate(s: State, memoryMB: int)
    requires s.nodes == REPORTED.nodes && memoryMB > 100 - s.Reserved("n", "g")
    ensures forall c :: !R.IsFullCandidate(s, c, memoryMB)
    ensures !A.MIGPoolHas(s, memoryMB)
  {
  }

  // ---------- The only victim ----------

  /** Making room for r can only mean evicting v. */
  lemma VictimIsForced(watcher: Watcher, victims: seq<P.Candidate>)
    requires watcher.orchestrator.Some?
    ensures watcher.AreEvicted(victims, RQ, [VICTIM]) <==> victims == [VICTIM]
  {
    PodsRead(watcher.workflows);
    OneEligible();
    hide GetGPUMemory, GetPriority, P.EligibleOf, P.AreVictims, P.NoPrefixFrees;
    OneVictim(victims);
    OneFrees();
  }

  lemma OneEligible()
    ensures P.EligibleOf([VICTIM], 3) == [VICTIM]
  {
    assert P.EligibleUpTo([VICTIM], 0, 3) == [];
  }

  lemma OneOrder(order: seq<P.Candidate>)
    ensures P.IsOrder(order, [VICTIM]) <==> order == [VICTIM]
  {
    if multiset(order) == multiset([VICTIM]) {
      assert |multiset(order)| == 1;
      assert order[0] in multiset(order);
    }
  }

  lemma OneSum()
    ensures Sum([VICTIM], P.Memory) == 60
  {
    assert [VICTIM][1..] == [];
  }

  lemma OneVictim(victims: seq<P.Candidate>)
    ensures P.AreVictims(victims, [VICTIM], 50) <==> victims == [VICTIM]
  {
    OneSum();
    OneOrder([VICTIM]);
    assert [VICTIM][..1] == [VICTIM];
    hide P.IsOrder, Sum;
    if P.AreVictims(victims, [VICTIM], 50) {
      var order :| P.IsOrder(order, [VICTIM]) && P.IsShortestPrefix(order, victims, 50);
      OneOrder(order);
    }
    if victims == [VICTIM] {
      assert P.IsShortestPrefix([VICTIM], victims, 50);
    }
  }

  lemma OneFrees()
    ensures !P.NoPrefixFrees([VICTIM], 50)
  {
    OneSum();
    hide P.IsOrder, Sum;
    forall order | P.IsOrder(order, [VICTIM])
      ensures !P.TooLittleBefore(order, |order| + 1, 50)
    {
      OneOrder(order);
      assert order[..1] == [VICTIM];
    }
  }

  // ---------- The pass ----------

  /** The worlds of the pass: v runs, the pass begins with all three pods listed, v is evicted, b starts. */
  const W0 := M.World(REPORTED, map[], {}, true)
  const W1 := M.Next(W0, M.Start(KEY_V, Reserves(60)))
  const W2 := M.Next(M.Next(W1, M.Finish), M.Begin({KEY_V, PodKey("x", "r"), KEY_B}, {}))
  const W3 := M.Next(W2, M.Evict(KEY_V))
  const W4 := M.Next(W3, M.Start(KEY_B, Reserves(80)))

  lemma StartOnTheGPU(w: M.World, hw: Hardware, pod: Pod)
    requires IsHardware(hw) && M.Inv(w, hw) && w.inPass && w.registry.nodes == REPORTED.nodes
    requires IsSharedGPUPod(pod) && pod.labels == map[] && GetGPUCount(pod) == 1 && !GetDisaggIntent(pod).isDisagg
    requires 0 <= GetGPUMemory(pod) <= 100 - w.registry.Reserved("n", "g")
    requires var key := PodKey(pod.namespace, pod.name); key !in w.running && key !in w.awaited
    ensures IsDecision(w.registry, pod, [], OnTheGPU(GetGPUMemory(pod)))
    ensures var e := M.Start(PodKey(pod.namespace, pod.name), Reserves(GetGPUMemory(pod)));
            && w.registry.reservations.Keys == w.registry.podCounts.Keys
            && M.Enabled(w, e, hw) && M.Inv(M.Next(w, e), hw)
            && M.Next(w, e).registry.Reserved("n", "g") == w.registry.Reserved("n", "g") + GetGPUMemory(pod)
  {
    hide M.Inv, IsSharedGPUPod, GetGPUCount, GetDisaggIntent, GetGPUMemory, RoutedDecision, M.Enabled, PodKey;
    RoutedToTheGPU(w.registry, pod);
    MachinesFit(w.registry, hw);
    M.PlacementIsStart(w, hw, pod, [], Reserves(GetGPUMemory(pod)));
    M.StepKeepsInv(w, M.Start(PodKey(pod.namespace, pod.name), Reserves(GetGPUMemory(pod))), hw);
    OneMark(w.registry, PodKey(pod.namespace, pod.name), GetGPUMemory(pod));
  }

  lemma MachinesFit(s: State, hw: Hardware)
    requires IsHardware(hw) && s.nodes == REPORTED.nodes
    ensures NodesOK(s, hw)
  {
  }

  lemma OneMark(s: State, key: string, memoryMB: int)
    requires s.reservations.Keys == s.podCounts.Keys && memoryMB >= 0
    ensures MarkUpTo(s, Reserves(memoryMB), 1, key).Reserved("n", "g") == s.Reserved("n", "g") + memoryMB
    ensures MarkUpTo(s, Reserves(memoryMB), 1, key).nodes == s.nodes
  {
    MarkUpToTables(s, Reserves(memoryMB), 1, key, "n", "g");
    assert Reserves(memoryMB)[..1] == Reserves(memoryMB);
    OneEntry(Reserves(memoryMB)[0], "n", "g");
    assert MarkUpTo(s, Reserves(memoryMB), 0, key) == s;
  }

  /** The start world keeps every invariant: nothing runs yet. */
  lemma EmptyWorld(hw: Hardware)
    ensures M.Inv(W0, hw) && W0.registry.reservations.Keys == W0.registry.podCounts.Keys
    ensures W0.registry.Reserved("n", "g") == 0
  {
    EmptyIsOK();
  }

  /** v runs, and the pass begins. */
  lemma PassBegins(hw: Hardware)
    requires IsHardware(hw)
    ensures W0.registry.reservations.Keys == W0.registry.podCounts.Keys && IsDecision(W0.registry, V, [], OnTheGPU(60))
    ensures M.Enabled(W0, M.Start(KEY_V, Reserves(60)), hw)
    ensures W1.registry.reservations.Keys == W1.registry.podCounts.Keys && M.Enabled(W1, M.Finish, hw)
    ensures M.Enabled(M.Next(W1, M.Finish), M.Begin({KEY_V, PodKey("x", "r"), KEY_B}, {}), hw)
    ensures W2 == W1 && M.Inv(W2, hw)
    ensures W2.registry.Reserved("n", "g") == 60 && W2.registry.nodes == REPORTED.nodes
  {
    EmptyWorld(hw);
    PodsRead(WorkflowConfig([], 0));
    hide M.Inv, IsDecision, PodKey;
    StartOnTheGPU(W0, hw, V);
    OneMark(W0.registry, KEY_V, 60);
    hide MarkUpTo;
    assert W1.running.Keys == {KEY_V};
  }

  /** v is evicted: its reservation is gone, and b is placed on its memory. */
  lemma EvictedThenPlaced(hw: Hardware)
    requires IsHardware(hw)
    ensures W2.registry.reservations.Keys == W2.registry.podCounts.Keys && M.Enabled(W2, M.Evict(KEY_V), hw)
    ensures W3.registry.reservations.Keys == W3.registry.podCounts.Keys && IsDecision(W3.registry, B, [], OnTheGPU(80))
    ensures M.Enabled(W3, M.Start(KEY_B, Reserves(80)), hw)
  {
    hide M.Inv, IsDecision, MarkUpTo, Release, PodKey, M.Enabled;
    PassBegins(hw);
    PodsRead(WorkflowConfig([], 0));
    KeysDiffer();
    EvictedRegistry();
    EvictOne(W2, hw, KEY_V);
    StartOnTheGPU(W3, hw, B);
  }

  lemma EvictOne(w: M.World, hw: Hardware, key: string)
    requires M.Inv(w, hw) && w.inPass && w.registry.reservations.Keys == w.registry.podCounts.Keys
    ensures M.Enabled(w, M.Evict(key), hw) && M.Inv(M.Next(w, M.Evict(key)), hw)
    ensures M.Next(w, M.Evict(key)) == w.(registry := Release(w.registry, key), awaited := w.awaited + {key})
  {
    M.StepKeepsInv(w, M.Evict(key), hw);
  }

  lemma EvictedRegistry()
    ensures W1.registry.reservations.Keys == W1.registry.podCounts.Keys
    ensures Release(W1.registry, KEY_V).nodes == REPORTED.nodes && Release(W1.registry, KEY_V).Reserved("n", "g") == 0
  {
    EmptyIsOK();
    assert LedgerOK(REPORTED);
    hide LedgerOK, PodKey;
    MarkThenRollbackRestoresView(REPORTED, Reserves(60), KEY_V);
  }

  lemma BothHeld(key1: string, key2: string)
    requires key1 != key2
    ensures Held(map[][key1 := Reserves(60)][key2 := Reserves(80)], MemOn("n", "g")) == 140
  {
    var weight := MemOn("n", "g");
    M.HeldWithOne(map[], key1, Reserves(60), weight);
    M.HeldWithOne(map[][key1 := Reserves(60)], key2, Reserves(80), weight);
    OneEntry(Reserves(60)[0], "n", "g");
    OneEntry(Reserves(80)[0], "n", "g");
    assert Weights(map[], weight) == map[];
  }

  lemma BothRun()
    ensures M.Physical(W4, "n", "g") == 140
  {
    KeysDiffer();
    hide PodKey, MarkUpTo, Release, Held;
    BothHeld(KEY_V, KEY_B);
  }

  /** One pass, with every step a legal one: v runs with 60 of the GPU's 100 MB, so r's 50 MB find no place; the only way to
      make room is to evict v, which runs on; then the next pod b is placed with its 80 MB, and 140 MB run. */
  lemma PlacedAfterEvictionOverfills(watcher: Watcher, hw: Hardware)
    requires watcher.orchestrator.Some? && IsHardware(hw)
    ensures M.Inv(W2, hw) && W2.inPass && W2.awaited == {}
    ensures !CanPlace(W2.registry, RQ)
    ensures forall victims :: watcher.AreEvicted(victims, RQ, [VICTIM]) <==> victims == [VICTIM]
    ensures W2.registry.reservations.Keys == W2.registry.podCounts.Keys
    ensures M.AllEvicted(W2, [VICTIM], 1) == W3 && W3.registry == ReleaseVictims(W2.registry, [VICTIM], 1)
    ensures IsDecision(W3.registry, B, [], OnTheGPU(80))
    ensures M.Enabled(W3, M.Start(KEY_B, Reserves(80)), hw)
    ensures M.Physical(W4, "n", "g") == 140 > hw.total("n", "g")
  {
    hide M.Inv, IsDecision, M.Enabled, M.Physical, PodKey, Release, MarkUpTo, CanPlace, GetGPUMemory, GetGPUCount, GetDisaggIntent;
    PassBegins(hw);
    EvictedThenPlaced(hw);
    BothRun();
    PodsRead(watcher.workflows);
    NoRoomFor(W2.registry, RQ);
    forall victims
      ensures watcher.AreEvicted(victims, RQ, [VICTIM]) <==> victims == [VICTIM]
    {
      VictimIsForced(watcher, victims);
    }
    assert M.AllEvicted(W2, [VICTIM], 0) == W2 && ReleaseVictims(W2.registry, [VICTIM], 0) == W2.registry;
  }
}
