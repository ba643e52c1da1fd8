/** A negative memory annotation reaches the ledger: the routed pod's reservation is negative, and a later release makes
    the ledger forget it. */
module NegativeMemory {
  import opened Collections
  import opened Types
  import opened Text
  import opened Pods
  import opened ControlPlane
  import opened Ledger
  import opened LedgerRuns
  import opened Watcher
  import A = Allocator
  import R = Registry

  const MPS_GPU := GPUInfo("g", 100, 0, 100, 0, true, true, false, [])

  const REPORTED := EMPTY.(nodes := map["n" := NodeGPUs(false, 0, [MPS_GPU])])

  /** A shared pod whose memory annotation is this text. */
  function SharedPod(name: string, memory: string): Pod {
    Pod("x", name, map[MEMORY := memory, SHARED := "true"], map[], 0, None, None, "", "s", None)
  }

  function OnTheGPU(memoryMB: int): Decision {
    FullGPUs([Entry("n", "g", memoryMB, false)])
  }

  lemma AnnotationKeys()
    ensures MEMORY != MEMORY_IO && MEMORY != SHARED && MEMORY_IO != SHARED
    ensures "gpu-scheduler/gpu-count" !in {MEMORY, SHARED}
    ensures "gpu-scheduler/inference-role" !in {MEMORY, SHARED} && "gpu-scheduler/model-group" !in {MEMORY, SHARED}
  {
    assert |MEMORY| == 23 && |MEMORY_IO| == 26 && |SHARED| == 20;
    assert |"gpu-scheduler/gpu-count"| == 23 && "gpu-scheduler/gpu-count"[14] == 'g' && MEMORY[14] == 'm';
    assert |"gpu-scheduler/inference-role"| == 28 && |"gpu-scheduler/model-group"| == 25;
  }

  /** The pod asks for one GPU, is shared, plays no inference role, and its memory is what the text says. */
  lemma SharedPodReads(name: string, memory: string, memoryMB: int)
    requires Atoi(memory) == Some(memoryMB)
    ensures var pod := SharedPod(name, memory);
            && GetGPUMemory(pod) == memoryMB && GetGPUCount(pod) == 1 && IsSharedGPUPod(pod)
            && GetDisaggIntent(pod).isValid && !GetDisaggIntent(pod).isDisagg
  {
    AnnotationKeys();
    hide Atoi;
  }

  /** With the MPS GPU as the only one, routing puts a shared pod there, if its memory is free. */
  lemma RoutedToTheGPU(s: State, pod: Pod)
    requires s.nodes == REPORTED.nodes && IsSharedGPUPod(pod) && pod.labels == map[]
    requires GetGPUMemory(pod) <= 100 - s.Reserved("n", "g")
    ensures RoutedDecision(s, pod, OnTheGPU(GetGPUMemory(pod)))
  {
    var memoryMB := GetGPUMemory(pod);
    A.RoutedMemoryIsReserved(pod);
    assert A.RoutedMemory(pod, JobOf(pod)) == memoryMB;
    hide GetGPUMemory, A.RoutedMemory;
    OnlyCandidate(s, memoryMB);
    var c := R.FullCandidate(s, "n", MPS_GPU);
    assert A.FirstPool(s, pod, memoryMB) == A.PoolFull;
    assert A.IsBestFull(s, c, memoryMB, true);
    assert A.BestInPool(s, A.Routed("n", "g", false), A.PoolFull, memoryMB, true);
  }

  lemma OnlyCandidate(s: State, memoryMB: int)
    requires s.nodes == REPORTED.nodes && memoryMB <= 100 - s.Reserved("n", "g")
    ensures forall c :: R.IsFullCandidate(s, c, memoryMB) <==> c == R.FullCandidate(s, "n", MPS_GPU)
    ensures !A.MIGPoolHas(s, memoryMB)
  {
    assert MPS_GPU in s.nodes["n"].gpus;
  }

  lemma DecidedOnTheGPU(s: State, name: string, memory: string, memoryMB: int)
    requires s.nodes == REPORTED.nodes && Atoi(memory) == Some(memoryMB) && memoryMB <= 100 - s.Reserved("n", "g")
    ensures IsDecision(s, SharedPod(name, memory), [], OnTheGPU(memoryMB))
  {
    SharedPodReads(name, memory, memoryMB);
    RoutedToTheGPU(s, SharedPod(name, memory));
  }

  lemma Texts()
    ensures Atoi("5") == Some(5) && Atoi("-10") == Some(-10)
  {
    ItoaRoundTrip(5);
    ItoaRoundTrip(-10);
    assert NatToString(1) == "1" && NatToString(10) == NatToString(1) + "0";
    assert Itoa(5) == "5" && Itoa(-10) == "-10";
  }

  /** Pod a asks for 5 MB, pod b for -10 MB, both are placed on the GPU by routing, and a is released: the ledger no longer
      agrees with b's record. */
  lemma NegativeAnnotationBreaksLedger()
    ensures var a, b := SharedPod("a", "5"), SharedPod("b", "-10");
            var s1 := Place(REPORTED, OnTheGPU(5), GetGPUMemory(a), PodKey("x", "a"), true);
            var s2 := Place(s1, OnTheGPU(-10), GetGPUMemory(b), PodKey("x", "b"), true);
            && GetGPUMemory(b) == -10
            && IsDecision(REPORTED, a, [], OnTheGPU(5)) && IsDecision(s1, b, [], OnTheGPU(-10))
            && !Agrees(Release(s2, PodKey("x", "a")))
  {
    Texts();
    SharedPodReads("a", "5", 5);
    SharedPodReads("b", "-10", -10);
    DecidedOnTheGPU(REPORTED, "a", "5", 5);
    var keyA, keyB := PodKey("x", "a"), PodKey("x", "b");
    assert keyA != keyB by { assert keyA == "x/a" && keyB == "x/b" && keyA[2] == 'a' && keyB[2] == 'b'; }
    hide PodKey, GetGPUMemory, Atoi, IsDecision, Release, SharedPod;
    var s1, s2 := TwoMarks(keyA, keyB);
    DecidedOnTheGPU(s1, "b", "-10", -10);
    ReleaseBelowZero(s2, keyA, Entry("n", "g", 5, false));
    PlaceIsMark(REPORTED, 5, keyA);
    PlaceIsMark(s1, -10, keyB);
  }

  lemma PlaceIsMark(s: State, memoryMB: int, key: string)
    requires s.reservations.Keys == s.podCounts.Keys
    ensures Place(s, OnTheGPU(memoryMB), memoryMB, key, true) == Mark(s, "n", "g", memoryMB, key)
  {
    assert MarkUpTo(s, [Entry("n", "g", memoryMB, false)], 0, key) == s;
  }

  lemma TwoMarks(keyA: string, keyB: string) returns (s1: State, s2: State)
    requires keyA != keyB
    ensures s1 == Mark(REPORTED, "n", "g", 5, keyA) && s1.reservations.Keys == s1.podCounts.Keys
    ensures s2 == Mark(s1, "n", "g", -10, keyB)
    ensures s1.nodes == REPORTED.nodes && s1.Reserved("n", "g") == 5
    ensures Agrees(s2) && keyA in s2.allocs && s2.allocs[keyA] == [Entry("n", "g", 5, false)] && s2.Reserved("n", "g") == -5
  {
    s1 := Mark(REPORTED, "n", "g", 5, keyA);
    s2 := Mark(s1, "n", "g", -10, keyB);
    NothingAgrees();
    MarkEffect(REPORTED, "n", "g", 5, keyA, "n", "g");
    MarkEffect(s1, "n", "g", -10, keyB, "n", "g");
    hide Agrees;
    MarkAgrees(REPORTED, "n", "g", 5, keyA);
    MarkAgrees(s1, "n", "g", -10, keyB);
  }

  lemma NothingAgrees()
    ensures Agrees(REPORTED)
  {
    EmptyIsOK();
  }
}
