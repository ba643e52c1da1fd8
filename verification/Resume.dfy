/** internal/scheduler/preemption.go: the pod that replaces an evicted one, and chains of such replacements. */
module Resume {
  import opened Collections
  import opened Text
  import opened Pods

  datatype ResumeConfig = ResumeConfig(maxRetries: int, priorityBoost: int, schedulerName: string, workflows: WorkflowConfig)

  const MARK := "-resume-"
  const TAIL := "-resume"

  /** The victim's name cut at its first "-resume-", with the new count appended. */
  function ResumeName(name: string, n: int): string {
    var base := match Index(name, MARK)
                case Some(i) => name[..i]
                case None => name;
    base + MARK + Itoa(n)
  }

  function Capped(priority: int): int {
    if priority > 100 then 100 else priority
  }

  /** The recorded original priority, or the current one when none (or -1) is recorded. */
  function BasePriority(victim: Pod, cfg: ResumeConfig): int {
    if GetOriginalPriority(victim) == -1 then GetPriority(victim, cfg.workflows) else GetOriginalPriority(victim)
  }

  function ResumeAnnotations(victim: Pod, n: int, cfg: ResumeConfig): map<string, string> {
    var kept := victim.annotations - {ASSIGNED_GPUS, ALLOCATION_TYPE};
    var counted := kept[PREEMPT_COUNT := Itoa(n)];
    var base := BasePriority(victim, cfg);
    var based := if GetOriginalPriority(victim) == -1 then counted[ORIGINAL_PRIORITY := Itoa(base)] else counted;
    based[PRIORITY := Itoa(Capped(base + n * cfg.priorityBoost))]
  }

  function ResumePod(victim: Pod, n: int, cfg: ResumeConfig): Pod {
    victim.(name := ResumeName(victim.name, n), annotations := ResumeAnnotations(victim, n, cfg), labels := map[],
            nodeName := "", schedulerName := cfg.schedulerName,
            preferredNode := if victim.nodeName != "" then Some(victim.nodeName) else victim.preferredNode)
  }

  /** buildResumePod: the annotations are copied one by one into a fresh map. */
  method BuildResumePod(victim: Pod, n: int, cfg: ResumeConfig) returns (pod: Pod)
    ensures pod == ResumePod(victim, n, cfg)
  {
    var annotations: map<string, string> := map[];
    var todo := victim.annotations.Keys;
    while todo != {}
      invariant todo <= victim.annotations.Keys
      invariant annotations == victim.annotations - todo
      decreases todo
    {
      var k :| k in todo;
      annotations := annotations[k := victim.annotations[k]];
      todo := todo - {k};
    }
    annotations := annotations - {ASSIGNED_GPUS};
    annotations := annotations - {ALLOCATION_TYPE};
    assert annotations == victim.annotations - {ASSIGNED_GPUS, ALLOCATION_TYPE};
    annotations := annotations[PREEMPT_COUNT := Itoa(n)];
    var origPriority := GetOriginalPriority(victim);
    if origPriority == -1 {
      origPriority := GetPriority(victim, cfg.workflows);
      annotations := annotations[ORIGINAL_PRIORITY := Itoa(origPriority)];
    }
    var newPriority := origPriority + n * cfg.priorityBoost;
    if newPriority > 100 {
      newPriority := 100;
    }
    annotations := annotations[PRIORITY := Itoa(newPriority)];
    pod := victim.(name := ResumeName(victim.name, n), annotations := annotations, labels := map[],
                   nodeName := "", schedulerName := cfg.schedulerName);
    if victim.nodeName != "" {
      pod := pod.(preferredNode := Some(victim.nodeName));
    }
  }

  /** The replacement of a victim, if it asks for one and has retries left. */
  function Resumed(victim: Pod, cfg: ResumeConfig): Option<Pod> {
    var n := GetPreemptCount(victim) + 1;
    if !GetAutoResume(victim) || n > cfg.maxRetries then None else Some(ResumePod(victim, n, cfg))
  }

  // ---------- What one replacement records ----------

  lemma ResumeRecords(victim: Pod, n: int, cfg: ResumeConfig)
    ensures var r := ResumePod(victim, n, cfg);
            && GetPreemptCount(r) == n
            && (var boosted := BasePriority(victim, cfg) + n * cfg.priorityBoost;
                GetPriority(r, cfg.workflows) == if boosted > 100 then 100 else boosted)
            && GetOriginalPriority(r) == BasePriority(victim, cfg)
            && (GetAutoResume(r) <==> GetAutoResume(victim))
            && ASSIGNED_GPUS !in r.annotations && ALLOCATION_TYPE !in r.annotations
            && r.nodeName == "" && r.schedulerName == cfg.schedulerName
            && r.name == ResumeName(victim.name, n)
  {
    var base := BasePriority(victim, cfg);
    ItoaRoundTrip(n);
    ItoaRoundTrip(base);
    ItoaRoundTrip(Capped(base + n * cfg.priorityBoost));
    KeysDiffer();
  }

  /** The replacement asks for what the victim asked for: every annotation but the bookkeeping ones is kept, so memory, GPU
      count and mode, sharing and workflow are the same, in the same namespace; it prefers the node that the victim ran on. */
  lemma ResumeKeepsRequest(victim: Pod, n: int, cfg: ResumeConfig)
    ensures var r := ResumePod(victim, n, cfg);
            && (forall key :: key !in {"gpu-scheduler/assigned-gpus", "gpu-scheduler/allocation-type", "gpu-scheduler/preempt-count",
                                       "gpu-scheduler/original-priority", "gpu-scheduler/priority"} ==>
                  r.Annotation(key) == victim.Annotation(key))
            && r.namespace == victim.namespace && GetGPUMemory(r) == GetGPUMemory(victim) && GetGPUCount(r) == GetGPUCount(victim)
            && GetMemoryMode(r) == GetMemoryMode(victim) && (IsSharedGPUPod(r) <==> IsSharedGPUPod(victim))
            && GetWorkflow(r) == GetWorkflow(victim)
            && (victim.nodeName != "" ==> r.preferredNode == Some(victim.nodeName)) && r.labels == map[]
  {
    var r := ResumePod(victim, n, cfg);
    var keys := {"gpu-scheduler/assigned-gpus", "gpu-scheduler/allocation-type", "gpu-scheduler/preempt-count",
                 "gpu-scheduler/original-priority", "gpu-scheduler/priority"};
    RequestKeys();
    hide BasePriority, GetOriginalPriority, Itoa, Atoi;
    forall key | key !in keys
      ensures r.Annotation(key) == victim.Annotation(key)
    {
    }
    assert r.Annotation(MEMORY_IO) == victim.Annotation(MEMORY_IO) && r.Annotation(MEMORY) == victim.Annotation(MEMORY);
  }

  /** None of the keys that state a request is a bookkeeping key. */
  lemma RequestKeys()
    ensures {MEMORY_IO, MEMORY, SHARED, "gpu-scheduler/gpu-count", "gpu-scheduler/memory-mode", "gpu-scheduler/workflow"}
         !! {"gpu-scheduler/assigned-gpus", "gpu-scheduler/allocation-type", "gpu-scheduler/preempt-count",
             "gpu-scheduler/original-priority", "gpu-scheduler/priority"}
  {
    assert |MEMORY_IO| == 26 && |MEMORY| == 23 && |SHARED| == 20 && |"gpu-scheduler/gpu-count"| == 23;
    assert |"gpu-scheduler/memory-mode"| == 25 && |"gpu-scheduler/workflow"| == 22;
    assert |"gpu-scheduler/assigned-gpus"| == 27 && |"gpu-scheduler/allocation-type"| == 29 && |"gpu-scheduler/preempt-count"| == 27;
    assert |"gpu-scheduler/original-priority"| == 31 && |"gpu-scheduler/priority"| == 22;
    assert "gpu-scheduler/workflow"[14] == 'w' && "gpu-scheduler/priority"[14] == 'p';
  }

  lemma KeysDiffer()
    ensures PREEMPT_COUNT != ORIGINAL_PRIORITY && PREEMPT_COUNT != PRIORITY && ORIGINAL_PRIORITY != PRIORITY
    ensures AUTO_RESUME != PREEMPT_COUNT && AUTO_RESUME != ORIGINAL_PRIORITY && AUTO_RESUME != PRIORITY
    ensures ASSIGNED_GPUS !in {PREEMPT_COUNT, ORIGINAL_PRIORITY, PRIORITY, AUTO_RESUME}
    ensures ALLOCATION_TYPE !in {PREEMPT_COUNT, ORIGINAL_PRIORITY, PRIORITY, AUTO_RESUME}
  {
    assert |PRIORITY| == 22 && |ORIGINAL_PRIORITY| == 31 && |PREEMPT_COUNT| == 27 && |AUTO_RESUME| == 25;
    assert |ASSIGNED_GPUS| == 27 && |ALLOCATION_TYPE| == 29;
    assert ASSIGNED_GPUS[14] == 'a' && PREEMPT_COUNT[14] == 'p';
  }

  // ---------- Names ----------

  predicate EndsWith(s: string, tail: string) {
    |tail| <= |s| && s[|s| - |tail|..] == tail
  }

  /** The name neither contains "-resume-" nor ends in "-resume". */
  predicate GoodBase(name: string) {
    Index(name, MARK).None? && !EndsWith(name, TAIL)
  }

  /** Appended to a good base, the mark is found where the base ends. */
  lemma MarkIsFoundAfterBase(base: string, rest: string)
    requires GoodBase(base)
    ensures Index(base + MARK + rest, MARK) == Some(|base|)
  {
    var s := base + MARK + rest;
    assert s[|base|..|base| + |MARK|] == MARK;
    forall j | 0 <= j < |base|
      ensures !OccursAt(s, MARK, j)
    {
      if OccursAt(s, MARK, j) {
        OverlapIsTail(base, rest, j);
      }
    }
    IndexIs(s, MARK, |base|);
  }

  /** An occurrence that starts inside the base lies in the base or makes the base end in "-resume". */
  lemma OverlapIsTail(base: string, rest: string, j: nat)
    requires j < |base| && OccursAt(base + MARK + rest, MARK, j)
    ensures OccursAt(base, MARK, j) || EndsWith(base, TAIL)
  {
    var s := base + MARK + rest;
    var k := |base| - j;
    assert forall i :: 0 <= i < 8 ==> s[j + i] == s[j..j + 8][i] == MARK[i];
    assert s[j + k] == MARK[0];
    assert k < 8 ==> MARK[k] == '-';
    if k >= 8 {
      assert base[j..j + 8] == s[j..j + 8];
    } else if k == 7 {
      assert base[j..] == s[j..j + 8][..7] == TAIL;
    }
  }

  lemma GoodBaseGivesName(base: string, m: int, n: int)
    requires GoodBase(base)
    ensures ResumeName(base, m) == base + MARK + Itoa(m)
    ensures ResumeName(base + MARK + Itoa(m), n) == base + MARK + Itoa(n)
  {
    MarkIsFoundAfterBase(base, Itoa(m));
    var s := base + MARK + Itoa(m);
    assert s[..|base|] == base;
  }

  /** Two resumes in a row keep the base exactly when the base is good. */
  lemma NamesKeepBaseExactly(base: string, m: int, n: int)
    ensures (ResumeName(base, m) == base + MARK + Itoa(m) && ResumeName(base + MARK + Itoa(m), n) == base + MARK + Itoa(n))
              ==> GoodBase(base)
    ensures GoodBase(base) ==> ResumeName(base, m) == base + MARK + Itoa(m)
    ensures GoodBase(base) ==> ResumeName(base + MARK + Itoa(m), n) == base + MARK + Itoa(n)
  {
    if GoodBase(base) {
      GoodBaseGivesName(base, m, n);
    } else if Index(base, MARK).Some? {
      var i := Index(base, MARK).value;
      assert |ResumeName(base, m)| == i + |MARK| + |Itoa(m)|;
    } else {
      var s := base + MARK + Itoa(m);
      var j := |base| - 7;
      assert s[j..j + 8] == base[j..] + [s[|base|]] == TAIL + "-" == MARK;
      assert OccursAt(s, MARK, j);
      assert |ResumeName(s, n)| == Index(s, MARK).value + |MARK| + |Itoa(n)|;
    }
  }

  // ---------- Chains ----------

  /** The pod after n evictions, each followed by a resume. */
  function Chain(pod: Pod, n: nat, cfg: ResumeConfig): Pod {
    if n == 0 then pod
    else
      var victim := Chain(pod, n - 1, cfg);
      ResumePod(victim, GetPreemptCount(victim) + 1, cfg)
  }

  ghost predicate FirstInChain(pod: Pod) {
    PREEMPT_COUNT !in pod.annotations && ORIGINAL_PRIORITY !in pod.annotations
  }

  /** The closed form of the n-th resume. */
  ghost predicate ClosedForm(pod: Pod, r: Pod, n: nat, cfg: ResumeConfig) {
    var original := GetPriority(pod, cfg.workflows);
    && GetPreemptCount(r) == n
    && GetOriginalPriority(r) == original
    && (var boosted := original + n * cfg.priorityBoost; GetPriority(r, cfg.workflows) == if boosted > 100 then 100 else boosted)
    && r.name == pod.name + MARK + Itoa(n)
    && ASSIGNED_GPUS !in r.annotations
    && r.nodeName == ""
    && (GetAutoResume(r) <==> GetAutoResume(pod))
  }

  lemma FirstIsUntouched(pod: Pod, cfg: ResumeConfig)
    requires FirstInChain(pod)
    ensures GetPreemptCount(pod) == 0 && BasePriority(pod, cfg) == GetPriority(pod, cfg.workflows)
  {
  }

  lemma {:induction false} ResumeChainClosedForm(pod: Pod, n: nat, cfg: ResumeConfig)
    requires FirstInChain(pod) && GoodBase(pod.name) && n > 0
    requires GetPriority(pod, cfg.workflows) != -1 || cfg.priorityBoost == 0
    ensures ClosedForm(pod, Chain(pod, n, cfg), n, cfg)
  {
    hide GetPriority, BasePriority, GetOriginalPriority, GetPreemptCount, GetAutoResume, ResumePod, ResumeName, GoodBase, FirstInChain;
    var victim := Chain(pod, n - 1, cfg);
    ResumeRecords(victim, n, cfg);
    if n == 1 {
      FirstIsUntouched(pod, cfg);
      GoodBaseGivesName(pod.name, 1, 1);
    } else {
      ResumeChainClosedForm(pod, n - 1, cfg);
      GoodBaseGivesName(pod.name, n - 1, n);
      SentinelWithoutBoost(pod, victim, n - 1, cfg);
    }
  }

  lemma SentinelWithoutBoost(pod: Pod, victim: Pod, n: nat, cfg: ResumeConfig)
    requires ClosedForm(pod, victim, n, cfg)
    requires GetPriority(pod, cfg.workflows) != -1 || cfg.priorityBoost == 0
    ensures BasePriority(victim, cfg) == GetPriority(pod, cfg.workflows)
  {
  }

  /** Recording the original priority -1 loses it: the second resume keeps it exactly when there is no boost. */
  lemma OriginalPriorityKeptExactly(pod: Pod, cfg: ResumeConfig)
    requires FirstInChain(pod)
    ensures GetOriginalPriority(Chain(pod, 2, cfg)) == GetPriority(pod, cfg.workflows)
        <==> (GetPriority(pod, cfg.workflows) != -1 || cfg.priorityBoost == 0)
  {
    var first := Chain(pod, 1, cfg);
    assert Chain(pod, 0, cfg) == pod;
    ResumeRecords(pod, 1, cfg);
    ResumeRecords(first, 2, cfg);
    assert Chain(pod, 2, cfg) == ResumePod(first, 2, cfg);
  }

  /** Names in one chain are distinct. */
  lemma ChainNamesAreDistinct(pod: Pod, m: nat, n: nat, cfg: ResumeConfig)
    requires FirstInChain(pod) && GoodBase(pod.name) && 0 < m < n
    requires GetPriority(pod, cfg.workflows) != -1 || cfg.priorityBoost == 0
    ensures Chain(pod, m, cfg).name != Chain(pod, n, cfg).name
    ensures Chain(pod, m, cfg).name != pod.name
  {
    ResumeChainClosedForm(pod, m, cfg);
    ResumeChainClosedForm(pod, n, cfg);
    var a, b := pod.name + MARK + Itoa(m), pod.name + MARK + Itoa(n);
    if a == b {
      assert Itoa(m) == a[|pod.name| + 8..] == b[|pod.name| + 8..] == Itoa(n);
      ItoaIsInjective(m, n);
    }
  }

  /** A chain stops by itself: the retry limit allows exactly the first maxRetries resumes. */
  lemma ChainRespectsRetries(pod: Pod, n: nat, cfg: ResumeConfig)
    requires FirstInChain(pod) && GoodBase(pod.name) && GetAutoResume(pod)
    requires GetPriority(pod, cfg.workflows) != -1 || cfg.priorityBoost == 0
    ensures Resumed(Chain(pod, n, cfg), cfg).Some? <==> n < cfg.maxRetries
    ensures n < cfg.maxRetries ==> Resumed(Chain(pod, n, cfg), cfg).value == Chain(pod, n + 1, cfg)
  {
    if n > 0 {
      ResumeChainClosedForm(pod, n, cfg);
    }
  }
}
