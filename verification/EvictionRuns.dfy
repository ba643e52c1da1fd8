/** internal/scheduler/preemption.go over time: evicted pods come back with higher priority, yet evictions run out. */
module EvictionRuns {
  import opened Collections
  import opened Pods
  import opened Resume
  import P = Preemption

  /** The live pods by "namespace/name". */
  type Live = map<string, Pod>

  function Key(pod: Pod): string {
    PodKey(pod.namespace, pod.name)
  }

  /** Without arrivals from outside, pods are evicted (and perhaps re-created), finish, or change in ways that leave
      the auto-resume and preempt-count annotations alone: binding, GPU assignment, status. */
  datatype Event =
    | Evict(key: string, created: bool)
    | Finish(key: string)
    | Touch(key: string, pod: Pod)

  ghost predicate Enabled(live: Live, e: Event) {
    && e.key in live
    && (e.Touch? ==> e.pod.Annotation(AUTO_RESUME) == live[e.key].Annotation(AUTO_RESUME)
                     && e.pod.Annotation(PREEMPT_COUNT) == live[e.key].Annotation(PREEMPT_COUNT))
  }

  /** A create fails if the name is taken. */
  function Next(live: Live, e: Event, cfg: ResumeConfig): Live
    requires e.key in live
  {
    match e
    case Evict(key, created) =>
      var rest := live - {key};
      (match Resumed(live[key], cfg)
       case Some(r) => if created && Key(r) !in rest then rest[Key(r) := r] else rest
       case None => rest)
    case Finish(key) => live - {key}
    case Touch(key, pod) => live[key := pod]
  }

  // ---------- The measure ----------

  /** One for the pod itself, and one for each resume it may still ask for. */
  function Weight(pod: Pod, cfg: ResumeConfig): int {
    var left := cfg.maxRetries - GetPreemptCount(pod);
    if GetAutoResume(pod) && left > 0 then 1 + left else 1
  }

  ghost function Weights(live: Live, cfg: ResumeConfig): map<string, int> {
    map k | k in live :: Weight(live[k], cfg)
  }

  ghost function Measure(live: Live, cfg: ResumeConfig): int {
    SumMap(Weights(live, cfg))
  }

  lemma MeasureWithout(live: Live, key: string, cfg: ResumeConfig)
    requires key in live
    ensures Measure(live - {key}, cfg) == Measure(live, cfg) - Weight(live[key], cfg)
  {
    assert Weights(live - {key}, cfg) == Weights(live, cfg) - {key};
    SumMapRemove(Weights(live, cfg), key);
  }

  lemma MeasureWith(live: Live, key: string, pod: Pod, cfg: ResumeConfig)
    requires key !in live
    ensures Measure(live[key := pod], cfg) == Measure(live, cfg) + Weight(pod, cfg)
  {
    assert Weights(live[key := pod], cfg) == Weights(live, cfg)[key := Weight(pod, cfg)];
    SumMapPut(Weights(live, cfg), key, Weight(pod, cfg));
  }

  /** A replacement weighs one less than the pod it replaces. */
  lemma ReplacementWeighsLess(victim: Pod, cfg: ResumeConfig)
    requires Resumed(victim, cfg).Some?
    ensures Weight(Resumed(victim, cfg).value, cfg) == Weight(victim, cfg) - 1
  {
    ResumeRecords(victim, GetPreemptCount(victim) + 1, cfg);
  }

  /** Every eviction lowers the measure, also one whose victim is re-created with a higher priority. */
  lemma NextLowersMeasure(live: Live, e: Event, cfg: ResumeConfig)
    requires Enabled(live, e)
    ensures Measure(Next(live, e, cfg), cfg) <= Measure(live, cfg) - (if e.Evict? then 1 else 0)
  {
    MeasureWithout(live, e.key, cfg);
    match e
    case Evict(key, created) =>
      if Resumed(live[key], cfg).Some? {
        var r := Resumed(live[key], cfg).value;
        ReplacementWeighsLess(live[key], cfg);
        if created && Key(r) !in live - {key} {
          MeasureWith(live - {key}, Key(r), r, cfg);
        }
      }
    case Finish(key) =>
    case Touch(key, pod) =>
      MeasureWith(live - {key}, key, pod, cfg);
      assert (live - {key})[key := pod] == live[key := pod];
  }

  // ---------- Runs ----------

  ghost predicate IsRun(run: seq<Live>, events: seq<Event>, cfg: ResumeConfig) {
    && |run| == |events| + 1
    && forall i :: 0 <= i < |events| ==> Enabled(run[i], events[i]) && run[i + 1] == Next(run[i], events[i], cfg)
  }

  function Evictions(events: seq<Event>, n: nat): nat
    requires n <= |events|
  {
    if n == 0 then 0 else Evictions(events, n - 1) + (if events[n - 1].Evict? then 1 else 0)
  }

  /** No livelock: the evictions of any run number at most the measure of the pods it starts with. */
  lemma EvictionsAreBounded(run: seq<Live>, events: seq<Event>, cfg: ResumeConfig)
    requires IsRun(run, events, cfg)
    ensures Evictions(events, |events|) <= Measure(run[0], cfg)
  {
    EvictionsPayForThemselves(run, events, |events|, cfg);
    var last := run[|events|];
    SumMapNonNegative(Weights(last, cfg));
  }

  lemma {:induction false} EvictionsPayForThemselves(run: seq<Live>, events: seq<Event>, n: nat, cfg: ResumeConfig)
    requires IsRun(run, events, cfg) && n <= |events|
    ensures Evictions(events, n) + Measure(run[n], cfg) <= Measure(run[0], cfg)
  {
    if n > 0 {
      EvictionsPayForThemselves(run, events, n - 1, cfg);
      NextLowersMeasure(run[n - 1], events[n - 1], cfg);
    }
  }

  // ---------- Preempt is a run of evictions ----------

  /** The pods that an event evicts and creates. */
  function EvictedBy(live: Live, e: Event): seq<Pod>
    requires e.key in live
  {
    if e.Evict? then [live[e.key]] else []
  }

  function CreatedBy(live: Live, e: Event, cfg: ResumeConfig): seq<Pod>
    requires e.key in live
  {
    if !e.Evict? then []
    else
      match Resumed(live[e.key], cfg)
      case Some(r) => if e.created && Key(r) !in live - {e.key} then [r] else []
      case None => []
  }

  ghost function AllEvicted(run: seq<Live>, events: seq<Event>, n: nat, cfg: ResumeConfig): seq<Pod>
    requires IsRun(run, events, cfg) && n <= |events|
  {
    if n == 0 then [] else AllEvicted(run, events, n - 1, cfg) + EvictedBy(run[n - 1], events[n - 1])
  }

  ghost function AllCreated(run: seq<Live>, events: seq<Event>, n: nat, cfg: ResumeConfig): seq<Pod>
    requires IsRun(run, events, cfg) && n <= |events|
  {
    if n == 0 then [] else AllCreated(run, events, n - 1, cfg) + CreatedBy(run[n - 1], events[n - 1], cfg)
  }

  /** The pods that the API server holds after the first n victims. */
  function After(live: Live, victims: seq<P.Candidate>, n: nat, cfg: ResumeConfig, cluster: P.Cluster): Live
    requires n <= |victims|
  {
    if n == 0 then live
    else
      var before, v := After(live, victims, n - 1, cfg, cluster), victims[n - 1].pod;
      if !cluster.deletes(v) then before
      else
        match Resumed(v, cfg)
        case Some(r) => if cluster.creates(r) then (before - {Key(v)})[Key(r) := r] else before - {Key(v)}
        case None => before - {Key(v)}
  }

  /** The victims are live pods with names of their own. */
  ghost predicate AreLive(live: Live, victims: seq<P.Candidate>) {
    && (forall i, j :: 0 <= i < j < |victims| ==> Key(victims[i].pod) != Key(victims[j].pod))
    && (forall i :: 0 <= i < |victims| ==> Key(victims[i].pod) in live && live[Key(victims[i].pod)] == victims[i].pod)
  }

  /** No creation succeeds under a name that is taken at that moment. */
  ghost predicate CreatesUnderFreeNames(live: Live, victims: seq<P.Candidate>, cfg: ResumeConfig, cluster: P.Cluster) {
    forall i :: 0 <= i < |victims| && cluster.deletes(victims[i].pod) ==> CreatesFree(live, victims, i, cfg, cluster)
  }

  predicate CreatesFree(live: Live, victims: seq<P.Candidate>, i: nat, cfg: ResumeConfig, cluster: P.Cluster)
    requires i < |victims|
  {
    match Resumed(victims[i].pod, cfg)
    case Some(r) => cluster.creates(r) ==> Key(r) !in After(live, victims, i, cfg, cluster) - {Key(victims[i].pod)}
    case None => true
  }

  /** A later victim is still there, unchanged, when its turn comes. */
  lemma {:induction false} LaterVictimsStay(live: Live, victims: seq<P.Candidate>, n: nat, i: nat, cfg: ResumeConfig, cluster: P.Cluster)
    requires n <= i < |victims| && AreLive(live, victims) && CreatesUnderFreeNames(live, victims, cfg, cluster)
    ensures var key := Key(victims[i].pod);
            key in After(live, victims, n, cfg, cluster) && After(live, victims, n, cfg, cluster)[key] == victims[i].pod
  {
    hide Resumed, Key;
    if n > 0 {
      LaterVictimsStay(live, victims, n - 1, i, cfg, cluster);
      assert Key(victims[n - 1].pod) != Key(victims[i].pod);
      assert cluster.deletes(victims[n - 1].pod) ==> CreatesFree(live, victims, n - 1, cfg, cluster);
    }
  }

  lemma RunExtend(run: seq<Live>, events: seq<Event>, e: Event, cfg: ResumeConfig) returns (longer: seq<Live>)
    requires IsRun(run, events, cfg) && Enabled(run[|events|], e)
    ensures longer == run + [Next(run[|events|], e, cfg)] && IsRun(longer, events + [e], cfg)
    ensures AllEvicted(longer, events + [e], |events| + 1, cfg)
         == AllEvicted(run, events, |events|, cfg) + EvictedBy(run[|events|], e)
    ensures AllCreated(longer, events + [e], |events| + 1, cfg)
         == AllCreated(run, events, |events|, cfg) + CreatedBy(run[|events|], e, cfg)
  {
    longer := run + [Next(run[|events|], e, cfg)];
    hide Next, EvictedBy, CreatedBy, Enabled;
    SameHistory(run, events, longer, events + [e], |events|, cfg);
  }

  lemma {:induction false} SameHistory(run: seq<Live>, events: seq<Event>, run': seq<Live>, events': seq<Event>, n: nat, cfg: ResumeConfig)
    requires IsRun(run, events, cfg) && IsRun(run', events', cfg) && n <= |events| && events <= events' && run <= run'
    ensures AllEvicted(run, events, n, cfg) == AllEvicted(run', events', n, cfg)
    ensures AllCreated(run, events, n, cfg) == AllCreated(run', events', n, cfg)
  {
    hide EvictedBy, CreatedBy, Next, Enabled;
    if n > 0 {
      SameHistory(run, events, run', events', n - 1, cfg);
    }
  }

  /** The run does what Preempt does with the first n victims. */
  ghost predicate Follows(run: seq<Live>, events: seq<Event>, live: Live, victims: seq<P.Candidate>, n: nat, cfg: ResumeConfig,
                          cluster: P.Cluster)
    requires n <= |victims|
  {
    && IsRun(run, events, cfg) && run[0] == live && run[|events|] == After(live, victims, n, cfg, cluster)
    && AllEvicted(run, events, |events|, cfg) == P.Evicted(victims, n, cluster)
    && AllCreated(run, events, |events|, cfg) == P.Replacements(victims, n, cfg, cluster)
  }

  lemma FollowEviction(run: seq<Live>, events: seq<Event>, live: Live, victims: seq<P.Candidate>, n: nat, cfg: ResumeConfig,
                       cluster: P.Cluster, e: Event) returns (longer: seq<Live>)
    requires n < |victims| && Follows(run, events, live, victims, n, cfg, cluster) && cluster.deletes(victims[n].pod)
    requires var before := After(live, victims, n, cfg, cluster);
             && Enabled(before, e) && Next(before, e, cfg) == After(live, victims, n + 1, cfg, cluster)
             && EvictedBy(before, e) == [victims[n].pod]
             && CreatedBy(before, e, cfg) == P.Replacement(victims[n].pod, cfg, cluster)
    ensures Follows(longer, events + [e], live, victims, n + 1, cfg, cluster)
  {
    longer := RunExtend(run, events, e, cfg);
    hide Next, Enabled, EvictedBy, CreatedBy, After, P.Replacement, AllEvicted, AllCreated, IsRun;
  }

  lemma FollowVictim(run: seq<Live>, events: seq<Event>, live: Live, victims: seq<P.Candidate>, n: nat, cfg: ResumeConfig,
                     cluster: P.Cluster) returns (run': seq<Live>, events': seq<Event>)
    requires n < |victims| && Follows(run, events, live, victims, n, cfg, cluster)
    requires AreLive(live, victims) && CreatesUnderFreeNames(live, victims, cfg, cluster)
    ensures Follows(run', events', live, victims, n + 1, cfg, cluster)
  {
    var v := victims[n].pod;
    if cluster.deletes(v) {
      LaterVictimsStay(live, victims, n, n, cfg, cluster);
      hide Follows, After, Resumed, Key;
      assert CreatesFree(live, victims, n, cfg, cluster);
      var e := Evict(Key(v), Resumed(v, cfg).Some? && cluster.creates(Resumed(v, cfg).value));
      EvictIsAfter(live, victims, n + 1, cfg, cluster, e);
      hide Next, Enabled, EvictedBy, CreatedBy, P.Replacement, CreatesFree;
      run' := FollowEviction(run, events, live, victims, n, cfg, cluster, e);
      events' := events + [e];
    } else {
      run', events' := run, events;
      SkipFollows(run, events, live, victims, n, cfg, cluster);
    }
  }

  lemma SkipFollows(run: seq<Live>, events: seq<Event>, live: Live, victims: seq<P.Candidate>, n: nat, cfg: ResumeConfig,
                    cluster: P.Cluster)
    requires n < |victims| && Follows(run, events, live, victims, n, cfg, cluster) && !cluster.deletes(victims[n].pod)
    ensures Follows(run, events, live, victims, n + 1, cfg, cluster)
  {
    hide IsRun, AllEvicted, AllCreated;
  }

  /** What Preempt evicts and creates is a run of Evict steps: it leaves the same pods, and evicts and creates the same
      pods in the same order. */
  lemma {:induction false} PreemptIsRun(live: Live, victims: seq<P.Candidate>, n: nat, cfg: ResumeConfig, cluster: P.Cluster)
    returns (run: seq<Live>, events: seq<Event>)
    requires n <= |victims| && AreLive(live, victims) && CreatesUnderFreeNames(live, victims, cfg, cluster)
    ensures Follows(run, events, live, victims, n, cfg, cluster)
  {
    if n == 0 {
      run, events := [live], [];
    } else {
      hide Follows, AreLive, CreatesUnderFreeNames;
      run, events := PreemptIsRun(live, victims, n - 1, cfg, cluster);
      run, events := FollowVictim(run, events, live, victims, n - 1, cfg, cluster);
    }
  }

  lemma EvictIsAfter(live: Live, victims: seq<P.Candidate>, n: nat, cfg: ResumeConfig, cluster: P.Cluster, e: Event)
    requires 0 < n <= |victims| && cluster.deletes(victims[n - 1].pod) && CreatesFree(live, victims, n - 1, cfg, cluster)
    requires var v := victims[n - 1].pod;
             var before := After(live, victims, n - 1, cfg, cluster);
             && Key(v) in before && before[Key(v)] == v
             && e == Evict(Key(v), Resumed(v, cfg).Some? && cluster.creates(Resumed(v, cfg).value))
    ensures var before := After(live, victims, n - 1, cfg, cluster);
            && Enabled(before, e) && Next(before, e, cfg) == After(live, victims, n, cfg, cluster)
            && EvictedBy(before, e) == [victims[n - 1].pod]
            && CreatedBy(before, e, cfg) == P.Replacement(victims[n - 1].pod, cfg, cluster)
  {
  }

  lemma {:induction false} EvictionsAreCounted(run: seq<Live>, events: seq<Event>, n: nat, cfg: ResumeConfig)
    requires IsRun(run, events, cfg) && n <= |events|
    ensures Evictions(events, n) == |AllEvicted(run, events, n, cfg)|
  {
    if n > 0 {
      EvictionsAreCounted(run, events, n - 1, cfg);
    }
  }

  /** So each preemption lowers the measure by at least the number of pods it evicts. */
  lemma PreemptLowersMeasure(live: Live, victims: seq<P.Candidate>, cfg: ResumeConfig, cluster: P.Cluster)
    requires AreLive(live, victims) && CreatesUnderFreeNames(live, victims, cfg, cluster)
    ensures Measure(After(live, victims, |victims|, cfg, cluster), cfg) + |P.Evicted(victims, |victims|, cluster)|
         <= Measure(live, cfg)
  {
    var run, events := PreemptIsRun(live, victims, |victims|, cfg, cluster);
    EvictionsPayForThemselves(run, events, |events|, cfg);
    EvictionsAreCounted(run, events, |events|, cfg);
  }
}
