/** Executed additions that end above the maximum, for each kind of live pod that the check does not see. */
module CapBreaks {
  import opened Collections
  import opened Text
  import opened Pods
  import opened ControlPlane
  import opened Cluster
  import opened Rebalancer
  import opened Scaling
  import opened RoleFloor
  import opened WorkerCap
  import opened ScalingRuns

  /** p is live, yet neither counted as a worker nor seen as a pod on its way. */
  predicate IsUnseen(x: Setup, p: ClusterPod, role: Role) {
    IsLive(p, x.policy.name, role) && !IsCounted(x, p) && !IsInProgress(p, x.ns, x.policy.name, role)
  }

  /** An unseen pod takes the role one further and changes nothing for the check, so any number of them can take it any
      way above its maximum. */
  lemma UnseenPodsDoNotBlock(x: Setup, pods: seq<ClusterPod>, role: Role, p: ClusterPod)
    requires role == Prefill || role == Decode
    requires IsUnseen(x, p, role)
    ensures CountLive(pods + [p], x.policy.name, role) == CountLive(pods, x.policy.name, role) + 1
    ensures Blocked(pods + [p], x.ns, x.policy, AddOf(role), x.GroupWorkers(pods + [p]))
       <==> Blocked(pods, x.ns, x.policy, AddOf(role), x.GroupWorkers(pods))
  {
    CountAppend(pods, p, Live(x.policy.name, role));
    CountedWorkers(x, pods, role);
    CountedWorkers(x, pods + [p], role);
    CountedIsLive(x, p, role);
    CountAppend(pods, p, CountedOf(x, role));
    InProgressAfterAdd(pods, p, x.ns, x.policy.name, role);
  }

  lemma InProgressAfterAdd(pods: seq<ClusterPod>, p: ClusterPod, ns: string, group: string, role: Role)
    requires !IsInProgress(p, ns, group, role)
    ensures HasInProgress(pods + [p], ns, group, role) <==> HasInProgress(pods, ns, group, role)
  {
    if HasInProgress(pods, ns, group, role) {
      var i :| 0 <= i < |pods| && IsInProgress(pods[i], ns, group, role);
      assert IsInProgress((pods + [p])[i], ns, group, role);
    }
  }

  function HotState(role: Role): PressureState {
    if role == Prefill then PrefillHot else DecodeHot
  }

  /** The rebalancer is on, may scale up, and saw the role hot for the whole sustain window without acting before. */
  predicate IsSustainedHot(s: Settings, t: Timers, policy: Policy, report: PressureReport, now: int, role: Role) {
    && s.enabled && s.allowUp && t.lastActionAt.None?
    && report.modelGroup == policy.name && report.state == HotState(role)
    && report.ttft > policy.ttftHotMs as real && report.itl > policy.itlHotMs as real
    && SustainedSince(s, SinceOf(t, HotState(role)), now)
  }

  /** One worker is counted, one pod is unseen, and the maximum is two: the rebalancer decides to add, nothing blocks
      it, and the role ends with three live pods. */
  lemma UnseenPodBreaksCap(x: Setup, role: Role, w: ClusterPod, p: ClusterPod, q: ClusterPod,
                           s: Settings, t: Timers, report: PressureReport, now: int)
    requires role == Prefill || role == Decode
    requires IsLive(w, x.policy.name, role) && IsCounted(x, w) && IsUnseen(x, p, role)
    requires IsLive(q, x.policy.name, role) && IsNew(q, [w, p])
    requires x.Max(role) == 2 && IsSustainedHot(s, t, x.policy, report, now, role)
    ensures var pods := [w, p];
            var step := Add(AddOf(role), Adds(q));
            && Evaluated(s, t, Input(x.policy, report, x.GroupWorkers(pods), now)).1.action == AddOf(role)
            && Enabled(x, World(pods, None), step)
            && CountLive(pods, x.policy.name, role) == x.Max(role)
            && CountLive(Next(World(pods, None), step).pods, x.policy.name, role) > x.Max(role)
  {
    PairCounts(x, role, w, p);
    CountAppend([w, p], q, Live(x.policy.name, role));
    assert !HasInProgress([w, p], x.ns, x.policy.name, role);
    NonEmptyGroup(x, [w, p], role);
    hide CountLive, Count, HasInProgress, IsLive, IsUnseen, IsCounted, IsNew;
  }

  lemma PairCounts(x: Setup, role: Role, w: ClusterPod, p: ClusterPod)
    requires IsLive(w, x.policy.name, role) && IsCounted(x, w) && IsUnseen(x, p, role)
    ensures CountLive([w, p], x.policy.name, role) == 2 && Count(x.GroupWorkers([w, p]), role) == 1
  {
    CountedWorkers(x, [w, p], role);
    CountedIsLive(x, w, role);
    CountedIsLive(x, p, role);
    CountTwo(w, p, Live(x.policy.name, role));
    CountTwo(w, p, CountedOf(x, role));
  }

  lemma CountTwo<T>(a: T, b: T, p: T -> bool)
    ensures CountIf([a, b], 2, p) == One(a, p) + One(b, p)
  {
    assert CountIf([a, b], 1, p) == CountIf([a, b], 0, p) + One(a, p);
  }

  lemma NonEmptyGroup(x: Setup, pods: seq<ClusterPod>, role: Role)
    requires Count(x.GroupWorkers(pods), role) > 0
    ensures x.GroupWorkers(pods) != []
  {
  }

  // ---------- Three kinds of unseen pods ----------

  const ROLE := "gpu-scheduler/inference-role"
  const GROUP := "gpu-scheduler/model-group"
  const WORKFLOW := "gpu-scheduler/workflow"

  /** A decode pod of group "m" under scheduler "s". */
  function DecodePod(ns: string, name: string, node: string, annotated: bool, phase: PodPhase, ready: bool): ClusterPod {
    var plain := map[ROLE := "decode", GROUP := "m"];
    var annotations := if annotated then plain[WORKFLOW := "inference"] else plain;
    ClusterPod(Pod(ns, name, annotations, map[], 0, None, None, node, "s", None), phase, ready)
  }

  const SETUP := Setup("a", "s", map["n" := true], Policy("m", 0, 0, 2, 2))

  lemma KeysDiffer()
    ensures ROLE != GROUP && ROLE != WORKFLOW && GROUP != WORKFLOW
  {
    assert |ROLE| == 28 && |GROUP| == 25 && |WORKFLOW| == 22;
  }

  lemma DecodePodIsLive(ns: string, name: string, node: string, annotated: bool, phase: PodPhase, ready: bool)
    requires phase != Succeeded && phase != Failed
    ensures var p := DecodePod(ns, name, node, annotated, phase, ready);
            IsLive(p, "m", Decode) && p.spec.Says(WORKFLOW, "inference") == annotated
  {
    KeysDiffer();
    assert TrimLeft("m") == "m" && TrimRight("m") == "m";
    assert "decode" != "prefill" by { assert |"decode"| == 6 && |"prefill"| == 7; }
  }

  /** A pending pod that does not say it is for inference, a pending pod of another namespace, and a ready pod on a node
      that is no longer registered: all three are unseen beside a counted worker. */
  lemma UnseenPods()
    ensures IsCounted(SETUP, DecodePod("a", "w", "n", true, Running, true))
    ensures IsUnseen(SETUP, DecodePod("a", "p", "", false, Pending, false), Decode)
    ensures IsUnseen(SETUP, DecodePod("b", "p", "", true, Pending, false), Decode)
    ensures IsUnseen(SETUP, DecodePod("a", "p", "gone", true, Running, true), Decode)
  {
    DecodePodIsLive("a", "w", "n", true, Running, true);
    DecodePodIsLive("a", "p", "", false, Pending, false);
    DecodePodIsLive("b", "p", "", true, Pending, false);
    DecodePodIsLive("a", "p", "gone", true, Running, true);
    assert "gone" != "n" by { assert |"gone"| == 4 && |"n"| == 1; }
    assert "a" != "b" by { assert "a"[0] == 'a' && "b"[0] == 'b'; }
  }
}
