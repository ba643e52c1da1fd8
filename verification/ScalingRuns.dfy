/** Worker cap and role floor over whole runs. */
module ScalingRuns {
  import opened Collections
  import opened Text
  import opened Pods
  import opened ControlPlane
  import opened Cluster
  import opened Rebalancer
  import opened Scaling
  import opened RoleFloor
  import opened WorkerCap

  /** A mark that could not be cleared blocks every later removal of the role while its pod lives. */
  lemma StuckMarkBlocksRemoval(pods: seq<ClusterPod>, ns: string, policy: Policy, action: Action, target: ClusterPod,
                               stamp: string, workers: seq<WorkerInfo>)
    requires DistinctPods(pods) && RemovalRole(action).Some?
    requires IsTarget(target, pods, ns, policy.name, RemovalRole(action).value)
    ensures Blocked(Marked(pods, target, stamp), ns, policy, action, workers)
  {
    var role := RemovalRole(action).value;
    TargetServes(target, pods, ns, policy.name, role);
    TrueIsDraining(target, stamp);
    var i := Position(pods, target).value;
    assert IsMarked(Marked(pods, target, stamp)[i], ns, policy.name, role);
  }

  // ---------- Runs ----------

  /** target: the pod that the scheduler is draining. */
  datatype World = World(pods: seq<ClusterPod>, target: Option<ClusterPod>)

  datatype Step =
    | Add(action: Action, effect: Effect)
    | StartRemoval(action: Action, pod: ClusterPod, stamp: string)
    | RunScript(effect: Effect)
    | ClearMark(ok: bool)
    | Others(pods: seq<ClusterPod>)

  function Next(w: World, step: Step): World {
    match step
    case Add(_, effect) => w.(pods := Applied(w.pods, effect))
    case StartRemoval(_, pod, stamp) => World(Marked(w.pods, pod, stamp), Some(pod))
    case RunScript(effect) => World(Applied(w.pods, effect), None)
    case ClearMark(ok) => World(if ok && w.target.Some? then Cleared(w.pods, w.target.value) else w.pods, None)
    case Others(pods) => w.(pods := pods)
  }

  /** A pod under this name, if there is one, serves no role. */
  ghost predicate ServesNothing(pods: seq<ClusterPod>, key: ClusterPod, x: Setup) {
    forall role :: !ServesAs(pods, key, x.ns, x.policy.name, role)
  }

  /** Everyone else creates no pod of a role, keeps one ready undrained pod where there is one, and does not touch the
      mark of the pod being drained. */
  ghost predicate Quiet(x: Setup, w: World, pods: seq<ClusterPod>) {
    && DistinctPods(pods)
    && (forall role :: CountLive(pods, x.policy.name, role) <= CountLive(w.pods, x.policy.name, role))
    && (forall role :: CountServing(w.pods, x.ns, x.policy.name, role) >= 1 ==> CountServing(pods, x.ns, x.policy.name, role) >= 1)
    && (w.target.Some? ==> ServesNothing(pods, w.target.value, x))
  }

  /** A pod that the API server accepts as new. */
  ghost predicate IsNew(p: ClusterPod, pods: seq<ClusterPod>) {
    '/' !in p.spec.namespace && Position(pods, p).None?
  }

  /** The scripts keep their contract: an addition creates at most one pod, a removal deletes at most the drained pod. */
  ghost predicate Enabled(x: Setup, w: World, step: Step) {
    match step
    case Add(action, effect) =>
      && w.target.None? && action in {AddPrefill, AddDecode}
      && !Blocked(w.pods, x.ns, x.policy, action, x.GroupWorkers(w.pods))
      && (effect.NoEffect? || (effect.Adds? && IsNew(effect.pod, w.pods)))
    case StartRemoval(action, pod, _) =>
      && w.target.None? && RemovalRole(action).Some?
      && !Blocked(w.pods, x.ns, x.policy, action, x.GroupWorkers(w.pods))
      && IsTarget(pod, w.pods, x.ns, x.policy.name, RemovalRole(action).value)
    case RunScript(effect) => w.target.Some? && (effect.NoEffect? || (effect.Deletes? && SamePod(effect.pod, w.target.value)))
    case ClearMark(_) => w.target.Some?
    case Others(pods) => Quiet(x, w, pods)
  }

  ghost predicate IsRun(x: Setup, run: seq<World>, steps: seq<Step>) {
    && |run| == |steps| + 1
    && forall i :: 0 <= i < |steps| ==> Enabled(x, run[i], steps[i]) && run[i + 1] == Next(run[i], steps[i])
  }

  ghost predicate Invariant(x: Setup, w: World) {
    DistinctPods(w.pods) && (w.target.Some? ==> ServesNothing(w.pods, w.target.value, x))
  }

  lemma StepKeepsInvariant(x: Setup, w: World, step: Step)
    requires Invariant(x, w) && Enabled(x, w, step)
    ensures Invariant(x, Next(w, step))
  {
    hide Blocked, IsTarget, CountLive, CountServing, DistinctPods, ServesNothing, Marked, Cleared, Without, Position;
    match step
    case Add(action, effect) =>
      if effect.Adds? {
        AddKeepsNames(w.pods, effect.pod);
      }
    case StartRemoval(action, pod, stamp) =>
      MarkedServesNothing(x, w.pods, pod, stamp, RemovalRole(action).value);
      MarkKeepsNames(w.pods, pod, stamp);
    case RunScript(effect) =>
      if effect.Deletes? {
        DeleteKeepsNames(w.pods, effect.pod);
      }
    case ClearMark(ok) => ClearKeepsNames(w.pods, w.target.value);
    case Others(pods) =>
  }

  lemma MarkedServesNothing(x: Setup, pods: seq<ClusterPod>, pod: ClusterPod, stamp: string, role: Role)
    requires DistinctPods(pods) && IsTarget(pod, pods, x.ns, x.policy.name, role)
    ensures ServesNothing(Marked(pods, pod, stamp), pod, x)
  {
    TargetServes(pod, pods, x.ns, x.policy.name, role);
    hide ServesAs, Marked, Position, IsTarget;
    forall role
      ensures !ServesAs(Marked(pods, pod, stamp), pod, x.ns, x.policy.name, role)
    {
      MarkServes(pods, pod, pod, stamp, x.ns, x.policy.name, role);
    }
  }

  lemma AddKeepsNames(pods: seq<ClusterPod>, p: ClusterPod)
    requires DistinctPods(pods) && IsNew(p, pods)
    ensures DistinctPods(pods + [p])
  {
    hide PositionFrom;
  }

  lemma DeleteKeepsNames(pods: seq<ClusterPod>, key: ClusterPod)
    requires DistinctPods(pods)
    ensures DistinctPods(Without(pods, key))
  {
    hide PositionFrom;
  }

  lemma MarkKeepsNames(pods: seq<ClusterPod>, key: ClusterPod, stamp: string)
    requires DistinctPods(pods)
    ensures DistinctPods(Marked(pods, key, stamp))
  {
  }

  lemma ClearKeepsNames(pods: seq<ClusterPod>, key: ClusterPod)
    requires DistinctPods(pods)
    ensures DistinctPods(Cleared(pods, key))
  {
  }

  /** No step of the scheduler takes a served role to nothing. */
  lemma StepKeepsFloor(x: Setup, w: World, step: Step, role: Role)
    requires Invariant(x, w) && Enabled(x, w, step) && CountServing(w.pods, x.ns, x.policy.name, role) >= 1
    ensures CountServing(Next(w, step).pods, x.ns, x.policy.name, role) >= 1
  {
    hide ServesAs, Blocked, CountLive, CountServing, Marked, Cleared, DistinctPods;
    var group := x.policy.name;
    match step
    case Add(_, effect) => AppliedCounts(w.pods, effect, x.ns, group, role);
    case StartRemoval(action, pod, stamp) =>
      TargetServes(pod, w.pods, x.ns, group, RemovalRole(action).value);
      TargetCounts(w.pods, pod, stamp, x.ns, group, RemovalRole(action).value, role);
    case RunScript(effect) =>
      AppliedCounts(w.pods, effect, x.ns, group, role);
      if effect.Deletes? {
        SameServes(w.pods, effect.pod, w.target.value, x, role);
      }
    case ClearMark(ok) => ClearCounts(w.pods, w.target.value, x.ns, group, role);
    case Others(pods) =>
  }

  lemma SameServes(pods: seq<ClusterPod>, a: ClusterPod, b: ClusterPod, x: Setup, role: Role)
    requires SamePod(a, b) && ServesNothing(pods, b, x)
    ensures !ServesAs(pods, a, x.ns, x.policy.name, role)
  {
    PositionOfSamePod(pods, 0, a, b);
    assert !ServesAs(pods, b, x.ns, x.policy.name, role);
  }

  /** Over every run, a role that is served stays served. */
  lemma {:induction false} FloorOverRuns(x: Setup, run: seq<World>, steps: seq<Step>, role: Role, i: nat)
    requires IsRun(x, run, steps) && Invariant(x, run[0]) && i < |run|
    requires CountServing(run[0].pods, x.ns, x.policy.name, role) >= 1
    ensures Invariant(x, run[i]) && CountServing(run[i].pods, x.ns, x.policy.name, role) >= 1
  {
    hide Invariant, Enabled, CountServing;
    if i > 0 {
      FloorOverRuns(x, run, steps, role, i - 1);
      StepKeepsInvariant(x, run[i - 1], steps[i - 1]);
      StepKeepsFloor(x, run[i - 1], steps[i - 1], role);
    }
  }

  lemma PutLive(pods: seq<ClusterPod>, i: nat, q: ClusterPod, group: string, role: Role)
    requires i < |pods| && (IsLive(q, group, role) <==> IsLive(pods[i], group, role))
    ensures CountLive(pods[i := q], group, role) == CountLive(pods, group, role)
  {
    CountPut(pods, |pods|, i, q, Live(group, role));
  }

  lemma MarkAndClearKeepLive(pods: seq<ClusterPod>, key: ClusterPod, stamp: string, group: string, role: Role)
    ensures CountLive(Marked(pods, key, stamp), group, role) == CountLive(pods, group, role)
    ensures CountLive(Cleared(pods, key), group, role) == CountLive(pods, group, role)
  {
    hide CountLive, TrimSpace;
    var i := Position(pods, key);
    if i.Some? {
      PutLive(pods, i.value, MarkPod(pods[i.value], stamp), group, role);
      PutLive(pods, i.value, ClearPod(pods[i.value]), group, role);
    }
  }

  lemma WithoutLive(pods: seq<ClusterPod>, key: ClusterPod, group: string, role: Role)
    ensures CountLive(Without(pods, key), group, role) <= CountLive(pods, group, role)
  {
    var i := Position(pods, key);
    if i.Some? {
      CountRemove(pods, |pods|, i.value, Live(group, role));
    }
  }

  /** The script of an addition adds a pod of the role it was asked for, while the check sees enough of that role. */
  ghost predicate AddIsSeen(x: Setup, w: World, step: Step) {
    step.Add? && step.effect.Adds? ==>
      forall role :: role in {Prefill, Decode} && IsLive(step.effect.pod, x.policy.name, role)
        ==> step.action == AddOf(role) && SeesEnough(x, w.pods, role)
  }

  lemma StepKeepsCap(x: Setup, w: World, step: Step, role: Role)
    requires role == Prefill || role == Decode
    requires Enabled(x, w, step) && AddIsSeen(x, w, step)
    requires CountLive(w.pods, x.policy.name, role) <= x.Max(role)
    ensures CountLive(Next(w, step).pods, x.policy.name, role) <= x.Max(role)
  {
    hide CountLive, Marked, Cleared, Without, SeesEnough, Blocked, IsTarget, IsLive;
    var group := x.policy.name;
    match step
    case Add(action, effect) =>
      if effect.Adds? {
        AddKeepsCap(x, w.pods, action, effect.pod, role);
      }
    case StartRemoval(_, pod, stamp) => MarkAndClearKeepLive(w.pods, pod, stamp, group, role);
    case RunScript(effect) =>
      if effect.Deletes? {
        WithoutLive(w.pods, effect.pod, group, role);
      }
    case ClearMark(ok) => MarkAndClearKeepLive(w.pods, w.target.value, "", group, role);
    case Others(pods) =>
  }

  lemma AddKeepsCap(x: Setup, pods: seq<ClusterPod>, action: Action, p: ClusterPod, role: Role)
    requires role == Prefill || role == Decode
    requires !Blocked(pods, x.ns, x.policy, action, x.GroupWorkers(pods))
    requires IsLive(p, x.policy.name, role) ==> action == AddOf(role) && SeesEnough(x, pods, role)
    requires CountLive(pods, x.policy.name, role) <= x.Max(role)
    ensures CountLive(pods + [p], x.policy.name, role) <= x.Max(role)
  {
    hide SeesEnough, Blocked, IsLive;
    CountAppend(pods, p, Live(x.policy.name, role));
    if IsLive(p, x.policy.name, role) {
      UnblockedIsBelowMax(x, pods, role);
    }
  }

  /** Over every run whose additions are seen, the live pods of a role never exceed its maximum. */
  lemma {:induction false} CapOverRuns(x: Setup, run: seq<World>, steps: seq<Step>, role: Role, i: nat)
    requires role == Prefill || role == Decode
    requires IsRun(x, run, steps) && forall k :: 0 <= k < |steps| ==> AddIsSeen(x, run[k], steps[k])
    requires i < |run| && CountLive(run[0].pods, x.policy.name, role) <= x.Max(role)
    ensures CountLive(run[i].pods, x.policy.name, role) <= x.Max(role)
  {
    hide Enabled, CountLive, AddIsSeen;
    if i > 0 {
      CapOverRuns(x, run, steps, role, i - 1);
      StepKeepsCap(x, run[i - 1], steps[i - 1], role);
    }
  }

  // ---------- Handled actions are runs ----------

  /** What HandleRebalancerAction leaves behind is what a short run leaves behind. */
  lemma HandledIsRun(x: Setup, pods: seq<ClusterPod>, action: Action, target: Option<ClusterPod>, stamp: string, o: Outcome)
    returns (run: seq<World>, steps: seq<Step>)
    requires Executable(action) && !Blocked(pods, x.ns, x.policy, action, x.GroupWorkers(pods))
    requires IsTargetOf(action, target, pods, x.ns, x.policy.name)
    requires o.effect.Adds? ==> RemovalRole(action).None? && IsNew(o.effect.pod, pods)
    requires o.effect.Deletes? ==> RemovalRole(action).Some? && target.Some? && SamePod(o.effect.pod, target.value)
    ensures IsRun(x, run, steps) && run[0] == World(pods, None)
    ensures run[|steps|].pods == Handled(pods, action, target, stamp, o)
  {
    hide Blocked, IsTarget, Marked, Cleared, Drains;
    var w := World(pods, None);
    if RemovalRole(action).None? {
      if ScriptRuns(action, target, o) {
        steps := [Add(action, o.effect)];
        run := [w, Next(w, steps[0])];
      } else {
        run, steps := [w], [];
      }
    } else if o.scriptAvailable && target.Some? && o.markOK {
      var first := StartRemoval(action, target.value, stamp);
      var second := if ScriptRuns(action, target, o) then RunScript(o.effect) else ClearMark(o.clearOK);
      steps := [first, second];
      run := [w, Next(w, first), Next(Next(w, first), second)];
    } else {
      run, steps := [w], [];
    }
  }
}
