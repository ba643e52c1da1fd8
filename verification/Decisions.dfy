/** Exactly when the rebalancer decides on which action, in terms of the history of reports and decisions. */
module Decisions {
  import opened Collections
  import opened ControlPlane
  import opened Rebalancer

  // ---------- What an action asks of the current input ----------

  function Number(workers: seq<WorkerInfo>, role: Role): nat {
    |Positions(workers, |workers|, role)|
  }

  /** Where a worker of the role stands among the first n. */
  function Positions(workers: seq<WorkerInfo>, n: nat, role: Role): set<nat>
    requires n <= |workers|
  {
    set j: nat | j < n && workers[j].role == role
  }

  lemma {:induction false} CountIsNumber(workers: seq<WorkerInfo>, n: nat, role: Role)
    requires n <= |workers|
    ensures CountRole(workers, n, role) == |Positions(workers, n, role)|
  {
    if n > 0 {
      CountIsNumber(workers, n - 1, role);
      NextPosition(workers, n, role);
      hide Positions;
    }
  }

  lemma NextPosition(workers: seq<WorkerInfo>, n: nat, role: Role)
    requires 0 < n <= |workers|
    ensures n - 1 !in Positions(workers, n - 1, role)
    ensures Positions(workers, n, role)
         == if workers[n - 1].role == role then Positions(workers, n - 1, role) + {n - 1} else Positions(workers, n - 1, role)
  {
  }

  /** One unified worker and nothing else that serves. */
  predicate IsAlone(workers: seq<WorkerInfo>) {
    Number(workers, Unified) == 1 && Number(workers, Prefill) == 0 && Number(workers, Decode) == 0
  }

  /** The report is for this group's policy, and the group has workers. */
  predicate IsHeard(s: Settings, i: Input) {
    s.enabled && i.report.modelGroup == i.policy.name && |i.workers| > 0
  }

  /** Settings, state, latency and worker counts call for the action. */
  predicate CallsFor(s: Settings, i: Input, action: Action) {
    var state, prefill, decode := i.report.state, Number(i.workers, Prefill), Number(i.workers, Decode);
    match action
    case AddDecode =>
      s.allowUp && state == DecodeHot && !IsAlone(i.workers) && i.report.itl > i.policy.itlHotMs as real && decode < i.policy.maxDecode
    case AddPrefill =>
      s.allowUp && state == PrefillHot && !IsAlone(i.workers) && i.report.ttft > i.policy.ttftHotMs as real && prefill < i.policy.maxPrefill
    case RemoveDecode => s.allowDown && state == Normal && decode > 1
    case RemovePrefill => s.allowDown && state == Normal && decode <= 1 && prefill > 1
    case ScaleBoth => s.allowUp && state != Normal && IsAlone(i.workers) && i.policy.maxPrefill > 0 && i.policy.maxDecode > 0
    case NoAction => false
  }

  // ---------- One evaluation ----------

  /** The state has lasted the window, by its timer; a timer that is not set starts now. */
  predicate HasLasted(s: Settings, since: Option<int>, now: int) {
    (match since case Some(start) => now - start case None => 0) >= s.sustain
  }

  predicate HasCooled(s: Settings, last: Option<int>, now: int) {
    match last
    case Some(at) => now - at >= s.cooldown
    case None => true
  }

  /** One evaluation decides on the action exactly when it is heard, called for, sustained (in a named state) and out of
      cooldown. */
  lemma DecidesExactly(s: Settings, t: Timers, i: Input, action: Action)
    requires action != NoAction
    ensures Evaluated(s, t, i).1.action == action
        <==> && IsHeard(s, i) && CallsFor(s, i, action) && HasCooled(s, t.lastActionAt, i.now)
             && (i.report.state != OtherPressure ==> HasLasted(s, SinceOf(t, i.report.state), i.now))
    ensures Evaluated(s, t, i).1.dryRun == s.dryRun
  {
    hide CountRole, Positions;
    CountIsNumber(i.workers, |i.workers|, Unified);
    CountIsNumber(i.workers, |i.workers|, Prefill);
    CountIsNumber(i.workers, |i.workers|, Decode);
  }

  // ---------- Histories ----------

  /** Where the unbroken run of heard reports of this state starts that the last heard one among the first n belongs to. */
  function RunStart(s: Settings, inputs: seq<Input>, n: nat, state: PressureState): Option<nat>
    requires n <= |inputs|
  {
    if n == 0 then None
    else if !IsHeard(s, inputs[n - 1]) then RunStart(s, inputs, n - 1, state)
    else if inputs[n - 1].report.state != state then None
    else if RunStart(s, inputs, n - 1, state).Some? then RunStart(s, inputs, n - 1, state)
    else Some(n - 1)
  }

  /** The last of the first n decisions that was to act. */
  function LastAction(ds: seq<Decision>, n: nat): (r: Option<nat>)
    requires n <= |ds|
    ensures r.Some? ==> r.value < n && ds[r.value].action != NoAction
  {
    if n == 0 then None else if ds[n - 1].action != NoAction then Some(n - 1) else LastAction(ds, n - 1)
  }

  function DateOf(inputs: seq<Input>, j: Option<nat>): Option<int>
    requires j.Some? ==> j.value < |inputs|
  {
    match j
    case Some(k) => Some(inputs[k].now)
    case None => None
  }

  lemma {:induction false} RunStartIsEarlier(s: Settings, inputs: seq<Input>, n: nat, state: PressureState)
    requires n <= |inputs|
    ensures RunStart(s, inputs, n, state).Some? ==> RunStart(s, inputs, n, state).value < n
  {
    if n > 0 {
      RunStartIsEarlier(s, inputs, n - 1, state);
    }
  }

  /** The run start is the first report from which on every heard report had this state, and exists when there is such a
      report. */
  lemma {:induction false} RunStartIsFirst(s: Settings, inputs: seq<Input>, n: nat, state: PressureState, k: nat)
    requires n <= |inputs|
    ensures RunStart(s, inputs, n, state).Some? ==> UnbrokenFrom(s, inputs, RunStart(s, inputs, n, state).value, n, state)
    ensures UnbrokenFrom(s, inputs, k, n, state) ==> RunStart(s, inputs, n, state).Some? && RunStart(s, inputs, n, state).value <= k
  {
    if n > 0 {
      RunStartIsFirst(s, inputs, n - 1, state, k);
    }
  }

  lemma StepMovesTimer(s: Settings, t: Timers, i: Input, state: PressureState)
    requires state != OtherPressure
    ensures SinceOf(Evaluated(s, t, i).0, state)
         == if !IsHeard(s, i) then SinceOf(t, state)
            else if i.report.state != state then None
            else if SinceOf(t, state).Some? then SinceOf(t, state)
            else Some(i.now)
  {
    hide Decide;
  }

  lemma StepMovesDate(s: Settings, t: Timers, i: Input)
    ensures Evaluated(s, t, i).0.lastActionAt == if Evaluated(s, t, i).1.action == NoAction then t.lastActionAt else Some(i.now)
  {
    hide Decide;
  }

  /** The timer of a named state is the date at which its unbroken run started, and the last action's date is that of the
      last decision to act. */
  lemma {:induction false} TimersAreDates(s: Settings, inputs: seq<Input>, ts: seq<Timers>, ds: seq<Decision>, n: nat, state: PressureState)
    requires IsTrace(s, inputs, ts, ds) && n < |ts| && state != OtherPressure
    ensures RunStart(s, inputs, n, state).Some? ==> RunStart(s, inputs, n, state).value < n
    ensures SinceOf(ts[n], state) == DateOf(inputs, RunStart(s, inputs, n, state))
    ensures ts[n].lastActionAt == DateOf(inputs, LastAction(ds, n))
  {
    RunStartIsEarlier(s, inputs, n, state);
    if n > 0 {
      TimersAreDates(s, inputs, ts, ds, n - 1, state);
      assert (ts[n], ds[n - 1]) == Evaluated(s, ts[n - 1], inputs[n - 1]);
      hide Evaluated;
      StepMovesTimer(s, ts[n - 1], inputs[n - 1], state);
      StepMovesDate(s, ts[n - 1], inputs[n - 1]);
    }
  }

  /** The unbroken run that the current report belongs to spans the sustain window. */
  predicate IsSustained(s: Settings, inputs: seq<Input>, n: nat)
    requires n < |inputs|
  {
    var start := RunStart(s, inputs, n + 1, inputs[n].report.state);
    start.Some? && start.value <= n && inputs[n].now - inputs[start.value].now >= s.sustain
  }

  /** The last decision to act, if there was one, is a cooldown ago. */
  predicate IsCool(s: Settings, inputs: seq<Input>, ds: seq<Decision>, n: nat)
    requires n < |inputs| && n <= |ds|
  {
    var last := LastAction(ds, n);
    last.None? || inputs[n].now - inputs[last.value].now >= s.cooldown
  }

  /** In every run, the n-th decision is this action exactly when the report is heard and calls for it, its state, if it is a
      named one, has lasted the window, and the last action is a cooldown ago. */
  lemma ActsExactly(s: Settings, inputs: seq<Input>, ts: seq<Timers>, ds: seq<Decision>, n: nat, action: Action)
    requires IsTrace(s, inputs, ts, ds) && n < |inputs| && action != NoAction
    ensures ds[n].action == action
        <==> && IsHeard(s, inputs[n]) && CallsFor(s, inputs[n], action) && IsCool(s, inputs, ds, n)
             && (inputs[n].report.state != OtherPressure ==> IsSustained(s, inputs, n))
  {
    var i, state := inputs[n], inputs[n].report.state;
    assert (ts[n + 1], ds[n]) == Evaluated(s, ts[n], i);
    DecidesExactly(s, ts[n], i, action);
    TimersAreDates(s, inputs, ts, ds, n, Normal);
    hide IsTrace, Evaluated, CallsFor, LastAction;
    if state != OtherPressure {
      TimersAreDates(s, inputs, ts, ds, n, state);
      RunStartIsEarlier(s, inputs, n, state);
    }
  }
}
