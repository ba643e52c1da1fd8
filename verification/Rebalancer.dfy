/** internal/scheduler/rebalancer.go: per-group timers and scaling decisions. */
module Rebalancer {
  import opened Collections
  import opened ControlPlane

  datatype Action = NoAction | ScaleBoth | AddPrefill | AddDecode | RemovePrefill | RemoveDecode

  datatype Reason =
    | Disabled | ModelGroupMismatch | NoWorkers | NormalReason | ScaleUpDisabled | ScaleDownDisabled
    | UnifiedHot | PrefillHotReason | DecodeHotReason | AtMaxPrefill | AtMaxDecode
    | ExtraPrefillNormal | ExtraDecodeNormal | ThresholdNotMet | NotSustained | Cooldown

  datatype Decision = Decision(action: Action, reason: Reason, dryRun: bool)

  datatype Policy = Policy(name: string, ttftHotMs: int, itlHotMs: int, maxPrefill: int, maxDecode: int)

  /** Windows in seconds. */
  datatype Settings = Settings(enabled: bool, dryRun: bool, sustain: int, cooldown: int, allowUp: bool, allowDown: bool)

  /** None is Go's zero time. */
  datatype Timers = Timers(prefillHotSince: Option<int>, decodeHotSince: Option<int>, normalSince: Option<int>, lastActionAt: Option<int>)

  const FRESH := Timers(None, None, None, None)

  datatype Input = Input(policy: Policy, report: PressureReport, workers: seq<WorkerInfo>, now: int)

  function CountRole(workers: seq<WorkerInfo>, n: nat, role: Role): nat
    requires n <= |workers|
  {
    if n == 0 then 0 else CountRole(workers, n - 1, role) + (if workers[n - 1].role == role then 1 else 0)
  }

  function Count(workers: seq<WorkerInfo>, role: Role): nat {
    CountRole(workers, |workers|, role)
  }

  // ---------- One evaluation as a function ----------

  /** Only these evaluations touch the group's timers. */
  predicate Accepted(s: Settings, i: Input) {
    s.enabled && i.report.modelGroup == i.policy.name && i.workers != []
  }

  function Keep(since: Option<int>, now: int): Option<int> {
    if since.None? then Some(now) else since
  }

  /** Each named state starts or keeps its own timer and clears the others; any other state clears all three. */
  function Observe(t: Timers, state: PressureState, now: int): Timers {
    match state
    case Normal => Timers(None, None, Keep(t.normalSince, now), t.lastActionAt)
    case DecodeHot => Timers(None, Keep(t.decodeHotSince, now), None, t.lastActionAt)
    case PrefillHot => Timers(Keep(t.prefillHotSince, now), None, None, t.lastActionAt)
    case OtherPressure => Timers(None, None, None, t.lastActionAt)
  }

  predicate SustainedSince(s: Settings, since: Option<int>, now: int) {
    since.Some? && now - since.value >= s.sustain
  }

  predicate InCooldown(s: Settings, t: Timers, now: int) {
    t.lastActionAt.Some? && now - t.lastActionAt.value < s.cooldown
  }

  predicate LoneUnified(workers: seq<WorkerInfo>) {
    Count(workers, Unified) == 1 && Count(workers, Prefill) == 0 && Count(workers, Decode) == 0
  }

  /** The timer that belongs to a state. */
  function SinceOf(t: Timers, state: PressureState): Option<int> {
    match state
    case Normal => t.normalSince
    case DecodeHot => t.decodeHotSince
    case PrefillHot => t.prefillHotSince
    case OtherPressure => None
  }

  /** The decision on timers that already observed the report. */
  function Decide(s: Settings, t: Timers, i: Input): (Action, Reason) {
    var u, p, d := Count(i.workers, Unified), Count(i.workers, Prefill), Count(i.workers, Decode);
    var state := i.report.state;
    if LoneUnified(i.workers) then
      if state == Normal then (NoAction, NormalReason)
      else if !s.allowUp then (NoAction, ScaleUpDisabled)
      else if p >= i.policy.maxPrefill then (NoAction, AtMaxPrefill)
      else if d >= i.policy.maxDecode then (NoAction, AtMaxDecode)
      else if state != OtherPressure && !SustainedSince(s, SinceOf(t, state), i.now) then (NoAction, NotSustained)
      else if InCooldown(s, t, i.now) then (NoAction, Cooldown)
      else (ScaleBoth, UnifiedHot)
    else
      match state
      case DecodeHot =>
        if !s.allowUp then (NoAction, ScaleUpDisabled)
        else if i.report.itl <= i.policy.itlHotMs as real then (NoAction, ThresholdNotMet)
        else if d >= i.policy.maxDecode then (NoAction, AtMaxDecode)
        else if !SustainedSince(s, t.decodeHotSince, i.now) then (NoAction, NotSustained)
        else if InCooldown(s, t, i.now) then (NoAction, Cooldown)
        else (AddDecode, DecodeHotReason)
      case PrefillHot =>
        if !s.allowUp then (NoAction, ScaleUpDisabled)
        else if i.report.ttft <= i.policy.ttftHotMs as real then (NoAction, ThresholdNotMet)
        else if p >= i.policy.maxPrefill then (NoAction, AtMaxPrefill)
        else if !SustainedSince(s, t.prefillHotSince, i.now) then (NoAction, NotSustained)
        else if InCooldown(s, t, i.now) then (NoAction, Cooldown)
        else (AddPrefill, PrefillHotReason)
      case Normal =>
        if (d > 1 || p > 1) && !SustainedSince(s, t.normalSince, i.now) then (NoAction, NotSustained)
        else if (d > 1 || p > 1) && s.allowDown then
          if InCooldown(s, t, i.now) then (NoAction, Cooldown)
          else if d > 1 then (RemoveDecode, ExtraDecodeNormal)
          else (RemovePrefill, ExtraPrefillNormal)
        else if d > 1 || p > 1 then (NoAction, ScaleDownDisabled)
        else (NoAction, NormalReason)
      case OtherPressure => (NoAction, NormalReason)
  }

  function Rejection(s: Settings, i: Input): Reason {
    if !s.enabled then Disabled else if i.report.modelGroup != i.policy.name then ModelGroupMismatch else NoWorkers
  }

  /** The group's timers and the decision after one evaluation. */
  function Evaluated(s: Settings, t: Timers, i: Input): (Timers, Decision) {
    if !Accepted(s, i) then (t, Decision(NoAction, Rejection(s, i), s.dryRun))
    else
      var observed := Observe(t, i.report.state, i.now);
      var (action, reason) := Decide(s, observed, i);
      (if action == NoAction then observed else observed.(lastActionAt := Some(i.now)), Decision(action, reason, s.dryRun))
  }

  // ---------- The object ----------

  class Rebalancer {
    const settings: Settings
    var states: map<string, Timers>

    constructor (settings: Settings, groups: seq<string>)
      ensures this.settings == settings
      ensures forall g :: TimersOf(g) == FRESH
    {
      this.settings := settings;
      var m: map<string, Timers> := map[];
      for i := 0 to |groups|
        invariant forall g :: g in m ==> m[g] == FRESH
      {
        m := m[groups[i] := FRESH];
      }
      states := m;
    }

    /** A group without an entry starts with fresh timers. */
    function TimersOf(group: string): Timers
      reads this
    {
      if group in states then states[group] else FRESH
    }

    function Result(action: Action, reason: Reason): Decision {
      Decision(action, reason, settings.dryRun)
    }

    method Evaluate(policy: Policy, report: PressureReport, workers: seq<WorkerInfo>, now: int) returns (r: Decision)
      modifies this
      ensures var i := Input(policy, report, workers, now);
              && r == Evaluated(settings, old(TimersOf(policy.name)), i).1
              && TimersOf(policy.name) == Evaluated(settings, old(TimersOf(policy.name)), i).0
      ensures forall g :: g != policy.name ==> TimersOf(g) == old(TimersOf(g))
    {
      if !settings.enabled {
        return Result(NoAction, Disabled);
      }
      if report.modelGroup != policy.name {
        return Result(NoAction, ModelGroupMismatch);
      }
      if |workers| <= 0 {
        return Result(NoAction, NoWorkers);
      }
      var t := TimersOf(policy.name);
      match report.state {
        case Normal =>
          if t.normalSince.None? {
            t := t.(normalSince := Some(now));
          }
          t := t.(decodeHotSince := None, prefillHotSince := None);
        case DecodeHot =>
          if t.decodeHotSince.None? {
            t := t.(decodeHotSince := Some(now));
          }
          t := t.(normalSince := None, prefillHotSince := None);
        case PrefillHot =>
          if t.prefillHotSince.None? {
            t := t.(prefillHotSince := Some(now));
          }
          t := t.(normalSince := None, decodeHotSince := None);
        case OtherPressure =>
          t := t.(normalSince := None, decodeHotSince := None, prefillHotSince := None);
      }
      assert t == Observe(old(TimersOf(policy.name)), report.state, now);
      states := states[policy.name := t];
      hide Observe;
      var unified, prefill, decode := 0, 0, 0;
      for i := 0 to |workers|
        invariant unified == CountRole(workers, i, Unified)
        invariant prefill == CountRole(workers, i, Prefill)
        invariant decode == CountRole(workers, i, Decode)
      {
        match workers[i].role
        case Unified => unified := unified + 1;
        case Prefill => prefill := prefill + 1;
        case Decode => decode := decode + 1;
        case Unknown =>
      }
      hide CountRole, SustainedSince, InCooldown;
      var cooling := InCooldown(settings, t, now);
      var state := report.state;
      if unified == 1 && prefill == 0 && decode == 0 {
        if state == Normal {
          return Result(NoAction, NormalReason);
        }
        if !settings.allowUp {
          return Result(NoAction, ScaleUpDisabled);
        }
        if prefill >= policy.maxPrefill {
          return Result(NoAction, AtMaxPrefill);
        }
        if decode >= policy.maxDecode {
          return Result(NoAction, AtMaxDecode);
        }
        if state == PrefillHot && !SustainedSince(settings, t.prefillHotSince, now) {
          return Result(NoAction, NotSustained);
        }
        if state == DecodeHot && !SustainedSince(settings, t.decodeHotSince, now) {
          return Result(NoAction, NotSustained);
        }
        if cooling {
          return Result(NoAction, Cooldown);
        }
        states := states[policy.name := t.(lastActionAt := Some(now))];
        return Result(ScaleBoth, UnifiedHot);
      }
      if state == DecodeHot {
        if !settings.allowUp {
          return Result(NoAction, ScaleUpDisabled);
        }
        if report.itl <= policy.itlHotMs as real {
          return Result(NoAction, ThresholdNotMet);
        }
        if decode >= policy.maxDecode {
          return Result(NoAction, AtMaxDecode);
        }
        if !SustainedSince(settings, t.decodeHotSince, now) {
          return Result(NoAction, NotSustained);
        }
        if cooling {
          return Result(NoAction, Cooldown);
        }
        states := states[policy.name := t.(lastActionAt := Some(now))];
        return Result(AddDecode, DecodeHotReason);
      }
      if state == PrefillHot {
        if !settings.allowUp {
          return Result(NoAction, ScaleUpDisabled);
        }
        if report.ttft <= policy.ttftHotMs as real {
          return Result(NoAction, ThresholdNotMet);
        }
        if prefill >= policy.maxPrefill {
          return Result(NoAction, AtMaxPrefill);
        }
        if !SustainedSince(settings, t.prefillHotSince, now) {
          return Result(NoAction, NotSustained);
        }
        if cooling {
          return Result(NoAction, Cooldown);
        }
        states := states[policy.name := t.(lastActionAt := Some(now))];
        return Result(AddPrefill, PrefillHotReason);
      }
      if state == Normal {
        if (decode > 1 || prefill > 1) && !SustainedSince(settings, t.normalSince, now) {
          return Result(NoAction, NotSustained);
        }
        if decode > 1 && settings.allowDown {
          if cooling {
            return Result(NoAction, Cooldown);
          }
          states := states[policy.name := t.(lastActionAt := Some(now))];
          return Result(RemoveDecode, ExtraDecodeNormal);
        } else if prefill > 1 && settings.allowDown {
          if cooling {
            return Result(NoAction, Cooldown);
          }
          states := states[policy.name := t.(lastActionAt := Some(now))];
          return Result(RemovePrefill, ExtraPrefillNormal);
        } else if (decode > 1 || prefill > 1) && !settings.allowDown {
          return Result(NoAction, ScaleDownDisabled);
        }
        return Result(NoAction, NormalReason);
      }
      return Result(NoAction, NormalReason);
    }
  }

  // ---------- Guards ----------

  /** What each action presupposes about the workers, the settings and the report. */
  lemma ActionGuards(s: Settings, t: Timers, i: Input)
    ensures var action := Evaluated(s, t, i).1.action;
            && (action != NoAction ==> Accepted(s, i) && !InCooldown(s, t, i.now))
            && (action.AddDecode? ==> s.allowUp && i.report.state == DecodeHot && Count(i.workers, Decode) < i.policy.maxDecode)
            && (action.AddPrefill? ==> s.allowUp && i.report.state == PrefillHot && Count(i.workers, Prefill) < i.policy.maxPrefill)
            && (action.RemoveDecode? ==> s.allowDown && i.report.state == Normal && Count(i.workers, Decode) > 1)
            && (action.RemovePrefill? ==> s.allowDown && i.report.state == Normal && Count(i.workers, Prefill) > 1
                                          && Count(i.workers, Decode) <= 1)
            && (action.ScaleBoth? ==> s.allowUp && i.report.state != Normal && LoneUnified(i.workers))
  {
  }

  // ---------- Runs of one group ----------

  /** ts[n] are the timers before input n, ds[n] the decision on it. */
  ghost predicate IsTrace(s: Settings, inputs: seq<Input>, ts: seq<Timers>, ds: seq<Decision>) {
    && |ts| == |inputs| + 1 && |ds| == |inputs| && ts[0] == FRESH
    && forall n :: 0 <= n < |inputs| ==> (ts[n + 1], ds[n]) == Evaluated(s, ts[n], inputs[n])
  }

  predicate AtMostOneTimer(t: Timers) {
    && (t.prefillHotSince.None? || t.decodeHotSince.None?)
    && (t.prefillHotSince.None? || t.normalSince.None?)
    && (t.decodeHotSince.None? || t.normalSince.None?)
  }

  lemma {:induction false} OneTimerAtATime(s: Settings, inputs: seq<Input>, ts: seq<Timers>, ds: seq<Decision>, n: nat)
    requires IsTrace(s, inputs, ts, ds) && n < |ts|
    ensures AtMostOneTimer(ts[n])
  {
    if n > 0 {
      OneTimerAtATime(s, inputs, ts, ds, n - 1);
      assert (ts[n], ds[n - 1]) == Evaluated(s, ts[n - 1], inputs[n - 1]);
    }
  }

  /** From accepted input j up to before input n every accepted report had this state. */
  ghost predicate UnbrokenFrom(s: Settings, inputs: seq<Input>, j: nat, n: nat, state: PressureState) {
    && j < n <= |inputs| && Accepted(s, inputs[j])
    && forall k :: j <= k < n && Accepted(s, inputs[k]) ==> inputs[k].report.state == state
  }

  /** A set timer dates the start of the unbroken run of its state. */
  lemma {:induction false} TimerDatesRun(s: Settings, inputs: seq<Input>, ts: seq<Timers>, ds: seq<Decision>, n: nat, state: PressureState)
    returns (j: nat)
    requires IsTrace(s, inputs, ts, ds) && n < |ts| && SinceOf(ts[n], state).Some?
    ensures UnbrokenFrom(s, inputs, j, n, state) && inputs[j].now == SinceOf(ts[n], state).value
  {
    assert (ts[n], ds[n - 1]) == Evaluated(s, ts[n - 1], inputs[n - 1]);
    if SinceOf(ts[n - 1], state).Some? && SinceOf(ts[n - 1], state) == SinceOf(ts[n], state) {
      j := TimerDatesRun(s, inputs, ts, ds, n - 1, state);
    } else {
      j := n - 1;
    }
  }

  ghost predicate SustainedAt(s: Settings, inputs: seq<Input>, n: nat)
    requires n < |inputs|
  {
    exists j: nat :: UnbrokenFrom(s, inputs, j, n + 1, inputs[n].report.state) && inputs[n].now - inputs[j].now >= s.sustain
  }

  /** Every action on a named pressure state follows an unbroken run of accepted reports of that state, ending in the
      current one and spanning the sustain window. */
  lemma ActionsAreSustained(s: Settings, inputs: seq<Input>, ts: seq<Timers>, ds: seq<Decision>, n: nat)
    requires IsTrace(s, inputs, ts, ds) && n < |inputs|
    requires ds[n].action != NoAction && inputs[n].report.state != OtherPressure
    ensures SustainedAt(s, inputs, n)
  {
    var state := inputs[n].report.state;
    assert (ts[n + 1], ds[n]) == Evaluated(s, ts[n], inputs[n]);
    assert SustainedSince(s, SinceOf(ts[n + 1], state), inputs[n].now);
    var j := TimerDatesRun(s, inputs, ts, ds, n + 1, state);
  }

  /** An unnamed pressure state with a lone unified worker and room to scale. */
  predicate DecidesUnnamed(s: Settings, i: Input) {
    && Accepted(s, i) && s.allowUp && i.report.state == OtherPressure && LoneUnified(i.workers)
    && i.policy.maxPrefill > 0 && i.policy.maxDecode > 0
  }

  /** There the first such report already decides ScaleBoth, whatever the sustain window. */
  lemma UnnamedStateDecidesAtOnce(s: Settings, i: Input)
    requires DecidesUnnamed(s, i)
    ensures Evaluated(s, FRESH, i).1.action == ScaleBoth
    ensures IsTrace(s, [i], [FRESH, Evaluated(s, FRESH, i).0], [Evaluated(s, FRESH, i).1])
    ensures s.sustain > 0 ==> !SustainedAt(s, [i], 0)
  {
  }

  /** In every run, a decision to act on this input is sustained. */
  ghost predicate ActsOnlySustained(s: Settings, i: Input) {
    forall inputs, ts, ds: seq<Decision>, n: nat :: IsTrace(s, inputs, ts, ds) && n < |inputs| && inputs[n] == i && ds[n].action != NoAction
      ==> SustainedAt(s, inputs, n)
  }

  /** Decisions to act are sustained if and only if the state is named, the unnamed one decides nothing, or there is no
      window to sustain. */
  lemma SustainedExactly(s: Settings, i: Input)
    ensures ActsOnlySustained(s, i) <==> s.sustain <= 0 || !DecidesUnnamed(s, i)
  {
    if s.sustain > 0 && DecidesUnnamed(s, i) {
      UnnamedStateDecidesAtOnce(s, i);
      var inputs := [i];
      assert inputs[0] == i;
    } else {
      hide IsTrace;
      forall inputs: seq<Input>, ts: seq<Timers>, ds: seq<Decision>, n: nat
        | IsTrace(s, inputs, ts, ds) && n < |inputs| && inputs[n] == i && ds[n].action != NoAction
        ensures SustainedAt(s, inputs, n)
      {
        ActionIsSustained(s, inputs, ts, ds, n);
      }
    }
  }

  lemma ActionIsSustained(s: Settings, inputs: seq<Input>, ts: seq<Timers>, ds: seq<Decision>, n: nat)
    requires IsTrace(s, inputs, ts, ds) && n < |inputs| && ds[n].action != NoAction
    requires s.sustain <= 0 || !DecidesUnnamed(s, inputs[n])
    ensures SustainedAt(s, inputs, n)
  {
    if inputs[n].report.state != OtherPressure {
      ActionsAreSustained(s, inputs, ts, ds, n);
    } else {
      assert (ts[n + 1], ds[n]) == Evaluated(s, ts[n], inputs[n]);
      assert UnbrokenFrom(s, inputs, n, n + 1, OtherPressure);
    }
  }

  function Actions(ds: seq<Decision>, n: nat): nat
    requires n <= |ds|
  {
    if n == 0 then 0 else Actions(ds, n - 1) + (if ds[n - 1].action == NoAction then 0 else 1)
  }

  /** The number of the first action among the first n inputs. */
  function FirstAction(ds: seq<Decision>, n: nat): (f: nat)
    requires n <= |ds| && Actions(ds, n) > 0
    ensures f < n && ds[f].action != NoAction && Actions(ds, f) == 0
  {
    if Actions(ds, n - 1) > 0 then FirstAction(ds, n - 1) else n - 1
  }

  /** Only an action moves the date of the last action, and not before the cooldown is over. */
  lemma ActionMovesDate(s: Settings, t: Timers, i: Input)
    ensures var (after, d) := Evaluated(s, t, i);
            if d.action == NoAction then after.lastActionAt == t.lastActionAt
            else after.lastActionAt == Some(i.now) && (t.lastActionAt.Some? ==> i.now - t.lastActionAt.value >= s.cooldown)
  {
    ActionGuards(s, t, i);
    hide Decide;
  }

  lemma OneMoreCooldown(actions: int, cooldown: int)
    ensures actions * cooldown == (actions - 1) * cooldown + cooldown
  {
  }

  lemma {:induction false} LastActionDates(s: Settings, inputs: seq<Input>, ts: seq<Timers>, ds: seq<Decision>, n: nat)
    requires IsTrace(s, inputs, ts, ds) && n < |ts|
    ensures ts[n].lastActionAt.None? <==> Actions(ds, n) == 0
    ensures Actions(ds, n) > 0 ==>
              ts[n].lastActionAt.value - inputs[FirstAction(ds, n)].now >= (Actions(ds, n) - 1) * s.cooldown
  {
    if n > 0 {
      LastActionDates(s, inputs, ts, ds, n - 1);
      hide Evaluated;
      assert (ts[n], ds[n - 1]) == Evaluated(s, ts[n - 1], inputs[n - 1]);
      ActionMovesDate(s, ts[n - 1], inputs[n - 1]);
      OneMoreCooldown(Actions(ds, n - 1), s.cooldown);
    }
  }

  /** N actions of one group take at least (N - 1) cooldowns. */
  lemma ActionsAreSpaced(s: Settings, inputs: seq<Input>, ts: seq<Timers>, ds: seq<Decision>, n: nat)
    requires IsTrace(s, inputs, ts, ds) && n < |inputs| && ds[n].action != NoAction
    ensures Actions(ds, n + 1) > 0
    ensures inputs[n].now - inputs[FirstAction(ds, n + 1)].now >= (Actions(ds, n + 1) - 1) * s.cooldown
  {
    LastActionDates(s, inputs, ts, ds, n + 1);
    assert (ts[n + 1], ds[n]) == Evaluated(s, ts[n], inputs[n]);
  }
}
