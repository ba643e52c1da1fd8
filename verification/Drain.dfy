/** internal/proxy/server.go and cmd/scheduler/main.go: draining a worker while requests, worker syncs and polls
    interleave. Every step is one critical section. */
module Drain {
  import opened Collections
  import opened ControlPlane
  import opened Router

  // ---------- The proxy's request counters ----------

  function Inflight(m: Stats, id: string): int {
    if id in m then m[id].inflight else 0
  }

  function Begun(m: Stats, id: string): Stats {
    if id in m then m[id := m[id].(inflight := m[id].inflight + 1)] else m[id := WorkerStat(id, 1, 0.0, 0.0)]
  }

  function Ended(m: Stats, id: string): Stats {
    if id in m && m[id].inflight > 0 then m[id := m[id].(inflight := m[id].inflight - 1)] else m
  }

  function BegunAll(m: Stats, ids: seq<string>, n: nat): Stats
    requires n <= |ids|
  {
    if n == 0 then m else Begun(BegunAll(m, ids, n - 1), ids[n - 1])
  }

  function EndedAll(m: Stats, ids: seq<string>, n: nat): Stats
    requires n <= |ids|
  {
    if n == 0 then m else Ended(EndedAll(m, ids, n - 1), ids[n - 1])
  }

  datatype Phase = PrefillPhase | DecodePhase

  /** An exponentially weighted average with weight 0.2; zero means "no value yet". */
  function Smoothed(before: real, sample: real): real {
    if before == 0.0 then sample else 0.2 * sample + 0.8 * before
  }

  function Recorded(m: Stats, id: string, phase: Phase, duration: real): Stats {
    var s := if id in m then m[id] else WorkerStat(id, 0, 0.0, 0.0);
    match phase
    case PrefillPhase => m[id := s.(ttft := Smoothed(s.ttft, duration))]
    case DecodePhase => m[id := s.(itl := Smoothed(s.itl, duration))]
  }

  /** The average stays between the old value and the sample. */
  lemma SmoothedStaysBetween(before: real, sample: real)
    requires before > 0.0 && sample >= 0.0
    ensures before <= sample ==> before <= Smoothed(before, sample) <= sample
    ensures sample <= before ==> sample <= Smoothed(before, sample) <= before
  {
  }

  /** A prefill sample moves the first-token latency and a decode sample the latency between tokens, a fifth of the way to
      the sample; a first sample is taken as it is, and the other figures stay. */
  lemma SamplesAreApart(m: Stats, id: string, duration: real)
    ensures var s := if id in m then m[id] else WorkerStat(id, 0, 0.0, 0.0);
            var p, d := Recorded(m, id, PrefillPhase, duration)[id], Recorded(m, id, DecodePhase, duration)[id];
            && p.itl == s.itl && d.ttft == s.ttft && p.inflight == d.inflight == s.inflight
            && (if s.ttft == 0.0 then p.ttft == duration else 5.0 * (p.ttft - s.ttft) == duration - s.ttft)
            && (if s.itl == 0.0 then d.itl == duration else 5.0 * (d.itl - s.itl) == duration - s.itl)
    ensures forall phase, other :: other != id && other in m ==>
              other in Recorded(m, id, phase, duration) && Recorded(m, id, phase, duration)[other] == m[other]
  {
  }

  class Proxy {
    var workerStats: Stats

    constructor ()
      ensures workerStats == map[]
    {
      workerStats := map[];
    }

    method BeginWorkerRequest(id: string)
      modifies this
      ensures workerStats == Begun(old(workerStats), id)
    {
      if id in workerStats {
        workerStats := workerStats[id := workerStats[id].(inflight := workerStats[id].inflight + 1)];
        return;
      }
      workerStats := workerStats[id := WorkerStat(id, 1, 0.0, 0.0)];
    }

    method EndWorkerRequest(id: string)
      modifies this
      ensures workerStats == Ended(old(workerStats), id)
    {
      if id in workerStats {
        if workerStats[id].inflight <= 0 {
          return;
        }
        workerStats := workerStats[id := workerStats[id].(inflight := workerStats[id].inflight - 1)];
      }
    }

    /** The locked section at the start of forwarding: every chosen worker is counted. */
    method BeginAll(ids: seq<string>)
      modifies this
      ensures workerStats == BegunAll(old(workerStats), ids, |ids|)
    {
      for i := 0 to |ids|
        invariant workerStats == BegunAll(old(workerStats), ids, i)
      {
        BeginWorkerRequest(ids[i]);
      }
    }

    /** The deferred locked section at the end of forwarding. */
    method EndAll(ids: seq<string>)
      modifies this
      ensures workerStats == EndedAll(old(workerStats), ids, |ids|)
    {
      for i := 0 to |ids|
        invariant workerStats == EndedAll(old(workerStats), ids, i)
      {
        EndWorkerRequest(ids[i]);
      }
    }

    method RecordWorkerPhase(id: string, phase: Phase, duration: real)
      modifies this
      ensures workerStats == Recorded(old(workerStats), id, phase, duration)
    {
      if id !in workerStats {
        workerStats := workerStats[id := WorkerStat(id, 0, 0.0, 0.0)];
      }
      var s := workerStats[id];
      match phase {
        case PrefillPhase =>
          s := s.(ttft := if s.ttft == 0.0 then duration else 0.2 * duration + 0.8 * s.ttft);
        case DecodePhase =>
          s := s.(itl := if s.itl == 0.0 then duration else 0.2 * duration + 0.8 * s.itl);
      }
      workerStats := workerStats[id := s];
    }
  }

  // ---------- Polling ----------

  datatype Poll = PollFailed | PollAnswer(stats: seq<WorkerStat>)

  datatype DrainResult = Drained(after: nat) | FetchError(at: nat) | TimedOut

  /** The answer lists the worker (first entry counts) with requests in flight. */
  predicate ShowsBusy(stats: seq<WorkerStat>, id: string) {
    exists i :: 0 <= i < |stats| && stats[i].id == id && stats[i].inflight != 0 && forall j :: 0 <= j < i ==> stats[j].id != id
  }

  /** The first n polls all show the worker busy. */
  predicate AllBusy(polls: seq<Poll>, n: nat, id: string)
    requires n <= |polls|
  {
    forall k :: 0 <= k < n ==> polls[k].PollAnswer? && ShowsBusy(polls[k].stats, id)
  }

  /** polls are the answers until the timeout. The worker counts as drained at the first answer that does not show it
      busy; a worker that is not listed was never counted. */
  method WaitForWorkerInflightZero(id: string, polls: seq<Poll>) returns (r: DrainResult)
    ensures r.Drained? ==> r.after < |polls| && polls[r.after].PollAnswer? && !ShowsBusy(polls[r.after].stats, id)
                           && AllBusy(polls, r.after, id)
    ensures r.FetchError? ==> r.at < |polls| && polls[r.at].PollFailed? && AllBusy(polls, r.at, id)
    ensures r.TimedOut? ==> AllBusy(polls, |polls|, id)
  {
    for n := 0 to |polls|
      invariant AllBusy(polls, n, id)
    {
      if polls[n].PollFailed? {
        return FetchError(n);
      }
      var stats := polls[n].stats;
      var i := 0;
      while i < |stats| && stats[i].id != id
        invariant 0 <= i <= |stats|
        invariant forall j :: 0 <= j < i ==> stats[j].id != id
      {
        i := i + 1;
      }
      if i == |stats| || stats[i].inflight == 0 {
        return Drained(n);
      }
    }
    return TimedOut;
  }
}
