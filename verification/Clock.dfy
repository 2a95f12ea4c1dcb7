/** Time arithmetic stays within 64-bit nanoseconds: the guard of Step leaves room for every deadline. */
module Clock {
  import opened Arithmetic
  import opened Types
  import opened Steps
  import opened Soundness
  import opened Selection
  import opened Invariant
  import opened Traces
  import Release
  import TwoPhase

  const MIN_DURATION: int := -0x8000_0000_0000_0000

  /** The clock as the time guard of Step leaves it. */
  predicate Clocked(st: State) { 0 <= st.now <= MAX_DURATION - 48 * HOUR }

  /** A stored instant lies no more than a day ahead, and is a 64-bit duration. */
  predicate Fits(now: int, d: int) { d <= now + DAY && MIN_DURATION <= d <= MAX_DURATION }

  lemma LinkFits(now: int, lastLink: LinkId, id: LinkId, l: LinkState, d: int)
    requires 0 <= now <= MAX_DURATION - 48 * HOUR && LinkOk(now, lastLink, id, l) && d in LinkTimes(l)
    ensures Fits(now, d)
  {
  }

  lemma CandidateFits(cfg: LiveConfig, now: int, k: RouteKey, c: Candidate, d: int)
    requires 0 <= now <= MAX_DURATION - 48 * HOUR && CandidateOk(cfg, now, k, c) && d in CandidateTimes(c)
    ensures Fits(now, d)
  {
    hide RoutablePrefix;
  }

  lemma PendingFits(now: int, q: Pending, d: int)
    requires 0 <= now <= MAX_DURATION - 48 * HOUR && PendingOk(now, q) && d in PendingTimes(q)
    ensures Fits(now, d)
  {
  }

  /** Every timer of a valid engine fits. */
  lemma {:induction false} TimerFits(st: State, d: int)
    requires Valid(st) && Clocked(st) && Timer(st, d)
    ensures Fits(st.now, d)
  {
    hide SelfFeasible, Anchored, LinkTimes, CandidateTimes, PendingTimes, LinkOk, CandidateOk, PendingOk;
    hide ValidPrefix, RouteOk, Room;
    if id :| id in st.links && d in LinkTimes(st.links[id]) {
      LinkFits(st.now, st.lastLink, id, st.links[id], d);
    } else if k :| k in st.routes && d in CandidateTimes(st.routes[k]) {
      CandidateFits(st.cfg, st.now, k, st.routes[k], d);
    } else if sk :| sk in st.requests && d in PendingTimes(st.requests[sk]) {
      PendingFits(st.now, st.requests[sk], d);
    } else if sk :| sk in st.em.sources && d == st.em.sources[sk].expires {
      assert SourceOk(st.cfg, st.now, sk, st.em.sources[sk]);
    }
  }

  lemma {:induction false} TraceClocked(t: Trace, i: nat)
    requires IsTrace(t) && i < |t.states|
    ensures Clocked(t.states[i])
  {
    hide Opens, Decoded, Step, Commit, Valid, Refusal, IsTrace;
    TraceSize(t);
    if i == 0 {
      TraceOpens(t);
      OpensFacts(t.states[0]);
    } else {
      TraceClocked(t, i - 1);
      TraceMove(t, i - 1);
      TraceValid(t, i - 1);
      match t.moves[i - 1]
      case StepMove(now, event) =>
        TwoPhase.StepForward(t.states[i - 1], now, event, t.states[i], t.results[i - 1]);
        if t.results[i - 1].Ok? {
          Release.Unrefused(t.states[i - 1], now, event);
        }
      case CommitMove(revision, success) => TwoPhase.CommitForward(t.states[i - 1], revision, success);
    }
  }

  /** In every state of every run the clock and all timers fit, and no timer is more than a day ahead. */
  lemma {:induction false} TimersFit(t: Trace, i: nat, d: int)
    requires IsTrace(t) && i < |t.states|
    ensures Clocked(t.states[i]) && (Timer(t.states[i], d) ==> Fits(t.states[i].now, d))
  {
    hide IsTrace, Valid, Timer;
    TraceClocked(t, i);
    TraceValid(t, i);
    if Timer(t.states[i], d) {
      TimerFits(t.states[i], d);
    }
  }

  /** So does every hold computed from a wire interval or a configured one. */
  lemma HoldFits(interval: u16, cfg: LiveConfig)
    ensures 0 <= WireTime(interval) * 7 <= MAX_DURATION && Hold(WireTime(interval)) <= DAY
    ensures 0 < cfg.updateInterval * 7 <= MAX_DURATION && Hold(cfg.updateInterval) <= DAY
  {
  }
}
