/**
 No silent fallback (section 3.5.4 of RFC 8966): a prefix that was reachable stays in the
 forwarding table, reachable or marked unreachable, until its hold time has run out.
 */
module Holddown {
  import opened Arithmetic
  import opened Types
  import opened Sorting
  import opened Rules
  import opened Steps
  import opened Soundness
  import opened Progress
  import opened Invariant
  import opened Rest
  import Quiet
  import Release
  import opened Traces
  import TwoPhase
  import Recovery

  /** p is reachable, or suppressed until the given time at least. */
  predicate Secured(st: State, p: Prefix, until: int) {
    Reachable(st.selected, p) || (p in st.drops && st.drops[p] >= until)
  }

  /** The hold is not over, and no longer than a fresh one. */
  predicate Holding(st: State, until: int) { st.now < until <= st.now + Hold(st.cfg.updateInterval) }

  // ------------------------------------------------------------------ selection

  lemma {:induction false} LoseAllDrops(st: State, next: map<Prefix, Route>, ps: seq<Prefix>, p: Prefix)
    ensures var d := LoseAll(st, next, ps).drops;
            if p in ps && Lost(st, next, p) then p in d && d[p] == st.now + Hold(st.cfg.updateInterval)
            else (p in d <==> p in st.drops) && (p in d ==> d[p] == st.drops[p])
  {
    hide Lose, Lost;
    if ps != [] {
      var n := |ps| - 1;
      var x := LoseAll(st, next, ps[..n]);
      LoseAllDrops(st, next, ps[..n], p);
      LoseAllFrame(st, next, ps[..n]);
      LoseDrops(x, next, ps[n]);
      SameLost(st, x, next, ps[n]);
      assert ps == ps[..n] + [ps[n]];
    }
  }

  lemma SameLost(x: State, y: State, next: map<Prefix, Route>, p: Prefix)
    requires y.selected == x.selected
    ensures Lost(y, next, p) <==> Lost(x, next, p)
  {
  }

  lemma LoseDrops(st: State, next: map<Prefix, Route>, p: Prefix)
    ensures Lose(st, next, p).drops
         == if Lost(st, next, p) then st.drops[p := st.now + Hold(st.cfg.updateInterval)] else st.drops
  {
    hide Lost, LossTargets, QueueAll, AtLeast, SortLinks, ScheduleTrigger;
  }

  lemma SelectSecured(st: State, p: Prefix, until: int)
    requires Holding(st, until) && (Secured(st, p, until) || p in st.local)
    ensures Secured(SelectRoutes(st), p, until)
  {
    hide Choice, IsChoice, LoseAll, Announce, Answer, Unsettled;
    var next := Choice(st);
    var y := SelectRoutes(st);
    if p in next {
      ChoiceStands(st, next, p);
      ReachableNext(st, next, p);
    } else {
      LocalsChosen(st, next);
      LoseAllDrops(st, next, SortPrefixes(st.selected.Keys), p);
      LoseAllFrame(st, next, SortPrefixes(st.selected.Keys));
    }
  }

  lemma ReachableNext(st: State, next: map<Prefix, Route>, p: Prefix)
    requires p in next && !next[p].unreachable
    ensures Reachable(Adopt(st, next).selected, p)
  {
    hide LoseAll, Announce, SortPrefixes, LiveDrops, WithDrops;
    AdoptTables(st, next);
    assert p !in Adopt(st, next).drops;
    var drops := Adopt(st, next).drops;
    assert WithDrops(next, drops)[p] == next[p] by { hide Adopt; Undropped(next, drops, p); }
  }

  lemma Undropped(next: map<Prefix, Route>, drops: map<Prefix, int>, p: Prefix)
    requires p in next && p !in drops
    ensures p in WithDrops(next, drops) && WithDrops(next, drops)[p] == next[p]
  {
  }

  // -------------------------------------------------------------------- packets

  /** x and y agree on clock, configuration and local routes. */
  ghost predicate Abreast(x: State, y: State) { y.now == x.now && y.cfg == x.cfg && y.local == x.local }

  lemma RenewSecured(st: State, from: LinkId, q: Prefix, p: Prefix, until: int)
    requires Holding(st, until) && Secured(st, p, until)
    ensures Secured(Renew(st, from, q), p, until) && Abreast(st, Renew(st, from, q))
  {
    hide SelectRoutes, Advertise;
    SelectSecured(st.(seqno := NextSeqno(st.seqno)), p, until);
    SelectRoutesFrame(st.(seqno := NextSeqno(st.seqno)));
  }

  lemma SeqRequestSecured(st: State, from: LinkId, m: Message, p: Prefix, until: int)
    requires m.SeqRequest? && Holding(st, until) && Secured(st, p, until)
    ensures Secured(ReceiveSeqRequest(st, from, m), p, until) && Abreast(st, ReceiveSeqRequest(st, from, m))
  {
    hide Renew, Advertise, Forward, AtLeast;
    RenewSecured(st, from, m.prefix, p, until);
    ForwardFrame(st, from, m);
  }

  /** Whatever selection did not change keeps the prefix secured. */
  lemma SameSecured(x: State, y: State, p: Prefix, until: int)
    requires Secured(x, p, until) && y.selected == x.selected && y.drops == x.drops
    ensures Secured(y, p, until)
  {
  }

  lemma PlainSecured(st: State, id: LinkId, m: Message, y: State, p: Prefix, until: int)
    requires id in st.links && !m.SeqRequest? && Secured(st, p, until) && y == ReceiveMessage(st, id, m)
    ensures Secured(y, p, until) && Abreast(st, y)
  {
    hide ReceiveMessage, Secured, BoundedConfig, BoundedLink;
    MessageFrame(st, id, m);
    SameSecured(st, y, p, until);
  }

  lemma SeqRequestHandled(st: State, id: LinkId, m: Message)
    requires id in st.links && m.SeqRequest?
    ensures ReceiveMessage(st, id, m) == ReceiveSeqRequest(st, id, m)
  {
    hide ReceiveSeqRequest, BoundedConfig, BoundedLink;
  }

  lemma MessageSecured(st: State, id: LinkId, m: Message, p: Prefix, until: int)
    requires id in st.links && Holding(st, until) && Secured(st, p, until)
    ensures Secured(ReceiveMessage(st, id, m), p, until) && Abreast(st, ReceiveMessage(st, id, m))
  {
    hide ReceiveMessage, ReceiveSeqRequest, Secured, Abreast, BoundedConfig, BoundedLink;
    if m.SeqRequest? {
      SeqRequestHandled(st, id, m);
      SeqRequestSecured(st, id, m, p, until);
    } else {
      PlainSecured(st, id, m, ReceiveMessage(st, id, m), p, until);
    }
  }

  lemma OneSecured(st: State, id: LinkId, m: Message, p: Prefix, until: int)
    requires Holding(st, until) && Secured(st, p, until)
    ensures Secured(ReceiveOne(st, id, m), p, until) && Abreast(st, ReceiveOne(st, id, m))
  {
    hide SelectRoutes, ReceiveMessage, Secured;
    SelectSecured(st, p, until);
    SelectRoutesFrame(st);
    var x := if Asks(m) then SelectRoutes(st) else st;
    if id in x.links {
      MessageSecured(x, id, m, p, until);
    }
  }

  lemma {:induction false} ReceiveAllSecured(st: State, id: LinkId, ms: seq<Message>, p: Prefix, until: int)
    requires Holding(st, until) && Secured(st, p, until)
    ensures Secured(ReceiveAll(st, id, ms), p, until) && Abreast(st, ReceiveAll(st, id, ms))
  {
    hide ReceiveOne, Secured;
    if ms != [] {
      var n := |ms| - 1;
      ReceiveAllSecured(st, id, ms[..n], p, until);
      OneSecured(ReceiveAll(st, id, ms[..n]), id, ms[n], p, until);
    }
  }

  lemma ApplySecured(st: State, event: Event, p: Prefix, until: int)
    requires event.AddLink? ==> BoundedLink(event.link)
    requires event.SetCost? ==> event.cost != 0
    requires Holding(st, until) && Secured(st, p, until)
    ensures var y := Apply(st, event);
            y.now == st.now && y.cfg == st.cfg && (Secured(y, p, until) || p in y.local)
  {
    hide ReceiveAll, BoundedLink, Queue, NewLink, ClosedRoutes;
    if event.Receive? && event.packet.decoded.Some? {
      ReceiveAllSecured(st, event.id, event.packet.decoded.value, p, until);
    }
  }

  // ---------------------------------------------------------------------- steps

  lemma WorkSecured(st: State, now: int, event: Event, p: Prefix, until: int)
    requires Validate(st, event).None? && Secured(st, p, until) && now < until <= now + Hold(st.cfg.updateInterval)
    ensures Secured(Work(st, now, event), p, until)
  {
    hide Apply, SelectRoutes, Timers, AgedRoutes, LiveSources, LiveRequests, Validate;
    ValidateAdmits(st, now, event);
    var x := Expire(st.(now := now));
    var a := Apply(x, event);
    ApplySecured(x, event, p, until);
    SelectSecured(a, p, until);
    TimersFrame(SelectRoutes(a));
  }

  /**
   A prefix that is reachable, or suppressed until some time, stays so through every step
   before that time, and is in the forwarding table the step leaves.
   */
  lemma {:induction false} StepSecured(st: State, now: int, event: Event, y: State, r: Result<Effects>,
      p: Prefix, until: int)
    requires Valid(st) && Refusal(st, now, event).None? && Decoded(event) && (y, r) == Step(st, now, event)
    requires Secured(st, p, until) && now < until <= now + Hold(st.cfg.updateInterval)
    ensures Secured(y, p, until) && p in y.selected
  {
    hide Valid, Refusal, Decoded, Validate, Step, Work, Snapshot, Packets, Secured;
    Release.Unrefused(st, now, event);
    Release.StepProduces(st, now, event, y, r);
    WorkSecured(st, now, event, p, until);
    WorkRested(st, now, event);
    SecuredSelected(Work(st, now, event), y, p, until);
  }

  lemma SecuredSelected(w: State, y: State, p: Prefix, until: int)
    requires Rested(w) && Secured(w, p, until) && y.selected == w.selected && y.drops == w.drops
    ensures Secured(y, p, until) && p in y.selected
  {
    hide Live, NothingDue, Unanswered, Standing;
  }

  /** A reachable prefix that a step does not leave reachable is suppressed for a full hold. */
  lemma {:induction false} LossHolds(st: State, now: int, event: Event, y: State, r: Result<Effects>, p: Prefix)
    requires Valid(st) && Refusal(st, now, event).None? && Decoded(event) && (y, r) == Step(st, now, event)
    requires Reachable(st.selected, p)
    ensures Secured(y, p, now + Hold(st.cfg.updateInterval)) && p in y.selected
  {
    hide Valid, Refusal, Decoded, Step;
    Recovery.UpdateHold(st.cfg);
    StepSecured(st, now, event, y, r, p, now + Hold(st.cfg.updateInterval));
  }

  lemma CommitSecured(st: State, revision: nat, success: bool, p: Prefix, until: int)
    requires Secured(st, p, until)
    ensures Secured(Commit(st, revision, success).0, p, until)
  {
  }

  // ----------------------------------------------------------------------- runs

  lemma StepInputSecured(st: State, now: int, event: Event, p: Prefix, until: int)
    requires Valid(st) && Decoded(event) && Secured(st, p, until) && until <= st.now + Hold(st.cfg.updateInterval)
    requires Step(st, now, event).0.now < until
    ensures Secured(Step(st, now, event).0, p, until)
    ensures p in st.selected ==> p in Step(st, now, event).0.selected
  {
    hide Valid, Decoded, Step, Refusal, Secured;
    var (y, r) := Step(st, now, event);
    TwoPhase.StepForward(st, now, event, y, r);
    if r.Ok? {
      StepSecured(st, now, event, y, r, p, until);
    }
  }

  /** One move of a trace keeps a prefix secured that long, and in the forwarding table. */
  lemma MoveSecured(t: Trace, i: nat, p: Prefix, until: int)
    requires IsTrace(t) && i < |t.moves|
    requires Secured(t.states[i], p, until)
    requires t.states[i + 1].now < until <= t.states[i].now + Hold(t.states[i].cfg.updateInterval)
    ensures Secured(t.states[i + 1], p, until) && (p in t.states[i].selected ==> p in t.states[i + 1].selected)
  {
    hide Valid, Decoded, Step, Commit, Secured, IsTrace;
    TraceMove(t, i);
    TraceValid(t, i);
    match t.moves[i]
    case StepMove(now, event) => StepInputSecured(t.states[i], now, event, p, until);
    case CommitMove(revision, success) =>
      CommitSecured(t.states[i], revision, success, p, until);
      TwoPhase.CommitForward(t.states[i], revision, success);
  }

  lemma {:induction false} TraceSecured(t: Trace, i: nat, j: nat, p: Prefix, until: int)
    requires IsTrace(t) && i <= j < |t.states|
    requires Secured(t.states[i], p, until)
    requires t.states[j].now < until <= t.states[i].now + Hold(t.states[i].cfg.updateInterval)
    ensures Secured(t.states[j], p, until) && (p in t.states[i].selected ==> p in t.states[j].selected)
    decreases j
  {
    hide Secured, IsTrace;
    if i < j {
      TraceSize(t);
      TraceForward(t, i, j - 1);
      TraceForward(t, j - 1, j);
      TraceSecured(t, i, j - 1, p, until);
      MoveSecured(t, j - 1, p, until);
    }
  }

  /** After a move that may have lost the route of p. */
  lemma LossSecured(t: Trace, i: nat, p: Prefix)
    requires IsTrace(t) && i < |t.moves| && Reachable(t.states[i].selected, p)
    ensures Secured(t.states[i + 1], p, t.states[i + 1].now + Hold(t.states[i].cfg.updateInterval))
    ensures p in t.states[i + 1].selected
  {
    hide Valid, Decoded, Step, Commit, IsTrace;
    TraceMove(t, i);
    TraceValid(t, i);
    match t.moves[i]
    case StepMove(now, event) =>
      TwoPhase.StepForward(t.states[i], now, event, t.states[i + 1], t.results[i]);
      if t.results[i].Ok? {
        LossHolds(t.states[i], now, event, t.states[i + 1], t.results[i], p);
      }
    case CommitMove(revision, success) => TwoPhase.CommitForward(t.states[i], revision, success);
  }

  /**
   Over every run, a prefix that is reachable in one state stays in the forwarding table,
   reachable or marked unreachable, until a full hold after the next move.
   */
  lemma {:induction false} NoSilentFallback(t: Trace, i: nat, j: nat, p: Prefix)
    requires IsTrace(t) && i < j < |t.states|
    ensures Reachable(t.states[i].selected, p) && p !in t.states[j].selected ==>
              t.states[j].now >= t.states[i + 1].now + Hold(t.states[i].cfg.updateInterval)
  {
    hide IsTrace, Secured;
    TraceSize(t);
    if Reachable(t.states[i].selected, p)
        && t.states[j].now < t.states[i + 1].now + Hold(t.states[i].cfg.updateInterval) {
      LossSecured(t, i, p);
      TraceForward(t, i, i + 1);
      TraceSecured(t, i + 1, j, p, t.states[i + 1].now + Hold(t.states[i].cfg.updateInterval));
    }
  }

  /** A restart suppresses every prefix that was forwarded or suppressed, for what was left of its hold at least. */
  lemma RestoreSecured(st: State, c: Checkpoint, y: State, p: Prefix)
    requires Valid(st) && IsCheckpoint(st, c) && Restore(st.cfg, c) == Ok(y)
    requires p in st.selected || p in st.drops
    ensures Secured(y, p, y.now + Hold(st.cfg.updateInterval))
    ensures p in st.drops ==> Secured(y, p, y.now + st.drops[p] - st.now)
  {
    hide Valid, IsCheckpoint, Restore;
    Recovery.RestoreKeeps(st, c, y);
  }

  lemma RestoredDrop(c: Config, saved: Checkpoint, st: State, p: Prefix)
    requires Restore(c, saved) == Ok(st) && p in saved.drops
    ensures p in st.drops && st.drops[p] >= Hold(st.cfg.updateInterval)
  {
    hide BoundedConfig, Defaulted, RestorableHistory, RestorableDrops, RestoredSources;
  }

  /**
   No silent fallback across a restart.  Over every run of a restored engine each prefix its
   checkpoint names, forwarded or suppressed before the crash, is in the forwarding table
   from the first step on, reachable or unreachable, until a full hold after the restart.
   */
  lemma {:induction false} RestartHolds(t: Trace, c: Config, saved: Checkpoint, k: nat, i: nat, p: Prefix)
    requires IsTrace(t) && k < i < |t.states| && Took(t, k)
    requires Restore(c, saved) == Ok(t.states[0]) && p in saved.drops
    ensures p !in t.states[i].selected ==> t.states[i].now >= Hold(t.states[0].cfg.updateInterval)
  {
    hide IsTrace, Opens, Restore, Took, Rested, Valid;
    TraceOpens(t);
    OpensFacts(t.states[0]);
    RestoredDrop(c, saved, t.states[0], p);
    var until := Hold(t.states[0].cfg.updateInterval);
    if t.states[i].now < until {
      TraceSecured(t, 0, i, p, until);
      Quiet.AlwaysRested(t, k, i);
      SecuredSelected(t.states[i], t.states[i], p, until);
    }
  }
}
