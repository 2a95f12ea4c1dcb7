/**
 When a step leaves no better candidate behind.  Advertising can only take feasibility
 away from candidates, so it holds whenever the sequence numbers in use for each source
 lie within half the circle; outside of it the circular comparison can make a candidate
 feasible again after selection.
 */
module Contentment {
  import opened Arithmetic
  import opened Types
  import opened Sorting
  import opened Rules
  import opened Steps
  import opened History
  import opened Soundness
  import opened Progress
  import opened Invariant
  import opened Release
  import opened Rest
  import opened Quiet
  import opened Traces
  import TwoPhase

  /** Advertisements inside the window make no candidate feasible. */
  lemma FeasibleBefore(base: u16, sk: SourceKey, expires: int, x: map<SourceKey, Source>, y: map<SourceKey,
      Source>, p: Prefix, c: Candidate)
    requires sk == SourceKey(p, c.id) && Improves(sk, expires, x, y) && SourceWithin(base, sk, x)
    requires SourceWithin(base, sk, y)
    requires InWindow(base, c.seqno) && Feasible(y, p, c)
    ensures Feasible(x, p, c)
  {
    if c.advertised != INFINITY && sk in x {
      WindowOrder(base, c.Dist(), y[sk].Dist());
      WindowOrder(base, y[sk].Dist(), x[sk].Dist());
      WindowOrder(base, c.Dist(), x[sk].Dist());
    }
  }

  // The states a step passes through: with due timers expired, the event applied,
  // routes adopted, and all timers run.
  datatype Stages = Stages(began: State, applied: State, adopted: State, done: State)

  ghost function StagesOf(st: State, now: int, event: Event): Stages
    requires Validate(st, event).None?
  {
    var a := Apply(Begin(st, now), event);
    Stages(Begin(st, now), a, Adopt(a, Choice(a)), Work(st, now, event))
  }

  lemma StagesAdvance(base: u16, sk: SourceKey, st: State, now: int, event: Event, g: Stages)
    requires Valid(st) && Refusal(st, now, event).None? && Decoded(event) && Validate(st, event).None?
    requires g == StagesOf(st, now, event)
    ensures Advances(base, sk, g.began, g.adopted) && Advances(base, sk, g.adopted, g.done)
    ensures g.began.em.out == map[] && g.began.em.sources == LiveSources(st.em.sources, now)
  {
    hide Valid, Advances, Sound, Grounded, Decoded, AnswerRequests, Adopt, Choice, Timers, BoundedLink;
    hide RoutablePrefix, ValidPrefix, Admitted, Refusal, Aged, Dead, Apply;
    var x := Begin(st, now);
    Unrefused(st, now, event);
    BeginSound(st, now);
    assert Admitted(x, event) by { ValidateAdmits(st, now, event); }
    ApplyAdvances(base, sk, x, event);
    var a := Apply(x, event);
    AdvancesSound(base, sk, x, a);
    AdoptAdvances(base, sk, a);
    AdvancesTransitive(base, sk, x, a, g.adopted);
    AdvancesSound(base, sk, x, g.adopted);
    AnswerRequestsAdvances(base, sk, g.adopted);
    AdvancesSound(base, sk, g.adopted, AnswerRequests(g.adopted));
    TimersAdvances(base, sk, AnswerRequests(g.adopted));
    AdvancesTransitive(base, sk, g.adopted, AnswerRequests(g.adopted), g.done);
  }

  lemma StagesHistory(base: u16, sk: SourceKey, st: State, now: int, event: Event, g: Stages)
    requires Valid(st) && Refusal(st, now, event).None? && Decoded(event) && Validate(st, event).None?
    requires g == StagesOf(st, now, event)
    requires CarriedWithin(base, sk, Packets(g.done)) && SourceWithin(base, sk, st.em.sources)
    ensures SourceWithin(base, sk, g.adopted.em.sources) && SourceWithin(base, sk, g.done.em.sources)
    ensures exists expires :: Improves(sk, expires, g.adopted.em.sources, g.done.em.sources)
  {
    hide Valid, Refusal, Decoded, Validate, Sound, Improves, CoversNew, Packets, StagesOf;
    StagesAdvance(base, sk, st, now, event, g);
    assert g.done.em.out.Keys <= g.done.links.Keys by { QueuesOpen(g.done); }
    forall m ensures Carried(Packets(g.done), m) <==> Emitted(g.done.em.out, m) { PacketsCarry(g.done, m); }
    assert OutWithin(base, sk, g.done.em.out);
    assert OutWithin(base, sk, g.adopted.em.out);
    assert SourceWithin(base, sk, g.began.em.sources) by { hide Evolves; }
    assert Improves(sk, Expiry(g.adopted), g.adopted.em.sources, g.done.em.sources);
  }

  /** From selection to the end of the step candidates, costs and local routes stay. */
  lemma StagesAlike(st: State, now: int, event: Event, g: Stages, k: RouteKey)
    requires Validate(st, event).None? && g == StagesOf(st, now, event)
    ensures MetricAt(g.done, k) == MetricAt(g.applied, k)
    ensures k in g.done.routes ==> k in g.applied.routes && Marked(g.applied.routes[k], g.done.routes[k])
    ensures g.done.local == g.applied.local && g.done.selected == g.adopted.selected
    ensures g.adopted.em.sources == g.applied.em.sources
  {
    hide Apply, Expire, Choice, Adopt, AnswerRequests, Timers, MetricAt, Marked, Cost, BoundedLink;
    hide RoutablePrefix, ValidPrefix, NothingDue;
    AdoptFrame(g.applied, Choice(g.applied));
    AnswerUnanswered(g.adopted);
    TimersRested(AnswerRequests(g.adopted));
    AlikeMetric(AnswerRequests(g.adopted), g.done, k);
    MetricReads(g.applied, AnswerRequests(g.adopted), k);
    if k in g.done.routes {
      assert Marked(AnswerRequests(g.adopted).routes[k], g.done.routes[k]);
    }
  }

  lemma UsableBefore(base: u16, st: State, now: int, event: Event, g: Stages, k: RouteKey)
    requires Valid(st) && Refusal(st, now, event).None? && Decoded(event) && Validate(st, event).None?
    requires g == StagesOf(st, now, event) && Usable(g.done, k)
    requires k in g.done.routes && InWindow(base, g.done.routes[k].seqno)
    requires var sk := SourceKey(k.prefix, g.done.routes[k].id);
             CarriedWithin(base, sk, Packets(g.done)) && SourceWithin(base, sk, st.em.sources)
    ensures Usable(g.applied, k)
  {
    hide Valid, Refusal, Decoded, Validate, MetricAt, Packets, CarriedWithin, StagesOf, Improves;
    hide SourceWithin, InWindow, Feasible;
    var c := g.done.routes[k];
    var sk := SourceKey(k.prefix, c.id);
    StagesAlike(st, now, event, g, k);
    StagesHistory(base, sk, st, now, event, g);
    var expires :| Improves(sk, expires, g.adopted.em.sources, g.done.em.sources);
    FeasibleBefore(base, sk, expires, g.adopted.em.sources, g.done.em.sources, k.prefix, c);
    SameFeasible(g.adopted.em.sources, k.prefix, g.applied.routes[k], c);
  }

  lemma SameFeasible(sources: map<SourceKey, Source>, p: Prefix, c: Candidate, d: Candidate)
    requires Marked(c, d)
    ensures Feasible(sources, p, d) <==> Feasible(sources, p, c)
  {
    hide Better;
  }

  lemma ChosenStays(st: State, now: int, event: Event, g: Stages, k: RouteKey)
    requires Validate(st, event).None? && g == StagesOf(st, now, event) && Usable(g.applied, k)
    ensures Reachable(g.done.selected, k.prefix)
    ensures Preferred(g.done, RouteKey(k.prefix, g.done.selected[k.prefix].link), k)
  {
    hide Validate, Usable, Choice, IsChoice, LoseAll, Announce, SortPrefixes, MetricAt, Apply, Expire;
    hide AnswerRequests, Timers, Work;
    var next := Choice(g.applied);
    ChosenBest(g.applied, next, k);
    AdoptTables(g.applied, next);
    StagesAlike(st, now, event, g, k);
    StagesAlike(st, now, event, g, RouteKey(k.prefix, next[k.prefix].link));
  }

  /**
   The sequence numbers for sk in the history, the packets and the candidates lie in the half
   of the circle at base.
   */
  ghost predicate AllWithin(base: u16, sk: SourceKey, st: State, packets: seq<Datagram>, z: State) {
    && SourceWithin(base, sk, st.em.sources) && CarriedWithin(base, sk, packets)
    && forall k :: k in z.routes && k.prefix == sk.prefix && z.routes[k].id == sk.id ==>
        InWindow(base, z.routes[k].seqno)
  }

  ghost predicate Halved(sk: SourceKey, st: State, packets: seq<Datagram>, z: State) {
    exists base: u16 :: AllWithin(base, sk, st, packets, z)
  }

  /** For every source they lie in some half of the circle. */
  ghost predicate AllWindowed(st: State, packets: seq<Datagram>, z: State) {
    forall sk: SourceKey :: Halved(sk, st, packets, z)
  }

  lemma CandidateContented(st: State, now: int, event: Event, g: Stages, z: State, packets: seq<Datagram>, k: RouteKey)
    requires Valid(st) && Refusal(st, now, event).None? && Decoded(event) && Validate(st, event).None?
    requires g == StagesOf(st, now, event) && packets == Packets(g.done) && AllWindowed(st, packets, z)
    requires z == g.done.(em := z.em, revision := z.revision, pending := z.pending, held := z.held)
    requires z.em == g.done.em.(out := z.em.out)
    requires k in z.routes && Usable(z, k)
    ensures Reachable(z.selected, k.prefix) && Preferred(z, RouteKey(k.prefix, z.selected[k.prefix].link), k)
  {
    hide Valid, Refusal, Decoded, Validate, CarriedWithin, SourceWithin, Packets, Usable, Preferred, InWindow, StagesOf;
    var sk := SourceKey(k.prefix, z.routes[k].id);
    assert Halved(sk, st, packets, z);
    var base: u16 :| AllWithin(base, sk, st, packets, z);
    SameUsable(g.done, z, k);
    UsableBefore(base, st, now, event, g, k);
    ChosenStays(st, now, event, g, k);
    SamePreferred(g.done, z, RouteKey(k.prefix, z.selected[k.prefix].link), k);
  }

  lemma CompletedWork(st: State, now: int, event: Event, y: State, r: Result<Effects>)
    requires Valid(st) && Refusal(st, now, event).None? && Decoded(event) && (y, r) == Step(st, now, event)
    ensures r.Ok? && Validate(st, event).None?
    ensures var w, z := Work(st, now, event), Completed(y);
            && Produced(y, r.value) == Packets(w)
            && z == w.(em := w.em.(out := z.em.out), revision := z.revision, pending := z.pending, held := z.held)
  {
    hide Valid, Refusal, Decoded, Validate, Step, Work, Snapshot, Packets, Produced;
    Unrefused(st, now, event);
    StepProduces(st, now, event, y, r);
    TwoPhase.StepWithholds(st, now, event, y, r);
  }

  /** Then a completed step is content, and so a tick before the deadline does nothing. */
  lemma {:induction false} StepContented(st: State, now: int, event: Event, y: State, r: Result<Effects>)
    requires Valid(st) && Refusal(st, now, event).None? && Decoded(event) && (y, r) == Step(st, now, event)
    requires r.Ok? ==> AllWindowed(st, Produced(y, r.value), Completed(y))
    ensures Contented(Completed(y))
  {
    hide Valid, Refusal, Decoded, Validate, Step, Packets, Produced, Usable, Preferred, AllWindowed, Completed, Work;
    CompletedWork(st, now, event, y, r);
    var z := Completed(y);
    forall k | k in z.routes && Usable(z, k)
      ensures Reachable(z.selected, k.prefix) && Preferred(z, RouteKey(k.prefix, z.selected[k.prefix].link), k)
    {
      CandidateContented(st, now, event, StagesOf(st, now, event), z, Produced(y, r.value), k);
    }
  }

  /** Emptying the queues and committing leave what selection reads alone. */
  lemma SameUsable(x: State, y: State, k: RouteKey)
    requires y == x.(em := x.em.(out := y.em.out), revision := y.revision, pending := y.pending, held := y.held)
    ensures Usable(y, k) <==> Usable(x, k)
  {
    MetricReads(x, y, k);
    hide MetricAt, Better;
  }

  lemma SamePreferred(x: State, y: State, k: RouteKey, j: RouteKey)
    requires y == x.(em := x.em.(out := y.em.out), revision := y.revision, pending := y.pending, held := y.held)
    ensures Preferred(y, k, j) <==> Preferred(x, k, j)
  {
    MetricReads(x, y, k);
    MetricReads(x, y, j);
    hide MetricAt;
  }

  // ----------------------------------------------------------------------- runs

  lemma SameContentment(x: State, y: State)
    requires Contented(x) && y == x.(revision := y.revision, pending := y.pending, held := y.held, stopped := y.stopped)
    ensures Contented(y)
  {
    forall k | k in y.routes && Usable(y, k)
      ensures Reachable(y.selected, k.prefix) && Preferred(y, RouteKey(k.prefix, y.selected[k.prefix].link), k)
    {
      MetricReads(x, y, k);
      assert Usable(x, k) by { hide MetricAt, Feasible; }
      MetricReads(x, y, RouteKey(k.prefix, y.selected[k.prefix].link));
      hide MetricAt, Feasible;
    }
  }

  /** The sequence numbers that step i of a run read, sent and left keep to half the circle, source by source. */
  ghost predicate KeptWindow(t: Trace, i: int)
    requires Took(t, i) && |t.states| == |t.moves| + 1
  {
    AllWindowed(t.states[i], Produced(t.states[i + 1], t.results[i].value), t.states[i + 1])
  }

  /** In a run, a step whose sequence numbers keep to the window leaves no better candidate behind. */
  lemma {:induction false} ContentAfterStep(t: Trace, i: nat)
    requires IsTrace(t) && Took(t, i) && |t.states| == |t.moves| + 1
    ensures KeptWindow(t, i) ==> Contented(t.states[i + 1])
  {
    hide IsTrace, Valid, Step, Refusal, Decoded, AllWindowed, Contented, Produced;
    var x, m, y, r := t.states[i], t.moves[i], t.states[i + 1], t.results[i];
    if KeptWindow(t, i) {
      TookStep(t, i);
      SameWindows(x, Produced(y, r.value), y, Completed(y));
      StepContented(x, m.now, m.event, y, r);
      SameContentment(Completed(y), y);
    }
  }

  lemma SameWindows(st: State, packets: seq<Datagram>, x: State, y: State)
    requires AllWindowed(st, packets, x) && y.routes == x.routes
    ensures AllWindowed(st, packets, y)
  {
    hide SourceWithin, CarriedWithin, InWindow;
    forall sk: SourceKey ensures Halved(sk, st, packets, y) {
      assert Halved(sk, st, packets, x);
      var base: u16 :| AllWithin(base, sk, st, packets, x);
      assert AllWithin(base, sk, st, packets, y);
    }
  }

  // -------------------------------------------------------------------- dozing

  /** Letting the clock run up to the timers ahead changes no preference. */
  lemma DozedContented(st: State, at: int)
    requires Contented(st) && Sleeps(st, at)
    ensures Contented(At(st, at))
  {
    hide Usable, Preferred, Sleeps;
    forall k | k in st.routes && Usable(At(st, at), k)
      ensures Reachable(st.selected, k.prefix)
      ensures Preferred(At(st, at), RouteKey(k.prefix, st.selected[k.prefix].link), k)
    {
      UsableSleeps(st, at, k);
      PreferredSleeps(st, at, RouteKey(k.prefix, st.selected[k.prefix].link), k);
    }
  }

  /** Between the moves i and j there are commits, refusals, and ticks before the timers ahead only. */
  ghost predicate Dozes(t: Trace, i: int, j: int)
    requires |t.states| == |t.moves| + 1
  {
    forall k {:trigger Took(t, k)} :: i <= k < j && Took(t, k) ==>
      t.moves[k].event == Tick && Sleeps(t.states[k], t.moves[k].now)
  }

  lemma MoveContented(t: Trace, i: nat)
    requires IsTrace(t) && i < |t.moves| && |t.states| == |t.moves| + 1
    requires Contented(t.states[i]) && Rested(t.states[i])
    requires Took(t, i) ==> t.moves[i].event == Tick && Sleeps(t.states[i], t.moves[i].now)
    ensures Contented(t.states[i + 1])
  {
    hide IsTrace, Valid, Step, Refusal, Decoded, Contented, Rested, Sleeps;
    var x, y := t.states[i], t.states[i + 1];
    TraceMove(t, i);
    TraceValid(t, i);
    match t.moves[i]
    case StepMove(now, event) =>
      TwoPhase.StepForward(x, now, event, y, t.results[i]);
      if t.results[i].Ok? {
        Unrefused(x, now, event);
        QuietIf(x, now);
        DozedContented(x, now);
      }
    case CommitMove(revision, success) => SameContentment(x, y);
  }

  lemma {:induction false} DozesContented(t: Trace, k: nat, i: nat)
    requires IsTrace(t) && k < i < |t.states| && |t.states| == |t.moves| + 1 && Took(t, k) && Dozes(t, k + 1, i)
    requires KeptWindow(t, k)
    ensures Contented(t.states[i])
    decreases i
  {
    hide IsTrace, KeptWindow, Contented, Rested, Sleeps, Took;
    if i == k + 1 {
      ContentAfterStep(t, k);
    } else {
      DozesContented(t, k, i - 1);
      AlwaysRested(t, k, i - 1);
      MoveContented(t, i - 1);
    }
  }

  /**
   A step whose sequence numbers keep to half the circle can be slept on.  Over every run,
   from such a step on, with commits, refusals and early ticks in between, a tick of an idle
   engine before its deadline emits nothing, changes no route, draws no randomness and
   alters the clock alone.
   */
  lemma {:induction false} QuietUntilDeadline(t: Trace, k: nat, i: nat, at: int, deadline: Option<int>)
    requires IsTrace(t) && |t.states| == |t.moves| + 1 && |t.results| == |t.moves|
    requires k < i < |t.moves| && Took(t, k) && Dozes(t, k + 1, i) && Idle(t, i)
    requires t.moves[i] == StepMove(at, Tick) && t.states[i].now <= at <= MAX_DURATION - 48 * HOUR
    requires IsNextDeadline(t.states[i], deadline) && (deadline.Some? ==> at < deadline.value)
    ensures KeptWindow(t, k) ==>
              t.states[i + 1] == t.states[i].(now := at) && t.results[i] == Ok(NO_EFFECTS)
  {
    hide IsTrace, KeptWindow, Contented, Idle, IsNextDeadline, Dozes;
    if KeptWindow(t, k) {
      DozesContented(t, k, i);
      SleepUntilDeadline(t, i, at, deadline);
    }
  }
}
