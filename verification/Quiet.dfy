/**
 NextDeadline is exact enough to sleep on: until the deadline a tick does nothing but
 move the clock, exactly when the routes selected are still the best there are.
 */
module Quiet {
  import opened Arithmetic
  import opened Types
  import opened Sorting
  import opened Rules
  import opened Steps
  import opened Soundness
  import opened Selection
  import opened Invariant
  import opened Rest
  import opened Traces
  import TwoPhase

  /** No usable candidate beats the route selected for its prefix. */
  predicate Contented(st: State) {
    forall k :: k in st.routes && Usable(st, k) ==>
      Reachable(st.selected, k.prefix) && Preferred(st, RouteKey(k.prefix, st.selected[k.prefix].link), k)
  }

  /** A timer still ahead of the clock is still ahead of any instant before the deadline. */
  lemma Ahead(st: State, deadline: Option<int>, t: int, d: int)
    requires st.pending == 0 && !st.stopped && !TriggerDue(st) && IsNextDeadline(st, deadline)
    requires deadline.Some? ==> t < deadline.value
    requires Timer(st, d) && d > st.now
    ensures d > t
  {
    hide Timer, TriggerDue;
  }

  /** Everything that is ahead of the clock is ahead of t. */
  ghost predicate Sleeps(st: State, t: int) {
    st.now <= t && forall d :: Timer(st, d) && d > st.now ==> d > t
  }

  lemma SleepsBefore(st: State, deadline: Option<int>, t: int)
    requires st.pending == 0 && !st.stopped && !TriggerDue(st) && IsNextDeadline(st, deadline)
    requires st.now <= t && (deadline.Some? ==> t < deadline.value)
    ensures Sleeps(st, t)
  {
    hide Timer, TriggerDue, IsNextDeadline;
    forall d | Timer(st, d) && d > st.now ensures d > t {
      Ahead(st, deadline, t, d);
    }
  }

  function At(st: State, t: int): State { st.(now := t) }

  // --------------------------------------------------------------------- expiry

  lemma SourceSleeps(st: State, t: int, sk: SourceKey)
    requires Sleeps(st, t) && sk in st.em.sources && st.em.sources[sk].expires > st.now
    ensures st.em.sources[sk].expires > t
  {
    hide LinkTimes, CandidateTimes, PendingTimes;
    assert Timer(st, st.em.sources[sk].expires);
  }

  lemma RouteSleeps(st: State, t: int, k: RouteKey)
    requires Sleeps(st, t) && k in st.routes && st.routes[k].expires > st.now
    ensures st.routes[k].expires > t
  {
    hide LinkTimes, PendingTimes;
    assert st.routes[k].expires in CandidateTimes(st.routes[k]);
    assert Timer(st, st.routes[k].expires);
  }

  lemma RequestSleeps(st: State, t: int, sk: SourceKey)
    requires Sleeps(st, t) && sk in st.requests && st.requests[sk].expires > st.now
    ensures st.requests[sk].expires > t
  {
    hide LinkTimes, CandidateTimes;
    assert st.requests[sk].expires in PendingTimes(st.requests[sk]);
    assert Timer(st, st.requests[sk].expires);
  }

  lemma DropSleeps(st: State, t: int, p: Prefix)
    requires Sleeps(st, t) && p in st.drops && st.drops[p] > st.now
    ensures st.drops[p] > t
  {
    hide LinkTimes, CandidateTimes, PendingTimes;
    assert Timer(st, st.drops[p]);
  }

  lemma LinkSleeps(st: State, t: int, id: LinkId, d: int)
    requires Sleeps(st, t) && id in st.links && d in LinkTimes(st.links[id])
    ensures d > t <==> d > st.now
  {
    hide LinkTimes, CandidateTimes, PendingTimes;
    assert Timer(st, d);
  }

  lemma ExpireQuiet(st: State, t: int)
    requires Live(st) && Sleeps(st, t)
    ensures Expire(At(st, t)) == At(st, t)
  {
    hide Sleeps;
    var x := At(st, t);
    forall sk | sk in st.em.sources ensures st.em.sources[sk].expires > t { SourceSleeps(st, t, sk); }
    forall k | k in st.routes ensures st.routes[k].expires > t { RouteSleeps(st, t, k); }
    forall sk | sk in st.requests ensures st.requests[sk].expires > t { RequestSleeps(st, t, sk); }
    assert AgedRoutes(x.routes, t) == x.routes;
    assert LiveSources(x.em.sources, t) == x.em.sources;
    assert LiveRequests(x.requests, t) == x.requests;
  }

  // ------------------------------------------------------------------ selection

  lemma CostSleeps(st: State, t: int, id: LinkId)
    requires Sleeps(st, t)
    ensures Cost(At(st, t), id) == Cost(st, id)
  {
    hide Sleeps;
    if id in st.links {
      var l := st.links[id];
      LinkSleeps(st, t, id, l.ihuExpires);
      LinkSleeps(st, t, id, l.multicast.expires);
      LinkSleeps(st, t, id, l.unicast.expires);
    }
  }

  lemma MetricSleeps(st: State, t: int, k: RouteKey)
    requires Sleeps(st, t)
    ensures MetricAt(At(st, t), k) == MetricAt(st, k)
  {
    hide Sleeps, Cost, Accepts;
    CostSleeps(st, t, k.link);
  }

  lemma UsableSleeps(st: State, t: int, k: RouteKey)
    requires Sleeps(st, t)
    ensures Usable(At(st, t), k) <==> Usable(st, k)
  {
    hide Sleeps, MetricAt, Feasible;
    MetricSleeps(st, t, k);
  }

  lemma PreferredSleeps(st: State, t: int, k: RouteKey, j: RouteKey)
    requires Sleeps(st, t)
    ensures Preferred(At(st, t), k, j) <==> Preferred(st, k, j)
  {
    hide Sleeps, MetricAt;
    MetricSleeps(st, t, k);
    MetricSleeps(st, t, j);
  }

  /** The routes selected, without the suppressed prefixes. */
  function Routes(selected: map<Prefix, Route>): map<Prefix, Route> {
    map p | p in selected && !selected[p].unreachable :: selected[p]
  }

  lemma RemoteUsable(st: State, p: Prefix)
    requires Chosen(st) && SelfFeasible(st.selected, st.routes, st.em.sources)
    requires Reachable(st.selected, p) && p !in st.local
    ensures Usable(st, RouteKey(p, st.selected[p].link))
  {
    hide MetricAt, Feasible;
    assert Standing(st, p, st.selected[p]);
  }

  lemma {:induction false} ContentedBest(st: State, t: int, p: Prefix)
    requires Chosen(st) && SelfFeasible(st.selected, st.routes, st.em.sources) && Sleeps(st, t) && Contented(st)
    requires Reachable(st.selected, p) && p !in st.local
    ensures var k := RouteKey(p, st.selected[p].link);
            k in st.routes && IsBest(At(st, t), k) && st.selected[p] == RouteVia(At(st, t), k)
  {
    hide SelfFeasible, Sleeps, MetricAt, Usable, Preferred;
    var k := RouteKey(p, st.selected[p].link);
    assert Standing(st, p, st.selected[p]);
    RemoteUsable(st, p);
    UsableSleeps(st, t, k);
    MetricSleeps(st, t, k);
    forall j | Usable(At(st, t), j) && j.prefix == p ensures Preferred(At(st, t), k, j) {
      UsableSleeps(st, t, j);
      PreferredSleeps(st, t, k, j);
      assert j in st.routes by { UsableKnown(st, j); }
    }
  }

  lemma UsableKnown(st: State, k: RouteKey)
    requires Usable(st, k)
    ensures k in st.routes && k.prefix !in st.local
  {
    hide MetricAt, Feasible;
  }

  lemma LocalStanding(st: State, t: int, p: Prefix)
    requires Chosen(st) && p in st.local
    ensures p in st.selected && !st.selected[p].unreachable && st.selected[p] == LocalRoute(At(st, t), p)
  {
    hide MetricAt;
    assert Standing(st, p, st.selected[p]);
  }

  /** The routes selected are chosen again at t. */
  lemma {:induction false} ChoiceQuiet(st: State, t: int)
    requires Chosen(st) && SelfFeasible(st.selected, st.routes, st.em.sources) && Sleeps(st, t) && Contented(st)
    ensures Choice(At(st, t)) == Routes(st.selected)
  {
    hide SelfFeasible, Sleeps, Chosen, Usable, Contented, Choice, IsBest, RouteVia, LocalRoute;
    var x, next := At(st, t), Routes(st.selected);
    forall p | p in x.local ensures p in next && next[p] == LocalRoute(x, p) { LocalStanding(st, t, p); }
    forall p | p in next && p !in x.local
      ensures var k := RouteKey(p, next[p].link); k in x.routes && IsBest(x, k) && next[p] == RouteVia(x, k)
    {
      ContentedBest(st, t, p);
    }
    forall p ensures p in UsablePrefixes(x) ==> p in next && p !in x.local
             ensures p in next && p !in x.local ==> p in UsablePrefixes(x)
    {
      UsableRoutes(st, t, p);
    }
    assert next.Keys == x.local.Keys + UsablePrefixes(x);
    ChoiceUnique(x, next);
  }

  lemma UsableRoutes(st: State, t: int, p: Prefix)
    requires Chosen(st) && SelfFeasible(st.selected, st.routes, st.em.sources) && Sleeps(st, t) && Contented(st)
    ensures p in UsablePrefixes(At(st, t)) ==> Reachable(st.selected, p) && p !in st.local
    ensures Reachable(st.selected, p) && p !in st.local ==> p in UsablePrefixes(At(st, t))
  {
    hide SelfFeasible, Sleeps, Chosen, Usable, Preferred;
    var x := At(st, t);
    if p in UsablePrefixes(x) {
      var k :| k in x.routes && Usable(x, k) && k.prefix == p;
      UsableSleeps(st, t, k);
      UsableKnown(st, k);
    }
    if Reachable(st.selected, p) && p !in st.local {
      var k := RouteKey(p, st.selected[p].link);
      RemoteUsable(st, p);
      UsableSleeps(st, t, k);
      UsableKnown(st, k);
    }
  }

  lemma {:induction false} LoseNone(st: State, next: map<Prefix, Route>, ps: seq<Prefix>)
    requires forall p :: p in ps ==> !Lost(st, next, p)
    ensures LoseAll(st, next, ps) == st
  {
    hide Lost;
    if ps != [] {
      var n := |ps| - 1;
      LoseNone(st, next, ps[..n]);
      assert ps[n] in ps;
    }
  }

  lemma DropsStay(st: State, t: int)
    requires Chosen(st) && Sleeps(st, t)
    ensures LiveDrops(At(st, t), Routes(st.selected)) == st.drops
  {
    hide Sleeps, Standing;
    forall p | p in st.drops ensures st.drops[p] > t { DropSleeps(st, t, p); }
  }

  lemma DropsQuiet(st: State, t: int)
    requires Chosen(st) && Sleeps(st, t)
    ensures LiveDrops(At(st, t), Routes(st.selected)) == st.drops
    ensures WithDrops(Routes(st.selected), st.drops) == st.selected
  {
    hide Sleeps, MetricAt, LiveDrops, LocalRoute, RouteVia;
    DropsStay(st, t);
    forall p | p in st.selected && st.selected[p].unreachable ensures p in st.drops && st.selected[p] == DropRoute(p) {
      assert Standing(st, p, st.selected[p]);
      UnreachableDropped(st, p);
    }
  }

  lemma UnreachableDropped(st: State, p: Prefix)
    requires p in st.selected && st.selected[p].unreachable && Standing(st, p, st.selected[p])
    ensures p in st.drops && st.selected[p] == DropRoute(p)
  {
    hide MetricAt;
  }

  lemma AdoptQuiet(st: State, t: int)
    requires Chosen(st) && Sleeps(st, t)
    ensures Adopt(At(st, t), Routes(st.selected)) == At(st, t)
  {
    hide Sleeps, Chosen, LiveDrops, WithDrops, LoseAll, SortPrefixes, ScheduleTrigger;
    DropsQuiet(st, t);
    LoseNone(At(st, t), Routes(st.selected), SortPrefixes(st.selected.Keys));
  }

  lemma {:induction false} AnswerNone(st: State, em: Emission, sks: seq<SourceKey>)
    requires Unanswered(st)
    ensures Answer(st, em, sks) == em
  {
    hide Settled, Advertise;
    if sks != [] {
      AnswerNone(st, em, sks[..|sks| - 1]);
    }
  }

  lemma AnswerQuiet(st: State)
    requires Unanswered(st)
    ensures AnswerRequests(st) == st
  {
    hide Settled, Answer, SortSourceKeys;
    AnswerNone(st, st.em, SortSourceKeys(st.requests.Keys));
    assert Unsettled(st) == st.requests;
  }

  lemma SelectQuiet(st: State, t: int)
    requires Chosen(st) && Unanswered(st) && SelfFeasible(st.selected, st.routes, st.em.sources) && Sleeps(st, t)
    requires Contented(st)
    ensures SelectRoutes(At(st, t)) == At(st, t)
  {
    hide SelfFeasible, Sleeps, Chosen, Contented, Choice, Adopt, AnswerRequests, Settled, Routes;
    ChoiceQuiet(st, t);
    AdoptQuiet(st, t);
    assert Unanswered(At(st, t));
    AnswerQuiet(At(st, t));
  }

  // --------------------------------------------------------------------- timers

  lemma TickedSleeps(st: State, t: int, id: LinkId)
    requires Sleeps(st, t) && LinksTicked(st) && id in st.links
    ensures Ticked(st.links[id], t)
  {
    hide Sleeps;
    LinkSleeps(st, t, id, st.links[id].nextHello);
    LinkSleeps(st, t, id, st.links[id].nextIHU);
    LinkSleeps(st, t, id, st.links[id].nextUpdate);
  }

  lemma {:induction false} LinkTimersQuiet(st: State, ids: seq<LinkId>)
    requires forall id :: id in st.links ==> Ticked(st.links[id], st.now)
    ensures AllLinkTimers(st, ids) == st
  {
    if ids != [] {
      LinkTimersQuiet(st, ids[..|ids| - 1]);
    }
  }

  lemma TriggerSleeps(st: State, t: int)
    requires Sleeps(st, t) && !TriggerDue(st)
    ensures !TriggerDue(At(st, t))
  {
    hide LinkTimes, CandidateTimes, PendingTimes;
    if st.em.trigger.on {
      assert Timer(st, st.em.trigger.at);
    }
  }

  lemma ResendSleeps(st: State, t: int, sk: SourceKey)
    requires Sleeps(st, t) && sk in st.requests && !ResendDue(st, sk)
    ensures !ResendDue(At(st, t), sk)
  {
    hide LinkTimes, CandidateTimes;
    if st.requests[sk].remaining > 0 {
      assert st.requests[sk].next in PendingTimes(st.requests[sk]);
      assert Timer(st, st.requests[sk].next);
    }
  }

  lemma RefreshSleeps(st: State, t: int, k: RouteKey)
    requires Sleeps(st, t) && k in st.routes && !RefreshDue(st, k)
    ensures !RefreshDue(At(st, t), k)
  {
    hide LinkTimes, PendingTimes;
    var c := st.routes[k];
    if !c.refreshRequested {
      assert c.expires - c.interval in CandidateTimes(c);
      assert Timer(st, c.expires - c.interval);
    }
  }

  lemma {:induction false} ResendNothing(st: State, out: map<LinkId, seq<Message>>, sks: seq<SourceKey>)
    requires forall sk :: sk in st.requests ==> !ResendDue(st, sk)
    ensures ResendOut(st, out, sks) == out
  {
    hide QueueAll;
    if sks != [] {
      ResendNothing(st, out, sks[..|sks| - 1]);
    }
  }

  lemma RequestsQuiet(st: State)
    requires forall sk :: sk in st.requests ==> !ResendDue(st, sk)
    ensures RequestTimer(st) == st
  {
    hide ResendDue, ResendOut, SortSourceKeys;
    ResendNothing(st, st.em.out, SortSourceKeys(st.requests.Keys));
    assert ResentRequests(st) == st.requests;
  }

  lemma {:induction false} RefreshNothing(st: State, out: map<LinkId, seq<Message>>, ks: seq<RouteKey>)
    requires forall k :: k in st.routes ==> !RefreshDue(st, k)
    ensures RefreshOut(st, out, ks) == out
  {
    hide Queue;
    if ks != [] {
      RefreshNothing(st, out, ks[..|ks| - 1]);
    }
  }

  lemma RefreshQuiet(st: State)
    requires forall k :: k in st.routes ==> !RefreshDue(st, k)
    ensures RefreshTimer(st) == st
  {
    hide RefreshDue, RefreshOut, SortRouteKeys;
    RefreshNothing(st, st.em.out, SortRouteKeys(st.routes.Keys));
    assert RefreshedRoutes(st) == st.routes;
  }

  lemma TimersQuiet(st: State, t: int)
    requires Sleeps(st, t) && NothingDue(st)
    ensures Timers(At(st, t)) == At(st, t)
  {
    hide Sleeps, ResendDue, RefreshDue, TriggerDue, AllLinkTimers, RequestTimer, RefreshTimer, DumpAll;
    var x := At(st, t);
    forall id | id in x.links ensures Ticked(x.links[id], t) { TickedSleeps(st, t, id); }
    LinkTimersQuiet(x, SortLinks(x.links.Keys));
    TriggerSleeps(st, t);
    forall sk | sk in x.requests ensures !ResendDue(x, sk) { ResendSleeps(st, t, sk); }
    RequestsQuiet(x);
    forall k | k in x.routes ensures !RefreshDue(x, k) { RefreshSleeps(st, t, k); }
    RefreshQuiet(x);
  }

  // ----------------------------------------------------------------------- tick

  lemma {:induction false} CollectNothing(ids: seq<LinkId>)
    ensures Collect(map[], ids) == []
  {
    if ids != [] {
      CollectNothing(ids[..|ids| - 1]);
    }
  }

  /** The instants a step accepts. */
  predicate Accepted(st: State, t: int) {
    st.now <= t <= MAX_DURATION - 48 * HOUR && st.pending == 0 && !st.stopped
  }

  lemma TickWorks(st: State, t: int)
    requires Accepted(st, t)
    ensures Refusal(st, t, Tick).None? && Work(st, t, Tick) == Timers(SelectRoutes(Expire(At(st, t))))
  {
    hide Timers, SelectRoutes, Expire;
  }

  lemma ConcludeQuiet(st: State, t: int)
    requires st.em.out == map[]
    ensures Conclude(st.selected, At(st, t)) == (At(st, t), NO_EFFECTS)
  {
    hide Snapshot;
    CollectNothing(SortLinks(st.links.Keys));
    assert Flushed(At(st, t)).em.out == map[];
  }

  lemma QuietIf(st: State, t: int)
    requires Valid(st) && Rested(st) && Accepted(st, t) && Sleeps(st, t) && Contented(st)
    ensures Step(st, t, Tick) == (At(st, t), Ok(NO_EFFECTS))
  {
    hide Timers, SelectRoutes, Expire, Sleeps, Live, NothingDue, Unanswered, Chosen, Contented, SelfFeasible;
    hide Sound, Anchored, Conclude, Refusal;
    TickWorks(st, t);
    ExpireQuiet(st, t);
    SelectQuiet(st, t);
    TimersQuiet(st, t);
    ConcludeQuiet(st, t);
  }

  /** A candidate that beats the route selected is selected by the next tick. */
  lemma QuietOnlyIf(st: State, t: int)
    requires Valid(st) && Rested(st) && Accepted(st, t) && Sleeps(st, t)
    requires Step(st, t, Tick).0.selected == st.selected
    ensures Contented(st)
  {
    hide Timers, SelectRoutes, Expire, Sleeps, Live, NothingDue, Unanswered, Chosen, SelfFeasible, Sound;
    hide Anchored, Snapshot, Packets, Refusal, Usable;
    TickWorks(st, t);
    ExpireQuiet(st, t);
    var y := SelectRoutes(At(st, t));
    TimersFrame(y);
    assert y.selected == st.selected;
    forall k | k in st.routes && Usable(st, k)
      ensures Reachable(st.selected, k.prefix) && Preferred(st, RouteKey(k.prefix, st.selected[k.prefix].link), k)
    {
      SelectedBest(st, t, k);
    }
  }

  lemma SelectedBest(st: State, t: int, k: RouteKey)
    requires Sleeps(st, t) && Usable(st, k) && SelectRoutes(At(st, t)).selected == st.selected
    ensures Reachable(st.selected, k.prefix) && Preferred(st, RouteKey(k.prefix, st.selected[k.prefix].link), k)
  {
    hide Sleeps, Usable, Preferred, LoseAll, Announce, Choice, IsChoice, Answer, Unsettled, SortPrefixes, RouteVia;
    var x := At(st, t);
    var next := Choice(x);
    UsableSleeps(st, t, k);
    UsableKnown(x, k);
    AdoptTables(x, next);
    ChosenBest(x, next, k);
    PreferredSleeps(st, t, RouteKey(k.prefix, next[k.prefix].link), k);
  }

  lemma ChosenBest(st: State, next: map<Prefix, Route>, k: RouteKey)
    requires IsChoice(st, next) && Usable(st, k)
    ensures k.prefix in next && !next[k.prefix].unreachable && Preferred(st, RouteKey(k.prefix, next[k.prefix].link), k)
  {
    hide MetricAt, Feasible, Preferred;
    UsableKnown(st, k);
    assert k.prefix in UsablePrefixes(st);
  }

  // ------------------------------------------------------------------- deadline

  /**
   After a completed step a tick before the deadline emits nothing, changes no route,
   draws no randomness and alters the clock alone, exactly when no usable candidate
   beats the route selected for its prefix.
   */
  lemma {:induction false} StepSleeps(st: State, now: int, event: Event, y: State, r: Result<Effects>,
      deadline: Option<int>, t: int)
    requires Valid(st) && Refusal(st, now, event).None? && Decoded(event) && (y, r) == Step(st, now, event)
    requires IsNextDeadline(Completed(y), deadline)
    requires Completed(y).now <= t <= MAX_DURATION - 48 * HOUR && (deadline.Some? ==> t < deadline.value)
    ensures var z := Completed(y); Step(z, t, Tick) == (z.(now := t), Ok(NO_EFFECTS)) <==> Contented(z)
  {
    hide Valid, Refusal, Decoded, Step, Completed, Contented, Live, LinksTicked, Unanswered, Chosen;
    hide ResendDue, RefreshDue, TriggerDue, Timer;
    StepRested(st, now, event, y, r);
    var z := Completed(y);
    SleepsBefore(z, deadline, t);
    hide NothingDue, IsNextDeadline, Sleeps;
    if Contented(z) {
      QuietIf(z, t);
    }
    if Step(z, t, Tick) == (z.(now := t), Ok(NO_EFFECTS)) {
      QuietOnlyIf(z, t);
    }
  }

  // ----------------------------------------------------------------------- runs

  /** Some step has been taken since the engine was constructed or restored, and no commit is due. */
  ghost predicate Idle(t: Trace, i: int) {
    && 0 <= i < |t.states| && t.states[i].pending == 0 && !t.states[i].stopped
    && exists k: nat {:trigger Took(t, k)} :: k < i && Took(t, k)
  }

  lemma SameRestPhase(x: State, y: State)
    requires Rested(x) && y == x.(revision := y.revision, pending := y.pending, held := y.held, stopped := y.stopped)
    ensures Rested(y)
  {
    hide Rested;
    SameRest(x, y);
  }

  lemma MoveRested(t: Trace, i: nat)
    requires IsTrace(t) && i < |t.moves| && |t.states| == |t.moves| + 1
    requires Took(t, i) || Rested(t.states[i])
    ensures Rested(t.states[i + 1])
  {
    hide IsTrace, Valid, Step, Refusal, Decoded, Rested;
    var x, y := t.states[i], t.states[i + 1];
    TraceMove(t, i);
    TraceValid(t, i);
    match t.moves[i]
    case StepMove(now, event) =>
      TwoPhase.StepForward(x, now, event, y, t.results[i]);
      if t.results[i].Ok? {
        StepRested(x, now, event, y, t.results[i]);
        SameRestPhase(Completed(y), y);
      }
    case CommitMove(revision, success) => SameRestPhase(x, y);
  }

  /** From the first step on nothing is ever overdue in a run. */
  lemma {:induction false} AlwaysRested(t: Trace, k: nat, i: nat)
    requires IsTrace(t) && k < i < |t.states| && Took(t, k)
    ensures Rested(t.states[i])
    decreases i
  {
    hide IsTrace, Rested, Took;
    TraceSize(t);
    if k < i - 1 {
      AlwaysRested(t, k, i - 1);
    }
    MoveRested(t, i - 1);
  }

  /** Over every run the deadline of an idle engine lies strictly ahead of its clock. */
  lemma {:induction false} DeadlineAhead(t: Trace, i: nat, deadline: Option<int>)
    requires IsTrace(t) && Idle(t, i)
    ensures IsNextDeadline(t.states[i], deadline) && deadline.Some? ==> deadline.value > t.states[i].now
  {
    hide IsTrace, Live, LinksTicked, Unanswered, Chosen, ResendDue, RefreshDue, TriggerDue, Timer, Took;
    var k: nat :| k < i && Took(t, k);
    AlwaysRested(t, k, i);
  }

  /**
   NextDeadline is exact enough to sleep on.  Over every run, a tick of an idle engine
   before its deadline emits nothing, changes no route, draws no randomness and alters the
   clock alone, exactly when no usable candidate beats the route selected for its prefix.
   */
  lemma {:induction false} SleepUntilDeadline(t: Trace, i: nat, at: int, deadline: Option<int>)
    requires IsTrace(t) && Idle(t, i) && i < |t.moves| && |t.states| == |t.moves| + 1 && |t.results| == |t.moves|
    requires t.moves[i] == StepMove(at, Tick) && t.states[i].now <= at <= MAX_DURATION - 48 * HOUR
    ensures IsNextDeadline(t.states[i], deadline) && (deadline.Some? ==> at < deadline.value) ==>
              (t.states[i + 1] == t.states[i].(now := at) && t.results[i] == Ok(NO_EFFECTS) <==> Contented(t.states[i]))
  {
    hide IsTrace, Rested, Valid, Step, Contented, Took, IsNextDeadline, Sleeps, TriggerDue, Timer;
    var z := t.states[i];
    if IsNextDeadline(z, deadline) && (deadline.Some? ==> at < deadline.value) {
      var k: nat :| k < i && Took(t, k);
      AlwaysRested(t, k, i);
      TraceValid(t, i);
      TraceMove(t, i);
      assert !TriggerDue(z) by { RestedTrigger(z); }
      SleepsBefore(z, deadline, at);
      if Contented(z) {
        QuietIf(z, at);
      }
      if t.states[i + 1] == z.(now := at) {
        QuietOnlyIf(z, at);
      }
    }
  }

  lemma RestedTrigger(st: State)
    requires Rested(st)
    ensures !TriggerDue(st)
  {
    hide Live, LinksTicked, Unanswered, Chosen, ResendDue, RefreshDue, TriggerDue;
  }
}
