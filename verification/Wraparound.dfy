/**
 Sequence numbers out of the window: a run in which a step's own advertisement makes a
 better candidate feasible, so that a tick before the deadline changes the routes.
 */
module Wraparound {
  import opened Arithmetic
  import opened Types
  import opened Sorting
  import opened Rules
  import opened Steps
  import opened Soundness
  import opened Selection
  import Progress
  import opened Invariant
  import opened Rest
  import opened Quiet
  import opened Traces
  import opened Scenario

  const NEAR := RouteKey(ANYWHERE, 1)
  const FAR := RouteKey(ANYWHERE, 2)
  const ORIGIN := SourceKey(ANYWHERE, 7)

  // 20000 is newer than 0 and 40000 newer than 20000, but 40000 is not newer than 0.
  const HISTORY := map[ORIGIN := Source(0, 5, 3 * MINUTE)]
  const SAVED := Checkpoint(1, 1, 0, 0, 3 * MINUTE, 56 * SECOND, [SourceHistory(ANYWHERE, 7, 0, 5)], [])
  const LATER: int := 16 * SECOND
  const MOVES := [
    StepMove(0, AddLink(Wire(1))), StepMove(0, AddLink(Wire(2))), StepMove(0, Offered(2, 40000, 0)),
    StepMove(LATER, Offered(1, 20000, 10)), CommitMove(1, true), StepMove(LATER, Tick)]

  function Restarted(): State {
    Fresh(DEFAULT_CONFIG).(em := Emission(HISTORY, map[], Trigger(false, 0, 0, 1)))
  }

  ghost function Run(): Trace { Played(Restarted(), MOVES) }

  lemma Restarts()
    ensures Opens(Restarted())
  {
    hide RoutablePrefix, ValidPrefix;
    AnywhereRoutable();
    var hs := [SourceHistory(ANYWHERE, 7, 0, 5)];
    assert hs[..0] == [] && RestoredSources([], 3 * MINUTE) == map[];
    assert RestoredSources(hs, 3 * MINUTE) == HISTORY;
    assert RestorableHistory(hs) && ValidRouterId(7);
    assert RestoreConfig(DEFAULT_CONFIG, SAVED) == DEFAULT_CONFIG == Defaulted(DEFAULT_CONFIG);
    assert New(DEFAULT_CONFIG) == Ok(Fresh(DEFAULT_CONFIG));
    assert (map p | p in SAVED.drops :: 56 * SECOND) == map[];
    assert Refilled(Fresh(DEFAULT_CONFIG), SAVED) == Ok(Restarted());
    assert Restore(DEFAULT_CONFIG, SAVED) == Ok(Restarted());
  }

  // ------------------------------------------------------------------- the opening

  /** Nothing selected yet, and the history as restored. */
  ghost predicate Opening(st: State, lastLink: LinkId) {
    && Blank(st) && st.cfg == DEFAULT_CONFIG && st.now == 0 && st.lastLink == lastLink
    && st.pending == 0 && st.revision == 0 && !st.stopped && st.em.sources == HISTORY
  }

  ghost predicate OneLink(st: State) {
    Opening(st, 1) && st.routes == map[] && st.links.Keys == {1} && Deaf(1, st.links[1])
  }

  ghost predicate TwoLinks(st: State) {
    && Opening(st, 2) && st.routes == map[]
    && st.links.Keys == {1, 2} && Deaf(1, st.links[1]) && Deaf(2, st.links[2]) && st.links[2].nextUpdate <= LATER
  }

  /** The candidate through the second link is there, but not feasible. */
  ghost predicate FarKnown(st: State) {
    && Opening(st, 2) && st.routes.Keys == {FAR} && Marked(Taken(40000, 0, 0), st.routes[FAR])
    && st.links.Keys == {1, 2} && Deaf(1, st.links[1]) && st.links[2].nextUpdate <= LATER
    && Retimed(Hearing(NewLink(Wire(2), 0), 0), st.links[2])
  }

  lemma BeginOpening(st: State, lastLink: LinkId, now: int)
    requires Opening(st, lastLink) && 0 <= now <= LATER
    requires forall k :: k in st.routes ==> st.routes[k].expires > LATER
    ensures var x := Begin(st, now); x == st.(now := now, requests := x.requests)
    ensures Refusal(st, now, Tick).None?
  {
    assert AgedRoutes(st.routes, now) == st.routes;
    assert LiveSources(HISTORY, now) == HISTORY;
  }

  lemma FirstApplied(st: State, a: State)
    requires st == Restarted() && a == Apply(Begin(st, 0), AddLink(Wire(1)))
    ensures Refusal(st, 0, AddLink(Wire(1))).None? && Opening(st, 0)
    ensures Opening(a, 1) && a.routes == map[] && a.links.Keys == {1} && Deaf(1, a.links[1])
  {
    hide BoundedConfig;
    assert Opening(st, 0);
    BeginOpening(st, 0, 0);
  }

  lemma FirstValid(st: State)
    requires st == Restarted()
    ensures Validate(st, AddLink(Wire(1))).None?
  {
    hide BoundedConfig;
  }

  lemma FirstLink(st: State, y: State, r: Result<Effects>)
    requires Valid(st) && st == Restarted() && (y, r) == Step(st, 0, AddLink(Wire(1)))
    ensures OneLink(y) && r.Ok?
  {
    hide Valid, Step, Usable, BoundedConfig, BoundedLink, Apply, Begin, Refusal, Restarted, Retimed, NewLink, Validate;
    assert Validate(st, AddLink(Wire(1))).None? by { FirstValid(st); }
    var a := Apply(Begin(st, 0), AddLink(Wire(1)));
    FirstApplied(st, a);
    BlankStep(st, 0, AddLink(Wire(1)), y, r, a, 1);
    RetimedTwice(NewLink(Wire(1), 0), a.links[1], y.links[1]);
  }

  lemma RetimedTwice(l: LinkState, k: LinkState, m: LinkState)
    requires Retimed(l, k) && Retimed(k, m)
    ensures Retimed(l, m)
  {
    hide BoundedLink;
  }

  lemma HearingTwice(l: LinkState, k: LinkState, m: LinkState, now: int)
    requires Retimed(l, k) && Retimed(Hearing(k, now), m)
    ensures Retimed(Hearing(l, now), m)
  {
    hide BoundedLink;
  }

  lemma SecondApplied(st: State, a: State)
    requires OneLink(st) && a == Apply(Begin(st, 0), AddLink(Wire(2)))
    ensures Refusal(st, 0, AddLink(Wire(2))).None?
    ensures Opening(a, 2) && a.routes == map[] && a.links == st.links[2 := NewLink(Wire(2), 0)]
  {
    hide BoundedConfig, Deaf;
    BeginOpening(st, 1, 0);
    Progress.Sizes(st.links);
  }

  lemma SecondValid(st: State)
    requires OneLink(st)
    ensures Validate(st, AddLink(Wire(2))).None?
  {
    hide BoundedConfig, Deaf;
    Progress.Sizes(st.links);
  }

  lemma NewLinkTimes()
    ensures NewLink(Wire(2), 0).nextUpdate == 0 && Retimed(NewLink(Wire(2), 0), NewLink(Wire(2), 0))
  {
  }

  lemma SecondLink(st: State, y: State, r: Result<Effects>)
    requires Valid(st) && OneLink(st) && (y, r) == Step(st, 0, AddLink(Wire(2)))
    ensures TwoLinks(y) && r.Ok?
  {
    hide Valid, Step, Usable, BoundedConfig, BoundedLink, Apply, Begin, Refusal, Retimed, NewLink, Validate;
    assert Validate(st, AddLink(Wire(2))).None? by { SecondValid(st); }
    var a := Apply(Begin(st, 0), AddLink(Wire(2)));
    SecondApplied(st, a);
    NewLinkTimes();
    BlankStep(st, 0, AddLink(Wire(2)), y, r, a, 2);
    RetimedTwice(NewLink(Wire(1), 0), a.links[1], y.links[1]);
    RetimedTwice(NewLink(Wire(2), 0), a.links[2], y.links[2]);
  }

  /** The state at selection once the packet on the second link has been taken in. */
  lemma FarApplied(st: State, a: State)
    requires TwoLinks(st) && a == Apply(Begin(st, 0), Offered(2, 40000, 0))
    ensures Opening(a, 2) && a.routes == map[FAR := Taken(40000, 0, 0)]
    ensures a.links == st.links[2 := Hearing(st.links[2], 0)]
  {
    hide ReceiveAll, ReceiveUpdate, BoundedLink, BoundedConfig, Begin;
    var x := Begin(st, 0);
    BeginOpening(st, 2, 0);
    var h := x.(links := x.links[2 := Hearing(x.links[2], 0)]);
    OfferReceived(x, 2, 40000, 0, h);
    OfferTaken(h, 2, 40000, 0);
  }

  lemma FarInfeasible(a: State)
    requires a.em.sources == HISTORY && FAR in a.routes && Marked(Taken(40000, 0, 0), a.routes[FAR])
    ensures !Usable(a, FAR)
  {
    hide MetricAt;
  }

  lemma FarOffered(st: State, y: State, r: Result<Effects>)
    requires Valid(st) && TwoLinks(st) && (y, r) == Step(st, 0, Offered(2, 40000, 0))
    ensures FarKnown(y) && r.Ok?
  {
    hide Valid, Step, Usable, Begin, BoundedLink, BoundedConfig, Apply, Retimed, NewLink, Hearing, Refusal, Validate;
    TwoOpening(st);
    var a := Apply(Begin(st, 0), Offered(2, 40000, 0));
    FarApplied(st, a);
    HearingTimes(st.links[2], 0);
    FarInfeasible(a);
    BlankStep(st, 0, Offered(2, 40000, 0), y, r, a, 2);
    RetimedTwice(NewLink(Wire(1), 0), a.links[1], y.links[1]);
    HearingTwice(NewLink(Wire(2), 0), st.links[2], y.links[2], 0);
  }

  lemma TwoOpening(st: State)
    requires TwoLinks(st)
    ensures Refusal(st, 0, Offered(2, 40000, 0)).None? && Validate(st, Offered(2, 40000, 0)).None?
  {
    hide Deaf;
    BeginOpening(st, 2, 0);
  }

  lemma HearingTimes(l: LinkState, now: int)
    ensures Hearing(l, now).nextUpdate == l.nextUpdate
  {
  }

  // ----------------------------------------------------------------- the first route

  const ROUTE := Route(ANYWHERE, 7, 20000, 11, 1, NoAddr, false, false)

  /** Both candidates at selection: one usable, the other one nearer but infeasible. */
  ghost predicate BothKnown(a: State) {
    && Blank(a) && a.cfg == DEFAULT_CONFIG && a.now == LATER
    && a.pending == 0 && a.revision == 0 && !a.stopped && a.em.sources == HISTORY
    && a.routes.Keys == {NEAR, FAR} && a.routes[NEAR] == Taken(20000, 10, LATER)
    && Marked(Taken(40000, 0, 0), a.routes[FAR])
    && a.links.Keys == {1, 2} && a.links[2].nextUpdate <= LATER
    && Retimed(Hearing(NewLink(Wire(1), 0), LATER), a.links[1])
    && Retimed(Hearing(NewLink(Wire(2), 0), 0), a.links[2])
  }

  lemma Costs(a: State)
    requires a.now == LATER && a.links.Keys == {1, 2}
    requires Retimed(Hearing(NewLink(Wire(1), 0), LATER), a.links[1])
    requires Retimed(Hearing(NewLink(Wire(2), 0), 0), a.links[2])
    ensures Cost(a, 1) == 1 && Cost(a, 2) == 1
  {
  }

  lemma Metrics(a: State)
    requires a.cfg == DEFAULT_CONFIG && Cost(a, 1) == 1 && Cost(a, 2) == 1
    requires NEAR in a.routes && Marked(Taken(20000, 10, LATER), a.routes[NEAR])
    requires FAR in a.routes && Marked(Taken(40000, 0, 0), a.routes[FAR])
    ensures MetricAt(a, NEAR) == 11 && MetricAt(a, FAR) == 1
  {
    hide Cost;
  }

  lemma NearApplied(st: State, a: State)
    requires FarKnown(st) && a == Apply(Begin(st, LATER), Offered(1, 20000, 10))
    ensures BothKnown(a)
  {
    hide ReceiveAll, ReceiveUpdate, BoundedLink, BoundedConfig, Begin, Retimed, NewLink;
    var x := Begin(st, LATER);
    BeginOpening(st, 2, LATER);
    Progress.Sizes(x.routes);
    var l := x.links[1];
    var h := x.(links := x.links[1 := Hearing(l, LATER)]);
    OfferReceived(x, 1, 20000, 10, h);
    OfferTaken(h, 1, 20000, 10);
    DeafBudget(l);
    HearingRetimed(NewLink(Wire(1), 0), l, LATER);
  }

  lemma DeafBudget(l: LinkState)
    requires Deaf(1, l)
    ensures l.link.maxPacket == 1200
  {
  }

  lemma HearingRetimed(l: LinkState, k: LinkState, now: int)
    requires Retimed(l, k)
    ensures Retimed(Hearing(l, now), Hearing(k, now))
  {
    hide BoundedLink;
  }

  lemma NearUsable(a: State)
    requires BothKnown(a)
    ensures Usable(a, NEAR) && RouteVia(a, NEAR) == ROUTE
    ensures forall k :: Usable(a, k) ==> k == NEAR
  {
    Costs(a);
    Metrics(a);
    hide MetricAt, BoundedConfig;
    assert Feasible(HISTORY, ANYWHERE, a.routes[NEAR]);
    FarInfeasible(a);
  }

  lemma NearChosen(a: State)
    requires BothKnown(a)
    ensures Choice(a) == map[ANYWHERE := ROUTE]
  {
    NearUsable(a);
    hide Usable, Choice, RouteVia, BothKnown;
    var next := map[ANYWHERE := ROUTE];
    assert a.local == map[] && NEAR in a.routes by { BlankTables(a); }
    assert UsablePrefixes(a) == {ANYWHERE};
    assert IsBest(a, NEAR);
    ChoiceUnique(a, next);
  }

  lemma BlankTables(a: State)
    requires BothKnown(a)
    ensures a.local == map[] && NEAR in a.routes
  {
  }

  // ------------------------------------------------------------ what it advertises

  const SELECTED := map[ANYWHERE := ROUTE]

  /** The entry is the one restored, or the one the route selected leaves. */
  predicate Recorded(em: Emission) {
    ORIGIN in em.sources && em.sources[ORIGIN].Dist() in {Distance(0, 5), Distance(20000, 11)}
  }

  predicate Lowest(em: Emission) { ORIGIN in em.sources && em.sources[ORIGIN].Dist() == Distance(20000, 11) }

  ghost predicate Advertising(st: State) {
    st.selected == SELECTED && st.cfg == DEFAULT_CONFIG && st.links.Keys == {1, 2}
  }

  lemma AdvertiseRecords(st: State, em: Emission, id: LinkId, p: Prefix, explicit: bool)
    requires Advertising(st) && Recorded(em)
    ensures var y := Advertise(st, em, id, p, explicit);
            && Recorded(y)
            && (Lowest(em) || (id == 2 && p == ANYWHERE) ==> Lowest(y))
  {
    hide Queue, Announcement, ScheduleTrigger, BoundedConfig;
    assert p != ANYWHERE ==> !Reachable(st.selected, p);
  }

  lemma DumpRecords(st: State, em: Emission, id: LinkId)
    requires Advertising(st) && Recorded(em)
    ensures var y := Dump(st, em, id, false); Recorded(y) && (Lowest(em) || id == 2 ==> Lowest(y))
  {
    hide Advertise, Recorded, Lowest, BoundedConfig, PrefixLess;
    assert SortPrefixes(SELECTED.Keys) == [ANYWHERE] by {
      assert SELECTED.Keys == {ANYWHERE};
      assert SortPrefixes(SELECTED.Keys)[0] in {ANYWHERE};
    }
    assert AdvertiseAll(st, em, id, [ANYWHERE], false)
        == Advertise(st, AdvertiseAll(st, em, id, [], false), id, ANYWHERE, false) by {
      assert [ANYWHERE][..0] == [];
    }
    assert AdvertiseAll(st, em, id, [], false) == em;
    AdvertiseRecords(st, em, id, ANYWHERE, false);
  }

  lemma {:induction false} DumpAllRecords(st: State, em: Emission, ids: seq<LinkId>)
    requires Advertising(st) && Recorded(em) && Lowest(em)
    ensures Lowest(DumpAll(st, em, ids)) && Recorded(DumpAll(st, em, ids))
  {
    hide Dump, Recorded, Lowest, Advertising;
    if ids != [] {
      DumpAllRecords(st, em, ids[..|ids| - 1]);
      DumpRecords(st, DumpAll(st, em, ids[..|ids| - 1]), ids[|ids| - 1]);
    }
  }

  lemma {:induction false} AnswersRecord(st: State, em: Emission, sks: seq<SourceKey>)
    requires Advertising(st) && Recorded(em)
    ensures Recorded(Answer(st, em, sks))
  {
    hide Advertise, Recorded, Lowest, Advertising, Settled;
    if sks != [] {
      var n := |sks| - 1;
      AnswersRecord(st, em, sks[..n]);
      if sks[n] in st.requests {
        AdvertiseRecords(st, Answer(st, em, sks[..n]), st.requests[sks[n]].from, sks[n].prefix, true);
      }
    }
  }

  lemma SameRecord(x: Emission, y: Emission)
    requires x.sources == y.sources
    ensures Recorded(x) == Recorded(y) && Lowest(x) == Lowest(y)
  {
  }

  lemma UpdateRecords(st: State, id: LinkId)
    requires Advertising(st) && Recorded(st.em)
    ensures var y := UpdateTimer(st, id);
            && Recorded(y.em)
            && (Lowest(st.em) || (id == 2 && st.links[2].nextUpdate <= st.now) ==> Lowest(y.em))
  {
    hide Dump, Recorded, Lowest, BoundedConfig, NextRandom, Jitter, BoundedLink;
    var y := UpdateTimer(st, id);
    DumpRecords(st, st.em, id);
    if id in st.links && st.links[id].nextUpdate <= st.now {
      SameRecord(Dump(st, st.em, id, false), y.em);
    }
  }

  /** The timers of one link: an update that is due on the second link writes the history. */
  lemma LinkRecords(st: State, id: LinkId)
    requires Advertising(st) && Recorded(st.em)
    ensures var y := LinkTimers(st, id);
            && Recorded(y.em)
            && (Lowest(st.em) || (id == 2 && st.links[2].nextUpdate <= st.now) ==> Lowest(y.em))
  {
    hide HelloTimer, IHUTimer, UpdateTimer, Recorded, Lowest, Retimed;
    var a := HelloTimer(st, id);
    HelloTimerFrame(st, id);
    HelloTimerLinks(st, id);
    var b := IHUTimer(a, id);
    IHUTimerFrame(a, id);
    IHUTimerLinks(a, id);
    SameRecord(st.em, b.em);
    UpdateRecords(b, id);
  }

  lemma SortedLinks()
    ensures SortLinks({1, 2}) == [1, 2]
  {
    var s := SortLinks({1, 2});
    assert s[0] in {1, 2} && s[1] in {1, 2};
    assert LinkLess(s[0], s[1]);
  }

  lemma BothLinksRecord(st: State)
    requires Advertising(st) && Recorded(st.em) && st.links[2].nextUpdate <= st.now
    ensures var y := AllLinkTimers(st, [1, 2]); Advertising(y) && Recorded(y.em) && Lowest(y.em)
  {
    hide LinkTimers, Recorded, Lowest, Retimed, Ticked;
    var x := LinkTimers(st, 1);
    LinkRecords(st, 1);
    LinkTimersLinks(st, 1);
    LinkTimersFrame(st, 1);
    LinkRecords(x, 2);
    LinkTimersFrame(x, 2);
    assert [1, 2][..1] == [1] && [1][..0] == [];
    assert AllLinkTimers(st, [1]) == x;
  }

  lemma TriggerRecords(st: State)
    requires Advertising(st) && Recorded(st.em) && Lowest(st.em)
    ensures Lowest(TriggerTimer(st).em)
  {
    hide Recorded, Lowest, DumpAll, Rearm, SortLinks;
    var ids := SortLinks(st.links.Keys);
    DumpAllRecords(st, st.em, ids);
    if TriggerDue(st) {
      SameRecord(DumpAll(st, st.em, ids), TriggerTimer(st).em);
    }
  }

  lemma TimersRecord(b: State)
    requires Advertising(b) && Recorded(b.em) && b.links[2].nextUpdate <= b.now
    ensures Lowest(Timers(b).em)
  {
    hide AllLinkTimers, TriggerTimer, Timers, Recorded, Lowest;
    LateSources(b);
    SortedLinks();
    var y := AllLinkTimers(b, [1, 2]);
    BothLinksRecord(b);
    TriggerRecords(y);
    SameRecord(TriggerTimer(y).em, Timers(b).em);
  }

  // --------------------------------------------------------------------- the step

  /** The route is selected, and its advertisement has made the other candidate feasible. */
  ghost predicate Overtaken(st: State) {
    && st.cfg == DEFAULT_CONFIG && st.now == LATER && st.local == map[] && st.selected == SELECTED && !st.stopped
    && Lowest(st.em)
    && st.routes.Keys == {NEAR, FAR} && Marked(Taken(20000, 10, LATER), st.routes[NEAR])
    && Marked(Taken(40000, 0, 0), st.routes[FAR])
    && st.links.Keys == {1, 2}
    && Retimed(Hearing(NewLink(Wire(1), 0), LATER), st.links[1])
    && Retimed(Hearing(NewLink(Wire(2), 0), 0), st.links[2])
  }

  lemma NearSelected(a: State)
    requires BothKnown(a)
    ensures var b := SelectRoutes(a);
            && b == a.(selected := SELECTED, requests := b.requests, em := b.em)
            && Recorded(b.em)
  {
    hide Choice, Adopt, Answer, Unsettled, Recorded, SortSourceKeys;
    NearChosen(a);
    FirstAdoption(a, SELECTED);
    var x := Adopt(a, SELECTED);
    assert Recorded(x.em) by { HistoryRecorded(x.em); }
    AnswersRecord(x, x.em, SortSourceKeys(x.requests.Keys));
  }

  lemma HistoryRecorded(em: Emission)
    requires em.sources == HISTORY
    ensures Recorded(em)
  {
  }

  lemma NearOffered(st: State, y: State, r: Result<Effects>)
    requires Valid(st) && FarKnown(st) && (y, r) == Step(st, LATER, Offered(1, 20000, 10))
    ensures Overtaken(y) && r.Ok? && y.pending == 1
  {
    hide Valid, Step, SelectRoutes, Timers, Apply, Begin, FarKnown, BothKnown;
    var a := Apply(Begin(st, LATER), Offered(1, 20000, 10));
    NearApplied(st, a);
    NearDone(st, y, r, a, SelectRoutes(a));
  }

  lemma NearDone(st: State, y: State, r: Result<Effects>, a: State, b: State)
    requires Valid(st) && FarKnown(st) && (y, r) == Step(st, LATER, Offered(1, 20000, 10))
    requires a == Apply(Begin(st, LATER), Offered(1, 20000, 10)) && BothKnown(a) && b == SelectRoutes(a)
    ensures Overtaken(y) && r.Ok? && y.pending == 1
  {
    hide Valid, Step, SelectRoutes, Timers, Apply, Begin, Recorded, Lowest, Hearing, Tidied, BoundedConfig, FarKnown;
    assert Opening(st, 2) && Refusal(st, LATER, Tick).None? by { FarOpening(st); }
    NearSelected(a);
    TimersRecord(b);
    StepTidy(st, LATER, Offered(1, 20000, 10), y, r, b);
    SameRecord(Timers(b).em, y.em);
    TidiedOvertaken(a, b, y);
  }

  lemma FarOpening(st: State)
    requires FarKnown(st)
    ensures Opening(st, 2) && Refusal(st, LATER, Tick).None?
  {
    BeginOpening(st, 2, LATER);
  }

  lemma TidiedOvertaken(a: State, b: State, y: State)
    requires BothKnown(a) && b == a.(selected := SELECTED, requests := b.requests, em := b.em)
    requires Tidied(b, y) && Lowest(y.em) && !y.stopped
    ensures Overtaken(y)
  {
    hide Lowest, NewLink, BoundedConfig;
  }

  lemma OvertakenRestless(st: State)
    requires Overtaken(st)
    ensures !Contented(st)
  {
    Costs(st);
    Metrics(st);
    hide MetricAt, Cost;
    assert Feasible(st.em.sources, ANYWHERE, st.routes[FAR]);
    assert Usable(st, FAR);
    assert !Preferred(st, NEAR, FAR);
  }

  // ---------------------------------------------------------------------- the run

  lemma RunTrace(t: Trace)
    requires t == Run()
    ensures IsTrace(t) && |t.moves| == 6 && |t.states| == 7 && |t.results| == 6 && t.states[0] == Restarted()
  {
    hide Opens, Respond, RoutablePrefix, ValidPrefix, Restarted, IsTrace, Decodable;
    Restarts();
    forall m | m in MOVES ensures DecodedMove(m) {
      OffersDecoded();
    }
    PlayedTrace(Restarted(), MOVES);
  }

  lemma OffersDecoded()
    ensures Decoded(Offered(2, 40000, 0)) && Decoded(Offered(1, 20000, 10))
  {
  }

  lemma RunOpens(t: Trace)
    requires t == Run()
    ensures |t.states| == 7 && |t.results| == 6 && FarKnown(t.states[3]) && t.results[0].Ok?
  {
    hide Valid, Step, IsTrace, OneLink, TwoLinks, FarKnown, Restarted;
    RunTrace(t);
    TraceValid(t, 0);
    TraceMove(t, 0);
    FirstLink(t.states[0], t.states[1], t.results[0]);
    TraceValid(t, 1);
    TraceMove(t, 1);
    SecondLink(t.states[1], t.states[2], t.results[1]);
    TraceValid(t, 2);
    TraceMove(t, 2);
    FarOffered(t.states[2], t.states[3], t.results[2]);
  }

  lemma RunOvertaken(t: Trace)
    requires t == Run()
    ensures |t.states| == 7 && |t.results| == 6
    ensures Overtaken(t.states[5]) && t.states[5].pending == 0 && t.results[0].Ok?
  {
    hide Valid, Step, IsTrace, FarKnown, Overtaken, Restarted;
    RunTrace(t);
    RunOpens(t);
    TraceValid(t, 3);
    TraceMove(t, 3);
    NearOffered(t.states[3], t.states[4], t.results[3]);
    TraceMove(t, 4);
    CommittedOvertaken(t.states[4]);
  }

  lemma CommittedOvertaken(st: State)
    requires Overtaken(st) && st.pending == 1
    ensures Overtaken(Commit(st, 1, true).0) && Commit(st, 1, true).0.pending == 0
  {
    hide NewLink, BoundedConfig;
  }

  /**
   A run that leaves the window: its engine is idle and its deadline ahead, yet a tick at
   once changes the forwarding table.  The candidate on the second link, infeasible when
   routes were last selected, has become feasible by the engine's own advertisement.
   */
  lemma NotQuiet(t: Trace, deadline: Option<int>)
    requires t == Run()
    ensures IsTrace(t) && Idle(t, 5) && |t.states| == 7 && |t.results| == 6
    ensures !Contented(t.states[5])
    ensures t.states[5].now == LATER && t.moves[5] == StepMove(LATER, Tick)
    ensures IsNextDeadline(t.states[5], deadline) && deadline.Some? ==> deadline.value > LATER
    ensures t.results[5].Ok? && t.states[6].selected != t.states[5].selected
  {
    hide IsTrace, Restarted, Contented, Valid, Step, Overtaken, Rested, IsNextDeadline, Timer, Refusal;
    RunTrace(t);
    RunOvertaken(t);
    var z := t.states[5];
    OvertakenClock(z);
    OvertakenRestless(z);
    assert Took(t, 0);
    DeadlineAhead(t, 5, deadline);
    AlwaysRested(t, 0, 5);
    TraceValid(t, 5);
    TraceMove(t, 5);
    assert Sleeps(z, LATER);
    TickTaken(z);
    if t.states[6].selected == z.selected {
      QuietOnlyIf(z, LATER);
    }
  }

  lemma TickTaken(st: State)
    requires Accepted(st, LATER)
    ensures Step(st, LATER, Tick).1.Ok?
  {
    hide Work, Conclude;
  }

  lemma OvertakenClock(st: State)
    requires Overtaken(st)
    ensures st.now == LATER && !st.stopped
  {
  }
}
