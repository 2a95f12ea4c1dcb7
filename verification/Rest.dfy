/**
 The state a step leaves behind: nothing in it is overdue, and the routes selected are
 those its candidates still give.
 */
module Rest {
  import opened Arithmetic
  import opened Types
  import opened Sorting
  import opened Rules
  import opened Steps
  import opened History
  import opened Soundness
  import opened Progress
  import opened Selection
  import opened Invariant
  import Release
  import TwoPhase

  /** r is the route of p: as originated, as its candidate stands, or suppressed. */
  predicate Standing(st: State, p: Prefix, r: Route) {
    if p in st.local then r == LocalRoute(st, p)
    else if r.unreachable then p in st.drops && r == DropRoute(p)
    else
      var k := RouteKey(p, r.link);
      k in st.routes && MetricAt(st, k) != INFINITY && r == RouteVia(st, k)
  }

  /** Every prefix originated, routed or suppressed is selected, and rightly so. */
  predicate Chosen(st: State) {
    && (forall p :: p in st.local ==> p in st.selected)
    && (forall p :: p in st.drops ==> p in st.selected && st.selected[p].unreachable && st.drops[p] > st.now)
    && (forall p :: p in st.selected ==> Standing(st, p, st.selected[p]))
  }

  predicate LinksTicked(st: State) {
    forall id :: id in st.links ==>
      st.links[id].nextHello > st.now && st.links[id].nextIHU > st.now && st.links[id].nextUpdate > st.now
  }

  predicate Unanswered(st: State) {
    forall sk :: sk in st.requests ==> !Settled(st.selected, sk, st.requests[sk])
  }

  predicate NothingDue(st: State) {
    && LinksTicked(st)
    && !TriggerDue(st)
    && (forall sk :: sk in st.requests ==> !ResendDue(st, sk))
    && (forall k :: k in st.routes ==> !RefreshDue(st, k))
  }

  predicate Rested(st: State) {
    Live(st) && NothingDue(st) && Unanswered(st) && Chosen(st)
  }

  // ------------------------------------------------------------------ selection

  /** Metrics read configuration, clock, links and candidates only. */
  lemma MetricReads(x: State, y: State, k: RouteKey)
    requires y.cfg == x.cfg && y.now == x.now && y.links == x.links && y.routes == x.routes
    ensures MetricAt(y, k) == MetricAt(x, k)
  {
    hide Accepts, LinkCost;
  }

  /** So do routes, and the originated and suppressed prefixes. */
  lemma StandingReads(x: State, y: State, p: Prefix, r: Route)
    requires y.cfg == x.cfg && y.now == x.now && y.links == x.links && y.routes == x.routes
    requires y.seqno == x.seqno && y.local == x.local
    requires Standing(x, p, r) && (r.unreachable && p in x.drops ==> p in y.drops)
    ensures Standing(y, p, r)
  {
    hide MetricAt;
    MetricReads(x, y, RouteKey(p, r.link));
  }

  lemma ChoiceStands(st: State, next: map<Prefix, Route>, p: Prefix)
    requires IsChoice(st, next) && p in next
    ensures !next[p].unreachable && Standing(st, p, next[p])
  {
    hide MetricAt, Feasible, Preferred;
  }

  lemma AdoptTables(st: State, next: map<Prefix, Route>)
    ensures var y := Adopt(st, next);
            && y.selected == WithDrops(next, y.drops)
            && (forall p :: p in y.drops ==> p !in next && y.drops[p] > st.now)
  {
    hide LoseAll, Announce, SortPrefixes, WithDrops;
    LoseAllFrame(st, next, SortPrefixes(st.selected.Keys));
  }

  lemma LocalsChosen(st: State, next: map<Prefix, Route>)
    requires IsChoice(st, next)
    ensures st.local.Keys <= next.Keys
  {
    hide IsBest, RouteVia, LocalRoute;
  }

  lemma AdoptChosen(st: State)
    ensures Chosen(Adopt(st, Choice(st)))
  {
    hide Choice, IsChoice, LoseAll, Announce, Standing, LiveDrops, SortPrefixes, Adopt;
    var next := Choice(st);
    var y := Adopt(st, next);
    AdoptFrame(st, next);
    AdoptTables(st, next);
    LocalsChosen(st, next);
    forall p | p in y.selected ensures Standing(y, p, y.selected[p]) {
      if p in next && p !in y.drops {
        ChoiceStands(st, next, p);
        StandingReads(st, y, p, next[p]);
      } else {
        DropStands(y, p);
      }
    }
  }

  lemma DropStands(st: State, p: Prefix)
    requires p in st.drops && p !in st.local
    ensures Standing(st, p, DropRoute(p))
  {
    hide MetricAt;
  }

  lemma AnswerUnanswered(st: State)
    ensures var y := AnswerRequests(st); y == st.(em := y.em, requests := y.requests) && Unanswered(y)
  {
    hide Answer, SortSourceKeys, Settled;
  }

  lemma SelectRoutesChosen(st: State)
    ensures Chosen(SelectRoutes(st)) && Unanswered(SelectRoutes(st))
  {
    hide Adopt, Choice, AnswerRequests, Standing, Unanswered;
    AdoptChosen(st);
    var x := Adopt(st, Choice(st));
    var y := SelectRoutes(st);
    AnswerUnanswered(x);
    forall p | p in y.selected ensures Standing(y, p, y.selected[p]) {
      StandingReads(x, y, p, x.selected[p]);
    }
  }

  // --------------------------------------------------------------------- timers

  /** The same candidate but for its refresh mark. */
  predicate Marked(c: Candidate, d: Candidate) { d == c.(refreshRequested := d.refreshRequested) }

  /** Timers leave costs and candidates as selection saw them. */
  ghost predicate Alike(x: State, y: State) {
    && y.cfg == x.cfg && y.now == x.now && y.seqno == x.seqno
    && y.local == x.local && y.selected == x.selected && y.drops == x.drops
    && (forall id :: Cost(y, id) == Cost(x, id))
    && y.routes.Keys == x.routes.Keys
    && (forall k :: k in x.routes ==> Marked(x.routes[k], y.routes[k]))
  }

  lemma AlikeMetric(x: State, y: State, k: RouteKey)
    requires Alike(x, y)
    ensures MetricAt(y, k) == MetricAt(x, k)
  {
    hide Accepts, LinkCost;
    assert Cost(y, k.link) == Cost(x, k.link);
  }

  lemma AlikeStanding(x: State, y: State, p: Prefix, r: Route)
    requires Alike(x, y) && Standing(x, p, r)
    ensures Standing(y, p, r)
  {
    AlikeMetric(x, y, RouteKey(p, r.link));
    hide MetricAt, Cost;
  }

  lemma AlikeChosen(x: State, y: State)
    requires Alike(x, y) && Chosen(x)
    ensures Chosen(y)
  {
    forall p | p in y.selected ensures Standing(y, p, y.selected[p]) {
      AlikeStanding(x, y, p, x.selected[p]);
    }
    hide Standing, Cost;
  }

  /** The same link but for its timers and Hello counter. */
  predicate Retimed(l: LinkState, m: LinkState) {
    m == l.(helloSeq := m.helloSeq, nextHello := m.nextHello, nextIHU := m.nextIHU, nextUpdate := m.nextUpdate)
  }

  lemma RetimedCost(l: LinkState, m: LinkState, now: int)
    requires Retimed(l, m)
    ensures LinkCost(m, now) == LinkCost(l, now)
  {
  }

  predicate OneRetimed(x: map<LinkId, LinkState>, y: map<LinkId, LinkState>, id: LinkId) {
    && y.Keys == x.Keys
    && (forall j :: j in x && j != id ==> y[j] == x[j])
    && (id in x ==> Retimed(x[id], y[id]))
  }

  lemma HelloTimerLinks(st: State, id: LinkId)
    ensures var y := HelloTimer(st, id);
            && OneRetimed(st.links, y.links, id)
            && (id in st.links ==> y.links[id].nextHello > st.now)
            && (id in st.links ==> y.links[id].nextIHU == st.links[id].nextIHU)
            && (id in st.links ==> y.links[id].nextUpdate == st.links[id].nextUpdate)
  {
    hide Queue, Jitter, NextRandom, HelloInterval, Centis, BoundedConfig, BoundedLink;
  }

  lemma IHUTimerLinks(st: State, id: LinkId)
    ensures var y := IHUTimer(st, id);
            && OneRetimed(st.links, y.links, id)
            && (id in st.links ==> y.links[id].nextIHU > st.now)
            && (id in st.links ==> y.links[id].nextHello == st.links[id].nextHello)
            && (id in st.links ==> y.links[id].nextUpdate == st.links[id].nextUpdate)
  {
    hide Queue, Jitter, NextRandom, HelloInterval, Centis, Heard, BoundedConfig, BoundedLink;
  }

  lemma UpdateTimerLinks(st: State, id: LinkId)
    ensures var y := UpdateTimer(st, id);
            && OneRetimed(st.links, y.links, id)
            && (id in st.links ==> y.links[id].nextUpdate > st.now)
            && (id in st.links ==> y.links[id].nextHello == st.links[id].nextHello)
            && (id in st.links ==> y.links[id].nextIHU == st.links[id].nextIHU)
  {
    hide Queue, Jitter, NextRandom, Dump, BoundedLink;
  }

  predicate Ticked(l: LinkState, now: int) { l.nextHello > now && l.nextIHU > now && l.nextUpdate > now }

  lemma LinkTimersLinks(st: State, id: LinkId)
    ensures var y := LinkTimers(st, id);
            OneRetimed(st.links, y.links, id) && (id in st.links ==> Ticked(y.links[id], st.now))
  {
    hide HelloTimer, IHUTimer, UpdateTimer;
    var a := HelloTimer(st, id);
    var b := IHUTimer(a, id);
    HelloTimerLinks(st, id);
    HelloTimerFrame(st, id);
    IHUTimerLinks(a, id);
    IHUTimerFrame(a, id);
    UpdateTimerLinks(b, id);
  }

  predicate AllRetimed(x: map<LinkId, LinkState>, y: map<LinkId, LinkState>) {
    y.Keys == x.Keys && forall j :: j in x ==> Retimed(x[j], y[j])
  }

  lemma {:induction false} AllLinkTimersLinks(st: State, ids: seq<LinkId>)
    ensures var y := AllLinkTimers(st, ids);
            AllRetimed(st.links, y.links) && forall id :: id in ids && id in st.links ==> Ticked(y.links[id], st.now)
  {
    hide LinkTimers;
    if ids != [] {
      var n := |ids| - 1;
      var x := AllLinkTimers(st, ids[..n]);
      AllLinkTimersLinks(st, ids[..n]);
      AllLinkTimersFrame(st, ids[..n]);
      LinkTimersLinks(x, ids[n]);
      assert ids == ids[..n] + [ids[n]];
    }
  }

  lemma RetimedCosts(x: State, y: State)
    requires AllRetimed(x.links, y.links) && y.now == x.now
    ensures forall id :: Cost(y, id) == Cost(x, id)
  {
    hide LinkCost, Retimed;
    forall id ensures Cost(y, id) == Cost(x, id) {
      if id in x.links {
        RetimedCost(x.links[id], y.links[id], x.now);
      }
    }
  }

  lemma TriggerRested(st: State)
    ensures var y := TriggerTimer(st); y == st.(em := y.em) && !TriggerDue(y)
  {
    hide DumpAll, NextRandom, Jitter, SortLinks, BoundedConfig;
  }

  lemma RequestsRested(st: State)
    ensures var y := RequestTimer(st);
            y == st.(em := y.em, requests := y.requests) && y.em.trigger == st.em.trigger
            && (forall sk :: sk in y.requests ==> !ResendDue(y, sk))
            && (Unanswered(st) ==> Unanswered(y))
  {
    hide ResendOut, Reachable, AtLeast, SortSourceKeys;
  }

  lemma RefreshRested(st: State)
    ensures var y := RefreshTimer(st);
            y == st.(em := y.em, routes := y.routes) && y.em.trigger == st.em.trigger
            && y.routes.Keys == st.routes.Keys
            && (forall k :: k in st.routes ==> Marked(st.routes[k], y.routes[k]))
            && (forall k :: k in y.routes ==> !RefreshDue(y, k))
  {
    hide RefreshOut, SortRouteKeys;
  }

  lemma TimersRested(st: State)
    requires Unanswered(st)
    ensures var y := Timers(st); NothingDue(y) && Unanswered(y) && Alike(st, y)
  {
    hide AllLinkTimers, TriggerTimer, RequestTimer, RefreshTimer, Cost, Settled, RefreshDue, Marked, SortLinks;
    var a := AllLinkTimers(st, SortLinks(st.links.Keys));
    AllLinkTimersFrame(st, SortLinks(st.links.Keys));
    AllLinkTimersLinks(st, SortLinks(st.links.Keys));
    var b := TriggerTimer(a);
    TriggerRested(a);
    var c := RequestTimer(b);
    RequestsRested(b);
    var y := RefreshTimer(c);
    RefreshRested(c);
    RetimedCosts(st, y);
  }

  /** The late timers add nothing to the history but what triggered dumps do. */
  lemma LateSources(st: State)
    ensures Timers(st).em.sources == TriggerTimer(AllLinkTimers(st, SortLinks(st.links.Keys))).em.sources
    ensures Timers(st).links == AllLinkTimers(st, SortLinks(st.links.Keys)).links
  {
    hide AllLinkTimers, TriggerTimer, ResendOut, RefreshOut, ResendDue, RefreshDue, SortLinks;
    hide SortSourceKeys, SortRouteKeys;
    TriggerTimerFrame(AllLinkTimers(st, SortLinks(st.links.Keys)));
  }

  // --------------------------------------------------------------------- steps

  lemma ExpireLive(st: State)
    requires RoutesOk(st.cfg, st.now, st.routes)
    ensures Live(Expire(st))
  {
    hide RoutablePrefix, ValidRouterId;
    forall k | k in Expire(st).routes ensures Expire(st).routes[k].expires > st.now {
      assert CandidateOk(st.cfg, st.now, k, st.routes[k]);
    }
  }

  lemma BeginLive(st: State, now: int)
    requires Valid(st) && st.now <= now
    ensures Live(Begin(st, now))
  {
    hide Valid, Sound, Live, Expire;
    assert RoutesOk(st.cfg, now, st.routes) by {
      assert Sound(st) by { ValidSound(st); }
      LaterSound(st, now);
      SoundParts(st.(now := now));
    }
    ExpireLive(st.(now := now));
  }

  lemma ValidSound(st: State)
    requires Valid(st)
    ensures Sound(st)
  {
    hide Sound, SelfFeasible, Anchored;
  }

  lemma AdvancesLive(base: u16, sk: SourceKey, x: State, y: State)
    requires Advances(base, sk, x, y) && Live(x)
    ensures Live(y)
  {
    hide Live, Sound, Evolves;
  }

  lemma WorkTimers(st: State, now: int, event: Event, b: State)
    requires Validate(st, event).None? && b == SelectRoutes(Apply(Begin(st, now), event))
    ensures Work(st, now, event) == Timers(b)
  {
    hide SelectRoutes, Timers, Apply, Expire;
  }

  lemma WorkRested(st: State, now: int, event: Event)
    requires Valid(st) && Refusal(st, now, event).None? && Decoded(event)
    ensures Rested(Work(st, now, event))
  {
    hide Valid, Refusal, Decoded, Validate, Live, NothingDue, Unanswered, Chosen, SelectRoutes, Timers;
    hide Apply, Advances, Alike, Begin, Expire;
    Release.Unrefused(st, now, event);
    ValidateAdmits(st, now, event);
    var sk := SourceKey(Prefix(NoFamily, 0, 0), 0);
    var y := Work(st, now, event);
    WorkAdvances(0, sk, st, now, event);
    BeginLive(st, now);
    AdvancesLive(0, sk, Begin(st, now), y);
    var a := SelectRoutes(Apply(Expire(st.(now := now)), event));
    SelectRoutesChosen(Apply(Expire(st.(now := now)), event));
    TimersRested(a);
    AlikeChosen(a, y);
  }

  /** The engine once the step and the commit it may ask for are done. */
  function Completed(y: State): State {
    if y.pending != 0 then Commit(y, y.pending, true).0 else y
  }

  lemma SameRest(x: State, y: State)
    requires Rested(x)
    requires y.em == x.em.(out := y.em.out)
    requires y == x.(em := y.em, revision := y.revision, pending := y.pending, held := y.held, stopped := y.stopped)
    ensures Rested(y)
  {
    hide Settled, LinkCost, Accepts;
    forall k ensures MetricAt(y, k) == MetricAt(x, k) { MetricReads(x, y, k); }
    forall p | p in y.selected ensures Standing(y, p, y.selected[p]) {
      StandingReads(x, y, p, x.selected[p]);
    }
  }

  /** Nothing is overdue when a step is complete. */
  lemma {:induction false} StepRested(st: State, now: int, event: Event, y: State, r: Result<Effects>)
    requires Valid(st) && Refusal(st, now, event).None? && Decoded(event) && (y, r) == Step(st, now, event)
    ensures Valid(Completed(y)) && Rested(Completed(y)) && Completed(y).pending == 0 && !Completed(y).stopped
  {
    hide Valid, Refusal, Decoded, Validate, Rested, Work, Step, Snapshot, Packets;
    Release.Unrefused(st, now, event);
    WorkRested(st, now, event);
    StepValid(st, now, event);
    Release.StepProduces(st, now, event, y, r);
    TwoPhase.StepWithholds(st, now, event, y, r);
    CommitValid(y, y.pending, true);
    SameRest(Work(st, now, event), Completed(y));
  }
}
