/**
 The time LoopFreedom grants updates to be forgotten is not granted in vain: when a router's
 collection time is too short by however little, a network can reach a state in which the
 router has collected its history while its neighbour still forwards by what it once sent.
 */
module Tightness {
  import opened Arithmetic
  import opened Types
  import opened Sorting
  import opened Rules
  import opened Steps
  import opened History
  import opened Soundness
  import opened Selection
  import opened Invariant
  import opened Release
  import opened Provenance
  import opened Rest
  import opened Scenario
  import opened Sites
  import opened Network
  import Holddown
  import Progress
  import Restarts
  import Telling
  import Truth
  import TwoPhase
  import Upkeep

  const NO_HOOKS := Hooks(None, None, None)
  const ORIGIN := SourceKey(ANYWHERE, 7)
  const OWN := Route(ANYWHERE, 7, 0, 0, 0, NoAddr, true, false)
  const ORIGINATE := Originate(ANYWHERE, 0)
  const JOIN := AddLink(Wire(1))

  /** The update the origin sends as it starts. */
  function Told(gc: int): Sent { Sent(1, ORIGIN, Distance(0, 0), 6000, 0, gc) }

  // Configurations with an update interval of a minute: of the origin and of its neighbour.

  predicate Collects(gc: int) { LISTENING <= gc <= 24 * HOUR }

  function Origin(gc: int): LiveConfig
    requires Collects(gc)
  {
    DEFAULT_CONFIG.(routerId := 7, updateInterval := MINUTE, sourceGC := gc)
  }

  function Neighbour(gc: int): LiveConfig
    requires Collects(gc)
  {
    DEFAULT_CONFIG.(updateInterval := MINUTE, sourceGC := gc)
  }

  lemma Configured(gc: int)
    requires Collects(gc)
    ensures New(Origin(gc)) == Ok(Fresh(Origin(gc))) && New(Neighbour(gc)) == Ok(Fresh(Neighbour(gc)))
  {
    assert Defaulted(Origin(gc)) == Origin(gc) && Defaulted(Neighbour(gc)) == Neighbour(gc);
  }

  // ----------------------------------------------------------------- the origin

  /** Only the own route is there to be advertised. */
  ghost predicate Alone(gc: int, st: State) {
    && Collects(gc) && st.cfg == Origin(gc) && st.now == 0 && st.seqno == 0
    && st.local == map[ANYWHERE := 0] && st.routes == map[] && st.drops == map[]
    && st.selected.Keys <= {ANYWHERE} && st.em.sources.Keys <= {ORIGIN}
  }

  /** It has been selected. */
  ghost predicate Originated(gc: int, st: State) { Alone(gc, st) && st.selected == map[ANYWHERE := OWN] }

  lemma SelectTouches(st: State)
    ensures var y := SelectRoutes(st); Restarts.Touched(st.em.sources, y.em.sources, Restarts.Origins(y.selected))
  {
    hide Choice, Adopt, Answer, Unsettled, SortSourceKeys, Restarts.Touched, Restarts.Origins;
    var x := Adopt(st, Choice(st));
    AdoptFrame(st, Choice(st));
    Restarts.AnswerTouches(x, x.em, SortSourceKeys(x.requests.Keys));
  }

  lemma NothingLost(gc: int, a: State, b: State)
    requires Alone(gc, a) && b == SelectRoutes(a)
    ensures b.drops == map[]
  {
    hide Choice, LoseAll, Announce, SortPrefixes, Answer, Unsettled, LocalRoute, IsBest, UsablePrefixes, RouteVia;
    var next := Choice(a);
    var ps := SortPrefixes(a.selected.Keys);
    forall p ensures p !in LoseAll(a, next, ps).drops {
      assert p in next || !Reachable(a.selected, p);
      Holddown.LoseAllDrops(a, next, ps, p);
    }
    assert LiveDrops(LoseAll(a, next, ps), next) == map[];
  }

  lemma OwnSelected(gc: int, a: State, b: State)
    requires Alone(gc, a) && b == SelectRoutes(a)
    ensures Originated(gc, b)
  {
    hide SelectRoutes, Unanswered, MetricAt, BoundedConfig;
    NothingLost(gc, a, b);
    Progress.SelectRoutesFrame(a);
    SelectRoutesChosen(a);
    SelectTouches(a);
    assert b.selected == map[ANYWHERE := OWN];
  }

  lemma OriginsOwn(selected: map<Prefix, Route>)
    requires selected == map[ANYWHERE := OWN]
    ensures Restarts.Origins(selected) == {ORIGIN}
  {
    assert selected[ANYWHERE] == OWN && SourceKey(ANYWHERE, OWN.routerId) == ORIGIN;
    assert ORIGIN in Restarts.Origins(selected);
  }

  lemma AloneStep(gc: int, st: State, event: Event, y: State, r: Result<Effects>, a: State, b: State)
    requires Valid(st) && Refusal(st, 0, event).None? && Decoded(event) && (y, r) == Step(st, 0, event)
    requires Validate(st, event).None? && a == Apply(Begin(st, 0), event) && Alone(gc, a) && b == SelectRoutes(a)
    ensures r.Ok? && Originated(gc, y) && !y.stopped && y.links.Keys == a.links.Keys && y.lastLink == a.lastLink
    ensures y.pending == (if st.selected == map[ANYWHERE := OWN] then 0 else y.revision)
    ensures y.revision == (if st.selected == map[ANYWHERE := OWN] then st.revision else st.revision + 1)
  {
    hide Valid, Refusal, Decoded, Step, Apply, Begin, SelectRoutes, Timers, Marked, AllRetimed, Validate;
    hide Restarts.Origins, Origin;
    OwnSelected(gc, a, b);
    StepTidy(st, 0, event, y, r, b);
    Restarts.TimersTouch(b);
    OriginsOwn(b.selected);
    Upkeep.TimersLinks(b);
    Progress.SelectRoutesFrame(a);
  }

  ghost predicate Untouched(gc: int, st: State) {
    && Collects(gc) && st.cfg == Origin(gc) && st.now == 0 && st.seqno == 0 && st.lastLink == 0
    && st.links == map[] && st.local == map[] && st.routes == map[] && st.drops == map[]
    && st.selected == map[] && st.em.sources == map[] && st.requests == map[] && st.pending == 0 && !st.stopped
  }

  lemma OriginateApplied(gc: int, st: State, a: State)
    requires Untouched(gc, st) && a == Apply(Begin(st, 0), ORIGINATE)
    ensures Alone(gc, a) && a.links == map[] && a.lastLink == 0
  {
    hide BoundedConfig, RoutablePrefix, Begin, Origin;
    NothingExpires(st);
  }

  lemma OriginateAccepted(gc: int, st: State)
    requires Untouched(gc, st)
    ensures Refusal(st, 0, ORIGINATE).None? && Validate(st, ORIGINATE).None? && Decoded(ORIGINATE)
  {
    hide BoundedConfig, RoutablePrefix, Origin;
    Roomy(st.cfg);
    AnywhereRoutable();
  }

  lemma NothingExpires(st: State)
    requires st.routes == map[] && st.em.sources == map[] && st.requests == map[] && st.now == 0
    ensures Begin(st, 0) == st
  {
    assert AgedRoutes(st.routes, 0) == map[] && LiveSources(st.em.sources, 0) == map[];
    assert LiveRequests(st.requests, 0) == map[];
  }

  lemma OriginateStep(gc: int, st: State, y: State, r: Result<Effects>)
    requires Collects(gc) && st == Fresh(Origin(gc)) && (y, r) == Step(st, 0, ORIGINATE)
    ensures Decoded(ORIGINATE) && Valid(st) && Valid(y) && r.Ok? && Originated(gc, y)
    ensures y.pending != 0 && !y.stopped && y.links == map[] && y.lastLink == 0
  {
    hide Valid, Step, SelectRoutes, Apply, Begin, Refusal, Validate, Decoded, BoundedConfig;
    FreshValid(Origin(gc));
    var a := Apply(Begin(st, 0), ORIGINATE);
    OriginateApplied(gc, st, a);
    OriginateAccepted(gc, st);
    assert ANYWHERE !in st.selected && ANYWHERE in map[ANYWHERE := OWN];
    StepValid(st, 0, ORIGINATE);
    AloneStep(gc, st, ORIGINATE, y, r, a, SelectRoutes(a));
  }

  /** The own route is in force, and there is no neighbour yet. */
  ghost predicate Waits(gc: int, st: State) {
    && Originated(gc, st) && Valid(st) && !st.stopped && st.pending == 0
    && st.links == map[] && st.lastLink == 0
  }

  lemma JoinApplied(gc: int, st: State, a: State)
    requires Waits(gc, st) && a == Apply(Begin(st, 0), JOIN)
    ensures Refusal(st, 0, JOIN).None? && Validate(st, JOIN).None? && Decoded(JOIN)
    ensures Alone(gc, a) && a.links == map[1 := NewLink(Wire(1), 0)]
  {
    hide BoundedConfig, Valid;
  }

  /** The neighbour that has come up is sent the update. */
  lemma JoinTells(gc: int, b: State, w: State)
    requires Originated(gc, b) && 1 in b.links && b.links[1] == NewLink(Wire(1), 0) && w == Timers(b)
    requires w.em.sources.Keys <= {ORIGIN}
    ensures Telling.Delivers(Packets(w), 1, Update(ANYWHERE, 7, 0, 0, 6000, NoAddr, false))
  {
    hide Timers, Upkeep.Attended, Packets, Telling.Delivers, Retimed;
    Upkeep.TimersServe(b, w, 1);
    Upkeep.AttendedServed(b, w, 1, Upkeep.Refreshing);
    Subset(w.em.sources.Keys, {ORIGIN});
    Progress.Sizes(w.em.sources);
    assert Telling.Informed(w, Packets(w), 1, ANYWHERE);
    assert w.links[1].link == b.links[1].link by { Upkeep.RetimedReads(b.cfg, b.links[1], w.links[1], 0); }
  }

  /** The update is out, and its history kept for as long as the configuration says. */
  ghost predicate Announced(gc: int, st: State) {
    Originated(gc, st) && Valid(st) && !st.stopped && st.pending == 0
  }

  lemma JoinStep(gc: int, st: State, y: State, r: Result<Effects>)
    requires Waits(gc, st) && (y, r) == Step(st, 0, JOIN)
    ensures Decoded(JOIN) && r.Ok? && Announced(gc, y)
    ensures Telling.Delivers(r.value.datagrams, 1, Update(ANYWHERE, 7, 0, 0, 6000, NoAddr, false))
  {
    hide Valid, Step, SelectRoutes, Apply, Begin, Refusal, Validate, Decoded, BoundedConfig, Timers, Work, Packets;
    hide Telling.Delivers, Origin;
    var a := Apply(Begin(st, 0), JOIN);
    var b := SelectRoutes(a);
    JoinApplied(gc, st, a);
    StepValid(st, 0, JOIN);
    AloneStep(gc, st, JOIN, y, r, a, b);
    StepProduces(st, 0, JOIN, y, r);
    WorkTimers(st, 0, JOIN, b);
    OwnSelected(gc, a, b);
    Progress.SelectRoutesFrame(a);
    JoinTells(gc, b, Work(st, 0, JOIN));
  }

  // ------------------------------------------------------------- the collection

  /** With nothing left to route, nothing is reachable and nothing enters the history. */
  lemma NothingReachable(a: State, b: State)
    requires a.local == map[] && a.routes == map[] && a.em.sources == map[] && b == SelectRoutes(a)
    ensures Timers(b).em.sources == map[] && !Reachable(b.selected, ANYWHERE) && b.routes == map[]
  {
    hide SelectRoutes, Timers, Unanswered, MetricAt;
    Progress.SelectRoutesFrame(a);
    SelectRoutesChosen(a);
    SelectTouches(a);
    Restarts.TimersTouch(b);
    assert forall p :: p in b.selected ==> b.selected[p].unreachable;
    assert Restarts.Origins(b.selected) == {};
    assert Timers(b).em.sources.Keys == {};
  }

  lemma WithdrawAccepted(gc: int, st: State)
    requires Announced(gc, st)
    ensures Refusal(st, gc, Withdraw(ANYWHERE)).None? && Validate(st, Withdraw(ANYWHERE)).None?
    ensures Decoded(Withdraw(ANYWHERE))
  {
    hide BoundedConfig, Valid;
    AnywhereRoutable();
  }

  lemma AllCollected(gc: int, st: State)
    requires Announced(gc, st)
    ensures LiveSources(st.em.sources, gc) == map[]
  {
    hide BoundedConfig, LocalOk, SelectedOk, RoutesOk, RequestsOk, DropsOk, LinksOk, Room, Phase, Anchored;
    hide SelfFeasible;
  }

  lemma WithdrawApplied(gc: int, st: State, a: State)
    requires Announced(gc, st) && a == Apply(Begin(st, gc), Withdraw(ANYWHERE))
    ensures a.local == map[] && a.routes == map[] && a.em.sources == map[]
  {
    hide BoundedConfig, Valid, LiveSources, LiveRequests;
    AllCollected(gc, st);
    assert AgedRoutes(map[], gc) == map[];
  }

  lemma WithdrawStep(gc: int, st: State, y: State, r: Result<Effects>)
    requires Announced(gc, st) && (y, r) == Step(st, gc, Withdraw(ANYWHERE))
    ensures Decoded(Withdraw(ANYWHERE)) && r.Ok? && y.em.sources == map[] && y.pending != 0 && !y.stopped
    ensures !Reachable(y.selected, ANYWHERE) && y.routes == map[]
  {
    hide Valid, Step, SelectRoutes, Apply, Begin, Refusal, Validate, Decoded, BoundedConfig, Timers, Marked;
    hide AllRetimed;
    var a := Apply(Begin(st, gc), Withdraw(ANYWHERE));
    var b := SelectRoutes(a);
    WithdrawAccepted(gc, st);
    WithdrawApplied(gc, st, a);
    NothingReachable(a, b);
    StepTidy(st, gc, Withdraw(ANYWHERE), y, r, b);
    assert st.selected[ANYWHERE] == OWN;
  }

  // ------------------------------------------------------------------ the routers

  function Unstarted(c: LiveConfig): Router { Router(false, Fresh(c), 0, 0, map[], map[], map[], {}, None) }

  ghost function Moved(n: Node, a: Router, time: int, event: Event): Router {
    var (st, r) := Step(a.engine, time - a.boot, event);
    if r.Ok? then Stepped(a, n, st, r.value, time) else a
  }

  lemma MovedActs(n: Node, a: Router, b: Router, time: int, event: Event)
    requires a.up && a.engine.cfg.hooks == NO_HOOKS && Decoded(event) && b == Moved(n, a, time, event)
    requires Step(a.engine, time - a.boot, event).1.Ok?
    ensures Acts(n, a, b, time, Moving(event, NO_HOOKS))
  {
    hide Step, Stepped, Decoded, BoundedConfig;
    assert Rehooked(a.engine, NO_HOOKS) == a.engine;
  }

  // ---------------------------------------------------- sequence numbers in the run

  /** All routes and candidates for the origin carry the sequence number zero. */
  predicate Level(st: State) {
    && (Reachable(st.selected, ANYWHERE) && st.selected[ANYWHERE].routerId == 7 ==> st.selected[ANYWHERE].seqno == 0)
    && (forall k :: k in st.routes ==> st.routes[k].seqno == 0)
  }

  lemma LevelSources(st: State, y: State)
    requires SourceWithin(0, ORIGIN, st.em.sources) && Level(y)
    requires forall sk :: sk in y.em.sources ==>
               || (sk in st.em.sources && y.em.sources[sk].Dist() == st.em.sources[sk].Dist())
               || Truth.Records(y.selected, sk, y.em.sources[sk])
    ensures SourceWithin(0, ORIGIN, y.em.sources)
  {
  }

  lemma LevelPackets(st: State, packets: seq<Datagram>)
    requires Level(st) && forall m :: Carried(packets, m) ==> Truth.States(st.selected, m)
    ensures CarriedWithin(0, ORIGIN, packets)
  {
    hide Carried;
  }

  lemma LevelUpdates(n: Node, packets: seq<Datagram>, stamp: int, gc: int)
    requires CarriedWithin(0, ORIGIN, packets)
    ensures forall s :: s in Updates(n, packets, stamp, gc) && s.key == ORIGIN ==> InWindow(0, s.dist.seqno)
  {
    hide InWindow;
    forall s | s in Updates(n, packets, stamp, gc) && s.key == ORIGIN ensures InWindow(0, s.dist.seqno) {
      var i, m :| 0 <= i < |packets| && m in packets[i].messages && FiniteUpdate(m)
                  && s == Sent(n, SourceKey(m.prefix, m.routerId), Claimed(m), m.interval, stamp, gc);
      assert Carried(packets, m) && Claims(m, ORIGIN);
    }
  }

  /** A router that hands out packets of a level engine. */
  lemma SettleWithin(n: Node, a: Router, b: Router, y: State, packets: seq<Datagram>, stamp: int)
    requires a.up && HistoryWithin(0, ORIGIN, a) && Level(y) && b == Settle(a, n, y, packets, stamp)
    requires SourceWithin(0, ORIGIN, y.em.sources) && CarriedWithin(0, ORIGIN, packets) && y.held == []
    ensures RouterWithin(0, ORIGIN, b)
  {
    hide Updates, BoundedConfig;
    LevelUpdates(n, packets, stamp, y.cfg.sourceGC);
  }

  lemma MovedWithin(n: Node, a: Router, b: Router, time: int, event: Event)
    requires a.up && Valid(a.engine) && Decoded(event) && RouterWithin(0, ORIGIN, a)
    requires forall m :: m in Messages(event) ==> !Asks(m)
    requires b == Moved(n, a, time, event) && Step(a.engine, time - a.boot, event).1.Ok? && Level(b.engine)
    ensures RouterWithin(0, ORIGIN, b) && Valid(b.engine)
  {
    hide Valid, Step, Decoded, Messages, Level, CarriedWithin, Settle, Carried, InWindow, Truth.States, Truth.Records;
    hide SourceWithin;
    var (y, r) := Step(a.engine, time - a.boot, event);
    assert y == b.engine by { SettleEngine(n, a, y, r.value.datagrams, time); }
    TwoPhase.Answered(a.engine, time - a.boot, event, y, r);
    Truth.StepTruthful(a.engine, time - a.boot, event, y, r);
    LevelSources(a.engine, y);
    LevelPackets(y, Produced(y, r.value));
    StepValid(a.engine, time - a.boot, event);
    NoneHeld(y);
    if y.pending == 0 {
      SettleWithin(n, a, b, y, r.value.datagrams, time);
    } else {
      WithheldWithin(a, b, y);
    }
  }

  lemma WithheldWithin(a: Router, b: Router, y: State)
    requires a.up && RouterWithin(0, ORIGIN, a) && Level(y) && b == a.(engine := y)
    requires SourceWithin(0, ORIGIN, y.em.sources) && CarriedWithin(0, ORIGIN, y.held)
    ensures RouterWithin(0, ORIGIN, b)
  {
    hide CarriedWithin;
  }

  lemma SettleEngine(n: Node, a: Router, y: State, packets: seq<Datagram>, stamp: int)
    ensures Settle(a, n, y, packets, stamp).engine == y
  {
  }

  lemma NoneHeld(y: State)
    requires Valid(y)
    ensures y.pending == 0 ==> y.held == []
  {
    hide Sound, SelfFeasible, Anchored;
  }

  lemma AppliedWithin(n: Node, a: Router, b: Router)
    requires a.up && RouterWithin(0, ORIGIN, a) && Level(a.engine) && b == Applied(a, n)
    requires !a.engine.stopped && a.engine.pending != 0
    ensures RouterWithin(0, ORIGIN, b)
  {
    hide Updates, ClaimsOf, BoundedConfig, CarriedWithin, InWindow;
    var x, y := a.(fib := a.engine.selected), Commit(a.engine, a.engine.pending, true).0;
    hide Settle;
    SettleWithin(n, x, b, y, a.engine.held, a.boot + a.engine.now);
  }

  lemma StartedWithin(c: LiveConfig, time: int)
    ensures RouterWithin(0, ORIGIN, Unstarted(c)) && RouterWithin(0, ORIGIN, Start(Unstarted(c), Fresh(c), time))
  {
  }

  lemma PersistedWithin(a: Router, b: Router, c: Checkpoint)
    requires a.up && RouterWithin(0, ORIGIN, a) && IsCheckpoint(a.engine, c) && b == Persisted(a, c)
    ensures RouterWithin(0, ORIGIN, b)
  {
    hide InWindow, CarriedWithin, SourceKeyLess, SortPrefixes;
  }

  lemma OriginatedLevel(gc: int, st: State)
    requires Originated(gc, st)
    ensures Level(st)
  {
  }

  lemma LinkedLevel(c: LiveConfig, st: State)
    requires Linked(c, st)
    ensures Level(st)
  {
    hide BoundedConfig, Deaf;
  }

  lemma RoutedLevel(c: LiveConfig, st: State)
    requires Routed(c, 0, st)
    ensures Level(st)
  {
    hide BoundedConfig;
  }

  lemma OfferAsksNothing(m: Message)
    requires m in Messages(Offered(1, 0, 0))
    ensures !Asks(m)
  {
  }

  lemma Boots(n: Node, c: LiveConfig, b: Router, time: int)
    requires New(c) == Ok(Fresh(c)) && b == Start(Unstarted(c), Fresh(c), time)
    ensures Acts(n, Unstarted(c), b, time, Booting(c))
  {
  }

  lemma Settles(n: Node, a: Router, b: Router, time: int)
    requires a.up && !a.engine.stopped && a.engine.pending != 0 && b == Applied(a, n)
    ensures Acts(n, a, b, time, Settling)
  {
    hide BoundedConfig, ClaimsOf, Updates;
  }

  /** The origin in its first life; nothing it relies on can expire. */
  ghost predicate Owner(gc: int, a: Router) {
    Collects(gc) && a.engine.cfg == Origin(gc) && a.engine.routes == map[] && a.claims == map[]
  }

  lemma OriginOriginates(gc: int, a: Router, b: Router)
    requires Collects(gc) && a == Start(Unstarted(Origin(gc)), Fresh(Origin(gc)), 0) && b == Moved(1, a, 0, ORIGINATE)
    ensures Acts(1, a, b, 0, Moving(ORIGINATE, NO_HOOKS)) && Owner(gc, b) && b.up && b.boot == 0
    ensures Originated(gc, b.engine) && Valid(b.engine) && b.engine.pending != 0 && !b.engine.stopped
    ensures b.engine.links == map[] && b.engine.lastLink == 0 && RouterWithin(0, ORIGIN, b)
  {
    hide Step, Decoded, BoundedConfig, Valid, Origin, RouterWithin, Level;
    var (y, r) := Step(a.engine, 0, ORIGINATE);
    OriginateStep(gc, a.engine, y, r);
    assert a.engine.cfg.hooks == NO_HOOKS by { OriginHooks(gc); }
    MovedActs(1, a, b, 0, ORIGINATE);
    StartedWithin(Origin(gc), 0);
    OriginatedLevel(gc, y);
    MovedWithin(1, a, b, 0, ORIGINATE);
  }

  lemma OriginHooks(gc: int)
    requires Collects(gc)
    ensures Origin(gc).hooks == NO_HOOKS
  {
  }

  lemma OriginSettles(gc: int, a: Router, b: Router)
    requires Owner(gc, a) && Originated(gc, a.engine) && Valid(a.engine) && a.engine.pending != 0 && !a.engine.stopped
    requires a.engine.links == map[] && a.engine.lastLink == 0 && a.up && a.boot == 0
    requires b == Applied(a, 1) && RouterWithin(0, ORIGIN, a)
    ensures Acts(1, a, b, 0, Settling) && Owner(gc, b) && b.up && b.boot == 0 && Waits(gc, b.engine)
    ensures RouterWithin(0, ORIGIN, b)
  {
    hide BoundedConfig, Valid, Origin, Updates, RouterWithin, Level;
    OriginatedLevel(gc, a.engine);
    AppliedWithin(1, a, b);
    CommitValid(a.engine, a.engine.pending, true);
    Settles(1, a, b, 0);
  }

  lemma OriginJoins(gc: int, a: Router, b: Router)
    requires Owner(gc, a) && a.up && a.boot == 0 && Waits(gc, a.engine) && b == Moved(1, a, 0, JOIN)
    requires RouterWithin(0, ORIGIN, a)
    ensures Acts(1, a, b, 0, Moving(JOIN, NO_HOOKS)) && Owner(gc, b) && b.up && b.boot == 0 && Announced(gc, b.engine)
    ensures Told(gc) in b.outbox && RouterWithin(0, ORIGIN, b)
  {
    hide Step, Decoded, BoundedConfig, Valid, Telling.Delivers, Origin, Originated, RouterWithin, Level;
    var (y, r) := Step(a.engine, 0, JOIN);
    JoinStep(gc, a.engine, y, r);
    assert Originated(gc, a.engine) && Originated(gc, y);
    AloneRoutes(gc, a.engine);
    AloneRoutes(gc, y);
    OriginHooks(gc);
    MovedActs(1, a, b, 0, JOIN);
    OriginatedLevel(gc, y);
    MovedWithin(1, a, b, 0, JOIN);
    DeliveredTold(gc, r.value.datagrams);
  }

  lemma AloneRoutes(gc: int, st: State)
    requires Originated(gc, st)
    ensures st.routes == map[] && st.cfg == Origin(gc) && st.cfg.sourceGC == gc
  {
  }

  lemma DeliveredTold(gc: int, packets: seq<Datagram>)
    requires Telling.Delivers(packets, 1, Update(ANYWHERE, 7, 0, 0, 6000, NoAddr, false))
    ensures Told(gc) in Updates(1, packets, 0, gc)
  {
    var m := Update(ANYWHERE, 7, 0, 0, 6000, NoAddr, false);
    assert FiniteUpdate(m) && Claimed(m) == Distance(0, 0);
  }

  lemma OriginPersists(gc: int, a: Router) returns (c: Checkpoint, b: Router)
    requires Owner(gc, a) && a.up && a.boot == 0 && Announced(gc, a.engine) && RouterWithin(0, ORIGIN, a)
    ensures Acts(1, a, b, 0, Persisting(c)) && Owner(gc, b) && b.up && b.boot == 0 && Announced(gc, b.engine)
    ensures RouterWithin(0, ORIGIN, b)
  {
    hide BoundedConfig, Valid, Origin, Saved, SortPrefixes, SortSourceKeys, RouterWithin;
    var st := a.engine;
    c := Checkpoint(1, st.cfg.routerId, st.seqno, st.lastLink, st.cfg.sourceGC, Hold(st.cfg.updateInterval),
                    Saved(st.em.sources, SortSourceKeys(st.em.sources.Keys)),
                    SortPrefixes(st.drops.Keys + st.selected.Keys));
    b := Persisted(a, c);
    PersistedWithin(a, b, c);
  }

  lemma OriginWithdraws(gc: int, a: Router, b: Router)
    requires Owner(gc, a) && a.up && a.boot == 0 && Announced(gc, a.engine)
    requires b == Moved(1, a, gc, Withdraw(ANYWHERE)) && RouterWithin(0, ORIGIN, a)
    ensures Acts(1, a, b, gc, Moving(Withdraw(ANYWHERE), NO_HOOKS)) && b.up && b.engine.cfg == Origin(gc)
    ensures b.engine.em.sources == map[] && b.engine.pending != 0 && !b.engine.stopped
    ensures RouterWithin(0, ORIGIN, b) && Level(b.engine)
  {
    hide Step, Decoded, BoundedConfig, Valid, Origin, RouterWithin;
    var (y, r) := Step(a.engine, gc, Withdraw(ANYWHERE));
    WithdrawStep(gc, a.engine, y, r);
    TwoPhase.StepForward(a.engine, gc, Withdraw(ANYWHERE), y, r);
    OriginHooks(gc);
    MovedActs(1, a, b, gc, Withdraw(ANYWHERE));
    MovedWithin(1, a, b, gc, Withdraw(ANYWHERE));
  }

  // --------------------------------------------------------------- the neighbour

  lemma NeighbourBegun(gc: int, st: State)
    requires Collects(gc) && st == Fresh(Neighbour(gc))
    ensures Begun(Neighbour(gc), st) && Valid(st)
  {
    FreshValid(Neighbour(gc));
    hide Valid;
  }

  lemma NeighbourJoins(gc: int, e: int, a: Router, b: Router)
    requires Collects(gc) && a == Start(Unstarted(Neighbour(gc)), Fresh(Neighbour(gc)), e) && b == Moved(2, a, e, JOIN)
    ensures Acts(2, a, b, e, Moving(JOIN, NO_HOOKS)) && b.up && b.boot == e && b.life == 1
    ensures Linked(Neighbour(gc), b.engine) && Valid(b.engine) && RouterWithin(0, ORIGIN, b)
  {
    hide Step, Decoded, BoundedConfig, Valid, Neighbour, Linked, RouterWithin, Level;
    NeighbourBegun(gc, a.engine);
    var (y, r) := Step(a.engine, 0, JOIN);
    LinkAdded(Neighbour(gc), a.engine, y, r);
    JoinDecoded();
    MovedActs(2, a, b, e, JOIN);
    StartedWithin(Neighbour(gc), e);
    LinkedLevel(Neighbour(gc), y);
    MovedWithin(2, a, b, e, JOIN);
  }

  lemma JoinDecoded()
    ensures Decoded(JOIN)
  {
  }

  lemma NeighbourLearns(gc: int, e: int, a: Router, b: Router)
    requires Collects(gc) && a.up && a.boot == e && a.life == 1 && Linked(Neighbour(gc), a.engine) && Valid(a.engine)
    requires b == Moved(2, a, e, Offered(1, 0, 0)) && RouterWithin(0, ORIGIN, a)
    ensures Acts(2, a, b, e, Moving(Offered(1, 0, 0), NO_HOOKS)) && b.up && b.boot == e && b.life == 1
    ensures Routed(Neighbour(gc), 0, b.engine) && b.engine.pending != 0 && RouterWithin(0, ORIGIN, b)
  {
    hide Step, Decoded, BoundedConfig, Valid, Neighbour, Linked, Routed, RouterWithin, Level, Messages, Asks;
    var (y, r) := Step(a.engine, 0, Offered(1, 0, 0));
    OfferSelected(Neighbour(gc), 0, a.engine, y, r);
    OfferDecoded(0);
    LinkedHooks(Neighbour(gc), a.engine);
    MovedActs(2, a, b, e, Offered(1, 0, 0));
    RoutedLevel(Neighbour(gc), y);
    forall m | m in Messages(Offered(1, 0, 0)) ensures !Asks(m) {
      OfferAsksNothing(m);
    }
    MovedWithin(2, a, b, e, Offered(1, 0, 0));
  }

  lemma LinkedHooks(c: LiveConfig, st: State)
    requires Linked(c, st)
    ensures st.cfg == c && c.hooks == NO_HOOKS
  {
  }

  /** All the neighbour relies on is what it was told at time e. */
  ghost predicate Reliant(gc: int, e: int, b: Router) {
    && Collects(gc) && b.up && b.boot == e && b.life == 1 && b.engine.cfg == Neighbour(gc)
    && b.engine.routes.Keys == {ONLY} && Marked(Taken(0, 0, 0), b.engine.routes[ONLY])
    && Followed(b.fib) && b.claims == ClaimsOf(b.engine, e) && b.engine.selected == b.fib
  }

  lemma NeighbourSettles(gc: int, e: int, a: Router, b: Router)
    requires Collects(gc) && a.up && a.boot == e && a.life == 1
    requires Routed(Neighbour(gc), 0, a.engine) && a.engine.pending != 0 && b == Applied(a, 2)
    requires RouterWithin(0, ORIGIN, a)
    ensures Acts(2, a, b, e, Settling) && Reliant(gc, e, b) && RouterWithin(0, ORIGIN, b)
  {
    hide BoundedConfig, Neighbour, Updates, Followed, ClaimsOf, Marked, RouterWithin, Level;
    RoutedLevel(Neighbour(gc), a.engine);
    AppliedWithin(2, a, b);
    Settles(2, a, b, e);
  }

  lemma ReliantOnTime(w: World, gc: int, e: int, b: Router)
    requires Reliant(gc, e, b) && gc <= e + LISTENING + w.lateness
    ensures OnTime(w, b, gc)
  {
    hide BoundedConfig, Neighbour;
  }

  // ----------------------------------------------------------------- the network

  function Pair(time: int, a: Router, b: Router, wire: set<Sent>): Net { Net(time, map[1 := a, 2 := b], wire) }

  /** Every router collects after gc, and announces an update every minute. */
  predicate Configures(gc: int, net: Net) {
    forall n :: n in net.routers ==>
      var cfg := net.routers[n].engine.cfg; cfg.sourceGC == gc && cfg.updateInterval == MINUTE
  }

  ghost predicate RunsTo(w: World, gc: int, r: Run, net: Net) {
    && IsRun(w, r) && r.states[|r.actions|] == net
    && (forall x :: x in r.states ==> Configures(gc, x) && Within(0, ORIGIN, x))
  }

  ghost predicate Reaches(w: World, gc: int, net: Net) { exists r :: RunsTo(w, gc, r, net) }

  lemma Longer(w: World, gc: int, r: Run, x: Net, y: Net, a: Action)
    requires RunsTo(w, gc, r, x) && Next(w, x, y, a) && Configures(gc, y) && Within(0, ORIGIN, y)
    ensures RunsTo(w, gc, Run(r.states + [y], r.actions + [a]), y)
  {
    hide Next, Initial, Configures, Within;
  }

  lemma Onward(w: World, gc: int, x: Net, y: Net, a: Action)
    requires Reaches(w, gc, x) && Next(w, x, y, a) && Configures(gc, y) && Within(0, ORIGIN, y)
    ensures Reaches(w, gc, y)
  {
    hide RunsTo, Next, Configures, Within;
    var r :| RunsTo(w, gc, r, x);
    Longer(w, gc, r, x, y, a);
  }

  lemma ReachedWithin(w: World, gc: int, x: Net)
    requires Reaches(w, gc, x)
    ensures Within(0, ORIGIN, x)
  {
    hide Initial, Next, Configures, Within;
    var r :| RunsTo(w, gc, r, x);
    assert r.states[|r.actions|] in r.states;
  }

  /** The sequence numbers of two routers, whose wire carries what was on it, or else in the outbox of one. */
  lemma PairWithin(x: Net, y: Net, t: int, u: int, a: Router, b: Router, z: Router, c: Router, wire: set<Sent>,
      more: set<Sent>)
    requires Within(0, ORIGIN, x) && x == Pair(t, a, b, wire) && y == Pair(u, z, c, wire + more) && t <= u
    requires RouterWithin(0, ORIGIN, z) && RouterWithin(0, ORIGIN, c) && (more == {} || (a.up && more == a.outbox))
    ensures Within(0, ORIGIN, y)
  {
    hide InWindow, CarriedWithin, SourceWithin;
    assert RouterWithin(0, ORIGIN, x.routers[1]);
  }

  lemma PairConfigures(gc: int, time: int, a: Router, b: Router, wire: set<Sent>)
    requires Collects(gc) && a.engine.cfg == Origin(gc) && b.engine.cfg == Neighbour(gc)
    ensures Configures(gc, Pair(time, a, b, wire))
  {
  }

  lemma OpeningWithin(gc: int, net: Net)
    requires Collects(gc) && net == Pair(0, Unstarted(Origin(gc)), Unstarted(Neighbour(gc)), {})
    ensures Initial(net) && Within(0, ORIGIN, net)
  {
    hide Origin, Neighbour;
    StartedWithin(Origin(gc), 0);
    StartedWithin(Neighbour(gc), 0);
  }

  lemma Opening(w: World, gc: int, net: Net)
    requires Collects(gc) && net == Pair(0, Unstarted(Origin(gc)), Unstarted(Neighbour(gc)), {})
    ensures Reaches(w, gc, net)
  {
    hide Origin, Neighbour, Within, Initial, Configures;
    OpeningWithin(gc, net);
    PairConfigures(gc, 0, Unstarted(Origin(gc)), Unstarted(Neighbour(gc)), {});
    assert RunsTo(w, gc, Run([net], []), net);
  }

  lemma NothingReceived(w: World, x: Net, n: Node, event: Event)
    requires n in x.routers && !event.Receive?
    ensures Genuine(w, x, n, event)
  {
  }

  lemma OriginBehaves(w: World, x: Net, y: Net, time: int, a: Router, z: Router, b: Router, wire: set<Sent>, d: Deed)
    requires Acts(1, a, z, time, d) && !d.Waiting? && (d.Moving? ==> !d.event.Receive?) && x == Pair(time, a, b, wire)
    requires y == Pair(time, z, b, if d.Persisting? then wire + a.outbox else wire)
    ensures Behaves(w, x, y, 1, d)
  {
    hide Acts, Genuine;
    if d.Moving? {
      NothingReceived(w, x, 1, d.event);
    }
    assert y == x.(routers := x.routers[1 := z], wire := y.wire);
  }

  lemma OriginActs(w: World, gc: int, time: int, a: Router, z: Router, b: Router, wire: set<Sent>, d: Deed)
    requires Reaches(w, gc, Pair(time, a, b, wire)) && Acts(1, a, z, time, d)
    requires !d.Waiting? && (d.Moving? ==> !d.event.Receive?)
    requires Collects(gc) && z.engine.cfg == Origin(gc) && b.engine.cfg == Neighbour(gc) && RouterWithin(0, ORIGIN, z)
    ensures Reaches(w, gc, Pair(time, z, b, if d.Persisting? then wire + a.outbox else wire))
  {
    hide Acts, Configures, Reaches, Genuine, Origin, Neighbour, RouterWithin, SentWithin;
    var x, y := Pair(time, a, b, wire), Pair(time, z, b, if d.Persisting? then wire + a.outbox else wire);
    OriginBehaves(w, x, y, time, a, z, b, wire, d);
    PairConfigures(gc, time, z, b, y.wire);
    ReachedWithin(w, gc, x);
    assert RouterWithin(0, ORIGIN, x.routers[2]);
    if d.Persisting? {
      SendsUp(a, z, time, d);
      PairWithin(x, y, time, time, a, b, z, b, wire, a.outbox);
    } else {
      PairWithin(x, y, time, time, a, b, z, b, wire, {});
    }
    Onward(w, gc, x, y, Act(1, d));
  }

  lemma SendsUp(a: Router, z: Router, time: int, d: Deed)
    requires Acts(1, a, z, time, d) && d.Persisting?
    ensures a.up
  {
  }

  lemma NeighbourActs(w: World, gc: int, time: int, a: Router, b: Router, z: Router, wire: set<Sent>, d: Deed)
    requires Reaches(w, gc, Pair(time, a, b, wire)) && Acts(2, b, z, time, d)
    requires !d.Waiting? && !d.Persisting? && (d.Moving? ==> Genuine(w, Pair(time, a, b, wire), 2, d.event))
    requires Collects(gc) && a.engine.cfg == Origin(gc) && z.engine.cfg == Neighbour(gc) && RouterWithin(0, ORIGIN, z)
    ensures Reaches(w, gc, Pair(time, a, z, wire))
  {
    hide Acts, Configures, Reaches, Genuine, Origin, Neighbour, RouterWithin, SentWithin;
    var x, y := Pair(time, a, b, wire), Pair(time, a, z, wire);
    assert Behaves(w, x, y, 2, d);
    PairConfigures(gc, time, a, z, wire);
    ReachedWithin(w, gc, x);
    assert RouterWithin(0, ORIGIN, x.routers[1]);
    PairWithin(x, y, time, time, a, b, a, z, wire, {});
    Onward(w, gc, x, y, Act(2, d));
  }

  lemma BothWait(w: World, gc: int, t: int, u: int, a: Router, b: Router, wire: set<Sent>)
    requires Reaches(w, gc, Pair(t, a, b, wire)) && OnTime(w, a, u) && OnTime(w, b, u) && t <= u
    requires Collects(gc) && a.engine.cfg == Origin(gc) && b.engine.cfg == Neighbour(gc)
    ensures Reaches(w, gc, Pair(u, a, b, wire))
  {
    hide OnTime, Configures, Reaches, Origin, Neighbour, RouterWithin, SentWithin;
    var x, y := Pair(t, a, b, wire), Pair(u, a, b, wire);
    assert Elapses(w, x, y);
    PairConfigures(gc, u, a, b, wire);
    ReachedWithin(w, gc, x);
    assert RouterWithin(0, ORIGIN, x.routers[1]) && RouterWithin(0, ORIGIN, x.routers[2]);
    PairWithin(x, y, t, u, a, b, a, b, wire, {});
    Onward(w, gc, x, y, Elapse);
  }

  lemma RoutedConfig(c: LiveConfig, st: State)
    requires Routed(c, 0, st)
    ensures st.cfg == c
  {
  }

  lemma ReliantConfig(gc: int, e: int, b: Router)
    requires Reliant(gc, e, b)
    ensures b.engine.cfg == Neighbour(gc)
  {
  }

  /** The offer is the update the origin sent. */
  lemma OfferGenuine(w: World, gc: int, x: Net)
    requires 2 in x.routers && x.routers[2].life == 1 && w.peer(2, 1, 1) == 1
    requires Told(gc) in x.wire && Deliverable(w, x.time, Told(gc))
    ensures Genuine(w, x, 2, Offered(1, 0, 0))
  {
  }

  lemma OwnerOnTime(w: World, gc: int, a: Router, t: int)
    requires Owner(gc, a)
    ensures OnTime(w, a, t) && a.engine.cfg == Origin(gc)
  {
    hide Origin;
  }

  /** The neighbour forwards to an origin that does not remember having told it anything. */
  predicate Forgotten(w: World, net: Net) {
    && Forwards(w, net, ORIGIN, 2, 1) && 1 in net.routers && net.routers[1].up
    && ORIGIN !in net.routers[1].engine.em.sources && ORIGIN !in net.routers[1].released
  }

  lemma ForgottenPair(w: World, gc: int, e: int, t: int, a: Router, b: Router, wire: set<Sent>)
    requires Reliant(gc, e, b) && w.peer(2, 1, 1) == 1
    requires a.up && a.engine.em.sources == map[] && a.released == map[]
    ensures Forgotten(w, Pair(t, a, b, wire))
  {
    hide BoundedConfig, Neighbour, ClaimsOf;
  }

  // --------------------------------------------------------------------- the run

  lemma OriginOpens(w: World, gc: int, b: Router) returns (a: Router, wire: set<Sent>)
    requires Collects(gc) && b == Unstarted(Neighbour(gc))
    ensures Owner(gc, a) && a.up && a.boot == 0 && Announced(gc, a.engine)
    ensures Told(gc) in wire && Reaches(w, gc, Pair(0, a, b, wire)) && RouterWithin(0, ORIGIN, a)
  {
    hide RouterWithin, Acts, Owner, Waits, Originated, Announced, Origin, Neighbour, Valid, BoundedConfig, Reaches;
    Configured(gc);
    var a0 := Unstarted(Origin(gc));
    var a1 := Start(a0, Fresh(Origin(gc)), 0);
    var a2 := Moved(1, a1, 0, ORIGINATE);
    var a3 := Applied(a2, 1);
    var a4 := Moved(1, a3, 0, JOIN);
    Opening(w, gc, Pair(0, a0, b, {}));
    Boots(1, Origin(gc), a1, 0);
    StartedWithin(Origin(gc), 0);
    OriginActs(w, gc, 0, a0, a1, b, {}, Booting(Origin(gc)));
    OriginOriginates(gc, a1, a2);
    OwnerOnTime(w, gc, a2, 0);
    OriginActs(w, gc, 0, a1, a2, b, {}, Moving(ORIGINATE, NO_HOOKS));
    OriginSettles(gc, a2, a3);
    OwnerOnTime(w, gc, a3, 0);
    OriginActs(w, gc, 0, a2, a3, b, {}, Settling);
    OriginJoins(gc, a3, a4);
    OwnerOnTime(w, gc, a4, 0);
    OriginActs(w, gc, 0, a3, a4, b, {}, Moving(JOIN, NO_HOOKS));
    var c;
    c, a := OriginPersists(gc, a4);
    OwnerOnTime(w, gc, a, 0);
    OriginActs(w, gc, 0, a4, a, b, {}, Persisting(c));
    wire := {} + a4.outbox;
  }

  lemma NeighbourFollows(w: World, gc: int, e: int, a: Router, wire: set<Sent>) returns (b: Router)
    requires Collects(gc) && a.engine.cfg == Origin(gc) && Told(gc) in wire && w.peer(2, 1, 1) == 1 && e <= w.delay
    requires Reaches(w, gc, Pair(e, a, Unstarted(Neighbour(gc)), wire))
    ensures Reliant(gc, e, b) && Reaches(w, gc, Pair(e, a, b, wire))
  {
    hide RouterWithin, Acts, Linked, Routed, Reliant, Origin, Neighbour, Valid, BoundedConfig, Reaches, Genuine;
    Configured(gc);
    var b0 := Unstarted(Neighbour(gc));
    var b1 := Start(b0, Fresh(Neighbour(gc)), e);
    var b2 := Moved(2, b1, e, JOIN);
    var b3 := Moved(2, b2, e, Offered(1, 0, 0));
    b := Applied(b3, 2);
    Boots(2, Neighbour(gc), b1, e);
    StartedWithin(Neighbour(gc), e);
    NeighbourActs(w, gc, e, a, b0, b1, wire, Booting(Neighbour(gc)));
    NeighbourJoins(gc, e, b1, b2);
    LinkedHooks(Neighbour(gc), b2.engine);
    NothingReceived(w, Pair(e, a, b1, wire), 2, JOIN);
    NeighbourActs(w, gc, e, a, b1, b2, wire, Moving(JOIN, NO_HOOKS));
    NeighbourLearns(gc, e, b2, b3);
    RoutedConfig(Neighbour(gc), b3.engine);
    OfferGenuine(w, gc, Pair(e, a, b2, wire));
    NeighbourActs(w, gc, e, a, b2, b3, wire, Moving(Offered(1, 0, 0), NO_HOOKS));
    NeighbourSettles(gc, e, b3, b);
    ReliantConfig(gc, e, b);
    NeighbourActs(w, gc, e, a, b3, b, wire, Settling);
  }

  /**
   The bound on patience is tight.  Whenever the delay, the hold of an update's candidate
   and the lateness together reach the collection time, some run of two routers that meets
   every other assumption ends with the one forwarding to the other, by an update whose
   history the other has already collected.
   */
  lemma {:induction false} BoundIsTight(w: World, gc: int) returns (r: Run)
    requires 0 <= w.delay && 0 <= w.lateness && w.peer(2, 1, 1) == 1
    requires Hold(MINUTE) <= gc <= 24 * HOUR && w.delay + Hold(MINUTE) + w.lateness >= gc
    ensures IsRun(w, r) && WindowedRun(ORIGIN, r) && (forall x :: x in r.states ==> Configures(gc, x))
    ensures Forgotten(w, r.states[|r.actions|])
  {
    hide RouterWithin, Level, Acts, Owner, Announced, Reliant, Reaches, RunsTo, Forgotten, OnTime, Origin;
    hide Neighbour, BoundedConfig;
    var e := if w.delay <= gc then w.delay else gc;
    var b0 := Unstarted(Neighbour(gc));
    var a, wire := OriginOpens(w, gc, b0);
    OwnerOnTime(w, gc, a, e);
    DownOnTime(w, b0, e);
    BothWait(w, gc, 0, e, a, b0, wire);
    var b := NeighbourFollows(w, gc, e, a, wire);
    OwnerOnTime(w, gc, a, gc);
    ReliantOnTime(w, gc, e, b);
    ReliantConfig(gc, e, b);
    BothWait(w, gc, e, gc, a, b, wire);
    var z := Moved(1, a, gc, Withdraw(ANYWHERE));
    OriginWithdraws(gc, a, z);
    OriginActs(w, gc, gc, a, z, b, wire, Moving(Withdraw(ANYWHERE), NO_HOOKS));
    Settles(1, z, Applied(z, 1), gc);
    AppliedWithin(1, z, Applied(z, 1));
    OriginActs(w, gc, gc, z, Applied(z, 1), b, wire, Settling);
    ForgottenPair(w, gc, e, gc, Applied(z, 1), b, wire);
    r := Exhibit(w, gc, Pair(gc, Applied(z, 1), b, wire));
  }

  lemma Exhibit(w: World, gc: int, net: Net) returns (r: Run)
    requires Reaches(w, gc, net)
    ensures IsRun(w, r) && WindowedRun(ORIGIN, r) && (forall x :: x in r.states ==> Configures(gc, x))
    ensures r.states[|r.actions|] == net
  {
    hide Configures, Next, Initial, Within;
    r :| RunsTo(w, gc, r, net);
    forall i {:trigger r.actions[i]} | 0 <= i < |r.actions| ensures Windowed(ORIGIN, r.states[i], r.states[i + 1]) {
      assert r.states[i] in r.states && r.states[i + 1] in r.states;
    }
  }

  lemma DownOnTime(w: World, b: Router, t: int)
    requires !b.up
    ensures OnTime(w, b, t)
  {
  }
}
