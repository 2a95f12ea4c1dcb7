/**
 Runs written out move by move, to show what can happen: how to play them, and what the
 steps before the first route is selected do.
 */
module Scenario {
  import opened Arithmetic
  import opened Types
  import opened Sorting
  import opened Rules
  import opened Steps
  import opened Soundness
  import opened Selection
  import opened Invariant
  import opened Rest
  import opened Traces
  import Release
  import Provenance
  import Quiet
  import TwoPhase

  // ---------------------------------------------------------------------- playing

  /** The states reached from st by the moves in turn. */
  ghost function Reached(st: State, ms: seq<Move>): (r: seq<State>)
    ensures |r| == |ms| + 1 && r[0] == st
  {
    if ms == [] then [st]
    else
      var n := |ms| - 1;
      var before := Reached(st, ms[..n]);
      before + [Respond(before[n], ms[n]).0]
  }

  ghost function Played(st: State, ms: seq<Move>): Trace {
    var states := Reached(st, ms);
    Trace(states, ms, seq(|ms|, i requires 0 <= i < |ms| => Respond(states[i], ms[i]).1))
  }

  lemma {:induction false} ReachedNext(st: State, ms: seq<Move>, i: nat)
    requires i < |ms|
    ensures Reached(st, ms)[i + 1] == Respond(Reached(st, ms)[i], ms[i]).0
  {
    hide Respond;
    var n := |ms| - 1;
    if i < n {
      ReachedNext(st, ms[..n], i);
    }
  }

  /** Whatever is played from an opening is a run. */
  lemma PlayedTrace(st: State, ms: seq<Move>)
    requires Opens(st) && forall m :: m in ms ==> DecodedMove(m)
    ensures IsTrace(Played(st, ms))
  {
    hide Respond, Opens, DecodedMove;
    var t := Played(st, ms);
    forall i | Happens(t, i)
      ensures DecodedMove(t.moves[i]) && Respond(t.states[i], t.moves[i]) == (t.states[i + 1], t.results[i])
    {
      ReachedNext(st, ms, i);
      assert ms[i] in ms;
    }
  }

  // ------------------------------------------------------------------ ingredients

  const ANYWHERE := Prefix(IPv6, 0, 0)

  function Wire(id: LinkId): LiveLink
    requires id == 1 || id == 2
  {
    Link(id, V6(FE80 + 1, ""), V6(FE80 + 2, ""), 1, 1200, 0, NoAddr)
  }

  /** The neighbour makes itself heard for three and a half minutes, and tells of a route to everywhere. */
  function Offer(seqno: u16, metric: u16): seq<Message> {
    [Hello(false, 0, 6000), IHU(NoAddr, 1, 6000), Update(ANYWHERE, 7, seqno, metric, 6000, NoAddr, false)]
  }

  function Offered(id: LinkId, seqno: u16, metric: u16): Event {
    Receive(id, Packet(100, Some(Offer(seqno, metric))))
  }

  const LISTENING: int := 210 * SECOND

  function Taken(seqno: u16, metric: u16, now: int): Candidate {
    Candidate(7, seqno, metric, NoAddr, now + LISTENING, MINUTE, false)
  }

  function Hearing(l: LinkState, now: int): LinkState {
    l.(multicast := HelloState(0, true, now + LISTENING), tx := 1, ihuExpires := now + LISTENING)
  }

  /** A link that has heard nothing yet. */
  predicate Deaf(id: LinkId, l: LinkState)
    requires id == 1 || id == 2
  {
    Retimed(NewLink(Wire(id), 0), l)
  }

  lemma AnywhereRoutable()
    ensures RoutablePrefix(ANYWHERE) && ValidPrefix(ANYWHERE)
  {
  }

  lemma HelloTaken(st: State, id: LinkId, l: LinkState)
    requires id in st.links && l == st.links[id] && !l.multicast.seen
    ensures ReceiveOne(st, id, Hello(false, 0, 6000))
         == Tuned(st, id, l.(multicast := HelloState(0, true, st.now + LISTENING)))
  {
    hide Tuned, ReceiveUpdate, ReceiveSeqRequest, ReceiveWildcardRequest, Advertise, BoundedLink, BoundedConfig;
  }

  lemma IHUTaken(st: State, id: LinkId, l: LinkState)
    requires id in st.links && l == st.links[id]
    ensures ReceiveOne(st, id, IHU(NoAddr, 1, 6000)) == Tuned(st, id, l.(tx := 1, ihuExpires := st.now + LISTENING))
  {
    hide Tuned, ReceiveUpdate, ReceiveSeqRequest, ReceiveWildcardRequest, Advertise, BoundedLink, BoundedConfig;
    hide HearHello;
  }

  lemma UpdateTaken(st: State, id: LinkId, m: Message)
    requires id in st.links && m.Update?
    ensures ReceiveOne(st, id, m) == ReceiveUpdate(st, id, m)
  {
    hide ReceiveUpdate, ReceiveSeqRequest, ReceiveWildcardRequest, Advertise, BoundedLink, BoundedConfig, HearHello;
  }

  lemma DeafUnseen(id: LinkId, l: LinkState)
    requires (id == 1 || id == 2) && Deaf(id, l)
    ensures !l.multicast.seen
  {
    hide BoundedLink;
  }

  /** Three messages are taken in turn. */
  lemma ReceiveThree(st: State, id: LinkId, ms: seq<Message>)
    requires |ms| == 3
    ensures ReceiveAll(st, id, ms) == ReceiveOne(ReceiveOne(ReceiveOne(st, id, ms[0]), id, ms[1]), id, ms[2])
  {
    hide ReceiveOne;
    assert ms[..2][..1] == [ms[0]] && ms[..2][..1][..0] == [];
    assert ReceiveAll(st, id, []) == st;
    assert ReceiveAll(st, id, [ms[0]]) == ReceiveOne(st, id, ms[0]);
    assert ReceiveAll(st, id, ms[..2]) == ReceiveOne(ReceiveOne(st, id, ms[0]), id, ms[1]);
  }

  /** What the offer does to the tables before routes are selected. */
  lemma OfferReceived(st: State, id: LinkId, seqno: u16, metric: u16, x: State)
    requires id in st.links && (id == 1 || id == 2) && Deaf(id, st.links[id])
    requires x == st.(links := st.links[id := Hearing(st.links[id], st.now)])
    ensures ReceiveAll(st, id, Offer(seqno, metric)) == ReceiveUpdate(x, id, Offer(seqno, metric)[2])
  {
    hide ReceiveUpdate, ReceiveOne, ReceiveAll, BoundedLink, BoundedConfig, Deaf;
    var l := st.links[id];
    DeafUnseen(id, l);
    ReceiveThree(st, id, Offer(seqno, metric));
    HelloTaken(st, id, l);
    var heard := l.(multicast := HelloState(0, true, st.now + LISTENING));
    var a := Tuned(st, id, heard);
    IHUTaken(a, id, heard);
    assert x == Tuned(a, id, heard.(tx := 1, ihuExpires := st.now + LISTENING));
    UpdateTaken(x, id, Offer(seqno, metric)[2]);
  }

  lemma OfferAdmissible(x: State, id: LinkId, m: Message)
    requires id in x.links && x.cfg.hooks == Hooks(None, None, None) && x.cfg.routerId == 1
    requires m.Update? && m.prefix == ANYWHERE && m.routerId == 7 && m.address == NoAddr && !m.v4ViaV6
    requires SourceKey(ANYWHERE, 7) in x.em.sources || |x.em.sources| < x.cfg.maxSources
    ensures Admissible(x, id, m)
  {
    hide RoutablePrefix, BoundedLink, BoundedConfig;
    AnywhereRoutable();
  }

  /** The candidate is entered, whether it is feasible or not. */
  lemma OfferTaken(x: State, id: LinkId, seqno: u16, metric: u16)
    requires id in x.links && metric != INFINITY && x.cfg.hooks == Hooks(None, None, None) && x.cfg.routerId == 1
    requires SourceKey(ANYWHERE, 7) in x.em.sources || |x.em.sources| < x.cfg.maxSources
    requires |x.routes| + |x.local| + |x.drops| < x.cfg.maxRoutes
    ensures var y := ReceiveUpdate(x, id, Offer(seqno, metric)[2]);
            && y == x.(routes := x.routes[RouteKey(ANYWHERE, id) := Taken(seqno, metric, x.now)],
                       requests := y.requests, em := y.em)
            && y.em.sources == x.em.sources
  {
    hide AcceptUpdate, Admissible, BoundedLink, BoundedConfig, Ask;
    var m := Offer(seqno, metric)[2];
    OfferAdmissible(x, id, m);
    assert ReceiveUpdate(x, id, m) == AcceptUpdate(x, id, m);
    Invariant.ReceiveUpdateFrame(x, id, m);
    Provenance.AcceptRoutes(x, id, m);
    assert NewCandidate(x, m) == Taken(seqno, metric, x.now);
  }

  // ------------------------------------------------------------- what timers leave

  /** The tables a step leaves, next to those its selection made. */
  ghost predicate Tidied(b: State, y: State) {
    && y.cfg == b.cfg && y.now == b.now && y.seqno == b.seqno && y.lastLink == b.lastLink
    && y.local == b.local && y.selected == b.selected && y.drops == b.drops
    && AllRetimed(b.links, y.links)
    && y.routes.Keys == b.routes.Keys && forall k :: k in b.routes ==> Marked(b.routes[k], y.routes[k])
  }

  lemma TimersTidy(b: State)
    requires Unanswered(b)
    ensures Tidied(b, Timers(b))
  {
    hide Timers, AllLinkTimers, Marked, Retimed, SortLinks, NothingDue, Cost;
    TimersRested(b);
    TimersFrame(b);
    AllLinkTimersLinks(b, SortLinks(b.links.Keys));
    LateSources(b);
  }

  lemma WorkTidy(st: State, now: int, event: Event, b: State)
    requires Validate(st, event).None? && b == SelectRoutes(Apply(Begin(st, now), event))
    ensures Work(st, now, event) == Timers(b) && Unanswered(b)
  {
    hide SelectRoutes, Timers, Apply, Expire, Unanswered, Chosen, BoundedLink, RoutablePrefix, ValidPrefix, Work;
    WorkTimers(st, now, event, b);
    SelectRoutesChosen(Apply(Begin(st, now), event));
  }

  lemma StepTidy(st: State, now: int, event: Event, y: State, r: Result<Effects>, b: State)
    requires Valid(st) && Refusal(st, now, event).None? && Decoded(event) && (y, r) == Step(st, now, event)
    requires Validate(st, event).None? && b == SelectRoutes(Apply(Begin(st, now), event))
    ensures r.Ok? && Tidied(b, y) && y.em.sources == Timers(b).em.sources && y.links == Timers(b).links
    ensures y.pending == (if b.selected == st.selected then 0 else y.revision) && !y.stopped
    ensures y.revision == (if b.selected == st.selected then st.revision else st.revision + 1)
  {
    WorkTidy(st, now, event, b);
    hide Valid, Refusal, Decoded, Step, Timers, SelectRoutes, Apply, Begin, Unanswered, Snapshot, Packets;
    hide Validate, Work, Marked, AllRetimed;
    Release.StepProduces(st, now, event, y, r);
    TimersTidy(b);
    TwoPhase.StepWithholds(st, now, event, y, r);
    RevisionRises(st, now, event, y, r);
  }

  lemma RevisionRises(st: State, now: int, event: Event, y: State, r: Result<Effects>)
    requires Refusal(st, now, event).None? && (y, r) == Step(st, now, event)
    ensures y.revision == st.revision || y.revision == st.revision + 1
  {
    hide Refusal, Snapshot, Packets, Work, Validate;
    Release.StepProduces(st, now, event, y, r);
    WorkPhase(st, now, event);
  }

  // ------------------------------------------------------------ nothing to select

  /** No prefix is selected, suppressed or originated. */
  predicate Blank(st: State) { st.selected == map[] && st.drops == map[] && st.local == map[] }

  lemma {:induction false} BlankSelection(st: State)
    requires Blank(st) && forall k :: k in st.routes ==> !Usable(st, k)
    ensures SelectRoutes(st) == st
  {
    hide Usable, SelectRoutes, Timer;
    assert Quiet.Sleeps(st, st.now) && Quiet.At(st, st.now) == st;
    assert Quiet.Contented(st);
    Quiet.SelectQuiet(st, st.now);
  }

  lemma {:induction false} BlankDump(st: State, em: Emission, id: LinkId)
    requires Blank(st)
    ensures Dump(st, em, id, false) == em
  {
  }

  lemma {:induction false} BlankDumps(st: State, em: Emission, ids: seq<LinkId>)
    requires Blank(st)
    ensures DumpAll(st, em, ids) == em
  {
    hide Dump;
    if ids != [] {
      BlankDumps(st, em, ids[..|ids| - 1]);
      BlankDump(st, em, ids[|ids| - 1]);
    }
  }

  /** The next update of every link comes within one interval. */
  lemma UpdateSoon(st: State, id: LinkId, j: LinkId)
    requires j in st.links
    ensures var y := LinkTimers(st, id);
            j in y.links && y.links[j].nextUpdate <= Max(st.links[j].nextUpdate, st.now + st.cfg.updateInterval)
  {
    hide HelloTimer, IHUTimer, BoundedConfig, BoundedLink, Dump, NextRandom, Jitter;
    HelloTimerLinks(st, id);
    HelloTimerFrame(st, id);
    IHUTimerLinks(HelloTimer(st, id), id);
    IHUTimerFrame(HelloTimer(st, id), id);
  }

  lemma {:induction false} BlankLinkTimers(st: State, ids: seq<LinkId>, j: LinkId)
    requires Blank(st) && j in st.links
    ensures var y := AllLinkTimers(st, ids);
            && y.em.sources == st.em.sources
            && j in y.links && y.links[j].nextUpdate <= Max(st.links[j].nextUpdate, st.now + st.cfg.updateInterval)
  {
    hide LinkTimers;
    if ids != [] {
      var n := |ids| - 1;
      var x := AllLinkTimers(st, ids[..n]);
      BlankLinkTimers(st, ids[..n], j);
      AllLinkTimersFrame(st, ids[..n]);
      UpdateSoon(x, ids[n], j);
      BlankTimers(x, ids[n]);
    }
  }

  lemma BlankTimers(st: State, id: LinkId)
    requires Blank(st)
    ensures LinkTimers(st, id).em.sources == st.em.sources
  {
    hide HelloTimer, IHUTimer, UpdateTimer, Dump;
    HelloTimerFrame(st, id);
    var x := IHUTimer(HelloTimer(st, id), id);
    IHUTimerFrame(HelloTimer(st, id), id);
    UpdateTimerFrame(x, id);
    BlankDump(x, x.em, id);
  }

  lemma BlankSources(st: State, j: LinkId)
    requires Blank(st) && j in st.links
    ensures Timers(st).em.sources == st.em.sources
    ensures j in Timers(st).links
    ensures Timers(st).links[j].nextUpdate <= Max(st.links[j].nextUpdate, st.now + st.cfg.updateInterval)
  {
    hide AllLinkTimers, Timers, SortLinks, Dump;
    var a := AllLinkTimers(st, SortLinks(st.links.Keys));
    LateSources(st);
    BlankLinkTimers(st, SortLinks(st.links.Keys), j);
    AllLinkTimersFrame(st, SortLinks(st.links.Keys));
    BlankDumps(a, a.em, SortLinks(a.links.Keys));
  }

  /** A step that finds nothing to select keeps the tables its event left, but for the links' timers. */
  lemma BlankStep(st: State, now: int, event: Event, y: State, r: Result<Effects>, a: State, j: LinkId)
    requires Valid(st) && Refusal(st, now, event).None? && Decoded(event) && (y, r) == Step(st, now, event)
    requires Validate(st, event).None? && a == Apply(Begin(st, now), event)
    requires Blank(st) && Blank(a) && j in a.links && forall k :: k in a.routes ==> !Usable(a, k)
    ensures r.Ok? && Tidied(a, y) && y.em.sources == a.em.sources
    ensures y.pending == 0 && y.revision == st.revision && !y.stopped
    ensures j in y.links && y.links[j].nextUpdate <= Max(a.links[j].nextUpdate, a.now + a.cfg.updateInterval)
  {
    hide Valid, Refusal, Decoded, Step, Timers, SelectRoutes, Apply, Begin, Tidied, Usable, Validate;
    BlankSelection(a);
    StepTidy(st, now, event, y, r, a);
    BlankSources(a, j);
  }

  /** The first selection takes the choice as it is, and leaves the history alone. */
  lemma FirstAdoption(a: State, next: map<Prefix, Route>)
    requires a.selected == map[] && a.drops == map[]
    ensures var y := Adopt(a, next); y == a.(selected := next, em := y.em) && y.em.sources == a.em.sources
  {
    hide Announce, Lose;
    assert SortPrefixes(a.selected.Keys) == [];
    assert LoseAll(a, next, []) == a;
    assert LiveDrops(a, next) == map[];
    assert WithDrops(next, map[]) == next;
  }

  // ------------------------------------------------------------- the first route

  const ONLY := RouteKey(ANYWHERE, 1)

  /** A new engine that takes the offers of router 7. */
  ghost predicate Begun(c: LiveConfig, st: State) {
    && st.cfg == c && c.hooks == Hooks(None, None, None) && c.routerId == 1
    && st.now == 0 && st.pending == 0 && !st.stopped && st.em.sources == map[]
  }

  ghost predicate Linked(c: LiveConfig, st: State) {
    && Begun(c, st) && Blank(st) && st.revision == 0 && st.routes == map[]
    && st.links.Keys == {1} && Deaf(1, st.links[1])
  }

  /** Everything goes by the one candidate. */
  predicate Followed(selected: map<Prefix, Route>) {
    && selected.Keys == {ANYWHERE}
    && var r := selected[ANYWHERE]; Remote(r) && r.link == 1 && r.routerId == 7 && r.seqno == 0
  }

  /** The offer has been taken up. */
  ghost predicate Routed(c: LiveConfig, metric: u16, st: State) {
    && st.cfg == c && st.now == 0 && !st.stopped && st.local == map[]
    && st.routes.Keys == {ONLY} && Marked(Taken(0, metric, 0), st.routes[ONLY])
    && Followed(st.selected) && st.links.Keys == {1}
  }

  lemma BeginNow(c: LiveConfig, st: State)
    requires Begun(c, st) && forall k :: k in st.routes ==> st.routes[k].expires > 0
    ensures Begin(st, 0) == st.(requests := Begin(st, 0).requests) && Refusal(st, 0, Tick).None?
  {
    hide BoundedConfig;
    assert AgedRoutes(st.routes, 0) == st.routes;
    assert LiveSources(map[], 0) == map[];
  }

  lemma Roomy(c: LiveConfig)
    ensures c.maxLinks >= 1 && c.maxRoutes >= 1 && c.maxSources >= 1
  {
  }

  lemma LinkApplied(c: LiveConfig, st: State, a: State)
    requires Begun(c, st) && st == Fresh(c) && a == Apply(Begin(st, 0), AddLink(Wire(1)))
    ensures Validate(st, AddLink(Wire(1))).None?
    ensures Begun(c, a) && Blank(a) && a.routes == map[] && a.links.Keys == {1} && Deaf(1, a.links[1])
  {
    hide BoundedConfig, Begin;
    Roomy(c);
    BeginNow(c, st);
  }

  lemma LinkAdded(c: LiveConfig, st: State, y: State, r: Result<Effects>)
    requires Valid(st) && Begun(c, st) && st == Fresh(c) && (y, r) == Step(st, 0, AddLink(Wire(1)))
    ensures r.Ok? && Linked(c, y)
  {
    hide Valid, Step, SelectRoutes, Timers, Usable, BoundedConfig, Apply, Begin, Validate;
    BeginNow(c, st);
    var a := Apply(Begin(st, 0), AddLink(Wire(1)));
    LinkApplied(c, st, a);
    BlankStep(st, 0, AddLink(Wire(1)), y, r, a, 1);
  }

  lemma OfferApplied(c: LiveConfig, metric: u16, st: State, a: State)
    requires Linked(c, st) && metric < 100 && a == Apply(Begin(st, 0), Offered(1, 0, metric))
    ensures Begun(c, a) && Blank(a) && a.routes == map[ONLY := Taken(0, metric, 0)]
    ensures a.links == st.links[1 := Hearing(st.links[1], 0)]
  {
    hide ReceiveAll, ReceiveUpdate, BoundedLink, BoundedConfig, Begin, Deaf;
    Roomy(c);
    BeginNow(c, st);
    var x := Begin(st, 0);
    var h := x.(links := x.links[1 := Hearing(x.links[1], 0)]);
    PacketFits(x, metric);
    OfferReceived(x, 1, 0, metric, h);
    OfferTaken(h, 1, 0, metric);
  }

  lemma PacketFits(x: State, metric: u16)
    requires 1 in x.links && Deaf(1, x.links[1])
    ensures Apply(x, Offered(1, 0, metric)) == ReceiveAll(x, 1, Offer(0, metric))
  {
    hide ReceiveAll, BoundedConfig;
  }

  lemma OfferUsable(c: LiveConfig, metric: u16, a: State)
    requires Begun(c, a) && a.local == map[] && metric < 100
    requires a.routes == map[ONLY := Taken(0, metric, 0)]
    requires 1 in a.links && Retimed(Hearing(NewLink(Wire(1), 0), 0), a.links[1])
    ensures Usable(a, ONLY)
  {
    hide BoundedConfig;
    assert Cost(a, 1) == 1;
  }

  lemma OfferAdopted(a: State)
    requires Blank(a) && Usable(a, ONLY) && a.routes.Keys == {ONLY}
    requires a.routes[ONLY].id == 7 && a.routes[ONLY].seqno == 0
    ensures var b := SelectRoutes(a);
            b == a.(selected := b.selected, requests := b.requests, em := b.em) && Followed(b.selected)
  {
    hide Choice, Adopt, Answer, Unsettled, MetricAt, Feasible, Preferred;
    FirstAdoption(a, Choice(a));
    Quiet.ChosenBest(a, Choice(a), ONLY);
  }

  lemma OfferSelected(c: LiveConfig, metric: u16, st: State, y: State, r: Result<Effects>)
    requires Valid(st) && Linked(c, st) && metric < 100 && (y, r) == Step(st, 0, Offered(1, 0, metric))
    ensures r.Ok? && y.pending == 1 && Routed(c, metric, y)
  {
    hide Valid, Step, SelectRoutes, Timers, Usable, Begin, BoundedLink, BoundedConfig, Apply;
    BeginNow(c, st);
    var a := Apply(Begin(st, 0), Offered(1, 0, metric));
    OfferApplied(c, metric, st, a);
    OfferUsable(c, metric, a);
    OfferAdopted(a);
    StepTidy(st, 0, Offered(1, 0, metric), y, r, SelectRoutes(a));
  }

  lemma OfferDecoded(metric: u16)
    ensures Decoded(Offered(1, 0, metric))
  {
  }
}
