/** The invariant of the engine between steps, kept by Step and Commit. */
module Invariant {
  import opened Arithmetic
  import opened Types
  import opened Sorting
  import opened Rules
  import opened Steps
  import opened History
  import opened Soundness
  import opened Progress
  import opened Selection

  /** Local routes are originated, unreachable ones suppressed. */
  predicate Anchored(selected: map<Prefix, Route>, local: map<Prefix, u16>, drops: map<Prefix, int>) {
    forall p :: p in selected ==>
      && (selected[p].local ==> p in local)
      && (selected[p].unreachable ==> p in drops)
  }

  predicate Phase(st: State) {
    && (st.pending != 0 ==> st.pending == st.revision)
    && (st.pending == 0 ==> st.held == [])
  }

  predicate Valid(st: State) {
    && Sound(st)
    && st.em.out == map[]
    && SelfFeasible(st.selected, st.routes, st.em.sources)
    && Anchored(st.selected, st.local, st.drops)
    && Phase(st)
  }

  /** What validation of the event before expiry leaves true after it. */
  predicate Admitted(st: State, event: Event) {
    match event
    case AddLink(l) => BoundedLink(l) && l.id > st.lastLink && |st.links| < st.cfg.maxLinks
    case SetCost(_, cost) => cost != 0
    case Originate(p, metric) =>
      RoutablePrefix(p) && metric != INFINITY
          && (p in st.local || |st.local| + |st.routes| + |st.drops| < st.cfg.maxRoutes)
    case _ => true
  }

  lemma ValidateAdmits(st: State, now: int, event: Event)
    requires Validate(st, event).None?
    ensures Admitted(Expire(st.(now := now)), event)
  {
    hide BoundedLink, RoutablePrefix, Aged, Dead, LiveSources;
    var y := Expire(st.(now := now));
    Subset(y.routes.Keys, st.routes.Keys);
    Sizes(y.routes);
    Sizes(st.routes);
  }

  // ------------------------------------------------------------------- events

  lemma NewLinkOk(st: State, l: LiveLink)
    requires 0 <= st.now && LinksOk(st.cfg, st.now, st.lastLink, st.links) && l.id > st.lastLink
    requires |st.links| < st.cfg.maxLinks
    ensures LinksOk(st.cfg, st.now, l.id, st.links[l.id := NewLink(l, st.now)])
  {
    hide BoundedLink;
    assert LinkOk(st.now, l.id, l.id, NewLink(l, st.now));
  }

  lemma AddLinkAdvances(base: u16, sk: SourceKey, st: State, l: LiveLink)
    requires Sound(st) && st.em.out == map[] && l.id > st.lastLink && |st.links| < st.cfg.maxLinks
    ensures Advances(base, sk, st, EventAddLink(st, l))
  {
    hide Evolves, NewLink, LocalOk, RoutesOk, SelectedOk, DropsOk, RequestsOk, LinksOk, SourcesOk;
    hide CandidatePrefixes, BoundedLink;
    var y := EventAddLink(st, l);
    NewLinkOk(st, l);
    QueueEvolves(base, sk, Expiry(st), Period(st.cfg), y.links, st.em, y.em, l.id, WildcardRequest);
    assert HeldPrefixes(y) == HeldPrefixes(st);
  }

  lemma FewerLinksOk(st: State, id: LinkId)
    requires LinksOk(st.cfg, st.now, st.lastLink, st.links)
    ensures LinksOk(st.cfg, st.now, st.lastLink, st.links - {id})
  {
    hide LinkOk;
    Subset((st.links - {id}).Keys, st.links.Keys);
    Sizes(st.links - {id});
    Sizes(st.links);
  }

  lemma ClosedRoutesOk(st: State, id: LinkId)
    requires 0 <= st.now && RoutesOk(st.cfg, st.now, st.routes)
    ensures var y := EventRemoveLink(st, id);
            RoutesOk(st.cfg, st.now, y.routes) && CandidatePrefixes(y.routes) == CandidatePrefixes(st.routes)
  {
    hide RoutablePrefix;
    assert EventRemoveLink(st, id).routes.Keys == st.routes.Keys;
  }

  lemma ClosedRoutesLive(st: State, id: LinkId)
    requires RoutesLive(st.now, st.routes)
    ensures RoutesLive(st.now, EventRemoveLink(st, id).routes)
  {
    hide BoundedLink;
  }

  lemma FewerEmission(cfg: LiveConfig, now: int, x: map<LinkId, LinkState>, y: map<LinkId, LinkState>, em: Emission)
    requires EmissionOk(cfg, now, x, em) && em.out == map[]
    ensures EmissionOk(cfg, now, y, em)
  {
    hide SourcesOk;
  }

  /** Other links and candidates, for the prefixes already held. */
  lemma RelinkedAdvances(base: u16, sk: SourceKey, st: State, y: State)
    requires Sound(st) && y == st.(links := y.links, routes := y.routes)
    requires LinksOk(st.cfg, st.now, st.lastLink, y.links) && EmissionOk(st.cfg, st.now, y.links, st.em)
    requires RoutesOk(st.cfg, st.now, y.routes) && CandidatePrefixes(y.routes) == CandidatePrefixes(st.routes)
    requires RoutesLive(st.now, st.routes) ==> RoutesLive(st.now, y.routes)
    ensures Advances(base, sk, st, y)
  {
    hide Evolves, LocalOk, RoutesOk, SelectedOk, DropsOk, RequestsOk, LinksOk, EmissionOk, CandidatePrefixes;
    hide SourcesLive, RequestsLive, RoutesLive, BoundedConfig;
    EvolvesNot(base, sk, Expiry(st), Period(st.cfg), st.em, st.em);
    assert HeldPrefixes(y) == HeldPrefixes(st);
  }

  lemma RemoveLinkAdvances(base: u16, sk: SourceKey, st: State, id: LinkId)
    requires Sound(st) && st.em.out == map[]
    ensures Advances(base, sk, st, EventRemoveLink(st, id))
  {
    hide Sound, Advances, RoutesOk, LinksOk, EmissionOk, CandidatePrefixes, RoutesLive, BoundedConfig;
    hide ClosedRoutes, BoundedLink;
    var y := EventRemoveLink(st, id);
    SoundLinks(st);
    FewerLinksOk(st, id);
    ClosedRoutesOk(st, id);
    if RoutesLive(st.now, st.routes) { ClosedRoutesLive(st, id); }
    FewerEmission(st.cfg, st.now, st.links, y.links, st.em);
    assert y == st.(links := y.links, routes := y.routes) by { assert st.em.out - {id} == st.em.out; }
    RelinkedAdvances(base, sk, st, y);
  }

  lemma SoundLinks(st: State)
    requires Sound(st)
    ensures 0 <= st.now && LinksOk(st.cfg, st.now, st.lastLink, st.links) && RoutesOk(st.cfg, st.now, st.routes)
    ensures EmissionOk(st.cfg, st.now, st.links, st.em)
  {
    hide LocalOk, RoutesOk, SelectedOk, DropsOk, Room, EmissionOk, LinksOk, RequestsOk;
  }

  lemma SetCostAdvances(base: u16, sk: SourceKey, st: State, id: LinkId, cost: u16)
    requires Sound(st) && cost != 0
    ensures Advances(base, sk, st, EventSetCost(st, id, cost))
  {
    hide Advances, Sound, LinkLocal;
    AdvancesNot(base, sk, st);
    if id in st.links {
      SoundLink(st, id);
      var l := st.links[id];
      var priced: LiveLink := l.link.(cost := cost);
      TunedAdvances(base, sk, st, id, l.(link := priced));
    }
  }

  /** New local routes and suppressions, within the room there is. */
  lemma LocalAdvances(base: u16, sk: SourceKey, st: State, local: map<Prefix, u16>, drops: map<Prefix, int>)
    requires Sound(st) && LocalOk(local) && DropsOk(st.now, drops) && Room(st.(local := local, drops := drops))
    ensures Advances(base, sk, st, st.(local := local, drops := drops))
  {
    hide Evolves, LocalOk, EmissionOk, LinksOk, RequestsOk, DropsOk, RoutesOk, SelectedOk, Room;
    EvolvesNot(base, sk, Expiry(st), Period(st.cfg), st.em, st.em);
  }

  lemma SoundTables(st: State, p: Prefix, metric: u16)
    requires Sound(st)
    ensures LocalOk(st.local - {p}) && DropsOk(st.now, st.drops) && DropsOk(st.now, st.drops - {p}) && Room(st)
    ensures RoutablePrefix(p) && metric != INFINITY ==> LocalOk(st.local[p := metric])
  {
    hide EmissionOk, LinksOk, RequestsOk, RoutesOk, SelectedOk, Room, RoutablePrefix, ValidPrefix;
  }

  lemma WithdrawRoom(st: State, p: Prefix)
    requires Room(st)
    ensures Room(st.(local := st.local - {p}))
  {
    hide CandidatePrefixes;
    SmallerRoom(st, st.(local := st.local - {p}));
  }

  lemma WithdrawAdvances(base: u16, sk: SourceKey, st: State, p: Prefix)
    requires Sound(st)
    ensures Advances(base, sk, st, st.(local := st.local - {p}))
  {
    hide Sound, Advances, Room, LocalOk, DropsOk;
    SoundTables(st, p, 0);
    WithdrawRoom(st, p);
    LocalAdvances(base, sk, st, st.local - {p}, st.drops);
  }

  lemma OriginateRoom(st: State, y: State, p: Prefix)
    requires Room(st) && Grounded(st) && y.cfg == st.cfg && y.routes == st.routes && y.selected == st.selected
    requires y.local.Keys == st.local.Keys + {p} && y.drops.Keys == st.drops.Keys - {p}
    requires p in st.local || |st.local| + |st.routes| + |st.drops| < st.cfg.maxRoutes
    ensures Room(y)
  {
    hide CandidatePrefixes;
    HeldSize(st);
    OneMore(HeldPrefixes(st), st.selected.Keys, p, st.cfg.maxRoutes);
    Subset(HeldPrefixes(y) + y.selected.Keys, (HeldPrefixes(st) + {p}) + st.selected.Keys);
  }

  lemma OriginateAdvances(base: u16, sk: SourceKey, st: State, p: Prefix, metric: u16)
    requires Sound(st) && Grounded(st) && Admitted(st, Originate(p, metric))
    ensures Advances(base, sk, st, st.(local := st.local[p := metric], drops := st.drops - {p}))
  {
    hide Sound, Advances, Room, LocalOk, DropsOk, Grounded, RoutablePrefix, BoundedConfig;
    var local, drops := st.local[p := metric], st.drops - {p};
    var y := st.(local := local, drops := drops);
    SoundTables(st, p, metric);
    OriginateRoom(st, y, p);
    LocalAdvances(base, sk, st, local, drops);
  }

  lemma ReceivePacketAdvances(base: u16, sk: SourceKey, st: State, id: LinkId, packet: Packet)
    requires Sound(st) && Grounded(st) && Decoded(Receive(id, packet))
    ensures Advances(base, sk, st, ReceivePacket(st, id, packet))
  {
    hide Advances, Sound, Grounded, Decodable, ReceiveAll;
    AdvancesNot(base, sk, st);
    if packet.decoded.Some? {
      ReceiveAllAdvances(base, sk, st, id, packet.decoded.value);
    }
  }

  lemma ApplyAdvances(base: u16, sk: SourceKey, st: State, event: Event)
    requires Sound(st) && Grounded(st) && st.em.out == map[] && Admitted(st, event) && Decoded(event)
    ensures Advances(base, sk, st, Apply(st, event))
  {
    hide Advances, Sound, Grounded, Decoded, BoundedLink, EventAddLink, EventRemoveLink, EventSetCost;
    hide ReceivePacket, RoutablePrefix;
    match event
    case Tick => AdvancesNot(base, sk, st);
    case AddLink(l) => AddLinkAdvances(base, sk, st, l);
    case RemoveLink(id) => RemoveLinkAdvances(base, sk, st, id);
    case SetCost(id, cost) => SetCostAdvances(base, sk, st, id, cost);
    case Receive(id, packet) => ReceivePacketAdvances(base, sk, st, id, packet);
    case Originate(p, metric) => OriginateAdvances(base, sk, st, p, metric);
    case Withdraw(p) => WithdrawAdvances(base, sk, st, p);
  }

  // --------------------------------------------------------------------- step

  /** Expiry never removes what a selected prefix rests on. */
  lemma ExpireGrounded(st: State)
    requires SelfFeasible(st.selected, st.routes, st.em.sources) && Anchored(st.selected, st.local, st.drops)
    ensures Grounded(Expire(st))
  {
    hide Aged, LiveSources, Feasible;
    var y := Expire(st);
    forall p | p in st.selected ensures p in HeldPrefixes(y) {
      if Remote(st.selected[p]) {
        var k := RouteKey(p, st.selected[p].link);
        assert k in y.routes;
        Held(y.routes, k);
      }
    }
  }

  /** The state a step starts from once due timers have expired. */
  function Begin(st: State, now: int): State { Expire(st.(now := now)) }

  lemma BeginSound(st: State, now: int)
    requires Valid(st) && st.now <= now
    ensures var x := Begin(st, now); Sound(x) && Grounded(x) && x.em.out == map[]
  {
    hide Sound, Grounded, SelfFeasible, Anchored;
    LaterSound(st, now);
    ExpireSound(st.(now := now));
    ExpireGrounded(st.(now := now));
  }

  /** All work of a step, from expiry to the last timer. */
  lemma WorkAdvances(base: u16, sk: SourceKey, st: State, now: int, event: Event)
    requires Valid(st) && Refusal(st, now, event).None? && Decoded(event)
    ensures Advances(base, sk, Begin(st, now), Work(st, now, event))
  {
    hide Valid, Advances, Sound, Grounded, Decoded, Expire, SelectRoutes, Timers, BoundedLink;
    hide RoutablePrefix, ValidPrefix, Admitted;
    var x := Begin(st, now);
    BeginSound(st, now);
    assert Admitted(x, event) by { ValidateAdmits(st, now, event); }
    ApplyAdvances(base, sk, x, event);
    var a := Apply(x, event);
    AdvancesSound(base, sk, x, a);
    SelectRoutesAdvances(base, sk, a);
    AdvancesSound(base, sk, a, SelectRoutes(a));
    TimersAdvances(base, sk, SelectRoutes(a));
    AdvancesTransitive(base, sk, x, a, SelectRoutes(a));
    AdvancesTransitive(base, sk, x, SelectRoutes(a), Work(st, now, event));
  }

  lemma ChoiceAnchored(st: State)
    ensures forall p :: p in Choice(st) ==> (Choice(st)[p].local ==> p in st.local) && !Choice(st)[p].unreachable
  {
    hide Feasible, Preferred, Metric;
    var next := Choice(st);
    forall p | p in next ensures (next[p].local ==> p in st.local) && !next[p].unreachable {
      if p !in st.local {
        assert next[p] == RouteVia(st, RouteKey(p, next[p].link));
      }
    }
  }

  lemma DropsAnchored(next: map<Prefix, Route>, local: map<Prefix, u16>, drops: map<Prefix, int>)
    requires forall p :: p in next ==> (next[p].local ==> p in local) && !next[p].unreachable
    ensures Anchored(WithDrops(next, drops), local, drops)
  {
  }

  lemma AdoptAnchored(st: State)
    ensures var y := Adopt(st, Choice(st)); Anchored(y.selected, y.local, y.drops)
  {
    hide LoseAll, Announce, Choice, IsChoice, LiveDrops, WithDrops, Anchored;
    var next := Choice(st);
    ChoiceAnchored(st);
    LoseAllFrame(st, next, SortPrefixes(st.selected.Keys));
    DropsAnchored(next, st.local, Adopt(st, next).drops);
  }

  lemma WorkAnchored(st: State, now: int, event: Event)
    requires Refusal(st, now, event).None?
    ensures var y := Work(st, now, event); Anchored(y.selected, y.local, y.drops)
  {
    hide Adopt, Choice, Answer, Unsettled, Timers, Apply, Expire, Anchored, RoutablePrefix, BoundedLink, ValidPrefix;
    var x := Apply(Expire(st.(now := now)), event);
    AdoptAnchored(x);
    TimersFrame(SelectRoutes(x));
  }

  lemma TimersFrame(st: State)
    ensures var y := Timers(st);
            y == st.(links := y.links, routes := y.routes, requests := y.requests, em := y.em)
  {
    hide AllLinkTimers, TriggerTimer, RequestTimer, RefreshTimer, SortLinks, BoundedConfig;
    var a := AllLinkTimers(st, SortLinks(st.links.Keys));
    AllLinkTimersFrame(st, SortLinks(st.links.Keys));
    TriggerTimerFrame(a);
    RequestTimerFrame(TriggerTimer(a));
    RefreshTimerFrame(RequestTimer(TriggerTimer(a)));
  }

  /** Emptied queues leave the rest sound. */
  lemma FlushedSound(st: State)
    requires Sound(st)
    ensures Sound(Flushed(st)) && Flushed(st).em.out == map[]
  {
    hide LocalOk, RoutesOk, SelectedOk, DropsOk, RequestsOk, LinksOk, SourcesOk, CandidatePrefixes;
    assert HeldPrefixes(Flushed(st)) == HeldPrefixes(st);
  }

  lemma ConcludeValid(was: map<Prefix, Route>, st: State)
    requires Sound(st) && SelfFeasible(st.selected, st.routes, st.em.sources)
    requires Anchored(st.selected, st.local, st.drops)
    requires st.held == []
    requires st.pending == 0
    ensures Valid(Conclude(was, st).0)
  {
    hide SelfFeasible, Anchored, Snapshot, Packets, LocalOk, RoutesOk, SelectedOk, DropsOk, RequestsOk;
    hide LinksOk, SourcesOk, CandidatePrefixes;
    FlushedSound(st);
    var y := Conclude(was, st).0;
    assert HeldPrefixes(y) == HeldPrefixes(Flushed(st));
  }

  lemma {:induction false} ReceiveAllFrame(st: State, id: LinkId, ms: seq<Message>)
    ensures var y := ReceiveAll(st, id, ms); SamePhase(st, y)
  {
    hide ReceiveOne;
    if ms != [] {
      ReceiveAllFrame(st, id, ms[..|ms| - 1]);
      ReceiveOneFrame(ReceiveAll(st, id, ms[..|ms| - 1]), id, ms[|ms| - 1]);
    }
  }

  /** The commit phase, which only Conclude and Commit change. */
  predicate SamePhase(x: State, y: State) {
    y.revision == x.revision && y.pending == x.pending && y.held == x.held && y.stopped == x.stopped
  }

  lemma SelectRoutesPhase(st: State)
    ensures SamePhase(st, SelectRoutes(st))
  {
    hide SelectRoutes;
    SelectRoutesFrame(st);
  }

  lemma RenewFrame(st: State, from: LinkId, p: Prefix)
    ensures var y := Renew(st, from, p);
            y == st.(seqno := y.seqno, selected := y.selected, drops := y.drops, requests := y.requests, em := y.em)
  {
    hide SelectRoutes, Advertise;
    SelectRoutesFrame(st.(seqno := NextSeqno(st.seqno)));
  }

  lemma ReceiveSeqRequestFrame(st: State, from: LinkId, m: Message)
    requires m.SeqRequest?
    ensures var y := ReceiveSeqRequest(st, from, m);
            y == st.(seqno := y.seqno, selected := y.selected, drops := y.drops, requests := y.requests, em := y.em)
  {
    hide Renew, Advertise, Forward, AtLeast;
    RenewFrame(st, from, m.prefix);
    ForwardFrame(st, from, m);
  }

  lemma AskFrame(st: State, sk: SourceKey, seqno: u16, targets: set<LinkId>, from: LinkId, hops: u8)
    ensures var y := Ask(st, sk, seqno, targets, from, hops); y == st.(requests := y.requests, em := y.em)
  {
    hide AtLeast, QueueAll, SortLinks, BoundedConfig;
  }

  lemma ForwardFrame(st: State, from: LinkId, m: Message)
    requires m.SeqRequest?
    ensures var y := Forward(st, from, m); y == st.(requests := y.requests, em := y.em)
  {
    hide Advertised, IsBestRelay, Ask;
    var y := Forward(st, from, m);
    if y != st {
      var k :| IsBestRelay(st, m.prefix, from, k)
               && y == Ask(st, SourceKey(m.prefix, m.routerId), m.seqno, {k.link}, from, m.hopCount - 1);
      AskFrame(st, SourceKey(m.prefix, m.routerId), m.seqno, {k.link}, from, m.hopCount - 1);
    }
  }

  lemma ReceiveUpdateFrame(st: State, id: LinkId, m: Message)
    requires id in st.links && m.Update?
    ensures var y := ReceiveUpdate(st, id, m);
            y == st.(routes := y.routes, requests := y.requests, em := y.em) && y.em.sources == st.em.sources
  {
    hide Admissible, HasRoom, WantsFresh, Better, AtLeast, QueueAll, ScheduleTrigger, NewCandidate;
    var x := Learn(st, id, m);
    assert x == st.(routes := x.routes, em := x.em) && x.em.sources == st.em.sources;
  }

  lemma HearFrame(st: State, id: LinkId, m: Message)
    requires id in st.links && (m.Hello? || m.IHU?)
    ensures var y := ReceiveMessage(st, id, m); y == st.(links := y.links)
  {
    hide Tuned, Hold, WireTime, HearHello, BoundedLink, BoundedConfig, ReceiveUpdate, ReceiveSeqRequest;
    hide Advertise, ReceiveWildcardRequest, RetractLink, Queue;
    forall l ensures Tuned(st, id, l) == st.(links := Tuned(st, id, l).links) {
      TunedFrame(st, id, l);
    }
  }

  lemma TunedFrame(st: State, id: LinkId, l: LinkState)
    ensures Tuned(st, id, l) == st.(links := Tuned(st, id, l).links)
  {
  }

  lemma UpdateFrame(st: State, id: LinkId, m: Message)
    requires id in st.links && (m.Update? || m.WildcardUpdate?)
    ensures var y := ReceiveMessage(st, id, m);
            y == st.(links := y.links, routes := y.routes, requests := y.requests, em := y.em)
  {
    hide ReceiveUpdate, RetractedRoutes, BoundedLink, HearHello, ReceiveSeqRequest, Advertise;
    hide ReceiveWildcardRequest, Queue;
    if m.Update? {
      ReceiveUpdateFrame(st, id, m);
    }
  }

  lemma DumpFrame(st: State, id: LinkId)
    requires id in st.links
    ensures var y := ReceiveWildcardRequest(st, id); y == st.(links := y.links, em := y.em)
  {
    hide Dump, HelloInterval, BoundedLink;
  }

  lemma RequestFrame(st: State, id: LinkId, m: Message)
    requires id in st.links && (m.AckRequest? || m.Ack? || m.RouteRequest? || m.WildcardRequest?)
    ensures var y := ReceiveMessage(st, id, m); y == st.(links := y.links, em := y.em)
  {
    hide Advertise, ReceiveWildcardRequest, Queue, BoundedLink, HearHello, ReceiveUpdate, ReceiveSeqRequest;
    hide RetractLink;
    DumpFrame(st, id);
  }

  /** Only requests for a sequence number reselect routes while they are handled. */
  lemma MessageFrame(st: State, id: LinkId, m: Message)
    requires id in st.links && !m.SeqRequest?
    ensures var y := ReceiveMessage(st, id, m);
            y == st.(links := y.links, routes := y.routes, requests := y.requests, em := y.em)
  {
    hide ReceiveMessage;
    if m.Hello? || m.IHU? {
      HearFrame(st, id, m);
    } else if m.Update? || m.WildcardUpdate? {
      UpdateFrame(st, id, m);
    } else {
      RequestFrame(st, id, m);
    }
  }

  lemma ReceiveMessagePhase(st: State, id: LinkId, m: Message)
    requires id in st.links
    ensures SamePhase(st, ReceiveMessage(st, id, m))
  {
    if m.SeqRequest? {
      hide ReceiveSeqRequest;
      ReceiveSeqRequestFrame(st, id, m);
    } else {
      hide ReceiveMessage;
      MessageFrame(st, id, m);
    }
  }

  lemma ReceiveOneFrame(st: State, id: LinkId, m: Message)
    ensures SamePhase(st, ReceiveOne(st, id, m))
  {
    hide SelectRoutes, ReceiveMessage;
    SelectRoutesPhase(st);
    var x := if Asks(m) then SelectRoutes(st) else st;
    if id in x.links {
      ReceiveMessagePhase(x, id, m);
    }
  }

  lemma WorkPhase(st: State, now: int, event: Event)
    requires Refusal(st, now, event).None?
    ensures SamePhase(st, Work(st, now, event))
  {
    hide SelectRoutes, Timers, Aged, Dead, LiveSources, ReceiveAll, RoutablePrefix, BoundedLink, ValidPrefix;
    hide Queue, NewLink;
    var x := Expire(st.(now := now));
    if event.Receive? && event.packet.decoded.Some? {
      ReceiveAllFrame(x, event.id, event.packet.decoded.value);
    }
    var a := Apply(x, event);
    assert SamePhase(x, a);
    SelectRoutesPhase(a);
    TimersFrame(SelectRoutes(a));
  }

  /** Every step keeps the invariant. */
  lemma StepValid(st: State, now: int, event: Event)
    requires Valid(st) && Decoded(event)
    ensures Valid(Step(st, now, event).0)
  {
    hide Sound, Work, Conclude, SelfFeasible, Anchored, Decoded, Validate;
    if Refusal(st, now, event).None? {
      var sk := SourceKey(Prefix(NoFamily, 0, 0), 0);
      var y := Work(st, now, event);
      WorkAdvances(0, sk, st, now, event);
      AdvancesSound(0, sk, Begin(st, now), y);
      WorkFeasible(st, now, event);
      WorkAnchored(st, now, event);
      WorkPhase(st, now, event);
      ConcludeValid(st.selected, y);
    }
  }

  lemma WorkFeasible(st: State, now: int, event: Event)
    requires Refusal(st, now, event).None?
    ensures var y := Work(st, now, event); SelfFeasible(y.selected, y.routes, y.em.sources)
  {
    hide SelectRoutes, Timers, Apply, Expire, SelfFeasible, RoutablePrefix, BoundedLink, ValidPrefix;
    var x := Apply(Expire(st.(now := now)), event);
    SelectRoutesFeasible(x);
    TimersKeepFeasible(SelectRoutes(x));
  }

  lemma CommitValid(st: State, revision: nat, success: bool)
    requires Valid(st)
    ensures Valid(Commit(st, revision, success).0)
  {
    hide Sound, SelfFeasible, Anchored, BoundedConfig;
    var y := Commit(st, revision, success).0;
    PhaseSound(st, y);
  }

  /** The tables do not depend on the commit phase. */
  lemma PhaseSound(x: State, y: State)
    requires Sound(x) && y == x.(revision := y.revision, pending := y.pending, held := y.held, stopped := y.stopped)
    ensures Sound(y)
  {
    hide LocalOk, RoutesOk, SelectedOk, DropsOk, RequestsOk, LinksOk, SourcesOk, CandidatePrefixes, BoundedConfig;
    assert HeldPrefixes(y) == HeldPrefixes(x);
  }

  lemma FreshValid(c: LiveConfig)
    ensures Valid(Fresh(c))
  {
    assert HeldPrefixes(Fresh(c)) + Fresh(c).selected.Keys == {};
  }
}
