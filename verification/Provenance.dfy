/** Where the candidates of an engine come from: unexpired ones it had, and updates of the packet at hand. */
module Provenance {
  import opened Arithmetic
  import opened Types
  import opened Sorting
  import opened Rules
  import opened Steps
  import opened Progress
  import opened Selection
  import opened Invariant

  /** The candidate k is the one the update m gave at this instant. */
  predicate Learned(now: int, k: RouteKey, c: Candidate, m: Message) {
    && FiniteUpdate(m) && m.prefix == k.prefix
    && c.id == m.routerId && c.Dist() == Distance(m.seqno, m.metric)
    && c.expires == now + Hold(WireTime(m.interval))
  }

  predicate Same(c: Candidate, d: Candidate) {
    c.id == d.id && c.Dist() == d.Dist() && c.expires == d.expires
  }

  predicate Kept(routes: map<RouteKey, Candidate>, k: RouteKey, c: Candidate) {
    k in routes && Same(c, routes[k])
  }

  ghost predicate Origin(x: map<RouteKey, Candidate>, now: int, id: LinkId, ms: seq<Message>, k: RouteKey,
      c: Candidate) {
    Kept(x, k, c) || (k.link == id && exists m :: m in ms && Learned(now, k, c, m))
  }

  /** An update of ms named the prefix of k, on its link. */
  ghost predicate Named(id: LinkId, ms: seq<Message>, k: RouteKey) {
    k.link == id && exists m :: m in ms && FiniteUpdate(m) && m.prefix == k.prefix
  }

  /**
   Each candidate of y is one of x or was named in ms, received on the link id; each finite one
   is as it was or as learned.
   */
  ghost predicate Derived(x: map<RouteKey, Candidate>, y: map<RouteKey, Candidate>, now: int, id: LinkId,
      ms: seq<Message>) {
    && (forall k :: k in y && y[k].advertised != INFINITY ==> Origin(x, now, id, ms, k, y[k]))
    && (forall k :: k in y ==> k in x || Named(id, ms, k))
  }

  lemma UpdateDerived(st: State, id: LinkId, m: Message)
    requires id in st.links && m.Update?
    ensures Derived(st.routes, ReceiveUpdate(st, id, m).routes, st.now, id, [m])
  {
    hide Admissible, HasRoom, Ask, WantsFresh, Feasible, ScheduleTrigger;
    var k := RouteKey(m.prefix, id);
    var y := ReceiveUpdate(st, id, m);
    if FiniteUpdate(m) && Admissible(st, id, m) && HasRoom(st, k) {
      assert y.routes == st.routes[k := NewCandidate(st, m)] by { AcceptRoutes(st, id, m); }
      assert m in [m] && Learned(st.now, k, y.routes[k], m);
    }
  }

  lemma AcceptRoutes(st: State, id: LinkId, m: Message)
    requires m.Update?
    ensures AcceptUpdate(st, id, m).routes == st.routes[RouteKey(m.prefix, id) := NewCandidate(st, m)]
  {
    hide WantsFresh, Feasible, ScheduleTrigger, QueueAll, AtLeast, NewCandidate;
  }

  lemma MessageDerived(st: State, id: LinkId, m: Message)
    requires id in st.links
    ensures Derived(st.routes, ReceiveMessage(st, id, m).routes, st.now, id, [m])
    ensures ReceiveMessage(st, id, m).now == st.now
  {
    hide Advertise, ReceiveUpdate, ReceiveSeqRequest, HearHello, Dump, HelloInterval, Queue, Derived;
    NoneDerived(st.routes, st.now, id, [m]);
    match m
    case Update(_, _, _, _, _, _, _) =>
      UpdateDerived(st, id, m);
      ReceiveUpdateFrame(st, id, m);
    case WildcardUpdate => RetractDerived(st.routes, st.now, id, [m]);
    case SeqRequest(_, _, _, _) => ReceiveSeqRequestFrame(st, id, m);
    case _ =>
  }

  lemma NoneDerived(x: map<RouteKey, Candidate>, now: int, id: LinkId, ms: seq<Message>)
    ensures Derived(x, x, now, id, ms)
  {
  }

  lemma RetractDerived(x: map<RouteKey, Candidate>, now: int, id: LinkId, ms: seq<Message>)
    ensures Derived(x, RetractedRoutes(x, id), now, id, ms)
  {
  }

  lemma DerivedTransitive(x: map<RouteKey, Candidate>, y: map<RouteKey, Candidate>, z: map<RouteKey,
      Candidate>, now: int, id: LinkId, a: seq<Message>, b: seq<Message>)
    requires Derived(x, y, now, id, a) && Derived(y, z, now, id, b)
    ensures Derived(x, z, now, id, a + b)
  {
    hide Learned;
    forall k | k in z ensures k in x || Named(id, a + b, k) {
      NamedMore(id, a, a + b, k);
      NamedMore(id, b, a + b, k);
    }
    forall k | k in z && z[k].advertised != INFINITY ensures Origin(x, now, id, a + b, k, z[k]) {
      if Kept(y, k, z[k]) {
        assert Origin(x, now, id, a, k, y[k]);
        SameOrigin(x, now, id, a, k, y[k], z[k]);
        OriginMore(x, now, id, a, a + b, k, z[k]);
      } else {
        OriginMore(y, now, id, b, a + b, k, z[k]);
      }
    }
  }

  lemma NamedMore(id: LinkId, a: seq<Message>, b: seq<Message>, k: RouteKey)
    requires forall m :: m in a ==> m in b
    ensures Named(id, a, k) ==> Named(id, b, k)
  {
  }

  lemma SameOrigin(x: map<RouteKey, Candidate>, now: int, id: LinkId, ms: seq<Message>, k: RouteKey,
      c: Candidate, d: Candidate)
    requires Origin(x, now, id, ms, k, c) && Same(d, c)
    ensures Origin(x, now, id, ms, k, d)
  {
    if !Kept(x, k, c) {
      var m :| m in ms && Learned(now, k, c, m);
      assert Learned(now, k, d, m);
    }
  }

  lemma OriginMore(x: map<RouteKey, Candidate>, now: int, id: LinkId, a: seq<Message>, b: seq<Message>,
      k: RouteKey, c: Candidate)
    requires Origin(x, now, id, a, k, c) && forall m :: m in a ==> m in b
    ensures Origin(x, now, id, b, k, c)
  {
    hide Learned, Same;
  }

  lemma {:induction false} ReceiveAllDerived(st: State, id: LinkId, ms: seq<Message>)
    ensures Derived(st.routes, ReceiveAll(st, id, ms).routes, st.now, id, ms)
    ensures ReceiveAll(st, id, ms).now == st.now
  {
    hide Derived, SelectRoutes, ReceiveMessage;
    if ms == [] {
      NoneDerived(st.routes, st.now, id, ms);
    } else {
      var n := |ms| - 1;
      var x := ReceiveAll(st, id, ms[..n]);
      ReceiveAllDerived(st, id, ms[..n]);
      OneDerived(x, id, ms[n]);
      DerivedTransitive(st.routes, x.routes, ReceiveAll(st, id, ms).routes, st.now, id, ms[..n], [ms[n]]);
      assert ms == ms[..n] + [ms[n]];
    }
  }

  lemma OneDerived(st: State, id: LinkId, m: Message)
    ensures Derived(st.routes, ReceiveOne(st, id, m).routes, st.now, id, [m])
    ensures ReceiveOne(st, id, m).now == st.now
  {
    hide Derived, SelectRoutes, ReceiveMessage;
    SelectRoutesFrame(st);
    NoneDerived(st.routes, st.now, id, [m]);
    var x := if Asks(m) then SelectRoutes(st) else st;
    if id in x.links {
      MessageDerived(x, id, m);
    }
  }

  // --------------------------------------------------------------------- step

  /** The link and the messages an event delivers. */
  function Messages(event: Event): seq<Message> {
    if event.Receive? && event.packet.decoded.Some? then event.packet.decoded.value else []
  }

  function Arrival(event: Event): LinkId { if event.Receive? then event.id else 0 }

  lemma ApplyDerived(st: State, event: Event)
    requires event.AddLink? ==> BoundedLink(event.link)
    requires event.SetCost? ==> event.cost != 0
    ensures Derived(st.routes, Apply(st, event).routes, st.now, Arrival(event), Messages(event))
    ensures Apply(st, event).now == st.now
  {
    hide Derived, ReceiveAll, RoutablePrefix, BoundedLink, ValidPrefix, Queue, NewLink;
    NoneDerived(st.routes, st.now, Arrival(event), Messages(event));
    match event
    case RemoveLink(id) =>
      ClosedDerived(st.routes, id, st.now + Hold(st.cfg.updateInterval), st.now, Arrival(event), Messages(event));
    case Receive(id, packet) =>
      if packet.decoded.Some? {
        ReceiveAllDerived(st, id, packet.decoded.value);
      }
    case _ =>
  }

  lemma ClosedDerived(x: map<RouteKey, Candidate>, closed: LinkId, until: int, now: int, id: LinkId, ms: seq<Message>)
    ensures Derived(x, ClosedRoutes(x, closed, until), now, id, ms)
  {
  }

  /** The candidate was unexpired before the step, or came with its packet. */
  ghost predicate Supported(x: map<RouteKey, Candidate>, now: int, event: Event, k: RouteKey, c: Candidate) {
    || (Kept(x, k, c) && c.expires > now)
    || (k.link == Arrival(event) && exists m :: m in Messages(event) && Learned(now, k, c, m))
  }

  lemma AgedOrigin(x: map<RouteKey, Candidate>, now: int, event: Event, k: RouteKey, c: Candidate)
    requires Origin(AgedRoutes(x, now), now, Arrival(event), Messages(event), k, c) && c.advertised != INFINITY
    ensures Supported(x, now, event, k, c)
  {
    hide Learned;
  }

  lemma ExpireFrame(st: State)
    ensures Expire(st).routes == AgedRoutes(st.routes, st.now) && Expire(st).now == st.now
    ensures Expire(st).em == st.em.(sources := LiveSources(st.em.sources, st.now))
  {
    hide AgedRoutes, LiveSources, LiveRequests;
  }

  lemma TimersSame(st: State)
    ensures Timers(st).now == st.now
    ensures forall k :: k in Timers(st).routes ==> Kept(st.routes, k, Timers(st).routes[k])
  {
    hide AllLinkTimers, DumpAll, ResendOut, RefreshOut, ResendDue, RefreshDue, Rearm;
    AllLinkTimersFrame(st, SortLinks(st.links.Keys));
  }

  /** Every finite candidate a step leaves is supported. */
  lemma WorkSupported(st: State, now: int, event: Event, y: State)
    requires Validate(st, event).None? && y == Work(st, now, event)
    ensures y.now == now
    ensures forall k :: k in y.routes && y.routes[k].advertised != INFINITY ==>
        Supported(st.routes, now, event, k, y.routes[k])
    ensures forall k :: k in y.routes ==> k in st.routes || Named(Arrival(event), Messages(event), k)
  {
    hide Derived, SelectRoutes, Timers, Apply, Expire, RoutablePrefix, BoundedLink, ValidPrefix, AgedRoutes;
    hide Kept, Origin, Supported, Named;
    var x := Expire(st.(now := now));
    ExpireFrame(st.(now := now));
    ValidateAdmits(st, now, event);
    var a := Apply(x, event);
    ApplyDerived(x, event);
    SelectRoutesFrame(a);
    var b := SelectRoutes(a);
    TimersSame(b);
    forall k | k in y.routes ensures k in st.routes || Named(Arrival(event), Messages(event), k) {
      KeyDerived(st.routes, now, a.routes, event, k, y.routes[k]);
    }
    forall k | k in y.routes && y.routes[k].advertised != INFINITY
      ensures Supported(st.routes, now, event, k, y.routes[k])
    {
      FromDerived(x.routes, a.routes, now, event, k, y.routes[k]);
      AgedOrigin(st.routes, now, event, k, y.routes[k]);
    }
  }

  lemma KeyDerived(x: map<RouteKey, Candidate>, now: int, y: map<RouteKey, Candidate>, event: Event,
      k: RouteKey, c: Candidate)
    requires Derived(AgedRoutes(x, now), y, now, Arrival(event), Messages(event)) && Kept(y, k, c)
    ensures k in x || Named(Arrival(event), Messages(event), k)
  {
    hide Origin, Named, Same, Dead, Aged;
  }

  lemma FromDerived(x: map<RouteKey, Candidate>, y: map<RouteKey, Candidate>, now: int, event: Event,
      k: RouteKey, c: Candidate)
    requires Derived(x, y, now, Arrival(event), Messages(event)) && Kept(y, k, c) && c.advertised != INFINITY
    ensures Origin(x, now, Arrival(event), Messages(event), k, c)
  {
    SameOrigin(x, now, Arrival(event), Messages(event), k, y[k], c);
  }
}
