/** Every transition inside a step keeps the tables sound and lets the history evolve. */
module Progress {
  import opened Arithmetic
  import opened Types
  import opened Sorting
  import opened Rules
  import opened Steps
  import opened History
  import opened Soundness

  // ---------------------------------------------------------------- selection

  lemma FiniteSelected(selected: map<Prefix, Route>)
    requires SelectedOk(selected)
    ensures forall q :: Reachable(selected, q) ==> selected[q].metric != INFINITY
  {
    hide ValidPrefix, ScopedAddress;
  }

  lemma AdvertiseAdvances(base: u16, sk: SourceKey, st: State, id: LinkId, p: Prefix, explicit: bool)
    requires Sound(st)
    ensures Advances(base, sk, st, st.(em := Advertise(st, st.em, id, p, explicit)))
  {
    hide Advertise, Evolves, EmissionOk, SourcesLive;
    FiniteSelected(st.selected);
    AdvertiseEvolves(base, sk, st, st.em, id, p, explicit);
    AdvertiseOk(st, st.em, id, p, explicit);
    if SourcesLive(st.now, st.em.sources) { AdvertiseLive(st, st.em, id, p, explicit); }
    NewEmission(base, sk, st, Advertise(st, st.em, id, p, explicit));
  }

  lemma DumpAdvances(base: u16, sk: SourceKey, st: State, id: LinkId, explicit: bool)
    requires Sound(st)
    ensures Advances(base, sk, st, st.(em := Dump(st, st.em, id, explicit)))
  {
    hide AdvertiseAll, Evolves, EmissionOk, SourcesLive;
    var ps := SortPrefixes(st.selected.Keys);
    FiniteSelected(st.selected);
    AdvertiseAllEvolves(base, sk, st, st.em, id, ps, explicit);
    AdvertiseAllOk(st, st.em, id, ps, explicit);
    if SourcesLive(st.now, st.em.sources) { AdvertiseAllLive(st, st.em, id, ps, explicit); }
    NewEmission(base, sk, st, Dump(st, st.em, id, explicit));
  }

  lemma {:induction false} AnswerAdvances(base: u16, sk: SourceKey, st: State, sks: seq<SourceKey>)
    requires Sound(st)
    ensures Advances(base, sk, st, st.(em := Answer(st, st.em, sks)))
  {
    hide Advertise, Evolves, EmissionOk;
    if sks == [] {
      EvolvesNot(base, sk, Expiry(st), Period(st.cfg), st.em, st.em);
    } else {
      var n := |sks| - 1;
      AnswerAdvances(base, sk, st, sks[..n]);
      var em := Answer(st, st.em, sks[..n]);
      var y := Answer(st, st.em, sks);
      if y != em {
        var from := st.requests[sks[n]].from;
        var x := st.(em := em);
        AdvertiseAdvances(base, sk, x, from, sks[n].prefix, true);
        AdvertiseReads(st, x, em, from, sks[n].prefix, true);
        AdvancesTransitive(base, sk, st, x, st.(em := y));
      }
    }
  }

  /** Advertising reads the configuration, clock, links and selection only. */
  lemma AdvertiseReads(x: State, y: State, em: Emission, id: LinkId, p: Prefix, explicit: bool)
    requires x.cfg == y.cfg && x.now == y.now && x.links == y.links && x.selected == y.selected
    ensures Advertise(x, em, id, p, explicit) == Advertise(y, em, id, p, explicit)
  {
    hide ScheduleTrigger, Queue, Lowered, Gated;
  }

  lemma UnsettledOk(st: State)
    requires RequestsOk(st.cfg, st.now, st.requests)
    ensures RequestsOk(st.cfg, st.now, Unsettled(st))
    ensures RequestsLive(st.now, st.requests) ==> RequestsLive(st.now, Unsettled(st))
  {
    hide Settled;
    Subset(Unsettled(st).Keys, st.requests.Keys);
    assert |Unsettled(st).Keys| == |Unsettled(st)|;
    assert |st.requests.Keys| == |st.requests|;
  }

  lemma AnswerRequestsAdvances(base: u16, sk: SourceKey, st: State)
    requires Sound(st)
    ensures Advances(base, sk, st, AnswerRequests(st))
    ensures Grounded(st) ==> Grounded(AnswerRequests(st))
  {
    hide Answer, Unsettled, Evolves, EmissionOk, RequestsOk, LinksOk, DropsOk, RoutesOk, LocalOk, SelectedOk;
    hide SourcesLive, RoutesLive, RequestsLive;
    AnswerAdvances(base, sk, st, SortSourceKeys(st.requests.Keys));
    UnsettledOk(st);
    assert HeldPrefixes(AnswerRequests(st)) == HeldPrefixes(st);
  }

  lemma SelectRoutesAdvances(base: u16, sk: SourceKey, st: State)
    requires Sound(st)
    ensures Advances(base, sk, st, SelectRoutes(st)) && Grounded(SelectRoutes(st))
  {
    hide Adopt, Choice, AnswerRequests, Sound, Evolves, Grounded;
    var x := Adopt(st, Choice(st));
    AdoptAdvances(base, sk, st);
    AnswerRequestsAdvances(base, sk, x);
    AdvancesTransitive(base, sk, st, x, SelectRoutes(st));
  }

  /** Selection leaves the clock, links, candidates and local routes alone. */
  lemma SelectRoutesFrame(st: State)
    ensures var y := SelectRoutes(st);
            y == st.(selected := y.selected, drops := y.drops, requests := y.requests, em := y.em)
  {
    hide Adopt, Choice, Answer, Unsettled;
    AdoptFrame(st, Choice(st));
  }

  // -------------------------------------------------------------------- links

  /** A new state of one link. */
  lemma TunedAdvances(base: u16, sk: SourceKey, st: State, id: LinkId, l: LinkState)
    requires Sound(st) && id in st.links && LinkOk(st.now, st.lastLink, id, l)
    ensures Advances(base, sk, st, Tuned(st, id, l))
    ensures Grounded(st) ==> Grounded(Tuned(st, id, l))
  {
    hide Evolves, LocalOk, RoutesOk, SelectedOk, DropsOk, RequestsOk, SourcesOk, LinkOk, SourcesLive;
    hide RoutesLive, RequestsLive, CandidatePrefixes;
    var y := Tuned(st, id, l);
    assert y.links.Keys == st.links.Keys;
    assert |y.links.Keys| == |y.links| && |st.links.Keys| == |st.links|;
    assert HeldPrefixes(y) == HeldPrefixes(st);
    EvolvesNot(base, sk, Expiry(st), Period(st.cfg), st.em, st.em);
  }

  /** A message that is no finite update. */
  lemma SendAdvances(base: u16, sk: SourceKey, st: State, id: LinkId, m: Message)
    requires Sound(st) && !FiniteUpdate(m)
    ensures Advances(base, sk, st, Send(st, id, m))
  {
    hide Evolves, SourcesOk;
    var y := Send(st, id, m);
    QueueEvolves(base, sk, Expiry(st), Period(st.cfg), st.links, st.em, y.em, id, m);
    NewEmission(base, sk, st, y.em);
  }

  lemma ShuffleAdvances(base: u16, sk: SourceKey, st: State)
    requires Sound(st)
    ensures Advances(base, sk, st, Shuffle(st))
  {
    hide Evolves, SourcesOk, NextRandom;
    EvolvesNot(base, sk, Expiry(st), Period(st.cfg), st.em, Shuffle(st).em);
    NewEmission(base, sk, st, Shuffle(st).em);
  }

  // ------------------------------------------------------------------ updates

  /** New candidates under admitted keys only. */
  lemma RoutesAdvance(base: u16, sk: SourceKey, st: State, routes: map<RouteKey, Candidate>)
    requires Sound(st) && RoutesOk(st.cfg, st.now, routes) && CandidatePrefixes(routes) <= CandidatePrefixes(st.routes)
    requires RoutesLive(st.now, st.routes) ==> RoutesLive(st.now, routes)
    ensures Advances(base, sk, st, st.(routes := routes))
  {
    hide Evolves, ValidPrefix, ScopedAddress, CandidateOk, RouteOk, SourceOk, PendingOk, LinkOk;
    var y := st.(routes := routes);
    EvolvesNot(base, sk, Expiry(st), Period(st.cfg), st.em, st.em);
    SmallerRoom(st, y);
  }

  lemma RetractLinkAdvances(base: u16, sk: SourceKey, st: State, id: LinkId)
    requires Sound(st)
    ensures Advances(base, sk, st, RetractLink(st, id))
    ensures Grounded(st) ==> Grounded(RetractLink(st, id))
  {
    hide ValidPrefix, ScopedAddress, Evolves, LinksOk, EmissionOk;
    var y := RetractLink(st, id);
    assert y.routes.Keys == st.routes.Keys;
    assert CandidatePrefixes(y.routes) == CandidatePrefixes(st.routes);
    RoutesAdvance(base, sk, st, y.routes);
  }

  lemma Sizes<K, V>(m: map<K, V>)
    ensures |m| == |m.Keys|
  {
  }

  lemma UnionSize<T>(a: set<T>, b: set<T>)
    ensures |a + b| <= |a| + |b|
  {
    assert a + b == a + (b - a);
    Subset(b - a, b);
  }

  lemma {:induction false} ImageSize(routes: map<RouteKey, Candidate>)
    ensures |CandidatePrefixes(routes)| <= |routes|
    decreases |routes|
  {
    if routes == map[] {
      assert CandidatePrefixes(routes) == {};
    } else {
      var k :| k in routes;
      var rest := routes - {k};
      assert routes.Keys == rest.Keys + {k};
      assert |routes.Keys| == |rest.Keys| + 1;
      ImageSize(rest);
      assert CandidatePrefixes(routes) == CandidatePrefixes(rest) + {k.prefix};
      UnionSize(CandidatePrefixes(rest), {k.prefix});
    }
  }

  /** The admission test bounds the number of distinct prefixes held. */
  lemma HeldSize(st: State)
    ensures |HeldPrefixes(st)| <= |st.local| + |st.routes| + |st.drops|
  {
    ImageSize(st.routes);
    UnionSize(st.local.Keys, CandidatePrefixes(st.routes));
    UnionSize(st.local.Keys + CandidatePrefixes(st.routes), st.drops.Keys);
  }

  lemma AddedPrefix(routes: map<RouteKey, Candidate>, k: RouteKey, c: Candidate)
    ensures CandidatePrefixes(routes[k := c]) == CandidatePrefixes(routes) + {k.prefix}
  {
    assert routes[k := c].Keys == routes.Keys + {k};
  }

  lemma OneMore<T>(h: set<T>, s: set<T>, p: T, max: int)
    requires s <= h && |h + s| <= max && (p in h || |h| < max)
    ensures |(h + {p}) + s| <= max
  {
    assert (h + {p}) + s == h + {p};
    assert h + s == h;
    if p in h {
      assert h + {p} == h;
    }
  }

  lemma LearnRoom(st: State, y: State, k: RouteKey)
    requires Room(st) && Grounded(st) && HasRoom(st, k)
    requires y.cfg == st.cfg && y.local == st.local && y.drops == st.drops && y.selected == st.selected
    requires CandidatePrefixes(y.routes) == CandidatePrefixes(st.routes) + {k.prefix}
    ensures Room(y) && Grounded(y)
  {
    hide CandidatePrefixes;
    assert HeldPrefixes(y) == HeldPrefixes(st) + {k.prefix};
    assert k.prefix in HeldPrefixes(st) || |HeldPrefixes(st)| < st.cfg.maxRoutes by {
      if k in st.routes {
        Held(st.routes, k);
      } else {
        HeldSize(st);
      }
    }
    OneMore(HeldPrefixes(st), st.selected.Keys, k.prefix, st.cfg.maxRoutes);
  }

  lemma Held(routes: map<RouteKey, Candidate>, k: RouteKey)
    requires k in routes
    ensures k.prefix in CandidatePrefixes(routes)
  {
  }

  lemma NewCandidateOk(st: State, id: LinkId, m: Message)
    requires 0 <= st.now && id in st.links && LinkOk(st.now, st.lastLink, id, st.links[id])
    requires FiniteUpdate(m) && Decodable(m) && Admissible(st, id, m)
    ensures CandidateOk(st.cfg, st.now, RouteKey(m.prefix, id), NewCandidate(st, m))
    ensures NewCandidate(st, m).expires > st.now
  {
    hide ValidPrefix, ScopedAddress, Accepts;
  }

  lemma LearnAdvances(base: u16, sk: SourceKey, st: State, id: LinkId, m: Message)
    requires Sound(st) && Grounded(st) && FiniteUpdate(m) && Decodable(m)
    requires id in st.links && Admissible(st, id, m) && HasRoom(st, RouteKey(m.prefix, id))
    ensures Advances(base, sk, st, Learn(st, id, m)) && Grounded(Learn(st, id, m))
  {
    hide RoutablePrefix, Evolves, Admissible, ScheduleTrigger, HeldPrefixes, RouteOk, SourceOk, PendingOk;
    hide HasRoom, CandidateOk, NewCandidate;
    hide Room, Grounded, Decodable, SourcesLive, RequestsLive;
    var k := RouteKey(m.prefix, id);
    var y := Learn(st, id, m);
    AddedPrefix(st.routes, k, NewCandidate(st, m));
    LearnRoom(st, y, k);
    ScheduleTriggerOk(st.now, st.em.trigger, true);
    assert LinkOk(st.now, st.lastLink, id, st.links[id]);
    NewCandidateOk(st, id, m);
    EvolvesNot(base, sk, Expiry(st), Period(st.cfg), st.em, y.em);
  }

  lemma ReceiveFiniteAdvances(base: u16, sk: SourceKey, st: State, id: LinkId, m: Message)
    requires Sound(st) && Grounded(st) && id in st.links && FiniteUpdate(m) && Decodable(m)
    requires Admissible(st, id, m) && HasRoom(st, RouteKey(m.prefix, id))
    ensures Advances(base, sk, st, ReceiveUpdate(st, id, m)) && Grounded(ReceiveUpdate(st, id, m))
  {
    hide Admissible, HasRoom, Learn, Ask, Advances, Grounded, Sound, Decodable, WantsFresh, Better;
    var x := Learn(st, id, m);
    var y := ReceiveUpdate(st, id, m);
    LearnAdvances(base, sk, st, id, m);
    if y != x {
      var s := SourceKey(m.prefix, m.routerId);
      assert Sound(x) by { AdvancesSound(base, sk, st, x); }
      AskAdvances(base, sk, x, s, NextSeqno(x.em.sources[s].seqno), {id}, 0, 64);
      AskGrounded(x, s, NextSeqno(x.em.sources[s].seqno), {id}, 0, 64);
      AdvancesTransitive(base, sk, st, x, y);
    }
  }

  lemma ReceiveUpdateAdvances(base: u16, sk: SourceKey, st: State, id: LinkId, m: Message)
    requires Sound(st) && Grounded(st) && id in st.links && m.Update? && Decodable(m)
    ensures Advances(base, sk, st, ReceiveUpdate(st, id, m)) && Grounded(ReceiveUpdate(st, id, m))
  {
    var k := RouteKey(m.prefix, id);
    if m.metric != INFINITY && Admissible(st, id, m) && HasRoom(st, k) {
      ReceiveFiniteAdvances(base, sk, st, id, m);
    } else {
      hide Advances, Sound, Grounded, Admissible, HasRoom, Learn, Ask, Decodable;
      if m.metric == INFINITY && k in st.routes {
        RetractOneAdvances(base, sk, st, k);
      } else {
        AdvancesNot(base, sk, st);
      }
    }
  }

  lemma RetractOneAdvances(base: u16, sk: SourceKey, st: State, k: RouteKey)
    requires Sound(st) && k in st.routes
    ensures var y := st.(routes := st.routes[k := st.routes[k].(advertised := INFINITY)]);
            Advances(base, sk, st, y) && (Grounded(st) ==> Grounded(y))
  {
    hide ValidPrefix, ScopedAddress, Evolves, LinksOk, EmissionOk;
    var y := st.(routes := st.routes[k := st.routes[k].(advertised := INFINITY)]);
    assert y.routes.Keys == st.routes.Keys;
    assert CandidatePrefixes(y.routes) == CandidatePrefixes(st.routes);
    RoutesAdvance(base, sk, st, y.routes);
  }

  // ----------------------------------------------------------------- messages

  /** New emissions leave the admission-limited tables alone. */
  lemma EmissionGrounded(st: State, em: Emission)
    requires Grounded(st)
    ensures Grounded(st.(em := em))
  {
    assert HeldPrefixes(st.(em := em)) == HeldPrefixes(st);
  }

  lemma ForwardAdvances(base: u16, sk: SourceKey, st: State, from: LinkId, m: Message)
    requires Sound(st) && Grounded(st) && m.SeqRequest?
    ensures Advances(base, sk, st, Forward(st, from, m)) && Grounded(Forward(st, from, m))
  {
    hide Advances, Sound, Grounded, Ask, Advertised, IsBestRelay;
    var y := Forward(st, from, m);
    if m.routerId == st.cfg.routerId || m.hopCount < 2 || !Advertised(st, m.prefix)
        || !exists k :: IsBestRelay(st, m.prefix, from, k) {
      AdvancesNot(base, sk, st);
    } else {
      var k :| IsBestRelay(st, m.prefix, from, k)
          && y == Ask(st, SourceKey(m.prefix, m.routerId), m.seqno, {k.link}, from, m.hopCount - 1);
      AskAdvances(base, sk, st, SourceKey(m.prefix, m.routerId), m.seqno, {k.link}, from, m.hopCount - 1);
      AskGrounded(st, SourceKey(m.prefix, m.routerId), m.seqno, {k.link}, from, m.hopCount - 1);
    }
  }

  /** A fresh own sequence number, selected and sent to the requester. */
  lemma RenewAdvances(base: u16, sk: SourceKey, st: State, from: LinkId, p: Prefix)
    requires Sound(st)
    ensures Advances(base, sk, st, Renew(st, from, p)) && Grounded(Renew(st, from, p))
  {
    hide SelectRoutes, Advertise, Grounded;
    var st1 := st.(seqno := NextSeqno(st.seqno));
    var x := SelectRoutes(st1);
    assert Advances(base, sk, st, st1) by { NewSeqno(base, sk, st); }
    hide Sound, Advances;
    assert Sound(st1) by { AdvancesSound(base, sk, st, st1); }
    SelectRoutesAdvances(base, sk, st1);
    assert Sound(x) by { AdvancesSound(base, sk, st1, x); }
    AdvertiseAdvances(base, sk, x, from, p, true);
    EmissionGrounded(x, Advertise(x, x.em, from, p, true));
    AdvancesTransitive(base, sk, st, st1, x);
    AdvancesTransitive(base, sk, st, x, x.(em := Advertise(x, x.em, from, p, true)));
  }

  lemma NewSeqno(base: u16, sk: SourceKey, st: State)
    requires Sound(st)
    ensures Advances(base, sk, st, st.(seqno := NextSeqno(st.seqno)))
  {
    hide Evolves, EmissionOk, LinksOk, RequestsOk, DropsOk, RoutesOk, LocalOk, SelectedOk, CandidatePrefixes;
    EvolvesNot(base, sk, Expiry(st), Period(st.cfg), st.em, st.em);
    assert HeldPrefixes(st.(seqno := NextSeqno(st.seqno))) == HeldPrefixes(st);
  }

  lemma ReceiveSeqRequestAdvances(base: u16, sk: SourceKey, st: State, from: LinkId, m: Message)
    requires Sound(st) && Grounded(st) && m.SeqRequest?
    ensures Advances(base, sk, st, ReceiveSeqRequest(st, from, m)) && Grounded(ReceiveSeqRequest(st, from, m))
  {
    hide Advances, Sound, Grounded, Forward, Renew, Advertise, AtLeast;
    ForwardAdvances(base, sk, st, from, m);
    RenewAdvances(base, sk, st, from, m.prefix);
    AdvertiseAdvances(base, sk, st, from, m.prefix, true);
    EmissionGrounded(st, Advertise(st, st.em, from, m.prefix, true));
  }

  lemma ReceiveWildcardRequestAdvances(base: u16, sk: SourceKey, st: State, id: LinkId)
    requires Sound(st) && Grounded(st) && id in st.links
    ensures Advances(base, sk, st, ReceiveWildcardRequest(st, id)) && Grounded(ReceiveWildcardRequest(st, id))
  {
    hide Advances, Sound, Grounded, Dump;
    SoundLink(st, id);
    var l := st.links[id];
    AdvancesNot(base, sk, st);
    var x := st.(em := Dump(st, st.em, id, true));
    DumpAdvances(base, sk, st, id, true);
    AdvancesSound(base, sk, st, x);
    EmissionGrounded(st, x.em);
    TunedAdvances(base, sk, x, id, l.(lastDump := st.now, dumped := true));
    AdvancesTransitive(base, sk, st, x, Tuned(x, id, l.(lastDump := st.now, dumped := true)));
  }

  lemma SoundClock(st: State)
    requires Sound(st)
    ensures 0 <= st.now
  {
    hide LocalOk, RoutesOk, SelectedOk, EmissionOk, RequestsOk, DropsOk, LinksOk, Room;
  }

  lemma SoundLink(st: State, id: LinkId)
    requires Sound(st) && id in st.links
    ensures 0 <= st.now && LinkOk(st.now, st.lastLink, id, st.links[id])
  {
    hide LocalOk, RoutesOk, SelectedOk, EmissionOk, RequestsOk, DropsOk, Room, LinkOk;
  }

  lemma HearHelloOk(h: HelloState, now: int, seqno: u16, interval: u16)
    requires 0 <= now && Timely(now, h.expires)
    ensures Timely(now, HearHello(h, now, seqno, interval).expires)
  {
  }

  lemma ReceiveHelloAdvances(base: u16, sk: SourceKey, st: State, id: LinkId, m: Message)
    requires Sound(st) && Grounded(st) && id in st.links && m.Hello?
    ensures Advances(base, sk, st, ReceiveMessage(st, id, m)) && Grounded(ReceiveMessage(st, id, m))
  {
    hide Advances, Sound, Grounded, HearHello;
    SoundLink(st, id);
    var l := st.links[id];
    var l1 :=
      if m.unicast then l.(unicast := HearHello(l.unicast, st.now, m.seqno, m.interval))
      else l.(multicast := HearHello(l.multicast, st.now, m.seqno, m.interval));
    HearHelloOk(l.multicast, st.now, m.seqno, m.interval);
    HearHelloOk(l.unicast, st.now, m.seqno, m.interval);
    TunedAdvances(base, sk, st, id, l1);
    assert ReceiveMessage(st, id, m) == Tuned(st, id, l1);
  }

  lemma ReceiveIHUAdvances(base: u16, sk: SourceKey, st: State, id: LinkId, m: Message)
    requires Sound(st) && Grounded(st) && id in st.links && m.IHU?
    ensures Advances(base, sk, st, ReceiveMessage(st, id, m)) && Grounded(ReceiveMessage(st, id, m))
  {
    hide Advances, Sound, Grounded;
    SoundLink(st, id);
    AdvancesNot(base, sk, st);
    TunedAdvances(base, sk, st, id, st.links[id].(tx := m.metric, ihuExpires := st.now + Hold(WireTime(m.interval))));
  }

  lemma ReceiveAckRequestAdvances(base: u16, sk: SourceKey, st: State, id: LinkId, m: Message)
    requires Sound(st) && Grounded(st) && id in st.links && (m.AckRequest? || m.Ack?)
    ensures Advances(base, sk, st, ReceiveMessage(st, id, m)) && Grounded(ReceiveMessage(st, id, m))
  {
    hide Advances, Sound, Grounded;
    AdvancesNot(base, sk, st);
    if m.AckRequest? {
      SendAdvances(base, sk, st, id, Ack(m.tag));
      EmissionGrounded(st, Send(st, id, Ack(m.tag)).em);
    }
  }

  lemma ReceiveMessageAdvances(base: u16, sk: SourceKey, st: State, id: LinkId, m: Message)
    requires Sound(st) && Grounded(st) && id in st.links && Decodable(m)
    ensures Advances(base, sk, st, ReceiveMessage(st, id, m)) && Grounded(ReceiveMessage(st, id, m))
  {
    hide Advances, Sound, Grounded, ReceiveUpdate, RetractLink, Advertise, ReceiveWildcardRequest;
    hide ReceiveSeqRequest, Decodable;
    match m
    case Update(_, _, _, _, _, _, _) => ReceiveUpdateAdvances(base, sk, st, id, m);
    case WildcardUpdate => RetractLinkAdvances(base, sk, st, id);
    case RouteRequest(p) =>
      AdvertiseAdvances(base, sk, st, id, p, true);
      EmissionGrounded(st, Advertise(st, st.em, id, p, true));
    case WildcardRequest => ReceiveWildcardRequestAdvances(base, sk, st, id);
    case SeqRequest(_, _, _, _) => ReceiveSeqRequestAdvances(base, sk, st, id, m);
    case Hello(_, _, _) => ReceiveHelloAdvances(base, sk, st, id, m);
    case IHU(_, _, _) => ReceiveIHUAdvances(base, sk, st, id, m);
    case AckRequest(_) => ReceiveAckRequestAdvances(base, sk, st, id, m);
    case Ack(_) => ReceiveAckRequestAdvances(base, sk, st, id, m);
  }

  lemma ReceiveOneAdvances(base: u16, sk: SourceKey, st: State, id: LinkId, m: Message)
    requires Sound(st) && Grounded(st) && Decodable(m)
    ensures Advances(base, sk, st, ReceiveOne(st, id, m)) && Grounded(ReceiveOne(st, id, m))
  {
    hide Advances, Sound, Grounded, SelectRoutes, ReceiveMessage, Decodable;
    AdvancesNot(base, sk, st);
    SelectRoutesAdvances(base, sk, st);
    var x := if Asks(m) then SelectRoutes(st) else st;
    AdvancesSound(base, sk, st, x);
    if id in x.links {
      ReceiveMessageAdvances(base, sk, x, id, m);
      AdvancesTransitive(base, sk, st, x, ReceiveMessage(x, id, m));
    }
  }

  lemma {:induction false} ReceiveAllAdvances(base: u16, sk: SourceKey, st: State, id: LinkId, ms: seq<Message>)
    requires Sound(st) && Grounded(st) && forall m :: m in ms ==> Decodable(m)
    ensures Advances(base, sk, st, ReceiveAll(st, id, ms)) && Grounded(ReceiveAll(st, id, ms))
  {
    hide Advances, Sound, Grounded, ReceiveOne, Decodable;
    if ms == [] {
      AdvancesNot(base, sk, st);
    } else {
      var n := |ms| - 1;
      var x := ReceiveAll(st, id, ms[..n]);
      ReceiveAllAdvances(base, sk, st, id, ms[..n]);
      AdvancesSound(base, sk, st, x);
      assert ms[n] in ms;
      ReceiveOneAdvances(base, sk, x, id, ms[n]);
      AdvancesTransitive(base, sk, st, x, ReceiveAll(st, id, ms));
    }
  }

  // ------------------------------------------------------------------- timers

  /** A link with new timers, after what they sent. */
  lemma RetimedAdvances(base: u16, sk: SourceKey, x: State, y: State, id: LinkId, l: LinkState)
    requires Sound(x) && Advances(base, sk, x, y) && y.links == x.links && y.lastLink == x.lastLink
    requires id in x.links && LinkOk(x.now, x.lastLink, id, l)
    ensures Advances(base, sk, x, Tuned(y, id, l))
  {
    AdvancesSound(base, sk, x, y);
    hide Advances, Sound, LinkOk, Tuned;
    TunedAdvances(base, sk, y, id, l);
    AdvancesTransitive(base, sk, x, y, Tuned(y, id, l));
  }

  lemma RetimedOk(now: int, lastLink: LinkId, id: LinkId, l: LinkState, helloSeq: u16, nextHello: int,
      nextIHU: int, nextUpdate: int)
    requires 0 <= now && LinkOk(now, lastLink, id, l)
    requires (nextHello == l.nextHello || Timely(now, nextHello)) && (nextIHU == l.nextIHU || Timely(now, nextIHU))
    requires nextUpdate == l.nextUpdate || Timely(now, nextUpdate)
    ensures LinkOk(now, lastLink, id,
        l.(helloSeq := helloSeq, nextHello := nextHello, nextIHU := nextIHU, nextUpdate := nextUpdate))
  {
  }

  lemma HelloTimerAdvances(base: u16, sk: SourceKey, st: State, id: LinkId)
    requires Sound(st)
    ensures Advances(base, sk, st, HelloTimer(st, id))
  {
    hide Advances, Sound, LinkOk, HelloInterval, Jitter, Shuffle, Send, Centis;
    if id !in st.links || st.links[id].nextHello > st.now {
      AdvancesNot(base, sk, st);
    } else {
      SoundLink(st, id);
      var l := st.links[id];
      var d := HelloInterval(st.cfg, l);
      var m := Hello(false, l.helloSeq, Centis(d));
      var y := Shuffle(Send(st, id, m));
      NudgeAdvances(base, sk, st, id, m);
      var at := st.now + d - Jitter(y.em.trigger.rng, d / 8);
      RetimedOk(st.now, st.lastLink, id, l, NextSeqno(l.helloSeq), at, l.nextIHU, l.nextUpdate);
      RetimedAdvances(base, sk, st, y, id, l.(helloSeq := NextSeqno(l.helloSeq), nextHello := at));
    }
  }

  lemma NudgeAdvances(base: u16, sk: SourceKey, st: State, id: LinkId, m: Message)
    requires Sound(st) && !FiniteUpdate(m)
    ensures Advances(base, sk, st, Shuffle(Send(st, id, m)))
    ensures Shuffle(Send(st, id, m)) == st.(em := Shuffle(Send(st, id, m)).em)
  {
    hide Advances, Sound;
    SendAdvances(base, sk, st, id, m);
    AdvancesSound(base, sk, st, Send(st, id, m));
    ShuffleAdvances(base, sk, Send(st, id, m));
    AdvancesTransitive(base, sk, st, Send(st, id, m), Shuffle(Send(st, id, m)));
  }

  lemma IHUTimerAdvances(base: u16, sk: SourceKey, st: State, id: LinkId)
    requires Sound(st)
    ensures Advances(base, sk, st, IHUTimer(st, id))
  {
    hide Advances, Sound, LinkOk, HelloInterval, Jitter, Rules.Heard, Shuffle, Send, Centis;
    if id !in st.links || st.links[id].nextIHU > st.now {
      AdvancesNot(base, sk, st);
    } else {
      SoundLink(st, id);
      var l := st.links[id];
      var d := HelloInterval(st.cfg, l);
      var rx := if Rules.Heard(l, st.now) then l.link.cost else INFINITY;
      var m := IHU(NoAddr, rx, Centis(d * 2));
      var y := Shuffle(Send(st, id, m));
      NudgeAdvances(base, sk, st, id, m);
      var at := st.now + d * 2 - Jitter(y.em.trigger.rng, d / 8);
      RetimedOk(st.now, st.lastLink, id, l, l.helloSeq, l.nextHello, at, l.nextUpdate);
      RetimedAdvances(base, sk, st, y, id, l.(nextIHU := at));
    }
  }

  lemma UpdateTimerAdvances(base: u16, sk: SourceKey, st: State, id: LinkId)
    requires Sound(st)
    ensures Advances(base, sk, st, UpdateTimer(st, id))
  {
    hide Advances, Sound, LinkOk, Jitter, Dump, NextRandom;
    if id !in st.links || st.links[id].nextUpdate > st.now {
      AdvancesNot(base, sk, st);
    } else {
      SoundLink(st, id);
      var l := st.links[id];
      var x := st.(em := Dump(st, st.em, id, false));
      var y := Shuffle(x);
      DumpAdvances(base, sk, st, id, false);
      AdvancesSound(base, sk, st, x);
      ShuffleAdvances(base, sk, x);
      AdvancesTransitive(base, sk, st, x, y);
      var at := st.now + st.cfg.updateInterval - Jitter(y.em.trigger.rng, st.cfg.updateInterval / 8);
      RetimedOk(st.now, st.lastLink, id, l, l.helloSeq, l.nextHello, l.nextIHU, at);
      RetimedAdvances(base, sk, st, y, id, l.(nextUpdate := at));
    }
  }

  lemma LinkTimersAdvances(base: u16, sk: SourceKey, st: State, id: LinkId)
    requires Sound(st)
    ensures Advances(base, sk, st, LinkTimers(st, id))
  {
    hide Advances, Sound, HelloTimer, IHUTimer, UpdateTimer;
    var x := HelloTimer(st, id);
    var y := IHUTimer(x, id);
    HelloTimerAdvances(base, sk, st, id);
    AdvancesSound(base, sk, st, x);
    IHUTimerAdvances(base, sk, x, id);
    AdvancesSound(base, sk, x, y);
    UpdateTimerAdvances(base, sk, y, id);
    AdvancesTransitive(base, sk, st, x, y);
    AdvancesTransitive(base, sk, st, y, LinkTimers(st, id));
  }

  lemma {:induction false} AllLinkTimersAdvances(base: u16, sk: SourceKey, st: State, ids: seq<LinkId>)
    requires Sound(st)
    ensures Advances(base, sk, st, AllLinkTimers(st, ids))
  {
    hide Advances, Sound, LinkTimers;
    if ids == [] {
      AdvancesNot(base, sk, st);
    } else {
      var n := |ids| - 1;
      var x := AllLinkTimers(st, ids[..n]);
      AllLinkTimersAdvances(base, sk, st, ids[..n]);
      AdvancesSound(base, sk, st, x);
      LinkTimersAdvances(base, sk, x, ids[n]);
      AdvancesTransitive(base, sk, st, x, AllLinkTimers(st, ids));
    }
  }

  lemma {:induction false} DumpAllAdvances(base: u16, sk: SourceKey, st: State, ids: seq<LinkId>)
    requires Sound(st)
    ensures Advances(base, sk, st, st.(em := DumpAll(st, st.em, ids)))
  {
    hide Advances, Sound, Dump;
    if ids == [] {
      AdvancesNot(base, sk, st);
    } else {
      var n := |ids| - 1;
      var x := st.(em := DumpAll(st, st.em, ids[..n]));
      DumpAllAdvances(base, sk, st, ids[..n]);
      AdvancesSound(base, sk, st, x);
      DumpAdvances(base, sk, x, ids[n], false);
      DumpReads(st, x, x.em, ids[n], false);
      AdvancesTransitive(base, sk, st, x, st.(em := DumpAll(st, st.em, ids)));
    }
  }

  lemma {:induction false} AdvertiseAllReads(x: State, y: State, em: Emission, id: LinkId, ps: seq<Prefix>,
      explicit: bool)
    requires x.cfg == y.cfg && x.now == y.now && x.links == y.links && x.selected == y.selected
    ensures AdvertiseAll(x, em, id, ps, explicit) == AdvertiseAll(y, em, id, ps, explicit)
  {
    hide Advertise;
    if ps != [] {
      var n := |ps| - 1;
      AdvertiseAllReads(x, y, em, id, ps[..n], explicit);
      AdvertiseReads(x, y, AdvertiseAll(x, em, id, ps[..n], explicit), id, ps[n], explicit);
    }
  }

  lemma DumpReads(x: State, y: State, em: Emission, id: LinkId, explicit: bool)
    requires x.cfg == y.cfg && x.now == y.now && x.links == y.links && x.selected == y.selected
    ensures Dump(x, em, id, explicit) == Dump(y, em, id, explicit)
  {
    hide AdvertiseAll;
    AdvertiseAllReads(x, y, em, id, SortPrefixes(x.selected.Keys), explicit);
  }

  lemma RearmOk(now: int, t: Trigger)
    requires 0 <= now && TriggerOk(now, t)
    ensures TriggerOk(now, Rearm(t, now))
  {
    hide NextRandom;
  }

  lemma TriggerTimerAdvances(base: u16, sk: SourceKey, st: State)
    requires Sound(st)
    ensures Advances(base, sk, st, TriggerTimer(st))
  {
    if !TriggerDue(st) {
      AdvancesNot(base, sk, st);
    } else {
      SoundClock(st);
      hide Advances, Sound, DumpAll, Rearm;
      var x := st.(em := DumpAll(st, st.em, SortLinks(st.links.Keys)));
      DumpAllAdvances(base, sk, st, SortLinks(st.links.Keys));
      AdvancesSound(base, sk, st, x);
      NewTriggerAdvances(base, sk, x, Rearm(x.em.trigger, st.now));
      AdvancesTransitive(base, sk, st, x, TriggerTimer(st));
    }
  }

  lemma NewTriggerAdvances(base: u16, sk: SourceKey, st: State, t: Trigger)
    requires Sound(st) && t == Rearm(st.em.trigger, st.now)
    ensures Advances(base, sk, st, st.(em := st.em.(trigger := t)))
  {
    hide Evolves, Rearm, SourcesOk;
    RearmOk(st.now, st.em.trigger);
    EvolvesNot(base, sk, Expiry(st), Period(st.cfg), st.em, st.em.(trigger := t));
    NewEmission(base, sk, st, st.em.(trigger := t));
  }

  lemma {:induction false} ResendEvolves(base: u16, sk: SourceKey, st: State, sks: seq<SourceKey>)
    ensures var em := st.em.(out := ResendOut(st, st.em.out, sks));
            Evolves(base, sk, Expiry(st), Period(st.cfg), st.em, em)
            && (st.em.out.Keys <= st.links.Keys ==> em.out.Keys <= st.links.Keys)
  {
    hide Evolves;
    if sks == [] {
      EvolvesNot(base, sk, Expiry(st), Period(st.cfg), st.em, st.em);
    } else {
      var n := |sks| - 1;
      ResendEvolves(base, sk, st, sks[..n]);
      var x := st.em.(out := ResendOut(st, st.em.out, sks[..n]));
      var y := st.em.(out := ResendOut(st, st.em.out, sks));
      if ResendDue(st, sks[n]) {
        var q := st.requests[sks[n]];
        QueueAllEvolves(base, sk, Expiry(st), Period(st.cfg), st.links, x, y, q.targets, RequestMessage(sks[n], q));
        if st.em.out.Keys <= st.links.Keys {
          QueueAllKeys(st.links, x.out, q.targets, RequestMessage(sks[n], q));
        }
      } else {
        EvolvesNot(base, sk, Expiry(st), Period(st.cfg), x, y);
      }
      EvolvesTransitive(base, sk, Expiry(st), Period(st.cfg), st.em, x, y);
    }
  }

  lemma ResentOk(st: State)
    requires RequestsOk(st.cfg, st.now, st.requests) && 0 <= st.now
    ensures RequestsOk(st.cfg, st.now, RequestTimer(st).requests)
    ensures RequestsLive(st.now, st.requests) ==> RequestsLive(st.now, RequestTimer(st).requests)
  {
    hide ResendOut;
    var y := RequestTimer(st);
    assert y.requests.Keys == st.requests.Keys;
    Sizes(y.requests);
    Sizes(st.requests);
  }

  lemma RequestTimerAdvances(base: u16, sk: SourceKey, st: State)
    requires Sound(st)
    ensures Advances(base, sk, st, RequestTimer(st))
  {
    assert RequestsOk(st.cfg, st.now, st.requests) && EmissionOk(st.cfg, st.now, st.links, st.em) by { SoundParts(st); }
    hide Advances, Sound, Evolves, ResendOut, RequestsOk, SourcesOk, ResendDue, SourcesLive, RequestsLive;
    SoundClock(st);
    ResentOk(st);
    ResendEvolves(base, sk, st, SortSourceKeys(st.requests.Keys));
    var y := RequestTimer(st);
    NewEmission(base, sk, st, y.em);
    AdvancesSound(base, sk, st, st.(em := y.em));
    RequestsAdvance(base, sk, st.(em := y.em), y.requests);
    AdvancesTransitive(base, sk, st, st.(em := y.em), y);
  }

  lemma {:induction false} RefreshEvolves(base: u16, sk: SourceKey, st: State, ks: seq<RouteKey>)
    ensures var em := st.em.(out := RefreshOut(st, st.em.out, ks));
            Evolves(base, sk, Expiry(st), Period(st.cfg), st.em, em)
            && (st.em.out.Keys <= st.links.Keys ==> em.out.Keys <= st.links.Keys)
  {
    hide Evolves, RefreshDue;
    if ks == [] {
      EvolvesNot(base, sk, Expiry(st), Period(st.cfg), st.em, st.em);
    } else {
      var n := |ks| - 1;
      RefreshEvolves(base, sk, st, ks[..n]);
      var x := st.em.(out := RefreshOut(st, st.em.out, ks[..n]));
      var y := st.em.(out := RefreshOut(st, st.em.out, ks));
      if RefreshDue(st, ks[n]) {
        QueueEvolves(base, sk, Expiry(st), Period(st.cfg), st.links, x, y, ks[n].link, RouteRequest(ks[n].prefix));
      } else {
        EvolvesNot(base, sk, Expiry(st), Period(st.cfg), x, y);
      }
      EvolvesTransitive(base, sk, Expiry(st), Period(st.cfg), st.em, x, y);
    }
  }

  lemma RefreshedOk(st: State)
    requires RoutesOk(st.cfg, st.now, st.routes)
    ensures var y := RefreshTimer(st);
            RoutesOk(st.cfg, st.now, y.routes) && CandidatePrefixes(y.routes) == CandidatePrefixes(st.routes)
  {
    hide RefreshOut, RefreshDue, RoutablePrefix;
    assert RefreshTimer(st).routes.Keys == st.routes.Keys;
  }

  lemma RefreshedLive(st: State)
    requires RoutesLive(st.now, st.routes)
    ensures RoutesLive(st.now, RefreshTimer(st).routes)
  {
    hide RefreshOut, RefreshDue;
  }

  lemma SoundCandidates(st: State)
    requires Sound(st)
    ensures RoutesOk(st.cfg, st.now, st.routes) && EmissionOk(st.cfg, st.now, st.links, st.em)
  {
    hide LocalOk, RoutesOk, SelectedOk, DropsOk, Room, EmissionOk, LinksOk, RequestsOk;
  }

  lemma RefreshOutAdvances(base: u16, sk: SourceKey, st: State)
    requires Sound(st)
    ensures Advances(base, sk, st, st.(em := RefreshTimer(st).em))
  {
    hide Advances, Sound, Evolves, RefreshOut, RoutesOk, SourcesOk, RefreshDue, SourcesLive, RefreshedRoutes;
    SoundCandidates(st);
    RefreshEvolves(base, sk, st, SortRouteKeys(st.routes.Keys));
    NewEmission(base, sk, st, RefreshTimer(st).em);
  }

  lemma RefreshTimerAdvances(base: u16, sk: SourceKey, st: State)
    requires Sound(st)
    ensures Advances(base, sk, st, RefreshTimer(st))
  {
    hide Advances, Sound, RoutesOk, EmissionOk, CandidatePrefixes, RoutesLive, RefreshOut, RefreshedRoutes;
    hide BoundedConfig;
    var y := RefreshTimer(st);
    var x := st.(em := y.em);
    SoundCandidates(st);
    RefreshedOk(st);
    if RoutesLive(st.now, st.routes) { RefreshedLive(st); }
    RefreshOutAdvances(base, sk, st);
    AdvancesSound(base, sk, st, x);
    RoutesAdvance(base, sk, x, y.routes);
    AdvancesTransitive(base, sk, st, x, y);
  }

  lemma TimersAdvances(base: u16, sk: SourceKey, st: State)
    requires Sound(st)
    ensures Advances(base, sk, st, Timers(st))
  {
    hide Advances, Sound, AllLinkTimers, TriggerTimer, RequestTimer, RefreshTimer;
    var a := AllLinkTimers(st, SortLinks(st.links.Keys));
    var b := TriggerTimer(a);
    var c := RequestTimer(b);
    AllLinkTimersAdvances(base, sk, st, SortLinks(st.links.Keys));
    AdvancesSound(base, sk, st, a);
    TriggerTimerAdvances(base, sk, a);
    AdvancesSound(base, sk, a, b);
    RequestTimerAdvances(base, sk, b);
    AdvancesSound(base, sk, b, c);
    RefreshTimerAdvances(base, sk, c);
    AdvancesTransitive(base, sk, st, a, b);
    AdvancesTransitive(base, sk, st, b, c);
    AdvancesTransitive(base, sk, st, c, Timers(st));
  }

  // --------------------------------------------------------------------- step

  lemma AgedOk(cfg: LiveConfig, now: int, k: RouteKey, c: Candidate)
    requires 0 <= now && CandidateOk(cfg, now, k, c)
    ensures CandidateOk(cfg, now, k, Aged(c, now))
  {
    hide RoutablePrefix;
  }

  lemma ExpireRoutesOk(st: State)
    requires 0 <= st.now && RoutesOk(st.cfg, st.now, st.routes)
    ensures var y := Expire(st);
            RoutesOk(st.cfg, st.now, y.routes) && CandidatePrefixes(y.routes) <= CandidatePrefixes(st.routes)
  {
    hide Aged, Dead, CandidateOk, LiveSources;
    forall k | k in Expire(st).routes ensures CandidateOk(st.cfg, st.now, k, Expire(st).routes[k]) {
      AgedOk(st.cfg, st.now, k, st.routes[k]);
    }
  }

  lemma ExpireTablesOk(st: State)
    requires SourcesOk(st.cfg, st.now, st.em.sources) && RequestsOk(st.cfg, st.now, st.requests)
    ensures SourcesOk(st.cfg, st.now, Expire(st).em.sources) && RequestsOk(st.cfg, st.now, Expire(st).requests)
  {
    hide Aged, Dead, SourceOk, PendingOk;
    Subset(Expire(st).em.sources.Keys, st.em.sources.Keys);
    Subset(Expire(st).requests.Keys, st.requests.Keys);
    Sizes(st.em.sources);
    Sizes(st.requests);
    Sizes(Expire(st).em.sources);
    Sizes(Expire(st).requests);
  }

  lemma LaterLinks(st: State, now: int)
    requires LinksOk(st.cfg, st.now, st.lastLink, st.links) && st.now <= now
    ensures LinksOk(st.cfg, now, st.lastLink, st.links)
  {
    forall id | id in st.links ensures LinkOk(now, st.lastLink, id, st.links[id]) {
      assert LinkOk(st.now, st.lastLink, id, st.links[id]);
    }
  }

  lemma LaterTables(st: State, now: int)
    requires st.now <= now && RoutesOk(st.cfg, st.now, st.routes) && DropsOk(st.now, st.drops)
    requires EmissionOk(st.cfg, st.now, st.links, st.em) && RequestsOk(st.cfg, st.now, st.requests)
    ensures RoutesOk(st.cfg, now, st.routes) && DropsOk(now, st.drops)
    ensures EmissionOk(st.cfg, now, st.links, st.em) && RequestsOk(st.cfg, now, st.requests)
  {
    hide RoutablePrefix, ValidPrefix, ValidRouterId;
  }

  /** Time passes: deadlines stay at most a day ahead. */
  lemma LaterSound(st: State, now: int)
    requires Sound(st) && st.now <= now
    ensures Sound(st.(now := now))
  {
    hide CandidatePrefixes, LinksOk, RoutesOk, DropsOk, EmissionOk, RequestsOk, LocalOk, SelectedOk;
    LaterLinks(st, now);
    LaterTables(st, now);
    assert HeldPrefixes(st.(now := now)) == HeldPrefixes(st);
  }

  lemma ExpireSound(st: State)
    requires Sound(st)
    ensures Sound(Expire(st))
  {
    hide Aged, Dead, LiveSources, LocalOk, SelectedOk, LinksOk, DropsOk, RoutesOk, RequestsOk, SourcesOk;
    hide CandidatePrefixes;
    ExpireRoutesOk(st);
    ExpireTablesOk(st);
    SmallerRoom(st, Expire(st));
  }
}
