/**
 The invariant of the tables, kept by every transition inside a step: well-formed
 entries, resource limits, and deadlines at most a day ahead.
 */
module Soundness {
  import opened Arithmetic
  import opened Types
  import opened Sorting
  import opened Rules
  import opened History

  const DAY: int := 24 * HOUR

  /** A stored deadline: set at most a day ahead of the clock, never before zero. */
  predicate Timely(now: int, d: int) { 0 <= d <= now + DAY }

  predicate LocalOk(local: map<Prefix, u16>) {
    forall p :: p in local ==> RoutablePrefix(p) && local[p] != INFINITY
  }

  predicate CandidateOk(cfg: LiveConfig, now: int, k: RouteKey, c: Candidate) {
    && RoutablePrefix(k.prefix)
    && ValidRouterId(c.id) && c.id != cfg.routerId
    && k.link != 0
    && CENTISECOND <= c.interval <= 0xFFFF * CENTISECOND
    && Timely(now, c.expires)
  }

  predicate RoutesOk(cfg: LiveConfig, now: int, routes: map<RouteKey, Candidate>) {
    forall k :: k in routes ==> CandidateOk(cfg, now, k, routes[k])
  }

  predicate RouteOk(p: Prefix, r: Route) {
    && r.prefix == p
    && (!r.unreachable ==> RoutablePrefix(p) && ValidRouterId(r.routerId) && r.metric != INFINITY)
  }

  predicate SelectedOk(selected: map<Prefix, Route>) {
    forall p :: p in selected ==> RouteOk(p, selected[p])
  }

  predicate SourceOk(cfg: LiveConfig, now: int, sk: SourceKey, s: Source) {
    && ValidPrefix(sk.prefix) && ValidRouterId(sk.id) && s.metric != INFINITY
    && 0 <= s.expires <= now + cfg.sourceGC
  }

  predicate SourcesOk(cfg: LiveConfig, now: int, sources: map<SourceKey, Source>) {
    && |sources| <= cfg.maxSources
    && (forall sk :: sk in sources ==> SourceOk(cfg, now, sk, sources[sk]))
  }

  predicate TriggerOk(now: int, t: Trigger) {
    0 <= t.repeats <= 2 && 0 <= t.at <= now + 150 * MILLISECOND
  }

  predicate EmissionOk(cfg: LiveConfig, now: int, links: map<LinkId, LinkState>, em: Emission) {
    SourcesOk(cfg, now, em.sources) && em.out.Keys <= links.Keys && TriggerOk(now, em.trigger)
  }

  predicate PendingOk(now: int, q: Pending) {
    0 <= q.remaining <= 2 && 0 <= q.next <= now + SECOND && 0 <= q.expires <= now + 4 * SECOND
  }

  predicate RequestsOk(cfg: LiveConfig, now: int, requests: map<SourceKey, Pending>) {
    && |requests| <= cfg.maxRequests
    && (forall sk :: sk in requests ==> PendingOk(now, requests[sk]))
  }

  predicate DropsOk(now: int, drops: map<Prefix, int>) {
    forall p :: p in drops ==> ValidPrefix(p) && Timely(now, drops[p])
  }

  predicate LinkOk(now: int, lastLink: LinkId, id: LinkId, l: LinkState) {
    && l.link.id == id && id <= lastLink
    && Timely(now, l.ihuExpires) && Timely(now, l.multicast.expires) && Timely(now, l.unicast.expires)
    && Timely(now, l.nextHello) && Timely(now, l.nextIHU) && Timely(now, l.nextUpdate)
    && 0 <= l.lastDump <= now
  }

  predicate LinksOk(cfg: LiveConfig, now: int, lastLink: LinkId, links: map<LinkId, LinkState>) {
    && |links| <= cfg.maxLinks
    && (forall id :: id in links ==> LinkOk(now, lastLink, id, links[id]))
  }

  function CandidatePrefixes(routes: map<RouteKey, Candidate>): set<Prefix> { set k | k in routes :: k.prefix }

  /** The prefixes the three admission-limited tables hold. */
  function HeldPrefixes(st: State): set<Prefix> {
    st.local.Keys + CandidatePrefixes(st.routes) + st.drops.Keys
  }

  predicate Room(st: State) { |HeldPrefixes(st) + st.selected.Keys| <= st.cfg.maxRoutes }

  /** Every selected prefix is still held by one of those tables. */
  predicate Grounded(st: State) { st.selected.Keys <= HeldPrefixes(st) }

  predicate Sound(st: State) {
    && 0 <= st.now
    && LocalOk(st.local)
    && RoutesOk(st.cfg, st.now, st.routes)
    && SelectedOk(st.selected)
    && EmissionOk(st.cfg, st.now, st.links, st.em)
    && RequestsOk(st.cfg, st.now, st.requests)
    && DropsOk(st.now, st.drops)
    && LinksOk(st.cfg, st.now, st.lastLink, st.links)
    && Room(st)
  }

  // Entries that have not run out.

  predicate SourcesLive(now: int, sources: map<SourceKey, Source>) {
    forall sk :: sk in sources ==> sources[sk].expires > now
  }

  predicate RoutesLive(now: int, routes: map<RouteKey, Candidate>) {
    forall k :: k in routes ==> routes[k].expires > now
  }

  predicate RequestsLive(now: int, requests: map<SourceKey, Pending>) {
    forall sk :: sk in requests ==> requests[sk].expires > now
  }

  predicate Live(st: State) {
    SourcesLive(st.now, st.em.sources) && RoutesLive(st.now, st.routes) && RequestsLive(st.now, st.requests)
  }

  // ---------------------------------------------------------------- emission

  lemma ScheduleTriggerOk(now: int, t: Trigger, repeat: bool)
    requires 0 <= now && TriggerOk(now, t)
    ensures TriggerOk(now, ScheduleTrigger(t, now, repeat))
  {
  }

  lemma AdvertiseOk(st: State, em: Emission, id: LinkId, p: Prefix, explicit: bool)
    requires 0 <= st.now && SelectedOk(st.selected) && EmissionOk(st.cfg, st.now, st.links, em)
    ensures EmissionOk(st.cfg, st.now, st.links, Advertise(st, em, id, p, explicit))
  {
    if Reachable(st.selected, p) {
      var r := st.selected[p];
      assert RouteOk(p, r);
      ScheduleTriggerOk(st.now, em.trigger, true);
      var sk := SourceKey(p, r.routerId);
      var s := Lowered(em.sources, sk, RouteDist(r), st.now + st.cfg.sourceGC);
      assert SourceOk(st.cfg, st.now, sk, s);
    }
  }

  lemma {:induction false} AdvertiseAllOk(st: State, em: Emission, id: LinkId, ps: seq<Prefix>, explicit: bool)
    requires 0 <= st.now && SelectedOk(st.selected) && EmissionOk(st.cfg, st.now, st.links, em)
    ensures EmissionOk(st.cfg, st.now, st.links, AdvertiseAll(st, em, id, ps, explicit))
  {
    if ps != [] {
      var n := |ps| - 1;
      AdvertiseAllOk(st, em, id, ps[..n], explicit);
      AdvertiseOk(st, AdvertiseAll(st, em, id, ps[..n], explicit), id, ps[n], explicit);
    }
  }

  lemma AdvertiseLive(st: State, em: Emission, id: LinkId, p: Prefix, explicit: bool)
    requires SourcesLive(st.now, em.sources)
    ensures SourcesLive(st.now, Advertise(st, em, id, p, explicit).sources)
  {
    hide Queue, ScheduleTrigger, Gated, Announcement, Better, BoundedLink;
  }

  lemma {:induction false} AdvertiseAllLive(st: State, em: Emission, id: LinkId, ps: seq<Prefix>, explicit: bool)
    requires SourcesLive(st.now, em.sources)
    ensures SourcesLive(st.now, AdvertiseAll(st, em, id, ps, explicit).sources)
  {
    hide Advertise, SourcesLive;
    if ps != [] {
      var n := |ps| - 1;
      AdvertiseAllLive(st, em, id, ps[..n], explicit);
      AdvertiseLive(st, AdvertiseAll(st, em, id, ps[..n], explicit), id, ps[n], explicit);
    }
  }

  lemma {:induction false} QueueAllKeys(links: map<LinkId, LinkState>, out: map<LinkId, seq<Message>>,
      ids: seq<LinkId>, m: Message)
    requires out.Keys <= links.Keys
    ensures QueueAll(links, out, ids, m).Keys <= links.Keys
  {
    if ids != [] {
      QueueAllKeys(links, out, ids[..|ids| - 1], m);
    }
  }

  // ---------------------------------------------------------- progress relation

  /**
   One or more transitions inside a step: the clock and configuration stand still, the
   tables stay sound and live, the history of sk evolves.
   */
  ghost predicate Advances(base: u16, sk: SourceKey, x: State, y: State) {
    && y.cfg == x.cfg && y.now == x.now
    && Sound(y)
    && (Live(x) ==> Live(y))
    && Evolves(base, sk, Expiry(x), Period(x.cfg), x.em, y.em)
  }

  lemma AdvancesTransitive(base: u16, sk: SourceKey, x: State, y: State, z: State)
    requires Advances(base, sk, x, y) && Advances(base, sk, y, z)
    ensures Advances(base, sk, x, z)
  {
    EvolvesTransitive(base, sk, Expiry(x), Period(x.cfg), x.em, y.em, z.em);
  }

  // ---------------------------------------------------------------- requests

  lemma NewEmission(base: u16, sk: SourceKey, st: State, em: Emission)
    requires Sound(st) && EmissionOk(st.cfg, st.now, st.links, em)
    requires Evolves(base, sk, Expiry(st), Period(st.cfg), st.em, em)
    requires SourcesLive(st.now, st.em.sources) ==> SourcesLive(st.now, em.sources)
    ensures Advances(base, sk, st, st.(em := em))
  {
    hide Evolves, ValidPrefix, ScopedAddress;
    assert HeldPrefixes(st.(em := em)) == HeldPrefixes(st);
  }

  /** New requests within the limits. */
  lemma RequestsAdvance(base: u16, sk: SourceKey, st: State, requests: map<SourceKey, Pending>)
    requires Sound(st) && RequestsOk(st.cfg, st.now, requests)
    requires RequestsLive(st.now, st.requests) ==> RequestsLive(st.now, requests)
    ensures Advances(base, sk, st, st.(requests := requests))
  {
    hide Evolves, EmissionOk, LinksOk, DropsOk, RoutesOk, LocalOk, SelectedOk, RequestsOk, CandidatePrefixes;
    hide SourcesLive, RoutesLive, RequestsLive, BoundedConfig;
    EvolvesNot(base, sk, Expiry(st), Period(st.cfg), st.em, st.em);
    assert HeldPrefixes(st.(requests := requests)) == HeldPrefixes(st);
  }

  lemma AdvancesSound(base: u16, sk: SourceKey, x: State, y: State)
    requires Advances(base, sk, x, y)
    ensures Sound(y) && y.cfg == x.cfg && y.now == x.now
  {
    hide Evolves, Sound;
  }

  lemma AdvancesNot(base: u16, sk: SourceKey, st: State)
    requires Sound(st)
    ensures Advances(base, sk, st, st)
  {
    hide Sound;
    EvolvesNot(base, sk, Expiry(st), Period(st.cfg), st.em, st.em);
  }

  lemma SoundParts(st: State)
    requires Sound(st)
    ensures 0 <= st.now
    ensures LocalOk(st.local) && RoutesOk(st.cfg, st.now, st.routes) && SelectedOk(st.selected) && Room(st)
    ensures DropsOk(st.now, st.drops)
    ensures EmissionOk(st.cfg, st.now, st.links, st.em) && RequestsOk(st.cfg, st.now, st.requests)
  {
  }

  lemma AskRequests(st: State, k: SourceKey, q: Pending)
    requires 0 <= st.now && RequestsOk(st.cfg, st.now, st.requests)
    requires k in st.requests || |st.requests| < st.cfg.maxRequests
    requires q.next == st.now + SECOND && q.expires == st.now + 4 * SECOND && q.remaining == 2
    ensures RequestsOk(st.cfg, st.now, st.requests[k := q])
    ensures RequestsLive(st.now, st.requests) ==> RequestsLive(st.now, st.requests[k := q])
  {
  }

  lemma AskedAdvances(base: u16, sk: SourceKey, st: State, k: SourceKey, q: Pending, ids: seq<LinkId>)
    requires Sound(st) && RequestsOk(st.cfg, st.now, st.requests[k := q])
    requires RequestsLive(st.now, st.requests) ==> RequestsLive(st.now, st.requests[k := q])
    ensures Advances(base, sk, st, st.(requests := st.requests[k := q],
              em := st.em.(out := QueueAll(st.links, st.em.out, ids, RequestMessage(k, q)))))
  {
    hide Sound, Advances, Evolves, EmissionOk, RequestsOk, RequestsLive, SourcesLive, QueueAll;
    hide LocalOk, RoutesOk, SelectedOk, DropsOk, Room;
    SoundParts(st);
    var em := st.em.(out := QueueAll(st.links, st.em.out, ids, RequestMessage(k, q)));
    QueuedAllOk(st, ids, RequestMessage(k, q));
    QueueAllEvolves(base, sk, Expiry(st), Period(st.cfg), st.links, st.em, em, ids, RequestMessage(k, q));
    NewEmission(base, sk, st, em);
    AdvancesSound(base, sk, st, st.(em := em));
    RequestsAdvance(base, sk, st.(em := em), st.requests[k := q]);
    AdvancesTransitive(base, sk, st, st.(em := em), st.(requests := st.requests[k := q], em := em));
  }

  lemma SoundRequests(st: State)
    requires Sound(st)
    ensures 0 <= st.now && RequestsOk(st.cfg, st.now, st.requests)
  {
    hide LocalOk, RoutesOk, SelectedOk, DropsOk, Room, EmissionOk, LinksOk, RequestsOk;
  }

  lemma AskAdvances(base: u16, sk: SourceKey, st: State, k: SourceKey, seqno: u16, targets: set<LinkId>,
      from: LinkId, hops: u8)
    requires Sound(st)
    ensures Advances(base, sk, st, Ask(st, k, seqno, targets, from, hops))
  {
    hide Sound, Advances, RequestsOk, RequestsLive, AtLeast, QueueAll, SortLinks, RequestMessage, BoundedConfig;
    var y := Ask(st, k, seqno, targets, from, hops);
    if y == st {
      AdvancesNot(base, sk, st);
    } else {
      SoundRequests(st);
      var q := Pending(seqno, hops, SortLinks(targets), from, st.now + SECOND, st.now + 4 * SECOND, 2);
      AskRequests(st, k, q);
      AskedAdvances(base, sk, st, k, q, q.targets);
    }
  }

  lemma QueuedAllOk(st: State, ids: seq<LinkId>, m: Message)
    requires EmissionOk(st.cfg, st.now, st.links, st.em)
    ensures EmissionOk(st.cfg, st.now, st.links, st.em.(out := QueueAll(st.links, st.em.out, ids, m)))
  {
    hide SourcesOk, TriggerOk, QueueAll;
    QueueAllKeys(st.links, st.em.out, ids, m);
  }

  lemma AskGrounded(st: State, k: SourceKey, seqno: u16, targets: set<LinkId>, from: LinkId, hops: u8)
    requires Grounded(st)
    ensures Grounded(Ask(st, k, seqno, targets, from, hops))
  {
    hide SortLinks, AtLeast, QueueAll;
    var y := Ask(st, k, seqno, targets, from, hops);
    assert HeldPrefixes(y) == HeldPrefixes(st);
  }

  // ---------------------------------------------------------------- selection

  /** Losing routes touches suppressions, requests, queues and trigger, nothing else. */
  lemma LoseFrame(st: State, next: map<Prefix, Route>, p: Prefix)
    ensures var y := Lose(st, next, p);
            y == st.(drops := y.drops, requests := y.requests, em := y.em) && y.em.sources == st.em.sources
  {
    hide Lost, LossTargets, QueueAll, ScheduleTrigger, AtLeast;
  }

  lemma {:induction false} LoseAllFrame(st: State, next: map<Prefix, Route>, ps: seq<Prefix>)
    ensures var y := LoseAll(st, next, ps);
            y == st.(drops := y.drops, requests := y.requests, em := y.em) && y.em.sources == st.em.sources
  {
    if ps != [] {
      var n := |ps| - 1;
      LoseAllFrame(st, next, ps[..n]);
      LoseFrame(LoseAll(st, next, ps[..n]), next, ps[n]);
    }
  }

  lemma SuppressRoom(st: State, p: Prefix)
    requires Room(st) && p in st.selected
    ensures Room(Suppress(st, p))
  {
    hide ScheduleTrigger;
    var y := Suppress(st, p);
    assert HeldPrefixes(y) + y.selected.Keys == HeldPrefixes(st) + st.selected.Keys;
  }

  lemma SuppressOk(st: State, p: Prefix)
    requires Sound(st) && Reachable(st.selected, p)
    ensures var y := Suppress(st, p);
            DropsOk(y.now, y.drops) && EmissionOk(y.cfg, y.now, y.links, y.em) && Room(y)
  {
    hide ScheduleTrigger, ValidPrefix, ScopedAddress, HeldPrefixes;
    assert RouteOk(p, st.selected[p]);
    ScheduleTriggerOk(st.now, st.em.trigger, true);
    SuppressRoom(st, p);
  }

  lemma SuppressAdvances(base: u16, sk: SourceKey, st: State, p: Prefix)
    requires Sound(st) && Reachable(st.selected, p)
    ensures Advances(base, sk, st, Suppress(st, p))
  {
    var y := Suppress(st, p);
    SuppressOk(st, p);
    EvolvesNot(base, sk, Expiry(st), Period(st.cfg), st.em, y.em);
  }

  lemma LoseAdvances(base: u16, sk: SourceKey, st: State, next: map<Prefix, Route>, p: Prefix)
    requires Sound(st)
    ensures Advances(base, sk, st, Lose(st, next, p))
  {
    if !Lost(st, next, p) {
      EvolvesNot(base, sk, Expiry(st), Period(st.cfg), st.em, st.em);
    } else {
      SuppressAdvances(base, sk, st, p);
      var k := SourceKey(p, st.selected[p].routerId);
      var targets := LossTargets(st, p);
      if k in st.em.sources && targets != {} {
        AskAdvances(base, sk, Suppress(st, p), k, NextSeqno(st.em.sources[k].seqno), targets, 0, 64);
        AdvancesTransitive(base, sk, st, Suppress(st, p), Lose(st, next, p));
      }
    }
  }

  lemma {:induction false} LoseAllAdvances(base: u16, sk: SourceKey, st: State, next: map<Prefix, Route>,
      ps: seq<Prefix>)
    requires Sound(st)
    ensures Advances(base, sk, st, LoseAll(st, next, ps))
  {
    if ps == [] {
      EvolvesNot(base, sk, Expiry(st), Period(st.cfg), st.em, st.em);
    } else {
      var n := |ps| - 1;
      LoseAllAdvances(base, sk, st, next, ps[..n]);
      var y := LoseAll(st, next, ps[..n]);
      LoseAdvances(base, sk, y, next, ps[n]);
      AdvancesTransitive(base, sk, st, y, LoseAll(st, next, ps));
    }
  }

  lemma ChoiceOk(st: State)
    requires LocalOk(st.local) && RoutesOk(st.cfg, st.now, st.routes)
    ensures SelectedOk(Choice(st))
    ensures Choice(st).Keys <= st.local.Keys + CandidatePrefixes(st.routes)
  {
    hide ValidPrefix, ScopedAddress, Metric, LinkCost, Preferred;
    var next := Choice(st);
    forall p | p in next ensures RouteOk(p, next[p]) {
      if p !in st.local {
        var k := RouteKey(p, next[p].link);
        assert Usable(st, k) && CandidateOk(st.cfg, st.now, k, st.routes[k]);
      }
    }
  }

  lemma DropsSelectedOk(next: map<Prefix, Route>, drops: map<Prefix, int>)
    requires SelectedOk(next)
    ensures SelectedOk(WithDrops(next, drops))
    ensures WithDrops(next, drops).Keys == next.Keys + drops.Keys
  {
    hide ValidPrefix, ScopedAddress;
  }

  lemma SmallerRoom(x: State, y: State)
    requires Room(x) && x.cfg == y.cfg
    requires HeldPrefixes(y) + y.selected.Keys <= HeldPrefixes(x) + x.selected.Keys
    ensures Room(y)
  {
    Subset(HeldPrefixes(y) + y.selected.Keys, HeldPrefixes(x) + x.selected.Keys);
  }

  lemma Subset<T>(a: set<T>, b: set<T>)
    requires a <= b
    ensures |a| <= |b|
  {
    assert b == a + (b - a);
  }

  lemma AnnounceOk(now: int, t: Trigger, was: map<Prefix, Route>, next: map<Prefix, Route>, ps: set<Prefix>)
    requires 0 <= now && TriggerOk(now, t)
    ensures TriggerOk(now, Announce(t, now, was, next, ps))
  {
    hide OriginChanged, DistanceChanged;
    ScheduleTriggerOk(now, t, true);
    ScheduleTriggerOk(now, t, false);
  }

  /** Adopting a choice leaves every table but selection, suppressions, requests and output alone. */
  lemma AdoptFrame(st: State, next: map<Prefix, Route>)
    ensures var y := Adopt(st, next);
            && y == st.(selected := y.selected, drops := y.drops, requests := y.requests, em := y.em)
            && y.em.sources == st.em.sources
  {
    hide LiveDrops, WithDrops, Announce, SortPrefixes;
    LoseAllFrame(st, next, SortPrefixes(st.selected.Keys));
  }

  lemma GroundedBy(x: State, y: State, next: map<Prefix, Route>)
    requires Room(x) && y.cfg == x.cfg && y.local == x.local && y.routes == x.routes
    requires next.Keys <= x.local.Keys + CandidatePrefixes(x.routes)
    requires y.drops.Keys <= x.drops.Keys && y.selected.Keys == next.Keys + y.drops.Keys
    ensures Grounded(y) && Room(y)
  {
    SmallerRoom(x, y);
  }

  lemma LiveDropsOk(st: State, next: map<Prefix, Route>)
    requires DropsOk(st.now, st.drops)
    ensures DropsOk(st.now, LiveDrops(st, next)) && LiveDrops(st, next).Keys <= st.drops.Keys
  {
    hide ValidPrefix;
  }

  lemma AdoptAdvances(base: u16, sk: SourceKey, st: State)
    requires Sound(st)
    ensures Advances(base, sk, st, Adopt(st, Choice(st))) && Grounded(Adopt(st, Choice(st)))
  {
    hide Announce, LiveDrops, WithDrops, Choice, Lose, LoseAll, Room, Evolves, CandidateOk, RouteOk;
    hide SourceOk, LinkOk, PendingOk;
    var next := Choice(st);
    var ps := SortPrefixes(st.selected.Keys);
    var x := LoseAll(st, next, ps);
    var y := Adopt(st, next);
    LoseAllAdvances(base, sk, st, next, ps);
    LoseAllFrame(st, next, ps);
    ChoiceOk(st);
    DropsSelectedOk(next, y.drops);
    LiveDropsOk(x, next);
    GroundedBy(x, y, next);
    AnnounceOk(st.now, x.em.trigger, st.selected, y.selected, y.selected.Keys);
    assert y.drops == LiveDrops(x, next);
    AdoptEvolves(base, sk, x, y);
  }

  lemma AdoptEvolves(base: u16, sk: SourceKey, x: State, y: State)
    requires x.em.sources == y.em.sources && x.em.out == y.em.out && x.now == y.now && x.cfg == y.cfg
    ensures Evolves(base, sk, Expiry(x), Period(x.cfg), x.em, y.em)
    ensures forall st: State ::
      st.now == x.now && st.cfg == x.cfg && Evolves(base, sk, Expiry(st), Period(st.cfg), st.em, x.em) ==>
        Evolves(base, sk, Expiry(st), Period(st.cfg), st.em, y.em)
  {
    EvolvesNot(base, sk, Expiry(x), Period(x.cfg), x.em, y.em);
  }
}
