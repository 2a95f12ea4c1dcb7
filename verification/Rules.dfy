/**
 The transitions of engine.go as functions of the state value.  The methods of
 Engine.dfy are proved equal to them; everything else is proved about them.
 */
module Rules {
  import opened Arithmetic
  import opened Types
  import opened Sorting

  // ------------------------------------------------------------------ readers

  predicate Accepts(cfg: Config, id: RouterId, p: Prefix, seqno: u16) {
    && (cfg.hooks.acceptRoute.None? || cfg.hooks.acceptRoute.value(id, p))
    && (cfg.hooks.acceptRouteUpdate.None? || cfg.hooks.acceptRouteUpdate.value(id, p, seqno))
  }

  function HelloInterval(cfg: LiveConfig, l: LinkState): (d: int)
    ensures 100 * MILLISECOND <= d <= 32767 * CENTISECOND
  {
    if l.link.helloInterval != 0 then l.link.helloInterval else cfg.helloInterval
  }

  predicate Heard(l: LinkState, now: int) {
    l.multicast.expires > now || l.unicast.expires > now
  }

  function LinkCost(l: LinkState, now: int): u16 {
    if l.ihuExpires <= now || l.tx == INFINITY || !Heard(l, now) then INFINITY
    else Max(l.link.cost, Max(l.tx, 1))
  }

  function Cost(st: State, id: LinkId): u16 {
    if id in st.links then LinkCost(st.links[id], st.now) else INFINITY
  }

  predicate Feasible(sources: map<SourceKey, Source>, p: Prefix, c: Candidate) {
    var sk := SourceKey(p, c.id);
    c.advertised == INFINITY || sk !in sources || Better(c.Dist(), sources[sk].Dist())
  }

  function Metric(st: State, k: RouteKey, c: Candidate): u16 {
    if Accepts(st.cfg, c.id, k.prefix, c.seqno) then Sum(c.advertised, Cost(st, k.link)) else INFINITY
  }

  function MetricAt(st: State, k: RouteKey): u16 {
    if k in st.routes then Metric(st, k, st.routes[k]) else INFINITY
  }

  // --------------------------------------------------------- trigger and queue

  function NextRandom(r: bv64): bv64 {
    var a := r ^ (r << 13);
    var b := a ^ (a >> 7);
    b ^ (b << 17)
  }

  /** The jitter a fresh random state yields: between 0 and the maximum. */
  function Jitter(r: bv64, maximum: int): (d: int)
    requires 0 <= maximum
    ensures 0 <= d <= maximum
  {
    (r as int) % (maximum + 1)
  }

  function ScheduleTrigger(t: Trigger, now: int, repeat: bool): Trigger {
    var armed :=
      if t.on then t
      else
        var r := NextRandom(t.rng);
        Trigger(true, now + Jitter(r, 50 * MILLISECOND), t.repeats, r);
    if repeat then armed.(repeats := 2) else armed
  }

  function Queued(out: map<LinkId, seq<Message>>, id: LinkId): seq<Message> {
    if id in out then out[id] else []
  }

  function Queue(links: map<LinkId, LinkState>, out: map<LinkId, seq<Message>>, id: LinkId, m: Message)
    : map<LinkId, seq<Message>>
  {
    if id in links then out[id := Queued(out, id) + [m]] else out
  }

  /** The same message to a sequence of links. */
  function QueueAll(links: map<LinkId, LinkState>, out: map<LinkId, seq<Message>>, ids: seq<LinkId>, m: Message)
    : map<LinkId, seq<Message>>
  {
    if ids == [] then out
    else
      var n := |ids| - 1;
      Queue(links, QueueAll(links, out, ids[..n], m), ids[n], m)
  }

  // ---------------------------------------------------------------- advertise

  function Period(cfg: LiveConfig): u16 { Centis(cfg.updateInterval) }

  function Retraction(cfg: LiveConfig, p: Prefix): Message {
    Update(p, 0, 0, INFINITY, Period(cfg), NoAddr, false)
  }

  predicate Gated(cfg: Config, p: Prefix, r: Route) {
    r.local && cfg.hooks.advertiseLocalRoute.Some? && !cfg.hooks.advertiseLocalRoute.value(r.routerId, p, r.seqno)
  }

  /** The feasibility history after advertising distance d: it only ever improves. */
  function Lowered(sources: map<SourceKey, Source>, sk: SourceKey, d: Distance, expires: int): Source {
    if sk !in sources || Better(d, sources[sk].Dist()) then Source(d.seqno, d.metric, expires)
    else sources[sk].(expires := expires)
  }

  function RouteDist(r: Route): Distance { Distance(r.seqno, r.metric) }

  predicate Reachable(selected: map<Prefix, Route>, p: Prefix) {
    p in selected && !selected[p].unreachable
  }

  function Announcement(cfg: LiveConfig, l: LinkState, p: Prefix, r: Route): Message {
    var hop := if p.family == IPv4 && IsValid(l.link.ipv4) then l.link.ipv4 else NoAddr;
    var via6 := p.family == IPv4 && !IsValid(l.link.ipv4);
    Update(p, r.routerId, r.seqno, r.metric, Period(cfg), hop, via6)
  }

  /** A finite advertisement: the history is lowered, then the message queued. */
  function AdvertiseRoute(st: State, em: Emission, id: LinkId, p: Prefix, r: Route): Emission
    requires id in st.links
  {
    var l := st.links[id];
    var sk := SourceKey(p, r.routerId);
    if p.family == IPv4 && !IsValid(l.link.ipv4) && !st.cfg.ipv4ViaIPv6 then em
    else if sk !in em.sources && |em.sources| >= st.cfg.maxSources then em
    else
      em.(sources := em.sources[sk := Lowered(em.sources, sk, RouteDist(r), st.now + st.cfg.sourceGC)],
          out := Queue(st.links, em.out, id, Announcement(st.cfg, l, p, r)))
  }

  function Advertise(st: State, em: Emission, id: LinkId, p: Prefix, explicit: bool): Emission {
    if id !in st.links then em
    else if !Reachable(st.selected, p) then
      em.(out := Queue(st.links, em.out, id, Retraction(st.cfg, p)))
    else
      var r := st.selected[p];
      if Gated(st.cfg, p, r) then em.(trigger := ScheduleTrigger(em.trigger, st.now, true))
      else if !explicit && r.link == id then em  // split horizon
      else AdvertiseRoute(st, em, id, p, r)
  }

  function AdvertiseAll(st: State, em: Emission, id: LinkId, ps: seq<Prefix>, explicit: bool): Emission {
    if ps == [] then em
    else
      var n := |ps| - 1;
      Advertise(st, AdvertiseAll(st, em, id, ps[..n], explicit), id, ps[n], explicit)
  }

  function Dump(st: State, em: Emission, id: LinkId, explicit: bool): Emission {
    AdvertiseAll(st, em, id, SortPrefixes(st.selected.Keys), explicit)
  }

  // ----------------------------------------------------------- seqno requests

  function RequestMessage(sk: SourceKey, q: Pending): Message { SeqRequest(sk.prefix, sk.id, q.seqno, q.hopCount) }

  /** Request a sequence number: at most one pending entry for a source, never an older one. */
  function Ask(st: State, sk: SourceKey, seqno: u16, targets: set<LinkId>, from: LinkId, hops: u8): State {
    if sk in st.requests && AtLeast(st.requests[sk].seqno, seqno) then st
    else if sk !in st.requests && |st.requests| >= st.cfg.maxRequests then st
    else
      var ids := SortLinks(targets);
      var q := Pending(seqno, hops, ids, from, st.now + SECOND, st.now + 4 * SECOND, 2);
      st.(requests := st.requests[sk := q],
          em := st.em.(out := QueueAll(st.links, st.em.out, ids, RequestMessage(sk, q))))
  }

  // ---------------------------------------------------------------- selection

  predicate Usable(st: State, k: RouteKey) {
    && k in st.routes
    && k.prefix !in st.local
    && MetricAt(st, k) != INFINITY
    && Feasible(st.em.sources, k.prefix, st.routes[k])
  }

  function PreviousLink(st: State, p: Prefix): LinkId {
    if p in st.selected then st.selected[p].link else 0
  }

  /** k is preferred to j: less metric, then the previous link, then the lower link. */
  predicate Preferred(st: State, k: RouteKey, j: RouteKey) {
    var x, y := MetricAt(st, k), MetricAt(st, j);
    var prev := PreviousLink(st, k.prefix);
    x < y || (x == y && (k.link == prev || (j.link != prev && k.link <= j.link)))
  }

  ghost predicate IsBest(st: State, k: RouteKey) {
    Usable(st, k) && forall j :: Usable(st, j) && j.prefix == k.prefix ==> Preferred(st, k, j)
  }

  function UsablePrefixes(st: State): set<Prefix> {
    set k | k in st.routes && Usable(st, k) :: k.prefix
  }

  function LocalRoute(st: State, p: Prefix): Route
    requires p in st.local
  {
    Route(p, st.cfg.routerId, st.seqno, st.local[p], 0, NoAddr, true, false)
  }

  function RouteVia(st: State, k: RouteKey): Route
    requires k in st.routes
  {
    var c := st.routes[k];
    Route(k.prefix, c.id, c.seqno, MetricAt(st, k), k.link, c.hop, false, false)
  }

  function DropRoute(p: Prefix): Route { Route(p, 0, 0, INFINITY, 0, NoAddr, false, true) }

  /** Choice of routes by specification: local first, else through the best usable candidate. */
  ghost predicate IsChoice(st: State, next: map<Prefix, Route>) {
    && next.Keys == st.local.Keys + UsablePrefixes(st)
    && (forall p :: p in st.local ==> p in next && next[p] == LocalRoute(st, p))
    && (forall p :: p in next && p !in st.local ==>
          var k := RouteKey(p, next[p].link); IsBest(st, k) && next[p] == RouteVia(st, k))
  }

  lemma BestExists(st: State, s: set<RouteKey>, p: Prefix)
    requires s != {} && forall k :: k in s ==> Usable(st, k) && k.prefix == p
    ensures exists k :: k in s && forall j :: j in s ==> Preferred(st, k, j)
  {
    var e :| e in s;
    var rest := s - {e};
    if rest == {} {
      assert s == {e};
    } else {
      BestExists(st, rest, p);
      var b :| b in rest && forall j :: j in rest ==> Preferred(st, b, j);
      var k := if Preferred(st, e, b) then e else b;
      forall j | j in s ensures Preferred(st, k, j) {
        assert j == e || j in rest;
      }
    }
  }

  ghost function BestLink(st: State, p: Prefix): (l: LinkId)
    requires p in UsablePrefixes(st)
    ensures IsBest(st, RouteKey(p, l))
  {
    var s := set k | k in st.routes && Usable(st, k) && k.prefix == p;
    var e :| e in s;
    BestExists(st, s, p);
    var k :| k in s && forall j :: j in s ==> Preferred(st, k, j);
    assert k == RouteKey(p, k.link);
    var l :| IsBest(st, RouteKey(p, l));
    l
  }

  ghost function Choice(st: State): (next: map<Prefix, Route>)
    ensures IsChoice(st, next)
  {
    map p | p in st.local.Keys + UsablePrefixes(st) ::
      if p in st.local then LocalRoute(st, p) else RouteVia(st, RouteKey(p, BestLink(st, p)))
  }

  lemma BestUnique(st: State, k: RouteKey, j: RouteKey)
    requires IsBest(st, k) && IsBest(st, j) && k.prefix == j.prefix
    ensures k == j
  {
    assert Preferred(st, k, j) && Preferred(st, j, k);
  }

  /** The specification of a choice leaves nothing open. */
  lemma ChoiceUnique(st: State, next: map<Prefix, Route>)
    requires IsChoice(st, next)
    ensures next == Choice(st)
  {
    hide IsBest, RouteVia, LocalRoute, UsablePrefixes;
    var c := Choice(st);
    forall p | p in next ensures next[p] == c[p] {
      SameChoice(st, next, c, p);
    }
  }

  lemma SameChoice(st: State, x: map<Prefix, Route>, y: map<Prefix, Route>, p: Prefix)
    requires IsChoice(st, x) && IsChoice(st, y) && p in x && p in y
    ensures x[p] == y[p]
  {
    if p !in st.local {
      BestUnique(st, RouteKey(p, x[p].link), RouteKey(p, y[p].link));
    }
  }

  /** The links a lost source is asked for again on. */
  function LossTargets(st: State, p: Prefix): set<LinkId> {
    set k | k in st.routes && k.prefix == p && st.routes[k].advertised != INFINITY
        && Cost(st, k.link) != INFINITY :: k.link
  }

  predicate Lost(st: State, next: map<Prefix, Route>, p: Prefix) {
    p !in next && Reachable(st.selected, p)
  }

  function Suppress(st: State, p: Prefix): State {
    st.(drops := st.drops[p := st.now + Hold(st.cfg.updateInterval)],
        em := st.em.(trigger := ScheduleTrigger(st.em.trigger, st.now, true)))
  }

  /** A prefix that loses its route is suppressed, announced, and asked for again. */
  function Lose(st: State, next: map<Prefix, Route>, p: Prefix): State {
    if !Lost(st, next, p) then st
    else
      var st1 := Suppress(st, p);
      var sk := SourceKey(p, st.selected[p].routerId);
      var targets := LossTargets(st, p);
      if sk in st.em.sources && targets != {} then
        Ask(st1, sk, NextSeqno(st.em.sources[sk].seqno), targets, 0, 64)
      else st1
  }

  function LoseAll(st: State, next: map<Prefix, Route>, ps: seq<Prefix>): State {
    if ps == [] then st
    else
      var n := |ps| - 1;
      Lose(LoseAll(st, next, ps[..n]), next, ps[n])
  }

  /** Suppressions that still hold and that no route has replaced. */
  function LiveDrops(st: State, next: map<Prefix, Route>): map<Prefix, int> {
    map p | p in st.drops && p !in next && st.drops[p] > st.now :: st.drops[p]
  }

  function WithDrops(next: map<Prefix, Route>, drops: map<Prefix, int>): map<Prefix, Route> {
    next + map p | p in drops :: DropRoute(p)
  }

  predicate OriginChanged(was: map<Prefix, Route>, next: map<Prefix, Route>, p: Prefix) {
    p in next && (p !in was || was[p].routerId != next[p].routerId || was[p].unreachable != next[p].unreachable)
  }

  predicate DistanceChanged(was: map<Prefix, Route>, next: map<Prefix, Route>, p: Prefix) {
    p in next && p in was && (was[p].metric != next[p].metric || was[p].seqno != next[p].seqno)
  }

  /** Trigger after the changes of the prefixes ps: armed once, repeated when any origin or reachability changed. */
  function Announce(t: Trigger, now: int, was: map<Prefix, Route>, next: map<Prefix, Route>, ps: set<Prefix>): Trigger {
    if exists p :: p in ps && OriginChanged(was, next, p) then ScheduleTrigger(t, now, true)
    else if exists p :: p in ps && DistanceChanged(was, next, p) then ScheduleTrigger(t, now, false)
    else t
  }

  /** A pending request is settled once a route of another origin or a recent enough one is selected. */
  predicate Settled(selected: map<Prefix, Route>, sk: SourceKey, q: Pending) {
    && Reachable(selected, sk.prefix)
    && (selected[sk.prefix].routerId != sk.id || AtLeast(selected[sk.prefix].seqno, q.seqno))
  }

  function Unsettled(st: State): map<SourceKey, Pending> {
    map sk | sk in st.requests && !Settled(st.selected, sk, st.requests[sk]) :: st.requests[sk]
  }

  /** Answers to the neighbours whose requests are now settled. */
  function Answer(st: State, em: Emission, sks: seq<SourceKey>): Emission {
    if sks == [] then em
    else
      var n := |sks| - 1;
      var sk := sks[n];
      var em1 := Answer(st, em, sks[..n]);
      if sk in st.requests && Settled(st.selected, sk, st.requests[sk]) && st.requests[sk].from != 0 then
        Advertise(st, em1, st.requests[sk].from, sk.prefix, true)
      else em1
  }

  function AnswerRequests(st: State): State {
    st.(em := Answer(st, st.em, SortSourceKeys(st.requests.Keys)), requests := Unsettled(st))
  }

  /** Selection, given the choice of routes. */
  function Adopt(st: State, next: map<Prefix, Route>): State {
    var st1 := LoseAll(st, next, SortPrefixes(st.selected.Keys));
    var drops := LiveDrops(st1, next);
    var selected := WithDrops(next, drops);
    st1.(drops := drops, selected := selected,
         em := st1.em.(trigger := Announce(st1.em.trigger, st.now, st.selected, selected, selected.Keys)))
  }

  ghost function SelectRoutes(st: State): State {
    AnswerRequests(Adopt(st, Choice(st)))
  }
}
