/**
 Events, packets, timers and the two-phase step of engine.go, construction (types.go)
 and crash recovery (checkpoint.go), as functions of the state value.
 */
module Steps {
  import opened Arithmetic
  import opened Types
  import opened Sorting
  import opened Rules

  // ------------------------------------------------------------------ packets

  function WireTime(interval: u16): int { interval * CENTISECOND }

  function HearHello(h: HelloState, now: int, seqno: u16, interval: u16): HelloState {
    if !h.seen || h.expires <= now || Newer(seqno, h.seqno) then
      HelloState(seqno, true, if interval > 0 then now + Hold(WireTime(interval)) else h.expires)
    else h
  }

  function RetractedRoutes(routes: map<RouteKey, Candidate>, id: LinkId): map<RouteKey, Candidate> {
    map k | k in routes :: if k.link == id then routes[k].(advertised := INFINITY) else routes[k]
  }

  function RetractLink(st: State, id: LinkId): State { st.(routes := RetractedRoutes(st.routes, id)) }

  /** The admission tests of a finite update, in order (engine.go:326-352). */
  predicate Admissible(st: State, id: LinkId, m: Message)
    requires id in st.links && m.Update?
  {
    && RoutablePrefix(m.prefix)
    && Accepts(st.cfg, m.routerId, m.prefix, m.seqno)
    && m.routerId != st.cfg.routerId
    && !(m.v4ViaV6 && !st.cfg.ipv4ViaIPv6)
    && !(Is6(m.address) && m.address != st.links[id].link.peer)
    && !(SourceKey(m.prefix, m.routerId) !in st.em.sources && |st.em.sources| >= st.cfg.maxSources)
  }

  predicate HasRoom(st: State, k: RouteKey) {
    k in st.routes || |st.routes| + |st.local| + |st.drops| < st.cfg.maxRoutes
  }

  function NewCandidate(st: State, m: Message): Candidate
    requires m.Update?
  {
    var interval := WireTime(m.interval);
    Candidate(m.routerId, m.seqno, m.metric, m.address, st.now + Hold(interval), interval, false)
  }

  /** A new candidate; a change of its origin arms the trigger. */
  function Learn(st: State, id: LinkId, m: Message): State
    requires m.Update?
  {
    var k := RouteKey(m.prefix, id);
    var was := if k in st.routes then st.routes[k].id else 0;
    var trigger :=
      if was != 0 && was != m.routerId then ScheduleTrigger(st.em.trigger, st.now, true) else st.em.trigger;
    st.(routes := st.routes[k := NewCandidate(st, m)], em := st.em.(trigger := trigger))
  }

  /** An infeasible update is worth a request when it would improve or restore the prefix. */
  predicate WantsFresh(st: State, k: RouteKey) {
    || !Reachable(st.selected, k.prefix)
    || st.selected[k.prefix].link == k.link
    || MetricAt(st, k) < st.selected[k.prefix].metric
  }

  /** An update that passed admission. */
  function AcceptUpdate(st: State, id: LinkId, m: Message): State
    requires m.Update?
  {
    var k := RouteKey(m.prefix, id);
    var st1 := Learn(st, id, m);
    var sk := SourceKey(m.prefix, m.routerId);
    if !Feasible(st1.em.sources, m.prefix, NewCandidate(st, m)) && WantsFresh(st1, k) then
      Ask(st1, sk, NextSeqno(st1.em.sources[sk].seqno), {id}, 0, 64)
    else st1
  }

  function ReceiveUpdate(st: State, id: LinkId, m: Message): State
    requires id in st.links && m.Update?
  {
    var k := RouteKey(m.prefix, id);
    if m.metric == INFINITY then
      if k in st.routes then st.(routes := st.routes[k := st.routes[k].(advertised := INFINITY)]) else st
    else if !Admissible(st, id, m) || !HasRoom(st, k) then st
    else AcceptUpdate(st, id, m)
  }

  // Forwarding of sequence-number requests (section 3.8.1.2 of RFC 8966).

  predicate Relay(st: State, p: Prefix, from: LinkId, k: RouteKey) {
    k in st.routes && k.prefix == p && k.link != from && MetricAt(st, k) != INFINITY
  }

  predicate FeasibleAt(st: State, k: RouteKey) {
    k in st.routes && Feasible(st.em.sources, k.prefix, st.routes[k])
  }

  /** Feasible before infeasible, then less metric, then the lower link. */
  predicate RelayPreferred(st: State, k: RouteKey, j: RouteKey) {
    if FeasibleAt(st, k) != FeasibleAt(st, j) then FeasibleAt(st, k)
    else if MetricAt(st, k) != MetricAt(st, j) then MetricAt(st, k) < MetricAt(st, j)
    else k.link <= j.link
  }

  ghost predicate IsBestRelay(st: State, p: Prefix, from: LinkId, k: RouteKey) {
    Relay(st, p, from, k) && forall j :: Relay(st, p, from, j) ==> RelayPreferred(st, k, j)
  }

  predicate Advertised(st: State, p: Prefix) { exists sk :: sk in st.em.sources && sk.prefix == p }

  ghost function Forward(st: State, from: LinkId, m: Message): State
    requires m.SeqRequest?
  {
    if m.routerId == st.cfg.routerId || m.hopCount < 2 || !Advertised(st, m.prefix) then st
    else if exists k :: IsBestRelay(st, m.prefix, from, k) then
      var k :| IsBestRelay(st, m.prefix, from, k);
      Ask(st, SourceKey(m.prefix, m.routerId), m.seqno, {k.link}, from, m.hopCount - 1)
    else st
  }

  /** Advance the own sequence number and answer with it. */
  ghost function Renew(st: State, from: LinkId, p: Prefix): State {
    var st1 := SelectRoutes(st.(seqno := NextSeqno(st.seqno)));
    st1.(em := Advertise(st1, st1.em, from, p, true))
  }

  ghost function ReceiveSeqRequest(st: State, from: LinkId, m: Message): State
    requires m.SeqRequest?
  {
    var p := m.prefix;
    if !Reachable(st.selected, p) then Forward(st, from, m)
    else
      var r := st.selected[p];
      if r.routerId != m.routerId || AtLeast(r.seqno, m.seqno) then
        st.(em := Advertise(st, st.em, from, p, true))
      else if r.local then Renew(st, from, p)
      else Forward(st, from, m)
  }

  function Tuned(st: State, id: LinkId, l: LinkState): State { st.(links := st.links[id := l]) }

  /** Wildcard requests are answered by a full dump, at most once per Hello interval. */
  function ReceiveWildcardRequest(st: State, id: LinkId): State
    requires id in st.links
  {
    var l := st.links[id];
    if !l.dumped || st.now - l.lastDump >= HelloInterval(st.cfg, l) then
      Tuned(st.(em := Dump(st, st.em, id, true)), id, l.(lastDump := st.now, dumped := true))
    else st
  }

  ghost function ReceiveMessage(st: State, id: LinkId, m: Message): State
    requires id in st.links
  {
    var l := st.links[id];
    match m
    case Hello(false, seqno, interval) =>
      Tuned(st, id, l.(multicast := HearHello(l.multicast, st.now, seqno, interval)))
    case Hello(true, seqno, interval) =>
      Tuned(st, id, l.(unicast := HearHello(l.unicast, st.now, seqno, interval)))
    case IHU(address, metric, interval) =>
      if !IsValid(address) || address == l.link.local || address == l.link.ipv4 then
        Tuned(st, id, l.(tx := metric, ihuExpires := st.now + Hold(WireTime(interval))))
      else st
    case AckRequest(tag) => st.(em := st.em.(out := Queue(st.links, st.em.out, id, Ack(tag))))
    case Ack(_) => st
    case Update(_, _, _, _, _, _, _) => ReceiveUpdate(st, id, m)
    case WildcardUpdate => RetractLink(st, id)
    case RouteRequest(p) => st.(em := Advertise(st, st.em, id, p, true))
    case WildcardRequest => ReceiveWildcardRequest(st, id)
    case SeqRequest(_, _, _, _) => ReceiveSeqRequest(st, id, m)
  }

  predicate Asks(m: Message) { m.RouteRequest? || m.WildcardRequest? || m.SeqRequest? }

  /** Requests see all preceding advertisements of the packet: selection runs before them. */
  ghost function ReceiveOne(st: State, id: LinkId, m: Message): State {
    var st1 := if Asks(m) then SelectRoutes(st) else st;
    if id in st1.links then ReceiveMessage(st1, id, m) else st1
  }

  ghost function ReceiveAll(st: State, id: LinkId, ms: seq<Message>): State {
    if ms == [] then st
    else
      var n := |ms| - 1;
      ReceiveOne(ReceiveAll(st, id, ms[..n]), id, ms[n])
  }

  ghost function ReceivePacket(st: State, id: LinkId, packet: Packet): State {
    if id !in st.links || packet.size > st.links[id].link.maxPacket || packet.decoded.None? then st
    else ReceiveAll(st, id, packet.decoded.value)
  }

  // ------------------------------------------------------------------- events

  function Silent(): HelloState { HelloState(0, false, 0) }

  function NewLink(l: LiveLink, now: int): LinkState {
    var budget := if l.maxPacket == 0 then 1200 else l.maxPacket;
    LinkState(l.(maxPacket := budget), Silent(), Silent(), INFINITY, 0, now, now, now, 0, 0, false)
  }

  function EventAddLink(st: State, l: LiveLink): State {
    var links := st.links[l.id := NewLink(l, st.now)];
    st.(links := links, lastLink := l.id, em := st.em.(out := Queue(links, st.em.out, l.id, WildcardRequest)))
  }

  function ClosedRoutes(routes: map<RouteKey, Candidate>, id: LinkId, until: int): map<RouteKey, Candidate> {
    map k | k in routes :: if k.link == id then routes[k].(advertised := INFINITY, expires := until) else routes[k]
  }

  function EventRemoveLink(st: State, id: LinkId): State {
    st.(links := st.links - {id},
        em := st.em.(out := st.em.out - {id}),
        routes := ClosedRoutes(st.routes, id, st.now + Hold(st.cfg.updateInterval)))
  }

  function EventSetCost(st: State, id: LinkId, cost: u16): State
    requires cost != 0
  {
    if id in st.links then Tuned(st, id, st.links[id].(link := st.links[id].link.(cost := cost))) else st
  }

  /** Each event on a state whose timers have expired; Validate has passed. */
  ghost function Apply(st: State, event: Event): State
    requires event.AddLink? ==> BoundedLink(event.link)
    requires event.SetCost? ==> event.cost != 0
  {
    match event
    case Tick => st
    case AddLink(l) => EventAddLink(st, l)
    case RemoveLink(id) => EventRemoveLink(st, id)
    case SetCost(id, cost) => EventSetCost(st, id, cost)
    case Receive(id, packet) => ReceivePacket(st, id, packet)
    case Originate(p, metric) => st.(local := st.local[p := metric], drops := st.drops - {p})
    case Withdraw(p) => st.(local := st.local - {p})
  }

  function Validate(st: State, event: Event): Option<Error> {
    match event
    case Tick => None
    case AddLink(l) =>
      if !BoundedLink(l) || l.id <= st.lastLink then Some(ErrConfig)
      else if |st.links| >= st.cfg.maxLinks then Some(ErrLimit)
      else None
    case RemoveLink(_) => None
    case SetCost(_, cost) => if cost == 0 then Some(ErrConfig) else None
    case Receive(_, _) => None
    case Originate(p, metric) =>
      if !RoutablePrefix(p) || metric == INFINITY then Some(ErrConfig)
      else if p !in st.local && |st.local| + |st.routes| + |st.drops| >= st.cfg.maxRoutes then Some(ErrLimit)
      else if SourceKey(p, st.cfg.routerId) !in st.em.sources && |st.em.sources| >= st.cfg.maxSources then
        Some(ErrLimit)
      else None
    case Withdraw(p) => if !ValidPrefix(p) then Some(ErrConfig) else None
  }

  // ------------------------------------------------------------------- timers

  function Aged(c: Candidate, now: int): Candidate {
    if c.expires <= now then c.(advertised := INFINITY, expires := now + Hold(c.interval)) else c
  }

  predicate Dead(c: Candidate, now: int) { c.expires <= now && c.advertised == INFINITY }

  function LiveSources(sources: map<SourceKey, Source>, now: int): map<SourceKey, Source> {
    map sk | sk in sources && sources[sk].expires > now :: sources[sk]
  }

  function AgedRoutes(routes: map<RouteKey, Candidate>, now: int): map<RouteKey, Candidate> {
    map k | k in routes && !Dead(routes[k], now) :: Aged(routes[k], now)
  }

  function LiveRequests(requests: map<SourceKey, Pending>, now: int): map<SourceKey, Pending> {
    map sk | sk in requests && requests[sk].expires > now :: requests[sk]
  }

  function Expire(st: State): State {
    st.(routes := AgedRoutes(st.routes, st.now),
        em := st.em.(sources := LiveSources(st.em.sources, st.now)),
        requests := LiveRequests(st.requests, st.now))
  }

  function Send(st: State, id: LinkId, m: Message): State {
    st.(em := st.em.(out := Queue(st.links, st.em.out, id, m)))
  }

  function Shuffle(st: State): State {
    st.(em := st.em.(trigger := st.em.trigger.(rng := NextRandom(st.em.trigger.rng))))
  }

  function HelloTimer(st: State, id: LinkId): State {
    if id !in st.links || st.links[id].nextHello > st.now then st
    else
      var l := st.links[id];
      var d := HelloInterval(st.cfg, l);
      var st1 := Shuffle(Send(st, id, Hello(false, l.helloSeq, Centis(d))));
      Tuned(st1, id, l.(helloSeq := NextSeqno(l.helloSeq), nextHello := st.now + d - Jitter(st1.em.trigger.rng, d / 8)))
  }

  function IHUTimer(st: State, id: LinkId): State {
    if id !in st.links || st.links[id].nextIHU > st.now then st
    else
      var l := st.links[id];
      var d := HelloInterval(st.cfg, l);
      var rx := if Rules.Heard(l, st.now) then l.link.cost else INFINITY;
      var st1 := Shuffle(Send(st, id, IHU(NoAddr, rx, Centis(d * 2))));
      Tuned(st1, id, l.(nextIHU := st.now + d * 2 - Jitter(st1.em.trigger.rng, d / 8)))
  }

  function UpdateTimer(st: State, id: LinkId): State {
    if id !in st.links || st.links[id].nextUpdate > st.now then st
    else
      var l := st.links[id];
      var d := st.cfg.updateInterval;
      var st1 := Shuffle(st.(em := Dump(st, st.em, id, false)));
      Tuned(st1, id, l.(nextUpdate := st.now + d - Jitter(st1.em.trigger.rng, d / 8)))
  }

  function LinkTimers(st: State, id: LinkId): State { UpdateTimer(IHUTimer(HelloTimer(st, id), id), id) }

  function AllLinkTimers(st: State, ids: seq<LinkId>): State {
    if ids == [] then st
    else
      var n := |ids| - 1;
      LinkTimers(AllLinkTimers(st, ids[..n]), ids[n])
  }

  function DumpAll(st: State, em: Emission, ids: seq<LinkId>): Emission {
    if ids == [] then em
    else
      var n := |ids| - 1;
      Dump(st, DumpAll(st, em, ids[..n]), ids[n], false)
  }

  predicate TriggerDue(st: State) { st.em.trigger.on && st.em.trigger.at <= st.now }

  function Rearm(t: Trigger, now: int): Trigger {
    if t.repeats > 0 then
      var r := NextRandom(t.rng);
      Trigger(t.on, now + 100 * MILLISECOND + Jitter(r, 50 * MILLISECOND), t.repeats - 1, r)
    else t.(on := false)
  }

  function TriggerTimer(st: State): State {
    if !TriggerDue(st) then st
    else
      var em := DumpAll(st, st.em, SortLinks(st.links.Keys));
      st.(em := em.(trigger := Rearm(em.trigger, st.now)))
  }

  predicate ResendDue(st: State, sk: SourceKey) {
    sk in st.requests && st.requests[sk].remaining > 0 && st.requests[sk].next <= st.now
  }

  function ResendOut(st: State, out: map<LinkId, seq<Message>>, sks: seq<SourceKey>): map<LinkId, seq<Message>> {
    if sks == [] then out
    else
      var n := |sks| - 1;
      var out1 := ResendOut(st, out, sks[..n]);
      if ResendDue(st, sks[n]) then
        QueueAll(st.links, out1, st.requests[sks[n]].targets, RequestMessage(sks[n], st.requests[sks[n]]))
      else out1
  }

  function Resent(q: Pending, now: int): Pending { q.(remaining := q.remaining - 1, next := now + SECOND) }

  function ResentRequests(st: State): map<SourceKey, Pending> {
    map sk | sk in st.requests :: if ResendDue(st, sk) then Resent(st.requests[sk], st.now) else st.requests[sk]
  }

  function RequestTimer(st: State): State {
    st.(em := st.em.(out := ResendOut(st, st.em.out, SortSourceKeys(st.requests.Keys))),
        requests := ResentRequests(st))
  }

  predicate RefreshDue(st: State, k: RouteKey) {
    && k in st.routes
    && k.prefix in st.selected && st.selected[k.prefix].link == k.link
    && var c := st.routes[k];
       !c.refreshRequested && c.advertised != INFINITY && c.expires - st.now <= c.interval
  }

  function RefreshOut(st: State, out: map<LinkId, seq<Message>>, ks: seq<RouteKey>): map<LinkId, seq<Message>> {
    if ks == [] then out
    else
      var n := |ks| - 1;
      var out1 := RefreshOut(st, out, ks[..n]);
      if RefreshDue(st, ks[n]) then Queue(st.links, out1, ks[n].link, RouteRequest(ks[n].prefix)) else out1
  }

  function RefreshedRoutes(st: State): map<RouteKey, Candidate> {
    map k | k in st.routes :: if RefreshDue(st, k) then st.routes[k].(refreshRequested := true) else st.routes[k]
  }

  function RefreshTimer(st: State): State {
    st.(em := st.em.(out := RefreshOut(st, st.em.out, SortRouteKeys(st.routes.Keys))),
        routes := RefreshedRoutes(st))
  }

  function Timers(st: State): State {
    RefreshTimer(RequestTimer(TriggerTimer(AllLinkTimers(st, SortLinks(st.links.Keys)))))
  }

  // --------------------------------------------------------------------- step

  function Collect(out: map<LinkId, seq<Message>>, ids: seq<LinkId>): seq<Datagram> {
    if ids == [] then []
    else
      var n := |ids| - 1;
      Collect(out, ids[..n]) + (if Queued(out, ids[n]) == [] then [] else [Datagram(ids[n], out[ids[n]])])
  }

  function Packets(st: State): seq<Datagram> { Collect(st.em.out, SortLinks(st.links.Keys)) }

  function Flushed(st: State): State { st.(em := st.em.(out := st.em.out - st.links.Keys)) }

  function RoutesOf(selected: map<Prefix, Route>, ps: seq<Prefix>): seq<Route>
    requires forall p :: p in ps ==> p in selected
  {
    seq(|ps|, i requires 0 <= i < |ps| => selected[ps[i]])
  }

  function Snapshot(selected: map<Prefix, Route>): seq<Route> {
    RoutesOf(selected, SortPrefixes(selected.Keys))
  }

  /** Everything a step does to the tables, before packets are released or withheld. */
  ghost function Work(st: State, now: int, event: Event): State
    requires Validate(st, event).None?
  {
    Timers(SelectRoutes(Apply(Expire(st.(now := now)), event)))
  }

  function Refusal(st: State, now: int, event: Event): Option<Error> {
    if st.stopped then Some(ErrStopped)
    else if st.pending != 0 then Some(ErrPending)
    else if now < st.now then Some(ErrTime)
    else if now > MAX_DURATION - 48 * HOUR then Some(ErrTime)
    else Validate(st, event)
  }

  /** Withhold the packets of a changed snapshot until its revision is committed. */
  function Conclude(was: map<Prefix, Route>, st: State): (State, Effects) {
    var packets := Packets(st);
    var st1 := Flushed(st);
    if Snapshot(was) != Snapshot(st1.selected) then
      var revision := st1.revision + 1;
      (st1.(revision := revision, pending := revision, held := packets), Effects(revision, Snapshot(st1.selected), []))
    else (st1, Effects(0, [], packets))
  }

  ghost function Step(st: State, now: int, event: Event): (State, Result<Effects>) {
    var refusal := Refusal(st, now, event);
    if refusal.Some? then (st, Err(refusal.value))
    else
      var (st1, effects) := Conclude(st.selected, Work(st, now, event));
      (st1, Ok(effects))
  }

  function Commit(st: State, revision: nat, success: bool): (State, Result<Effects>) {
    if st.stopped then (st, Err(ErrStopped))
    else if revision == 0 || revision != st.pending then (st, Err(ErrRevision))
    else if !success then (st.(pending := 0, stopped := true, held := []), Err(ErrStopped))
    else (st.(pending := 0, held := []), Ok(Effects(0, [], st.held)))
  }

  function LinkTimes(l: LinkState): set<int> {
    {l.nextHello, l.nextIHU, l.nextUpdate, l.ihuExpires, l.multicast.expires, l.unicast.expires}
  }

  function CandidateTimes(c: Candidate): set<int> {
    if c.refreshRequested then {c.expires} else {c.expires, c.expires - c.interval}
  }

  function PendingTimes(q: Pending): set<int> {
    if q.remaining > 0 then {q.expires, q.next} else {q.expires}
  }

  /** An instant at which some stored timer runs out. */
  predicate Timer(st: State, d: int) {
    || (exists id :: id in st.links && d in LinkTimes(st.links[id]))
    || (exists k :: k in st.routes && d in CandidateTimes(st.routes[k]))
    || (exists sk :: sk in st.em.sources && d == st.em.sources[sk].expires)
    || (exists p :: p in st.drops && d == st.drops[p])
    || (exists sk :: sk in st.requests && d in PendingTimes(st.requests[sk]))
    || (st.em.trigger.on && d == st.em.trigger.at)
  }

  /** The next deadline by specification: the earliest timer still ahead. */
  ghost predicate IsNextDeadline(st: State, deadline: Option<int>) {
    if st.stopped || st.pending != 0 then deadline == None
    else if TriggerDue(st) then deadline == Some(st.now)
    else
      match deadline
      case None => forall d :: Timer(st, d) ==> d <= st.now
      case Some(t) => Timer(st, t) && t > st.now && forall d :: Timer(st, d) && d > st.now ==> t <= d
  }

  // ------------------------------------------------------------- construction

  function Default(value: int, fallback: int): int { if value == 0 then fallback else value }

  function Defaulted(c: Config): Config {
    c.(helloInterval := Default(c.helloInterval, 4 * SECOND),
       updateInterval := Default(c.updateInterval, 16 * SECOND),
       sourceGC := Default(c.sourceGC, 3 * MINUTE),
       maxLinks := Default(c.maxLinks, 64),
       maxRoutes := Default(c.maxRoutes, 8192),
       maxSources := Default(c.maxSources, 16384),
       maxRequests := Default(c.maxRequests, 1024),
       seed := if c.seed == 0 then c.routerId as bv64 else c.seed)
  }

  function Fresh(c: LiveConfig): State {
    State(c, 0, c.initialSeqno, 0, map[], map[], map[], map[], map[], map[],
          Emission(map[], map[], Trigger(false, 0, 0, c.seed)), 0, 0, [], false)
  }

  function New(c: Config): Result<State> {
    if BoundedConfig(Defaulted(c)) then Ok(Fresh(Defaulted(c))) else Err(ErrConfig)
  }

  // --------------------------------------------------------------- checkpoint

  ghost predicate IsDropHold(st: State, hold: int) {
    && hold >= Hold(st.cfg.updateInterval)
    && (forall p :: p in st.drops ==> st.drops[p] - st.now <= hold)
    && (hold == Hold(st.cfg.updateInterval) || exists p :: p in st.drops && st.drops[p] - st.now == hold)
  }

  function Saved(sources: map<SourceKey, Source>, sks: seq<SourceKey>): seq<SourceHistory>
    requires forall sk :: sk in sks ==> sk in sources
  {
    seq(|sks|, i requires 0 <= i < |sks| =>
      SourceHistory(sks[i].prefix, sks[i].id, sources[sks[i]].seqno, sources[sks[i]].metric))
  }

  ghost predicate IsCheckpoint(st: State, c: Checkpoint) {
    && c.version == 1
    && c.routerId == st.cfg.routerId
    && c.seqno == st.seqno
    && c.lastLink == st.lastLink
    && c.sourceHold == st.cfg.sourceGC
    && IsDropHold(st, c.dropHold)
    && c.sources == Saved(st.em.sources, SortSourceKeys(st.em.sources.Keys))
    && c.drops == SortPrefixes(st.drops.Keys + st.selected.Keys)
  }

  function HistoryKey(h: SourceHistory): SourceKey { SourceKey(h.prefix, h.routerId) }

  predicate RestorableHistory(hs: seq<SourceHistory>) {
    && (forall h :: h in hs ==> ValidPrefix(h.prefix) && ValidRouterId(h.routerId) && h.metric != INFINITY)
    && (forall i, j :: 0 <= i < j < |hs| ==> HistoryKey(hs[i]) != HistoryKey(hs[j]))
  }

  predicate RestorableDrops(ps: seq<Prefix>) { forall p :: p in ps ==> ValidPrefix(p) }

  function RestoreConfig(c: Config, saved: Checkpoint): Config {
    c.(sourceGC := Max(c.sourceGC, saved.sourceHold), initialSeqno := saved.seqno)
  }

  /** The history of a checkpoint, each entry with a full lifetime. */
  function RestoredSources(hs: seq<SourceHistory>, expires: int): map<SourceKey, Source> {
    if hs == [] then map[]
    else
      var n := |hs| - 1;
      RestoredSources(hs[..n], expires)[HistoryKey(hs[n]) := Source(hs[n].seqno, hs[n].metric, expires)]
  }

  /** A fresh engine with the history and the suppressions of a checkpoint. */
  function Refilled(st: State, saved: Checkpoint): Result<State> {
    if |saved.sources| > st.cfg.maxSources || |saved.drops| > st.cfg.maxRoutes then Err(ErrLimit)
    else if !RestorableHistory(saved.sources) || !RestorableDrops(saved.drops) then Err(ErrConfig)
    else
      var until := Max(Hold(st.cfg.updateInterval), saved.dropHold);
      Ok(st.(lastLink := saved.lastLink,
             em := st.em.(sources := RestoredSources(saved.sources, st.cfg.sourceGC)),
             drops := map p | p in saved.drops :: until))
  }

  function Restore(c: Config, saved: Checkpoint): Result<State> {
    if saved.version != 1 || c.routerId != saved.routerId then Err(ErrConfig)
    else if !(3 * MINUTE <= saved.sourceHold <= 24 * HOUR && 0 < saved.dropHold <= 24 * HOUR) then Err(ErrConfig)
    else
      match New(RestoreConfig(c, saved))
      case Err(e) => Err(e)
      case Ok(st) => Refilled(st, saved)
  }
}
