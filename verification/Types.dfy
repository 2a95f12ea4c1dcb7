/**
 Addresses, prefixes, configuration, events, messages and the tables of the engine
 (types.go, and the struct declarations of engine.go and checkpoint.go).
 */
module Types {
  import opened Arithmetic

  datatype Option<+T> = None | Some(value: T)
  datatype Result<+T> = Ok(value: T) | Err(error: Error)
  datatype Error = ErrConfig | ErrTime | ErrPending | ErrRevision | ErrStopped | ErrLimit

  // ---------------------------------------------------------------- addresses

  datatype Addr = NoAddr | V4(v4: nat) | V6(v6: nat, zone: string)

  datatype Family = NoFamily | IPv4 | IPv6

  // A prefix carries no zone.  NoFamily is the zero value of netip.Prefix.
  datatype Prefix = Prefix(family: Family, value: nat, len: nat)

  function Pow2(n: nat): (r: nat)
    ensures r > 0
  {
    if n == 0 then 1 else 2 * Pow2(n - 1)
  }

  function Width(f: Family): nat { match f case NoFamily => 0 case IPv4 => 32 case IPv6 => 128 }

  predicate Mapped(v: nat) { v / 0x1_0000_0000 == 0xFFFF }

  predicate LinkLocal4(v: nat) { v / 0x1_0000 == 0xA9FE }

  predicate LinkLocal(a: Addr) {
    match a
    case NoAddr => false
    case V4(v) => LinkLocal4(v)
    case V6(v, _) =>
      if Mapped(v) then LinkLocal4(v % 0x1_0000_0000)
      else v / 0x40_0000_0000_0000_0000_0000_0000_0000 == 0x3FA
  }

  predicate Is6(a: Addr) { a.V6? }

  predicate Is4(a: Addr) { a.V4? }

  predicate IsValid(a: Addr) { !a.NoAddr? }

  predicate Zoned(a: Addr) { a.V6? && a.zone != "" }

  predicate Unspecified4(v: nat) { v == 0 }

  predicate Multicast4(v: nat) { v / 0x1000_0000 == 0xE }

  predicate ValidPrefix(p: Prefix) {
    && p.family != NoFamily
    && p.len <= Width(p.family)
    && p.value < Pow2(Width(p.family))
    && p.value % Pow2(Width(p.family) - p.len) == 0  // no host bits
    && !(p.family == IPv6 && Mapped(p.value))
  }

  predicate ScopedAddress(p: Prefix) {
    match p.family
    case NoFamily => false
    case IPv4 => LinkLocal4(p.value) || Multicast4(p.value) || p.value / 0x100_0000 == 127
    case IPv6 =>
      LinkLocal(V6(p.value, "")) || p.value / 0x1_00_0000_0000_0000_0000_0000_0000_0000 == 0xFF || p.value == 1
  }

  predicate RoutablePrefix(p: Prefix) {
    ValidPrefix(p) && !ScopedAddress(p) && !(p.value == 0 && p.len == Width(p.family))
  }

  function FamilyRank(f: Family): int { match f case NoFamily => 0 case IPv4 => 1 case IPv6 => 2 }

  predicate PrefixLess(a: Prefix, b: Prefix) {
    if a.family != b.family then FamilyRank(a.family) < FamilyRank(b.family)
    else if a.value != b.value then a.value < b.value
    else a.len < b.len
  }

  // ------------------------------------------------------------ configuration

  type RouterId = u64
  type LinkId = u64

  const ALL_ONES: u64 := 0xFFFF_FFFF_FFFF_FFFF

  predicate ValidRouterId(id: RouterId) { id != 0 && id != ALL_ONES }

  // The optional policy callbacks.  A callback is a function of its arguments; the
  // embedding application may exchange the callbacks between two steps.
  datatype Hooks = Hooks(
    acceptRoute: Option<(RouterId, Prefix) -> bool>,
    acceptRouteUpdate: Option<(RouterId, Prefix, u16) -> bool>,
    advertiseLocalRoute: Option<(RouterId, Prefix, u16) -> bool>)

  datatype Config = Config(
    routerId: RouterId,
    initialSeqno: u16,
    seed: bv64,
    helloInterval: int,
    updateInterval: int,
    sourceGC: int,
    maxLinks: int,
    maxRoutes: int,
    maxSources: int,
    maxRequests: int,
    ipv4ViaIPv6: bool,
    hooks: Hooks)

  datatype Link = Link(
    id: LinkId,
    local: Addr,
    peer: Addr,
    cost: u16,
    maxPacket: int,
    helloInterval: int,
    ipv4: Addr)

  predicate MultipleOfCentisecond(d: int) { d % CENTISECOND == 0 }

  /** The bounds a configuration satisfies once New has filled in the defaults. */
  predicate BoundedConfig(c: Config) {
    && ValidRouterId(c.routerId)
    && 100 * MILLISECOND <= c.helloInterval <= 32767 * CENTISECOND && MultipleOfCentisecond(c.helloInterval)
    && 100 * MILLISECOND <= c.updateInterval <= 65534 * CENTISECOND && MultipleOfCentisecond(c.updateInterval)
    && 3 * MINUTE <= c.sourceGC <= 24 * HOUR
    && Hold(c.updateInterval) <= c.sourceGC
    && 1 <= c.maxLinks && 1 <= c.maxRoutes && 1 <= c.maxSources && 1 <= c.maxRequests
  }

  const DEFAULT_CONFIG: Config :=
    Config(1, 0, 1, 4 * SECOND, 16 * SECOND, 3 * MINUTE, 64, 8192, 16384, 1024, false, Hooks(None, None, None))

  type LiveConfig = c: Config | BoundedConfig(c) witness DEFAULT_CONFIG

  /** The checks AddLink makes on the link alone. */
  predicate BoundedLink(l: Link) {
    && l.id != 0
    && Is6(l.local) && Is6(l.peer) && LinkLocal(l.local) && LinkLocal(l.peer) && l.local != l.peer
    && !Zoned(l.local) && !Zoned(l.peer)
    && l.cost != 0
    && (l.helloInterval == 0
        || (100 * MILLISECOND <= l.helloInterval <= 32767 * CENTISECOND && MultipleOfCentisecond(l.helloInterval)))
    && (l.maxPacket == 0 || 512 <= l.maxPacket <= 65487)
    && (IsValid(l.ipv4) ==> Is4(l.ipv4) && !Unspecified4(l.ipv4.v4) && !Multicast4(l.ipv4.v4))
  }

  const FE80: nat := 0xFE80_0000_0000_0000_0000_0000_0000_0000

  type LiveLink = l: Link | BoundedLink(l) witness Link(1, V6(FE80 + 1, ""), V6(FE80 + 2, ""), 1, 0, 0, NoAddr)

  // ----------------------------------------------------------- wire messages

  // One constructor for each TLV the decoder delivers.  The Update and Request
  // wildcards are constructors of their own.
  datatype Message =
    | Hello(unicast: bool, seqno: u16, interval: u16)
    | IHU(address: Addr, metric: u16, interval: u16)
    | AckRequest(tag: u16)
    | Ack(tag: u16)
    | Update(prefix: Prefix, routerId: RouterId, seqno: u16, metric: u16, interval: u16, address: Addr, v4ViaV6: bool)
    | WildcardUpdate
    | RouteRequest(prefix: Prefix)
    | WildcardRequest
    | SeqRequest(prefix: Prefix, routerId: RouterId, seqno: u16, hopCount: u8)

  predicate FiniteUpdate(m: Message) { m.Update? && m.metric != INFINITY }

  /** What the decoder guarantees of a message (section 4.6 of RFC 8966). */
  predicate Decodable(m: Message) {
    match m
    case IHU(_, _, interval) => interval > 0
    case Update(_, id, _, metric, interval, _, _) => interval > 0 && (metric != INFINITY ==> ValidRouterId(id))
    case SeqRequest(_, id, _, hops) => hops > 0 && ValidRouterId(id)
    case _ => true
  }

  // A received payload: its size, and what the decoder makes of it on its link.
  datatype Packet = Packet(size: nat, decoded: Option<seq<Message>>)

  datatype Datagram = Datagram(link: LinkId, messages: seq<Message>)

  // ------------------------------------------------------- events and effects

  datatype Event =
    | Tick
    | AddLink(link: Link)
    | RemoveLink(id: LinkId)
    | SetCost(id: LinkId, cost: u16)
    | Receive(id: LinkId, packet: Packet)
    | Originate(prefix: Prefix, metric: u16)
    | Withdraw(prefix: Prefix)

  /** Every message of a received packet came out of the decoder. */
  predicate Decoded(event: Event) {
    event.Receive? && event.packet.decoded.Some? ==>
      forall m :: m in event.packet.decoded.value ==> Decodable(m)
  }

  datatype Route = Route(
    prefix: Prefix,
    routerId: RouterId,
    seqno: u16,
    metric: u16,
    link: LinkId,
    nextHop: Addr,
    local: bool,
    unreachable: bool)

  datatype Effects = Effects(revision: nat, routes: seq<Route>, datagrams: seq<Datagram>)

  const NO_EFFECTS := Effects(0, [], [])

  // ------------------------------------------------------------------- tables

  datatype RouteKey = RouteKey(prefix: Prefix, link: LinkId)

  datatype SourceKey = SourceKey(prefix: Prefix, id: RouterId)

  datatype Source = Source(seqno: u16, metric: u16, expires: int) {
    function Dist(): Distance { Distance(seqno, metric) }
  }

  datatype Candidate = Candidate(
    id: RouterId,
    seqno: u16,
    advertised: u16,
    hop: Addr,
    expires: int,
    interval: int,
    refreshRequested: bool)
  {
    function Dist(): Distance { Distance(seqno, advertised) }
  }

  datatype HelloState = HelloState(seqno: u16, seen: bool, expires: int)

  datatype LinkState = LinkState(
    link: LiveLink,
    multicast: HelloState,
    unicast: HelloState,
    tx: u16,
    ihuExpires: int,
    nextHello: int,
    nextIHU: int,
    nextUpdate: int,
    helloSeq: u16,
    lastDump: int,
    dumped: bool)

  // A pending sequence-number request; its prefix and router ID are its key.
  datatype Pending = Pending(
    seqno: u16,
    hopCount: u8,
    targets: seq<LinkId>,
    from: LinkId,
    next: int,
    expires: int,
    remaining: int)

  // The triggered-update schedule and the random state it draws from.
  datatype Trigger = Trigger(on: bool, at: int, repeats: int, rng: bv64)

  // What an advertisement writes: feasibility history, output queues, trigger.
  datatype Emission = Emission(
    sources: map<SourceKey, Source>,
    out: map<LinkId, seq<Message>>,
    trigger: Trigger)

  // The whole engine as a value.
  datatype State = State(
    cfg: LiveConfig,
    now: int,
    seqno: u16,
    lastLink: LinkId,
    links: map<LinkId, LinkState>,
    routes: map<RouteKey, Candidate>,
    local: map<Prefix, u16>,
    selected: map<Prefix, Route>,
    drops: map<Prefix, int>,
    requests: map<SourceKey, Pending>,
    em: Emission,
    revision: nat,
    pending: nat,
    held: seq<Datagram>,
    stopped: bool)

  // --------------------------------------------------------------- checkpoint

  datatype SourceHistory = SourceHistory(prefix: Prefix, routerId: RouterId, seqno: u16, metric: u16)

  datatype Checkpoint = Checkpoint(
    version: int,
    routerId: RouterId,
    seqno: u16,
    lastLink: LinkId,
    sourceHold: int,
    dropHold: int,
    sources: seq<SourceHistory>,
    drops: seq<Prefix>)
}
