/**
 One router as it is run: its engine, the forwarding table in force, its disk, and what it
 has released and sent.  It steps, commits, persists its history before it sends, crashes
 and restarts from its disk.
 */
module Sites {
  import opened Arithmetic
  import opened Types
  import opened Steps
  import opened History
  import opened Selection
  import opened Release
  import opened Provenance

  type Node = nat

  // A finite update: its sender, what it claims, the time of the step that produced it, and
  // the sender's collection time.
  datatype Sent = Sent(from: Node, key: SourceKey, dist: Distance, interval: u16, stamp: int, gc: int)

  // The distance a forwarded route rests on, and until when.
  datatype Claim = Claim(dist: Distance, until: int)

  datatype Router = Router(
    up: bool,
    engine: State,
    boot: int,                            // the time at which the engine's clock read zero
    life: nat,                            // how often the router has started
    fib: map<Prefix, Route>,              // the forwarding table in force
    claims: map<Prefix, Claim>,           // history: the claims its remote routes rest on
    released: map<SourceKey, Source>,     // history: the source table when packets were last released
    outbox: set<Sent>,                    // released by the engine, not persisted yet
    disk: Option<Checkpoint>)

  // ------------------------------------------------------------------- packets

  function Updates(n: Node, packets: seq<Datagram>, stamp: int, gc: int): set<Sent> {
    set i, m | 0 <= i < |packets| && m in packets[i].messages && FiniteUpdate(m) ::
      Sent(n, SourceKey(m.prefix, m.routerId), Claimed(m), m.interval, stamp, gc)
  }

  /** The sender's entry for s has not been collected yet. */
  predicate Owed(time: int, s: Sent) { time < s.stamp + s.gc }

  /** The sender answers for s up to this instant. */
  function Answers(s: Sent): int { s.stamp + s.gc - 1 }

  // ------------------------------------------------------------------- actions

  function Rehooked(st: State, hooks: Hooks): State { st.(cfg := st.cfg.(hooks := hooks)) }

  function ClaimsOf(st: State, boot: int): map<Prefix, Claim> {
    map p | p in st.selected && Remote(st.selected[p]) && RouteKey(p, st.selected[p].link) in st.routes ::
      var c := st.routes[RouteKey(p, st.selected[p].link)]; Claim(c.Dist(), boot + c.expires)
  }

  /** The engine hands out packets: its forwarding table is the one in force. */
  function Settle(x: Router, n: Node, y: State, packets: seq<Datagram>, stamp: int): Router {
    x.(engine := y, claims := ClaimsOf(y, x.boot), released := y.em.sources,
       outbox := x.outbox + Updates(n, packets, stamp, y.cfg.sourceGC))
  }

  /** A step; an unchanged table lets the packets go at once. */
  function Stepped(x: Router, n: Node, y: State, e: Effects, time: int): Router {
    if y.pending != 0 then x.(engine := y) else Settle(x, n, y, e.datagrams, time)
  }

  /** The table is applied, then the commit releases what the step withheld. */
  function Applied(x: Router, n: Node): Router {
    var y := Commit(x.engine, x.engine.pending, true).0;
    Settle(x.(fib := x.engine.selected), n, y, x.engine.held, x.boot + x.engine.now)
  }

  /** The table could not be applied. */
  function Failed(x: Router): Router { x.(engine := Commit(x.engine, x.engine.pending, false).0) }

  /** Forwarding stops and everything but the disk is lost. */
  function Halted(x: Router): Router { x.(up := false, fib := map[], claims := map[], outbox := {}) }

  /** The history is on disk, and the packets may go. */
  function Persisted(x: Router, c: Checkpoint): Router { x.(disk := Some(c), outbox := {}) }

  function Start(x: Router, st: State, time: int): Router {
    Router(true, st, time, x.life + 1, map[], map[], st.em.sources, {}, x.disk)
  }

  /** What a down router starts from: its disk, or nothing if it never persisted, hence never sent, anything. */
  function Startup(x: Router, c: Config): Result<State> {
    if x.disk.Some? then Restore(c, x.disk.value) else New(c)
  }

  datatype Deed =
    | Booting(c: Config)
    | Moving(event: Event, hooks: Hooks)
    | Settling
    | Failing
    | Halting
    | Persisting(saved: Checkpoint)
    | Waiting

  /** The deed takes router n from a to b. */
  ghost predicate Acts(n: Node, a: Router, b: Router, time: int, d: Deed) {
    match d
    case Booting(c) => !a.up && Startup(a, c).Ok? && b == Start(a, Startup(a, c).value, time)
    case Moving(event, hooks) =>
      a.up && Decoded(event)
      && var (st, r) := Step(Rehooked(a.engine, hooks), time - a.boot, event);
         r.Ok? && b == Stepped(a, n, st, r.value, time)
    case Settling => a.up && !a.engine.stopped && a.engine.pending != 0 && b == Applied(a, n)
    case Failing => a.up && !a.engine.stopped && a.engine.pending != 0 && b == Failed(a)
    case Halting => a.up && b == Halted(a)
    case Persisting(c) => a.up && IsCheckpoint(a.engine, c) && b == Persisted(a, c)
    case Waiting => b == a
  }

  // A router, the time, and all it has ever sent.
  datatype Site = Site(time: int, router: Router, sent: set<Sent>)

  /** Packets are sent when the history is persisted; time passes only while waiting. */
  ghost predicate Does(n: Node, x: Site, y: Site, d: Deed) {
    && Acts(n, x.router, y.router, x.time, d)
    && y.sent == (if d.Persisting? then x.sent + x.router.outbox else x.sent)
    && (if d.Waiting? then x.time <= y.time else y.time == x.time)
  }

  /** The router has not started yet. */
  predicate Dormant(a: Router) { !a.up && a.fib == map[] && a.disk == None }

  // ----------------------------------------------- the window of sequence numbers

  /** The sequence numbers for sk in a router's history and packets lie in the half of the circle at base. */
  ghost predicate HistoryWithin(base: u16, sk: SourceKey, a: Router) {
    && (a.up ==>
          && SourceWithin(base, sk, a.engine.em.sources) && CarriedWithin(base, sk, a.engine.held)
          && (forall s :: s in a.outbox && s.key == sk ==> InWindow(base, s.dist.seqno)))
    && (a.disk.Some? ==> forall h :: h in a.disk.value.sources && HistoryKey(h) == sk ==> InWindow(base, h.seqno))
  }

  /** So do those of the updates it still answers for. */
  ghost predicate SentWithin(base: u16, sk: SourceKey, time: int, sent: set<Sent>) {
    forall s :: s in sent && s.key == sk && Owed(time, s) ==> InWindow(base, s.dist.seqno)
  }

  ghost predicate SiteWithin(base: u16, sk: SourceKey, x: Site) {
    HistoryWithin(base, sk, x.router) && SentWithin(base, sk, x.time, x.sent)
  }

  /** Section 3.2.1 of RFC 8966: sequence numbers in use at the same time lie within half the circle. */
  ghost predicate SiteWindowed(sk: SourceKey, x: Site, y: Site) {
    exists base: u16 :: SiteWithin(base, sk, x) && SiteWithin(base, sk, y)
  }

  // ------------------------------------------------------------------------ runs

  datatype Life = Life(states: seq<Site>, deeds: seq<Deed>)

  /** A run of router n, whatever it receives, whenever it is stepped, and however often it crashes. */
  ghost predicate IsLife(n: Node, sk: SourceKey, r: Life) {
    && |r.states| == |r.deeds| + 1
    && Dormant(r.states[0].router) && r.states[0].sent == {}
    && forall i :: 0 <= i < |r.deeds| ==>
         Does(n, r.states[i], r.states[i + 1], r.deeds[i]) && SiteWindowed(sk, r.states[i], r.states[i + 1])
  }
}
