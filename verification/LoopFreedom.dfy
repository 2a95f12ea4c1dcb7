/**
 No next-hop cycles.  Each distance a router has claimed is backed: by its source table,
 by the table as it was when packets were last released, and by its disk, for longer
 than any neighbour can rely on the claim.  Along the next hops of one source these
 tables get strictly better, so the hops cannot run in a circle (sections 2.4, 2.7 and
 3.5.1 of RFC 8966).
 */
module LoopFreedom {
  import opened Arithmetic
  import opened Types
  import opened Rules
  import opened Steps
  import opened History
  import opened Soundness
  import opened Selection
  import opened Invariant
  import opened Release
  import opened Provenance
  import opened Sites
  import opened Crashes
  import opened Network
  import TwoPhase

  // ------------------------------------------------------------------ invariant

  ghost predicate Backed(net: Net, m: Node, sk: SourceKey, dist: Distance, until: int) {
    m in net.routers && Backs(net.routers[m], net.time, sk, dist, until)
  }

  /** A router with what it has sent. */
  function SiteOf(net: Net, n: Node): Site
    requires n in net.routers
  {
    Site(net.time, net.routers[n], set s | s in net.wire && s.from == n)
  }

  /** Whoever relies on s has noticed its expiry before the sender collects its entry. */
  predicate Ends(w: World, s: Sent) { 0 <= w.lateness && Latest(w, s) + w.lateness <= Answers(s) }

  /** The router has noticed the expiry of its candidate k by this instant. */
  function Noticed(w: World, a: Router, k: RouteKey): int
    requires k in a.engine.routes
  {
    a.boot + a.engine.routes[k].expires + w.lateness
  }

  /** A finite candidate rests on a claim its peer still backs. */
  ghost predicate CandidatesBacked(w: World, net: Net, n: Node, sk: SourceKey, a: Router) {
    forall k :: k in a.engine.routes && k.prefix == sk.prefix && a.engine.routes[k].id == sk.id
                && a.engine.routes[k].advertised != INFINITY ==>
      && Noticed(w, a, k) >= net.time
      && Backed(net, w.peer(n, a.life, k.link), sk, a.engine.routes[k].Dist(), Noticed(w, a, k))
  }

  /** The route in force for sk rests on a claim its next hop backs and that is feasible here. */
  ghost predicate ForwardingBacked(w: World, net: Net, n: Node, sk: SourceKey, a: Router) {
    sk.prefix in a.fib && Remote(a.fib[sk.prefix]) && a.fib[sk.prefix].routerId == sk.id ==>
      && sk.prefix in a.claims
      && var c := a.claims[sk.prefix];
         && c.until + w.lateness >= net.time
         && Backed(net, w.peer(n, a.life, a.fib[sk.prefix].link), sk, c.dist, c.until + w.lateness)
         && (sk in a.released ==> Better(c.dist, a.released[sk].Dist()))
  }

  /** What the router relies on is backed by others. */
  ghost predicate Relying(w: World, net: Net, n: Node, sk: SourceKey) {
    n in net.routers && (net.routers[n].up ==>
      CandidatesBacked(w, net, n, sk, net.routers[n]) && ForwardingBacked(w, net, n, sk, net.routers[n]))
  }

  /** The updates for sk have been sent by routers of the network, and end in time. */
  ghost predicate AllEnd(w: World, net: Net, sk: SourceKey, sent: set<Sent>) {
    forall s :: s in sent && s.key == sk ==> s.from in net.routers && Ends(w, s)
  }

  ghost predicate Safe(w: World, net: Net, sk: SourceKey) {
    && (forall n :: n in net.routers ==> Keeping(n, sk, SiteOf(net, n)) && Relying(w, net, n, sk))
    && (forall n :: n in net.routers ==> net.routers[n].up ==> AllEnd(w, net, sk, net.routers[n].outbox))
    && AllEnd(w, net, sk, net.wire)
  }

  /** The parts of safety that concern router n. */
  lemma SafeRouter(w: World, net: Net, n: Node, sk: SourceKey)
    requires Safe(w, net, sk) && n in net.routers
    ensures Keeping(n, sk, SiteOf(net, n)) && Healthy(net.time, net.routers[n]) && Relying(w, net, n, sk)
    ensures net.routers[n].up ==> AllEnd(w, net, sk, net.routers[n].outbox)
    ensures AllEnd(w, net, sk, net.wire)
  {
    hide Healthy, EngineBacked, SentBacked, Relying, AllEnd;
  }

  /** An update on the wire that its sender still answers for is backed. */
  lemma WireBacked(w: World, net: Net, sk: SourceKey, s: Sent)
    requires Safe(w, net, sk) && s in net.wire && s.key == sk
    ensures Ends(w, s) && (Owed(net.time, s) ==> Backed(net, s.from, sk, s.dist, Answers(s)))
  {
    hide Healthy, EngineBacked, Relying, Backs, Ends;
    assert s.from in net.routers;
    assert Keeping(s.from, sk, SiteOf(net, s.from));
    assert s in SiteOf(net, s.from).sent;
  }

  // --------------------------------------------------------------------- cycles

  /** Along a next hop the released history gets strictly better. */
  lemma HopImproves(base: u16, w: World, net: Net, sk: SourceKey, n: Node, m: Node)
    requires Safe(w, net, sk) && Within(base, sk, net) && Forwards(w, net, sk, n, m)
    requires m in net.routers && net.routers[m].up
    ensures sk in net.routers[m].released
    ensures sk in net.routers[n].released ==>
              Rank(base, net.routers[m].released[sk].Dist()) > Rank(base, net.routers[n].released[sk].Dist())
  {
    var a, b := net.routers[n], net.routers[m];
    SafeRouter(w, net, n, sk);
    assert RouterWithin(base, sk, a) && RouterWithin(base, sk, b);
    hide Valid, Safe, EngineBacked, CandidatesBacked, HistoryWithin, Rank, InWindow, SentBacked, AllEnd, SiteOf;
    var c := a.claims[sk.prefix];
    WindowOrder(base, b.released[sk].Dist(), c.dist);
    if sk in a.released {
      WindowOrder(base, c.dist, a.released[sk].Dist());
    }
  }

  lemma CycleMember(w: World, net: Net, sk: SourceKey, path: seq<Node>, i: nat)
    requires Safe(w, net, sk) && Cycle(w, net, sk, path) && i < |path|
    ensures path[i] in net.routers && net.routers[path[i]].up
    ensures Forwards(w, net, sk, path[i], path[if i + 1 < |path| then i + 1 else 0])
  {
    hide Safe, Valid, Relying, Keeping, AllEnd;
    if i + 1 < |path| {
      assert Forwards(w, net, sk, path[i], path[i + 1]);
    }
    SafeRouter(w, net, path[i], sk);
  }

  lemma {:induction false} CycleClimbs(base: u16, w: World, net: Net, sk: SourceKey, path: seq<Node>, i: nat)
    requires Safe(w, net, sk) && Within(base, sk, net) && Cycle(w, net, sk, path) && 0 < i < |path|
    requires path[0] in net.routers && sk in net.routers[path[0]].released
    ensures path[i] in net.routers && sk in net.routers[path[i]].released
    ensures Rank(base, net.routers[path[i]].released[sk].Dist()) > Rank(base, net.routers[path[0]].released[sk].Dist())
  {
    hide Safe, Within, Forwards, Rank;
    CycleMember(w, net, sk, path, i - 1);
    CycleMember(w, net, sk, path, i);
    HopImproves(base, w, net, sk, path[i - 1], path[i]);
    if i > 1 {
      CycleClimbs(base, w, net, sk, path, i - 1);
    }
  }

  /** In a safe network no route for sk leads around in a circle. */
  lemma {:induction false} NoCycle(base: u16, w: World, net: Net, sk: SourceKey, path: seq<Node>)
    requires Safe(w, net, sk) && Within(base, sk, net)
    ensures !Cycle(w, net, sk, path)
  {
    if Cycle(w, net, sk, path) {
      hide Safe, Within, Forwards, Rank, Cycle;
      assert path != [] by { Circular(w, net, sk, path); }
      var last := |path| - 1;
      CycleMember(w, net, sk, path, 0);
      CycleMember(w, net, sk, path, last);
      HopImproves(base, w, net, sk, path[last], path[0]);
      if last > 0 {
        CycleClimbs(base, w, net, sk, path, last);
      }
    }
  }

  lemma Circular(w: World, net: Net, sk: SourceKey, path: seq<Node>)
    requires Cycle(w, net, sk, path)
    ensures path != []
  {
    hide Forwards;
  }

  // ---------------------------------------------------- one router changes state

  lemma BackedStill(base: u16, x: Net, y: Net, n: Node, b: Router, m: Node, sk: SourceKey, dist: Distance, until: int)
    requires Local(x, y, n, b) && Improved(base, x.routers[n], b, x.time, sk)
    requires Backed(x, m, sk, dist, until) && InWindow(base, dist.seqno) && until >= x.time
    ensures Backed(y, m, sk, dist, until)
  {
    hide Backs, InWindow;
  }

  lemma CandidatesStill(base: u16, w: World, x: Net, y: Net, n: Node, b: Router, m: Node, sk: SourceKey, a: Router)
    requires Local(x, y, n, b) && Improved(base, x.routers[n], b, x.time, sk)
    requires CandidatesBacked(w, x, m, sk, a) && RouterWithin(base, sk, a) && a.up
    ensures CandidatesBacked(w, y, m, sk, a)
  {
    hide Backed, Improved, InWindow, HistoryWithin, SourceWithin;
    forall k | k in a.engine.routes && k.prefix == sk.prefix && a.engine.routes[k].id == sk.id
                 && a.engine.routes[k].advertised != INFINITY
      ensures Backed(y, w.peer(m, a.life, k.link), sk, a.engine.routes[k].Dist(), Noticed(w, a, k))
    {
      BackedStill(base, x, y, n, b, w.peer(m, a.life, k.link), sk, a.engine.routes[k].Dist(), Noticed(w, a, k));
    }
  }

  lemma ForwardingStill(base: u16, w: World, x: Net, y: Net, n: Node, b: Router, m: Node, sk: SourceKey, a: Router)
    requires Local(x, y, n, b) && Improved(base, x.routers[n], b, x.time, sk)
    requires ForwardingBacked(w, x, m, sk, a) && RouterWithin(base, sk, a) && a.up
    ensures ForwardingBacked(w, y, m, sk, a)
  {
    hide Backed, Improved, InWindow, HistoryWithin, SourceWithin, Better;
    if sk.prefix in a.fib && Remote(a.fib[sk.prefix]) && a.fib[sk.prefix].routerId == sk.id {
      var c := a.claims[sk.prefix];
      BackedStill(base, x, y, n, b, w.peer(m, a.life, a.fib[sk.prefix].link), sk, c.dist, c.until + w.lateness);
    }
  }

  /** What router m relies on is still backed when router n keeps its word. */
  lemma RelyingStill(base: u16, w: World, x: Net, y: Net, n: Node, m: Node, sk: SourceKey)
    requires n in y.routers && Local(x, y, n, y.routers[n]) && m in x.routers && m != n
    requires Improved(base, x.routers[n], y.routers[n], x.time, sk)
    requires Relying(w, x, m, sk) && RouterWithin(base, sk, x.routers[m])
    ensures Relying(w, y, m, sk)
  {
    hide Improved, RouterWithin, CandidatesBacked, ForwardingBacked;
    var a := x.routers[m];
    if a.up {
      CandidatesStill(base, w, x, y, n, y.routers[n], m, sk, a);
      ForwardingStill(base, w, x, y, n, y.routers[n], m, sk, a);
    }
  }

  /** Another router's word is not touched. */
  lemma KeepingStill(w: World, x: Net, y: Net, n: Node, m: Node, d: Deed, sk: SourceKey)
    requires Behaves(w, x, y, n, d) && m in x.routers && m != n && Keeping(m, sk, SiteOf(x, m))
    requires EngineBacked(n, x.time, sk, x.routers[n]) && (d.Persisting? ==> x.routers[n].up)
    ensures Keeping(m, sk, SiteOf(y, m))
  {
    hide Acts, Genuine, Healthy, HeldBacked, Backs, Stored;
    assert y.routers[m] == x.routers[m] && y.time == x.time;
    assert forall s :: s in y.wire && s.from == m && s.key == sk ==> s in x.wire;
  }

  lemma OwnSent(x: Net, y: Net, n: Node, d: Deed)
    requires n in x.routers && n in y.routers
    requires y.wire == (if d.Persisting? then x.wire + x.routers[n].outbox else x.wire)
    ensures var s, t := SiteOf(x, n), SiteOf(y, n);
            t.sent <= (if d.Persisting? then s.sent + s.router.outbox else s.sent)
  {
  }

  lemma SiteWithinNet(base: u16, net: Net, n: Node, sk: SourceKey)
    requires Within(base, sk, net) && n in net.routers
    ensures RouterWithin(base, sk, net.routers[n]) && SiteWithin(base, sk, SiteOf(net, n))
  {
    hide InWindow, HistoryWithin;
    assert RouterWithin(base, sk, net.routers[n]);
  }

  lemma PersistsUp(n: Node, a: Router, b: Router, time: int, d: Deed)
    requires Acts(n, a, b, time, d) && d.Persisting?
    ensures a.up
  {
  }

  /** A router that keeps its word keeps the network safe, if what it relies on itself is backed. */
  lemma BehavesSafe(base: u16, w: World, x: Net, y: Net, n: Node, d: Deed, sk: SourceKey)
    requires Safe(w, x, sk) && Within(base, sk, x) && Behaves(w, x, y, n, d)
    requires Keeping(n, sk, SiteOf(y, n)) && Improved(base, x.routers[n], y.routers[n], x.time, sk)
    requires Relying(w, y, n, sk) && (y.routers[n].up ==> AllEnd(w, y, sk, y.routers[n].outbox))
    ensures Safe(w, y, sk)
  {
    hide Keeping, Improved, Within, Relying, Safe, AllEnd, Genuine, SiteOf, RouterWithin, Acts, Healthy;
    SafeRouter(w, x, n, sk);
    assert EngineBacked(n, x.time, sk, x.routers[n]) by { KeepingEngine(n, sk, x); }
    if d.Persisting? {
      PersistsUp(n, x.routers[n], y.routers[n], x.time, d);
    }
    forall m | m in y.routers && m != n
      ensures Keeping(m, sk, SiteOf(y, m)) && Relying(w, y, m, sk)
      ensures y.routers[m].up ==> AllEnd(w, y, sk, y.routers[m].outbox)
    {
      SafeRouter(w, x, m, sk);
      KeepingStill(w, x, y, n, m, d, sk);
      SiteWithinNet(base, x, m, sk);
      RelyingStill(base, w, x, y, n, m, sk);
      if y.routers[m].up {
        EndStill(w, x, y, sk, x.routers[m].outbox);
      }
    }
    WireEnds(w, x, y, n, d, sk);
    SafeWhole(w, y, sk);
  }

  lemma KeepingEngine(n: Node, sk: SourceKey, net: Net)
    requires n in net.routers && Keeping(n, sk, SiteOf(net, n))
    ensures EngineBacked(n, net.time, sk, net.routers[n])
  {
    hide Healthy, EngineBacked, SentBacked;
  }

  lemma EndStill(w: World, x: Net, y: Net, sk: SourceKey, sent: set<Sent>)
    requires AllEnd(w, x, sk, sent) && x.routers.Keys <= y.routers.Keys
    ensures AllEnd(w, y, sk, sent)
  {
    hide Ends;
  }

  lemma WireEnds(w: World, x: Net, y: Net, n: Node, d: Deed, sk: SourceKey)
    requires Behaves(w, x, y, n, d) && AllEnd(w, x, sk, x.wire) && (d.Persisting? ==> x.routers[n].up)
    requires x.routers[n].up ==> AllEnd(w, x, sk, x.routers[n].outbox)
    ensures AllEnd(w, y, sk, y.wire)
  {
    hide Acts, Genuine, Ends;
  }

  lemma SafeWhole(w: World, net: Net, sk: SourceKey)
    requires forall n :: n in net.routers ==> Keeping(n, sk, SiteOf(net, n)) && Relying(w, net, n, sk)
    requires forall n :: n in net.routers ==> net.routers[n].up ==> AllEnd(w, net, sk, net.routers[n].outbox)
    requires AllEnd(w, net, sk, net.wire)
    ensures Safe(w, net, sk)
  {
    hide Keeping, Relying, AllEnd, SiteOf;
  }

  // ---------------------------------------------------------------- updates released

  /** The update interval fits the wire's field exactly. */
  lemma PeriodExact(cfg: LiveConfig)
    ensures WireTime(Period(cfg)) == cfg.updateInterval
  {
  }

  lemma UpdateEnds(w: World, cfg: LiveConfig, s: Sent)
    requires Patient(w, cfg) && s.interval == Period(cfg) && s.gc == cfg.sourceGC
    ensures Ends(w, s)
  {
    hide BoundedConfig, Period;
    PeriodExact(cfg);
  }

  /** Packets that are backed are announced with the sender's own interval, and so end in time. */
  lemma PacketsEnd(w: World, net: Net, n: Node, sk: SourceKey, packets: seq<Datagram>,
      sources: map<SourceKey, Source>, cfg: LiveConfig, boot: int, at: int)
    requires n in net.routers && Patient(w, cfg)
    requires Backing(sk, at + cfg.sourceGC, Period(cfg), packets, sources)
    ensures AllEnd(w, net, sk, Updates(n, packets, boot + at, cfg.sourceGC))
  {
    hide Backing, Patient, Period, Stored, Ends, Updates;
    forall s | s in Updates(n, packets, boot + at, cfg.sourceGC) && s.key == sk ensures s.from == n && Ends(w, s) {
      UpdateBacked(n, sk, packets, sources, cfg, boot, at, s);
      UpdateStamp(n, packets, boot + at, cfg.sourceGC, s);
      UpdateEnds(w, cfg, s);
    }
  }

  lemma UpdateStamp(n: Node, packets: seq<Datagram>, stamp: int, gc: int, s: Sent)
    requires s in Updates(n, packets, stamp, gc)
    ensures s.gc == gc
  {
  }

  /** A table that agrees with its engine is backed because each selected route is self-feasible. */
  lemma SettledForwarding(w: World, net: Net, n: Node, sk: SourceKey, a: Router)
    requires CandidatesBacked(w, net, n, sk, a)
    requires SelfFeasible(a.engine.selected, a.engine.routes, a.engine.em.sources)
    requires a.fib == a.engine.selected && a.claims == ClaimsOf(a.engine, a.boot) && a.released == a.engine.em.sources
    ensures ForwardingBacked(w, net, n, sk, a)
  {
    hide Backed, Better;
    if sk.prefix in a.fib && Remote(a.fib[sk.prefix]) && a.fib[sk.prefix].routerId == sk.id {
      var k := RouteKey(sk.prefix, a.fib[sk.prefix].link);
      assert Stands(sk.prefix, a.fib[sk.prefix], a.engine.routes);
      assert a.engine.routes[k].advertised != INFINITY;
    }
  }

  lemma ValidFeasible(st: State)
    requires Valid(st)
    ensures SelfFeasible(st.selected, st.routes, st.em.sources)
  {
    hide Sound, SelfFeasible, Anchored;
  }

  // ------------------------------------------------------------ deeds but for steps

  /** Starting, halting, failing and persisting change nothing that is relied on. */
  lemma QuietDeed(base: u16, w: World, x: Net, y: Net, n: Node, d: Deed, sk: SourceKey)
    requires Safe(w, x, sk) && Within(base, sk, x) && Behaves(w, x, y, n, d)
    requires d.Booting? || d.Failing? || d.Halting? || d.Persisting?
    requires Improved(base, x.routers[n], y.routers[n], x.time, sk)
    ensures Relying(w, y, n, sk) && (y.routers[n].up ==> AllEnd(w, y, sk, y.routers[n].outbox))
  {
    hide Improved, Keeping, Safe, Within, RouterWithin, CandidatesBacked, ForwardingBacked, AllEnd, Genuine, Startup;
    hide IsCheckpoint, Healthy;
    var a, b := x.routers[n], y.routers[n];
    SafeRouter(w, x, n, sk);
    SiteWithinNet(base, x, n, sk);
    match d
    case Booting(c) =>
      StartupTables(a, c, Startup(a, c).value);
      StartedRelies(w, y, n, sk);
    case Halting =>
    case _ =>
      CandidatesStill(base, w, x, y, n, b, n, sk, a);
      ForwardingStill(base, w, x, y, n, b, n, sk, a);
      SameRelies(w, y, n, sk, a);
      EndStill(w, x, y, sk, a.outbox);
      FewerEnd(w, y, sk, a.outbox, b.outbox);
  }

  lemma StartedRelies(w: World, y: Net, n: Node, sk: SourceKey)
    requires n in y.routers && y.routers[n].fib == map[] && y.routers[n].engine.routes == map[]
    requires y.routers[n].outbox == {}
    ensures Relying(w, y, n, sk) && AllEnd(w, y, sk, y.routers[n].outbox)
  {
    hide Backed;
  }

  lemma SameRelies(w: World, y: Net, n: Node, sk: SourceKey, a: Router)
    requires n in y.routers && CandidatesBacked(w, y, n, sk, a) && ForwardingBacked(w, y, n, sk, a)
    requires var b := y.routers[n];
             && b.engine.routes == a.engine.routes && b.boot == a.boot && b.life == a.life && b.fib == a.fib
             && b.claims == a.claims && b.released == a.released
    ensures Relying(w, y, n, sk)
  {
    hide Backed, Better;
  }

  lemma FewerEnd(w: World, net: Net, sk: SourceKey, x: set<Sent>, y: set<Sent>)
    requires AllEnd(w, net, sk, x) && y <= x
    ensures AllEnd(w, net, sk, y)
  {
    hide Ends;
  }

  lemma AppliedRelies(base: u16, w: World, x: Net, y: Net, n: Node, sk: SourceKey)
    requires Safe(w, x, sk) && Within(base, sk, x) && Behaves(w, x, y, n, Settling) && AllPatient(w, x)
    requires Improved(base, x.routers[n], y.routers[n], x.time, sk)
    ensures Relying(w, y, n, sk) && AllEnd(w, y, sk, y.routers[n].outbox)
  {
    var a := x.routers[n];
    hide Improved, Keeping, Safe, Within, RouterWithin, CandidatesBacked, ForwardingBacked, AllEnd, Genuine, Valid;
    hide Updates, ClaimsOf, Commit, HeldBacked, OutboxBacked, Patient;
    SafeRouter(w, x, n, sk);
    SiteWithinNet(base, x, n, sk);
    KeepingEngine(n, sk, x);
    CommittedEngine(a.engine);
    CandidatesStill(base, w, x, y, n, y.routers[n], n, sk, a);
    SettledRelies(w, y, n, sk, a);
    assert Patient(w, a.engine.cfg);
    HeldEnd(w, x, y, n, sk, a);
  }

  lemma SettledRelies(w: World, y: Net, n: Node, sk: SourceKey, a: Router)
    requires n in y.routers && y.routers[n] == Applied(a, n) && CandidatesBacked(w, y, n, sk, a) && Valid(a.engine)
    requires !a.engine.stopped && a.engine.pending != 0
    ensures Relying(w, y, n, sk)
  {
    hide Backed, Updates, ClaimsOf, Commit, Valid, SelfFeasible;
    CommittedEngine(a.engine);
    ValidFeasible(a.engine);
    SettledForwarding(w, y, n, sk, Applied(a, n));
  }

  lemma HeldEnd(w: World, x: Net, y: Net, n: Node, sk: SourceKey, a: Router)
    requires n in y.routers && x.routers.Keys <= y.routers.Keys && HeldBacked(sk, a) && Patient(w, a.engine.cfg)
    requires AllEnd(w, x, sk, a.outbox) && !a.engine.stopped && a.engine.pending != 0
    ensures AllEnd(w, y, sk, Applied(a, n).outbox)
  {
    hide Backing, Patient, Updates, ClaimsOf, Commit, Ends;
    CommittedEngine(a.engine);
    PacketsEnd(w, y, n, sk, a.engine.held, a.engine.em.sources, a.engine.cfg, a.boot, a.engine.now);
  }

  // ------------------------------------------------- candidates and routes after a turn

  lemma BacksUntil(net: Net, m: Node, sk: SourceKey, dist: Distance, until: int, sooner: int)
    requires Backed(net, m, sk, dist, until) && sooner <= until
    ensures Backed(net, m, sk, dist, sooner)
  {
    hide OnDisk, AsGood;
  }

  /** A candidate learned in this turn rests on the claim of its sender. */
  lemma LearnedBacked(base: u16, w: World, x: Net, y: Net, n: Node, t: Turn, b: Router, sk: SourceKey,
      k: RouteKey, c: Candidate, m: Message)
    requires n in x.routers && t.a == x.routers[n] && t.time == x.time && Local(x, y, n, b)
    requires Improved(base, t.a, b, x.time, sk) && Safe(w, x, sk) && Within(base, sk, x)
    requires Genuine(w, x, n, t.event)
    requires m in Messages(t.event) && Provenance.Learned(Clock(t), k, c, m) && k.link == Arrival(t.event)
    requires k.prefix == sk.prefix && c.id == sk.id
    ensures t.a.boot + c.expires + w.lateness >= x.time
    ensures Backed(y, w.peer(n, t.a.life, k.link), sk, c.Dist(), t.a.boot + c.expires + w.lateness)
  {
    hide Improved, InWindow, RouterWithin, Backed, Messages, Arrival, Local, Safe;
    var s :| s in x.wire && Deliverable(w, x.time, s) && s.from == w.peer(n, t.a.life, Arrival(t.event))
             && s.key == SourceKey(m.prefix, m.routerId) && s.dist == Claimed(m) && s.interval == m.interval;
    WireBacked(w, x, sk, s);
    assert Owed(x.time, s);
    BackedStill(base, x, y, n, b, s.from, sk, s.dist, Answers(s));
    BacksUntil(y, s.from, sk, s.dist, Answers(s), t.a.boot + c.expires + w.lateness);
  }

  lemma KeptBacked(base: u16, w: World, x: Net, y: Net, n: Node, t: Turn, b: Router, sk: SourceKey,
      k: RouteKey, c: Candidate)
    requires n in x.routers && t.a == x.routers[n] && t.time == x.time && Local(x, y, n, b)
    requires Improved(base, t.a, b, x.time, sk) && CandidatesBacked(w, x, n, sk, t.a)
    requires RouterWithin(base, sk, t.a) && t.a.up
    requires Provenance.Kept(t.a.engine.routes, k, c) && c.advertised != INFINITY
    requires k.prefix == sk.prefix && c.id == sk.id
    ensures t.a.boot + c.expires + w.lateness >= x.time
    ensures Backed(y, w.peer(n, t.a.life, k.link), sk, c.Dist(), t.a.boot + c.expires + w.lateness)
  {
    hide Improved, InWindow, Backed, Local, HistoryWithin, SourceWithin;
    BackedStill(base, x, y, n, b, w.peer(n, t.a.life, k.link), sk, c.Dist(), t.a.boot + c.expires + w.lateness);
  }

  lemma TurnSupported(t: Turn, k: RouteKey)
    requires IsTurn(t) && k in t.st.routes && t.st.routes[k].advertised != INFINITY
    ensures Supported(t.a.engine.routes, Clock(t), t.event, k, t.st.routes[k])
  {
    var st := Rehooked(t.a.engine, t.hooks);
    hide Healthy, Refusal, Decoded, Step, Work, Supported;
    TwoPhase.Answered(st, Clock(t), t.event, t.st, Ok(t.effects));
    StepProduces(st, Clock(t), t.event, t.st, Ok(t.effects));
    WorkSupported(st, Clock(t), t.event, Work(st, Clock(t), t.event));
  }

  lemma TurnCandidates(base: u16, w: World, x: Net, y: Net, n: Node, t: Turn, b: Router, sk: SourceKey)
    requires n in x.routers && t.a == x.routers[n] && t.time == x.time && IsTurn(t) && Genuine(w, x, n, t.event)
    requires Local(x, y, n, b) && Improved(base, t.a, b, x.time, sk)
    requires b.engine == t.st && b.boot == t.a.boot && b.life == t.a.life
    requires CandidatesBacked(w, x, n, sk, t.a) && RouterWithin(base, sk, t.a) && t.a.up && Safe(w, x, sk)
    requires Within(base, sk, x)
    ensures CandidatesBacked(w, y, n, sk, b)
  {
    hide Improved, InWindow, Backed, Within, RouterWithin, IsTurn, Genuine, Safe, CandidatesBacked;
    hide Clock, Kept, Provenance.Learned, Messages, Arrival;
    forall k | k in t.st.routes && k.prefix == sk.prefix && t.st.routes[k].id == sk.id
        && t.st.routes[k].advertised != INFINITY
      ensures Noticed(w, b, k) >= y.time
      ensures Backed(y, w.peer(n, b.life, k.link), sk, t.st.routes[k].Dist(), Noticed(w, b, k))
    {
      var c := t.st.routes[k];
      TurnSupported(t, k);
      if Kept(t.a.engine.routes, k, c) {
        KeptBacked(base, w, x, y, n, t, b, sk, k, c);
      } else {
        var m :| m in Messages(t.event) && Provenance.Learned(Clock(t), k, c, m);
        LearnedBacked(base, w, x, y, n, t, b, sk, k, c, m);
      }
    }
    BackedCandidates(w, y, n, sk, b);
  }

  lemma BackedCandidates(w: World, y: Net, n: Node, sk: SourceKey, b: Router)
    requires forall k :: k in b.engine.routes && k.prefix == sk.prefix && b.engine.routes[k].id == sk.id
                         && b.engine.routes[k].advertised != INFINITY ==>
               && Noticed(w, b, k) >= y.time
               && Backed(y, w.peer(n, b.life, k.link), sk, b.engine.routes[k].Dist(), Noticed(w, b, k))
    ensures CandidatesBacked(w, y, n, sk, b)
  {
    hide Backed;
  }

  lemma TurnForwarding(base: u16, w: World, x: Net, y: Net, n: Node, t: Turn, b: Router, sk: SourceKey)
    requires n in x.routers && t.a == x.routers[n] && t.time == x.time && IsTurn(t)
    requires b == Stepped(t.a, n, t.st, t.effects, t.time)
    requires Local(x, y, n, b) && Improved(base, t.a, b, x.time, sk)
    requires ForwardingBacked(w, x, n, sk, t.a) && RouterWithin(base, sk, t.a) && t.a.up
    requires CandidatesBacked(w, y, n, sk, b)
    ensures ForwardingBacked(w, y, n, sk, b)
  {
    hide Improved, Backed, RouterWithin, IsTurn, Updates, ClaimsOf, CandidatesBacked, Valid, SelfFeasible;
    hide Local, Better, Produced;
    TurnFacts(t);
    if t.st.pending != 0 {
      ForwardingStill(base, w, x, y, n, b, n, sk, t.a);
    } else {
      ValidFeasible(t.st);
      SettledForwarding(w, y, n, sk, b);
    }
  }

  lemma TurnEnds(base: u16, w: World, x: Net, y: Net, n: Node, t: Turn, b: Router, sk: SourceKey)
    requires IsTurn(t) && b == Stepped(t.a, n, t.st, t.effects, t.time) && Patient(w, t.a.engine.cfg)
    requires HistoryWithin(base, sk, t.a) && HistoryWithin(base, sk, b)
    requires n in y.routers && x.routers.Keys <= y.routers.Keys && AllEnd(w, x, sk, t.a.outbox)
    ensures AllEnd(w, y, sk, b.outbox)
  {
    hide IsTurn, Updates, ClaimsOf, Patient, HistoryWithin, Valid, Produced, Backing, Ends, CarriedWithin;
    TurnFacts(t);
    TurnUp(n, t);
    HistoryParts(base, sk, t.a);
    ProducedWithin(base, n, t, sk);
    TurnCarries(base, t, sk);
    Backer(base, t, sk);
    if t.st.pending == 0 {
      PacketsEnd(w, y, n, sk, t.effects.datagrams, t.st.em.sources, t.a.engine.cfg, t.a.boot, Clock(t));
    }
  }

  lemma TurnRelies(base: u16, w: World, x: Net, y: Net, n: Node, t: Turn, sk: SourceKey)
    requires n in x.routers && t.a == x.routers[n] && t.time == x.time && IsTurn(t) && Genuine(w, x, n, t.event)
    requires n in y.routers && Local(x, y, n, y.routers[n])
    requires y.routers[n] == Stepped(t.a, n, t.st, t.effects, t.time)
    requires Improved(base, t.a, y.routers[n], x.time, sk)
    requires Safe(w, x, sk) && Within(base, sk, x) && Within(base, sk, y) && AllPatient(w, x)
    ensures Relying(w, y, n, sk) && AllEnd(w, y, sk, y.routers[n].outbox)
  {
    hide Improved, Within, IsTurn, Genuine, Keeping, Safe, CandidatesBacked, ForwardingBacked, Healthy;
    hide HistoryWithin, AllEnd, Patient, Updates, ClaimsOf;
    var b := y.routers[n];
    TurnUp(n, t);
    SafeRouter(w, x, n, sk);
    SiteWithinNet(base, x, n, sk);
    SiteWithinNet(base, y, n, sk);
    TurnCandidates(base, w, x, y, n, t, b, sk);
    TurnForwarding(base, w, x, y, n, t, b, sk);
    assert Patient(w, t.a.engine.cfg);
    TurnEnds(base, w, x, y, n, t, b, sk);
  }

  lemma MoveRelies(base: u16, w: World, x: Net, y: Net, n: Node, event: Event, hooks: Hooks, sk: SourceKey)
    requires Safe(w, x, sk) && Within(base, sk, x) && Within(base, sk, y) && AllPatient(w, x)
    requires Behaves(w, x, y, n, Moving(event, hooks)) && Improved(base, x.routers[n], y.routers[n], x.time, sk)
    ensures Relying(w, y, n, sk) && AllEnd(w, y, sk, y.routers[n].outbox)
  {
    hide Safe, Within, Step, Genuine, Decoded, Stepped, Healthy, Keeping, Improved, Relying, AllEnd, AllPatient;
    var a := x.routers[n];
    SafeRouter(w, x, n, sk);
    var (st, r) := Step(Rehooked(a.engine, hooks), x.time - a.boot, event);
    TurnRelies(base, w, x, y, n, Turn(a, hooks, event, x.time, st, r.value), sk);
  }

  // ----------------------------------------------------------------------- time

  lemma BackedLater(x: Net, y: Net, m: Node, sk: SourceKey, dist: Distance, until: int)
    requires y.routers == x.routers && x.time <= y.time && Backed(x, m, sk, dist, until)
    ensures Backed(y, m, sk, dist, until)
  {
    hide Stored, OnDisk;
  }

  lemma RelyingLater(w: World, x: Net, y: Net, n: Node, sk: SourceKey)
    requires y.routers == x.routers && x.time <= y.time && Relying(w, x, n, sk) && OnTime(w, x.routers[n], y.time)
    ensures Relying(w, y, n, sk)
  {
    hide Backed, Better;
    var a := x.routers[n];
    if a.up {
      forall k | k in a.engine.routes && k.prefix == sk.prefix && a.engine.routes[k].id == sk.id
          && a.engine.routes[k].advertised != INFINITY
        ensures Backed(y, w.peer(n, a.life, k.link), sk, a.engine.routes[k].Dist(), Noticed(w, a, k))
      {
        BackedLater(x, y, w.peer(n, a.life, k.link), sk, a.engine.routes[k].Dist(), Noticed(w, a, k));
      }
      if sk.prefix in a.fib && Remote(a.fib[sk.prefix]) && a.fib[sk.prefix].routerId == sk.id {
        var c := a.claims[sk.prefix];
        BackedLater(x, y, w.peer(n, a.life, a.fib[sk.prefix].link), sk, c.dist, c.until + w.lateness);
      }
    }
  }

  lemma ElapseSafe(w: World, x: Net, y: Net, sk: SourceKey)
    requires Safe(w, x, sk) && Elapses(w, x, y)
    ensures Safe(w, y, sk)
  {
    hide Safe, Keeping, Relying, OnTime, AllEnd;
    forall n | n in y.routers
      ensures Keeping(n, sk, SiteOf(y, n)) && Relying(w, y, n, sk)
      ensures y.routers[n].up ==> AllEnd(w, y, sk, y.routers[n].outbox)
    {
      SafeRouter(w, x, n, sk);
      WaitKeeps(n, sk, SiteOf(x, n), SiteOf(y, n));
      RelyingLater(w, x, y, n, sk);
      if y.routers[n].up {
        EndStill(w, x, y, sk, x.routers[n].outbox);
      }
    }
    LaterWire(w, x, y, sk);
    SafeWhole(w, y, sk);
  }

  lemma LaterWire(w: World, x: Net, y: Net, sk: SourceKey)
    requires Safe(w, x, sk) && y.routers == x.routers && y.wire == x.wire
    ensures AllEnd(w, y, sk, y.wire)
  {
    hide Keeping, Relying, Ends;
  }

  // --------------------------------------------------------------------- on time

  /** Sleeping until NextDeadline, and waking up no later than the world allows, is enough to be on time. */
  lemma {:induction false} DeadlineIsOnTime(w: World, a: Router, deadline: Option<int>, t: int)
    requires a.engine.pending == 0 && !a.engine.stopped && RoutesLive(a.engine.now, a.engine.routes)
    requires a.claims == ClaimsOf(a.engine, a.boot)
    requires IsNextDeadline(a.engine, deadline) && !TriggerDue(a.engine)
    requires deadline.Some? ==> t <= a.boot + deadline.value + w.lateness
    ensures OnTime(w, a, t)
  {
    hide LinkTimes, PendingTimes, TriggerDue;
    forall k | k in a.engine.routes ensures t <= Noticed(w, a, k) {
      assert a.engine.routes[k].expires in CandidateTimes(a.engine.routes[k]);
      assert Timer(a.engine, a.engine.routes[k].expires);
    }
  }

  // ----------------------------------------------------------------------- runs

  /** Whatever a router does keeps the network safe. */
  lemma DeedSafe(base: u16, w: World, x: Net, y: Net, n: Node, d: Deed, sk: SourceKey)
    requires Safe(w, x, sk) && Within(base, sk, x) && Within(base, sk, y) && AllPatient(w, x)
    requires Behaves(w, x, y, n, d)
    ensures Safe(w, y, sk)
  {
    hide Safe, Within, Keeping, Improved, Relying, AllEnd, AllPatient, Acts, Genuine, SiteOf, HistoryWithin;
    SafeRouter(w, x, n, sk);
    SiteWithinNet(base, x, n, sk);
    SiteWithinNet(base, y, n, sk);
    OwnSent(x, y, n, d);
    SiteFields(x, n);
    SiteFields(y, n);
    ActKeeps(base, n, sk, SiteOf(x, n), SiteOf(y, n), d);
    if d.Moving? {
      MoveRelies(base, w, x, y, n, d.event, d.hooks, sk);
    } else if d.Settling? {
      AppliedRelies(base, w, x, y, n, sk);
    } else {
      QuietDeed(base, w, x, y, n, d, sk);
    }
    BehavesSafe(base, w, x, y, n, d, sk);
  }

  lemma SiteFields(net: Net, n: Node)
    requires n in net.routers
    ensures SiteOf(net, n).router == net.routers[n] && SiteOf(net, n).time == net.time
  {
  }

  /** Every action of the network keeps it safe. */
  lemma NextSafe(w: World, x: Net, y: Net, a: Action, sk: SourceKey)
    requires Safe(w, x, sk) && Next(w, x, y, a) && Windowed(sk, x, y) && AllPatient(w, x)
    ensures Safe(w, y, sk)
  {
    hide Safe, Within, Behaves, Elapses, AllPatient;
    var base: u16 :| Within(base, sk, x) && Within(base, sk, y);
    match a
    case Act(n, d) => DeedSafe(base, w, x, y, n, d, sk);
    case Elapse => ElapseSafe(w, x, y, sk);
  }

  lemma InitialSafe(w: World, net: Net, sk: SourceKey)
    requires Initial(net)
    ensures Safe(w, net, sk)
  {
    hide Valid, OutboxBacked, HeldBacked;
  }

  lemma {:induction false} RunSafe(w: World, sk: SourceKey, r: Run, i: nat)
    requires IsRun(w, r) && PatientRun(w, r) && WindowedRun(sk, r) && i < |r.states|
    ensures Safe(w, r.states[i], sk)
  {
    hide Safe, Initial, Next, Windowed, AllPatient;
    if i == 0 {
      InitialSafe(w, r.states[0], sk);
    } else {
      RunSafe(w, sk, r, i - 1);
      assert r.actions[i - 1] in r.actions;
      NextSafe(w, r.states[i - 1], r.states[i], r.actions[i - 1], sk);
    }
  }

  /**
   Loop-freedom.  However updates are lost, duplicated, reordered or delayed, whatever
   routers crash and restart from disk, and while sources expire, no state of a run has a
   cycle of next hops for one source, as long as routers notice expiries no later than the
   world allows, updates are delivered and forgotten before their sources can be collected,
   and the sequence numbers in use for the source at any time lie within half the circle.
   */
  lemma {:induction false} LoopFree(w: World, sk: SourceKey, r: Run, i: nat, path: seq<Node>)
    requires IsRun(w, r) && PatientRun(w, r) && WindowedRun(sk, r) && i < |r.states|
    ensures !Cycle(w, r.states[i], sk, path)
  {
    hide Safe, Next, Within, Cycle, AllPatient;
    if i == 0 {
      NoForwarding(w, r.states[0], sk, path);
    } else {
      RunSafe(w, sk, r, i);
      assert r.actions[i - 1] in r.actions;
      assert Windowed(sk, r.states[i - 1], r.states[i - 1 + 1]);
      var base: u16 :| Within(base, sk, r.states[i - 1]) && Within(base, sk, r.states[i]);
      NoCycle(base, w, r.states[i], sk, path);
    }
  }

  lemma NoForwarding(w: World, net: Net, sk: SourceKey, path: seq<Node>)
    requires Initial(net)
    ensures !Cycle(w, net, sk, path)
  {
  }
}
