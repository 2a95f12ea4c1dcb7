/** A network of routers over links that may lose, duplicate, reorder and delay updates. */
module Network {
  import opened Arithmetic
  import opened Types
  import opened Steps
  import opened History
  import opened Selection
  import opened Provenance
  import opened Sites

  // Who is at the other end of a link, by the router's life and the link's number in it; for
  // how long an update may be under way, counted from the step that produced it; and how late
  // a router may be to notice an expiry.
  datatype World = World(peer: (Node, nat, LinkId) -> Node, delay: int, lateness: int)

  datatype Net = Net(time: int, routers: map<Node, Router>, wire: set<Sent>)

  predicate Deliverable(w: World, time: int, s: Sent) { time <= s.stamp + w.delay }

  /** No candidate made of s expires later than this instant. */
  function Latest(w: World, s: Sent): int { s.stamp + w.delay + Hold(WireTime(s.interval)) }

  /** Every finite update of the event was sent, lately enough, by the peer of its link; all else may be forged. */
  ghost predicate Genuine(w: World, net: Net, n: Node, event: Event)
    requires n in net.routers
  {
    forall m :: m in Messages(event) && FiniteUpdate(m) ==>
      exists s :: s in net.wire && Deliverable(w, net.time, s)
                  && s.from == w.peer(n, net.routers[n].life, Arrival(event))
                  && s.key == SourceKey(m.prefix, m.routerId) && s.dist == Claimed(m) && s.interval == m.interval
  }

  // ------------------------------------------------------------------- actions

  /** Routers are stepped, and commits made, at most so late after their candidates expire. */
  predicate OnTime(w: World, a: Router, t: int) {
    a.up ==>
      && (forall p :: p in a.claims ==> t <= a.claims[p].until + w.lateness)
      && (forall k :: k in a.engine.routes && a.engine.routes[k].advertised != INFINITY ==>
            t <= a.boot + a.engine.routes[k].expires + w.lateness)
  }

  ghost predicate Elapses(w: World, x: Net, y: Net) {
    y == x.(time := y.time) && x.time <= y.time && forall n :: n in x.routers ==> OnTime(w, x.routers[n], y.time)
  }

  /** y is x with another state of router n. */
  ghost predicate Local(x: Net, y: Net, n: Node, b: Router) {
    n in x.routers && y == x.(routers := x.routers[n := b], wire := y.wire)
  }

  /** Router n does something; what it persists goes out on the wire. */
  ghost predicate Behaves(w: World, x: Net, y: Net, n: Node, d: Deed) {
    && n in x.routers && n in y.routers && Local(x, y, n, y.routers[n]) && !d.Waiting?
    && Acts(n, x.routers[n], y.routers[n], x.time, d)
    && (d.Moving? ==> Genuine(w, x, n, d.event))
    && y.wire == (if d.Persisting? then x.wire + x.routers[n].outbox else x.wire)
  }

  datatype Action = Act(n: Node, d: Deed) | Elapse

  ghost predicate Next(w: World, x: Net, y: Net, a: Action) {
    match a
    case Act(n, d) => Behaves(w, x, y, n, d)
    case Elapse => Elapses(w, x, y)
  }

  /** No router has started yet and nothing has been sent. */
  ghost predicate Initial(net: Net) {
    net.wire == {} && forall n :: n in net.routers ==> Dormant(net.routers[n])
  }

  // ----------------------------------------------- the window of sequence numbers

  /** The sequence numbers for sk that a router holds lie in the half of the circle at base. */
  ghost predicate RouterWithin(base: u16, sk: SourceKey, a: Router) {
    && HistoryWithin(base, sk, a)
    && (a.up ==>
          && SourceWithin(base, sk, a.released)
          && (forall k :: k in a.engine.routes && k.prefix == sk.prefix && a.engine.routes[k].id == sk.id ==>
                InWindow(base, a.engine.routes[k].seqno))
          && (sk.prefix in a.claims && sk.prefix in a.fib && a.fib[sk.prefix].routerId == sk.id ==>
                InWindow(base, a.claims[sk.prefix].dist.seqno)))
  }

  ghost predicate Within(base: u16, sk: SourceKey, net: Net) {
    && (forall n :: n in net.routers ==> RouterWithin(base, sk, net.routers[n]))
    && SentWithin(base, sk, net.time, net.wire)
  }

  /** Section 3.2.1 of RFC 8966: sequence numbers in use at the same time lie within half the circle. */
  ghost predicate Windowed(sk: SourceKey, x: Net, y: Net) {
    exists base: u16 :: Within(base, sk, x) && Within(base, sk, y)
  }

  /** An update is forgotten by its receivers before it is by its sender. */
  predicate Patient(w: World, cfg: LiveConfig) {
    0 <= w.delay && 0 <= w.lateness && w.delay + Hold(cfg.updateInterval) + w.lateness < cfg.sourceGC
  }

  predicate AllPatient(w: World, net: Net) {
    forall n :: n in net.routers && net.routers[n].up ==> Patient(w, net.routers[n].engine.cfg)
  }

  // ------------------------------------------------------------------------ runs

  datatype Run = Run(states: seq<Net>, actions: seq<Action>)

  ghost predicate IsRun(w: World, r: Run) {
    && |r.states| == |r.actions| + 1
    && Initial(r.states[0])
    && forall i :: 0 <= i < |r.actions| ==> Next(w, r.states[i], r.states[i + 1], r.actions[i])
  }

  /** Every configuration in use leaves time for updates to be forgotten. */
  predicate PatientRun(w: World, r: Run) { forall i :: 0 <= i < |r.states| ==> AllPatient(w, r.states[i]) }

  ghost predicate WindowedRun(sk: SourceKey, r: Run)
    requires |r.states| == |r.actions| + 1
  {
    forall i {:trigger r.actions[i]} :: 0 <= i < |r.actions| ==> Windowed(sk, r.states[i], r.states[i + 1])
  }

  // ------------------------------------------------------------------ forwarding

  /** n forwards packets for the prefix of sk to m, by a route whose origin is sk's. */
  predicate Forwards(w: World, net: Net, sk: SourceKey, n: Node, m: Node) {
    && n in net.routers && sk.prefix in net.routers[n].fib
    && var r := net.routers[n].fib[sk.prefix];
       Remote(r) && r.routerId == sk.id && w.peer(n, net.routers[n].life, r.link) == m
  }

  /** The nodes of path forward to one another in turn, and the last one to the first. */
  predicate Cycle(w: World, net: Net, sk: SourceKey, path: seq<Node>) {
    && path != []
    && (forall i :: 0 <= i < |path| - 1 ==> Forwards(w, net, sk, path[i], path[i + 1]))
    && Forwards(w, net, sk, path[|path| - 1], path[0])
  }
}
