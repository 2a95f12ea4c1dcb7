/**
 Feasibility history: the source table dominates every finite update the engine
 emits, and only ever improves (sections 3.5.1 and 3.7.3 of RFC 8966).
 */
module History {
  import opened Arithmetic
  import opened Types
  import opened Rules

  ghost predicate Emitted(out: map<LinkId, seq<Message>>, m: Message) {
    exists id :: id in out && m in out[id]
  }

  /** m is a finite update for the source sk. */
  predicate Claims(m: Message, sk: SourceKey) {
    FiniteUpdate(m) && m.prefix == sk.prefix && m.routerId == sk.id
  }

  function Claimed(m: Message): Distance
    requires m.Update?
  {
    Distance(m.seqno, m.metric)
  }

  ghost predicate OutWithin(base: u16, sk: SourceKey, out: map<LinkId, seq<Message>>) {
    forall m :: Emitted(out, m) && Claims(m, sk) ==> InWindow(base, m.seqno)
  }

  predicate SourceWithin(base: u16, sk: SourceKey, sources: map<SourceKey, Source>) {
    sk in sources ==> InWindow(base, sources[sk].seqno)
  }

  ghost predicate Grows(x: map<LinkId, seq<Message>>, y: map<LinkId, seq<Message>>) {
    forall m :: Emitted(x, m) ==> Emitted(y, m)
  }

  /** The entry of sk survives from x to y, no worse, its lifetime kept or restarted. */
  predicate Improves(sk: SourceKey, expires: int, x: map<SourceKey, Source>, y: map<SourceKey, Source>) {
    sk in x ==>
      && sk in y && AsGood(y[sk].Dist(), x[sk].Dist())
      && (y[sk].expires == x[sk].expires || y[sk].expires == expires)
  }

  /** An entry of sk dominates the claim m and has been given a full lifetime. */
  predicate Covers(sk: SourceKey, expires: int, sources: map<SourceKey, Source>, m: Message)
    requires m.Update?
  {
    sk in sources && AsGood(sources[sk].Dist(), Claimed(m)) && sources[sk].expires == expires
  }

  ghost predicate CoversNew(sk: SourceKey, expires: int, interval: u16, x: Emission, y: Emission) {
    forall m :: Emitted(y.out, m) && Claims(m, sk) && !Emitted(x.out, m) ==>
      Covers(sk, expires, y.sources, m) && m.interval == interval
  }

  /**
   What emission does to the history of sk, when the sequence numbers involved lie in
   the half-window at base.
   */
  ghost predicate Evolves(base: u16, sk: SourceKey, expires: int, interval: u16, x: Emission, y: Emission) {
    && Grows(x.out, y.out)
    && (OutWithin(base, sk, y.out) && SourceWithin(base, sk, x.sources) ==>
          && SourceWithin(base, sk, y.sources)
          && Improves(sk, expires, x.sources, y.sources)
          && CoversNew(sk, expires, interval, x, y))
  }

  lemma EvolvesNot(base: u16, sk: SourceKey, expires: int, interval: u16, x: Emission, y: Emission)
    requires x.sources == y.sources && x.out == y.out
    ensures Evolves(base, sk, expires, interval, x, y)
  {
  }

  lemma CoversLater(base: u16, sk: SourceKey, expires: int, x: map<SourceKey, Source>, y: map<SourceKey,
      Source>, m: Message)
    requires Claims(m, sk) && InWindow(base, m.seqno)
    requires SourceWithin(base, sk, x) && SourceWithin(base, sk, y)
    requires Covers(sk, expires, x, m) && Improves(sk, expires, x, y)
    ensures Covers(sk, expires, y, m)
  {
    WindowOrder(base, y[sk].Dist(), x[sk].Dist());
    WindowOrder(base, x[sk].Dist(), Claimed(m));
    WindowOrder(base, y[sk].Dist(), Claimed(m));
  }

  lemma ImprovesTransitive(base: u16, sk: SourceKey, expires: int, x: map<SourceKey, Source>, y: map<SourceKey,
      Source>, z: map<SourceKey, Source>)
    requires SourceWithin(base, sk, x) && SourceWithin(base, sk, y) && SourceWithin(base, sk, z)
    requires Improves(sk, expires, x, y) && Improves(sk, expires, y, z)
    ensures Improves(sk, expires, x, z)
  {
    if sk in x {
      WindowOrder(base, y[sk].Dist(), x[sk].Dist());
      WindowOrder(base, z[sk].Dist(), y[sk].Dist());
      WindowOrder(base, z[sk].Dist(), x[sk].Dist());
    }
  }

  lemma EvolvesTransitive(base: u16, sk: SourceKey, expires: int, interval: u16, x: Emission, y: Emission, z: Emission)
    requires Evolves(base, sk, expires, interval, x, y) && Evolves(base, sk, expires, interval, y, z)
    ensures Evolves(base, sk, expires, interval, x, z)
  {
    if OutWithin(base, sk, z.out) && SourceWithin(base, sk, x.sources) {
      assert OutWithin(base, sk, y.out);
      ImprovesTransitive(base, sk, expires, x.sources, y.sources, z.sources);
      forall m | Emitted(z.out, m) && Claims(m, sk) && !Emitted(x.out, m)
        ensures Covers(sk, expires, z.sources, m) && m.interval == interval
      {
        if Emitted(y.out, m) {
          CoversLater(base, sk, expires, y.sources, z.sources, m);
        }
      }
    }
  }

  // ------------------------------------------------------------------- queues

  /** Queueing emits exactly one more message. */
  lemma QueueEmits(links: map<LinkId, LinkState>, out: map<LinkId, seq<Message>>, id: LinkId, m: Message, x: Message)
    ensures var out' := Queue(links, out, id, m);
            Emitted(out', x) <==> Emitted(out, x) || (x == m && id in links)
  {
    var out' := Queue(links, out, id, m);
    if id in links {
      assert out'[id] == Queued(out, id) + [m];
      assert m in out'[id];
      if Emitted(out, x) {
        var i :| i in out && x in out[i];
        assert x in out'[i];
      }
      if Emitted(out', x) && x != m {
        var i :| i in out' && x in out'[i];
        assert i in out && x in out[i];
      }
    }
  }

  lemma {:induction false} QueueAllEmits(links: map<LinkId, LinkState>, out: map<LinkId, seq<Message>>,
      ids: seq<LinkId>, m: Message, x: Message)
    ensures var out' := QueueAll(links, out, ids, m);
            Emitted(out', x) <==> Emitted(out, x) || (x == m && exists id :: id in ids && id in links)
  {
    if ids != [] {
      var n := |ids| - 1;
      QueueAllEmits(links, out, ids[..n], m, x);
      QueueEmits(links, QueueAll(links, out, ids[..n], m), ids[n], m, x);
      assert ids == ids[..n] + [ids[n]];
    }
  }

  /** Messages that are no finite updates leave the history alone. */
  lemma EvolvesByOther(base: u16, sk: SourceKey, expires: int, interval: u16, x: Emission, y: Emission, m: Message)
    requires !FiniteUpdate(m)
    requires x.sources == y.sources
    requires forall a :: Emitted(x.out, a) ==> Emitted(y.out, a)
    requires forall a :: Emitted(y.out, a) ==> Emitted(x.out, a) || a == m
    ensures Evolves(base, sk, expires, interval, x, y)
  {
  }

  lemma QueueEvolves(base: u16, sk: SourceKey, expires: int, interval: u16, links: map<LinkId, LinkState>,
      x: Emission, y: Emission, id: LinkId, m: Message)
    requires !FiniteUpdate(m) && x.sources == y.sources && y.out == Queue(links, x.out, id, m)
    ensures Evolves(base, sk, expires, interval, x, y)
  {
    forall a ensures Emitted(x.out, a) ==> Emitted(y.out, a)
             ensures Emitted(y.out, a) ==> Emitted(x.out, a) || a == m
    {
      QueueEmits(links, x.out, id, m, a);
    }
    EvolvesByOther(base, sk, expires, interval, x, y, m);
  }

  lemma QueueAllEvolves(base: u16, sk: SourceKey, expires: int, interval: u16, links: map<LinkId, LinkState>,
      x: Emission, y: Emission, ids: seq<LinkId>, m: Message)
    requires !FiniteUpdate(m) && x.sources == y.sources && y.out == QueueAll(links, x.out, ids, m)
    ensures Evolves(base, sk, expires, interval, x, y)
  {
    forall a ensures Emitted(x.out, a) ==> Emitted(y.out, a)
             ensures Emitted(y.out, a) ==> Emitted(x.out, a) || a == m
    {
      QueueAllEmits(links, x.out, ids, m, a);
    }
    EvolvesByOther(base, sk, expires, interval, x, y, m);
  }

  // ---------------------------------------------------------------- advertise

  function Expiry(st: State): int { st.now + st.cfg.sourceGC }

  /** One advertisement of distance d for source k: history is written before the message. */
  lemma LoweredEvolves(base: u16, sk: SourceKey, st: State, x: Emission, y: Emission, id: LinkId, k: SourceKey,
      m: Message)
    requires id in st.links && FiniteUpdate(m) && Claims(m, k) && m.interval == Period(st.cfg)
    requires y.sources == x.sources[k := Lowered(x.sources, k, Claimed(m), Expiry(st))]
    requires y.out == Queue(st.links, x.out, id, m)
    ensures Evolves(base, sk, Expiry(st), Period(st.cfg), x, y)
  {
    forall a ensures Emitted(y.out, a) <==> Emitted(x.out, a) || a == m {
      QueueEmits(st.links, x.out, id, m, a);
    }
    if OutWithin(base, sk, y.out) && SourceWithin(base, sk, x.sources) && k == sk {
      assert InWindow(base, m.seqno);
      if sk in x.sources {
        WindowOrder(base, Claimed(m), x.sources[sk].Dist());
        WindowOrder(base, x.sources[sk].Dist(), Claimed(m));
      }
    }
  }

  lemma AdvertiseEvolves(base: u16, sk: SourceKey, st: State, em: Emission, id: LinkId, p: Prefix, explicit: bool)
    requires forall q :: Reachable(st.selected, q) ==> st.selected[q].metric != INFINITY
    ensures Evolves(base, sk, Expiry(st), Period(st.cfg), em, Advertise(st, em, id, p, explicit))
  {
    var y := Advertise(st, em, id, p, explicit);
    if y.sources == em.sources && y.out == em.out {
      EvolvesNot(base, sk, Expiry(st), Period(st.cfg), em, y);
    } else if !Reachable(st.selected, p) {
      QueueEvolves(base, sk, Expiry(st), Period(st.cfg), st.links, em, y, id, Retraction(st.cfg, p));
    } else {
      var r := st.selected[p];
      LoweredEvolves(base, sk, st, em, y, id, SourceKey(p, r.routerId), Announcement(st.cfg, st.links[id], p, r));
    }
  }

  lemma {:induction false} AdvertiseAllEvolves(base: u16, sk: SourceKey, st: State, em: Emission, id: LinkId,
      ps: seq<Prefix>, explicit: bool)
    requires forall q :: Reachable(st.selected, q) ==> st.selected[q].metric != INFINITY
    ensures Evolves(base, sk, Expiry(st), Period(st.cfg), em, AdvertiseAll(st, em, id, ps, explicit))
  {
    if ps == [] {
      EvolvesNot(base, sk, Expiry(st), Period(st.cfg), em, em);
    } else {
      var n := |ps| - 1;
      var y := AdvertiseAll(st, em, id, ps[..n], explicit);
      AdvertiseAllEvolves(base, sk, st, em, id, ps[..n], explicit);
      AdvertiseEvolves(base, sk, st, y, id, ps[n], explicit);
      EvolvesTransitive(base, sk, Expiry(st), Period(st.cfg), em, y, AdvertiseAll(st, em, id, ps, explicit));
    }
  }
}
