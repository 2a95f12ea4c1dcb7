/**
 The packets a step produces, released at once or withheld for a commit, and the
 history that backs them.
 */
module Release {
  import opened Arithmetic
  import opened Types
  import opened Sorting
  import opened Rules
  import opened Steps
  import opened History
  import opened Soundness
  import opened Invariant

  ghost predicate Carried(packets: seq<Datagram>, m: Message) {
    exists i :: 0 <= i < |packets| && m in packets[i].messages
  }

  /** Collecting the queues of the live links loses nothing and invents nothing. */
  lemma {:induction false} CollectCarries(out: map<LinkId, seq<Message>>, ids: seq<LinkId>, m: Message)
    ensures Carried(Collect(out, ids), m) <==> exists id :: id in ids && id in out && m in out[id]
  {
    if ids != [] {
      var n := |ids| - 1;
      CollectCarries(out, ids[..n], m);
      var x, y := Collect(out, ids[..n]), Collect(out, ids);
      assert forall id :: id in ids <==> id in ids[..n] || id == ids[n] by { assert ids == ids[..n] + [ids[n]]; }
      if Queued(out, ids[n]) != [] {
        CarriedSnoc(x, Datagram(ids[n], out[ids[n]]), m);
      } else {
        assert y == x;
      }
    }
  }

  lemma CarriedSnoc(x: seq<Datagram>, d: Datagram, m: Message)
    ensures Carried(x + [d], m) <==> Carried(x, m) || m in d.messages
  {
    var y := x + [d];
    if Carried(x, m) {
      var i :| 0 <= i < |x| && m in x[i].messages;
      assert y[i] == x[i];
    }
    if m in d.messages {
      assert y[|x|] == d;
    }
  }

  lemma PacketsCarry(st: State, m: Message)
    requires st.em.out.Keys <= st.links.Keys
    ensures Carried(Packets(st), m) <==> Emitted(st.em.out, m)
  {
    hide LinkLess;
    CollectCarries(st.em.out, SortLinks(st.links.Keys), m);
  }

  /** The packets of a completed step, wherever it left them. */
  function Produced(st: State, e: Effects): seq<Datagram> {
    if st.pending != 0 then st.held else e.datagrams
  }

  ghost predicate CarriedWithin(base: u16, sk: SourceKey, packets: seq<Datagram>) {
    forall m :: Carried(packets, m) && Claims(m, sk) ==> InWindow(base, m.seqno)
  }

  /** Every finite update for sk among the packets is dominated by its source entry, which lives until expires. */
  ghost predicate Backing(sk: SourceKey, expires: int, interval: u16, packets: seq<Datagram>,
      sources: map<SourceKey, Source>) {
    forall m :: Carried(packets, m) && Claims(m, sk) ==> Covers(sk, expires, sources, m) && m.interval == interval
  }

  lemma WorkHistory(base: u16, sk: SourceKey, st: State, now: int, event: Event)
    requires Valid(st) && Refusal(st, now, event).None? && Decoded(event)
    requires var y := Work(st, now, event); CarriedWithin(base, sk, Packets(y)) && SourceWithin(base, sk, st.em.sources)
    ensures var y := Work(st, now, event);
            && SourceWithin(base, sk, y.em.sources)
            && Improves(sk, now + st.cfg.sourceGC, LiveSources(st.em.sources, now), y.em.sources)
            && Backing(sk, now + st.cfg.sourceGC, Period(st.cfg), Packets(y), y.em.sources)
  {
    hide Work, Valid, Refusal, Packets, Sound, Covers, Improves, Decoded, Period, Validate, AgedRoutes, LiveRequests;
    Unrefused(st, now, event);
    var x, y := Begin(st, now), Work(st, now, event);
    WorkAdvances(base, sk, st, now, event);
    BeginSound(st, now);
    assert y.em.out.Keys <= y.links.Keys by { QueuesOpen(y); }
    forall m | true ensures Carried(Packets(y), m) <==> Emitted(y.em.out, m) { PacketsCarry(y, m); }
  }

  lemma Unrefused(st: State, now: int, event: Event)
    requires Refusal(st, now, event).None?
    ensures st.now <= now <= MAX_DURATION - 48 * HOUR && st.pending == 0 && !st.stopped && Validate(st, event).None?
  {
    hide Validate;
  }

  lemma QueuesOpen(st: State)
    requires Sound(st)
    ensures st.em.out.Keys <= st.links.Keys
  {
    hide LocalOk, RoutesOk, SelectedOk, DropsOk, RequestsOk, LinksOk, SourcesOk, Room;
  }

  /** A step that is not refused does its work, then releases or withholds the packets. */
  lemma StepProduces(st: State, now: int, event: Event, y: State, r: Result<Effects>)
    requires (y, r) == Step(st, now, event)
    requires Refusal(st, now, event).None?
    ensures r.Ok? && Validate(st, event).None? && (y, r.value) == Conclude(st.selected, Work(st, now, event))
    ensures var w := Work(st, now, event);
            && Produced(y, r.value) == Packets(w)
            && y == w.(em := y.em, revision := y.revision, pending := y.pending, held := y.held)
            && y.em.sources == w.em.sources
  {
    hide Refusal, Snapshot, Packets, SelectRoutes, Timers, Apply, Expire, Validate;
    Unrefused(st, now, event);
    WorkPhase(st, now, event);
  }

  /**
   The history dominates what is advertised and never worsens.  As long as the sequence
   numbers of sk lie within half the circle, a step keeps every live entry, no worse and
   for no shorter a time, and every finite update it produces is dominated by the entry
   of sk, which outlives it by the full collection time.
   */
  lemma StepHistory(base: u16, sk: SourceKey, st: State, now: int, event: Event, y: State, r: Result<Effects>)
    requires Valid(st) && Refusal(st, now, event).None? && Decoded(event)
    requires (y, r) == Step(st, now, event) && (r.Ok? ==> CarriedWithin(base, sk, Produced(y, r.value)))
    requires SourceWithin(base, sk, st.em.sources)
    ensures r.Ok? && SourceWithin(base, sk, y.em.sources)
    ensures Improves(sk, now + st.cfg.sourceGC, LiveSources(st.em.sources, now), y.em.sources)
    ensures Backing(sk, now + st.cfg.sourceGC, Period(st.cfg), Produced(y, r.value), y.em.sources)
  {
    hide Step, Work, Valid, Refusal, Packets, CarriedWithin, Backing, Improves, Decoded, Period, Validate;
    hide LiveSources, SourceWithin;
    StepProduces(st, now, event, y, r);
    WorkHistory(base, sk, st, now, event);
  }

  lemma RetractFrame(st: State, id: LinkId)
    ensures RetractLink(st, id) == st.(routes := RetractedRoutes(st.routes, id))
  {
    hide RetractedRoutes;
  }

  /** Received updates alone never touch the history. */
  lemma {:induction false} UpdatesKeepHistory(st: State, id: LinkId, ms: seq<Message>)
    requires forall m :: m in ms ==> m.Update? || m.WildcardUpdate?
    ensures ReceiveAll(st, id, ms).em.sources == st.em.sources
  {
    hide ReceiveUpdate, RetractLink, SelectRoutes;
    if ms != [] {
      var n := |ms| - 1;
      UpdatesKeepHistory(st, id, ms[..n]);
      var x := ReceiveAll(st, id, ms[..n]);
      assert ms[n] in ms;
      if id in x.links && ms[n].Update? {
        ReceiveUpdateFrame(x, id, ms[n]);
      }
      assert RetractLink(x, id).em == x.em by { RetractFrame(x, id); }
    }
  }
}
