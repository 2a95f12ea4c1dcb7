/** What the neighbours are told: the packets of a step whose trigger was due hold a full dump for every link. */
module Telling {
  import opened Types
  import opened Sorting
  import opened Rules
  import opened Steps
  import opened Soundness
  import opened Selection
  import opened Invariant
  import opened Rest
  import opened Traces
  import opened Triggered
  import Release

  ghost predicate Delivers(packets: seq<Datagram>, id: LinkId, m: Message) {
    exists i :: 0 <= i < |packets| && packets[i].link == id && m in packets[i].messages
  }

  /** The packets tell the neighbour on the link of the route for p, or of its loss, unless an exemption holds. */
  ghost predicate Informed(y: State, packets: seq<Datagram>, id: LinkId, p: Prefix)
    requires id in y.links
  {
    if !Reachable(y.selected, p) then Delivers(packets, id, Retraction(y.cfg, p))
    else
      var r := y.selected[p];
      || Gated(y.cfg, p, r)                                                                   // not authorized yet
      || r.link == id                                                                         // split horizon
      || (p.family == IPv4 && !IsValid(y.links[id].link.ipv4) && !y.cfg.ipv4ViaIPv6)          // no next hop
      || (SourceKey(p, r.routerId) !in y.em.sources && |y.em.sources| >= y.cfg.maxSources)    // no room for its history
      || Delivers(packets, id, Announcement(y.cfg, y.links[id], p, r))
  }

  // -------------------------------------------------------------------- the queues

  /** Queues only grow. */
  ghost predicate Longer(x: map<LinkId, seq<Message>>, y: map<LinkId, seq<Message>>) {
    forall id :: id in x ==> id in y && forall m :: m in x[id] ==> m in y[id]
  }

  lemma QueueLonger(links: map<LinkId, LinkState>, out: map<LinkId, seq<Message>>, id: LinkId, m: Message)
    ensures Longer(out, Queue(links, out, id, m))
  {
  }

  lemma {:induction false} QueueAllLonger(links: map<LinkId, LinkState>, out: map<LinkId, seq<Message>>,
      ids: seq<LinkId>, m: Message)
    ensures Longer(out, QueueAll(links, out, ids, m))
  {
    hide Queue;
    if ids != [] {
      var n := |ids| - 1;
      QueueAllLonger(links, out, ids[..n], m);
      QueueLonger(links, QueueAll(links, out, ids[..n], m), ids[n], m);
    }
  }

  lemma {:induction false} ResendLonger(st: State, out: map<LinkId, seq<Message>>, sks: seq<SourceKey>)
    ensures Longer(out, ResendOut(st, out, sks))
  {
    hide QueueAll;
    if sks != [] {
      var n := |sks| - 1;
      ResendLonger(st, out, sks[..n]);
      if ResendDue(st, sks[n]) {
        var q := st.requests[sks[n]];
        QueueAllLonger(st.links, ResendOut(st, out, sks[..n]), q.targets, RequestMessage(sks[n], q));
      }
    }
  }

  lemma {:induction false} RefreshLonger(st: State, out: map<LinkId, seq<Message>>, ks: seq<RouteKey>)
    ensures Longer(out, RefreshOut(st, out, ks))
  {
    hide Queue, RefreshDue;
    if ks != [] {
      var n := |ks| - 1;
      RefreshLonger(st, out, ks[..n]);
      QueueLonger(st.links, RefreshOut(st, out, ks[..n]), ks[n].link, RouteRequest(ks[n].prefix));
    }
  }

  /** The request and refresh timers only add to what the trigger queued. */
  lemma LaterTimers(b: State, y: State)
    requires y == RefreshTimer(RequestTimer(b))
    ensures Longer(b.em.out, y.em.out) && y.em.sources == b.em.sources
    ensures y.cfg == b.cfg && y.links == b.links && y.selected == b.selected
  {
    hide ResendOut, RefreshOut, SortSourceKeys, SortRouteKeys, Longer, ResendDue, RefreshDue;
    var c := RequestTimer(b);
    ResendLonger(b, b.em.out, SortSourceKeys(b.requests.Keys));
    RefreshLonger(c, c.em.out, SortRouteKeys(c.routes.Keys));
    LongerTransitive(b.em.out, c.em.out, y.em.out);
  }

  lemma LongerTransitive(x: map<LinkId, seq<Message>>, y: map<LinkId, seq<Message>>, z: map<LinkId, seq<Message>>)
    requires Longer(x, y) && Longer(y, z)
    ensures Longer(x, z)
  {
  }

  /** Collecting delivers each queue to its link. */
  lemma {:induction false} CollectDelivers(out: map<LinkId, seq<Message>>, ids: seq<LinkId>, id: LinkId, m: Message)
    requires id in ids && id in out && m in out[id]
    ensures Delivers(Collect(out, ids), id, m)
  {
    var n := |ids| - 1;
    var x, y := Collect(out, ids[..n]), Collect(out, ids);
    if id == ids[n] {
      assert y[|x|] == Datagram(id, out[id]);
    } else {
      assert ids == ids[..n] + [ids[n]];
      CollectDelivers(out, ids[..n], id, m);
      var i :| 0 <= i < |x| && x[i].link == id && m in x[i].messages;
      assert y[i] == x[i];
    }
  }

  // ---------------------------------------------------------------------- the steps

  lemma QueuedDelivered(out: map<LinkId, seq<Message>>, w: State, id: LinkId, m: Message)
    requires id in out && m in out[id] && Longer(out, w.em.out) && id in w.links
    ensures Delivers(Packets(w), id, m)
  {
    hide LinkLess, Delivers;
    CollectDelivers(w.em.out, SortLinks(w.links.Keys), id, m);
  }

  /** Announcements read the configuration of the link only. */
  lemma SameAnnouncement(cfg: LiveConfig, l: LinkState, k: LinkState, p: Prefix, r: Route)
    requires k.link == l.link
    ensures Announcement(cfg, k, p, r) == Announcement(cfg, l, p, r)
  {
    hide BoundedLink, BoundedConfig;
  }

  /** Being told in the queues is being told in the packets. */
  lemma ToldInformed(a: State, em: Emission, w: State, id: LinkId, p: Prefix)
    requires id in a.links && Told(a, em, id, p)
    requires Longer(em.out, w.em.out) && w.em.sources == em.sources
    requires w.cfg == a.cfg && w.selected == a.selected && id in w.links && w.links[id].link == a.links[id].link
    ensures Informed(w, Packets(w), id, p)
  {
    hide Longer, Delivers, Announcement, Packets, Gated, BoundedConfig, BoundedLink;
    if !Reachable(a.selected, p) {
      QueuedDelivered(em.out, w, id, Retraction(a.cfg, p));
    } else {
      var m := Announcement(a.cfg, a.links[id], p, a.selected[p]);
      SameAnnouncement(a.cfg, a.links[id], w.links[id], p, a.selected[p]);
      if id in em.out && m in em.out[id] {
        QueuedDelivered(em.out, w, id, m);
      }
    }
  }

  lemma WorkTells(st: State, now: int, event: Event, w: State, id: LinkId, p: Prefix)
    requires Dumps(st, now, event) && w == Work(st, now, event) && id in w.links && p in w.selected
    ensures Informed(w, Packets(w), id, p)
  {
    hide Apply, Expire, SelectRoutes, AllLinkTimers, TriggerTimer, RequestTimer, RefreshTimer, TriggerDue;
    hide Informed, Told, Longer, Packets, SortLinks, Validate;
    var a := BeforeTrigger(st, now, event);
    var b := TriggerTimer(a);
    TriggerTimerFrame(a);
    LaterTimers(b, w);
    DumpTells(a, id, p);
    ToldInformed(a, b.em, w, id, p);
  }

  lemma SameInformed(w: State, y: State, packets: seq<Datagram>, id: LinkId, p: Prefix)
    requires y.cfg == w.cfg && y.links == w.links && y.selected == w.selected && y.em.sources == w.em.sources
    requires id in w.links && Informed(w, packets, id, p)
    ensures Informed(y, packets, id, p)
  {
    hide Delivers, Announcement, Gated;
  }

  /**
   Triggered dumps are full.  In every run the packets of a step whose trigger was due, released
   or withheld, tell the neighbour on every live link of every route selected and of every
   prefix suppressed, but for the exemptions.
   */
  lemma {:induction false} DumpTellsAll(t: Trace, i: nat, id: LinkId, p: Prefix)
    requires IsTrace(t) && DumpsAt(t, i) && |t.states| == |t.moves| + 1 && |t.results| == |t.moves|
    requires id in t.states[i + 1].links && p in t.states[i + 1].selected
    ensures t.results[i].Ok?
    ensures Informed(t.states[i + 1], Release.Produced(t.states[i + 1], t.results[i].value), id, p)
  {
    hide IsTrace, Valid, Step, Refusal, Decoded, Dumps, Informed, Packets, Release.Produced, Work;
    TookStep(t, i);
    var x, m, y, r := t.states[i], t.moves[i], t.states[i + 1], t.results[i];
    Release.StepProduces(x, m.now, m.event, y, r);
    var w := Work(x, m.now, m.event);
    WorkTells(x, m.now, m.event, w, id, p);
    SameInformed(w, y, Packets(w), id, p);
  }
}
