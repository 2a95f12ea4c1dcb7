/** What a step does for each link: its Hello, its IHU, a full update, and answers to wildcard requests. */
module Upkeep {
  import opened Arithmetic
  import opened Types
  import opened Sorting
  import opened Rules
  import opened Steps
  import opened Soundness
  import opened Selection
  import opened Invariant
  import opened Rest
  import opened Traces
  import opened Triggered
  import opened Telling
  import opened Cadence
  import Progress
  import Release
  import Requests
  import TwoPhase

  // What a link owes its neighbour from time to time: a Hello, an IHU, a full update.
  datatype Chore = Greeting | Reporting | Refreshing

  function Next(c: Chore, l: LinkState): int {
    match c
    case Greeting => l.nextHello
    case Reporting => l.nextIHU
    case Refreshing => l.nextUpdate
  }

  function Every(c: Chore, cfg: LiveConfig, l: LinkState): int {
    match c
    case Greeting => HelloInterval(cfg, l)
    case Reporting => HelloInterval(cfg, l) * 2
    case Refreshing => cfg.updateInterval
  }

  // ----------------------------------------------------------------- before the timers

  /** Packets and events leave the timers of a link alone, and of its configuration change the cost at most. */
  predicate Untimed(l: LinkState, m: LinkState) {
    && m.link == l.link.(cost := m.link.cost) && m.helloSeq == l.helloSeq
    && m.nextHello == l.nextHello && m.nextIHU == l.nextIHU && m.nextUpdate == l.nextUpdate
  }

  /** No wildcard request has been answered, or one has now, the last one at least d ago. */
  predicate Paced(l: LinkState, m: LinkState, now: int, d: int) {
    || (m.dumped == l.dumped && m.lastDump == l.lastDump)
    || (m.dumped && m.lastDump == now && (!l.dumped || now - l.lastDump >= d))
  }

  predicate Tended(cfg: LiveConfig, now: int, l: LinkState, m: LinkState) {
    Untimed(l, m) && Paced(l, m, now, HelloInterval(cfg, l))
  }

  lemma TendedTransitive(cfg: LiveConfig, now: int, l: LinkState, m: LinkState, n: LinkState)
    requires Tended(cfg, now, l, m) && Tended(cfg, now, m, n)
    ensures Tended(cfg, now, l, n)
  {
    hide BoundedLink;
  }

  /** y is x with clock and configuration as they were, and the link tended. */
  ghost predicate Keeps(x: State, y: State, id: LinkId)
    requires id in x.links
  {
    y.now == x.now && y.cfg == x.cfg && id in y.links && Tended(x.cfg, x.now, x.links[id], y.links[id])
  }

  lemma KeepsTransitive(x: State, y: State, z: State, id: LinkId)
    requires id in x.links && Keeps(x, y, id) && Keeps(y, z, id)
    ensures Keeps(x, z, id)
  {
    hide Tended;
    TendedTransitive(x.cfg, x.now, x.links[id], y.links[id], z.links[id]);
  }

  lemma KeepsNot(x: State, y: State, id: LinkId)
    requires id in x.links && y.links == x.links && y.now == x.now && y.cfg == x.cfg
    ensures Keeps(x, y, id)
  {
  }

  lemma TunedKeeps(st: State, from: LinkId, l: LinkState, id: LinkId)
    requires from in st.links && id in st.links && Tended(st.cfg, st.now, st.links[from], l)
    ensures Keeps(st, Tuned(st, from, l), id)
  {
    hide BoundedLink;
  }

  lemma HearKeeps(st: State, from: LinkId, m: Message, id: LinkId)
    requires from in st.links && id in st.links && (m.Hello? || m.IHU?)
    ensures Keeps(st, ReceiveMessage(st, from, m), id)
  {
    hide ReceiveUpdate, ReceiveSeqRequest, Advertise, ReceiveWildcardRequest, RetractLink, Queue, Tuned, Keeps;
    hide HearHello, HelloInterval, BoundedLink;
    KeepsNot(st, st, id);
    var l := st.links[from];
    match m
    case Hello(false, seqno, interval) =>
      TunedKeeps(st, from, l.(multicast := HearHello(l.multicast, st.now, seqno, interval)), id);
    case Hello(true, seqno, interval) =>
      TunedKeeps(st, from, l.(unicast := HearHello(l.unicast, st.now, seqno, interval)), id);
    case IHU(address, metric, interval) =>
      TunedKeeps(st, from, l.(tx := metric, ihuExpires := st.now + Hold(WireTime(interval))), id);
  }

  /** A wildcard request is answered only when the last answer is a Hello interval old. */
  lemma WildcardKeeps(st: State, from: LinkId, id: LinkId)
    requires from in st.links && id in st.links
    ensures Keeps(st, ReceiveWildcardRequest(st, from), id)
  {
    hide Dump, Tuned, Keeps, HelloInterval, BoundedLink;
    KeepsNot(st, st, id);
    var l := st.links[from];
    var x := st.(em := Dump(st, st.em, from, true));
    if !l.dumped || st.now - l.lastDump >= HelloInterval(st.cfg, l) {
      TunedKeeps(x, from, l.(lastDump := st.now, dumped := true), id);
      SameKeeps(st, x, Tuned(x, from, l.(lastDump := st.now, dumped := true)), id);
    }
  }

  lemma SameKeeps(x: State, y: State, z: State, id: LinkId)
    requires id in x.links && y.links == x.links && y.now == x.now && y.cfg == x.cfg && Keeps(y, z, id)
    ensures Keeps(x, z, id)
  {
  }

  lemma MessageKeeps(st: State, from: LinkId, m: Message, id: LinkId)
    requires from in st.links && id in st.links
    ensures Keeps(st, ReceiveMessage(st, from, m), id)
  {
    if m.Hello? || m.IHU? {
      HearKeeps(st, from, m, id);
    } else {
      hide Advertise, ReceiveUpdate, ReceiveSeqRequest, ReceiveWildcardRequest, Queue, HearHello, Keeps;
      hide BoundedLink, RetractedRoutes;
      WildcardKeeps(st, from, id);
      if m.Update? {
        ReceiveUpdateFrame(st, from, m);
      } else if m.SeqRequest? {
        ReceiveSeqRequestFrame(st, from, m);
      }
      if !m.WildcardRequest? {
        KeepsNot(st, ReceiveMessage(st, from, m), id);
      }
    }
  }

  lemma OneKeeps(st: State, from: LinkId, m: Message, id: LinkId)
    requires id in st.links
    ensures Keeps(st, ReceiveOne(st, from, m), id)
  {
    hide SelectRoutes, ReceiveMessage, Keeps;
    var x := if Asks(m) then SelectRoutes(st) else st;
    Progress.SelectRoutesFrame(st);
    KeepsNot(st, x, id);
    if from in x.links {
      MessageKeeps(x, from, m, id);
      SameKeeps(st, x, ReceiveOne(st, from, m), id);
    }
  }

  lemma {:induction false} ReceiveAllKeeps(st: State, from: LinkId, ms: seq<Message>, id: LinkId)
    requires id in st.links
    ensures Keeps(st, ReceiveAll(st, from, ms), id)
  {
    hide ReceiveOne, Tended;
    if ms == [] {
      KeepsNot(st, st, id);
    } else {
      var n := |ms| - 1;
      var x := ReceiveAll(st, from, ms[..n]);
      ReceiveAllKeeps(st, from, ms[..n], id);
      OneKeeps(x, from, ms[n], id);
      KeepsTransitive(st, x, ReceiveOne(x, from, ms[n]), id);
    }
  }

  lemma ApplyKeeps(st: State, event: Event, id: LinkId)
    requires event.AddLink? ==> BoundedLink(event.link) && event.link.id != id
    requires event.SetCost? ==> event.cost != 0
    requires event.RemoveLink? ==> event.id != id
    requires id in st.links
    ensures Keeps(st, Apply(st, event), id)
  {
    hide ReceiveAll, BoundedLink, Queue, NewLink, ClosedRoutes, HelloInterval;
    if event.Receive? && event.packet.decoded.Some? {
      KeepsNot(st, st, id);
      ReceiveAllKeeps(st, event.id, event.packet.decoded.value, id);
    }
  }

  // --------------------------------------------------------------------- growth

  lemma SendGrows(st: State, id: LinkId, m: Message)
    ensures Grown(st.cfg, st.em, Send(st, id, m).em)
  {
  }

  lemma {:induction false} AdvertiseAllGrows(st: State, em: Emission, id: LinkId, ps: seq<Prefix>, explicit: bool)
    ensures Grown(st.cfg, em, AdvertiseAll(st, em, id, ps, explicit))
  {
    hide Advertise, Grown;
    if ps == [] {
      GrownNot(st.cfg, em);
    } else {
      var n := |ps| - 1;
      var x := AdvertiseAll(st, em, id, ps[..n], explicit);
      AdvertiseAllGrows(st, em, id, ps[..n], explicit);
      AdvertiseGrows(st, x, id, ps[n], explicit);
      GrownTransitive(st.cfg, em, x, Advertise(st, x, id, ps[n], explicit));
    }
  }

  /** The trigger does not matter. */
  lemma GrownSame(cfg: LiveConfig, x: Emission, y: Emission, z: Emission)
    requires Grown(cfg, x, y) && z.sources == y.sources && z.out == y.out
    ensures Grown(cfg, x, z)
  {
  }

  lemma HelloGrows(st: State, id: LinkId)
    ensures Grown(st.cfg, st.em, HelloTimer(st, id).em)
  {
    hide Grown, Send, NextRandom, Jitter, HelloInterval, Centis, BoundedLink, BoundedConfig;
    GrownNot(st.cfg, st.em);
    if id in st.links {
      var l := st.links[id];
      var y := Send(st, id, Hello(false, l.helloSeq, Centis(HelloInterval(st.cfg, l))));
      SendGrows(st, id, Hello(false, l.helloSeq, Centis(HelloInterval(st.cfg, l))));
      if l.nextHello <= st.now {
        GrownSame(st.cfg, st.em, y.em, HelloTimer(st, id).em);
      }
    }
  }

  lemma IHUGrows(st: State, id: LinkId)
    ensures Grown(st.cfg, st.em, IHUTimer(st, id).em)
  {
    hide Grown, Send, NextRandom, Jitter, HelloInterval, Centis, Rules.Heard, BoundedLink, BoundedConfig;
    GrownNot(st.cfg, st.em);
    if id in st.links {
      var l := st.links[id];
      var rx := if Rules.Heard(l, st.now) then l.link.cost else INFINITY;
      var m := IHU(NoAddr, rx, Centis(HelloInterval(st.cfg, l) * 2));
      SendGrows(st, id, m);
      if l.nextIHU <= st.now {
        GrownSame(st.cfg, st.em, Send(st, id, m).em, IHUTimer(st, id).em);
      }
    }
  }

  lemma UpdateGrows(st: State, id: LinkId)
    ensures Grown(st.cfg, st.em, UpdateTimer(st, id).em)
  {
    hide Grown, AdvertiseAll, NextRandom, Jitter, SortPrefixes, BoundedLink, BoundedConfig;
    GrownNot(st.cfg, st.em);
    AdvertiseAllGrows(st, st.em, id, SortPrefixes(st.selected.Keys), false);
    if id in st.links && st.links[id].nextUpdate <= st.now {
      GrownSame(st.cfg, st.em, Dump(st, st.em, id, false), UpdateTimer(st, id).em);
    }
  }

  lemma LinkTimersGrow(st: State, id: LinkId)
    ensures Grown(st.cfg, st.em, LinkTimers(st, id).em)
  {
    hide Grown, HelloTimer, IHUTimer, UpdateTimer;
    var a := HelloTimer(st, id);
    var b := IHUTimer(a, id);
    HelloGrows(st, id);
    HelloTimerFrame(st, id);
    IHUGrows(a, id);
    IHUTimerFrame(a, id);
    UpdateGrows(b, id);
    GrownTransitive(st.cfg, st.em, a.em, b.em);
    GrownTransitive(st.cfg, st.em, b.em, UpdateTimer(b, id).em);
  }

  lemma {:induction false} DumpAllGrows(st: State, em: Emission, ids: seq<LinkId>)
    ensures Grown(st.cfg, em, DumpAll(st, em, ids))
  {
    hide AdvertiseAll, Grown, SortPrefixes;
    if ids == [] {
      GrownNot(st.cfg, em);
    } else {
      var n := |ids| - 1;
      var x := DumpAll(st, em, ids[..n]);
      DumpAllGrows(st, em, ids[..n]);
      AdvertiseAllGrows(st, x, ids[n], SortPrefixes(st.selected.Keys), false);
      GrownTransitive(st.cfg, em, x, DumpAll(st, em, ids));
    }
  }

  lemma TriggerGrows(st: State)
    ensures Grown(st.cfg, st.em, TriggerTimer(st).em)
  {
    hide Grown, DumpAll, Rearm, SortLinks, TriggerDue;
    GrownNot(st.cfg, st.em);
    DumpAllGrows(st, st.em, SortLinks(st.links.Keys));
    if TriggerDue(st) {
      GrownSame(st.cfg, st.em, DumpAll(st, st.em, SortLinks(st.links.Keys)), TriggerTimer(st).em);
    }
  }

  lemma LaterGrow(b: State, y: State)
    requires y == RefreshTimer(RequestTimer(b))
    ensures Grown(b.cfg, b.em, y.em) && y.links == b.links && y.selected == b.selected && y.cfg == b.cfg
  {
    hide RequestTimer, RefreshTimer;
    LaterTimers(b, y);
  }

  // -------------------------------------------------------------- the timers of a link

  function HelloOf(cfg: LiveConfig, l: LinkState): Message { Hello(false, l.helloSeq, Centis(HelloInterval(cfg, l))) }

  function IHUOf(cfg: LiveConfig, l: LinkState, now: int): Message {
    IHU(NoAddr, if Rules.Heard(l, now) then l.link.cost else INFINITY, Centis(HelloInterval(cfg, l) * 2))
  }

  /** What is due on the link is in the queues: the Hello, the IHU, word of every prefix. */
  ghost predicate Attended(st: State, em: Emission, id: LinkId)
    requires id in st.links
  {
    var l := st.links[id];
    && (l.nextHello <= st.now ==> id in em.out && HelloOf(st.cfg, l) in em.out[id])
    && (l.nextIHU <= st.now ==> id in em.out && IHUOf(st.cfg, l, st.now) in em.out[id])
    && (l.nextUpdate <= st.now ==> forall p :: p in st.selected ==> Told(st, em, id, p))
  }

  lemma AttendedStill(st: State, x: Emission, y: Emission, id: LinkId)
    requires id in st.links && Attended(st, x, id) && Grown(st.cfg, x, y)
    ensures Attended(st, y, id)
  {
    hide Told, HelloOf, IHUOf;
    forall p | p in st.selected && Told(st, x, id, p) ensures Told(st, y, id, p) {
      ToldStill(st, x, y, id, p);
    }
    assert forall m :: id in x.out && m in x.out[id] ==> id in y.out && m in y.out[id];
  }

  /** A due timer is set ahead by one interval at most; the others stay. */
  predicate Rescheduled(c: Chore, cfg: LiveConfig, now: int, l: LinkState, m: LinkState) {
    if Next(c, l) > now then Next(c, m) == Next(c, l) else now < Next(c, m) <= now + Every(c, cfg, l)
  }

  lemma HelloDone(st: State, id: LinkId, y: State)
    requires id in st.links && y == HelloTimer(st, id)
    ensures id in y.links && Retimed(st.links[id], y.links[id])
    ensures Rescheduled(Greeting, st.cfg, st.now, st.links[id], y.links[id])
    ensures y.links[id].nextIHU == st.links[id].nextIHU && y.links[id].nextUpdate == st.links[id].nextUpdate
    ensures st.links[id].nextHello <= st.now ==> id in y.em.out && HelloOf(st.cfg, st.links[id]) in y.em.out[id]
  {
    hide HelloTimer, HelloInterval, Centis, WireTime, BoundedLink;
    HelloTimerLinks(st, id);
    if st.links[id].nextHello <= st.now {
      HelloCadence(st, id);
    } else {
      NoHello(st, id);
    }
  }

  lemma NoHello(st: State, id: LinkId)
    requires id in st.links && st.links[id].nextHello > st.now
    ensures HelloTimer(st, id) == st
  {
  }

  lemma IHUDone(st: State, id: LinkId, y: State)
    requires id in st.links && y == IHUTimer(st, id)
    ensures id in y.links && Retimed(st.links[id], y.links[id])
    ensures Rescheduled(Reporting, st.cfg, st.now, st.links[id], y.links[id])
    ensures y.links[id].nextHello == st.links[id].nextHello && y.links[id].nextUpdate == st.links[id].nextUpdate
    ensures st.links[id].nextIHU <= st.now ==> id in y.em.out && IHUOf(st.cfg, st.links[id], st.now) in y.em.out[id]
  {
    hide IHUTimer, HelloInterval, Centis, WireTime, Rules.Heard, BoundedLink;
    IHUTimerLinks(st, id);
    if st.links[id].nextIHU <= st.now {
      IHUCadence(st, id);
    } else {
      NoIHU(st, id);
    }
  }

  lemma NoIHU(st: State, id: LinkId)
    requires id in st.links && st.links[id].nextIHU > st.now
    ensures IHUTimer(st, id) == st
  {
  }

  lemma UpdateDone(st: State, id: LinkId, y: State)
    requires id in st.links && y == UpdateTimer(st, id)
    ensures id in y.links && Retimed(st.links[id], y.links[id])
    ensures Rescheduled(Refreshing, st.cfg, st.now, st.links[id], y.links[id])
    ensures y.links[id].nextHello == st.links[id].nextHello && y.links[id].nextIHU == st.links[id].nextIHU
    ensures st.links[id].nextUpdate <= st.now ==> forall p :: p in st.selected ==> Told(st, y.em, id, p)
  {
    if st.links[id].nextUpdate <= st.now {
      UpdateTold(st, id, y);
    } else {
      NoUpdate(st, id);
    }
    hide UpdateTimer, Told;
    UpdateTimerLinks(st, id);
  }

  lemma NoUpdate(st: State, id: LinkId)
    requires id in st.links && st.links[id].nextUpdate > st.now
    ensures UpdateTimer(st, id) == st
  {
  }

  lemma UpdateTold(st: State, id: LinkId, y: State)
    requires id in st.links && st.links[id].nextUpdate <= st.now && y == UpdateTimer(st, id)
    ensures Rescheduled(Refreshing, st.cfg, st.now, st.links[id], y.links[id])
    ensures forall p :: p in st.selected ==> Told(st, y.em, id, p)
  {
    UpdateCadence(st, id);
    hide AdvertiseAll, Told, NextRandom, Jitter, PrefixLess, BoundedLink, BoundedConfig, WireTime, Period;
    var em := Dump(st, st.em, id, false);
    AdvertiseAllTells(st, st.em, id, SortPrefixes(st.selected.Keys));
    forall p | p in st.selected ensures Told(st, y.em, id, p) {
      assert p in SortPrefixes(st.selected.Keys);
      ToldSame(st, em, y.em, id, p);
    }
  }

  /** Who is told what depends on the link's configuration only. */
  lemma ToldReads(x: State, y: State, em: Emission, id: LinkId, p: Prefix)
    requires id in x.links && id in y.links && y.links[id].link == x.links[id].link
    requires y.cfg == x.cfg && y.selected == x.selected && Told(x, em, id, p)
    ensures Told(y, em, id, p)
  {
    hide Gated, BoundedLink, BoundedConfig;
    if Reachable(x.selected, p) {
      SameAnnouncement(x.cfg, x.links[id], y.links[id], p, x.selected[p]);
    }
    hide Announcement;
  }

  lemma RetimedReads(cfg: LiveConfig, l: LinkState, m: LinkState, now: int)
    requires Retimed(l, m)
    ensures IHUOf(cfg, m, now) == IHUOf(cfg, l, now) && m.link == l.link && m.dumped == l.dumped
    ensures m.lastDump == l.lastDump
    ensures Every(Greeting, cfg, m) == Every(Greeting, cfg, l) && Every(Reporting, cfg, m) == Every(Reporting, cfg, l)
  {
    hide BoundedLink;
  }

  lemma RetimedTransitive(l: LinkState, m: LinkState, n: LinkState)
    requires Retimed(l, m) && Retimed(m, n)
    ensures Retimed(l, n)
  {
    hide BoundedLink;
  }

  ghost predicate AllRescheduled(cfg: LiveConfig, now: int, l: LinkState, m: LinkState) {
    Retimed(l, m) && forall c: Chore :: Rescheduled(c, cfg, now, l, m)
  }

  lemma LinkServed(st: State, id: LinkId, y: State)
    requires id in st.links && y == LinkTimers(st, id)
    ensures id in y.links && AllRescheduled(st.cfg, st.now, st.links[id], y.links[id]) && Attended(st, y.em, id)
  {
    hide HelloTimer, IHUTimer, UpdateTimer, Told, Grown, HelloOf, IHUOf, HelloInterval, Retimed;
    var a := HelloTimer(st, id);
    var b := IHUTimer(a, id);
    HelloDone(st, id, a);
    HelloTimerFrame(st, id);
    IHUDone(a, id, b);
    IHUTimerFrame(a, id);
    UpdateDone(b, id, y);
    IHUGrows(a, id);
    UpdateGrows(b, id);
    var l, k, m, n := st.links[id], a.links[id], b.links[id], y.links[id];
    RetimedReads(st.cfg, l, k, st.now);
    RetimedReads(st.cfg, k, m, st.now);
    RetimedTransitive(l, k, m);
    RetimedTransitive(l, m, n);
    ServedThrice(st, a, b, y, id);
  }

  lemma ServedThrice(st: State, a: State, b: State, y: State, id: LinkId)
    requires id in st.links && id in b.links && b.links[id].link == st.links[id].link
    requires b.cfg == st.cfg && b.selected == st.selected
    requires Grown(st.cfg, a.em, b.em) && Grown(st.cfg, b.em, y.em)
    requires st.links[id].nextHello <= st.now ==> id in a.em.out && HelloOf(st.cfg, st.links[id]) in a.em.out[id]
    requires st.links[id].nextIHU <= st.now ==> id in b.em.out && IHUOf(st.cfg, st.links[id], st.now) in b.em.out[id]
    requires st.links[id].nextUpdate <= st.now ==> forall p :: p in st.selected ==> Told(b, y.em, id, p)
    ensures Attended(st, y.em, id)
  {
    hide Told, HelloOf, IHUOf;
    if st.links[id].nextUpdate <= st.now {
      forall p | p in st.selected ensures Told(st, y.em, id, p) {
        ToldReads(b, st, y.em, id, p);
      }
    }
  }

  lemma AttendedReads(x: State, y: State, em: Emission, id: LinkId)
    requires id in x.links && id in y.links && y.links[id] == x.links[id]
    requires y.cfg == x.cfg && y.now == x.now && y.selected == x.selected && Attended(x, em, id)
    ensures Attended(y, em, id)
  {
    hide Told, HelloOf, IHUOf;
    forall p | p in x.selected && Told(x, em, id, p) ensures Told(y, em, id, p) {
      ToldReads(x, y, em, id, p);
    }
  }

  lemma {:induction false} LinksUntouched(b: State, ids: seq<LinkId>, id: LinkId)
    requires id in b.links && id !in ids
    ensures var y := AllLinkTimers(b, ids); id in y.links && y.links[id] == b.links[id]
  {
    hide LinkTimers;
    if ids != [] {
      var n := |ids| - 1;
      LinksUntouched(b, ids[..n], id);
      LinkTimersLinks(AllLinkTimers(b, ids[..n]), ids[n]);
    }
  }

  lemma {:induction false} AllServed(b: State, ids: seq<LinkId>, id: LinkId, y: State)
    requires id in b.links && id in ids && Requests.Distinct(ids) && y == AllLinkTimers(b, ids)
    ensures id in y.links && AllRescheduled(b.cfg, b.now, b.links[id], y.links[id]) && Attended(b, y.em, id)
  {
    hide LinkTimers, Attended, AllRescheduled, Grown, Retimed, Ticked;
    var n := |ids| - 1;
    var x := AllLinkTimers(b, ids[..n]);
    AllLinkTimersFrame(b, ids[..n]);
    LinkTimersLinks(x, ids[n]);
    LinkTimersGrow(x, ids[n]);
    if id == ids[n] {
      LinksUntouched(b, ids[..n], id);
      LinkServed(x, id, y);
      AttendedReads(x, b, y.em, id);
    } else {
      AllServed(b, ids[..n], id, x);
      AttendedStill(b, x.em, y.em, id);
    }
  }

  /** All timers of a step. */
  lemma TimersServe(b: State, w: State, id: LinkId)
    requires id in b.links && w == Timers(b)
    ensures id in w.links && AllRescheduled(b.cfg, b.now, b.links[id], w.links[id]) && Attended(b, w.em, id)
    ensures w.selected == b.selected && w.cfg == b.cfg && w.now == b.now && w.links.Keys == b.links.Keys
  {
    hide AllLinkTimers, TriggerTimer, RequestTimer, RefreshTimer, Attended, AllRescheduled, Grown, Requests.Distinct;
    hide SortLinks;
    var ids := SortLinks(b.links.Keys);
    assert id in ids && Requests.Distinct(ids) by {
      Requests.SortedDistinct(b.links.Keys);
      assert id in SortLinks(b.links.Keys);
    }
    var a := AllLinkTimers(b, ids);
    AllServed(b, ids, id, a);
    AllLinkTimersFrame(b, ids);
    var c := TriggerTimer(a);
    TriggerTimerFrame(a);
    TriggerGrows(a);
    LaterGrow(c, w);
    AttendedStill(b, a.em, c.em, id);
    AttendedStill(b, c.em, w.em, id);
    TimersFrame(b);
  }

  // ---------------------------------------------------------------------- steps

  /** The packets of a step do the chore for the link, which was l before it. */
  ghost predicate Served(c: Chore, l: LinkState, y: State, packets: seq<Datagram>, id: LinkId)
    requires id in y.links
  {
    match c
    case Greeting => Delivers(packets, id, HelloOf(y.cfg, l))
    case Reporting => Delivers(packets, id, IHUOf(y.cfg, y.links[id], y.now))
    case Refreshing => forall p :: p in y.selected ==> Informed(y, packets, id, p)
  }

  lemma AttendedServed(b: State, w: State, id: LinkId, c: Chore)
    requires id in b.links && id in w.links && Retimed(b.links[id], w.links[id]) && Attended(b, w.em, id)
    requires w.cfg == b.cfg && w.selected == b.selected && w.now == b.now && Next(c, b.links[id]) <= b.now
    ensures Served(c, b.links[id], w, Packets(w), id)
  {
    hide Told, Packets, Informed, Delivers, HelloOf, IHUOf, Retimed;
    RetimedReads(b.cfg, b.links[id], w.links[id], b.now);
    match c
    case Greeting => QueuedDelivered(w.em.out, w, id, HelloOf(b.cfg, b.links[id]));
    case Reporting => QueuedDelivered(w.em.out, w, id, IHUOf(b.cfg, b.links[id], b.now));
    case Refreshing =>
      forall p | p in w.selected ensures Informed(w, Packets(w), id, p) {
        ToldInformed(b, w.em, w, id, p);
      }
  }

  lemma UntimedReads(cfg: LiveConfig, l: LinkState, k: LinkState)
    requires Untimed(l, k)
    ensures HelloOf(cfg, k) == HelloOf(cfg, l)
    ensures forall c: Chore :: Every(c, cfg, k) == Every(c, cfg, l) && Next(c, k) == Next(c, l)
  {
    hide BoundedLink, BoundedConfig, Centis;
  }

  /** What a step does for a link: due chores are done and set ahead, wildcard requests answered at their pace. */
  ghost predicate Looked(l: LinkState, y: State, packets: seq<Datagram>, id: LinkId) {
    && id in y.links
    && y.links[id].link.helloInterval == l.link.helloInterval
    && Paced(l, y.links[id], y.now, HelloInterval(y.cfg, l))
    && forall c: Chore ::
         Rescheduled(c, y.cfg, y.now, l, y.links[id]) && (Next(c, l) <= y.now ==> Served(c, l, y, packets, id))
  }

  lemma SameRescheduled(c: Chore, cfg: LiveConfig, now: int, l: LinkState, k: LinkState, m: LinkState)
    requires Untimed(l, k) && Rescheduled(c, cfg, now, k, m)
    ensures Rescheduled(c, cfg, now, l, m)
  {
    hide HelloInterval;
    UntimedReads(cfg, l, k);
  }

  lemma WorkLooks(l: LinkState, b: State, w: State, id: LinkId)
    requires id in b.links && Tended(b.cfg, b.now, l, b.links[id]) && w == Timers(b)
    ensures Looked(l, w, Packets(w), id)
  {
    hide Timers, Attended, Packets, Served, HelloInterval, Retimed, Rescheduled;
    TimersServe(b, w, id);
    RetimedReads(b.cfg, b.links[id], w.links[id], b.now);
    forall c: Chore
      ensures Rescheduled(c, w.cfg, w.now, l, w.links[id]) && (Next(c, l) <= w.now ==> Served(c, l, w, Packets(w), id))
    {
      SameRescheduled(c, b.cfg, b.now, l, b.links[id], w.links[id]);
      if Next(c, l) <= w.now {
        AttendedServed(b, w, id, c);
        SameServed(c, l, b.links[id], w, Packets(w), id);
      }
    }
  }

  lemma SameServed(c: Chore, l: LinkState, k: LinkState, w: State, packets: seq<Datagram>, id: LinkId)
    requires id in w.links && Served(c, k, w, packets, id) && Untimed(l, k)
    ensures Served(c, l, w, packets, id)
  {
    hide Delivers, Informed, HelloOf, IHUOf;
    UntimedReads(w.cfg, l, k);
  }

  lemma SameLooked(l: LinkState, w: State, y: State, packets: seq<Datagram>, id: LinkId)
    requires Looked(l, w, packets, id)
    requires y.cfg == w.cfg && y.links == w.links && y.selected == w.selected && y.em.sources == w.em.sources
    requires y.now == w.now
    ensures Looked(l, y, packets, id)
  {
    hide HelloInterval, Delivers, Informed, HelloOf, IHUOf, Paced, Rescheduled;
    forall c: Chore | Next(c, l) <= y.now ensures Served(c, l, y, packets, id) {
      forall p | p in w.selected && Informed(w, packets, id, p) ensures Informed(y, packets, id, p) {
        SameInformed(w, y, packets, id, p);
      }
      assert Served(c, l, w, packets, id);
    }
  }

  /** A link that is there after a step was not removed by it, nor added under its number. */
  lemma LinkStays(st: State, event: Event, a: State, id: LinkId)
    requires Admitted(st, event) && a == Apply(st, event) && id in st.links && id <= st.lastLink && id in a.links
    requires event.AddLink? ==> BoundedLink(event.link)
    requires event.SetCost? ==> event.cost != 0
    ensures event.AddLink? ==> event.link.id != id
    ensures event.RemoveLink? ==> event.id != id
  {
    hide ReceiveAll, BoundedLink, Queue, NewLink, ClosedRoutes, RoutablePrefix;
  }

  lemma BeforeLooks(st: State, now: int, event: Event, b: State, id: LinkId)
    requires Valid(st) && Validate(st, event).None? && id in st.links
    requires b == SelectRoutes(Apply(Begin(st, now), event)) && id in b.links
    ensures b.now == now && b.cfg == st.cfg && Tended(st.cfg, now, st.links[id], b.links[id])
  {
    hide Valid, Validate, Apply, SelectRoutes, Tended, AgedRoutes, LiveSources, LiveRequests, BoundedLink;
    hide RoutablePrefix;
    ValidateAdmits(st, now, event);
    var x := Begin(st, now);
    var a := Apply(x, event);
    Progress.SelectRoutesFrame(a);
    assert id <= st.lastLink by { ValidSound(st); SoundNumbers(st, id); }
    LinkStays(x, event, a, id);
    ApplyKeeps(x, event, id);
  }

  lemma SoundNumbers(st: State, id: LinkId)
    requires Sound(st) && id in st.links
    ensures id <= st.lastLink
  {
    hide LocalOk, RoutesOk, SelectedOk, DropsOk, RequestsOk, SourcesOk, Room;
  }

  lemma StepLooks(st: State, now: int, event: Event, y: State, r: Result<Effects>, id: LinkId)
    requires Valid(st) && Refusal(st, now, event).None? && Decoded(event) && (y, r) == Step(st, now, event)
    requires id in st.links && id in y.links
    ensures r.Ok? && y.now == now && y.cfg == st.cfg
    ensures Looked(st.links[id], y, Release.Produced(y, r.value), id)
  {
    hide Valid, Refusal, Decoded, Validate, Step, Work, Packets, Looked, Tended, Release.Produced;
    hide Timers, SelectRoutes, Apply, Begin;
    Release.StepProduces(st, now, event, y, r);
    TwoPhase.StepForward(st, now, event, y, r);
    ValidateAdmits(st, now, event);
    var b := SelectRoutes(Apply(Begin(st, now), event));
    var w := Work(st, now, event);
    assert w == Timers(b) by { WorkTimers(st, now, event, b); }
    TimersLinks(b);
    BeforeLooks(st, now, event, b, id);
    WorkLooks(st.links[id], b, w, id);
    SameLooked(st.links[id], w, y, Packets(w), id);
  }

  lemma TimersLinks(b: State)
    ensures Timers(b).links.Keys == b.links.Keys
  {
    hide AllLinkTimers, TriggerTimer, RequestTimer, RefreshTimer, SortLinks;
    var a := AllLinkTimers(b, SortLinks(b.links.Keys));
    AllLinkTimersFrame(b, SortLinks(b.links.Keys));
    TriggerTimerFrame(a);
    RequestTimerFrame(TriggerTimer(a));
    RefreshTimerFrame(RequestTimer(TriggerTimer(a)));
  }
}
