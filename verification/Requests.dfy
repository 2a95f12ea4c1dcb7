/**
 Sequence-number requests (sections 3.8.1.2 and 3.8.2.1 of RFC 8966): what a pending
 request may still ask for, how far it travels, and why its answer ends starvation.
 */
module Requests {
  import opened Arithmetic
  import opened Types
  import opened Sorting
  import opened Rules
  import opened Steps
  import opened Soundness
  import opened Progress
  import opened Selection
  import opened Invariant
  import opened Rest
  import Contentment
  import Provenance
  import opened Traces
  import TwoPhase

  // ------------------------------------------------------------------ forwarding

  /** A forwarded request: one link, not the sender's, and one hop less to go. */
  predicate Narrowed(st: State, y: State, from: LinkId, m: Message, id: LinkId)
    requires m.SeqRequest? && m.hopCount >= 1
  {
    && id != from
    && y.em.out == Queue(st.links, st.em.out, id, SeqRequest(m.prefix, m.routerId, m.seqno, m.hopCount - 1))
    && m.hopCount - 1 >= 1
  }

  lemma QueueOne(links: map<LinkId, LinkState>, out: map<LinkId, seq<Message>>, id: LinkId, m: Message)
    ensures QueueAll(links, out, SortLinks({id}), m) == Queue(links, out, id, m)
  {
    hide Queue, LinkLess;
    var s := SortLinks({id});
    assert s[0] in s && s[0] == id;
    assert s == [id] && s[..0] == [];
    assert QueueAll(links, out, [], m) == out;
  }

  lemma AskOne(st: State, sk: SourceKey, seqno: u16, id: LinkId, from: LinkId, hops: u8)
    ensures var y := Ask(st, sk, seqno, {id}, from, hops);
            y == st || y.em.out == Queue(st.links, st.em.out, id, SeqRequest(sk.prefix, sk.id, seqno, hops))
  {
    hide Queue, AtLeast;
    QueueOne(st.links, st.em.out, id, SeqRequest(sk.prefix, sk.id, seqno, hops));
  }

  /** Forwarding either does nothing or narrows the request to one other link. */
  lemma ForwardNarrows(st: State, from: LinkId, m: Message)
    requires m.SeqRequest?
    ensures var y := Forward(st, from, m);
            y == st || (m.hopCount >= 2 && exists id :: Narrowed(st, y, from, m, id))
  {
    hide Advertised, Queue, MetricAt, FeasibleAt, RelayPreferred, Ask;
    var y := Forward(st, from, m);
    if y != st {
      var k :| IsBestRelay(st, m.prefix, from, k)
               && y == Ask(st, SourceKey(m.prefix, m.routerId), m.seqno, {k.link}, from, m.hopCount - 1);
      AskOne(st, SourceKey(m.prefix, m.routerId), m.seqno, k.link, from, m.hopCount - 1);
      assert Relay(st, m.prefix, from, k);
      assert Narrowed(st, y, from, m, k.link);
    }
  }

  /** A router does not forward requests for its own origin, nor for prefixes it never advertised. */
  lemma ForwardRefuses(st: State, from: LinkId, m: Message)
    requires m.SeqRequest?
    requires m.routerId == st.cfg.routerId || m.hopCount < 2 || forall sk :: sk in st.em.sources ==>
        sk.prefix != m.prefix
    ensures Forward(st, from, m) == st
  {
    hide IsBestRelay, Ask;
  }

  // A router's forwarding of a request m from one link: what it sends on, and where.
  datatype Hop = Hop(st: State, from: LinkId, m: Message, to: LinkId, sent: Message)

  ghost predicate IsHop(h: Hop) {
    && h.m.SeqRequest? && h.sent.SeqRequest?
    && var y := Forward(h.st, h.from, h.m);
       y != h.st && y.em.out == Queue(h.st.links, h.st.em.out, h.to, h.sent) && h.to in h.st.links
  }

  /** A request on its way: each router forwards what the one before it sent. */
  ghost predicate IsChain(hops: seq<Hop>) {
    && (forall i :: 0 <= i < |hops| ==> IsHop(hops[i]))
    && (forall i :: 0 <= i < |hops| - 1 ==> hops[i + 1].m == hops[i].sent)
  }

  /** Appending one message to a live link's queue tells the link and the message. */
  lemma QueueTells(links: map<LinkId, LinkState>, out: map<LinkId, seq<Message>>, a: LinkId, x: Message, b: LinkId,
      y: Message)
    requires a in links && Queue(links, out, a, x) == Queue(links, out, b, y)
    ensures x.SeqRequest? && y.SeqRequest? ==> a == b && x == y
  {
    assert Queue(links, out, a, x)[a] == Queued(out, a) + [x];
    if a == b {
      assert (Queued(out, a) + [x])[|Queued(out, a)|] == (Queued(out, a) + [y])[|Queued(out, a)|];
    } else {
      assert |Queue(links, out, b, y)[a]| == |Queued(out, a)|;
    }
  }

  lemma HopNarrows(h: Hop)
    requires IsHop(h)
    ensures h.to != h.from && h.m.hopCount >= 2
    ensures h.sent == SeqRequest(h.m.prefix, h.m.routerId, h.m.seqno, h.m.hopCount - 1)
  {
    hide Forward, Queue;
    ForwardNarrows(h.st, h.from, h.m);
    var y := Forward(h.st, h.from, h.m);
    var id :| Narrowed(h.st, y, h.from, h.m, id);
    QueueTells(h.st.links, h.st.em.out, h.to, h.sent, id,
        SeqRequest(h.m.prefix, h.m.routerId, h.m.seqno, h.m.hopCount - 1));
  }

  /**
   A request dies out.  However routers forward it, and around whatever circle, its hop count
   falls by one at each, it never goes back over the link it came by, it keeps asking for the
   same sequence number of the same source, and it is forwarded fewer times than the hop
   count it started with.
   */
  lemma {:induction false} ChainEnds(hops: seq<Hop>)
    requires hops != [] && IsChain(hops)
    ensures |hops| < hops[0].m.hopCount
    ensures forall i :: 0 <= i < |hops| ==>
              && hops[i].to != hops[i].from
              && hops[i].sent
                 == SeqRequest(hops[0].m.prefix, hops[0].m.routerId, hops[0].m.seqno, hops[0].m.hopCount - i - 1)
  {
    hide IsHop;
    var n := |hops| - 1;
    HopNarrows(hops[n]);
    if n > 0 {
      ChainEnds(hops[..n]);
      assert hops[n].m == hops[n - 1].sent == hops[..n][n - 1].sent;
      forall i | 0 <= i < n ensures hops[..n][i] == hops[i] {
      }
    }
  }

  // -------------------------------------------------------------------- lifetime

  /** The same entry, as its timer may have left it. */
  predicate SameEntry(q: Pending, r: Pending) {
    r == q.(next := r.next, remaining := r.remaining)
  }

  predicate Distinct(ids: seq<LinkId>) { forall i, j :: 0 <= i < j < |ids| ==> ids[i] != ids[j] }

  /** A new entry: two more sends to distinct targets, the next in a second, and four seconds to live. */
  predicate NewEntry(now: int, q: Pending) {
    q.remaining == 2 && q.next == now + SECOND && q.expires == now + 4 * SECOND && Distinct(q.targets)
  }

  /** The entry as it was, or with one send spent because it was due. */
  predicate Spent(q: Pending, r: Pending, now: int) {
    r == q || (q.remaining > 0 && q.next <= now && r == Resent(q, now))
  }

  /** Every entry of y was in x, or was and has been sent again, or is new. */
  predicate Aging(x: State, y: State) {
    forall sk :: sk in y.requests ==>
      (sk in x.requests && Spent(x.requests[sk], y.requests[sk], y.now)) || NewEntry(y.now, y.requests[sk])
  }

  lemma AgingTransitive(x: State, y: State, z: State)
    requires Aging(x, y) && Aging(y, z) && y.now == z.now
    ensures Aging(x, z)
  {
  }

  lemma SortedDistinct(s: set<LinkId>)
    ensures Distinct(SortLinks(s))
  {
    var ids := SortLinks(s);
    forall i, j | 0 <= i < j < |ids| ensures ids[i] != ids[j] {
      assert LinkLess(ids[i], ids[j]);
    }
  }

  lemma AskAging(st: State, sk: SourceKey, seqno: u16, targets: set<LinkId>, from: LinkId, hops: u8)
    ensures Aging(st, Ask(st, sk, seqno, targets, from, hops))
  {
    hide AtLeast, QueueAll, SortLinks, Distinct;
    SortedDistinct(targets);
  }

  lemma LoseAging(st: State, next: map<Prefix, Route>, p: Prefix)
    ensures Aging(st, Lose(st, next, p)) && Lose(st, next, p).now == st.now
  {
    hide Lost, LossTargets, Ask, ScheduleTrigger, Aging;
    AgingNone(st, st);
    AgingNone(st, Suppress(st, p));
    if Lost(st, next, p) {
      LoseFrame(st, next, p);
      LostSelected(st, next, p);
      var sk := SourceKey(p, st.selected[p].routerId);
      if sk in st.em.sources {
        AskAging(Suppress(st, p), sk, NextSeqno(st.em.sources[sk].seqno), LossTargets(st, p), 0, 64);
        AgingFrom(st, Suppress(st, p),
            Ask(Suppress(st, p), sk, NextSeqno(st.em.sources[sk].seqno), LossTargets(st, p), 0, 64));
      }
    }
  }

  lemma AgingFrom(x: State, y: State, z: State)
    requires x.requests == y.requests && Aging(y, z)
    ensures Aging(x, z)
  {
  }

  lemma AgingNone(x: State, y: State)
    requires y.requests == x.requests
    ensures Aging(x, y)
  {
  }

  lemma {:induction false} LoseAllAging(st: State, next: map<Prefix, Route>, ps: seq<Prefix>)
    ensures Aging(st, LoseAll(st, next, ps)) && LoseAll(st, next, ps).now == st.now
  {
    hide Lose, Aging;
    if ps == [] {
      AgingNone(st, st);
    } else {
      var n := |ps| - 1;
      var x := LoseAll(st, next, ps[..n]);
      LoseAllAging(st, next, ps[..n]);
      LoseAging(x, next, ps[n]);
      AgingTransitive(st, x, LoseAll(st, next, ps));
    }
  }

  lemma FewerAging(x: State, y: State)
    requires forall sk :: sk in y.requests ==> sk in x.requests && y.requests[sk] == x.requests[sk]
    ensures Aging(x, y)
  {
  }

  lemma SelectRoutesAging(st: State)
    ensures Aging(st, SelectRoutes(st)) && SelectRoutes(st).now == st.now
  {
    hide Choice, LoseAll, Aging, Answer, LiveDrops, WithDrops, Announce, Settled, SortPrefixes, SortSourceKeys;
    var next := Choice(st);
    var x := LoseAll(st, next, SortPrefixes(st.selected.Keys));
    LoseAllAging(st, next, SortPrefixes(st.selected.Keys));
    SelectRoutesFrame(st);
    FewerAging(x, SelectRoutes(st));
    AgingTransitive(st, x, SelectRoutes(st));
  }

  lemma SameClock(st: State, id: LinkId, m: Message)
    requires id in st.links
    ensures ReceiveMessage(st, id, m).now == st.now
  {
    hide ReceiveMessage;
    Provenance.MessageDerived(st, id, m);
  }

  lemma UpdateAging(st: State, id: LinkId, m: Message)
    requires id in st.links && m.Update?
    ensures Aging(st, ReceiveUpdate(st, id, m))
  {
    hide Admissible, HasRoom, Ask, WantsFresh, Feasible, Aging, ScheduleTrigger;
    var x := Learn(st, id, m);
    AgingNone(st, st);
    AgingNone(st, ReceiveUpdate(st, id, m).(requests := st.requests));
    AgingNone(st, x);
    var sk := SourceKey(m.prefix, m.routerId);
    if sk in x.em.sources {
      AskAging(x, sk, NextSeqno(x.em.sources[sk].seqno), {id}, 0, 64);
      AgingFrom(st, x, Ask(x, sk, NextSeqno(x.em.sources[sk].seqno), {id}, 0, 64));
    } else {
      assert Feasible(x.em.sources, m.prefix, NewCandidate(st, m)) by {
        UnknownFeasible(x.em.sources, m.prefix, NewCandidate(st, m));
      }
    }
    UpdateRequests(st, id, m);
  }

  lemma UpdateRequests(st: State, id: LinkId, m: Message)
    requires id in st.links && m.Update?
    ensures m.metric == INFINITY || !Admissible(st, id, m) || !HasRoom(st, RouteKey(m.prefix, id)) ==>
              ReceiveUpdate(st, id, m).requests == st.requests
  {
    hide Admissible, HasRoom, AcceptUpdate;
  }

  lemma RenewAging(st: State, from: LinkId, p: Prefix)
    ensures Aging(st, Renew(st, from, p))
  {
    hide SelectRoutes, Advertise, Aging;
    var x := st.(seqno := NextSeqno(st.seqno));
    SelectRoutesAging(x);
    AgingFrom(st, x, SelectRoutes(x));
    AgingNone(SelectRoutes(x), Renew(st, from, p));
    AgingTransitive(st, SelectRoutes(x), Renew(st, from, p));
    SelectRoutesFrame(x);
  }

  lemma ForwardAging(st: State, from: LinkId, m: Message)
    requires m.SeqRequest?
    ensures Aging(st, Forward(st, from, m))
  {
    hide Advertised, IsBestRelay, Ask, Aging;
    AgingNone(st, st);
    var y := Forward(st, from, m);
    if y != st {
      var k :| IsBestRelay(st, m.prefix, from, k)
               && y == Ask(st, SourceKey(m.prefix, m.routerId), m.seqno, {k.link}, from, m.hopCount - 1);
      AskAging(st, SourceKey(m.prefix, m.routerId), m.seqno, {k.link}, from, m.hopCount - 1);
    }
  }

  lemma SeqRequestAging(st: State, from: LinkId, m: Message)
    requires m.SeqRequest?
    ensures Aging(st, ReceiveSeqRequest(st, from, m))
  {
    hide Renew, Advertise, Forward, AtLeast, Aging;
    RenewAging(st, from, m.prefix);
    ForwardAging(st, from, m);
    AgingNone(st, st.(em := Advertise(st, st.em, from, m.prefix, true)));
  }

  lemma PlainRequests(st: State, id: LinkId, m: Message)
    requires id in st.links && !m.Update? && !m.SeqRequest?
    ensures ReceiveMessage(st, id, m).requests == st.requests
  {
    hide ReceiveMessage;
    if m.Hello? || m.IHU? {
      HearFrame(st, id, m);
    } else if m.WildcardUpdate? {
      WildcardRequests(st, id);
    } else {
      RequestFrame(st, id, m);
    }
  }

  lemma WildcardRequests(st: State, id: LinkId)
    requires id in st.links
    ensures ReceiveMessage(st, id, WildcardUpdate).requests == st.requests
  {
    hide RetractedRoutes;
  }

  lemma MessageAging(st: State, id: LinkId, m: Message)
    requires id in st.links
    ensures Aging(st, ReceiveMessage(st, id, m))
  {
    if m.Update? {
      UpdateAging(st, id, m);
    } else if m.SeqRequest? {
      SeqRequestAging(st, id, m);
    } else {
      hide ReceiveMessage, Aging;
      PlainRequests(st, id, m);
      AgingNone(st, ReceiveMessage(st, id, m));
    }
  }

  lemma OneAging(st: State, id: LinkId, m: Message)
    ensures Aging(st, ReceiveOne(st, id, m)) && ReceiveOne(st, id, m).now == st.now
  {
    hide SelectRoutes, ReceiveMessage, Aging;
    SelectRoutesAging(st);
    AgingNone(st, st);
    var x := if Asks(m) then SelectRoutes(st) else st;
    if id in x.links {
      MessageAging(x, id, m);
      SameClock(x, id, m);
      AgingTransitive(st, x, ReceiveOne(st, id, m));
    }
  }

  lemma {:induction false} ReceiveAllAging(st: State, id: LinkId, ms: seq<Message>)
    ensures Aging(st, ReceiveAll(st, id, ms)) && ReceiveAll(st, id, ms).now == st.now
  {
    hide ReceiveOne, Aging;
    if ms == [] {
      AgingNone(st, st);
    } else {
      var n := |ms| - 1;
      var x := ReceiveAll(st, id, ms[..n]);
      ReceiveAllAging(st, id, ms[..n]);
      OneAging(x, id, ms[n]);
      AgingTransitive(st, x, ReceiveAll(st, id, ms));
    }
  }

  lemma ApplyAging(st: State, event: Event)
    requires event.AddLink? ==> BoundedLink(event.link)
    requires event.SetCost? ==> event.cost != 0
    ensures Aging(st, Apply(st, event)) && Apply(st, event).now == st.now
  {
    hide ReceiveAll, BoundedLink, Queue, NewLink, ClosedRoutes, Aging;
    AgingNone(st, st);
    AgingNone(st, Apply(st, event).(requests := st.requests));
    if event.Receive? && event.packet.decoded.Some? {
      ReceiveAllAging(st, event.id, event.packet.decoded.value);
    } else {
      AgingNone(st, Apply(st, event));
    }
  }

  lemma TimersAging(st: State)
    ensures Aging(st, Timers(st)) && Timers(st).now == st.now
  {
    hide AllLinkTimers, DumpAll, ResendOut, RefreshOut, RefreshDue, Rearm, TriggerDue, SortLinks;
    hide SortSourceKeys, SortRouteKeys;
    AllLinkTimersFrame(st, SortLinks(st.links.Keys));
  }

  /** Over a step pending requests age, and new ones are bounded. */
  lemma {:induction false} WorkAging(st: State, now: int, event: Event)
    requires Validate(st, event).None?
    ensures Aging(st, Work(st, now, event))
  {
    hide Apply, SelectRoutes, Timers, AgedRoutes, LiveSources, Validate, Aging;
    ValidateAdmits(st, now, event);
    var x := Expire(st.(now := now));
    FewerAging(st, x);
    ApplyAging(x, event);
    var a := Apply(x, event);
    SelectRoutesAging(a);
    var b := SelectRoutes(a);
    TimersAging(b);
    AgingTransitive(x, a, b);
    AgingTransitive(x, b, Timers(b));
    AgingTransitive(st, x, Timers(b));
  }

  /**
   After a completed step no pending request is settled by the route selected, each lives
   for at most four seconds more, at most two further sends are left to it, and it is an
   entry the engine had, one that was due and has been sent again, or a new one.
   */
  lemma {:induction false} PendingBounded(st: State, now: int, event: Event, y: State, r: Result<Effects>,
      sk: SourceKey)
    requires Valid(st) && Refusal(st, now, event).None? && Decoded(event) && (y, r) == Step(st, now, event)
    requires sk in Completed(y).requests
    ensures var z := Completed(y); var q := z.requests[sk];
            && !Settled(z.selected, sk, q)
            && z.now == now < q.expires <= now + 4 * SECOND && 0 <= q.remaining <= 2
            && ((sk in st.requests && Spent(st.requests[sk], q, now)) || NewEntry(now, q))
  {
    hide Valid, Refusal, Decoded, Validate, Step, Work, Settled, NewEntry, Spent, Snapshot, Packets;
    hide Completed, NothingDue, Chosen;
    StepRested(st, now, event, y, r);
    Contentment.CompletedWork(st, now, event, y, r);
    WorkAging(st, now, event);
    assert Work(st, now, event).now == now by { hide Aging; TwoPhase.WorkKeeps(st, now, event); }
    assert PendingOk(now, Completed(y).requests[sk]) by { ValidPending(Completed(y), sk); }
  }

  lemma ValidPending(st: State, sk: SourceKey)
    requires Valid(st) && sk in st.requests
    ensures PendingOk(st.now, st.requests[sk])
  {
    hide LocalOk, RoutesOk, SelectedOk, DropsOk, Room, EmissionOk, LinksOk, SelfFeasible, Anchored, PendingOk;
  }

  /** Not settled, not overdue, at most two further sends to go, each to distinct targets. */
  predicate InBounds(st: State, sk: SourceKey, q: Pending) {
    && !Settled(st.selected, sk, q) && st.now < q.expires <= st.now + 4 * SECOND
    && 0 <= q.remaining <= 2 && Distinct(q.targets)
  }

  lemma SameBounds(x: State, y: State, sk: SourceKey)
    requires sk in x.requests && InBounds(x, sk, x.requests[sk])
    requires y.selected == x.selected && y.now == x.now && y.requests == x.requests
    ensures InBounds(y, sk, y.requests[sk])
  {
  }

  lemma CommitKeepsRequests(st: State, revision: nat, success: bool)
    ensures var y := Commit(st, revision, success).0;
            y.selected == st.selected && y.now == st.now && y.requests == st.requests
  {
  }

  /** Over every run each pending request is unsettled, young and nearly spent. */
  lemma {:induction false} AlwaysBounded(t: Trace, i: nat, sk: SourceKey)
    requires IsTrace(t) && i < |t.states|
    ensures sk in t.states[i].requests ==> InBounds(t.states[i], sk, t.states[i].requests[sk])
  {
    hide IsTrace, Opens, Valid, Step, Decoded, Refusal, InBounds;
    TraceSize(t);
    if i == 0 {
      TraceOpens(t);
      OpensRequests(t.states[0]);
    } else {
      AlwaysBounded(t, i - 1, sk);
      TraceMove(t, i - 1);
      TraceValid(t, i - 1);
      var x, y := t.states[i - 1], t.states[i];
      match t.moves[i - 1]
      case StepMove(now, event) => StepBounds(x, now, event, y, t.results[i - 1], sk);
      case CommitMove(revision, success) =>
        CommitKeepsRequests(x, revision, success);
        if sk in x.requests { SameBounds(x, y, sk); }
    }
  }

  lemma OpensRequests(st: State)
    requires Opens(st)
    ensures st.requests == map[]
  {
    hide BoundedConfig, Defaulted, RestorableHistory, RestorableDrops, RestoredSources;
  }

  lemma StepBounds(x: State, now: int, event: Event, y: State, r: Result<Effects>, sk: SourceKey)
    requires Valid(x) && Decoded(event) && (y, r) == Step(x, now, event)
    requires sk in x.requests ==> InBounds(x, sk, x.requests[sk])
    ensures sk in y.requests ==> InBounds(y, sk, y.requests[sk])
  {
    hide Valid, Step, Decoded, Refusal, InBounds, Aging;
    TwoPhase.StepForward(x, now, event, y, r);
    if r.Ok? {
      var z := Completed(y);
      CommitKeepsRequests(y, y.pending, true);
      if sk in y.requests {
        PendingBounded(x, now, event, y, r, sk);
        WithinBounds(x, z, sk);
        SameBounds(z, y, sk);
      }
    }
  }

  lemma WithinBounds(x: State, z: State, sk: SourceKey)
    requires sk in z.requests && !Settled(z.selected, sk, z.requests[sk])
    requires z.now < z.requests[sk].expires <= z.now + 4 * SECOND && 0 <= z.requests[sk].remaining <= 2
    requires (sk in x.requests && Spent(x.requests[sk], z.requests[sk], z.now)) || NewEntry(z.now, z.requests[sk])
    requires sk in x.requests ==> InBounds(x, sk, x.requests[sk])
    ensures InBounds(z, sk, z.requests[sk])
  {
    hide Settled;
  }

  // --------------------------------------------------------------------- resends

  function Copies(out: map<LinkId, seq<Message>>, id: LinkId, m: Message): nat { multiset(Queued(out, id))[m] }

  lemma QueueCopies(links: map<LinkId, LinkState>, out: map<LinkId, seq<Message>>, to: LinkId, x: Message,
      id: LinkId, m: Message)
    ensures Copies(Queue(links, out, to, x), id, m)
         == Copies(out, id, m) + (if to in links && id == to && x == m then 1 else 0)
  {
    if to in links && id == to {
      var after := Queue(links, out, to, x);
      assert Queued(after, id) == Queued(out, id) + [x];
      assert multiset(Queued(after, id)) == multiset(Queued(out, id)) + multiset{x};
    }
  }

  lemma {:induction false} QueueAllCopies(links: map<LinkId, LinkState>, out: map<LinkId, seq<Message>>,
      ids: seq<LinkId>, x: Message, id: LinkId, m: Message)
    requires Distinct(ids)
    ensures Copies(QueueAll(links, out, ids, x), id, m)
         == Copies(out, id, m) + (if id in ids && id in links && x == m then 1 else 0)
  {
    hide Queue, Copies;
    if ids != [] {
      var n := |ids| - 1;
      QueueAllCopies(links, out, ids[..n], x, id, m);
      QueueCopies(links, QueueAll(links, out, ids[..n], x), ids[n], x, id, m);
      assert ids == ids[..n] + [ids[n]];
    }
  }

  /** One copy of a due request for each live target. */
  function Resends(st: State, sks: seq<SourceKey>, sk: SourceKey, id: LinkId): nat
    requires sk in st.requests
  {
    if sk in sks && ResendDue(st, sk) && id in st.requests[sk].targets && id in st.links then 1 else 0
  }

  lemma {:induction false} ResendCopies(st: State, out: map<LinkId, seq<Message>>, sks: seq<SourceKey>,
      sk: SourceKey, id: LinkId)
    requires forall k :: k in st.requests ==> Distinct(st.requests[k].targets)
    requires sk in st.requests && forall i, j :: 0 <= i < j < |sks| ==> sks[i] != sks[j]
    ensures Copies(ResendOut(st, out, sks), id, RequestMessage(sk, st.requests[sk]))
         == Copies(out, id, RequestMessage(sk, st.requests[sk])) + Resends(st, sks, sk, id)
  {
    hide QueueAll, Copies, Distinct;
    if sks != [] {
      var n := |sks| - 1;
      var q := st.requests[sk];
      ResendCopies(st, out, sks[..n], sk, id);
      assert sks == sks[..n] + [sks[n]];
      if ResendDue(st, sks[n]) {
        var p := st.requests[sks[n]];
        QueueAllCopies(st.links, ResendOut(st, out, sks[..n]), p.targets, RequestMessage(sks[n], p), id,
            RequestMessage(sk, q));
      }
    }
  }

  /** Each send of a pending request, one copy to each live target, costs it one of the sends it has left. */
  lemma {:induction false} ResendCosts(st: State, sk: SourceKey, id: LinkId)
    requires forall k :: k in st.requests ==> Distinct(st.requests[k].targets)
    requires sk in st.requests
    ensures var y, q := RequestTimer(st), st.requests[sk];
            && sk in y.requests && SameEntry(q, y.requests[sk])
            && y.requests[sk].remaining == q.remaining - (if ResendDue(st, sk) then 1 else 0)
            && Copies(y.em.out, id, RequestMessage(sk, q))
               == Copies(st.em.out, id, RequestMessage(sk, q)) + Resends(st, [sk], sk, id)
  {
    hide ResendOut, Copies, Distinct, SourceKeyLess, RequestMessage;
    var sks := SortSourceKeys(st.requests.Keys);
    Orders();
    forall i, j | 0 <= i < j < |sks| ensures sks[i] != sks[j] {
      assert SourceKeyLess(sks[i], sks[j]);
    }
    ResendCopies(st, st.em.out, sks, sk, id);
  }

  // ------------------------------------------------------------------- starvation

  /** Metrics add up strictly and monotonically below infinity. */
  lemma SumStrict(a: u16, b: u16, cost: u16)
    requires cost >= 1 && a <= b
    ensures Sum(a, cost) <= Sum(b, cost) && Sum(cost, a) <= Sum(cost, b)
    ensures Sum(a, cost) != INFINITY ==> a < Sum(a, cost)
    ensures Sum(a, cost) == INFINITY <==> a + cost >= INFINITY
  {
  }

  /** The sequence number asked for is newer than the one recorded, also where it wraps. */
  lemma NextNewer(s: u16)
    ensures Newer(NextSeqno(s), s) && !AtLeast(s, NextSeqno(s))
  {
  }

  /**
   An update that carries the sequence number asked for is feasible whatever its metric,
   as long as the recorded one has not moved.
   */
  lemma AnswerFeasible(st: State, id: LinkId, m: Message)
    requires id in st.links && FiniteUpdate(m) && Admissible(st, id, m) && HasRoom(st, RouteKey(m.prefix, id))
    requires var sk := SourceKey(m.prefix, m.routerId);
             sk in st.em.sources && m.seqno == NextSeqno(st.em.sources[sk].seqno)
    ensures var y := ReceiveUpdate(st, id, m); var k := RouteKey(m.prefix, id);
            && k in y.routes && y.routes[k].Dist() == Distance(m.seqno, m.metric)
            && Feasible(y.em.sources, m.prefix, y.routes[k])
  {
    hide Admissible, HasRoom, WantsFresh, Ask, ScheduleTrigger;
    ReceiveUpdateFrame(st, id, m);
    assert ReceiveUpdate(st, id, m) == AcceptUpdate(st, id, m);
    Provenance.AcceptRoutes(st, id, m);
    NextNewer(st.em.sources[SourceKey(m.prefix, m.routerId)].seqno);
  }

  /** An infeasible update for a prefix without a route makes the engine ask for the next sequence number. */
  lemma StarvingAsks(st: State, id: LinkId, m: Message)
    requires id in st.links && FiniteUpdate(m) && Admissible(st, id, m) && HasRoom(st, RouteKey(m.prefix, id))
    requires !Feasible(st.em.sources, m.prefix, NewCandidate(st, m)) && !Reachable(st.selected, m.prefix)
    requires SourceKey(m.prefix, m.routerId) in st.requests || |st.requests| < st.cfg.maxRequests
    ensures var sk := SourceKey(m.prefix, m.routerId); var y := ReceiveUpdate(st, id, m);
            && sk in st.em.sources && sk in y.requests
            && AtLeast(y.requests[sk].seqno, NextSeqno(st.em.sources[sk].seqno))
  {
    hide Admissible, HasRoom, QueueAll, ScheduleTrigger, SortLinks, Newer, MetricAt;
    var sk := SourceKey(m.prefix, m.routerId);
    var x := Learn(st, id, m);
    assert x.em.sources == st.em.sources && x.requests == st.requests && x.selected == st.selected && x.cfg == st.cfg;
  }
}
