/**
 The entries for sequence numbers that a step makes, counted one by one, and the copies it
 queues for them: one to each target.
 */
module Tally {
  import opened Arithmetic
  import opened Types
  import opened Sorting
  import opened Rules
  import opened Steps
  import opened Soundness
  import opened Progress
  import opened Selection
  import opened Invariant
  import opened Rest
  import opened Requests

  function KeyOf(m: Message): SourceKey
    requires m.SeqRequest?
  {
    SourceKey(m.prefix, m.routerId)
  }

  /** A pending entry sends m to the link id. */
  predicate Asking(st: State, id: LinkId, m: Message)
    requires m.SeqRequest?
  {
    var sk := KeyOf(m);
    sk in st.requests && RequestMessage(sk, st.requests[sk]) == m && id in st.requests[sk].targets
  }

  /** The sends of m to the link id that its timer still has to make. */
  function Left(st: State, id: LinkId, m: Message): nat
    requires m.SeqRequest?
  {
    if Asking(st, id, m) && st.requests[KeyOf(m)].remaining > 0 then st.requests[KeyOf(m)].remaining else 0
  }

  /** From x to y an entry that sends m to id was made. */
  predicate Made(x: State, y: State, id: LinkId, m: Message)
    requires m.SeqRequest?
  {
    Asking(y, id, m) && !(KeyOf(m) in x.requests && x.requests[KeyOf(m)] == y.requests[KeyOf(m)])
  }

  function Makes(x: State, y: State, id: LinkId, m: Message): nat
    requires m.SeqRequest?
  {
    if Made(x, y, id, m) then 1 else 0
  }

  // ------------------------------------------- the entries a step makes, one by one

  function LosesMake(st: State, next: map<Prefix, Route>, ps: seq<Prefix>, id: LinkId, m: Message): nat
    requires m.SeqRequest?
  {
    if ps == [] then 0
    else
      var n := |ps| - 1;
      var x := LoseAll(st, next, ps[..n]);
      LosesMake(st, next, ps[..n], id, m) + Makes(x, Lose(x, next, ps[n]), id, m)
  }

  ghost function SelectionMakes(st: State, id: LinkId, m: Message): nat
    requires m.SeqRequest?
  {
    LosesMake(st, Choice(st), SortPrefixes(st.selected.Keys), id, m)
  }

  /** The request makes the router advance its own sequence number and select again. */
  predicate Renews(st: State, r: Message)
    requires r.SeqRequest?
  {
    && Reachable(st.selected, r.prefix)
    && var s := st.selected[r.prefix]; s.routerId == r.routerId && !AtLeast(s.seqno, r.seqno) && s.local
  }

  ghost function MessageMakes(st: State, from: LinkId, r: Message, id: LinkId, m: Message): nat
    requires m.SeqRequest? && from in st.links
  {
    if r.SeqRequest? && Renews(st, r) then SelectionMakes(st.(seqno := NextSeqno(st.seqno)), id, m)
    else Makes(st, ReceiveMessage(st, from, r), id, m)
  }

  ghost function OneMakes(st: State, from: LinkId, r: Message, id: LinkId, m: Message): nat
    requires m.SeqRequest?
  {
    var x := if Asks(r) then SelectRoutes(st) else st;
    (if Asks(r) then SelectionMakes(st, id, m) else 0)
        + (if from in x.links then MessageMakes(x, from, r, id, m) else 0)
  }

  ghost function PacketMakes(st: State, from: LinkId, rs: seq<Message>, id: LinkId, m: Message): nat
    requires m.SeqRequest?
  {
    if rs == [] then 0
    else
      var n := |rs| - 1;
      PacketMakes(st, from, rs[..n], id, m) + OneMakes(ReceiveAll(st, from, rs[..n]), from, rs[n], id, m)
  }

  ghost function EventMakes(st: State, event: Event, id: LinkId, m: Message): nat
    requires m.SeqRequest?
  {
    if event.Receive? && event.id in st.links && event.packet.size <= st.links[event.id].link.maxPacket
       && event.packet.decoded.Some?
    then PacketMakes(st, event.id, event.packet.decoded.value, id, m)
    else 0
  }

  /** The number of entries sending m to the link id that a step makes. */
  ghost function StepMakes(st: State, now: int, event: Event, id: LinkId, m: Message): nat
    requires m.SeqRequest? && Validate(st, event).None?
  {
    var x := Begin(st, now);
    ValidateAdmits(st, now, event);
    EventMakes(x, event, id, m) + SelectionMakes(Apply(x, event), id, m)
  }

  // --------------------------------------------------------------------- the tally

  /** The entry for the source, if there is one, was made at this instant. */
  predicate Young(st: State, m: Message)
    requires m.SeqRequest?
  {
    KeyOf(m) in st.requests ==> st.requests[KeyOf(m)].expires == st.now + 4 * SECOND
  }

  /**
   From x to y as many entries were made as copies were queued; no other changes, and no send
   is owed beyond two for each.
   */
  predicate Tallies(x: State, y: State, id: LinkId, m: Message, made: nat)
    requires m.SeqRequest?
  {
    && y.now == x.now
    && Copies(y.em.out, id, m) == Copies(x.em.out, id, m) + made
    && (made > 0 || Young(x, m) ==> Young(y, m))
    && (made == 0 ==> !Made(x, y, id, m))
    && Left(y, id, m) <= Left(x, id, m) + 2 * made
  }

  lemma TalliesTransitive(x: State, y: State, z: State, id: LinkId, m: Message, a: nat, b: nat)
    requires m.SeqRequest? && Tallies(x, y, id, m, a) && Tallies(y, z, id, m, b)
    ensures Tallies(x, z, id, m, a + b)
  {
    hide Copies;
  }

  lemma TalliesNone(x: State, y: State, id: LinkId, m: Message)
    requires m.SeqRequest? && y.now == x.now && y.requests == x.requests
    requires Copies(y.em.out, id, m) == Copies(x.em.out, id, m)
    ensures Tallies(x, y, id, m, 0) && Makes(x, y, id, m) == 0
  {
    hide Copies;
  }

  /** Entries dropped make nothing. */
  lemma TalliesFewer(x: State, y: State, id: LinkId, m: Message)
    requires m.SeqRequest? && y.now == x.now && Copies(y.em.out, id, m) == Copies(x.em.out, id, m)
    requires forall sk :: sk in y.requests ==> sk in x.requests && y.requests[sk] == x.requests[sk]
    ensures Tallies(x, y, id, m, 0)
  {
    hide Copies;
  }

  // ------------------------------------------------ messages that are no requests

  lemma OtherQueued(links: map<LinkId, LinkState>, out: map<LinkId, seq<Message>>, to: LinkId, x: Message,
      id: LinkId, m: Message)
    requires m.SeqRequest? && !x.SeqRequest?
    ensures Copies(Queue(links, out, to, x), id, m) == Copies(out, id, m)
  {
    hide Queue, Copies;
    QueueCopies(links, out, to, x, id, m);
  }

  lemma AdvertiseCopies(st: State, em: Emission, to: LinkId, p: Prefix, explicit: bool, id: LinkId, m: Message)
    requires m.SeqRequest?
    ensures Copies(Advertise(st, em, to, p, explicit).out, id, m) == Copies(em.out, id, m)
  {
    hide Queue, Copies, ScheduleTrigger, Lowered, Gated;
    OtherQueued(st.links, em.out, to, Retraction(st.cfg, p), id, m);
    if to in st.links && p in st.selected {
      OtherQueued(st.links, em.out, to, Announcement(st.cfg, st.links[to], p, st.selected[p]), id, m);
    }
  }

  lemma {:induction false} AdvertiseAllCopies(st: State, em: Emission, to: LinkId, ps: seq<Prefix>, explicit: bool,
      id: LinkId, m: Message)
    requires m.SeqRequest?
    ensures Copies(AdvertiseAll(st, em, to, ps, explicit).out, id, m) == Copies(em.out, id, m)
  {
    hide Advertise, Copies;
    if ps != [] {
      var n := |ps| - 1;
      AdvertiseAllCopies(st, em, to, ps[..n], explicit, id, m);
      AdvertiseCopies(st, AdvertiseAll(st, em, to, ps[..n], explicit), to, ps[n], explicit, id, m);
    }
  }

  lemma {:induction false} AnswerCopies(st: State, em: Emission, sks: seq<SourceKey>, id: LinkId, m: Message)
    requires m.SeqRequest?
    ensures Copies(Answer(st, em, sks).out, id, m) == Copies(em.out, id, m)
  {
    hide Advertise, Copies, Settled;
    if sks != [] {
      var n := |sks| - 1;
      AnswerCopies(st, em, sks[..n], id, m);
      if sks[n] in st.requests {
        AdvertiseCopies(st, Answer(st, em, sks[..n]), st.requests[sks[n]].from, sks[n].prefix, true, id, m);
      }
    }
  }

  lemma {:induction false} DumpAllCopies(st: State, em: Emission, ids: seq<LinkId>, id: LinkId, m: Message)
    requires m.SeqRequest?
    ensures Copies(DumpAll(st, em, ids).out, id, m) == Copies(em.out, id, m)
  {
    hide AdvertiseAll, Copies, SortPrefixes;
    if ids != [] {
      var n := |ids| - 1;
      DumpAllCopies(st, em, ids[..n], id, m);
      AdvertiseAllCopies(st, DumpAll(st, em, ids[..n]), ids[n], SortPrefixes(st.selected.Keys), false, id, m);
    }
  }

  lemma {:induction false} RefreshCopies(st: State, out: map<LinkId, seq<Message>>, ks: seq<RouteKey>, id: LinkId,
      m: Message)
    requires m.SeqRequest?
    ensures Copies(RefreshOut(st, out, ks), id, m) == Copies(out, id, m)
  {
    hide Queue, Copies, RefreshDue;
    if ks != [] {
      var n := |ks| - 1;
      RefreshCopies(st, out, ks[..n], id, m);
      OtherQueued(st.links, RefreshOut(st, out, ks[..n]), ks[n].link, RouteRequest(ks[n].prefix), id, m);
    }
  }

  lemma HelloCopies(st: State, to: LinkId, id: LinkId, m: Message)
    requires m.SeqRequest?
    ensures Copies(HelloTimer(st, to).em.out, id, m) == Copies(st.em.out, id, m)
  {
    hide Queue, Copies, NextRandom, Jitter, HelloInterval, Centis, BoundedLink, BoundedConfig;
    if to in st.links {
      var l := st.links[to];
      OtherQueued(st.links, st.em.out, to, Hello(false, l.helloSeq, Centis(HelloInterval(st.cfg, l))), id, m);
    }
  }

  lemma IHUCopies(st: State, to: LinkId, id: LinkId, m: Message)
    requires m.SeqRequest?
    ensures Copies(IHUTimer(st, to).em.out, id, m) == Copies(st.em.out, id, m)
  {
    hide Queue, Copies, NextRandom, Jitter, HelloInterval, Centis, Rules.Heard, BoundedLink, BoundedConfig;
    if to in st.links {
      var l := st.links[to];
      var rx := if Rules.Heard(l, st.now) then l.link.cost else INFINITY;
      OtherQueued(st.links, st.em.out, to, IHU(NoAddr, rx, Centis(HelloInterval(st.cfg, l) * 2)), id, m);
    }
  }

  lemma UpdateCopies(st: State, to: LinkId, id: LinkId, m: Message)
    requires m.SeqRequest?
    ensures Copies(UpdateTimer(st, to).em.out, id, m) == Copies(st.em.out, id, m)
  {
    hide AdvertiseAll, Copies, NextRandom, Jitter, SortPrefixes, BoundedLink, BoundedConfig;
    AdvertiseAllCopies(st, st.em, to, SortPrefixes(st.selected.Keys), false, id, m);
  }

  lemma {:induction false} LinkTimersCopies(st: State, ids: seq<LinkId>, id: LinkId, m: Message)
    requires m.SeqRequest?
    ensures Copies(AllLinkTimers(st, ids).em.out, id, m) == Copies(st.em.out, id, m)
  {
    hide HelloTimer, IHUTimer, UpdateTimer, Copies;
    if ids != [] {
      var n := |ids| - 1;
      var x := AllLinkTimers(st, ids[..n]);
      LinkTimersCopies(st, ids[..n], id, m);
      HelloCopies(x, ids[n], id, m);
      IHUCopies(HelloTimer(x, ids[n]), ids[n], id, m);
      UpdateCopies(IHUTimer(HelloTimer(x, ids[n]), ids[n]), ids[n], id, m);
    }
  }

  lemma TriggerCopies(st: State, id: LinkId, m: Message)
    requires m.SeqRequest?
    ensures Copies(TriggerTimer(st).em.out, id, m) == Copies(st.em.out, id, m)
  {
    hide DumpAll, Copies, Rearm, SortLinks, TriggerDue;
    DumpAllCopies(st, st.em, SortLinks(st.links.Keys), id, m);
  }

  // ------------------------------------------------------------------- transitions

  /** One entry is made and one copy queued for each target, or nothing happens. */
  lemma AskTallies(st: State, sk: SourceKey, seqno: u16, targets: set<LinkId>, from: LinkId, hops: u8,
      id: LinkId, m: Message)
    requires m.SeqRequest? && targets <= st.links.Keys
    ensures var y := Ask(st, sk, seqno, targets, from, hops); Tallies(st, y, id, m, Makes(st, y, id, m))
  {
    hide Copies, QueueAll, LinkLess, Newer;
    var y := Ask(st, sk, seqno, targets, from, hops);
    var ids := SortLinks(targets);
    SortedDistinct(targets);
    QueueAllCopies(st.links, st.em.out, ids, SeqRequest(sk.prefix, sk.id, seqno, hops), id, m);
    if y == st {
      TalliesNone(st, y, id, m);
    }
  }

  lemma LossTargetsLive(st: State, p: Prefix)
    ensures LossTargets(st, p) <= st.links.Keys
  {
    hide LinkCost;
  }

  lemma LoseTallies(st: State, next: map<Prefix, Route>, p: Prefix, id: LinkId, m: Message)
    requires m.SeqRequest?
    ensures var y := Lose(st, next, p); Tallies(st, y, id, m, Makes(st, y, id, m))
  {
    hide Copies, Ask, LossTargets, Lost, Tallies, ScheduleTrigger;
    var x := Suppress(st, p);
    TalliesNone(st, st, id, m);
    TalliesNone(st, x, id, m);
    if Lost(st, next, p) {
      LostSelected(st, next, p);
      var sk := SourceKey(p, st.selected[p].routerId);
      if sk in st.em.sources {
        LossTargetsLive(st, p);
        AskTallies(x, sk, NextSeqno(st.em.sources[sk].seqno), LossTargets(st, p), 0, 64, id, m);
        TalliesFrom(st, x, Ask(x, sk, NextSeqno(st.em.sources[sk].seqno), LossTargets(st, p), 0, 64), id, m);
      }
    }
  }

  lemma TalliesFrom(x: State, y: State, z: State, id: LinkId, m: Message)
    requires m.SeqRequest? && y.requests == x.requests && y.now == x.now
    requires Copies(y.em.out, id, m) == Copies(x.em.out, id, m) && Tallies(y, z, id, m, Makes(y, z, id, m))
    ensures Tallies(x, z, id, m, Makes(x, z, id, m))
  {
    hide Copies;
  }

  lemma {:induction false} LoseAllTallies(st: State, next: map<Prefix, Route>, ps: seq<Prefix>, id: LinkId, m: Message)
    requires m.SeqRequest?
    ensures Tallies(st, LoseAll(st, next, ps), id, m, LosesMake(st, next, ps, id, m))
  {
    hide Copies, Lose, Tallies, Makes;
    if ps == [] {
      TalliesNone(st, st, id, m);
    } else {
      var n := |ps| - 1;
      var x := LoseAll(st, next, ps[..n]);
      LoseAllTallies(st, next, ps[..n], id, m);
      LoseTallies(x, next, ps[n], id, m);
      TalliesTransitive(st, x, Lose(x, next, ps[n]), id, m, LosesMake(st, next, ps[..n], id, m),
          Makes(x, Lose(x, next, ps[n]), id, m));
    }
  }

  lemma AnswerTallies(x: State, y: State, id: LinkId, m: Message)
    requires m.SeqRequest? && y == AnswerRequests(x)
    ensures Tallies(x, y, id, m, 0)
  {
    hide Copies, Answer, SortSourceKeys, Settled;
    AnswerCopies(x, x.em, SortSourceKeys(x.requests.Keys), id, m);
    TalliesFewer(x, y, id, m);
  }

  lemma SelectionTallies(st: State, id: LinkId, m: Message)
    requires m.SeqRequest?
    ensures Tallies(st, SelectRoutes(st), id, m, SelectionMakes(st, id, m))
  {
    hide Copies, Choice, LoseAll, LosesMake, Tallies, LiveDrops, WithDrops, Announce, AnswerRequests, SortPrefixes;
    var next := Choice(st);
    var ps := SortPrefixes(st.selected.Keys);
    var x, y := LoseAll(st, next, ps), Adopt(st, next);
    LoseAllTallies(st, next, ps, id, m);
    TalliesNone(x, y, id, m);
    AnswerTallies(y, SelectRoutes(st), id, m);
    TalliesTransitive(st, x, y, id, m, LosesMake(st, next, ps, id, m), 0);
    TalliesTransitive(st, y, SelectRoutes(st), id, m, LosesMake(st, next, ps, id, m), 0);
  }

  // -------------------------------------------------------------------- packets

  lemma LearnTallies(st: State, from: LinkId, r: Message, y: State, id: LinkId, m: Message)
    requires m.SeqRequest? && from in st.links && r.Update? && y == AcceptUpdate(st, from, r)
    ensures Tallies(st, y, id, m, Makes(st, y, id, m))
  {
    hide Copies, Ask, WantsFresh, Feasible, Tallies, ScheduleTrigger, Makes;
    var x := Learn(st, from, r);
    TalliesNone(st, x, id, m);
    var sk := SourceKey(r.prefix, r.routerId);
    if sk in x.em.sources {
      AskTallies(x, sk, NextSeqno(x.em.sources[sk].seqno), {from}, 0, 64, id, m);
      TalliesFrom(st, x, Ask(x, sk, NextSeqno(x.em.sources[sk].seqno), {from}, 0, 64), id, m);
    } else {
      assert Feasible(x.em.sources, r.prefix, NewCandidate(st, r)) by {
        UnknownFeasible(x.em.sources, r.prefix, NewCandidate(st, r));
      }
    }
  }

  lemma UpdateTallies(st: State, from: LinkId, r: Message, y: State, id: LinkId, m: Message)
    requires m.SeqRequest? && from in st.links && r.Update? && y == ReceiveUpdate(st, from, r)
    ensures Tallies(st, y, id, m, Makes(st, y, id, m))
  {
    hide Copies, Admissible, HasRoom, AcceptUpdate, Tallies, Makes;
    if FiniteUpdate(r) && Admissible(st, from, r) && HasRoom(st, RouteKey(r.prefix, from)) {
      LearnTallies(st, from, r, y, id, m);
    } else {
      TalliesNone(st, y, id, m);
    }
  }

  lemma RelayLive(st: State, p: Prefix, from: LinkId, k: RouteKey)
    requires IsBestRelay(st, p, from, k)
    ensures k.link in st.links
  {
    hide LinkCost, Accepts, RelayPreferred;
    assert Relay(st, p, from, k);
  }

  lemma ForwardTallies(st: State, from: LinkId, r: Message, id: LinkId, m: Message)
    requires m.SeqRequest? && r.SeqRequest?
    ensures var y := Forward(st, from, r); Tallies(st, y, id, m, Makes(st, y, id, m))
  {
    hide Copies, Advertised, IsBestRelay, Ask, Tallies, Makes;
    var y := Forward(st, from, r);
    TalliesNone(st, st, id, m);
    if y != st {
      var k :| IsBestRelay(st, r.prefix, from, k)
               && y == Ask(st, SourceKey(r.prefix, r.routerId), r.seqno, {k.link}, from, r.hopCount - 1);
      RelayLive(st, r.prefix, from, k);
      AskTallies(st, SourceKey(r.prefix, r.routerId), r.seqno, {k.link}, from, r.hopCount - 1, id, m);
    }
  }

  lemma AdvertiseTallies(st: State, y: State, to: LinkId, p: Prefix, id: LinkId, m: Message)
    requires m.SeqRequest? && y == st.(em := Advertise(st, st.em, to, p, true))
    ensures Tallies(st, y, id, m, 0) && Makes(st, y, id, m) == 0
  {
    hide Copies, Advertise, Tallies, Makes;
    AdvertiseCopies(st, st.em, to, p, true, id, m);
    TalliesNone(st, y, id, m);
  }

  lemma RenewTallies(st: State, from: LinkId, p: Prefix, id: LinkId, m: Message)
    requires m.SeqRequest?
    ensures Tallies(st, Renew(st, from, p), id, m, SelectionMakes(st.(seqno := NextSeqno(st.seqno)), id, m))
  {
    hide Copies, SelectRoutes, Advertise, Tallies, SelectionMakes;
    var x := st.(seqno := NextSeqno(st.seqno));
    var y := SelectRoutes(x);
    var made := SelectionMakes(x, id, m);
    TalliesNone(st, x, id, m);
    SelectionTallies(x, id, m);
    AdvertiseTallies(y, Renew(st, from, p), from, p, id, m);
    TalliesTransitive(st, x, y, id, m, 0, made);
    TalliesTransitive(st, y, Renew(st, from, p), id, m, made, 0);
  }

  lemma SeqRequestTallies(st: State, from: LinkId, r: Message, y: State, id: LinkId, m: Message)
    requires m.SeqRequest? && r.SeqRequest? && y == ReceiveSeqRequest(st, from, r)
    ensures Tallies(st, y, id, m,
                    if Renews(st, r) then SelectionMakes(st.(seqno := NextSeqno(st.seqno)), id, m)
                    else Makes(st, y, id, m))
  {
    hide Copies, Renew, Advertise, Forward, AtLeast, Tallies, SelectionMakes, Makes;
    if Renews(st, r) {
      RenewTallies(st, from, r.prefix, id, m);
    } else {
      ForwardTallies(st, from, r, id, m);
      AdvertiseTallies(st, st.(em := Advertise(st, st.em, from, r.prefix, true)), from, r.prefix, id, m);
    }
  }

  /** No other message queues requests. */
  lemma PlainCopies(st: State, from: LinkId, r: Message, id: LinkId, m: Message)
    requires m.SeqRequest? && from in st.links && !r.Update? && !r.SeqRequest?
    ensures Copies(ReceiveMessage(st, from, r).em.out, id, m) == Copies(st.em.out, id, m)
  {
    if r.Hello? || r.IHU? {
      hide ReceiveMessage, Copies;
      HearFrame(st, from, r);
    } else {
      hide Copies, Advertise, AdvertiseAll, HearHello, ReceiveUpdate, ReceiveSeqRequest, Queue, RetractedRoutes;
      hide HelloInterval, BoundedLink, SortPrefixes;
      if r.RouteRequest? {
        AdvertiseCopies(st, st.em, from, r.prefix, true, id, m);
      } else if r.AckRequest? {
        OtherQueued(st.links, st.em.out, from, Ack(r.tag), id, m);
      }
      AdvertiseAllCopies(st, st.em, from, SortPrefixes(st.selected.Keys), true, id, m);
    }
  }

  lemma PlainTallies(st: State, from: LinkId, r: Message, y: State, id: LinkId, m: Message)
    requires m.SeqRequest? && from in st.links && !r.Update? && !r.SeqRequest? && y == ReceiveMessage(st, from, r)
    ensures Tallies(st, y, id, m, Makes(st, y, id, m))
  {
    hide ReceiveMessage, Copies, Tallies, Makes;
    PlainCopies(st, from, r, id, m);
    PlainRequests(st, from, r);
    SameClock(st, from, r);
    TalliesNone(st, y, id, m);
  }

  /** Updates and sequence-number requests are handled by their own transitions. */
  lemma Handled(st: State, from: LinkId, r: Message)
    requires from in st.links
    ensures r.Update? ==> ReceiveMessage(st, from, r) == ReceiveUpdate(st, from, r)
    ensures r.SeqRequest? ==> ReceiveMessage(st, from, r) == ReceiveSeqRequest(st, from, r)
  {
    hide ReceiveUpdate, ReceiveSeqRequest, BoundedLink;
  }

  lemma MessageTallies(st: State, from: LinkId, r: Message, id: LinkId, m: Message)
    requires m.SeqRequest? && from in st.links
    ensures Tallies(st, ReceiveMessage(st, from, r), id, m, MessageMakes(st, from, r, id, m))
  {
    hide ReceiveMessage, ReceiveUpdate, ReceiveSeqRequest, Copies, Tallies, Makes, SelectionMakes, Renews;
    var y := ReceiveMessage(st, from, r);
    Handled(st, from, r);
    if r.Update? {
      UpdateTallies(st, from, r, y, id, m);
    } else if r.SeqRequest? {
      SeqRequestTallies(st, from, r, y, id, m);
    } else {
      PlainTallies(st, from, r, y, id, m);
    }
  }

  lemma OneTallies(st: State, from: LinkId, r: Message, id: LinkId, m: Message)
    requires m.SeqRequest?
    ensures Tallies(st, ReceiveOne(st, from, r), id, m, OneMakes(st, from, r, id, m))
  {
    hide SelectRoutes, ReceiveMessage, Copies, Tallies, SelectionMakes, MessageMakes;
    var x := if Asks(r) then SelectRoutes(st) else st;
    var made := if Asks(r) then SelectionMakes(st, id, m) else 0;
    if Asks(r) {
      SelectionTallies(st, id, m);
    } else {
      TalliesNone(st, st, id, m);
    }
    if from in x.links {
      MessageTallies(x, from, r, id, m);
      TalliesTransitive(st, x, ReceiveOne(st, from, r), id, m, made, MessageMakes(x, from, r, id, m));
    }
  }

  lemma {:induction false} PacketTallies(st: State, from: LinkId, rs: seq<Message>, id: LinkId, m: Message)
    requires m.SeqRequest?
    ensures Tallies(st, ReceiveAll(st, from, rs), id, m, PacketMakes(st, from, rs, id, m))
  {
    hide ReceiveOne, Copies, Tallies, OneMakes;
    if rs == [] {
      TalliesNone(st, st, id, m);
    } else {
      var n := |rs| - 1;
      var x := ReceiveAll(st, from, rs[..n]);
      PacketTallies(st, from, rs[..n], id, m);
      OneTallies(x, from, rs[n], id, m);
      TalliesTransitive(st, x, ReceiveAll(st, from, rs), id, m,
                        PacketMakes(st, from, rs[..n], id, m), OneMakes(x, from, rs[n], id, m));
    }
  }

  lemma LinkEventCopies(st: State, event: Event, id: LinkId, m: Message)
    requires m.SeqRequest? && st.em.out == map[]
    requires (event.AddLink? && BoundedLink(event.link)) || event.RemoveLink?
    ensures Copies(Apply(st, event).em.out, id, m) == Copies(st.em.out, id, m)
  {
    hide Copies, Queue, BoundedLink, NewLink, ClosedRoutes;
    match event
    case AddLink(l) => OtherQueued(EventAddLink(st, l).links, st.em.out, l.id, WildcardRequest, id, m);
    case RemoveLink(i) => assert st.em.out - {i} == st.em.out;
  }

  lemma EventTallies(st: State, event: Event, id: LinkId, m: Message)
    requires m.SeqRequest? && st.em.out == map[]
    requires event.AddLink? ==> BoundedLink(event.link)
    requires event.SetCost? ==> event.cost != 0
    ensures Tallies(st, Apply(st, event), id, m, EventMakes(st, event, id, m))
  {
    hide ReceiveAll, PacketMakes, Copies, Tallies, BoundedLink, Queue, NewLink, ClosedRoutes;
    if event.AddLink? || event.RemoveLink? {
      LinkEventCopies(st, event, id, m);
      TalliesNone(st, Apply(st, event), id, m);
    } else if event.Receive? && event.packet.decoded.Some? {
      TalliesNone(st, st, id, m);
      PacketTallies(st, event.id, event.packet.decoded.value, id, m);
    } else {
      TalliesNone(st, Apply(st, event), id, m);
    }
  }

  // ------------------------------------------------------- packets without requests

  /** The entry for the source asks for sequence number n. */
  predicate Pinned(st: State, sk: SourceKey, n: u16) { sk in st.requests && st.requests[sk].seqno == n }

  /** At most one entry is made from x to y, for sequence number n, and none if there is one already. */
  predicate MadeOnce(x: State, y: State, sk: SourceKey, n: u16, made: nat) {
    && made <= 1
    && (Pinned(x, sk, n) ==> made == 0 && Pinned(y, sk, n))
    && (made == 1 ==> Pinned(y, sk, n))
  }

  /** The sequence number that is asked for is the successor of the one recorded. */
  predicate Successor(sources: map<SourceKey, Source>, sk: SourceKey, n: u16) {
    sk in sources ==> n == NextSeqno(sources[sk].seqno)
  }

  lemma AskOnce(st: State, sk: SourceKey, seqno: u16, targets: set<LinkId>, from: LinkId, hops: u8, n: u16,
      id: LinkId, m: Message)
    requires m.SeqRequest? && (sk == KeyOf(m) ==> seqno == n)
    ensures var y := Ask(st, sk, seqno, targets, from, hops); MadeOnce(st, y, KeyOf(m), n, Makes(st, y, id, m))
  {
    hide QueueAll, SortLinks;
  }

  lemma MadeOnceFrom(x: State, y: State, z: State, n: u16, id: LinkId, m: Message)
    requires m.SeqRequest? && y.requests == x.requests && MadeOnce(y, z, KeyOf(m), n, Makes(y, z, id, m))
    ensures MadeOnce(x, z, KeyOf(m), n, Makes(x, z, id, m))
  {
  }

  lemma NoneMadeOnce(x: State, y: State, n: u16, id: LinkId, m: Message)
    requires m.SeqRequest? && y.requests == x.requests
    ensures MadeOnce(x, y, KeyOf(m), n, 0) && Makes(x, y, id, m) == 0
  {
  }

  lemma LoseOnce(st: State, next: map<Prefix, Route>, p: Prefix, n: u16, id: LinkId, m: Message)
    requires m.SeqRequest? && Successor(st.em.sources, KeyOf(m), n)
    ensures var y := Lose(st, next, p); MadeOnce(st, y, KeyOf(m), n, Makes(st, y, id, m))
  {
    hide Ask, LossTargets, Lost, MadeOnce, Makes, ScheduleTrigger;
    var x := Suppress(st, p);
    NoneMadeOnce(st, st, n, id, m);
    NoneMadeOnce(st, x, n, id, m);
    if Lost(st, next, p) {
      LostSelected(st, next, p);
      var sk := SourceKey(p, st.selected[p].routerId);
      if sk in st.em.sources {
        var seqno := NextSeqno(st.em.sources[sk].seqno);
        AskOnce(x, sk, seqno, LossTargets(st, p), 0, 64, n, id, m);
        MadeOnceFrom(st, x, Ask(x, sk, seqno, LossTargets(st, p), 0, 64), n, id, m);
      }
    }
  }

  lemma {:induction false} LosesOnce(st: State, next: map<Prefix, Route>, ps: seq<Prefix>, n: u16, id: LinkId,
      m: Message)
    requires m.SeqRequest? && Successor(st.em.sources, KeyOf(m), n)
    ensures MadeOnce(st, LoseAll(st, next, ps), KeyOf(m), n, LosesMake(st, next, ps, id, m))
  {
    hide Lose, Makes, Pinned;
    if ps == [] {
      NoneMadeOnce(st, st, n, id, m);
    } else {
      var k := |ps| - 1;
      var x := LoseAll(st, next, ps[..k]);
      LosesOnce(st, next, ps[..k], n, id, m);
      LoseAllFrame(st, next, ps[..k]);
      LoseOnce(x, next, ps[k], n, id, m);
    }
  }

  lemma SelectionOnce(st: State, n: u16, id: LinkId, m: Message)
    requires m.SeqRequest? && Successor(st.em.sources, KeyOf(m), n)
    ensures SelectionMakes(st, id, m) <= 1 && (Pinned(st, KeyOf(m), n) ==> SelectionMakes(st, id, m) == 0)
  {
    hide Choice, LoseAll, LosesMake, SortPrefixes, Pinned;
    LosesOnce(st, Choice(st), SortPrefixes(st.selected.Keys), n, id, m);
  }

  lemma LearnOnce(st: State, from: LinkId, r: Message, y: State, n: u16, id: LinkId, m: Message)
    requires m.SeqRequest? && from in st.links && r.Update? && y == ReceiveUpdate(st, from, r)
    requires Successor(st.em.sources, KeyOf(m), n)
    ensures MadeOnce(st, y, KeyOf(m), n, Makes(st, y, id, m))
  {
    hide Admissible, HasRoom, Ask, WantsFresh, Feasible, MadeOnce, ScheduleTrigger, Makes;
    var x := Learn(st, from, r);
    NoneMadeOnce(st, x, n, id, m);
    NoneMadeOnce(st, st.(routes := y.routes), n, id, m);
    UpdateRequests(st, from, r);
    var sk := SourceKey(r.prefix, r.routerId);
    if r.metric == INFINITY || !Admissible(st, from, r) || !HasRoom(st, RouteKey(r.prefix, from)) {
      NoneMadeOnce(st, y, n, id, m);
    } else if sk in x.em.sources {
      AskOnce(x, sk, NextSeqno(x.em.sources[sk].seqno), {from}, 0, 64, n, id, m);
      MadeOnceFrom(st, x, Ask(x, sk, NextSeqno(x.em.sources[sk].seqno), {from}, 0, 64), n, id, m);
    } else {
      assert Feasible(x.em.sources, r.prefix, NewCandidate(st, r)) by {
        UnknownFeasible(x.em.sources, r.prefix, NewCandidate(st, r));
      }
    }
  }

  lemma MessageOnce(st: State, from: LinkId, r: Message, y: State, n: u16, id: LinkId, m: Message)
    requires m.SeqRequest? && from in st.links && !Asks(r) && y == ReceiveMessage(st, from, r)
    requires Successor(st.em.sources, KeyOf(m), n)
    ensures MadeOnce(st, y, KeyOf(m), n, MessageMakes(st, from, r, id, m)) && y.em.sources == st.em.sources
  {
    hide ReceiveMessage, ReceiveUpdate, MadeOnce, Makes, Successor;
    Handled(st, from, r);
    if r.Update? {
      LearnOnce(st, from, r, y, n, id, m);
      ReceiveUpdateFrame(st, from, r);
    } else {
      PlainRequests(st, from, r);
      NoneMadeOnce(st, y, n, id, m);
      PlainSources(st, from, r);
    }
  }

  lemma PlainSources(st: State, from: LinkId, r: Message)
    requires from in st.links && !Asks(r) && !r.Update?
    ensures ReceiveMessage(st, from, r).em.sources == st.em.sources
  {
    if r.Hello? || r.IHU? {
      hide ReceiveMessage;
      HearFrame(st, from, r);
    } else {
      hide Queue, RetractedRoutes, ReceiveUpdate, ReceiveSeqRequest, Advertise, HearHello, ReceiveWildcardRequest;
      hide BoundedLink;
    }
  }

  lemma {:induction false} PacketOnce(st: State, from: LinkId, rs: seq<Message>, n: u16, id: LinkId, m: Message)
    requires m.SeqRequest? && Successor(st.em.sources, KeyOf(m), n) && forall r :: r in rs ==> !Asks(r)
    ensures var y := ReceiveAll(st, from, rs);
            MadeOnce(st, y, KeyOf(m), n, PacketMakes(st, from, rs, id, m)) && y.em.sources == st.em.sources
  {
    hide ReceiveMessage, MessageMakes, Pinned, Asks;
    if rs == [] {
      NoneMadeOnce(st, st, n, id, m);
    } else {
      var k := |rs| - 1;
      var x := ReceiveAll(st, from, rs[..k]);
      PacketOnce(st, from, rs[..k], n, id, m);
      assert rs[k] in rs && !Asks(rs[k]);
      if from in x.links {
        MessageOnce(x, from, rs[k], ReceiveMessage(x, from, rs[k]), n, id, m);
      }
    }
  }

  /** The event delivers no message that asks for anything. */
  predicate AsksNothing(event: Event) {
    event.Receive? && event.packet.decoded.Some? ==> forall r :: r in event.packet.decoded.value ==> !Asks(r)
  }

  lemma EventOnce(st: State, event: Event, n: u16, id: LinkId, m: Message)
    requires m.SeqRequest? && Successor(st.em.sources, KeyOf(m), n) && AsksNothing(event)
    requires event.AddLink? ==> BoundedLink(event.link)
    requires event.SetCost? ==> event.cost != 0
    ensures var y := Apply(st, event);
            MadeOnce(st, y, KeyOf(m), n, EventMakes(st, event, id, m)) && y.em.sources == st.em.sources
  {
    hide ReceiveAll, PacketMakes, MadeOnce, BoundedLink, Queue, NewLink, ClosedRoutes, Successor;
    NoneMadeOnce(st, st, n, id, m);
    if event.Receive? && event.packet.decoded.Some? {
      PacketOnce(st, event.id, event.packet.decoded.value, n, id, m);
    } else {
      NoneMadeOnce(st, Apply(st, event), n, id, m);
    }
  }

  /** A step whose packet asks for nothing makes at most one entry for a message and a link. */
  lemma StepMakesOne(st: State, now: int, event: Event, id: LinkId, m: Message)
    requires m.SeqRequest? && Validate(st, event).None? && AsksNothing(event)
    ensures StepMakes(st, now, event, id, m) <= 1
  {
    hide Apply, Begin, EventMakes, SelectionMakes, Validate, AsksNothing, Pinned;
    var x := Begin(st, now);
    ValidateAdmits(st, now, event);
    var sk := KeyOf(m);
    var n := if sk in x.em.sources then NextSeqno(x.em.sources[sk].seqno) else 0;
    EventOnce(x, event, n, id, m);
    SelectionOnce(Apply(x, event), n, id, m);
  }
}
