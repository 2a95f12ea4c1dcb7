/**
 What is advertised is what is selected: the updates a step sends, and those it withholds for
 a commit, announce the routes of the very table they wait for.
 */
module Truth {
  import opened Arithmetic
  import opened Types
  import opened Sorting
  import opened Rules
  import opened Steps
  import opened History
  import opened Soundness
  import opened Selection
  import opened Invariant
  import opened Release
  import opened Provenance
  import opened Rest
  import opened Traces
  import TwoPhase

  /** A finite update announces the selected route. */
  predicate States(selected: map<Prefix, Route>, m: Message) {
    FiniteUpdate(m) ==>
      && Reachable(selected, m.prefix)
      && var r := selected[m.prefix]; m.routerId == r.routerId && Claimed(m) == RouteDist(r)
  }

  /** The entry of the history is the selected route's. */
  predicate Records(selected: map<Prefix, Route>, sk: SourceKey, s: Source) {
    && Reachable(selected, sk.prefix)
    && selected[sk.prefix].routerId == sk.id && s.Dist() == RouteDist(selected[sk.prefix])
  }

  /** All that is emitted from x to y announces the selected routes, and the history changes accordingly. */
  ghost predicate Truthful(selected: map<Prefix, Route>, x: Emission, y: Emission) {
    && (forall m :: Emitted(y.out, m) ==> Emitted(x.out, m) || States(selected, m))
    && (forall sk :: sk in y.sources ==>
          || (sk in x.sources && y.sources[sk].Dist() == x.sources[sk].Dist())
          || Records(selected, sk, y.sources[sk]))
  }

  lemma TruthfulSame(selected: map<Prefix, Route>, x: Emission, y: Emission)
    requires y.out == x.out && y.sources == x.sources
    ensures Truthful(selected, x, y)
  {
  }

  lemma TruthfulTransitive(selected: map<Prefix, Route>, x: Emission, y: Emission, z: Emission)
    requires Truthful(selected, x, y) && Truthful(selected, y, z)
    ensures Truthful(selected, x, z)
  {
    hide Emitted, States;
  }

  /** Where nothing is selected, nothing is announced. */
  lemma SilentTruthful(selected: map<Prefix, Route>, x: Emission, y: Emission)
    requires Truthful(map[], x, y)
    ensures Truthful(selected, x, y)
  {
    hide Emitted;
  }

  lemma QueueTruthful(selected: map<Prefix, Route>, links: map<LinkId, LinkState>, x: Emission, y: Emission,
      id: LinkId, m: Message)
    requires States(selected, m) && y.sources == x.sources && y.out == Queue(links, x.out, id, m)
    ensures Truthful(selected, x, y)
  {
    hide Emitted, States, Queue;
    forall a | Emitted(y.out, a) ensures Emitted(x.out, a) || States(selected, a) {
      QueueEmits(links, x.out, id, m, a);
    }
  }

  lemma QueueAllTruthful(selected: map<Prefix, Route>, links: map<LinkId, LinkState>, x: Emission, y: Emission,
      ids: seq<LinkId>, m: Message)
    requires States(selected, m) && y.sources == x.sources && y.out == QueueAll(links, x.out, ids, m)
    ensures Truthful(selected, x, y)
  {
    hide Emitted, States, QueueAll;
    forall a | Emitted(y.out, a) ensures Emitted(x.out, a) || States(selected, a) {
      QueueAllEmits(links, x.out, ids, m, a);
    }
  }

  // ------------------------------------------------------------------ advertising

  lemma AdvertiseTruthful(st: State, em: Emission, id: LinkId, p: Prefix, explicit: bool)
    ensures Truthful(st.selected, em, Advertise(st, em, id, p, explicit))
  {
    hide Queue, ScheduleTrigger, Gated, Emitted, Better, BoundedLink, BoundedConfig;
    var y := Advertise(st, em, id, p, explicit);
    if y.out != em.out {
      var m := if Reachable(st.selected, p) then Announcement(st.cfg, st.links[id], p, st.selected[p])
               else Retraction(st.cfg, p);
      QueueTruthful(st.selected, st.links, em, em.(out := Queue(st.links, em.out, id, m)), id, m);
    }
  }

  lemma {:induction false} AdvertiseAllTruthful(st: State, em: Emission, id: LinkId, ps: seq<Prefix>, explicit: bool)
    ensures Truthful(st.selected, em, AdvertiseAll(st, em, id, ps, explicit))
  {
    hide Advertise, Truthful;
    TruthfulSame(st.selected, em, em);
    if ps != [] {
      var n := |ps| - 1;
      var x := AdvertiseAll(st, em, id, ps[..n], explicit);
      AdvertiseAllTruthful(st, em, id, ps[..n], explicit);
      AdvertiseTruthful(st, x, id, ps[n], explicit);
      TruthfulTransitive(st.selected, em, x, AdvertiseAll(st, em, id, ps, explicit));
    }
  }

  lemma {:induction false} AnswerTruthful(st: State, em: Emission, sks: seq<SourceKey>)
    ensures Truthful(st.selected, em, Answer(st, em, sks))
  {
    hide Advertise, Truthful, Settled;
    TruthfulSame(st.selected, em, em);
    if sks != [] {
      var n := |sks| - 1;
      var x := Answer(st, em, sks[..n]);
      AnswerTruthful(st, em, sks[..n]);
      if sks[n] in st.requests {
        AdvertiseTruthful(st, x, st.requests[sks[n]].from, sks[n].prefix, true);
        TruthfulTransitive(st.selected, em, x, Advertise(st, x, st.requests[sks[n]].from, sks[n].prefix, true));
      }
    }
  }

  lemma {:induction false} DumpAllTruthful(st: State, em: Emission, ids: seq<LinkId>)
    ensures Truthful(st.selected, em, DumpAll(st, em, ids))
  {
    hide AdvertiseAll, Truthful, SortPrefixes;
    TruthfulSame(st.selected, em, em);
    if ids != [] {
      var n := |ids| - 1;
      var x := DumpAll(st, em, ids[..n]);
      DumpAllTruthful(st, em, ids[..n]);
      AdvertiseAllTruthful(st, x, ids[n], SortPrefixes(st.selected.Keys), false);
      TruthfulTransitive(st.selected, em, x, DumpAll(st, em, ids));
    }
  }

  // --------------------------------------------------------------------- timers

  lemma HelloTimerTruthful(st: State, id: LinkId)
    ensures Truthful(st.selected, st.em, HelloTimer(st, id).em)
  {
    hide Truthful, Queue, Centis, Jitter, NextRandom, NextSeqno, HelloInterval, BoundedLink, BoundedConfig;
    var y := HelloTimer(st, id);
    TruthfulSame(st.selected, st.em, st.em);
    if y.em != st.em {
      var l := st.links[id];
      QueueTruthful(st.selected, st.links, st.em, y.em, id, Hello(false, l.helloSeq, Centis(HelloInterval(st.cfg, l))));
    }
  }

  lemma IHUTimerTruthful(st: State, id: LinkId)
    ensures Truthful(st.selected, st.em, IHUTimer(st, id).em)
  {
    hide Truthful, Queue, Centis, Jitter, NextRandom, HelloInterval, BoundedLink, BoundedConfig, Rules.Heard;
    var y := IHUTimer(st, id);
    TruthfulSame(st.selected, st.em, st.em);
    if y.em != st.em {
      var l := st.links[id];
      var rx := if Rules.Heard(l, st.now) then l.link.cost else INFINITY;
      QueueTruthful(st.selected, st.links, st.em, y.em, id, IHU(NoAddr, rx, Centis(HelloInterval(st.cfg, l) * 2)));
    }
  }

  lemma UpdateTimerTruthful(st: State, id: LinkId)
    ensures Truthful(st.selected, st.em, UpdateTimer(st, id).em)
  {
    hide AdvertiseAll, SortPrefixes, Emitted, States, Jitter, NextRandom, BoundedLink, BoundedConfig;
    AdvertiseAllTruthful(st, st.em, id, SortPrefixes(st.selected.Keys), false);
  }

  lemma LinkTimersTruthful(st: State, id: LinkId)
    ensures Truthful(st.selected, st.em, LinkTimers(st, id).em)
  {
    hide HelloTimer, IHUTimer, UpdateTimer, Truthful;
    var a := HelloTimer(st, id);
    var b := IHUTimer(a, id);
    HelloTimerFrame(st, id);
    IHUTimerFrame(a, id);
    HelloTimerTruthful(st, id);
    IHUTimerTruthful(a, id);
    UpdateTimerTruthful(b, id);
    TruthfulTransitive(st.selected, st.em, a.em, b.em);
    TruthfulTransitive(st.selected, st.em, b.em, LinkTimers(st, id).em);
  }

  lemma {:induction false} AllLinkTimersTruthful(st: State, ids: seq<LinkId>)
    ensures Truthful(st.selected, st.em, AllLinkTimers(st, ids).em)
  {
    hide LinkTimers, Truthful;
    TruthfulSame(st.selected, st.em, st.em);
    if ids != [] {
      var n := |ids| - 1;
      var x := AllLinkTimers(st, ids[..n]);
      AllLinkTimersTruthful(st, ids[..n]);
      AllLinkTimersFrame(st, ids[..n]);
      LinkTimersTruthful(x, ids[n]);
      TruthfulTransitive(st.selected, st.em, x.em, AllLinkTimers(st, ids).em);
    }
  }

  lemma TriggerTimerTruthful(st: State)
    ensures Truthful(st.selected, st.em, TriggerTimer(st).em)
  {
    hide DumpAll, SortLinks, Emitted, States, Rearm, TriggerDue;
    DumpAllTruthful(st, st.em, SortLinks(st.links.Keys));
  }

  lemma {:induction false} ResendSilent(st: State, em: Emission, sks: seq<SourceKey>)
    ensures Truthful(map[], em, em.(out := ResendOut(st, em.out, sks)))
  {
    hide QueueAll, ResendDue, Truthful;
    TruthfulSame(map[], em, em);
    if sks != [] {
      var n := |sks| - 1;
      ResendSilent(st, em, sks[..n]);
      if ResendDue(st, sks[n]) {
        var x, y := em.(out := ResendOut(st, em.out, sks[..n])), em.(out := ResendOut(st, em.out, sks));
        var q := DueRequest(st, sks[n]);
        QueueAllTruthful(map[], st.links, x, y, q.targets, RequestMessage(sks[n], q));
        TruthfulTransitive(map[], em, x, y);
      }
    }
  }

  function DueRequest(st: State, sk: SourceKey): Pending
    requires ResendDue(st, sk)
  {
    st.requests[sk]
  }

  lemma {:induction false} RefreshSilent(st: State, em: Emission, ks: seq<RouteKey>)
    ensures Truthful(map[], em, em.(out := RefreshOut(st, em.out, ks)))
  {
    hide Queue, RefreshDue, Truthful;
    TruthfulSame(map[], em, em);
    if ks != [] {
      var n := |ks| - 1;
      RefreshSilent(st, em, ks[..n]);
      if RefreshDue(st, ks[n]) {
        var x, y := em.(out := RefreshOut(st, em.out, ks[..n])), em.(out := RefreshOut(st, em.out, ks));
        QueueTruthful(map[], st.links, x, y, ks[n].link, RouteRequest(ks[n].prefix));
        TruthfulTransitive(map[], em, x, y);
      }
    }
  }

  lemma TimersTruthful(st: State)
    ensures Truthful(st.selected, st.em, Timers(st).em)
  {
    hide AllLinkTimers, TriggerTimer, ResendOut, RefreshOut, SortLinks, SortSourceKeys, SortRouteKeys, Truthful;
    var a := AllLinkTimers(st, SortLinks(st.links.Keys));
    var b := TriggerTimer(a);
    var c := RequestTimer(b);
    AllLinkTimersFrame(st, SortLinks(st.links.Keys));
    TriggerTimerFrame(a);
    AllLinkTimersTruthful(st, SortLinks(st.links.Keys));
    TriggerTimerTruthful(a);
    ResendSilent(b, b.em, SortSourceKeys(b.requests.Keys));
    SilentTruthful(st.selected, b.em, c.em);
    RefreshSilent(c, c.em, SortRouteKeys(c.routes.Keys));
    SilentTruthful(st.selected, c.em, Timers(st).em);
    TruthfulTransitive(st.selected, st.em, a.em, b.em);
    TruthfulTransitive(st.selected, st.em, b.em, c.em);
    TruthfulTransitive(st.selected, st.em, c.em, Timers(st).em);
  }

  // ------------------------------------------------------------------ selection

  lemma AskSilent(st: State, sk: SourceKey, seqno: u16, targets: set<LinkId>, from: LinkId, hops: u8)
    ensures Truthful(map[], st.em, Ask(st, sk, seqno, targets, from, hops).em)
  {
    hide QueueAll, Truthful, SortLinks, AtLeast;
    var y := Ask(st, sk, seqno, targets, from, hops);
    TruthfulSame(map[], st.em, st.em);
    if y != st {
      QueueAllTruthful(map[], st.links, st.em, y.em, SortLinks(targets), RequestMessage(sk, y.requests[sk]));
    }
  }

  lemma LoseSilent(st: State, next: map<Prefix, Route>, p: Prefix)
    ensures Truthful(map[], st.em, Lose(st, next, p).em)
  {
    hide Ask, LossTargets, ScheduleTrigger, Truthful, NextSeqno;
    TruthfulSame(map[], st.em, st.em);
    if Lost(st, next, p) {
      LostSilent(st, p, Suppress(st, p), Lose(st, next, p));
    }
  }

  lemma LostSilent(st: State, p: Prefix, x: State, y: State)
    requires p in st.selected && x.em.out == st.em.out && x.em.sources == st.em.sources
    requires var sk := SourceKey(p, st.selected[p].routerId);
             y == x || (sk in st.em.sources
                        && y == Ask(x, sk, NextSeqno(st.em.sources[sk].seqno), LossTargets(st, p), 0, 64))
    ensures Truthful(map[], st.em, y.em)
  {
    hide Ask, LossTargets, Truthful, NextSeqno;
    TruthfulSame(map[], st.em, x.em);
    if y != x {
      var sk := SourceKey(p, st.selected[p].routerId);
      AskSilent(x, sk, NextSeqno(st.em.sources[sk].seqno), LossTargets(st, p), 0, 64);
      TruthfulTransitive(map[], st.em, x.em, y.em);
    }
  }

  lemma {:induction false} LoseAllSilent(st: State, next: map<Prefix, Route>, ps: seq<Prefix>)
    ensures Truthful(map[], st.em, LoseAll(st, next, ps).em)
  {
    hide Lose, Truthful;
    TruthfulSame(map[], st.em, st.em);
    if ps != [] {
      var n := |ps| - 1;
      var x := LoseAll(st, next, ps[..n]);
      LoseAllSilent(st, next, ps[..n]);
      LoseSilent(x, next, ps[n]);
      TruthfulTransitive(map[], st.em, x.em, LoseAll(st, next, ps).em);
    }
  }

  lemma AdoptSilent(st: State, next: map<Prefix, Route>)
    ensures Truthful(map[], st.em, Adopt(st, next).em)
  {
    hide LoseAll, Truthful, SortPrefixes, Announce, LiveDrops, WithDrops;
    var x := LoseAll(st, next, SortPrefixes(st.selected.Keys));
    LoseAllSilent(st, next, SortPrefixes(st.selected.Keys));
    TruthfulSame(map[], x.em, Adopt(st, next).em);
    TruthfulTransitive(map[], st.em, x.em, Adopt(st, next).em);
  }

  lemma SelectTruthful(st: State)
    ensures Truthful(SelectRoutes(st).selected, st.em, SelectRoutes(st).em)
  {
    hide Adopt, Choice, Answer, Unsettled, SortSourceKeys, Truthful;
    var x, y := Adopt(st, Choice(st)), SelectRoutes(st);
    AdoptSilent(st, Choice(st));
    SilentTruthful(y.selected, st.em, x.em);
    AnswerTruthful(x, x.em, SortSourceKeys(x.requests.Keys));
    TruthfulTransitive(y.selected, st.em, x.em, y.em);
  }

  // --------------------------------------------------------------------- events

  lemma AcceptSilent(st: State, id: LinkId, m: Message)
    requires m.Update?
    ensures Truthful(map[], st.em, AcceptUpdate(st, id, m).em)
  {
    hide Better, WantsFresh, Truthful, Ask, Learn, NextSeqno;
    var x, sk := Learn(st, id, m), SourceKey(m.prefix, m.routerId);
    LearnSilent(st, id, m);
    if sk in x.em.sources {
      var y := Ask(x, sk, NextSeqno(x.em.sources[sk].seqno), {id}, 0, 64);
      AskSilent(x, sk, NextSeqno(x.em.sources[sk].seqno), {id}, 0, 64);
      TruthfulTransitive(map[], st.em, x.em, y.em);
    }
  }

  lemma LearnSilent(st: State, id: LinkId, m: Message)
    requires m.Update?
    ensures Truthful(map[], st.em, Learn(st, id, m).em)
  {
    hide Truthful, NewCandidate, ScheduleTrigger;
    TruthfulSame(map[], st.em, Learn(st, id, m).em);
  }

  lemma UpdateSilent(st: State, id: LinkId, m: Message)
    requires id in st.links && m.Update?
    ensures Truthful(map[], st.em, ReceiveUpdate(st, id, m).em)
  {
    hide Admissible, HasRoom, AcceptUpdate, Truthful;
    TruthfulSame(map[], st.em, st.em);
    AcceptSilent(st, id, m);
  }

  lemma MessageSilent(st: State, id: LinkId, m: Message)
    requires id in st.links && !Asks(m)
    ensures Truthful(map[], st.em, ReceiveMessage(st, id, m).em)
  {
    hide ReceiveUpdate, Truthful, RetractedRoutes, HearHello, Queue, WireTime, BoundedLink, BoundedConfig;
    hide ReceiveSeqRequest, ReceiveWildcardRequest, Advertise;
    TruthfulSame(map[], st.em, st.em);
    if m.Update? {
      UpdateSilent(st, id, m);
    } else if m.AckRequest? {
      QueueTruthful(map[], st.links, st.em, ReceiveMessage(st, id, m).em, id, Ack(m.tag));
    }
  }

  lemma {:induction false} ReceiveSilent(st: State, id: LinkId, ms: seq<Message>)
    requires forall m :: m in ms ==> !Asks(m)
    ensures Truthful(map[], st.em, ReceiveAll(st, id, ms).em)
  {
    hide ReceiveMessage, Truthful, Asks;
    TruthfulSame(map[], st.em, st.em);
    if ms != [] {
      var n := |ms| - 1;
      var x := ReceiveAll(st, id, ms[..n]);
      ReceiveSilent(st, id, ms[..n]);
      if id in x.links {
        MessageSilent(x, id, ms[n]);
        TruthfulTransitive(map[], st.em, x.em, ReceiveMessage(x, id, ms[n]).em);
      }
    }
  }

  lemma ApplySilent(st: State, event: Event)
    requires event.AddLink? ==> BoundedLink(event.link)
    requires event.SetCost? ==> event.cost != 0
    requires forall m :: m in Messages(event) ==> !Asks(m)
    ensures Truthful(map[], st.em, Apply(st, event).em)
  {
    hide ReceiveAll, Truthful, NewLink, Queue, ClosedRoutes, BoundedLink, BoundedConfig;
    TruthfulSame(map[], st.em, st.em);
    match event
    case Receive(id, packet) =>
      if packet.decoded.Some? {
        ReceiveSilent(st, id, packet.decoded.value);
      }
    case AddLink(l) =>
      QueueTruthful(map[], st.links[l.id := NewLink(l, st.now)], st.em, Apply(st, event).em, l.id, WildcardRequest);
    case RemoveLink(id) => ClosedSilent(st.em, id);
    case _ =>
  }

  lemma ClosedSilent(em: Emission, id: LinkId)
    ensures Truthful(map[], em, em.(out := em.out - {id}))
  {
  }

  // ---------------------------------------------------------------------- steps

  lemma WorkTruthful(st: State, now: int, event: Event, w: State)
    requires Validate(st, event).None? && w == Work(st, now, event)
    requires forall m :: m in Messages(event) ==> !Asks(m)
    ensures Truthful(w.selected, Begin(st, now).em, w.em)
  {
    hide Apply, Begin, SelectRoutes, Timers, Truthful, Validate, Work, Messages;
    ValidateAdmits(st, now, event);
    var x := Begin(st, now);
    EventFits(st, event);
    var a := Apply(x, event);
    var b := SelectRoutes(a);
    WorkTimers(st, now, event, b);
    ApplySilent(x, event);
    SelectTruthful(a);
    TimersTruthful(b);
    TimersFrame(b);
    SilentTruthful(b.selected, x.em, a.em);
    TruthfulTransitive(b.selected, x.em, a.em, b.em);
    TruthfulTransitive(b.selected, x.em, b.em, w.em);
  }

  lemma EventFits(st: State, event: Event)
    requires Validate(st, event).None?
    ensures event.AddLink? ==> BoundedLink(event.link)
    ensures event.SetCost? ==> event.cost != 0
  {
    hide RoutablePrefix, ValidPrefix, BoundedLink;
  }

  /**
   Unless a step is asked for routes, which it answers while it is at it, every finite update
   it produces announces the origin, sequence number and metric of the route it selected; so
   do the packets it withholds, until they are released.  What it adds to the history are the
   distances of these routes.
   */
  lemma StepTruthful(st: State, now: int, event: Event, y: State, r: Result<Effects>)
    requires Valid(st) && Refusal(st, now, event).None? && Decoded(event) && (y, r) == Step(st, now, event)
    requires forall m :: m in Messages(event) ==> !Asks(m)
    ensures r.Ok? && forall m :: Carried(Produced(y, r.value), m) ==> States(y.selected, m)
    ensures forall sk :: sk in y.em.sources ==>
              || (sk in st.em.sources && y.em.sources[sk].Dist() == st.em.sources[sk].Dist())
              || Records(y.selected, sk, y.em.sources[sk])
  {
    hide Valid, Refusal, Decoded, Step, Work, Packets, Messages, Validate, States, Records, Begin, Carried, Sound;
    StepProduces(st, now, event, y, r);
    var w := Work(st, now, event);
    WorkTruthful(st, now, event, w);
    BeginEmission(st, now);
    WorkOpen(st, now, event, w);
    forall m | Carried(Produced(y, r.value), m) ensures States(y.selected, m) {
      PacketsCarry(w, m);
    }
  }

  lemma BeginEmission(st: State, now: int)
    requires Valid(st)
    ensures forall m :: !Emitted(Begin(st, now).em.out, m)
    ensures forall sk :: sk in Begin(st, now).em.sources ==>
              sk in st.em.sources && Begin(st, now).em.sources[sk] == st.em.sources[sk]
  {
    hide Sound, AgedRoutes, LiveRequests, SelfFeasible, Anchored;
  }

  lemma WorkOpen(st: State, now: int, event: Event, w: State)
    requires Valid(st) && Refusal(st, now, event).None? && Decoded(event)
    requires Validate(st, event).None? && w == Work(st, now, event)
    ensures w.em.out.Keys <= w.links.Keys
  {
    hide Work, Valid, Refusal, Sound, Decoded, Validate, AgedRoutes, LiveRequests;
    var sk := SourceKey(Prefix(NoFamily, 0, 0), 0);
    Unrefused(st, now, event);
    WorkAdvances(0, sk, st, now, event);
    BeginSound(st, now);
    AdvancesSound(0, sk, Begin(st, now), w);
    QueuesOpen(w);
  }

  // ----------------------------------------------------------------------- runs

  /** Packets that announce the routes of a table. */
  ghost predicate Announces(packets: seq<Datagram>, selected: map<Prefix, Route>) {
    forall m :: Carried(packets, m) ==> States(selected, m)
  }

  lemma TookTruthful(t: Trace, k: nat)
    requires IsTrace(t) && Took(t, k) && forall m :: m in Messages(t.moves[k].event) ==> !Asks(m)
    ensures |t.states| == |t.moves| + 1 && |t.results| == |t.moves| && t.results[k].Ok?
    ensures Announces(Produced(t.states[k + 1], t.results[k].value), t.states[k + 1].selected)
    ensures t.states[k + 1].pending != 0 ==> t.results[k].value.datagrams == []
  {
    hide IsTrace, Valid, Step, Refusal, Decoded, Carried, States, Messages, Asks, Produced;
    TraceSize(t);
    TookStep(t, k);
    var st, now, event, y, r := t.states[k], t.moves[k].now, t.moves[k].event, t.states[k + 1], t.results[k];
    StepTruthful(st, now, event, y, r);
    TwoPhase.StepWithholds(st, now, event, y, r);
  }

  /** While a revision is pending, nothing is selected anew. */
  lemma {:induction false} PendingTruthful(t: Trace, k: nat, i: nat)
    requires IsTrace(t) && Took(t, k) && forall m :: m in Messages(t.moves[k].event) ==> !Asks(m)
    requires k < i < |t.states| && forall j :: k < j <= i ==> t.states[j].pending != 0
    ensures Announces(t.states[i].held, t.states[i].selected)
  {
    hide IsTrace, Step, Commit, Messages, Asks, Announces;
    TookTruthful(t, k);
    if k + 1 < i {
      PendingTruthful(t, k, i - 1);
      TraceMove(t, i - 1);
      PendingStays(t.states[i - 1], t.moves[i - 1], t.states[i]);
    }
  }

  lemma PendingStays(st: State, m: Move, y: State)
    requires y == Respond(st, m).0 && st.pending != 0 && y.pending != 0
    ensures y.held == st.held && y.selected == st.selected
  {
    hide Step, Commit;
    match m
    case StepMove(now, event) => PendingRefuses(st, now, event);
    case CommitMove(revision, success) => CommitKeeps(st, revision, success, y);
  }

  lemma CommitKeeps(st: State, revision: nat, success: bool, y: State)
    requires y == Commit(st, revision, success).0
    ensures y.selected == st.selected && (y.pending != 0 ==> y.held == st.held)
  {
    hide BoundedConfig;
  }

  lemma PendingRefuses(st: State, now: int, event: Event)
    requires st.pending != 0
    ensures Step(st, now, event).0 == st && Step(st, now, event).1.Err?
  {
    hide Validate, Work;
  }

  /**
   Over every run, what a step or the commit of its revision hands out announces the routes
   selected at that moment, and nothing else, if the step was not asked for routes.
   */
  lemma {:induction false} HandedOutTruthful(t: Trace, k: nat, i: nat)
    requires IsTrace(t) && Took(t, k) && forall m :: m in Messages(t.moves[k].event) ==> !Asks(m)
    requires k <= i < |t.moves| && |t.states| == |t.moves| + 1 && |t.results| == |t.moves|
    requires forall j :: k < j <= i ==> t.states[j].pending != 0
    ensures t.results[i].Ok? ==> Announces(t.results[i].value.datagrams, t.states[i + 1].selected)
  {
    hide IsTrace, Step, Messages, Asks, States;
    TookTruthful(t, k);
    if k < i {
      PendingTruthful(t, k, i);
      TraceMove(t, i);
      if t.moves[i].StepMove? {
        PendingRefuses(t.states[i], t.moves[i].now, t.moves[i].event);
      }
    }
  }
}
