/**
 Triggered updates (section 3.7.2 of RFC 8966): a change of origin or reachability is
 followed by three full dumps to every live link within 450 milliseconds.
 */
module Triggered {
  import opened Arithmetic
  import opened Types
  import opened Sorting
  import opened Rules
  import opened Steps
  import opened Soundness
  import opened Progress
  import opened Selection
  import opened Invariant
  import opened Rest
  import Release
  import TwoPhase
  import opened Traces
  import Contentment
  import Quiet

  /** An armed trigger stays armed, for the same instant; only its repetitions may start over. */
  predicate StaysArmed(x: Trigger, y: Trigger) {
    x.on ==> y.on && y.at == x.at && (y.repeats == x.repeats || y.repeats == 2)
  }

  /** A change of origin or reachability leaves the trigger armed with both repetitions. */
  ghost predicate Reacts(x: State, y: State) {
    && StaysArmed(x.em.trigger, y.em.trigger)
    && (forall p :: OriginChanged(x.selected, y.selected, p) ==> y.em.trigger.on && y.em.trigger.repeats == 2)
  }

  lemma ReactsTransitive(x: State, y: State, z: State)
    requires Reacts(x, y) && Reacts(y, z)
    ensures Reacts(x, z)
  {
    forall p | OriginChanged(x.selected, z.selected, p) ensures z.em.trigger.on && z.em.trigger.repeats == 2 {
      assert OriginChanged(x.selected, y.selected, p) || OriginChanged(y.selected, z.selected, p);
    }
  }

  lemma ReactsNot(x: State, y: State)
    requires y.selected == x.selected && StaysArmed(x.em.trigger, y.em.trigger)
    ensures Reacts(x, y)
  {
  }

  // ---------------------------------------------------------------- advertising

  lemma ScheduleStays(t: Trigger, now: int, repeat: bool)
    ensures StaysArmed(t, ScheduleTrigger(t, now, repeat))
  {
    hide NextRandom, Jitter;
  }

  lemma AdvertiseStays(st: State, em: Emission, id: LinkId, p: Prefix, explicit: bool)
    ensures StaysArmed(em.trigger, Advertise(st, em, id, p, explicit).trigger)
  {
    hide Queue, Lowered, Announcement, ScheduleTrigger;
    ScheduleStays(em.trigger, st.now, true);
  }

  lemma {:induction false} AdvertiseAllStays(st: State, em: Emission, id: LinkId, ps: seq<Prefix>, explicit: bool)
    ensures StaysArmed(em.trigger, AdvertiseAll(st, em, id, ps, explicit).trigger)
  {
    hide Advertise;
    if ps != [] {
      var n := |ps| - 1;
      AdvertiseAllStays(st, em, id, ps[..n], explicit);
      AdvertiseStays(st, AdvertiseAll(st, em, id, ps[..n], explicit), id, ps[n], explicit);
    }
  }

  lemma {:induction false} AnswerStays(st: State, em: Emission, sks: seq<SourceKey>)
    ensures StaysArmed(em.trigger, Answer(st, em, sks).trigger)
  {
    hide Advertise, Settled;
    if sks != [] {
      var n := |sks| - 1;
      AnswerStays(st, em, sks[..n]);
      var sk := sks[n];
      if sk in st.requests {
        AdvertiseStays(st, Answer(st, em, sks[..n]), st.requests[sk].from, sk.prefix, true);
      }
    }
  }

  // ------------------------------------------------------------------ selection

  lemma AskTrigger(st: State, sk: SourceKey, seqno: u16, targets: set<LinkId>, from: LinkId, hops: u8)
    ensures Ask(st, sk, seqno, targets, from, hops).em.trigger == st.em.trigger
  {
    hide AtLeast, QueueAll, SortLinks;
  }

  lemma LoseStays(st: State, next: map<Prefix, Route>, p: Prefix)
    ensures StaysArmed(st.em.trigger, Lose(st, next, p).em.trigger) && Lose(st, next, p).now == st.now
  {
    hide Lost, LossTargets, Ask, ScheduleTrigger;
    ScheduleStays(st.em.trigger, st.now, true);
    LoseFrame(st, next, p);
    if Lost(st, next, p) {
      LostSelected(st, next, p);
      var sk := SourceKey(p, st.selected[p].routerId);
      if sk in st.em.sources {
        AskTrigger(Suppress(st, p), sk, NextSeqno(st.em.sources[sk].seqno), LossTargets(st, p), 0, 64);
      }
    }
  }

  lemma {:induction false} LoseAllStays(st: State, next: map<Prefix, Route>, ps: seq<Prefix>)
    ensures StaysArmed(st.em.trigger, LoseAll(st, next, ps).em.trigger)
  {
    hide Lose;
    if ps != [] {
      var n := |ps| - 1;
      LoseAllStays(st, next, ps[..n]);
      LoseStays(LoseAll(st, next, ps[..n]), next, ps[n]);
    }
  }

  lemma AnnounceReacts(t: Trigger, now: int, was: map<Prefix, Route>, next: map<Prefix, Route>)
    ensures var u := Announce(t, now, was, next, next.Keys);
            StaysArmed(t, u) && forall p :: OriginChanged(was, next, p) ==> u.on && u.repeats == 2
  {
    hide NextRandom, Jitter, DistanceChanged;
    ScheduleStays(t, now, true);
    ScheduleStays(t, now, false);
    forall p | OriginChanged(was, next, p) ensures exists q :: q in next.Keys && OriginChanged(was, next, q) {
      assert p in next.Keys;
    }
  }

  lemma AdoptReacts(st: State, next: map<Prefix, Route>)
    ensures Reacts(st, Adopt(st, next))
  {
    hide LoseAll, LiveDrops, WithDrops, Announce, OriginChanged, SortPrefixes;
    var x := LoseAll(st, next, SortPrefixes(st.selected.Keys));
    LoseAllStays(st, next, SortPrefixes(st.selected.Keys));
    LoseAllFrame(st, next, SortPrefixes(st.selected.Keys));
    AnnounceReacts(x.em.trigger, st.now, st.selected, Adopt(st, next).selected);
  }

  lemma SelectRoutesReacts(st: State)
    ensures Reacts(st, SelectRoutes(st))
  {
    hide Adopt, Choice, Answer, Unsettled, Reacts, SortSourceKeys;
    var x := Adopt(st, Choice(st));
    AdoptReacts(st, Choice(st));
    AnswerStays(x, x.em, SortSourceKeys(x.requests.Keys));
    ReactsNot(x, SelectRoutes(st));
    ReactsTransitive(st, x, SelectRoutes(st));
  }

  // -------------------------------------------------------------------- packets

  lemma LearnStays(st: State, id: LinkId, m: Message)
    requires m.Update?
    ensures StaysArmed(st.em.trigger, Learn(st, id, m).em.trigger)
  {
    hide ScheduleTrigger, NewCandidate;
    ScheduleStays(st.em.trigger, st.now, true);
  }

  lemma UpdateStays(st: State, id: LinkId, m: Message)
    requires id in st.links && m.Update?
    ensures StaysArmed(st.em.trigger, ReceiveUpdate(st, id, m).em.trigger)
  {
    hide Admissible, HasRoom, Learn, Ask, WantsFresh, Feasible;
    LearnStays(st, id, m);
    var x := Learn(st, id, m);
    var sk := SourceKey(m.prefix, m.routerId);
    if sk in x.em.sources {
      AskTrigger(x, sk, NextSeqno(x.em.sources[sk].seqno), {id}, 0, 64);
    } else {
      assert Feasible(x.em.sources, m.prefix, NewCandidate(st, m)) by {
        UnknownFeasible(x.em.sources, m.prefix, NewCandidate(st, m));
      }
    }
  }

  lemma RenewReacts(st: State, from: LinkId, p: Prefix)
    ensures Reacts(st, Renew(st, from, p))
  {
    hide SelectRoutes, Advertise, Reacts;
    var x := st.(seqno := NextSeqno(st.seqno));
    var y := SelectRoutes(x);
    ReactsNot(st, x);
    SelectRoutesReacts(x);
    AdvertiseStays(y, y.em, from, p, true);
    ReactsNot(y, Renew(st, from, p));
    ReactsTransitive(st, x, y);
    ReactsTransitive(st, y, Renew(st, from, p));
  }

  lemma ForwardStays(st: State, from: LinkId, m: Message)
    requires m.SeqRequest?
    ensures Forward(st, from, m).em.trigger == st.em.trigger && Forward(st, from, m).selected == st.selected
  {
    hide Advertised, IsBestRelay, AtLeast, QueueAll, SortLinks;
  }

  lemma SeqRequestReacts(st: State, from: LinkId, m: Message)
    requires m.SeqRequest?
    ensures Reacts(st, ReceiveSeqRequest(st, from, m))
  {
    hide Renew, Advertise, Forward, AtLeast, Reacts;
    RenewReacts(st, from, m.prefix);
    ForwardStays(st, from, m);
    ReactsNot(st, Forward(st, from, m));
    AdvertiseStays(st, st.em, from, m.prefix, true);
    ReactsNot(st, st.(em := Advertise(st, st.em, from, m.prefix, true)));
  }

  lemma PlainStays(st: State, id: LinkId, m: Message)
    requires id in st.links && !m.Update? && !m.SeqRequest?
    ensures StaysArmed(st.em.trigger, ReceiveMessage(st, id, m).em.trigger)
  {
    if m.Hello? || m.IHU? {
      hide ReceiveMessage;
      HearFrame(st, id, m);
    } else {
      hide Advertise, AdvertiseAll, HearHello, ReceiveUpdate, ReceiveSeqRequest, Queue, RetractedRoutes;
      hide HelloInterval, BoundedLink, SortPrefixes;
      if m.RouteRequest? {
        AdvertiseStays(st, st.em, id, m.prefix, true);
      }
      AdvertiseAllStays(st, st.em, id, SortPrefixes(st.selected.Keys), true);
    }
  }

  lemma MessageReacts(st: State, id: LinkId, m: Message)
    requires id in st.links
    ensures Reacts(st, ReceiveMessage(st, id, m))
  {
    if m.SeqRequest? {
      hide ReceiveSeqRequest, Reacts;
      SeqRequestReacts(st, id, m);
    } else {
      MessageFrame(st, id, m);
      if m.Update? {
        hide ReceiveUpdate, Reacts;
        UpdateStays(st, id, m);
        ReactsNot(st, ReceiveMessage(st, id, m));
      } else {
        hide ReceiveMessage, Reacts;
        PlainStays(st, id, m);
        ReactsNot(st, ReceiveMessage(st, id, m));
      }
    }
  }

  lemma OneReacts(st: State, id: LinkId, m: Message)
    ensures Reacts(st, ReceiveOne(st, id, m))
  {
    hide SelectRoutes, ReceiveMessage, Reacts;
    ReactsNot(st, st);
    SelectRoutesReacts(st);
    var x := if Asks(m) then SelectRoutes(st) else st;
    if id in x.links {
      MessageReacts(x, id, m);
      ReactsTransitive(st, x, ReceiveOne(st, id, m));
    }
  }

  lemma {:induction false} ReceiveAllReacts(st: State, id: LinkId, ms: seq<Message>)
    ensures Reacts(st, ReceiveAll(st, id, ms))
  {
    hide ReceiveOne, Reacts;
    if ms == [] {
      ReactsNot(st, st);
    } else {
      var n := |ms| - 1;
      ReceiveAllReacts(st, id, ms[..n]);
      OneReacts(ReceiveAll(st, id, ms[..n]), id, ms[n]);
      ReactsTransitive(st, ReceiveAll(st, id, ms[..n]), ReceiveAll(st, id, ms));
    }
  }

  lemma ApplyReacts(st: State, event: Event)
    requires event.AddLink? ==> BoundedLink(event.link)
    requires event.SetCost? ==> event.cost != 0
    ensures Reacts(st, Apply(st, event))
  {
    hide ReceiveAll, BoundedLink, Queue, NewLink, ClosedRoutes, Reacts;
    ReactsNot(st, st);
    if event.Receive? && event.packet.decoded.Some? {
      ReceiveAllReacts(st, event.id, event.packet.decoded.value);
    } else {
      ReactsNot(st, Apply(st, event));
    }
  }

  // --------------------------------------------------------------------- timers

  lemma LinkTimersStay(st: State, id: LinkId)
    ensures StaysArmed(st.em.trigger, LinkTimers(st, id).em.trigger)
  {
    hide Queue, Jitter, NextRandom, HelloInterval, Centis, AdvertiseAll, SortPrefixes, Rules.Heard;
    hide BoundedLink, BoundedConfig;
    var a := HelloTimer(st, id);
    var b := IHUTimer(a, id);
    HelloStays(st, id);
    IHUStays(a, id);
    UpdateTimerStays(b, id);
    hide HelloTimer, IHUTimer, UpdateTimer;
  }

  lemma HelloStays(st: State, id: LinkId)
    ensures StaysArmed(st.em.trigger, HelloTimer(st, id).em.trigger)
  {
    hide Queue, Jitter, NextRandom, HelloInterval, Centis, BoundedLink, BoundedConfig;
  }

  lemma IHUStays(st: State, id: LinkId)
    ensures StaysArmed(st.em.trigger, IHUTimer(st, id).em.trigger)
  {
    hide Queue, Jitter, NextRandom, HelloInterval, Centis, Rules.Heard, BoundedLink, BoundedConfig;
  }

  lemma UpdateTimerStays(st: State, id: LinkId)
    ensures StaysArmed(st.em.trigger, UpdateTimer(st, id).em.trigger)
  {
    hide Jitter, NextRandom, AdvertiseAll, SortPrefixes, BoundedLink, BoundedConfig;
    AdvertiseAllStays(st, st.em, id, SortPrefixes(st.selected.Keys), false);
  }

  lemma {:induction false} AllLinkTimersStay(st: State, ids: seq<LinkId>)
    ensures StaysArmed(st.em.trigger, AllLinkTimers(st, ids).em.trigger)
  {
    hide LinkTimers;
    if ids != [] {
      var n := |ids| - 1;
      AllLinkTimersStay(st, ids[..n]);
      LinkTimersStay(AllLinkTimers(st, ids[..n]), ids[n]);
    }
  }

  // ---------------------------------------------------------------------- dumps

  /** A message of the update kind that tells the neighbour on the link about p, unless an exemption holds. */
  predicate Told(st: State, em: Emission, id: LinkId, p: Prefix)
    requires id in st.links
  {
    if !Reachable(st.selected, p) then id in em.out && Retraction(st.cfg, p) in em.out[id]
    else
      var r := st.selected[p];
      || Gated(st.cfg, p, r)                                                                  // not authorized yet
      || r.link == id                                                                         // split horizon
      || (p.family == IPv4 && !IsValid(st.links[id].link.ipv4) && !st.cfg.ipv4ViaIPv6)        // no next hop
      || (SourceKey(p, r.routerId) !in em.sources && |em.sources| >= st.cfg.maxSources)       // no room for its history
      || (id in em.out && Announcement(st.cfg, st.links[id], p, r) in em.out[id])
  }

  /** Advertising only appends to queues and adds to the history, within its limit. */
  ghost predicate Grown(cfg: LiveConfig, x: Emission, y: Emission) {
    && x.sources.Keys <= y.sources.Keys
    && (|x.sources| >= cfg.maxSources ==> y.sources.Keys == x.sources.Keys)
    && (forall id :: id in x.out ==> id in y.out && forall m :: m in x.out[id] ==> m in y.out[id])
  }

  lemma GrownTransitive(cfg: LiveConfig, x: Emission, y: Emission, z: Emission)
    requires Grown(cfg, x, y) && Grown(cfg, y, z)
    ensures Grown(cfg, x, z)
  {
    Sizes(x.sources);
    Sizes(y.sources);
  }

  lemma AdvertiseGrows(st: State, em: Emission, id: LinkId, p: Prefix, explicit: bool)
    ensures Grown(st.cfg, em, Advertise(st, em, id, p, explicit))
  {
    hide Announcement, ScheduleTrigger, Gated, Lowered;
  }

  lemma AdvertiseTells(st: State, em: Emission, id: LinkId, p: Prefix)
    requires id in st.links
    ensures Told(st, Advertise(st, em, id, p, false), id, p)
  {
    hide Announcement, ScheduleTrigger, Gated, Lowered;
  }

  lemma ToldStill(st: State, x: Emission, y: Emission, id: LinkId, p: Prefix)
    requires id in st.links && Told(st, x, id, p) && Grown(st.cfg, x, y)
    ensures Told(st, y, id, p)
  {
    hide Announcement, Gated;
    Sizes(x.sources);
    Sizes(y.sources);
  }

  lemma {:induction false} AdvertiseAllTells(st: State, em: Emission, id: LinkId, ps: seq<Prefix>)
    requires id in st.links
    ensures var y := AdvertiseAll(st, em, id, ps, false);
            Grown(st.cfg, em, y) && forall p :: p in ps ==> Told(st, y, id, p)
  {
    hide Advertise, Told, Grown;
    if ps == [] {
      assert Grown(st.cfg, em, em) by { GrownNot(st.cfg, em); }
    } else {
      var n := |ps| - 1;
      var x := AdvertiseAll(st, em, id, ps[..n], false);
      var y := Advertise(st, x, id, ps[n], false);
      AdvertiseAllTells(st, em, id, ps[..n]);
      AdvertiseGrows(st, x, id, ps[n], false);
      AdvertiseTells(st, x, id, ps[n]);
      GrownTransitive(st.cfg, em, x, y);
      forall p | p in ps ensures Told(st, y, id, p) {
        if p in ps[..n] {
          ToldStill(st, x, y, id, p);
        } else {
          assert p == ps[n] by { assert ps == ps[..n] + [ps[n]]; }
        }
      }
    }
  }

  lemma GrownNot(cfg: LiveConfig, x: Emission)
    ensures Grown(cfg, x, x)
  {
  }

  lemma {:induction false} DumpAllTells(st: State, em: Emission, ids: seq<LinkId>)
    requires forall id :: id in ids ==> id in st.links
    ensures var y := DumpAll(st, em, ids);
            Grown(st.cfg, em, y) && forall id, p :: id in ids && p in st.selected ==> Told(st, y, id, p)
  {
    hide AdvertiseAll, Told, Grown, PrefixLess;
    if ids == [] {
      GrownNot(st.cfg, em);
    } else {
      var n := |ids| - 1;
      var x, y := DumpAll(st, em, ids[..n]), DumpAll(st, em, ids);
      DumpAllTells(st, em, ids[..n]);
      AdvertiseAllTells(st, x, ids[n], SortPrefixes(st.selected.Keys));
      GrownTransitive(st.cfg, em, x, y);
      forall id, p | id in ids && p in st.selected ensures Told(st, y, id, p) {
        if id in ids[..n] {
          ToldStill(st, x, y, id, p);
        } else {
          assert id == ids[n] by { assert ids == ids[..n] + [ids[n]]; }
          assert p in SortPrefixes(st.selected.Keys);
        }
      }
    }
  }

  // ----------------------------------------------------------------- the schedule

  const REPEAT: int := 150 * MILLISECOND

  /** At least k more dumps are due, the last of them at the given time at the latest. */
  predicate Owes(t: Trigger, k: nat, latest: int) {
    k == 0 || (t.on && t.repeats >= k - 1 && t.at + (k - 1) * REPEAT <= latest)
  }

  lemma StaysOwed(x: Trigger, y: Trigger, k: nat, latest: int)
    requires Owes(x, k, latest) && StaysArmed(x, y) && k <= 3
    ensures Owes(y, k, latest)
  {
  }

  /** The trigger timer of a step: the states before it. */
  ghost function BeforeTrigger(st: State, now: int, event: Event): State
    requires Validate(st, event).None?
  {
    var b := SelectRoutes(Apply(Begin(st, now), event));
    AllLinkTimers(b, SortLinks(b.links.Keys))
  }

  /** The step dumps its routes to every link because the trigger is due. */
  ghost predicate Dumps(st: State, now: int, event: Event) {
    Validate(st, event).None? && TriggerDue(BeforeTrigger(st, now, event))
  }

  lemma WorkByTrigger(st: State, now: int, event: Event)
    requires Validate(st, event).None?
    ensures var a, w := BeforeTrigger(st, now, event), Work(st, now, event);
            w.em.trigger == TriggerTimer(a).em.trigger && w.selected == a.selected
  {
    hide Apply, Expire, SelectRoutes, AllLinkTimers, TriggerTimer, ResendOut, RefreshOut, ResendDue;
    hide RefreshDue, SortLinks, SortSourceKeys, SortRouteKeys;
    var a := BeforeTrigger(st, now, event);
    TriggerRested(a);
    RequestsRested(TriggerTimer(a));
    RefreshRested(RequestTimer(TriggerTimer(a)));
  }

  lemma BeforeReacts(st: State, now: int, event: Event)
    requires Validate(st, event).None?
    ensures Reacts(st, BeforeTrigger(st, now, event))
  {
    hide Apply, SelectRoutes, AllLinkTimers, Reacts, AgedRoutes, LiveSources, LiveRequests, Validate, SortLinks;
    ValidateAdmits(st, now, event);
    var x := Begin(st, now);
    ReactsNot(st, x);
    ApplyReacts(x, event);
    var b := SelectRoutes(Apply(x, event));
    SelectRoutesReacts(Apply(x, event));
    AllLinkTimersStay(b, SortLinks(b.links.Keys));
    AllLinkTimersFrame(b, SortLinks(b.links.Keys));
    ReactsNot(b, BeforeTrigger(st, now, event));
    ReactsTransitive(st, x, Apply(x, event));
    ReactsTransitive(st, Apply(x, event), b);
    ReactsTransitive(st, b, BeforeTrigger(st, now, event));
  }

  lemma {:induction false} DumpAllStays(st: State, em: Emission, ids: seq<LinkId>)
    ensures StaysArmed(em.trigger, DumpAll(st, em, ids).trigger)
  {
    hide AdvertiseAll, SortPrefixes;
    if ids != [] {
      var n := |ids| - 1;
      DumpAllStays(st, em, ids[..n]);
      AdvertiseAllStays(st, DumpAll(st, em, ids[..n]), ids[n], SortPrefixes(st.selected.Keys), false);
    }
  }

  /** A due trigger is armed again, its repetitions spent one by one. */
  lemma RearmedTrigger(a: State)
    requires TriggerDue(a)
    ensures var t, u := a.em.trigger, TriggerTimer(a).em.trigger;
            t.repeats > 0 ==>
              && u.on && a.now + 100 * MILLISECOND <= u.at <= a.now + REPEAT
              && (u.repeats == t.repeats - 1 || u.repeats == 1)
  {
    hide DumpAll, NextRandom, SortLinks;
    DumpAllStays(a, a.em, SortLinks(a.links.Keys));
  }

  lemma TriggerOwes(a: State, k: nat, latest: int)
    requires Owes(a.em.trigger, k, latest) && 1 <= k <= 3 && a.now <= a.em.trigger.at && a.em.trigger.repeats <= 2
    ensures Owes(TriggerTimer(a).em.trigger, if TriggerDue(a) then k - 1 else k, latest)
  {
    if TriggerDue(a) {
      if k > 1 {
        RearmedTrigger(a);
      }
      hide TriggerTimer;
    }
  }

  lemma BeginClock(st: State, now: int)
    ensures Begin(st, now).now == now
  {
    hide AgedRoutes, LiveSources, LiveRequests;
  }

  lemma BeforeSound(st: State, now: int, event: Event)
    requires Valid(st) && Refusal(st, now, event).None? && Decoded(event) && Validate(st, event).None?
    ensures Sound(BeforeTrigger(st, now, event)) && BeforeTrigger(st, now, event).now == now
  {
    hide Valid, Advances, Sound, Grounded, Decoded, Expire, SelectRoutes, AllLinkTimers, BoundedLink;
    hide RoutablePrefix, ValidPrefix, Admitted, Refusal, Apply, SortLinks;
    var sk := SourceKey(Prefix(NoFamily, 0, 0), 0);
    var x := Begin(st, now);
    Release.Unrefused(st, now, event);
    BeginSound(st, now);
    assert Admitted(x, event) by { ValidateAdmits(st, now, event); }
    ApplyAdvances(0, sk, x, event);
    var a := Apply(x, event);
    AdvancesSound(0, sk, x, a);
    SelectRoutesAdvances(0, sk, a);
    var b := SelectRoutes(a);
    AdvancesSound(0, sk, a, b);
    AllLinkTimersAdvances(0, sk, b, SortLinks(b.links.Keys));
    AdvancesSound(0, sk, b, BeforeTrigger(st, now, event));
    assert x.now == now by { BeginClock(st, now); }
  }

  lemma SoundTrigger(st: State)
    requires Sound(st)
    ensures TriggerOk(st.now, st.em.trigger)
  {
    hide LocalOk, RoutesOk, SelectedOk, DropsOk, RequestsOk, LinksOk, SourcesOk, Room;
  }

  /** A step on time pays off one dump, or keeps what is owed. */
  lemma {:induction false} StepOwes(st: State, now: int, event: Event, y: State, r: Result<Effects>, k: nat,
      latest: int)
    requires Valid(st) && Refusal(st, now, event).None? && Decoded(event) && (y, r) == Step(st, now, event)
    requires Owes(st.em.trigger, k, latest) && 1 <= k <= 3 && now <= st.em.trigger.at
    ensures Owes(Completed(y).em.trigger, if Dumps(st, now, event) then k - 1 else k, latest)
  {
    hide Valid, Sound, Refusal, Decoded, Validate, Step, Work, BeforeTrigger, TriggerTimer, TriggerDue;
    hide OriginChanged, Snapshot, Packets, Completed, Owes;
    Contentment.CompletedWork(st, now, event, y, r);
    var a := BeforeTrigger(st, now, event);
    BeforeReacts(st, now, event);
    BeforeSound(st, now, event);
    SoundTrigger(a);
    WorkByTrigger(st, now, event);
    StaysOwed(st.em.trigger, a.em.trigger, k, latest);
    assert a.now <= a.em.trigger.at && a.em.trigger.repeats <= 2 by { OwesArmed(st.em.trigger, k, latest); }
    TriggerOwes(a, k, latest);
  }

  lemma OwesArmed(t: Trigger, k: nat, latest: int)
    requires Owes(t, k, latest) && k >= 1
    ensures t.on && t.at <= latest
  {
  }

  /** A change of origin or reachability owes three dumps within 450 milliseconds. */
  lemma {:induction false} ChangeOwes(st: State, now: int, event: Event, y: State, r: Result<Effects>, p: Prefix)
    requires Valid(st) && Refusal(st, now, event).None? && Decoded(event) && (y, r) == Step(st, now, event)
    requires OriginChanged(st.selected, y.selected, p)
    ensures Owes(Completed(y).em.trigger, if Dumps(st, now, event) then 2 else 3, now + 3 * REPEAT)
  {
    hide Valid, Sound, Refusal, Decoded, Validate, Step, Work, BeforeTrigger, TriggerTimer, TriggerDue;
    hide OriginChanged, Snapshot, Packets;
    Contentment.CompletedWork(st, now, event, y, r);
    var a := BeforeTrigger(st, now, event);
    BeforeReacts(st, now, event);
    BeforeSound(st, now, event);
    SoundTrigger(a);
    WorkByTrigger(st, now, event);
    Release.StepProduces(st, now, event, y, r);
    if TriggerDue(a) {
      RearmedTrigger(a);
    } else {
      Undue(a);
    }
  }

  lemma Undue(a: State)
    requires !TriggerDue(a)
    ensures TriggerTimer(a) == a
  {
  }

  // ----------------------------------------------------------------------- runs

  /** Move i is an accepted step in which the trigger dumps all routes to every link. */
  ghost predicate DumpsAt(t: Trace, i: int) {
    Took(t, i) && |t.states| == |t.moves| + 1 && Dumps(t.states[i], t.moves[i].now, t.moves[i].event)
  }

  /** No step between the moves i and j comes later than the trigger armed at the time. */
  predicate Punctual(t: Trace, i: nat, j: nat) {
    forall k {:trigger t.moves[k]} ::
      i <= k < j && k < |t.moves| && k < |t.states| && Took(t, k) && t.states[k].em.trigger.on ==>
      t.moves[k].now <= t.states[k].em.trigger.at
  }

  /** The number of dumps the trigger causes between the moves i and j, at the given time or before it. */
  ghost function DumpsBy(t: Trace, i: nat, j: nat, latest: int): nat {
    if j <= i then 0
    else DumpsBy(t, i, j - 1, latest) + (if DumpsAt(t, j - 1) && t.moves[j - 1].now <= latest then 1 else 0)
  }

  lemma MoveOwes(t: Trace, i: nat, k: nat, latest: int)
    requires IsTrace(t) && i < |t.moves| && |t.states| == |t.moves| + 1
    requires Owes(t.states[i].em.trigger, k, latest) && 1 <= k <= 3
    requires Took(t, i) ==> t.moves[i].now <= t.states[i].em.trigger.at
    ensures Owes(t.states[i + 1].em.trigger, if DumpsAt(t, i) then k - 1 else k, latest)
  {
    hide IsTrace, Valid, Step, Refusal, Decoded, Owes, Dumps;
    var x, y := t.states[i], t.states[i + 1];
    TraceMove(t, i);
    TraceValid(t, i);
    match t.moves[i]
    case StepMove(now, event) =>
      TwoPhase.StepForward(x, now, event, y, t.results[i]);
      if t.results[i].Ok? {
        StepOwes(x, now, event, y, t.results[i], k, latest);
        CommitTrigger(y, y.pending, true);
      }
    case CommitMove(revision, success) => CommitTrigger(x, revision, success);
  }

  lemma CommitTrigger(st: State, revision: nat, success: bool)
    ensures Commit(st, revision, success).0.em == st.em
  {
  }

  lemma {:induction false} DebtPaid(t: Trace, i: nat, j: nat, k: nat, latest: int)
    requires IsTrace(t) && i <= j < |t.states| && Punctual(t, i, j)
    requires Owes(t.states[i].em.trigger, k, latest) && k <= 3
    ensures var c := DumpsBy(t, i, j, latest); c < k ==> Owes(t.states[j].em.trigger, k - c, latest)
    decreases j
  {
    hide IsTrace, Owes, Dumps;
    if i < j {
      TraceSize(t);
      DebtPaid(t, i, j - 1, k, latest);
      var c := DumpsBy(t, i, j - 1, latest);
      if c < k {
        OwesArmed(t.states[j - 1].em.trigger, k - c, latest);
        assert Took(t, j - 1) ==> t.moves[j - 1].now <= t.states[j - 1].em.trigger.at;
        MoveOwes(t, j - 1, k - c, latest);
      }
    }
  }

  /**
   Triggered updates are complete.  When a step changes the origin or reachability of a
   prefix, or selects it first, then in every run that steps no later than the armed trigger
   and goes on for more than 450 milliseconds, three dumps to every live link are made
   within those 450 milliseconds.
   */
  lemma {:induction false} ThreeDumps(t: Trace, i: nat, j: nat, p: Prefix)
    requires IsTrace(t) && i < j < |t.moves| && |t.states| == |t.moves| + 1 && Took(t, i) && Took(t, j)
    requires Punctual(t, i + 1, j + 1)
    ensures var latest := t.moves[i].now + 3 * REPEAT;
            OriginChanged(t.states[i].selected, t.states[i + 1].selected, p) && t.moves[j].now > latest ==>
              DumpsBy(t, i, j, latest) >= 3
  {
    hide IsTrace, Valid, Step, Refusal, Decoded, Owes, Dumps, OriginChanged;
    var latest := t.moves[i].now + 3 * REPEAT;
    if OriginChanged(t.states[i].selected, t.states[i + 1].selected, p) && t.moves[j].now > latest {
      var k := if DumpsAt(t, i) then 2 else 3;
      TookStep(t, i);
      ChangeOwes(t.states[i], t.moves[i].now, t.moves[i].event, t.states[i + 1], t.results[i], p);
      CommitTrigger(t.states[i + 1], t.states[i + 1].pending, true);
      DebtPaid(t, i + 1, j, k, latest);
      var c := DumpsBy(t, i + 1, j, latest);
      DumpsFrom(t, i, j, latest);
      if c < k {
        OwesArmed(t.states[j].em.trigger, k - c, latest);
      }
    }
  }

  /** Counting from one move earlier adds that move's dump. */
  lemma {:induction false} DumpsFrom(t: Trace, i: nat, j: nat, latest: int)
    requires i < j
    ensures DumpsBy(t, i, j, latest)
         == DumpsBy(t, i + 1, j, latest) + (if DumpsAt(t, i) && t.moves[i].now <= latest then 1 else 0)
    decreases j
  {
    hide DumpsAt, Took;
    if i + 1 < j {
      DumpsFrom(t, i, j - 1, latest);
    } else {
      assert DumpsBy(t, i, i, latest) == 0;
    }
  }

  lemma DumpTells(a: State, id: LinkId, p: Prefix)
    requires TriggerDue(a) && id in a.links && p in a.selected
    ensures Told(a, TriggerTimer(a).em, id, p)
  {
    hide DumpAll, Told, LinkLess, Rearm;
    var ids := SortLinks(a.links.Keys);
    DumpAllTells(a, a.em, ids);
    assert id in ids;
    ToldSame(a, DumpAll(a, a.em, ids), TriggerTimer(a).em, id, p);
  }

  lemma ToldSame(st: State, x: Emission, y: Emission, id: LinkId, p: Prefix)
    requires id in st.links && Told(st, x, id, p) && y.sources == x.sources && y.out == x.out
    ensures Told(st, y, id, p)
  {
    hide Announcement, Gated;
  }

  /** Each of those dumps tells every live link about every prefix, as far as it may. */
  lemma {:induction false} DumpIsFull(st: State, now: int, event: Event, id: LinkId, p: Prefix)
    requires Dumps(st, now, event)
    requires var a := BeforeTrigger(st, now, event); id in a.links && p in a.selected
    ensures var a := BeforeTrigger(st, now, event); Told(a, TriggerTimer(a).em, id, p)
  {
    hide BeforeTrigger, Told, TriggerTimer, TriggerDue, Validate;
    DumpTells(BeforeTrigger(st, now, event), id, p);
  }

  // ------------------------------------------------------------------ winding down

  /** No selected route waits for its authorization. */
  predicate Ungated(st: State) { forall p :: p in st.selected ==> !Gated(st.cfg, p, st.selected[p]) }

  /** The same schedule, whatever was drawn from the random state meanwhile. */
  predicate SameSchedule(x: Trigger, y: Trigger) { y.on == x.on && y.at == x.at && y.repeats == x.repeats }

  lemma AdvertiseSame(st: State, em: Emission, id: LinkId, p: Prefix, explicit: bool)
    requires Ungated(st)
    ensures Advertise(st, em, id, p, explicit).trigger == em.trigger
  {
    hide Queue, Lowered, Announcement, ScheduleTrigger, Gated;
  }

  lemma {:induction false} AdvertiseAllSame(st: State, em: Emission, id: LinkId, ps: seq<Prefix>, explicit: bool)
    requires Ungated(st)
    ensures AdvertiseAll(st, em, id, ps, explicit).trigger == em.trigger
  {
    hide Advertise, Ungated;
    if ps != [] {
      var n := |ps| - 1;
      AdvertiseAllSame(st, em, id, ps[..n], explicit);
      AdvertiseSame(st, AdvertiseAll(st, em, id, ps[..n], explicit), id, ps[n], explicit);
    }
  }

  lemma {:induction false} AnswerSame(st: State, em: Emission, sks: seq<SourceKey>)
    requires Ungated(st)
    ensures Answer(st, em, sks).trigger == em.trigger
  {
    hide Advertise, Ungated, Settled;
    if sks != [] {
      var n := |sks| - 1;
      AnswerSame(st, em, sks[..n]);
      if sks[n] in st.requests {
        AdvertiseSame(st, Answer(st, em, sks[..n]), st.requests[sks[n]].from, sks[n].prefix, true);
      }
    }
  }

  lemma {:induction false} DumpAllSame(st: State, em: Emission, ids: seq<LinkId>)
    requires Ungated(st)
    ensures DumpAll(st, em, ids).trigger == em.trigger
  {
    hide AdvertiseAll, Ungated, SortPrefixes;
    if ids != [] {
      var n := |ids| - 1;
      DumpAllSame(st, em, ids[..n]);
      AdvertiseAllSame(st, DumpAll(st, em, ids[..n]), ids[n], SortPrefixes(st.selected.Keys), false);
    }
  }

  lemma LinkTimersSame(st: State, id: LinkId)
    requires Ungated(st)
    ensures SameSchedule(st.em.trigger, LinkTimers(st, id).em.trigger)
  {
    hide Queue, Jitter, NextRandom, HelloInterval, Centis, AdvertiseAll, SortPrefixes, Rules.Heard;
    hide BoundedLink, BoundedConfig, Ungated;
    var a := HelloTimer(st, id);
    var b := IHUTimer(a, id);
    HelloSame(st, id);
    HelloTimerFrame(st, id);
    IHUSame(a, id);
    IHUTimerFrame(a, id);
    UngatedReads(st, b);
    UpdateTimerSame(b, id);
    hide HelloTimer, IHUTimer, UpdateTimer;
  }

  lemma UngatedReads(x: State, y: State)
    requires Ungated(x) && y.cfg == x.cfg && y.selected == x.selected
    ensures Ungated(y)
  {
    hide Gated;
  }

  lemma HelloSame(st: State, id: LinkId)
    ensures SameSchedule(st.em.trigger, HelloTimer(st, id).em.trigger)
  {
    hide Queue, Jitter, NextRandom, HelloInterval, Centis, BoundedLink, BoundedConfig;
  }

  lemma IHUSame(st: State, id: LinkId)
    ensures SameSchedule(st.em.trigger, IHUTimer(st, id).em.trigger)
  {
    hide Queue, Jitter, NextRandom, HelloInterval, Centis, Rules.Heard, BoundedLink, BoundedConfig;
  }

  lemma UpdateTimerSame(st: State, id: LinkId)
    requires Ungated(st)
    ensures SameSchedule(st.em.trigger, UpdateTimer(st, id).em.trigger)
  {
    hide Jitter, NextRandom, AdvertiseAll, SortPrefixes, BoundedLink, BoundedConfig, Ungated;
    AdvertiseAllSame(st, st.em, id, SortPrefixes(st.selected.Keys), false);
  }

  lemma {:induction false} AllLinkTimersSame(st: State, ids: seq<LinkId>)
    requires Ungated(st)
    ensures SameSchedule(st.em.trigger, AllLinkTimers(st, ids).em.trigger)
  {
    hide LinkTimers, Ungated;
    if ids != [] {
      var n := |ids| - 1;
      AllLinkTimersSame(st, ids[..n]);
      AllLinkTimersFrame(st, ids[..n]);
      UngatedReads(st, AllLinkTimers(st, ids[..n]));
      LinkTimersSame(AllLinkTimers(st, ids[..n]), ids[n]);
    }
  }

  /** Selecting the same routes again leaves the trigger alone. */
  lemma AdoptSame(st: State, next: map<Prefix, Route>)
    requires Adopt(st, next).selected == st.selected && forall p :: p in next ==> !next[p].unreachable
    ensures Adopt(st, next).em.trigger == st.em.trigger
  {
    hide LoseAll, SortPrefixes, ScheduleTrigger, LiveDrops;
    var ps := SortPrefixes(st.selected.Keys);
    AdoptTables(st, next);
    forall p | p in ps ensures !Lost(st, next, p) {
      NotLost(st, next, p);
    }
    Quiet.LoseNone(st, next, ps);
  }

  lemma NotLost(st: State, next: map<Prefix, Route>, p: Prefix)
    requires st.selected == WithDrops(next, Adopt(st, next).drops) && p in st.selected
    ensures !Lost(st, next, p)
  {
    hide Adopt;
  }

  lemma SelectSame(st: State)
    requires Ungated(st) && SelectRoutes(st).selected == st.selected
    ensures SelectRoutes(st).em.trigger == st.em.trigger
  {
    hide Adopt, Choice, Answer, Unsettled, Ungated, SortSourceKeys;
    var next := Choice(st);
    var x := Adopt(st, next);
    AdoptFrame(st, next);
    forall p | p in next ensures !next[p].unreachable { ChoiceStands(st, next, p); }
    AdoptSame(st, next);
    UngatedReads(st, x);
    AnswerSame(x, x.em, SortSourceKeys(x.requests.Keys));
  }

  /** Dumps the trigger will still cause by itself. */
  function Charge(t: Trigger): int { if t.on then t.repeats + 1 else 0 }

  lemma RearmSpends(a: State)
    requires Ungated(a) && a.em.trigger.repeats >= 0
    ensures Charge(TriggerTimer(a).em.trigger) == Charge(a.em.trigger) - (if TriggerDue(a) then 1 else 0)
  {
    hide DumpAll, NextRandom, Jitter, Ungated, SortLinks;
    DumpAllSame(a, a.em, SortLinks(a.links.Keys));
  }

  lemma BeforeSame(st: State, now: int)
    requires Ungated(st) && BeforeTrigger(st, now, Tick).selected == st.selected
    ensures SameSchedule(st.em.trigger, BeforeTrigger(st, now, Tick).em.trigger)
    ensures Ungated(BeforeTrigger(st, now, Tick))
  {
    hide SelectRoutes, AllLinkTimers, AgedRoutes, LiveSources, LiveRequests, SortLinks, Ungated;
    var x := Begin(st, now);
    var b := SelectRoutes(x);
    AllLinkTimersFrame(b, SortLinks(b.links.Keys));
    SelectRoutesFrame(x);
    UngatedReads(st, x);
    SelectSame(x);
    UngatedReads(st, b);
    AllLinkTimersSame(b, SortLinks(b.links.Keys));
    UngatedReads(st, BeforeTrigger(st, now, Tick));
  }

  /**
   Without further change and with open gates a tick spends what the trigger holds: each
   dump uses up one repetition, the last one switches the trigger off, and so the dumps
   end after at most three.
   */
  lemma {:induction false} TickSpends(st: State, now: int, y: State, r: Result<Effects>)
    requires Valid(st) && Refusal(st, now, Tick).None? && (y, r) == Step(st, now, Tick)
    requires y.selected == st.selected && Ungated(st)
    ensures Charge(Completed(y).em.trigger) == Charge(st.em.trigger) - (if Dumps(st, now, Tick) then 1 else 0)
    ensures 0 <= Charge(Completed(y).em.trigger) <= 3
  {
    hide Valid, Sound, Refusal, Step, Work, BeforeTrigger, TriggerTimer, TriggerDue, Snapshot, Packets, Ungated;
    Contentment.CompletedWork(st, now, Tick, y, r);
    var a := BeforeTrigger(st, now, Tick);
    BeforeSound(st, now, Tick);
    SoundTrigger(a);
    WorkByTrigger(st, now, Tick);
    Release.StepProduces(st, now, Tick, y, r);
    BeforeSame(st, now);
    RearmSpends(a);
    StepRested(st, now, Tick, y, r);
    assert TriggerOk(Completed(y).now, Completed(y).em.trigger) by {
      ValidSound(Completed(y));
      SoundTrigger(Completed(y));
    }
  }

  /**
   Over every run likewise: with no change and open gates each tick spends one dump or none,
   until the trigger is off.
   */
  lemma {:induction false} WindsDown(t: Trace, i: nat)
    requires IsTrace(t) && Took(t, i) && |t.states| == |t.moves| + 1 && t.moves[i].event == Tick
    requires t.states[i + 1].selected == t.states[i].selected && Ungated(t.states[i])
    ensures Charge(t.states[i + 1].em.trigger) == Charge(t.states[i].em.trigger) - (if DumpsAt(t, i) then 1 else 0)
    ensures 0 <= Charge(t.states[i + 1].em.trigger) <= 3
  {
    hide IsTrace, Valid, Step, Refusal, Dumps, Ungated;
    TookStep(t, i);
    TickSpends(t.states[i], t.moves[i].now, t.states[i + 1], t.results[i]);
    CommitTrigger(t.states[i + 1], t.states[i + 1].pending, true);
  }

  /** Between the moves i and j the engine only ticks, changes no route, and its gates are open. */
  predicate Calm(t: Trace, i: nat, j: nat)
    requires |t.states| == |t.moves| + 1
  {
    forall k {:trigger Took(t, k)} :: i <= k < j && Took(t, k) ==>
      t.moves[k].event == Tick && t.states[k + 1].selected == t.states[k].selected && Ungated(t.states[k])
  }

  lemma AcceptedTime(t: Trace, i: nat)
    requires IsTrace(t) && Took(t, i)
    ensures t.moves[i].now <= MAX_DURATION
  {
    hide IsTrace, Valid, Step, Refusal, Decoded;
    TookStep(t, i);
    Release.Unrefused(t.states[i], t.moves[i].now, t.moves[i].event);
  }

  /** In a calm stretch of a run every dump is paid for by the trigger. */
  lemma {:induction false} CalmSpends(t: Trace, i: nat, j: nat)
    requires IsTrace(t) && i <= j < |t.states| && |t.states| == |t.moves| + 1 && Calm(t, i, j)
    ensures Charge(t.states[j].em.trigger) == Charge(t.states[i].em.trigger) - DumpsBy(t, i, j, MAX_DURATION)
    decreases j
  {
    hide IsTrace, Ungated, Charge, Dumps;
    if i < j {
      CalmSpends(t, i, j - 1);
      if Took(t, j - 1) {
        WindsDown(t, j - 1);
        AcceptedTime(t, j - 1);
      } else {
        OtherMove(t, j - 1);
      }
    }
  }

  lemma {:induction false} DumpsSooner(t: Trace, i: nat, j: nat, latest: int, later: int)
    requires latest <= later
    ensures DumpsBy(t, i, j, latest) <= DumpsBy(t, i, j, later)
    decreases j
  {
    hide DumpsAt, Took;
    if i < j {
      DumpsSooner(t, i, j - 1, latest, later);
    }
  }

  lemma FullyOwes(t: Trigger)
    requires t.on && t.repeats >= 0
    ensures Owes(t, Charge(t), t.at + t.repeats * REPEAT)
  {
  }

  lemma ValidTrigger(t: Trace, i: nat)
    requires IsTrace(t) && i < |t.states|
    ensures 0 <= t.states[i].em.trigger.repeats <= 2
  {
    hide IsTrace, Sound, SelfFeasible, Anchored;
    TraceValid(t, i);
    SoundTrigger(t.states[i]);
  }

  /**
   Triggered updates end.  In every run that steps no later than the armed trigger, changes no
   route and has its gates open, the trigger makes as many dumps as it held, none later than
   150 milliseconds for each repetition after it was due, and is off from then on.
   */
  lemma {:induction false} SwitchesOff(t: Trace, i: nat, j: nat)
    requires IsTrace(t) && i <= j < |t.moves| && |t.states| == |t.moves| + 1
    requires Calm(t, i, j) && Took(t, j) && Punctual(t, i, j + 1) && t.states[i].em.trigger.on
    ensures var u := t.states[i].em.trigger; var latest := u.at + u.repeats * REPEAT;
            t.moves[j].now > latest ==>
              && !t.states[j].em.trigger.on
              && DumpsBy(t, i, j, latest) == DumpsBy(t, i, j, MAX_DURATION) == u.repeats + 1 <= 3
  {
    hide IsTrace, Owes, Dumps, Ungated, Calm;
    var u := t.states[i].em.trigger;
    var latest := u.at + u.repeats * REPEAT;
    if t.moves[j].now > latest {
      ValidTrigger(t, i);
      ValidTrigger(t, j);
      FullyOwes(u);
      DebtPaid(t, i, j, Charge(u), latest);
      var c := DumpsBy(t, i, j, latest);
      if c < Charge(u) {
        OwesArmed(t.states[j].em.trigger, Charge(u) - c, latest);
      }
      AcceptedTime(t, j);
      DumpsSooner(t, i, j, latest, MAX_DURATION);
      CalmSpends(t, i, j);
    }
  }
}
