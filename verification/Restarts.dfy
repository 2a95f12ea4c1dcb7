/**
 The suppressions a restart brings with it, held out in full: a prefix that nothing feasible
 is heard of stays unreachable for as long as its checkpoint says.
 */
module Restarts {
  import opened Arithmetic
  import opened Types
  import opened Sorting
  import opened Rules
  import opened Steps
  import opened Soundness
  import opened Progress
  import opened Selection
  import opened Invariant
  import opened Provenance
  import opened Rest
  import opened Traces
  import opened Holddown
  import Quiet
  import Release
  import Tally
  import Upkeep

  /** The candidate is retracted, or infeasible for as long as it lives. */
  predicate Barred(sources: map<SourceKey, Source>, p: Prefix, c: Candidate) {
    var sk := SourceKey(p, c.id);
    || c.advertised == INFINITY
    || (sk in sources && !Better(c.Dist(), sources[sk].Dist()) && c.expires <= sources[sk].expires)
  }

  /** p is suppressed until the given time, and there is no way to route it. */
  predicate Muted(st: State, p: Prefix, until: int) {
    && p !in st.local && p in st.drops && st.drops[p] == until && !Reachable(st.selected, p)
    && (forall k :: k in st.routes && k.prefix == p ==> Barred(st.em.sources, p, st.routes[k]))
  }

  /** The history for p is the same, and no other entry has gone. */
  predicate PrefixKept(x: map<SourceKey, Source>, y: map<SourceKey, Source>, p: Prefix) {
    && x.Keys <= y.Keys
    && (forall sk :: sk in y && sk.prefix == p ==> sk in x && y[sk] == x[sk])
  }

  /** The sources of the routes that can be advertised. */
  function Origins(selected: map<Prefix, Route>): set<SourceKey> {
    set p | p in selected && !selected[p].unreachable :: SourceKey(p, selected[p].routerId)
  }

  /** No entry has gone, and only those of the given sources may have changed. */
  predicate Touched(x: map<SourceKey, Source>, y: map<SourceKey, Source>, sks: set<SourceKey>) {
    && x.Keys <= y.Keys
    && (forall sk :: sk in y && sk !in sks ==> sk in x && y[sk] == x[sk])
  }

  lemma TouchedPrefix(selected: map<Prefix, Route>, x: map<SourceKey, Source>, y: map<SourceKey, Source>, p: Prefix)
    requires Touched(x, y, Origins(selected)) && !Reachable(selected, p)
    ensures PrefixKept(x, y, p)
  {
  }

  lemma KeptTransitive(x: map<SourceKey, Source>, y: map<SourceKey, Source>, z: map<SourceKey, Source>, p: Prefix)
    requires PrefixKept(x, y, p) && PrefixKept(y, z, p)
    ensures PrefixKept(x, z, p)
  {
  }

  lemma SameKept(x: map<SourceKey, Source>, p: Prefix)
    ensures PrefixKept(x, x, p)
  {
  }

  // ----------------------------------------------- what is not reachable is not advertised

  lemma AdvertiseTouches(st: State, em: Emission, id: LinkId, p: Prefix, explicit: bool)
    ensures Touched(em.sources, Advertise(st, em, id, p, explicit).sources, Origins(st.selected))
  {
    hide Queue, ScheduleTrigger, Gated, Announcement, Better;
  }

  lemma {:induction false} AdvertiseAllTouches(st: State, em: Emission, id: LinkId, ps: seq<Prefix>, explicit: bool)
    ensures Touched(em.sources, AdvertiseAll(st, em, id, ps, explicit).sources, Origins(st.selected))
  {
    hide Advertise, Origins;
    if ps != [] {
      var n := |ps| - 1;
      AdvertiseAllTouches(st, em, id, ps[..n], explicit);
      AdvertiseTouches(st, AdvertiseAll(st, em, id, ps[..n], explicit), id, ps[n], explicit);
    }
  }

  lemma {:induction false} AnswerTouches(st: State, em: Emission, sks: seq<SourceKey>)
    ensures Touched(em.sources, Answer(st, em, sks).sources, Origins(st.selected))
  {
    hide Advertise, Settled, Origins;
    if sks != [] {
      var n := |sks| - 1;
      AnswerTouches(st, em, sks[..n]);
      if sks[n] in st.requests {
        AdvertiseTouches(st, Answer(st, em, sks[..n]), st.requests[sks[n]].from, sks[n].prefix, true);
      }
    }
  }

  lemma {:induction false} DumpAllTouches(st: State, em: Emission, ids: seq<LinkId>)
    ensures Touched(em.sources, DumpAll(st, em, ids).sources, Origins(st.selected))
  {
    hide AdvertiseAll, SortPrefixes, Origins;
    if ids != [] {
      var n := |ids| - 1;
      DumpAllTouches(st, em, ids[..n]);
      AdvertiseAllTouches(st, DumpAll(st, em, ids[..n]), ids[n], SortPrefixes(st.selected.Keys), false);
    }
  }

  lemma {:induction false} LinkTimersTouch(st: State, ids: seq<LinkId>)
    ensures Touched(st.em.sources, AllLinkTimers(st, ids).em.sources, Origins(st.selected))
  {
    hide HelloTimer, IHUTimer, UpdateTimer, AdvertiseAll, SortPrefixes, Origins;
    if ids != [] {
      var n := |ids| - 1;
      var x := AllLinkTimers(st, ids[..n]);
      LinkTimersTouch(st, ids[..n]);
      AllLinkTimersFrame(st, ids[..n]);
      var a := HelloTimer(x, ids[n]);
      HelloTimerFrame(x, ids[n]);
      IHUTimerFrame(a, ids[n]);
      var b := IHUTimer(a, ids[n]);
      UpdateTimerFrame(b, ids[n]);
      AdvertiseAllTouches(b, b.em, ids[n], SortPrefixes(b.selected.Keys), false);
    }
  }

  /** All timers of a step touch the history of what they can advertise only. */
  lemma TimersTouch(st: State)
    ensures Touched(st.em.sources, Timers(st).em.sources, Origins(st.selected))
  {
    hide AllLinkTimers, Timers, DumpAll, SortLinks, TriggerDue, Rearm, Origins;
    var a := AllLinkTimers(st, SortLinks(st.links.Keys));
    LateSources(st);
    LinkTimersTouch(st, SortLinks(st.links.Keys));
    AllLinkTimersFrame(st, SortLinks(st.links.Keys));
    DumpAllTouches(a, a.em, SortLinks(a.links.Keys));
  }

  // ------------------------------------------------------------------ staying muted

  /** The candidate d is c, or retracted. */
  predicate Weaker(c: Candidate, d: Candidate) {
    d.advertised == INFINITY || (d.id == c.id && d.Dist() == c.Dist() && d.expires == c.expires)
  }

  lemma MutedFrom(x: State, y: State, p: Prefix, until: int)
    requires Muted(x, p, until) && y.local == x.local && y.drops == x.drops && y.selected == x.selected
    requires PrefixKept(x.em.sources, y.em.sources, p)
    requires forall k :: k in y.routes && k.prefix == p ==> k in x.routes && Weaker(x.routes[k], y.routes[k])
    ensures Muted(y, p, until)
  {
    hide Better, Reachable;
  }

  lemma BarredUnusable(st: State, k: RouteKey)
    requires k in st.routes && Barred(st.em.sources, k.prefix, st.routes[k])
    ensures !Usable(st, k)
  {
    hide Accepts, LinkCost;
  }

  lemma NotChosen(st: State, p: Prefix, until: int)
    requires Muted(st, p, until)
    ensures p !in Choice(st)
  {
    hide Usable, IsBest, RouteVia, LocalRoute, Barred;
    forall k | k in st.routes && k.prefix == p ensures !Usable(st, k) {
      BarredUnusable(st, k);
    }
    assert p !in UsablePrefixes(st);
  }

  lemma AdoptMuted(st: State, p: Prefix, until: int)
    requires Muted(st, p, until) && st.now < until
    ensures Muted(Adopt(st, Choice(st)), p, until)
  {
    hide Choice, IsChoice, LoseAll, Announce, SortPrefixes, Barred;
    var next := Choice(st);
    NotChosen(st, p, until);
    LoseAllDrops(st, next, SortPrefixes(st.selected.Keys), p);
    LoseAllFrame(st, next, SortPrefixes(st.selected.Keys));
  }

  lemma SelectMuted(st: State, p: Prefix, until: int)
    requires Muted(st, p, until) && st.now < until
    ensures var y := SelectRoutes(st);
            && Muted(y, p, until) && PrefixKept(st.em.sources, y.em.sources, p)
            && y.now == st.now && y.cfg == st.cfg && y.links == st.links
  {
    hide Choice, Adopt, Answer, Unsettled, SortSourceKeys, Barred, PrefixKept, Reachable, Touched;
    var x := Adopt(st, Choice(st));
    AdoptMuted(st, p, until);
    AdoptFrame(st, Choice(st));
    AnswerTouches(x, x.em, SortSourceKeys(x.requests.Keys));
    TouchedPrefix(x.selected, x.em.sources, SelectRoutes(st).em.sources, p);
    SameMuted(x, SelectRoutes(st), p, until);
  }

  lemma SameMuted(x: State, y: State, p: Prefix, until: int)
    requires Muted(x, p, until) && y.local == x.local && y.drops == x.drops && y.selected == x.selected
    requires PrefixKept(x.em.sources, y.em.sources, p) && y.routes == x.routes
    ensures Muted(y, p, until)
  {
    hide Better, Reachable;
  }

  // -------------------------------------------------------------------- packets

  /** The update is infeasible, and the entry that says so outlives the candidate it would make. */
  predicate Refuses(st: State, m: Message)
    requires m.Update?
  {
    var sk := SourceKey(m.prefix, m.routerId);
    && sk in st.em.sources && !Better(Distance(m.seqno, m.metric), st.em.sources[sk].Dist())
    && st.now + Hold(WireTime(m.interval)) <= st.em.sources[sk].expires
  }

  /** The message cannot give the engine a route for p. */
  predicate Harmless(st: State, id: LinkId, m: Message, p: Prefix) {
    FiniteUpdate(m) && m.prefix == p ==> (id in st.links ==> !Admissible(st, id, m)) || Refuses(st, m)
  }

  /** y comes later in the step that x begins. */
  ghost predicate Onward(x: State, y: State, id: LinkId, p: Prefix) {
    && y.now == x.now && y.cfg == x.cfg && PrefixKept(x.em.sources, y.em.sources, p)
    && (id in y.links ==> id in x.links && y.links[id].link.peer == x.links[id].link.peer)
  }

  lemma HarmlessStill(x: State, y: State, id: LinkId, m: Message, p: Prefix)
    requires Onward(x, y, id, p) && Harmless(x, id, m, p)
    ensures Harmless(y, id, m, p)
  {
    hide Accepts, RoutablePrefix, Better, BoundedLink, BoundedConfig;
    Sizes(x.em.sources);
    Sizes(y.em.sources);
    if |y.em.sources| < |x.em.sources| {
      Subset(x.em.sources.Keys, y.em.sources.Keys);
    }
  }

  lemma OnwardTransitive(x: State, y: State, z: State, id: LinkId, p: Prefix)
    requires Onward(x, y, id, p) && Onward(y, z, id, p)
    ensures Onward(x, z, id, p)
  {
    hide BoundedLink;
  }

  lemma AcceptBarred(st: State, id: LinkId, m: Message)
    requires m.Update? && Refuses(st, m)
    ensures Barred(st.em.sources, m.prefix, NewCandidate(st, m))
  {
  }

  lemma UpdateMuted(st: State, id: LinkId, m: Message, y: State, p: Prefix, until: int)
    requires id in st.links && m.Update? && y == ReceiveUpdate(st, id, m)
    requires Muted(st, p, until) && Harmless(st, id, m, p)
    ensures Muted(y, p, until) && y.em.sources == st.em.sources
  {
    hide Admissible, HasRoom, AcceptUpdate, Barred, Refuses, NewCandidate;
    ReceiveUpdateFrame(st, id, m);
    if FiniteUpdate(m) && Admissible(st, id, m) && HasRoom(st, RouteKey(m.prefix, id)) {
      AcceptRoutes(st, id, m);
      if m.prefix == p {
        AcceptBarred(st, id, m);
      }
    } else if m.metric == INFINITY {
      RetractBarred(st, id, m, p);
    }
  }

  lemma RetractBarred(st: State, id: LinkId, m: Message, p: Prefix)
    ensures forall k :: k in st.routes ==> Barred(st.em.sources, p, st.routes[k].(advertised := INFINITY))
  {
  }

  lemma RenewMuted(st: State, from: LinkId, q: Prefix, y: State, p: Prefix, until: int)
    requires Muted(st, p, until) && st.now < until && y == Renew(st, from, q)
    ensures Muted(y, p, until) && PrefixKept(st.em.sources, y.em.sources, p)
  {
    hide SelectRoutes, Advertise, Reachable, Barred, PrefixKept;
    var x := st.(seqno := NextSeqno(st.seqno));
    SameKept(st.em.sources, p);
    SameMuted(st, x, p, until);
    SelectMuted(x, p, until);
    var z := SelectRoutes(x);
    AdvertiseTouches(z, z.em, from, q, true);
    TouchedPrefix(z.selected, z.em.sources, y.em.sources, p);
    SameMuted(z, y, p, until);
    KeptTransitive(st.em.sources, z.em.sources, y.em.sources, p);
  }

  lemma ForwardMuted(st: State, from: LinkId, m: Message, p: Prefix, until: int)
    requires m.SeqRequest? && Muted(st, p, until)
    ensures Muted(Forward(st, from, m), p, until) && Forward(st, from, m).em.sources == st.em.sources
  {
    hide Forward, Barred, Reachable, Muted;
    ForwardFrame(st, from, m);
    SameKept(st.em.sources, p);
    ForwardSources(st, from, m);
    SameMuted(st, Forward(st, from, m), p, until);
  }

  lemma ForwardSources(st: State, from: LinkId, m: Message)
    requires m.SeqRequest?
    ensures Forward(st, from, m).em.sources == st.em.sources
  {
    hide Advertised, IsBestRelay, AtLeast, QueueAll, SortLinks;
  }

  lemma SeqRequestMuted(st: State, from: LinkId, m: Message, y: State, p: Prefix, until: int)
    requires m.SeqRequest? && Muted(st, p, until) && st.now < until && y == ReceiveSeqRequest(st, from, m)
    ensures Muted(y, p, until) && PrefixKept(st.em.sources, y.em.sources, p)
  {
    hide Renew, Advertise, Forward, AtLeast, Barred, PrefixKept;
    RenewMuted(st, from, m.prefix, Renew(st, from, m.prefix), p, until);
    ForwardMuted(st, from, m, p, until);
    SameKept(st.em.sources, p);
    AdvertiseTouches(st, st.em, from, m.prefix, true);
    TouchedPrefix(st.selected, st.em.sources, Advertise(st, st.em, from, m.prefix, true).sources, p);
    SameMuted(st, st.(em := Advertise(st, st.em, from, m.prefix, true)), p, until);
  }

  /** A request is answered by advertising other prefixes only. */
  lemma RequestKeeps(st: State, id: LinkId, m: Message, y: State, p: Prefix)
    requires id in st.links && (m.AckRequest? || m.Ack? || m.RouteRequest? || m.WildcardRequest?)
    requires y == ReceiveMessage(st, id, m) && !Reachable(st.selected, p)
    ensures PrefixKept(st.em.sources, y.em.sources, p)
  {
    hide Advertise, AdvertiseAll, HearHello, ReceiveUpdate, ReceiveSeqRequest, Queue, HelloInterval, BoundedLink;
    hide SortPrefixes, Reachable, RetractLink, PrefixKept;
    SameKept(st.em.sources, p);
    if m.RouteRequest? {
      AdvertiseTouches(st, st.em, id, m.prefix, true);
      TouchedPrefix(st.selected, st.em.sources, y.em.sources, p);
    } else if m.WildcardRequest? {
      AdvertiseAllTouches(st, st.em, id, SortPrefixes(st.selected.Keys), true);
      TouchedPrefix(st.selected, st.em.sources, Dump(st, st.em, id, true).sources, p);
    }
  }

  lemma RetractMuted(st: State, id: LinkId, p: Prefix, until: int)
    requires id in st.links && Muted(st, p, until)
    ensures Muted(RetractLink(st, id), p, until)
  {
    hide Better, Reachable;
  }

  lemma WildcardRetracts(st: State, id: LinkId)
    requires id in st.links
    ensures ReceiveMessage(st, id, WildcardUpdate) == RetractLink(st, id)
    ensures RetractLink(st, id).em == st.em
  {
    hide RetractedRoutes;
  }

  /** Any other message changes no candidate but to retract it. */
  lemma PlainMuted(st: State, id: LinkId, m: Message, y: State, p: Prefix, until: int)
    requires id in st.links && !m.Update? && !m.SeqRequest? && y == ReceiveMessage(st, id, m) && Muted(st, p, until)
    ensures Muted(y, p, until) && PrefixKept(st.em.sources, y.em.sources, p)
  {
    hide ReceiveMessage, PrefixKept, Barred, RetractLink, Reachable;
    SameKept(st.em.sources, p);
    if m.Hello? || m.IHU? {
      HearFrame(st, id, m);
      SameMuted(st, y, p, until);
    } else if m.WildcardUpdate? {
      WildcardRetracts(st, id);
      RetractMuted(st, id, p, until);
    } else {
      RequestFrame(st, id, m);
      RequestKeeps(st, id, m, y, p);
      SameMuted(st, y, p, until);
    }
  }

  lemma MessageMuted(st: State, id: LinkId, m: Message, y: State, p: Prefix, until: int)
    requires id in st.links && y == ReceiveMessage(st, id, m)
    requires Muted(st, p, until) && st.now < until && Harmless(st, id, m, p)
    ensures Muted(y, p, until) && Onward(st, y, id, p)
  {
    hide ReceiveMessage, ReceiveUpdate, ReceiveSeqRequest, Muted, PrefixKept, Harmless, BoundedLink;
    Upkeep.MessageKeeps(st, id, m, id);
    SameKept(st.em.sources, p);
    Tally.Handled(st, id, m);
    if m.Update? {
      UpdateMuted(st, id, m, y, p, until);
    } else if m.SeqRequest? {
      SeqRequestMuted(st, id, m, y, p, until);
    } else {
      PlainMuted(st, id, m, y, p, until);
    }
  }

  lemma OneMuted(st: State, id: LinkId, m: Message, y: State, p: Prefix, until: int)
    requires y == ReceiveOne(st, id, m) && Muted(st, p, until) && st.now < until && Harmless(st, id, m, p)
    ensures Muted(y, p, until) && Onward(st, y, id, p)
  {
    hide SelectRoutes, ReceiveMessage, Muted, Harmless, PrefixKept, BoundedLink;
    SelectMuted(st, p, until);
    SameKept(st.em.sources, p);
    var x := if Asks(m) then SelectRoutes(st) else st;
    assert Onward(st, x, id, p);
    HarmlessStill(st, x, id, m, p);
    if id in x.links {
      MessageMuted(x, id, m, y, p, until);
      OnwardTransitive(st, x, y, id, p);
    }
  }

  lemma {:induction false} ReceiveAllMuted(st: State, id: LinkId, ms: seq<Message>, y: State, p: Prefix, until: int)
    requires y == ReceiveAll(st, id, ms) && Muted(st, p, until) && st.now < until
    requires forall m :: m in ms ==> Harmless(st, id, m, p)
    ensures Muted(y, p, until) && Onward(st, y, id, p)
  {
    hide ReceiveOne, Muted, Harmless, Onward;
    if ms == [] {
      OnwardNot(st, id, p);
    } else {
      var n := |ms| - 1;
      var x := ReceiveAll(st, id, ms[..n]);
      ReceiveAllMuted(st, id, ms[..n], x, p, until);
      assert ms[n] in ms;
      HarmlessStill(st, x, id, ms[n], p);
      assert x.now == st.now by { Clocked(st, x, id, p); }
      OneMuted(x, id, ms[n], y, p, until);
      OnwardTransitive(st, x, y, id, p);
    }
  }

  lemma OnwardNot(st: State, id: LinkId, p: Prefix)
    ensures Onward(st, st, id, p)
  {
  }

  lemma Clocked(x: State, y: State, id: LinkId, p: Prefix)
    requires Onward(x, y, id, p)
    ensures y.now == x.now
  {
  }

  // ---------------------------------------------------------------------- steps

  /** The event neither originates p nor brings an update that could give the engine a route for it. */
  predicate Spares(x: State, event: Event, p: Prefix) {
    && !(event.Originate? && event.prefix == p)
    && (forall m :: m in Messages(event) ==> Harmless(x, Arrival(event), m, p))
  }

  lemma ApplyMuted(x: State, event: Event, y: State, p: Prefix, until: int)
    requires event.AddLink? ==> BoundedLink(event.link)
    requires event.SetCost? ==> event.cost != 0
    requires y == Apply(x, event) && Muted(x, p, until) && x.now < until && Spares(x, event, p)
    ensures Muted(y, p, until) && y.now == x.now
  {
    hide ReceiveAll, BoundedLink, Queue, NewLink, Harmless, Barred, ClosedRoutes, Reachable;
    if event.Receive? && event.packet.decoded.Some? {
      var ms := event.packet.decoded.value;
      assert Messages(event) == ms && Arrival(event) == event.id;
      forall m | m in ms ensures Harmless(x, event.id, m, p) {
        assert m in Messages(event);
      }
      ReceiveAllMuted(x, event.id, ms, ReceiveAll(x, event.id, ms), p, until);
    } else if event.RemoveLink? {
      ClosedMuted(x, event.id, y, p, until);
    }
  }

  lemma ClosedMuted(x: State, id: LinkId, y: State, p: Prefix, until: int)
    requires Muted(x, p, until) && y == EventRemoveLink(x, id)
    ensures Muted(y, p, until)
  {
    hide Better, Reachable;
  }

  /** What has run out cannot have been infeasible by an entry that has not. */
  lemma BeginMuted(st: State, now: int, p: Prefix, until: int)
    requires Muted(st, p, until)
    ensures Muted(Begin(st, now), p, until) && Begin(st, now).now == now
  {
    hide Better, Reachable, LiveRequests;
  }

  lemma TimersMuted(b: State, w: State, p: Prefix, until: int)
    requires w == Timers(b) && Muted(b, p, until)
    ensures Muted(w, p, until)
  {
    hide Timers, Barred, PrefixKept, Reachable;
    TimersFrame(b);
    TimersTouch(b);
    TouchedPrefix(b.selected, b.em.sources, w.em.sources, p);
    TimersSame(b);
    forall k | k in w.routes && k.prefix == p ensures k in b.routes && Weaker(b.routes[k], w.routes[k]) {
      assert Kept(b.routes, k, w.routes[k]);
    }
    MutedFrom(b, w, p, until);
  }

  lemma WorkMuted(st: State, now: int, event: Event, w: State, p: Prefix, until: int)
    requires Validate(st, event).None? && Muted(st, p, until) && now < until && Spares(Begin(st, now), event, p)
    requires w == Work(st, now, event)
    ensures Muted(w, p, until)
  {
    hide Apply, SelectRoutes, Timers, Begin, Validate, Muted, Spares, PrefixKept, Work;
    ValidateAdmits(st, now, event);
    var x := Begin(st, now);
    BeginMuted(st, now, p, until);
    var a := Apply(x, event);
    ApplyMuted(x, event, a, p, until);
    SelectMuted(a, p, until);
    WorkTimers(st, now, event, SelectRoutes(a));
    TimersMuted(SelectRoutes(a), w, p, until);
  }

  // ----------------------------------------------------------------------- runs

  /** No step before state i can give the engine a route for p. */
  ghost predicate Spared(t: Trace, i: int, p: Prefix) {
    forall j {:trigger Took(t, j)} :: 0 <= j < i && j < |t.states| && Took(t, j) ==>
      Spares(Begin(t.states[j], t.moves[j].now), t.moves[j].event, p)
  }

  lemma MoveMuted(t: Trace, i: nat, p: Prefix, until: int)
    requires IsTrace(t) && i < |t.moves| && |t.states| == |t.moves| + 1
    requires Muted(t.states[i], p, until) && t.states[i + 1].now < until && Spared(t, i + 1, p)
    ensures Muted(t.states[i + 1], p, until)
  {
    hide IsTrace, Valid, Step, Refusal, Decoded, Muted, Spares, Work, Snapshot, Packets, Begin;
    var x, y := t.states[i], t.states[i + 1];
    SameKept(x.em.sources, p);
    if Took(t, i) {
      TookStep(t, i);
      var m := t.moves[i];
      Release.StepProduces(x, m.now, m.event, y, t.results[i]);
      var w := Work(x, m.now, m.event);
      WorkMuted(x, m.now, m.event, w, p, until);
      SameKept(w.em.sources, p);
      SameMuted(w, y, p, until);
    } else {
      OtherMove(t, i);
      SameMuted(x, y, p, until);
    }
  }

  lemma {:induction false} TraceMuted(t: Trace, i: nat, p: Prefix, until: int)
    requires IsTrace(t) && i < |t.states| && |t.states| == |t.moves| + 1
    requires Muted(t.states[0], p, until) && t.states[i].now < until && Spared(t, i, p)
    ensures Muted(t.states[i], p, until)
  {
    hide IsTrace, Muted, Spares, Took, Begin;
    if i > 0 {
      TraceForward(t, i - 1, i);
      TraceMuted(t, i - 1, p, until);
      MoveMuted(t, i - 1, p, until);
    }
  }

  lemma RestoredMuted(c: Config, saved: Checkpoint, st: State, p: Prefix)
    requires Restore(c, saved) == Ok(st) && p in saved.drops
    ensures exists until: int :: until >= saved.dropHold && Muted(st, p, until)
  {
    hide BoundedConfig, Defaulted, RestorableHistory, RestorableDrops, RestoredSources;
    assert Muted(st, p, st.drops[p]);
  }

  /**
   A hold is held out.  As long as no event originates it or brings an update for it that is
   admissible and either feasible or outlives the entry it is not feasible by, a prefix a
   checkpoint names is unreachable in the forwarding table from the first step after the
   restart on, until the whole hold the checkpoint carries has run out.
   */
  lemma {:induction false} RestartHoldsOut(t: Trace, c: Config, saved: Checkpoint, k: nat, i: nat, p: Prefix)
    requires IsTrace(t) && k < i < |t.states| && |t.states| == |t.moves| + 1 && Took(t, k)
    requires Restore(c, saved) == Ok(t.states[0]) && p in saved.drops && Spared(t, i, p)
    ensures t.states[i].now < saved.dropHold ==> p in t.states[i].selected && t.states[i].selected[p].unreachable
  {
    hide IsTrace, Opens, Restore, Took, Rested, Spared, Barred;
    if t.states[i].now < saved.dropHold {
      RestoredMuted(c, saved, t.states[0], p);
      var until: int :| until >= saved.dropHold && Muted(t.states[0], p, until);
      TraceMuted(t, i, p, until);
      Quiet.AlwaysRested(t, k, i);
      SecuredSelected(t.states[i], t.states[i], p, until);
    }
  }
}
