/**
 How often a sequence-number request is sent (section 3.8.2.1 of RFC 8966): once to each
 target when its entry is made, and at most twice more by the timer, over every run.
 */
module Sends {
  import opened Arithmetic
  import opened Types
  import opened Sorting
  import opened Rules
  import opened Steps
  import opened Soundness
  import opened Progress
  import opened Selection
  import opened Invariant
  import opened Rest
  import opened Requests
  import opened Tally
  import opened Traces
  import Contentment
  import Release

  // --------------------------------------------------------------------- timers

  /** The timer resends a message only for the entry that asks for it. */
  lemma {:induction false} ResendOther(st: State, out: map<LinkId, seq<Message>>, sks: seq<SourceKey>, id: LinkId,
      m: Message)
    requires m.SeqRequest? && !Asking(st, id, m)
    requires forall k :: k in st.requests ==> Distinct(st.requests[k].targets)
    ensures Copies(ResendOut(st, out, sks), id, m) == Copies(out, id, m)
  {
    hide QueueAll, Copies, Distinct;
    if sks != [] {
      var n := |sks| - 1;
      ResendOther(st, out, sks[..n], id, m);
      if ResendDue(st, sks[n]) {
        var p := st.requests[sks[n]];
        QueueAllCopies(st.links, ResendOut(st, out, sks[..n]), p.targets, RequestMessage(sks[n], p), id, m);
      }
    }
  }

  /** Every copy the timer adds is one of the sends left. */
  lemma RequestTimerSends(st: State, y: State, id: LinkId, m: Message)
    requires m.SeqRequest? && y == RequestTimer(st)
    requires forall k :: k in st.requests ==> Distinct(st.requests[k].targets)
    ensures Copies(st.em.out, id, m) <= Copies(y.em.out, id, m)
    ensures Copies(y.em.out, id, m) + Left(y, id, m) <= Copies(st.em.out, id, m) + Left(st, id, m)
  {
    hide ResendOut, Copies, Distinct, SourceKeyLess;
    if Asking(st, id, m) {
      ResendCosts(st, KeyOf(m), id);
    } else {
      ResendOther(st, st.em.out, SortSourceKeys(st.requests.Keys), id, m);
    }
  }

  lemma SameLeft(x: State, y: State, id: LinkId, m: Message)
    requires m.SeqRequest? && y.requests == x.requests
    ensures Left(y, id, m) == Left(x, id, m)
  {
  }

  lemma RefreshSends(st: State, y: State, id: LinkId, m: Message)
    requires m.SeqRequest? && y == RefreshTimer(st)
    ensures Copies(y.em.out, id, m) == Copies(st.em.out, id, m) && Left(y, id, m) == Left(st, id, m)
  {
    hide RefreshOut, Copies, SortRouteKeys, Left;
    RefreshCopies(st, st.em.out, SortRouteKeys(st.routes.Keys), id, m);
    SameLeft(st, y, id, m);
  }

  lemma TimersSend(b: State, y: State, id: LinkId, m: Message)
    requires m.SeqRequest? && y == Timers(b)
    requires forall k :: k in b.requests ==> Distinct(b.requests[k].targets)
    ensures Copies(b.em.out, id, m) <= Copies(y.em.out, id, m)
    ensures Copies(y.em.out, id, m) + Left(y, id, m) <= Copies(b.em.out, id, m) + Left(b, id, m)
  {
    hide AllLinkTimers, TriggerTimer, RequestTimer, RefreshTimer, Copies, SortLinks, Distinct, Left;
    var a := AllLinkTimers(b, SortLinks(b.links.Keys));
    LinkTimersCopies(b, SortLinks(b.links.Keys), id, m);
    AllLinkTimersFrame(b, SortLinks(b.links.Keys));
    var c := TriggerTimer(a);
    TriggerCopies(a, id, m);
    TriggerTimerFrame(a);
    SameLeft(b, c, id, m);
    RequestTimerSends(c, RequestTimer(c), id, m);
    RefreshSends(RequestTimer(c), y, id, m);
  }

  // -------------------------------------------------------------------- packets

  /** The copies of m that the packets carry to the link id. */
  function SentTo(packets: seq<Datagram>, id: LinkId, m: Message): nat {
    if packets == [] then 0
    else
      var n := |packets| - 1;
      SentTo(packets[..n], id, m) + (if packets[n].link == id then multiset(packets[n].messages)[m] else 0)
  }

  lemma SentToSnoc(x: seq<Datagram>, d: Datagram, id: LinkId, m: Message)
    ensures SentTo(x + [d], id, m) == SentTo(x, id, m) + (if d.link == id then multiset(d.messages)[m] else 0)
  {
    assert (x + [d])[..|x|] == x;
  }

  lemma {:induction false} CollectSends(out: map<LinkId, seq<Message>>, ids: seq<LinkId>, id: LinkId, m: Message)
    requires Distinct(ids)
    ensures SentTo(Collect(out, ids), id, m) == if id in ids then Copies(out, id, m) else 0
  {
    hide SentTo;
    if ids == [] {
      assert SentTo([], id, m) == 0 by { NoneSent(id, m); }
    } else {
      var n := |ids| - 1;
      CollectSends(out, ids[..n], id, m);
      assert ids == ids[..n] + [ids[n]];
      if Queued(out, ids[n]) != [] {
        SentToSnoc(Collect(out, ids[..n]), Datagram(ids[n], out[ids[n]]), id, m);
      } else {
        assert Collect(out, ids) == Collect(out, ids[..n]);
      }
    }
  }

  lemma NoneSent(id: LinkId, m: Message)
    ensures SentTo([], id, m) == 0
  {
  }

  lemma PacketsSend(st: State, id: LinkId, m: Message)
    requires st.em.out.Keys <= st.links.Keys
    ensures SentTo(Packets(st), id, m) == Copies(st.em.out, id, m)
  {
    hide LinkLess, Distinct;
    SortedDistinct(st.links.Keys);
    CollectSends(st.em.out, SortLinks(st.links.Keys), id, m);
    if id !in st.links {
      assert Queued(st.em.out, id) == [];
    }
  }

  // ---------------------------------------------------------------------- steps

  lemma BeforeTimersAging(st: State, now: int, event: Event, b: State)
    requires Validate(st, event).None? && b == SelectRoutes(Apply(Begin(st, now), event))
    ensures Aging(st, b)
  {
    hide Apply, SelectRoutes, AgedRoutes, LiveSources, Validate, Aging;
    ValidateAdmits(st, now, event);
    var x := Expire(st.(now := now));
    FewerAging(st, x);
    ApplyAging(x, event);
    SelectRoutesAging(Apply(x, event));
    AgingTransitive(x, Apply(x, event), b);
    AgingTransitive(st, x, b);
  }

  lemma AgingDistinct(x: State, y: State)
    requires Aging(x, y) && forall k :: k in x.requests ==> Distinct(x.requests[k].targets)
    ensures forall k :: k in y.requests ==> Distinct(y.requests[k].targets)
  {
    hide Distinct;
  }

  lemma BeginLeft(st: State, now: int, id: LinkId, m: Message)
    requires m.SeqRequest?
    ensures Left(Begin(st, now), id, m) <= Left(st, id, m)
    ensures forall sk :: sk in Begin(st, now).requests ==>
        sk in st.requests && Begin(st, now).requests[sk] == st.requests[sk]
    ensures Begin(st, now).em.out == st.em.out && Begin(st, now).now == now
  {
    hide AgedRoutes, LiveSources;
  }

  /** What a step does until its timers run. */
  lemma BeforeTimersTally(st: State, now: int, event: Event, x: State, b: State, id: LinkId, m: Message)
    requires m.SeqRequest? && Validate(st, event).None? && st.em.out == map[]
    requires x == Begin(st, now) && b == SelectRoutes(Apply(x, event))
    ensures Tallies(x, b, id, m, StepMakes(st, now, event, id, m))
  {
    hide Apply, SelectRoutes, Begin, Tallies, EventMakes, SelectionMakes, Validate;
    ValidateAdmits(st, now, event);
    BeginLeft(st, now, id, m);
    EventTallies(x, event, id, m);
    SelectionTallies(Apply(x, event), id, m);
    TalliesTransitive(x, Apply(x, event), b, id, m, EventMakes(x, event, id, m),
        SelectionMakes(Apply(x, event), id, m));
  }

  predicate AllDistinct(st: State) { forall k :: k in st.requests ==> Distinct(st.requests[k].targets) }

  /** What a step sends of m to the link id, given the entries it makes for it. */
  ghost predicate Accounted(st: State, y: State, now: int, id: LinkId, m: Message, sent: nat, made: nat)
    requires m.SeqRequest?
  {
    && made <= sent
    && sent + Left(y, id, m) <= Left(st, id, m) + 3 * made
    && sent + Left(y, id, m) <= made + 2
    && (made > 0 && KeyOf(m) in y.requests ==> y.requests[KeyOf(m)].expires == now + 4 * SECOND)
    && (made == 0 && Asking(y, id, m) ==>
          KeyOf(m) in st.requests && Spent(st.requests[KeyOf(m)], y.requests[KeyOf(m)], now))
  }

  /**
   The sends of a step: each entry made is sent once, and what the timer sends on top is
   taken from the sends left.
   */
  lemma StepSends(st: State, now: int, event: Event, y: State, r: Result<Effects>, id: LinkId, m: Message)
    requires Valid(st) && Refusal(st, now, event).None? && Decoded(event) && (y, r) == Step(st, now, event)
    requires m.SeqRequest? && AllDistinct(st)
    ensures r.Ok? && Validate(st, event).None?
    ensures Accounted(st, y, now, id, m, SentTo(Release.Produced(y, r.value), id, m), StepMakes(st, now, event, id, m))
  {
    hide Valid, Refusal, Decoded, Step, Validate, Apply, SelectRoutes, Timers, Begin, Tallies, Copies, Accounted;
    hide StepMakes, Distinct, Packets, SentTo, Aging, Release.Produced, Work;
    Contentment.CompletedWork(st, now, event, y, r);
    var w := Work(st, now, event);
    WorkSends(st, now, event, w, id, m);
    Release.StepProduces(st, now, event, y, r);
    SameAccount(st, w, y, now, id, m, SentTo(Packets(w), id, m), StepMakes(st, now, event, id, m));
  }

  lemma SameAccount(st: State, w: State, y: State, now: int, id: LinkId, m: Message, sent: nat, made: nat)
    requires m.SeqRequest? && Accounted(st, w, now, id, m, sent, made) && y.requests == w.requests
    ensures Accounted(st, y, now, id, m, sent, made)
  {
  }

  lemma WorkSends(st: State, now: int, event: Event, w: State, id: LinkId, m: Message)
    requires Valid(st) && Refusal(st, now, event).None? && Decoded(event) && Validate(st, event).None?
    requires w == Work(st, now, event) && m.SeqRequest? && AllDistinct(st)
    ensures Accounted(st, w, now, id, m, SentTo(Packets(w), id, m), StepMakes(st, now, event, id, m))
  {
    hide Valid, Refusal, Decoded, Validate, Apply, SelectRoutes, Timers, Begin, Tallies, Copies, Left, Sound;
    hide StepMakes, Distinct, Packets, SentTo, Aging, Accounted;
    var x := Begin(st, now);
    assert st.em.out == map[] by { ValidEmpty(st); }
    BeginLeft(st, now, id, m);
    ValidateAdmits(st, now, event);
    var b := SelectRoutes(Apply(x, event));
    BeforeTimersTally(st, now, event, x, b, id, m);
    BeforeTimersAging(st, now, event, b);
    AgingDistinct(st, b);
    assert w == Timers(b) by { WorkTimers(st, now, event, b); }
    TimersSend(b, w, id, m);
    WorkQueues(st, now, event);
    PacketsSend(w, id, m);
    TimersSpend(b, w);
    AgingLeft(st, b, id, m);
    TallyReads(x, b, id, m, StepMakes(st, now, event, id, m));
    WorkAccounts(st, x, b, w, now, id, m, SentTo(Packets(w), id, m), StepMakes(st, now, event, id, m));
  }

  lemma WorkAccounts(st: State, x: State, b: State, w: State, now: int, id: LinkId, m: Message, sent: nat, made: nat)
    requires m.SeqRequest? && Tallies(x, b, id, m, made) && x.em.out == map[] && x.now == now
    requires forall sk :: sk in x.requests ==> sk in st.requests && x.requests[sk] == st.requests[sk]
    requires Left(x, id, m) <= Left(st, id, m) && Left(b, id, m) <= 2
    requires Copies(b.em.out, id, m) <= sent && sent + Left(w, id, m) <= Copies(b.em.out, id, m) + Left(b, id, m)
    requires w.requests.Keys == b.requests.Keys && forall sk :: sk in b.requests ==>
        Spent(b.requests[sk], w.requests[sk], now)
    ensures Accounted(st, w, now, id, m, sent, made)
  {
    TallyReads(x, b, id, m, made);
    hide Left, Copies;
  }

  lemma TimersSpend(b: State, w: State)
    requires w == Timers(b)
    ensures w.requests.Keys == b.requests.Keys
    ensures forall sk :: sk in b.requests ==> Spent(b.requests[sk], w.requests[sk], b.now)
  {
    hide AllLinkTimers, DumpAll, ResendOut, RefreshOut, RefreshDue, Rearm, TriggerDue, SortLinks;
    hide SortSourceKeys, SortRouteKeys;
    AllLinkTimersFrame(b, SortLinks(b.links.Keys));
  }

  lemma AgingLeft(st: State, b: State, id: LinkId, m: Message)
    requires Valid(st) && Aging(st, b) && m.SeqRequest?
    ensures Left(b, id, m) <= 2
  {
    hide Valid, Distinct;
    if KeyOf(m) in st.requests {
      ValidPending(st, KeyOf(m));
    }
  }

  lemma TallyReads(x: State, b: State, id: LinkId, m: Message, made: nat)
    requires m.SeqRequest? && Tallies(x, b, id, m, made) && x.em.out == map[]
    ensures Copies(b.em.out, id, m) == made && Left(b, id, m) <= Left(x, id, m) + 2 * made && b.now == x.now
  {
    hide Left;
    assert Queued(x.em.out, id) == [];
  }

  lemma ValidEmpty(st: State)
    requires Valid(st)
    ensures st.em.out == map[]
  {
    hide Sound, SelfFeasible, Anchored;
  }

  lemma WorkQueues(st: State, now: int, event: Event)
    requires Valid(st) && Refusal(st, now, event).None? && Decoded(event) && Validate(st, event).None?
    ensures Work(st, now, event).em.out.Keys <= Work(st, now, event).links.Keys
  {
    hide Valid, Work, Validate, Decoded, Refusal, Sound, Advances;
    var sk := SourceKey(Prefix(NoFamily, 0, 0), 0);
    WorkAdvances(0, sk, st, now, event);
    AdvancesSound(0, sk, Begin(st, now), Work(st, now, event));
    Release.QueuesOpen(Work(st, now, event));
  }

  // ----------------------------------------------------------------------- runs

  /** The copies of m that the packets of the moves between i and j carry to the link id. */
  ghost function SentBy(t: Trace, i: nat, j: nat, id: LinkId, m: Message): nat {
    if j <= i then 0
    else
      SentBy(t, i, j - 1, id, m)
      + (if Took(t, j - 1) && j < |t.states|
         then SentTo(Release.Produced(t.states[j], t.results[j - 1].value), id, m)
         else 0)
  }

  /** The entries sending m to the link id that move i of a run makes. */
  ghost function MoveMakes(t: Trace, i: int, id: LinkId, m: Message): nat
    requires m.SeqRequest?
  {
    if Took(t, i) && i < |t.states| && Validate(t.states[i], t.moves[i].event).None? then
      StepMakes(t.states[i], t.moves[i].now, t.moves[i].event, id, m)
    else 0
  }

  ghost function MadeBy(t: Trace, i: nat, j: nat, id: LinkId, m: Message): nat
    requires m.SeqRequest?
  {
    if j <= i then 0 else MadeBy(t, i, j - 1, id, m) + MoveMakes(t, j - 1, id, m)
  }

  lemma TraceDistinct(t: Trace, i: nat)
    requires IsTrace(t) && i < |t.states|
    ensures AllDistinct(t.states[i])
  {
    hide IsTrace, Distinct, Settled;
    forall sk | sk in t.states[i].requests ensures Distinct(t.states[i].requests[sk].targets) {
      AlwaysBounded(t, i, sk);
    }
  }

  lemma TookSends(t: Trace, i: nat, id: LinkId, m: Message)
    requires IsTrace(t) && Took(t, i) && m.SeqRequest?
    ensures |t.states| == |t.moves| + 1
    ensures Accounted(t.states[i], t.states[i + 1], t.moves[i].now, id, m,
                      SentTo(Release.Produced(t.states[i + 1], t.results[i].value), id, m), MoveMakes(t, i, id, m))
  {
    hide IsTrace, Valid, Step, Refusal, Decoded, Accounted, SentTo, StepMakes, AllDistinct, Validate, Release.Produced;
    TookStep(t, i);
    TraceDistinct(t, i);
    StepSends(t.states[i], t.moves[i].now, t.moves[i].event, t.states[i + 1], t.results[i], id, m);
  }

  /**
   Three sends for each entry.  Over every stretch of every run, each entry made is sent to
   each of its targets at least once, and the sends of a message to a link, together with
   those still to come, are no more than three for each entry made for them in the stretch
   and what was left to an entry there before.
   */
  lemma {:induction false} ThreeSends(t: Trace, i: nat, j: nat, id: LinkId, m: Message)
    requires IsTrace(t) && i <= j < |t.states| && m.SeqRequest?
    ensures var sent, made := SentBy(t, i, j, id, m), MadeBy(t, i, j, id, m);
            made <= sent && sent + Left(t.states[j], id, m) <= Left(t.states[i], id, m) + 3 * made
    decreases j
  {
    hide IsTrace, Left, SentTo, Took, MoveMakes, Release.Produced;
    if i < j {
      TraceSize(t);
      ThreeSends(t, i, j - 1, id, m);
      if Took(t, j - 1) {
        TookSends(t, j - 1, id, m);
      } else {
        OtherMove(t, j - 1);
        SameLeft(t.states[j - 1], t.states[j], id, m);
        NothingMade(t, j - 1, id, m);
      }
    }
  }

  lemma NothingMade(t: Trace, i: nat, id: LinkId, m: Message)
    requires m.SeqRequest? && !Took(t, i)
    ensures MoveMakes(t, i, id, m) == 0
  {
    hide Took, StepMakes, Validate;
  }

  // ------------------------------------------------------------- one entry's life

  /** The entry for sk that move i leaves was made in it. */
  predicate Entered(t: Trace, i: nat, sk: SourceKey)
    requires i + 1 < |t.states| && i < |t.moves| && t.moves[i].StepMove?
  {
    && sk in t.states[i + 1].requests
    && !(sk in t.states[i].requests && Spent(t.states[i].requests[sk], t.states[i + 1].requests[sk], t.moves[i].now))
  }

  /** From state i + 1 to state j the entry for sk stays the same, and later steps come at later instants. */
  predicate Stays(t: Trace, i: nat, j: nat, sk: SourceKey, q: Pending)
    requires |t.states| == |t.moves| + 1 && j < |t.states| && i < |t.moves| && t.moves[i].StepMove?
  {
    && (forall k {:trigger t.states[k]} :: i < k <= j ==>
        sk in t.states[k].requests && SameEntry(q, t.states[k].requests[sk]))
    && (forall k {:trigger t.moves[k]} :: i < k < j && t.moves[k].StepMove? ==> t.moves[k].now > t.moves[i].now)
  }

  /** A step that leaves an older entry in place has made none for its source. */
  lemma OldNotMade(t: Trace, k: nat, id: LinkId, m: Message)
    requires IsTrace(t) && Took(t, k) && m.SeqRequest? && |t.states| == |t.moves| + 1
    requires KeyOf(m) in t.states[k + 1].requests
    requires t.states[k + 1].requests[KeyOf(m)].expires < t.moves[k].now + 4 * SECOND
    ensures MoveMakes(t, k, id, m) == 0
  {
    hide IsTrace, Left, SentTo, Took, MoveMakes, Release.Produced;
    TookSends(t, k, id, m);
  }

  lemma {:induction false} StaysUnmade(t: Trace, i: nat, j: nat, sk: SourceKey, q: Pending, id: LinkId)
    requires IsTrace(t) && |t.states| == |t.moves| + 1 && Took(t, i) && i < j < |t.states| && Stays(t, i, j, sk, q)
    requires q.expires == t.moves[i].now + 4 * SECOND
    ensures MadeBy(t, i + 1, j, id, RequestMessage(sk, q)) == 0
    decreases j
  {
    hide IsTrace, Left, SentTo, Took, MoveMakes, Release.Produced;
    if i + 1 < j {
      var m := RequestMessage(sk, q);
      StaysUnmade(t, i, j - 1, sk, q, id);
      if Took(t, j - 1) {
        assert t.moves[j - 1].StepMove? by { TookMoves(t, j - 1); }
        assert SameEntry(q, t.states[j].requests[sk]);
        OldNotMade(t, j - 1, id, m);
      } else {
        NothingMade(t, j - 1, id, m);
      }
    }
  }

  lemma TookMoves(t: Trace, i: int)
    requires Took(t, i)
    ensures t.moves[i].StepMove?
  {
  }

  /** An entry that a step leaves and has made is new, its first send made and two to come. */
  lemma EnteredNew(t: Trace, i: nat, sk: SourceKey)
    requires IsTrace(t) && Took(t, i) && |t.states| == |t.moves| + 1 && Entered(t, i, sk)
    ensures NewEntry(t.moves[i].now, t.states[i + 1].requests[sk])
  {
    hide IsTrace, Valid, Step, Refusal, Decoded, Spent, NewEntry, Settled;
    TookStep(t, i);
    var y := t.states[i + 1];
    CommitKeepsRequests(y, y.pending, true);
    PendingBounded(t.states[i], t.moves[i].now, t.moves[i].event, y, t.results[i], sk);
  }

  /** The sends of the step that makes an entry are the first sends of the entries it makes. */
  lemma FirstSends(t: Trace, i: nat, sk: SourceKey, id: LinkId)
    requires IsTrace(t) && Took(t, i) && |t.states| == |t.moves| + 1 && Entered(t, i, sk)
    requires id in t.states[i + 1].requests[sk].targets
    ensures var m := RequestMessage(sk, t.states[i + 1].requests[sk]);
            SentTo(Release.Produced(t.states[i + 1], t.results[i].value), id, m) == MoveMakes(t, i, id, m) >= 1
  {
    hide IsTrace, SentTo, MoveMakes, Release.Produced, Distinct;
    var m := RequestMessage(sk, t.states[i + 1].requests[sk]);
    TookSends(t, i, id, m);
    EnteredNew(t, i, sk);
  }

  /** Counting from one move earlier adds that move's sends. */
  lemma {:induction false} SentFrom(t: Trace, i: nat, j: nat, id: LinkId, m: Message)
    requires i < j < |t.states| && Took(t, i)
    ensures SentBy(t, i, j, id, m)
         == SentTo(Release.Produced(t.states[i + 1], t.results[i].value), id, m) + SentBy(t, i + 1, j, id, m)
    decreases j
  {
    hide Took, SentTo, Release.Produced;
    if i + 1 < j {
      SentFrom(t, i, j - 1, id, m);
    } else {
      assert SentBy(t, i, i, id, m) == 0;
    }
  }

  /**
   At most three sends.  As long as an entry stays the same one, its message has been sent to
   each of its targets once for each entry that its first step made for it, and at most
   twice more.
   */
  lemma {:induction false} EntrySentThrice(t: Trace, i: nat, j: nat, sk: SourceKey, id: LinkId)
    requires IsTrace(t) && |t.states| == |t.moves| + 1 && Took(t, i) && i < j < |t.states| && Entered(t, i, sk)
    requires var q := t.states[i + 1].requests[sk]; id in q.targets && Stays(t, i, j, sk, q)
    ensures var m := RequestMessage(sk, t.states[i + 1].requests[sk]);
            1 <= MoveMakes(t, i, id, m) <= SentBy(t, i, j, id, m) <= MoveMakes(t, i, id, m) + 2
  {
    hide IsTrace, SentTo, MoveMakes, Release.Produced, Spent, Stays, SameEntry;
    var q := t.states[i + 1].requests[sk];
    var m := RequestMessage(sk, q);
    EnteredNew(t, i, sk);
    FirstSends(t, i, sk, id);
    StaysUnmade(t, i, j, sk, q, id);
    ThreeSends(t, i + 1, j, id, m);
    SentFrom(t, i, j, id, m);
  }

  /** So an entry made by such a step is sent to each of its targets at most three times. */
  lemma {:induction false} AtMostThreeSends(t: Trace, i: nat, j: nat, sk: SourceKey, id: LinkId)
    requires IsTrace(t) && |t.states| == |t.moves| + 1 && Took(t, i) && i < j < |t.states| && Entered(t, i, sk)
    requires AsksNothing(t.moves[i].event)
    requires var q := t.states[i + 1].requests[sk]; id in q.targets && Stays(t, i, j, sk, q)
    ensures 1 <= SentBy(t, i, j, id, RequestMessage(sk, t.states[i + 1].requests[sk])) <= 3
  {
    hide IsTrace, SentTo, StepMakes, Release.Produced, Spent, Stays, SameEntry, AsksNothing, Validate;
    var m := RequestMessage(sk, t.states[i + 1].requests[sk]);
    EntrySentThrice(t, i, j, sk, id);
    assert MoveMakes(t, i, id, m) <= 1 by {
      if Validate(t.states[i], t.moves[i].event).None? {
        StepMakesOne(t.states[i], t.moves[i].now, t.moves[i].event, id, m);
      }
    }
  }
}
