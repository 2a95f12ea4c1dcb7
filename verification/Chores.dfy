/**
 Keeping alive, over runs: Hellos, IHUs and full updates go out on every link often enough
 that a neighbour gives the link or a route up only after three of them in a row are lost.
 */
module Chores {
  import opened Arithmetic
  import opened Types
  import opened Rules
  import opened Steps
  import opened Invariant
  import opened Traces
  import opened Cadence
  import opened Upkeep
  import Release

  // ----------------------------------------------------------------------- runs

  /** The link is there in all states from i to j. */
  predicate Linked(t: Trace, i: nat, j: nat, id: LinkId) {
    forall k {:trigger t.states[k]} :: i <= k <= j && k < |t.states| ==> id in t.states[k].links
  }

  /** No step between the moves i and j comes later than the chore is due. */
  predicate Prompt(t: Trace, i: nat, j: nat, c: Chore, id: LinkId) {
    forall k {:trigger Took(t, k)} :: i <= k < j && Took(t, k) && k < |t.states| && id in t.states[k].links ==>
      t.moves[k].now <= Next(c, t.states[k].links[id])
  }

  /** The packets of move i, released or withheld, do the chore for the link. */
  ghost predicate ServedAt(t: Trace, i: int, c: Chore, id: LinkId) {
    && Took(t, i) && i + 1 < |t.states| && id in t.states[i].links && id in t.states[i + 1].links
    && Served(c, t.states[i].links[id], t.states[i + 1], Release.Produced(t.states[i + 1], t.results[i].value), id)
  }

  /** The number of moves between i and j, at the given time or before it, that do the chore. */
  ghost function ServedBy(t: Trace, i: nat, j: nat, c: Chore, id: LinkId, latest: int): nat {
    if j <= i then 0
    else
      ServedBy(t, i, j - 1, c, id, latest)
      + (if ServedAt(t, j - 1, c, id) && t.moves[j - 1].now <= latest then 1 else 0)
  }

  /** The chore is due in time for k more of its kind, one interval apart. */
  predicate InTime(c: Chore, cfg: LiveConfig, l: LinkState, k: nat, latest: int) {
    k == 0 || Next(c, l) + (k - 1) * Every(c, cfg, l) <= latest
  }

  lemma TookLooks(t: Trace, i: nat, id: LinkId)
    requires IsTrace(t) && Took(t, i) && |t.states| == |t.moves| + 1
    requires id in t.states[i].links && id in t.states[i + 1].links
    ensures t.states[i + 1].now == t.moves[i].now && t.states[i + 1].cfg == t.states[i].cfg
    ensures Looked(t.states[i].links[id], t.states[i + 1], Release.Produced(t.states[i + 1], t.results[i].value), id)
  {
    hide IsTrace, Valid, Step, Refusal, Decoded, Looked, Release.Produced;
    TookStep(t, i);
    StepLooks(t.states[i], t.moves[i].now, t.moves[i].event, t.states[i + 1], t.results[i], id);
  }

  lemma SameEvery(c: Chore, cfg: LiveConfig, l: LinkState, m: LinkState)
    requires m.link.helloInterval == l.link.helloInterval
    ensures Every(c, cfg, m) == Every(c, cfg, l) && Every(c, cfg, l) > 0
  {
    hide BoundedLink;
  }

  lemma Pays(c: Chore, cfg: LiveConfig, now: int, l: LinkState, m: LinkState, k: nat, latest: int)
    requires Rescheduled(c, cfg, now, l, m) && now <= Next(c, l) && k >= 1 && InTime(c, cfg, l, k, latest)
    requires Every(c, cfg, m) == Every(c, cfg, l) > 0
    ensures Next(c, l) <= now ==> now <= latest && InTime(c, cfg, m, k - 1, latest)
    ensures Next(c, l) > now ==> InTime(c, cfg, m, k, latest)
  {
    hide Next, Every;
    var e := Every(c, cfg, l);
    assert (k - 1) * e >= 0;
    if k > 1 {
      assert (k - 1) * e == (k - 2) * e + e;
    }
  }

  lemma Later(c: Chore, cfg: LiveConfig, l: LinkState, k: nat, latest: int)
    requires k >= 1 && InTime(c, cfg, l, k, latest) && Every(c, cfg, l) > 0
    ensures InTime(c, cfg, l, k - 1, latest)
  {
    hide Next, Every;
    if k > 1 {
      assert (k - 1) * Every(c, cfg, l) == (k - 2) * Every(c, cfg, l) + Every(c, cfg, l);
    }
  }

  lemma DueServed(t: Trace, i: nat, c: Chore, id: LinkId)
    requires IsTrace(t) && Took(t, i) && |t.states| == |t.moves| + 1
    requires id in t.states[i].links && id in t.states[i + 1].links
    ensures Rescheduled(c, t.states[i].cfg, t.moves[i].now, t.states[i].links[id], t.states[i + 1].links[id])
    ensures Next(c, t.states[i].links[id]) <= t.moves[i].now ==> ServedAt(t, i, c, id)
    ensures t.states[i + 1].links[id].link.helloInterval == t.states[i].links[id].link.helloInterval
  {
    hide IsTrace, Served, Release.Produced, Paced, Rescheduled, HelloInterval;
    TookLooks(t, i, id);
  }

  /** A prompt move does the chore when it is due, and leaves it in time for the rest. */
  lemma MoveInTime(t: Trace, i: nat, c: Chore, id: LinkId, k: nat, latest: int)
    requires IsTrace(t) && i < |t.moves| && |t.states| == |t.moves| + 1
    requires id in t.states[i].links && id in t.states[i + 1].links && k >= 1
    requires InTime(c, t.states[i].cfg, t.states[i].links[id], k, latest)
    requires Took(t, i) ==> t.moves[i].now <= Next(c, t.states[i].links[id])
    ensures var done := if ServedAt(t, i, c, id) && t.moves[i].now <= latest then 1 else 0;
            InTime(c, t.states[i].cfg, t.states[i + 1].links[id], k - done, latest)
  {
    hide IsTrace, ServedAt, Next, Every, InTime, Rescheduled;
    var cfg, l, m := t.states[i].cfg, t.states[i].links[id], t.states[i + 1].links[id];
    if Took(t, i) {
      DueServed(t, i, c, id);
      SameEvery(c, cfg, l, m);
      Pays(c, cfg, t.moves[i].now, l, m, k, latest);
      if Next(c, l) > t.moves[i].now {
        Later(c, cfg, m, k, latest);
      }
    } else {
      OtherMove(t, i);
      assert !ServedAt(t, i, c, id) by { NotServed(t, i, c, id); }
    }
  }

  lemma NotServed(t: Trace, i: int, c: Chore, id: LinkId)
    requires !Took(t, i)
    ensures !ServedAt(t, i, c, id)
  {
    hide Took, Served;
  }

  lemma {:induction false} ServedInTime(t: Trace, i: nat, j: nat, c: Chore, id: LinkId, k: nat, latest: int)
    requires IsTrace(t) && i <= j < |t.states| && |t.states| == |t.moves| + 1 && Linked(t, i, j, id)
    requires Prompt(t, i, j, c, id)
    requires InTime(c, t.states[i].cfg, t.states[i].links[id], k, latest)
    ensures var n := ServedBy(t, i, j, c, id, latest);
            n < k ==> InTime(c, t.states[i].cfg, t.states[j].links[id], k - n, latest)
    decreases j
  {
    hide IsTrace, ServedAt, Next, Every, InTime, Took;
    if i < j {
      ServedInTime(t, i, j - 1, c, id, k, latest);
      var n := ServedBy(t, i, j - 1, c, id, latest);
      if n < k {
        TraceForward(t, i, j - 1);
        assert id in t.states[j - 1].links && id in t.states[j].links;
        MoveInTime(t, j - 1, c, id, k - n, latest);
      }
    }
  }

  lemma InTimeNext(c: Chore, cfg: LiveConfig, l: LinkState, k: nat, latest: int)
    requires k >= 1 && InTime(c, cfg, l, k, latest) && Every(c, cfg, l) > 0
    ensures Next(c, l) <= latest
  {
    hide Next, Every;
    assert (k - 1) * Every(c, cfg, l) >= 0;
  }

  /**
   Chores recur.  In every run that steps no later than a chore of a link is due, the chore is
   done k times by the time it is next due and k - 1 intervals more, for every k, as soon as
   the run has gone on for longer than that.
   */
  lemma {:induction false} ChoresRecur(t: Trace, i: nat, j: nat, c: Chore, id: LinkId, k: nat)
    requires IsTrace(t) && i <= j < |t.moves| && |t.states| == |t.moves| + 1
    requires Linked(t, i, j, id) && Prompt(t, i, j + 1, c, id) && Took(t, j) && id in t.states[i].links
    ensures var cfg, l := t.states[i].cfg, t.states[i].links[id];
            var latest := Next(c, l) + (k - 1) * Every(c, cfg, l);
            t.moves[j].now > latest ==> ServedBy(t, i, j, c, id, latest) >= k
  {
    hide IsTrace, ServedAt, Next, Every;
    var cfg, l := t.states[i].cfg, t.states[i].links[id];
    var latest := Next(c, l) + (k - 1) * Every(c, cfg, l);
    if t.moves[j].now > latest {
      ServedInTime(t, i, j, c, id, k, latest);
      var n := ServedBy(t, i, j, c, id, latest);
      if n < k {
        SameInterval(t, i, j, id);
        SameEvery(c, cfg, l, t.states[j].links[id]);
        InTimeNext(c, cfg, t.states[j].links[id], k - n, latest);
      }
    }
  }

  lemma {:induction false} SameInterval(t: Trace, i: nat, j: nat, id: LinkId)
    requires IsTrace(t) && i <= j < |t.states| && |t.states| == |t.moves| + 1 && Linked(t, i, j, id)
    ensures id in t.states[i].links && id in t.states[j].links
    ensures t.states[j].links[id].link.helloInterval == t.states[i].links[id].link.helloInterval
    decreases j
  {
    hide IsTrace, Looked, Took;
    assert id in t.states[j].links;
    if i < j {
      SameInterval(t, i, j - 1, id);
      if Took(t, j - 1) {
        DueServed(t, j - 1, Greeting, id);
      } else {
        OtherMove(t, j - 1);
      }
    } else {
      assert id in t.states[i].links;
    }
  }

  /** How long a neighbour relies on the chore once done, by the interval it announces. */
  function Reliance(c: Chore, cfg: LiveConfig, l: LinkState): int {
    match c
    case Greeting => Hold(WireTime(Centis(HelloInterval(cfg, l))))
    case Reporting => Hold(WireTime(Centis(HelloInterval(cfg, l) * 2)))
    case Refreshing => Hold(WireTime(Period(cfg)))
  }

  lemma RelianceLasts(c: Chore, cfg: LiveConfig, l: LinkState)
    ensures 0 < 3 * Every(c, cfg, l) < Reliance(c, cfg, l)
  {
    hide WireTime, Centis, HelloInterval, Period, BoundedLink;
    IntervalsExact(cfg, l);
  }

  lemma {:induction false} ServedSooner(t: Trace, i: nat, j: nat, c: Chore, id: LinkId, latest: int, later: int)
    requires latest <= later
    ensures ServedBy(t, i, j, c, id, latest) <= ServedBy(t, i, j, c, id, later)
    decreases j
  {
    hide ServedAt;
    if i < j {
      ServedSooner(t, i, j - 1, c, id, latest, later);
    }
  }

  /**
   Three must be lost.  In every run that steps no later than a chore of a link is due, a step in
   which it was due is followed by three more that do the chore before the neighbour's reliance
   on the first runs out: Hellos with fresh sequence numbers, IHUs with the link's cost, or
   updates on every prefix.
   */
  lemma {:induction false} ThreeBeforeHold(t: Trace, i: nat, j: nat, c: Chore, id: LinkId)
    requires IsTrace(t) && i < j < |t.moves| && |t.states| == |t.moves| + 1
    requires Linked(t, i, j, id) && Prompt(t, i + 1, j + 1, c, id) && Took(t, i) && Took(t, j)
    requires id in t.states[i].links && Next(c, t.states[i].links[id]) <= t.moves[i].now
    ensures var cfg, l := t.states[i].cfg, t.states[i].links[id];
            var latest := t.moves[i].now + 3 * Every(c, cfg, l);
            && ServedAt(t, i, c, id)
            && latest < t.moves[i].now + Reliance(c, cfg, l)
            && (t.moves[j].now > latest ==> ServedBy(t, i + 1, j, c, id, latest) >= 3)
  {
    hide IsTrace, ServedAt, Next, Every;
    var cfg, l, m := t.states[i].cfg, t.states[i].links[id], t.states[i + 1].links[id];
    DueServed(t, i, c, id);
    SameEvery(c, cfg, l, m);
    TraceForward(t, i, i + 1);
    RelianceLasts(c, cfg, l);
    ChoresRecur(t, i + 1, j, c, id, 3);
    ServedSooner(t, i + 1, j, c, id, Next(c, m) + 2 * Every(c, cfg, m), t.moves[i].now + 3 * Every(c, cfg, l));
  }

  // ---------------------------------------------------------------- wildcard requests

  /** An answer to a wildcard request is a full dump, and leaves its time. */
  lemma AnswerStamps(st: State, id: LinkId)
    requires id in st.links && st.links[id].lastDump <= st.now
    ensures var y, l := ReceiveWildcardRequest(st, id), st.links[id];
            && id in y.links
            && (y.links[id] == l ==> y == st)
            && (y.links[id] != l ==>
                  y.em == Dump(st, st.em, id, true) && y.links[id] == l.(lastDump := st.now, dumped := true))
  {
    hide Dump, BoundedLink, BoundedConfig;
  }

  predicate Spaced(l: LinkState, m: LinkState, d: int) {
    || (m.dumped == l.dumped && m.lastDump == l.lastDump)
    || (m.dumped && (l.dumped ==> m.lastDump >= l.lastDump + d))
  }

  /** Over every run answers to wildcard requests on one link are at least a Hello interval apart. */
  lemma {:induction false} WildcardPace(t: Trace, i: nat, j: nat, id: LinkId)
    requires IsTrace(t) && i <= j < |t.states| && |t.states| == |t.moves| + 1 && Linked(t, i, j, id)
    ensures id in t.states[i].links && id in t.states[j].links
    ensures Spaced(t.states[i].links[id], t.states[j].links[id], HelloInterval(t.states[i].cfg, t.states[i].links[id]))
    decreases j
  {
    hide IsTrace, Looked, Took, HelloInterval;
    assert id in t.states[i].links && id in t.states[j].links;
    if i < j {
      WildcardPace(t, i, j - 1, id);
      TraceForward(t, i, j - 1);
      SameInterval(t, i, j - 1, id);
      SameEvery(Greeting, t.states[i].cfg, t.states[i].links[id], t.states[j - 1].links[id]);
      if Took(t, j - 1) {
        MovePaced(t, j - 1, id);
      } else {
        OtherMove(t, j - 1);
      }
    }
  }

  lemma MovePaced(t: Trace, i: nat, id: LinkId)
    requires IsTrace(t) && Took(t, i) && |t.states| == |t.moves| + 1
    requires id in t.states[i].links && id in t.states[i + 1].links
    ensures var l := t.states[i].links[id]; Spaced(l, t.states[i + 1].links[id], HelloInterval(t.states[i].cfg, l))
  {
    hide IsTrace, Served, Release.Produced, Rescheduled, HelloInterval;
    TookLooks(t, i, id);
  }
}
