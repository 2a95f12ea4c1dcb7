/** Every run of one engine, from its construction or its restart on. */
module Traces {
  import opened Arithmetic
  import opened Types
  import opened Sorting
  import opened Rules
  import opened Steps
  import opened History
  import opened Soundness
  import opened Selection
  import opened Invariant
  import opened Release
  import TwoPhase
  import Recovery

  datatype Move = StepMove(now: int, event: Event) | CommitMove(revision: nat, success: bool)

  // The states an engine passes through, the calls made in between, and their results.
  datatype Trace = Trace(states: seq<State>, moves: seq<Move>, results: seq<Result<Effects>>)

  /** An engine that has just been constructed or restored, from any configuration and checkpoint. */
  ghost predicate Opens(st: State) {
    (exists c: Config :: New(c) == Ok(st)) || (exists c: Config, saved: Checkpoint :: Restore(c, saved) == Ok(st))
  }

  ghost function Respond(st: State, m: Move): (State, Result<Effects>) {
    match m
    case StepMove(now, event) => Step(st, now, event)
    case CommitMove(revision, success) => Commit(st, revision, success)
  }

  predicate DecodedMove(m: Move) { m.StepMove? ==> Decoded(m.event) }

  predicate Happens(t: Trace, i: int) { 0 <= i < |t.moves| }

  ghost predicate IsTrace(t: Trace) {
    && |t.states| == |t.moves| + 1 && |t.results| == |t.moves|
    && Opens(t.states[0])
    && forall i {:trigger Happens(t, i)} :: Happens(t, i) ==>
         DecodedMove(t.moves[i]) && Respond(t.states[i], t.moves[i]) == (t.states[i + 1], t.results[i])
  }

  lemma TraceSize(t: Trace)
    requires IsTrace(t)
    ensures |t.states| == |t.moves| + 1 && |t.results| == |t.moves|
  {
    hide Opens, Respond, Decoded;
  }

  lemma TraceOpens(t: Trace)
    requires IsTrace(t)
    ensures |t.states| > 0 && Opens(t.states[0])
  {
    hide Opens, Respond, Decoded;
  }

  lemma TraceMove(t: Trace, i: nat)
    requires IsTrace(t) && i < |t.moves|
    ensures |t.states| == |t.moves| + 1 && |t.results| == |t.moves|
    ensures DecodedMove(t.moves[i]) && Respond(t.states[i], t.moves[i]) == (t.states[i + 1], t.results[i])
  {
    hide Opens, Respond, Decoded;
    assert Happens(t, i);
  }

  lemma OpensFacts(st: State)
    requires Opens(st)
    ensures Valid(st) && st.now == 0 && st.routes == map[] && st.selected == map[]
    ensures st.pending == 0 && st.revision == 0 && st.held == [] && !st.stopped
  {
    hide Valid, New, Restore;
    if c: Config :| New(c) == Ok(st) {
      NewFacts(c, st);
    } else {
      var c: Config, saved: Checkpoint :| Restore(c, saved) == Ok(st);
      RestoreFacts(c, saved, st);
    }
  }

  lemma NewFacts(c: Config, st: State)
    requires New(c) == Ok(st)
    ensures Valid(st) && st.now == 0 && st.routes == map[] && st.selected == map[]
    ensures st.pending == 0 && st.revision == 0 && st.held == [] && !st.stopped
  {
    hide BoundedConfig, Defaulted, Valid;
    FreshValid(Defaulted(c));
  }

  lemma RestoreFacts(c: Config, saved: Checkpoint, st: State)
    requires Restore(c, saved) == Ok(st)
    ensures Valid(st) && st.now == 0 && st.routes == map[] && st.selected == map[]
    ensures st.pending == 0 && st.revision == 0 && st.held == [] && !st.stopped
  {
    hide Valid, BoundedConfig, Defaulted, RestorableHistory, RestorableDrops;
    Recovery.RestoreValid(c, saved);
  }

  /** Every state of every run is valid. */
  lemma {:induction false} TraceValid(t: Trace, i: nat)
    requires IsTrace(t) && i < |t.states|
    ensures Valid(t.states[i])
  {
    hide Valid, Step, Commit, Decoded, Opens, IsTrace;
    TraceSize(t);
    if i == 0 {
      TraceOpens(t);
      OpensFacts(t.states[0]);
    } else {
      TraceMove(t, i - 1);
      TraceValid(t, i - 1);
      match t.moves[i - 1]
      case StepMove(now, event) => StepValid(t.states[i - 1], now, event);
      case CommitMove(revision, success) => CommitValid(t.states[i - 1], revision, success);
    }
  }

  /** Time goes forward and the configuration stays. */
  lemma {:induction false} TraceForward(t: Trace, i: nat, j: nat)
    requires IsTrace(t) && i <= j < |t.states|
    ensures t.states[j].now >= t.states[i].now && t.states[j].cfg == t.states[i].cfg
    decreases j
  {
    hide Valid, Step, Commit, Decoded, Opens, IsTrace;
    if i < j {
      TraceSize(t);
      TraceForward(t, i, j - 1);
      TraceMove(t, j - 1);
      TraceValid(t, j - 1);
      match t.moves[j - 1]
      case StepMove(now, event) => TwoPhase.StepForward(t.states[j - 1], now, event, t.states[j], t.results[j - 1]);
      case CommitMove(revision, success) => TwoPhase.CommitForward(t.states[j - 1], revision, success);
    }
  }

  // ------------------------------------------------------------ invariants of runs

  /**
   Self-feasibility over every run: a selected remote route stands on a candidate of its
   link, strictly closer and still feasible.
   */
  lemma {:induction false} AlwaysSelfFeasible(t: Trace, i: nat, p: Prefix)
    requires IsTrace(t) && i < |t.states|
    ensures p in t.states[i].selected && Remote(t.states[i].selected[p]) ==>
              Stands(p, t.states[i].selected[p], t.states[i].routes)
              && Feasible(t.states[i].em.sources, p, t.states[i].routes[RouteKey(p, t.states[i].selected[p].link)])
  {
    hide IsTrace, Sound, Anchored, Feasible, Stands;
    TraceValid(t, i);
  }

  /**
   Capacity: originated, learnt and suppressed prefixes together are never more than
   MaxRoutes, nor are the routes of a snapshot or the suppressions of a checkpoint, and
   links, sources and requests keep to their own limits.
   */
  lemma {:induction false} WithinCapacity(t: Trace, i: nat, c: Checkpoint)
    requires IsTrace(t) && i < |t.states|
    ensures var st := t.states[i];
            && |HeldPrefixes(st)| <= st.cfg.maxRoutes && |Snapshot(st.selected)| <= st.cfg.maxRoutes
            && (IsCheckpoint(st, c) ==> |c.drops| <= st.cfg.maxRoutes)
            && |st.links| <= st.cfg.maxLinks && |st.em.sources| <= st.cfg.maxSources
            && |st.requests| <= st.cfg.maxRequests
  {
    hide Valid, IsTrace, IsCheckpoint;
    TraceValid(t, i);
    ValidCapacity(t.states[i]);
    if IsCheckpoint(t.states[i], c) {
      CheckpointCapacity(t.states[i], c);
    }
  }

  lemma ValidCapacity(st: State)
    requires Valid(st)
    ensures |HeldPrefixes(st)| <= st.cfg.maxRoutes && |Snapshot(st.selected)| <= st.cfg.maxRoutes
    ensures |st.links| <= st.cfg.maxLinks && |st.em.sources| <= st.cfg.maxSources && |st.requests| <= st.cfg.maxRequests
  {
    hide LocalOk, RoutesOk, SelectedOk, DropsOk, SelfFeasible, Anchored, PrefixLess, BoundedConfig, HeldPrefixes;
    var all := HeldPrefixes(st) + st.selected.Keys;
    Subset(HeldPrefixes(st), all);
    Subset(st.selected.Keys, all);
  }

  lemma CheckpointCapacity(st: State, c: Checkpoint)
    requires Valid(st) && IsCheckpoint(st, c)
    ensures |c.drops| <= st.cfg.maxRoutes
  {
    hide LocalOk, RoutesOk, SelectedOk, DropsOk, SelfFeasible, Anchored, IsDropHold, Saved, SortSourceKeys;
    hide PrefixLess, BoundedConfig, HeldPrefixes;
    assert st.drops.Keys <= HeldPrefixes(st) by { DropsHeld(st); }
    Subset(st.drops.Keys + st.selected.Keys, HeldPrefixes(st) + st.selected.Keys);
  }

  lemma DropsHeld(st: State)
    ensures st.drops.Keys <= HeldPrefixes(st)
  {
    hide CandidatePrefixes;
  }

  /** Every checkpoint an engine can ever take restores, and a checkpoint of the restored engine is the same. */
  lemma {:induction false} EveryCheckpointRestores(t: Trace, i: nat, c: Checkpoint)
    requires IsTrace(t) && i < |t.states|
    ensures IsCheckpoint(t.states[i], c) ==>
              Restore(t.states[i].cfg, c).Ok? && IsCheckpoint(Restore(t.states[i].cfg, c).value, c)
  {
    hide Valid, IsTrace, IsCheckpoint, Restore;
    TraceValid(t, i);
    var st := t.states[i];
    if IsCheckpoint(st, c) {
      Recovery.RestoreSucceeds(st, c);
      Recovery.CheckpointAgain(st, c, Restore(st.cfg, c).value);
    }
  }

  /**
   A restart forgets no distance and suppresses whatever was forwarded or suppressed, for what
   was left of its hold at least.
   */
  lemma {:induction false} RestartKeeps(t: Trace, i: nat, c: Checkpoint, y: State)
    requires IsTrace(t) && i < |t.states|
    ensures var st := t.states[i]; IsCheckpoint(st, c) && Restore(st.cfg, c) == Ok(y) ==>
              && y.seqno == st.seqno && y.lastLink == st.lastLink
              && y.em.sources == Recovery.Renewed(st.em.sources, st.cfg.sourceGC)
              && y.drops.Keys == st.drops.Keys + st.selected.Keys
              && (forall p :: p in y.drops ==> y.drops[p] - y.now >= Hold(st.cfg.updateInterval))
              && (forall p :: p in st.drops ==> y.drops[p] - y.now >= st.drops[p] - st.now)
  {
    hide Valid, IsTrace, IsCheckpoint, Restore, Recovery.Renewed;
    TraceValid(t, i);
    if IsCheckpoint(t.states[i], c) && Restore(t.states[i].cfg, c) == Ok(y) {
      Recovery.RestoreKeeps(t.states[i], c, y);
    }
  }

  // ---------------------------------------------------------------------- steps

  /** Move i is a step that was accepted. */
  predicate Took(t: Trace, i: int) {
    0 <= i < |t.moves| && |t.results| == |t.moves| && t.moves[i].StepMove? && t.results[i].Ok?
  }

  lemma TookStep(t: Trace, i: nat)
    requires IsTrace(t) && Took(t, i)
    ensures |t.states| == |t.moves| + 1
    ensures var x, m, y := t.states[i], t.moves[i], t.states[i + 1];
            && Valid(x) && Decoded(m.event) && Refusal(x, m.now, m.event).None?
            && (y, t.results[i]) == Step(x, m.now, m.event) && y.now == m.now
  {
    hide IsTrace, Valid, Step, Refusal, Decoded;
    TraceMove(t, i);
    TraceValid(t, i);
    TwoPhase.StepForward(t.states[i], t.moves[i].now, t.moves[i].event, t.states[i + 1], t.results[i]);
  }

  /** Any other move leaves all but the commit phase alone. */
  lemma OtherMove(t: Trace, i: nat)
    requires IsTrace(t) && i < |t.moves| && !Took(t, i)
    ensures |t.states| == |t.moves| + 1
    ensures var x, y := t.states[i], t.states[i + 1];
            y == x.(pending := y.pending, held := y.held, stopped := y.stopped)
  {
    hide IsTrace, Valid, Step, Decoded;
    TraceMove(t, i);
    TraceValid(t, i);
    match t.moves[i]
    case StepMove(now, event) => TwoPhase.StepForward(t.states[i], now, event, t.states[i + 1], t.results[i]);
    case CommitMove(revision, success) =>
  }

  // --------------------------------------------------------------------- history

  lemma EntryStays(base: u16, sk: SourceKey, now: int, gc: int, x: map<SourceKey, Source>, y: map<SourceKey,
      Source>, at: int)
    requires Improves(sk, now + gc, LiveSources(x, now), y) && sk in x && x[sk].expires > at >= now
    requires x[sk].expires <= now + gc
    ensures sk in y && AsGood(y[sk].Dist(), x[sk].Dist()) && y[sk].expires >= x[sk].expires
  {
  }

  lemma MoveHistory(base: u16, sk: SourceKey, t: Trace, i: nat, at: int)
    requires IsTrace(t) && i < |t.moves| && t.states[i + 1].now <= at
    requires t.moves[i].StepMove? && t.results[i].Ok? ==>
        CarriedWithin(base, sk, Produced(t.states[i + 1], t.results[i].value))
    requires var x := t.states[i].em.sources; SourceWithin(base, sk, x) && sk in x && x[sk].expires > at
    ensures var x, y := t.states[i].em.sources, t.states[i + 1].em.sources;
            SourceWithin(base, sk, y) && sk in y && AsGood(y[sk].Dist(), x[sk].Dist()) && y[sk].expires >= x[sk].expires
  {
    hide Valid, Step, Commit, Decoded, Opens, IsTrace, Refusal, CarriedWithin, Backing, Improves, AsGood;
    hide Produced, Period;
    TraceMove(t, i);
    TraceValid(t, i);
    var st, y := t.states[i], t.states[i + 1];
    match t.moves[i]
    case StepMove(now, event) =>
      TwoPhase.StepForward(st, now, event, y, t.results[i]);
      if t.results[i].Ok? {
        StepHistory(base, sk, st, now, event, y, t.results[i]);
        SourceEnds(st, sk);
        EntryStays(base, sk, now, st.cfg.sourceGC, st.em.sources, y.em.sources, at);
      } else {
        Reflexive(st.em.sources[sk].Dist());
      }
    case CommitMove(revision, success) =>
      CommitSources(st, revision, success);
      Reflexive(st.em.sources[sk].Dist());
  }

  lemma Reflexive(d: Distance)
    ensures AsGood(d, d)
  {
  }

  lemma CommitSources(st: State, revision: nat, success: bool)
    ensures Commit(st, revision, success).0.em == st.em
  {
  }

  lemma SourceEnds(st: State, sk: SourceKey)
    requires Valid(st) && sk in st.em.sources
    ensures st.em.sources[sk].expires <= st.now + st.cfg.sourceGC
  {
    hide LocalOk, RoutesOk, SelectedOk, DropsOk, RequestsOk, LinksOk, Room, SelfFeasible, Anchored, ValidPrefix;
    assert SourceOk(st.cfg, st.now, sk, st.em.sources[sk]);
  }

  /** The packets of the moves from i to j carry sequence numbers for sk from the half of the circle at base only. */
  ghost predicate MovesWithin(base: u16, sk: SourceKey, t: Trace, i: nat, j: nat)
    requires |t.states| == |t.moves| + 1 && |t.results| == |t.moves|
  {
    forall k {:trigger t.moves[k]} :: i <= k < j && k < |t.moves| && t.moves[k].StepMove? && t.results[k].Ok? ==>
      CarriedWithin(base, sk, Produced(t.states[k + 1], t.results[k].value))
  }

  /**
   The feasibility history never worsens.  As long as a source entry lives, and sequence
   numbers lie within half the circle, the entry stays, its sequence number only rises or
   its metric falls at an equal one, and its lifetime is never cut short.
   */
  lemma {:induction false} HistoryNeverWorsens(base: u16, sk: SourceKey, t: Trace, i: nat, j: nat)
    requires IsTrace(t) && i <= j < |t.states| && MovesWithin(base, sk, t, i, j)
    ensures var x, y := t.states[i].em.sources, t.states[j].em.sources;
            SourceWithin(base, sk, x) && sk in x && x[sk].expires > t.states[j].now ==>
              && SourceWithin(base, sk, y) && sk in y && AsGood(y[sk].Dist(), x[sk].Dist())
              && y[sk].expires >= x[sk].expires
    decreases j
  {
    hide IsTrace, AsGood, CarriedWithin, Produced, InWindow;
    var x := t.states[i].em.sources;
    if i == j {
      if sk in x { Reflexive(x[sk].Dist()); }
    } else if SourceWithin(base, sk, x) && sk in x && x[sk].expires > t.states[j].now {
      TraceSize(t);
      TraceForward(t, j - 1, j);
      HistoryNeverWorsens(base, sk, t, i, j - 1);
      MoveHistory(base, sk, t, j - 1, t.states[j].now);
      var y, z := t.states[j - 1].em.sources[sk].Dist(), t.states[j].em.sources[sk].Dist();
      WindowOrder(base, y, x[sk].Dist());
      WindowOrder(base, z, y);
      WindowOrder(base, z, x[sk].Dist());
    }
  }

  /**
   The history dominates what is advertised: every finite update a step produces for sk is
   dominated by the entry the step leaves, which lives on for the full collection time.
   */
  lemma {:induction false} HistoryDominates(base: u16, sk: SourceKey, t: Trace, i: nat, m: Message)
    requires IsTrace(t) && Took(t, i) && |t.states| == |t.moves| + 1
    requires SourceWithin(base, sk, t.states[i].em.sources)
    requires CarriedWithin(base, sk, Produced(t.states[i + 1], t.results[i].value))
    ensures Carried(Produced(t.states[i + 1], t.results[i].value), m) && Claims(m, sk) ==>
              Covers(sk, t.states[i + 1].now + t.states[i].cfg.sourceGC, t.states[i + 1].em.sources, m)
              && m.interval == Period(t.states[i].cfg)
  {
    hide IsTrace, Valid, Step, Refusal, Decoded, SourceWithin, CarriedWithin, Carried, Covers, Improves;
    hide Period, Produced;
    TookStep(t, i);
    StepHistory(base, sk, t.states[i], t.moves[i].now, t.moves[i].event, t.states[i + 1], t.results[i]);
  }
}
