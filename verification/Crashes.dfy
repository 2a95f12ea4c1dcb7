/**
 Crash-safe history.  Whatever a router has sent is dominated by its source table until the
 entry is collected, and by the history on its disk, however often it crashes and restarts,
 whatever it receives, and whenever it is stepped.
 */
module Crashes {
  import opened Arithmetic
  import opened Types
  import opened Sorting
  import opened Rules
  import opened Steps
  import opened History
  import opened Soundness
  import opened Selection
  import opened Invariant
  import opened Release
  import opened Sites
  import Recovery
  import TwoPhase

  // -------------------------------------------------------------------- backing

  /** The entry of sk is as good as dist and lives beyond the network time until. */
  predicate Stored(sources: map<SourceKey, Source>, boot: int, sk: SourceKey, dist: Distance, until: int) {
    sk in sources && AsGood(sources[sk].Dist(), dist) && boot + sources[sk].expires > until
  }

  ghost predicate OnDisk(saved: Checkpoint, sk: SourceKey, dist: Distance) {
    exists h :: h in saved.sources && HistoryKey(h) == sk && AsGood(Distance(h.seqno, h.metric), dist)
  }

  /** The router answers for the distance until the given time, even if it crashes. */
  ghost predicate Backs(a: Router, time: int, sk: SourceKey, dist: Distance, until: int) {
    && (a.up ==> Stored(a.released, a.boot, sk, dist, until) && Stored(a.engine.em.sources, a.boot, sk, dist, until))
    && a.disk.Some? && OnDisk(a.disk.value, sk, dist) && until < time + a.disk.value.sourceHold
  }

  // ------------------------------------------------------------------ invariant

  /** Of a router on its own. */
  ghost predicate Healthy(time: int, a: Router) {
    && (!a.up ==> a.fib == map[])
    && (a.up ==>
          && Valid(a.engine) && a.boot + a.engine.now <= time
          && (a.engine.pending == 0 && !a.engine.stopped ==> a.fib == a.engine.selected)
          && (a.disk.Some? ==> a.disk.value.sourceHold <= a.engine.cfg.sourceGC))
  }

  /** Packets withheld are backed by the source table for the full collection time. */
  ghost predicate HeldBacked(sk: SourceKey, a: Router) {
    a.engine.pending != 0 ==>
      Backing(sk, a.engine.now + a.engine.cfg.sourceGC, Period(a.engine.cfg), a.engine.held, a.engine.em.sources)
  }

  /** Packets released but not persisted are backed by the running engine. */
  ghost predicate OutboxBacked(n: Node, time: int, sk: SourceKey, a: Router) {
    forall s :: s in a.outbox && s.key == sk ==>
      && s.from == n && Answers(s) < time + a.engine.cfg.sourceGC
      && (Owed(time, s) ==>
            && Stored(a.released, a.boot, sk, s.dist, Answers(s))
            && Stored(a.engine.em.sources, a.boot, sk, s.dist, Answers(s)))
  }

  /** Packets sent are backed even if the router crashes. */
  ghost predicate SentBacked(time: int, sk: SourceKey, a: Router, sent: set<Sent>) {
    forall s :: s in sent && s.key == sk && Owed(time, s) ==> Backs(a, time, sk, s.dist, Answers(s))
  }

  ghost predicate EngineBacked(n: Node, time: int, sk: SourceKey, a: Router) {
    a.up ==> HeldBacked(sk, a) && OutboxBacked(n, time, sk, a)
  }

  /** The router keeps its word. */
  ghost predicate Keeping(n: Node, sk: SourceKey, x: Site) {
    && Healthy(x.time, x.router) && EngineBacked(n, x.time, sk, x.router)
    && SentBacked(x.time, sk, x.router, x.sent)
  }

  /** Whatever the router answered for, it still answers for. */
  ghost predicate Improved(base: u16, a: Router, b: Router, time: int, sk: SourceKey) {
    forall dist: Distance, until: int ::
      InWindow(base, dist.seqno) && until >= time && Backs(a, time, sk, dist, until) ==> Backs(b, time, sk, dist, until)
  }

  /** Nothing more is sent, and so everything sent stays backed. */
  lemma SentStill(base: u16, x: Site, b: Router, sk: SourceKey)
    requires SentBacked(x.time, sk, x.router, x.sent) && SentWithin(base, sk, x.time, x.sent)
    requires Improved(base, x.router, b, x.time, sk)
    ensures SentBacked(x.time, sk, b, x.sent)
  {
    hide Backs, InWindow;
  }

  /** A deed that sends nothing keeps the router's word if it keeps its tables in order. */
  lemma StillKeeping(base: u16, n: Node, sk: SourceKey, x: Site, y: Site)
    requires Keeping(n, sk, x) && SentWithin(base, sk, x.time, x.sent)
    requires y.time == x.time && y.sent <= x.sent && Improved(base, x.router, y.router, x.time, sk)
    requires Healthy(y.time, y.router) && EngineBacked(n, y.time, sk, y.router)
    ensures Keeping(n, sk, y)
  {
    hide Improved, Healthy, EngineBacked, Backs, SentWithin;
    SentStill(base, x, y.router, sk);
  }

  // ------------------------------------------------------------ halts and boots

  lemma HaltKeeps(base: u16, n: Node, sk: SourceKey, x: Site, y: Site)
    requires Keeping(n, sk, x) && x.router.up && y.router == Halted(x.router)
    ensures Healthy(x.time, y.router) && EngineBacked(n, x.time, sk, y.router)
    ensures Improved(base, x.router, y.router, x.time, sk)
  {
    hide Stored, OnDisk, SentBacked, EngineBacked, Valid;
    assert !y.router.up;
    assert EngineBacked(n, x.time, sk, y.router) by { DownBacked(n, x.time, sk, y.router); }
  }

  lemma DownBacked(n: Node, time: int, sk: SourceKey, a: Router)
    requires !a.up
    ensures EngineBacked(n, time, sk, a)
  {
    hide HeldBacked, OutboxBacked;
  }

  /** What is on disk is in the source table after a restart, for as long as anyone can rely on it. */
  lemma RestoredStored(c: Config, saved: Checkpoint, st: State, time: int, sk: SourceKey, dist: Distance, until: int)
    requires Restore(c, saved) == Ok(st) && OnDisk(saved, sk, dist) && until < time + saved.sourceHold
    ensures Stored(st.em.sources, time, sk, dist, until)
  {
    hide BoundedConfig, Defaulted, ValidPrefix, Better, RestorableDrops;
    RestoredTables(c, saved, st);
    var h :| h in saved.sources && HistoryKey(h) == sk && AsGood(Distance(h.seqno, h.metric), dist);
    var i :| 0 <= i < |saved.sources| && saved.sources[i] == h;
    Recovery.RestoredSource(saved.sources, st.cfg.sourceGC, i);
  }

  lemma RestoredTables(c: Config, saved: Checkpoint, st: State)
    requires Restore(c, saved) == Ok(st)
    ensures RestorableHistory(saved.sources) && st.em.sources == RestoredSources(saved.sources, st.cfg.sourceGC)
    ensures saved.sourceHold <= st.cfg.sourceGC
    ensures st.now == 0 && st.routes == map[] && st.selected == map[] && st.pending == 0 && !st.stopped
  {
    hide BoundedConfig, RestorableHistory, RestorableDrops, RestoredSources;
    var d := RestoreConfig(c, saved);
    assert saved.sourceHold <= Defaulted(d).sourceGC;
  }

  lemma NewTables(c: Config, st: State)
    requires New(c) == Ok(st)
    ensures Valid(st) && st.now == 0 && st.routes == map[] && st.selected == map[] && st.pending == 0 && !st.stopped
  {
    hide BoundedConfig, Valid, Defaulted;
    FreshValid(Defaulted(c));
  }

  lemma StartupTables(a: Router, c: Config, st: State)
    requires Startup(a, c) == Ok(st)
    ensures Valid(st) && st.now == 0 && st.routes == map[] && st.selected == map[] && st.pending == 0 && !st.stopped
    ensures a.disk.Some? ==> a.disk.value.sourceHold <= st.cfg.sourceGC
  {
    hide Restore, New, Valid;
    if a.disk.Some? {
      Recovery.RestoreValid(c, a.disk.value);
      RestoredTables(c, a.disk.value, st);
    } else {
      NewTables(c, st);
    }
  }

  lemma BootImproved(base: u16, a: Router, c: Config, st: State, time: int, sk: SourceKey)
    requires !a.up && Startup(a, c) == Ok(st)
    ensures Improved(base, a, Start(a, st, time), time, sk)
  {
    hide Restore, New, Stored, OnDisk;
    forall dist: Distance, until: int | Backs(a, time, sk, dist, until)
      ensures Backs(Start(a, st, time), time, sk, dist, until)
    {
      RestoredStored(c, a.disk.value, st, time, sk, dist, until);
    }
  }

  lemma BootKeeps(base: u16, n: Node, sk: SourceKey, time: int, a: Router, b: Router, c: Config)
    requires !a.up && Startup(a, c).Ok? && b == Start(a, Startup(a, c).value, time)
    ensures Healthy(time, b) && EngineBacked(n, time, sk, b) && Improved(base, a, b, time, sk)
  {
    hide Improved, Valid, Startup, Stored;
    var st := Startup(a, c).value;
    BootImproved(base, a, c, st, time, sk);
    StartupTables(a, c, st);
  }

  // ---------------------------------------------------------------- persistence

  /** A checkpoint holds every entry of the source table. */
  lemma SavedEntry(st: State, c: Checkpoint, boot: int, sk: SourceKey, dist: Distance, until: int)
    requires IsCheckpoint(st, c) && Stored(st.em.sources, boot, sk, dist, until)
    ensures OnDisk(c, sk, dist)
  {
    hide SourceKeyLess, SortPrefixes, IsDropHold, Better;
    var sks := SortSourceKeys(st.em.sources.Keys);
    assert sk in sks;
    var i :| 0 <= i < |sks| && sks[i] == sk;
    assert c.sources[i] in c.sources && HistoryKey(c.sources[i]) == sk;
  }

  lemma PersistImproved(base: u16, a: Router, c: Checkpoint, time: int, sk: SourceKey)
    requires a.up && IsCheckpoint(a.engine, c) && Healthy(time, a)
    ensures Improved(base, a, Persisted(a, c), time, sk)
  {
    hide IsCheckpoint, Stored, OnDisk, Valid;
    Recovery.CheckpointFields(a.engine, c);
    forall dist: Distance, until: int | Backs(a, time, sk, dist, until)
      ensures Backs(Persisted(a, c), time, sk, dist, until)
    {
      SavedEntry(a.engine, c, a.boot, sk, dist, until);
    }
  }

  lemma OutboxSaved(n: Node, time: int, a: Router, c: Checkpoint, sk: SourceKey, s: Sent)
    requires a.up && IsCheckpoint(a.engine, c) && OutboxBacked(n, time, sk, a)
    requires s in a.outbox && s.key == sk && Owed(time, s)
    ensures Backs(Persisted(a, c), time, sk, s.dist, Answers(s))
  {
    hide IsCheckpoint, Stored, OnDisk;
    Recovery.CheckpointFields(a.engine, c);
    SavedEntry(a.engine, c, a.boot, sk, s.dist, Answers(s));
  }

  lemma PersistedHealthy(time: int, a: Router, c: Checkpoint)
    requires a.up && Healthy(time, a) && IsCheckpoint(a.engine, c)
    ensures Healthy(time, Persisted(a, c))
  {
    hide Valid, IsCheckpoint;
    Recovery.CheckpointFields(a.engine, c);
  }

  lemma PersistedBacked(n: Node, time: int, sk: SourceKey, a: Router, c: Checkpoint)
    requires EngineBacked(n, time, sk, a)
    ensures EngineBacked(n, time, sk, Persisted(a, c))
  {
    hide Stored, Backing;
  }

  lemma PersistKeeps(base: u16, n: Node, sk: SourceKey, x: Site, y: Site, c: Checkpoint)
    requires Keeping(n, sk, x) && SentWithin(base, sk, x.time, x.sent)
    requires x.router.up && IsCheckpoint(x.router.engine, c)
    requires y.time == x.time && y.router == Persisted(x.router, c) && y.sent <= x.sent + x.router.outbox
    ensures Keeping(n, sk, y) && Improved(base, x.router, y.router, x.time, sk)
  {
    hide Improved, Healthy, EngineBacked, SentBacked, IsCheckpoint, SentWithin, Backs;
    var a := x.router;
    PersistImproved(base, a, c, x.time, sk);
    PersistedHealthy(x.time, a, c);
    PersistedBacked(n, x.time, sk, a, c);
    SentStill(base, x, y.router, sk);
    SentMore(n, x, y, c, sk);
  }

  lemma SentMore(n: Node, x: Site, y: Site, c: Checkpoint, sk: SourceKey)
    requires x.router.up && IsCheckpoint(x.router.engine, c) && EngineBacked(n, x.time, sk, x.router)
    requires y.time == x.time && y.router == Persisted(x.router, c) && y.sent <= x.sent + x.router.outbox
    requires SentBacked(x.time, sk, y.router, x.sent)
    ensures SentBacked(y.time, sk, y.router, y.sent)
  {
    hide Backs, IsCheckpoint, HeldBacked, OutboxBacked;
    forall s | s in y.sent && s.key == sk && Owed(y.time, s) ensures Backs(y.router, y.time, sk, s.dist, Answers(s)) {
      if s !in x.sent {
        OutboxSaved(n, x.time, x.router, c, sk, s);
      }
    }
  }

  // ------------------------------------------------------- packets handed out

  lemma UpdateWithin(base: u16, sk: SourceKey, n: Node, packets: seq<Datagram>, stamp: int, gc: int)
    requires forall s :: s in Updates(n, packets, stamp, gc) && s.key == sk ==> InWindow(base, s.dist.seqno)
    ensures CarriedWithin(base, sk, packets)
  {
    forall m | Carried(packets, m) && Claims(m, sk) ensures InWindow(base, m.seqno) {
      var s := Sent(n, SourceKey(m.prefix, m.routerId), Claimed(m), m.interval, stamp, gc);
      assert s in Updates(n, packets, stamp, gc);
    }
  }

  lemma UpdateBacked(n: Node, sk: SourceKey, packets: seq<Datagram>, sources: map<SourceKey, Source>,
      cfg: LiveConfig, boot: int, at: int, s: Sent)
    requires Backing(sk, at + cfg.sourceGC, Period(cfg), packets, sources)
    requires s in Updates(n, packets, boot + at, cfg.sourceGC) && s.key == sk
    ensures s.from == n && Stored(sources, boot, sk, s.dist, Answers(s))
    ensures Answers(s) < boot + at + cfg.sourceGC && s.interval == Period(cfg)
  {
    hide AsGood, BoundedConfig, Period;
    var i, m :| 0 <= i < |packets| && m in packets[i].messages && FiniteUpdate(m)
                && s == Sent(n, SourceKey(m.prefix, m.routerId), Claimed(m), m.interval, boot + at, cfg.sourceGC);
    assert Carried(packets, m) && Claims(m, sk);
  }

  // -------------------------------------------------------------------- commits

  lemma CommittedEngine(st: State)
    requires !st.stopped && st.pending != 0
    ensures Commit(st, st.pending, true).0 == st.(pending := 0, held := [])
  {
  }

  lemma CommitImproved(base: u16, a: Router, n: Node, time: int, sk: SourceKey)
    requires a.up && !a.engine.stopped && a.engine.pending != 0
    ensures Improved(base, a, Applied(a, n), time, sk)
  {
    hide Stored, OnDisk, Updates, ClaimsOf, Commit;
    CommittedEngine(a.engine);
  }

  lemma CommitHealthy(time: int, a: Router, n: Node)
    requires a.up && !a.engine.stopped && a.engine.pending != 0 && Healthy(time, a)
    ensures Healthy(time, Applied(a, n))
  {
    hide Valid, Updates, ClaimsOf, Commit;
    CommittedEngine(a.engine);
    CommitValid(a.engine, a.engine.pending, true);
  }

  lemma CommitOutbox(time: int, a: Router, n: Node, sk: SourceKey)
    requires a.up && !a.engine.stopped && a.engine.pending != 0 && a.boot + a.engine.now <= time
    requires HeldBacked(sk, a) && OutboxBacked(n, time, sk, a)
    ensures OutboxBacked(n, time, sk, Applied(a, n))
  {
    hide Stored, Updates, ClaimsOf, Commit, Backing, Answers;
    CommittedEngine(a.engine);
    var stamp := a.boot + a.engine.now;
    forall s | s in Updates(n, a.engine.held, stamp, a.engine.cfg.sourceGC) && s.key == sk
      ensures s.from == n && Stored(a.engine.em.sources, a.boot, sk, s.dist, Answers(s))
      ensures Answers(s) < time + a.engine.cfg.sourceGC
    {
      UpdateBacked(n, sk, a.engine.held, a.engine.em.sources, a.engine.cfg, a.boot, a.engine.now, s);
    }
  }

  lemma SettleKeeps(base: u16, n: Node, sk: SourceKey, time: int, a: Router)
    requires a.up && !a.engine.stopped && a.engine.pending != 0 && Healthy(time, a) && EngineBacked(n, time, sk, a)
    ensures Healthy(time, Applied(a, n)) && EngineBacked(n, time, sk, Applied(a, n))
    ensures Improved(base, a, Applied(a, n), time, sk)
  {
    hide Improved, Valid, OutboxBacked, Updates, ClaimsOf, Commit, Backing;
    CommittedEngine(a.engine);
    CommitImproved(base, a, n, time, sk);
    CommitHealthy(time, a, n);
    CommitOutbox(time, a, n, sk);
  }

  lemma FailKeeps(base: u16, n: Node, sk: SourceKey, time: int, a: Router)
    requires a.up && !a.engine.stopped && a.engine.pending != 0 && Healthy(time, a) && EngineBacked(n, time, sk, a)
    ensures Healthy(time, Failed(a)) && EngineBacked(n, time, sk, Failed(a))
    ensures Improved(base, a, Failed(a), time, sk)
  {
    hide Valid, Stored, OnDisk, Backing;
    CommitValid(a.engine, a.engine.pending, false);
  }

  // ---------------------------------------------------------------------- steps

  /** A change of policy leaves the tables valid. */
  lemma RehookedValid(st: State, hooks: Hooks)
    requires Valid(st)
    ensures Valid(Rehooked(st, hooks))
  {
    hide SelfFeasible, Anchored, RoutablePrefix, ValidPrefix, CandidatePrefixes;
    assert HeldPrefixes(Rehooked(st, hooks)) == HeldPrefixes(st);
  }

  // One accepted step of router a at network time, and its result.
  datatype Turn = Turn(a: Router, hooks: Hooks, event: Event, time: int, st: State, effects: Effects)

  function Clock(t: Turn): int { t.time - t.a.boot }

  ghost predicate IsTurn(t: Turn) {
    && t.a.up && Healthy(t.time, t.a) && Decoded(t.event)
    && Step(Rehooked(t.a.engine, t.hooks), Clock(t), t.event) == (t.st, Ok(t.effects))
  }

  lemma TurnFacts(t: Turn)
    requires IsTurn(t)
    ensures Valid(t.st) && t.st.now == Clock(t) && t.st.cfg == t.a.engine.cfg.(hooks := t.hooks) && !t.st.stopped
    ensures t.a.engine.pending == 0 && t.a.fib == t.a.engine.selected
    ensures t.st.pending == 0 ==> t.st.selected == t.a.fib && t.effects.datagrams == Produced(t.st, t.effects)
    ensures t.st.pending != 0 ==> t.st.held == Produced(t.st, t.effects)
  {
    var st := Rehooked(t.a.engine, t.hooks);
    hide Valid, Refusal, Decoded, Step, Work;
    RehookedValid(t.a.engine, t.hooks);
    TwoPhase.Answered(st, Clock(t), t.event, t.st, Ok(t.effects));
    Unrefused(st, Clock(t), t.event);
    StepValid(st, Clock(t), t.event);
    TwoPhase.StepWithholds(st, Clock(t), t.event, t.st, Ok(t.effects));
    StepProduces(st, Clock(t), t.event, t.st, Ok(t.effects));
    WorkClock(st, Clock(t), t.event);
  }

  lemma WorkClock(st: State, now: int, event: Event)
    requires Valid(st) && Refusal(st, now, event).None? && Decoded(event)
    ensures Validate(st, event).None? && Work(st, now, event).now == now && Work(st, now, event).cfg == st.cfg
  {
    hide Valid, Work, Validate, Decoded, Refusal, Sound, Evolves;
    Unrefused(st, now, event);
    WorkAdvances(0, SourceKey(Prefix(NoFamily, 0, 0), 0), st, now, event);
    assert Begin(st, now).now == now && Begin(st, now).cfg == st.cfg;
  }

  /** The history over a turn, as StepHistory has it. */
  ghost predicate Carries(base: u16, sk: SourceKey, t: Turn) {
    && SourceWithin(base, sk, t.st.em.sources)
    && Improves(sk, Clock(t) + t.a.engine.cfg.sourceGC, LiveSources(t.a.engine.em.sources, Clock(t)), t.st.em.sources)
    && Backing(sk, Clock(t) + t.a.engine.cfg.sourceGC, Period(t.a.engine.cfg), Produced(t.st, t.effects),
               t.st.em.sources)
  }

  lemma TurnCarries(base: u16, t: Turn, sk: SourceKey)
    requires IsTurn(t) && SourceWithin(base, sk, t.a.engine.em.sources)
    requires CarriedWithin(base, sk, Produced(t.st, t.effects))
    ensures Carries(base, sk, t)
  {
    var st := Rehooked(t.a.engine, t.hooks);
    hide Valid, Refusal, Decoded, Step, CarriedWithin, Improves, Backing, LiveSources, SourceWithin;
    RehookedValid(t.a.engine, t.hooks);
    TwoPhase.Answered(st, Clock(t), t.event, t.st, Ok(t.effects));
    StepHistory(base, sk, st, Clock(t), t.event, t.st, Ok(t.effects));
    assert Period(st.cfg) == Period(t.a.engine.cfg);
  }

  /** An entry that a neighbour can still rely on survives the turn. */
  lemma StoredStill(base: u16, t: Turn, sk: SourceKey, dist: Distance, until: int)
    requires Carries(base, sk, t) && SourceWithin(base, sk, t.a.engine.em.sources) && InWindow(base, dist.seqno)
    requires Stored(t.a.engine.em.sources, t.a.boot, sk, dist, until)
    requires t.time <= until < t.time + t.a.engine.cfg.sourceGC
    ensures Stored(t.st.em.sources, t.a.boot, sk, dist, until)
  {
    hide Backing, BoundedConfig;
    var x, y := t.a.engine.em.sources[sk], t.st.em.sources[sk];
    WindowOrder(base, y.Dist(), x.Dist());
    WindowOrder(base, x.Dist(), dist);
    WindowOrder(base, y.Dist(), dist);
  }

  lemma TurnImproved(base: u16, n: Node, t: Turn, sk: SourceKey)
    requires t.a.up && Healthy(t.time, t.a) && Carries(base, sk, t) && SourceWithin(base, sk, t.a.engine.em.sources)
    ensures Improved(base, t.a, Stepped(t.a, n, t.st, t.effects, t.time), t.time, sk)
  {
    hide Stored, OnDisk, Updates, ClaimsOf, Carries, Valid, SourceWithin, InWindow;
    var b := Stepped(t.a, n, t.st, t.effects, t.time);
    forall dist: Distance, until: int | InWindow(base, dist.seqno) && until >= t.time
        && Backs(t.a, t.time, sk, dist, until)
      ensures Backs(b, t.time, sk, dist, until)
    {
      StoredStill(base, t, sk, dist, until);
    }
  }

  lemma TurnHealthy(n: Node, t: Turn)
    requires IsTurn(t)
    ensures Healthy(t.time, Stepped(t.a, n, t.st, t.effects, t.time))
  {
    hide Valid, Step, Updates, ClaimsOf, Decoded;
    TurnFacts(t);
  }

  /** An entry of the outbox after a turn, new or old, is backed by the new source table. */
  lemma TurnSent(base: u16, n: Node, t: Turn, sk: SourceKey, s: Sent)
    requires t.a.up && Carries(base, sk, t) && HistoryWithin(base, sk, t.a)
    requires OutboxBacked(n, t.time, sk, t.a) && s.key == sk
    requires s in t.a.outbox || s in Updates(n, Produced(t.st, t.effects), t.time, t.a.engine.cfg.sourceGC)
    ensures s.from == n && Answers(s) < t.time + t.a.engine.cfg.sourceGC
    ensures Owed(t.time, s) ==> Stored(t.st.em.sources, t.a.boot, sk, s.dist, Answers(s))
  {
    assert SourceWithin(base, sk, t.a.engine.em.sources);
    Backer(base, t, sk);
    hide Stored, Updates, Carries, InWindow, SourceWithin, CarriedWithin, BoundedConfig, Backing, Produced, Period;
    if s in t.a.outbox {
      if Owed(t.time, s) {
        StoredStill(base, t, sk, s.dist, Answers(s));
      }
    } else {
      UpdateBacked(n, sk, Produced(t.st, t.effects), t.st.em.sources, t.a.engine.cfg, t.a.boot, Clock(t), s);
    }
  }

  lemma TurnOutbox(base: u16, n: Node, t: Turn, sk: SourceKey)
    requires IsTurn(t) && Carries(base, sk, t) && HistoryWithin(base, sk, t.a)
    requires OutboxBacked(n, t.time, sk, t.a)
    ensures OutboxBacked(n, t.time, sk, Stepped(t.a, n, t.st, t.effects, t.time))
  {
    hide Stored, Updates, ClaimsOf, Carries, IsTurn, HistoryWithin, Valid, Produced, BoundedConfig;
    hide Answers, Owed;
    TurnFacts(t);
    TurnUp(n, t);
    var b := Stepped(t.a, n, t.st, t.effects, t.time);
    forall s | s in b.outbox && s.key == sk
      ensures s.from == n && Answers(s) < t.time + t.a.engine.cfg.sourceGC
      ensures Owed(t.time, s) ==> Stored(t.st.em.sources, t.a.boot, sk, s.dist, Answers(s))
    {
      TurnSent(base, n, t, sk, s);
    }
  }

  lemma TurnHeld(base: u16, n: Node, t: Turn, sk: SourceKey)
    requires IsTurn(t) && Carries(base, sk, t)
    ensures HeldBacked(sk, Stepped(t.a, n, t.st, t.effects, t.time))
  {
    hide Updates, ClaimsOf, Carries, IsTurn, Valid, Produced, BoundedConfig, Backing;
    TurnFacts(t);
    Backer(base, t, sk);
    assert Period(t.st.cfg) == Period(t.a.engine.cfg);
  }

  lemma Backer(base: u16, t: Turn, sk: SourceKey)
    requires Carries(base, sk, t)
    ensures Backing(sk, Clock(t) + t.a.engine.cfg.sourceGC, Period(t.a.engine.cfg), Produced(t.st, t.effects),
                    t.st.em.sources)
  {
    hide Backing, Improves, SourceWithin;
  }

  lemma ProducedWithin(base: u16, n: Node, t: Turn, sk: SourceKey)
    requires IsTurn(t) && HistoryWithin(base, sk, Stepped(t.a, n, t.st, t.effects, t.time))
    ensures CarriedWithin(base, sk, Produced(t.st, t.effects))
  {
    hide IsTurn, Updates, ClaimsOf, InWindow, Produced, CarriedWithin, SourceWithin, Valid;
    TurnFacts(t);
    TurnUp(n, t);
    if t.st.pending == 0 {
      UpdateWithin(base, sk, n, t.effects.datagrams, t.time, t.st.cfg.sourceGC);
    }
  }

  lemma TurnKeeps(base: u16, n: Node, sk: SourceKey, t: Turn, b: Router)
    requires IsTurn(t) && b == Stepped(t.a, n, t.st, t.effects, t.time)
    requires EngineBacked(n, t.time, sk, t.a) && HistoryWithin(base, sk, t.a) && HistoryWithin(base, sk, b)
    ensures Healthy(t.time, b) && EngineBacked(n, t.time, sk, b) && Improved(base, t.a, b, t.time, sk)
  {
    hide Improved, Healthy, HistoryWithin, IsTurn, Stepped, Carries, HeldBacked, OutboxBacked, CarriedWithin;
    TurnUp(n, t);
    assert SourceWithin(base, sk, t.a.engine.em.sources) by { HistoryParts(base, sk, t.a); }
    ProducedWithin(base, n, t, sk);
    TurnCarries(base, t, sk);
    TurnImproved(base, n, t, sk);
    TurnHealthy(n, t);
    TurnOutbox(base, n, t, sk);
    TurnHeld(base, n, t, sk);
  }

  lemma HistoryParts(base: u16, sk: SourceKey, a: Router)
    requires HistoryWithin(base, sk, a) && a.up
    ensures SourceWithin(base, sk, a.engine.em.sources)
  {
    hide SourceWithin, CarriedWithin;
  }

  lemma TurnUp(n: Node, t: Turn)
    requires IsTurn(t)
    ensures t.a.up && Healthy(t.time, t.a) && Stepped(t.a, n, t.st, t.effects, t.time).up
  {
    hide Step, Healthy, Updates, ClaimsOf;
  }

  // ----------------------------------------------------------------------- deeds

  /** Every deed keeps the router's word, and what it answered for it still answers for. */
  lemma ActKeeps(base: u16, n: Node, sk: SourceKey, x: Site, y: Site, d: Deed)
    requires Keeping(n, sk, x) && SiteWithin(base, sk, x) && HistoryWithin(base, sk, y.router)
    requires Acts(n, x.router, y.router, x.time, d) && y.time == x.time
    requires y.sent <= (if d.Persisting? then x.sent + x.router.outbox else x.sent)
    ensures Keeping(n, sk, y) && Improved(base, x.router, y.router, x.time, sk)
  {
    hide Improved, Healthy, EngineBacked, SentBacked, HistoryWithin, SentWithin, Applied, Failed, Halted, Persisted;
    hide Start, Startup, IsCheckpoint, Stepped, Step, Decoded;
    var a, b := x.router, y.router;
    match d
    case Booting(c) =>
      BootKeeps(base, n, sk, x.time, a, b, c);
      StillKeeping(base, n, sk, x, y);
    case Moving(event, hooks) =>
      var (st, r) := Step(Rehooked(a.engine, hooks), x.time - a.boot, event);
      TurnKeeps(base, n, sk, Turn(a, hooks, event, x.time, st, r.value), b);
      StillKeeping(base, n, sk, x, y);
    case Settling =>
      SettleKeeps(base, n, sk, x.time, a);
      StillKeeping(base, n, sk, x, y);
    case Failing =>
      FailKeeps(base, n, sk, x.time, a);
      StillKeeping(base, n, sk, x, y);
    case Halting =>
      HaltKeeps(base, n, sk, x, y);
      StillKeeping(base, n, sk, x, y);
    case Persisting(c) => PersistKeeps(base, n, sk, x, y, c);
    case Waiting =>
      SameImproved(base, a, x.time, sk);
      StillKeeping(base, n, sk, x, y);
  }

  lemma SameImproved(base: u16, a: Router, time: int, sk: SourceKey)
    ensures Improved(base, a, a, time, sk)
  {
    hide Backs;
  }

  /** So does the passing of time. */
  lemma WaitKeeps(n: Node, sk: SourceKey, x: Site, y: Site)
    requires Keeping(n, sk, x) && y.router == x.router && y.sent <= x.sent && x.time <= y.time
    ensures Keeping(n, sk, y)
  {
    hide Stored, OnDisk, Valid, HeldBacked;
  }

  lemma DeedKeeps(n: Node, sk: SourceKey, x: Site, y: Site, d: Deed)
    requires Keeping(n, sk, x) && Does(n, x, y, d) && SiteWindowed(sk, x, y)
    ensures Keeping(n, sk, y)
  {
    hide Keeping, Acts, HistoryWithin, SentWithin;
    var base: u16 :| SiteWithin(base, sk, x) && SiteWithin(base, sk, y);
    if d.Waiting? {
      assert y.router == x.router by { Waited(n, x.router, y.router, x.time); }
      WaitKeeps(n, sk, x, y);
    } else {
      ActKeeps(base, n, sk, x, y, d);
    }
  }

  lemma Waited(n: Node, a: Router, b: Router, time: int)
    requires Acts(n, a, b, time, Waiting)
    ensures b == a
  {
  }

  // ----------------------------------------------------------------------- runs

  lemma {:induction false} LifeKeeps(n: Node, sk: SourceKey, r: Life, i: nat)
    requires IsLife(n, sk, r) && i < |r.states|
    ensures Keeping(n, sk, r.states[i])
  {
    hide Does, SiteWindowed;
    if i == 0 {
      hide Valid, OutboxBacked, HeldBacked;
    } else {
      hide Keeping;
      LifeKeeps(n, sk, r, i - 1);
      DeedKeeps(n, sk, r.states[i - 1], r.states[i], r.deeds[i - 1]);
    }
  }

  /**
   Crash-safe history.  Over every run of steps, commits, crashes and restarts, with any
   packets, at any times and under any configuration that restores, every finite update a
   router has sent is dominated for the full collection time from the step that produced it:
   by the source table of the running engine, by the history on disk, and by the source table
   of whatever engine is restarted from it; and so is every update released but not yet sent,
   by the running engine.
   */
  lemma {:induction false} CrashSafe(n: Node, sk: SourceKey, r: Life, i: nat, s: Sent)
    requires IsLife(n, sk, r) && i < |r.states| && s.key == sk && r.states[i].time < s.stamp + s.gc
    ensures var a, until := r.states[i].router, s.stamp + s.gc - 1;
            && (a.up && (s in a.outbox || s in r.states[i].sent) ==>
                  Stored(a.engine.em.sources, a.boot, sk, s.dist, until))
            && (s in r.states[i].sent ==>
                  && a.disk.Some? && OnDisk(a.disk.value, sk, s.dist)
                  && forall c: Config, st: State :: !a.up && Startup(a, c) == Ok(st) ==>
                       Stored(st.em.sources, r.states[i].time, sk, s.dist, until))
  {
    hide IsLife, Keeping, Stored, OnDisk, Startup;
    LifeKeeps(n, sk, r, i);
    var x := r.states[i];
    var a, until := x.router, s.stamp + s.gc - 1;
    KeptWord(n, sk, x, s);
    if s in x.sent {
      forall c: Config, st: State | !a.up && Startup(a, c) == Ok(st)
        ensures Stored(st.em.sources, x.time, sk, s.dist, until)
      {
        StartedStored(a, c, st, x.time, sk, s.dist, until);
      }
    }
  }

  lemma KeptWord(n: Node, sk: SourceKey, x: Site, s: Sent)
    requires Keeping(n, sk, x) && s.key == sk && Owed(x.time, s)
    ensures s in x.sent ==> Backs(x.router, x.time, sk, s.dist, Answers(s))
    ensures x.router.up && s in x.router.outbox ==>
              Stored(x.router.engine.em.sources, x.router.boot, sk, s.dist, Answers(s))
  {
    hide Stored, OnDisk, HeldBacked, Healthy;
  }

  lemma StartedStored(a: Router, c: Config, st: State, time: int, sk: SourceKey, dist: Distance, until: int)
    requires !a.up && Startup(a, c) == Ok(st) && Backs(a, time, sk, dist, until)
    ensures Stored(st.em.sources, time, sk, dist, until)
  {
    hide Stored, OnDisk, Restore, New;
    RestoredStored(c, a.disk.value, st, time, sk, dist, until);
  }
}
