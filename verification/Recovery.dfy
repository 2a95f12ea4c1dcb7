/**
 Checkpoints (checkpoint.go): every checkpoint of a valid engine restores, restoring
 forgets no advertised distance, and a restored engine is valid again.
 */
module Recovery {
  import opened Arithmetic
  import opened Types
  import opened Sorting
  import opened Steps
  import opened Soundness
  import opened Progress
  import opened Selection
  import opened Invariant
  import Loops

  /** The specification of a checkpoint leaves nothing open. */
  lemma CheckpointUnique(st: State, c: Checkpoint, d: Checkpoint)
    requires IsCheckpoint(st, c) && IsCheckpoint(st, d)
    ensures c == d
  {
    hide SortSourceKeys, SortPrefixes, SourceKeyLess, PrefixLess;
    assert c.dropHold == d.dropHold;
  }

  // ------------------------------------------------------------------ history

  /** A restored entry is the last one saved for its key. */
  lemma {:induction false} RestoredSource(hs: seq<SourceHistory>, expires: int, i: nat)
    requires RestorableHistory(hs) && i < |hs|
    ensures var m := RestoredSources(hs, expires);
            HistoryKey(hs[i]) in m && m[HistoryKey(hs[i])] == Source(hs[i].seqno, hs[i].metric, expires)
  {
    var n := |hs| - 1;
    if i < n {
      assert hs[..n][i] == hs[i] && HistoryKey(hs[i]) != HistoryKey(hs[n]);
      assert RestorableHistory(hs[..n]);
      RestoredSource(hs[..n], expires, i);
    }
  }

  lemma {:induction false} RestoredCount(hs: seq<SourceHistory>, expires: int)
    ensures |RestoredSources(hs, expires)| <= |hs|
  {
    if hs != [] {
      var n := |hs| - 1;
      RestoredCount(hs[..n], expires);
      var x, y := RestoredSources(hs[..n], expires), RestoredSources(hs, expires);
      assert y.Keys == x.Keys + {HistoryKey(hs[n])};
      UnionSize(x.Keys, {HistoryKey(hs[n])});
      Sizes(x);
      Sizes(y);
    }
  }

  lemma RestoredSourcesOk(cfg: LiveConfig, hs: seq<SourceHistory>)
    requires RestorableHistory(hs) && |hs| <= cfg.maxSources
    ensures SourcesOk(cfg, 0, RestoredSources(hs, cfg.sourceGC))
  {
    hide ValidPrefix, ValidRouterId;
    var m := RestoredSources(hs, cfg.sourceGC);
    RestoredCount(hs, cfg.sourceGC);
    Loops.RestoredKeys(hs, cfg.sourceGC);
    forall sk | sk in m ensures SourceOk(cfg, 0, sk, m[sk]) {
      var h :| h in hs && HistoryKey(h) == sk;
      var i :| 0 <= i < |hs| && hs[i] == h;
      RestoredSource(hs, cfg.sourceGC, i);
    }
  }

  lemma {:induction false} ElementsSize<T>(s: seq<T>)
    ensures |Elements(s)| <= |s|
  {
    if s != [] {
      var n := |s| - 1;
      ElementsSize(s[..n]);
      ElementsSnoc(s, n);
      assert s[..n + 1] == s;
      UnionSize(Elements(s[..n]), {s[n]});
    } else {
      assert Elements(s) == {};
    }
  }

  lemma SuppressedRoom(cfg: LiveConfig, y: State, ps: seq<Prefix>)
    requires y.cfg == cfg && |ps| <= cfg.maxRoutes && y.drops.Keys == Elements(ps)
    requires y.local == map[] && y.routes == map[] && y.selected == map[]
    ensures Room(y)
  {
    ElementsSize(ps);
    assert HeldPrefixes(y) + y.selected.Keys == Elements(ps);
  }

  lemma SuppressedOk(ps: seq<Prefix>, until: int)
    requires RestorableDrops(ps) && 0 < until <= DAY
    ensures DropsOk(0, map p | p in ps :: until)
  {
    hide ValidPrefix;
  }

  /** An engine that knows nothing but history and suppressions. */
  lemma BareValid(st: State, lastLink: LinkId, sources: map<SourceKey, Source>, drops: map<Prefix, int>)
    requires st == Fresh(st.cfg) && SourcesOk(st.cfg, 0, sources) && DropsOk(0, drops)
    requires Room(st.(lastLink := lastLink, em := st.em.(sources := sources), drops := drops))
    ensures Valid(st.(lastLink := lastLink, em := st.em.(sources := sources), drops := drops))
  {
    hide SourcesOk, DropsOk, Room, ValidPrefix;
  }

  lemma RefilledValid(st: State, saved: Checkpoint)
    requires st == Fresh(st.cfg) && 0 < saved.dropHold <= DAY && Refilled(st, saved).Ok?
    ensures Valid(Refilled(st, saved).value)
  {
    hide RestoredSources, RestorableHistory, RestorableDrops, SourcesOk, BoundedConfig, Valid, DropsOk, Room;
    var y := Refilled(st, saved).value;
    RestoredSourcesOk(st.cfg, saved.sources);
    assert y.drops.Keys == Elements(saved.drops);
    UpdateHold(st.cfg);
    SuppressedOk(saved.drops, Max(Hold(st.cfg.updateInterval), saved.dropHold));
    SuppressedRoom(st.cfg, y, saved.drops);
    BareValid(st, saved.lastLink, y.em.sources, y.drops);
  }

  lemma UpdateHold(cfg: LiveConfig)
    ensures 0 < Hold(cfg.updateInterval) <= cfg.sourceGC <= DAY
  {
  }

  /** Whatever checkpoint an engine restores from, it starts valid, at time zero. */
  lemma RestoreValid(c: Config, saved: Checkpoint)
    requires Restore(c, saved).Ok?
    ensures Valid(Restore(c, saved).value) && Restore(c, saved).value.now == 0
  {
    hide Valid, BoundedConfig, Defaulted, Refilled;
    var st := New(RestoreConfig(c, saved)).value;
    RefilledValid(st, saved);
    assert Refilled(st, saved).value.now == 0 by { RefilledClock(st, saved); }
  }

  lemma RefilledClock(st: State, saved: Checkpoint)
    requires Refilled(st, saved).Ok?
    ensures Refilled(st, saved).value.now == st.now
  {
    hide RestorableHistory, RestorableDrops;
  }

  // ------------------------------------------------------------- own checkpoints

  lemma OwnConfig(st: State, c: Checkpoint)
    requires IsCheckpoint(st, c)
    ensures var d := Defaulted(RestoreConfig(st.cfg, c));
            BoundedConfig(d) && New(RestoreConfig(st.cfg, c)) == Ok(Fresh(d))
            && d.maxSources == st.cfg.maxSources && d.maxRoutes == st.cfg.maxRoutes
            && d.updateInterval == st.cfg.updateInterval && d.sourceGC == st.cfg.sourceGC
            && d.initialSeqno == st.seqno && d.routerId == st.cfg.routerId
  {
    hide SortSourceKeys, SortPrefixes, IsDropHold, MultipleOfCentisecond;
  }

  lemma OwnHold(st: State, c: Checkpoint)
    requires Valid(st) && IsCheckpoint(st, c)
    ensures Hold(st.cfg.updateInterval) <= c.dropHold <= DAY && 0 < c.dropHold
  {
    hide SortSourceKeys, SortPrefixes, SelfFeasible, Anchored, ValidPrefix, Room, LinksOk, SourcesOk;
    UpdateHold(st.cfg);
  }

  lemma SavedRestorable(cfg: LiveConfig, now: int, sources: map<SourceKey, Source>, sks: seq<SourceKey>)
    requires SourcesOk(cfg, now, sources) && Sorted(sks, SourceKeyLess) && forall sk :: sk in sks ==> sk in sources
    ensures RestorableHistory(Saved(sources, sks))
  {
    hide ValidPrefix, ValidRouterId, PrefixLess;
    var hs := Saved(sources, sks);
    forall h | h in hs ensures ValidPrefix(h.prefix) && ValidRouterId(h.routerId) && h.metric != INFINITY {
      var i :| 0 <= i < |sks| && h == hs[i];
      assert sks[i] in sks;
      assert SourceOk(cfg, now, sks[i], sources[sks[i]]);
    }
    forall i, j | 0 <= i < j < |hs| ensures HistoryKey(hs[i]) != HistoryKey(hs[j]) {
      assert SourceKeyLess(sks[i], sks[j]) && HistoryKey(hs[i]) == sks[i] && HistoryKey(hs[j]) == sks[j];
      Orders();
    }
  }

  lemma OwnSources(st: State, c: Checkpoint)
    requires SourcesOk(st.cfg, st.now, st.em.sources) && IsCheckpoint(st, c)
    ensures |c.sources| <= st.cfg.maxSources && RestorableHistory(c.sources)
  {
    hide SourceOk, IsDropHold, SortPrefixes, SourceKeyLess, RestorableHistory;
    Sizes(st.em.sources);
    SavedRestorable(st.cfg, st.now, st.em.sources, SortSourceKeys(st.em.sources.Keys));
  }

  lemma OwnDrops(st: State, c: Checkpoint)
    requires Room(st) && DropsOk(st.now, st.drops) && SelectedOk(st.selected)
    requires Anchored(st.selected, st.local, st.drops)
    requires IsCheckpoint(st, c)
    ensures |c.drops| <= st.cfg.maxRoutes && RestorableDrops(c.drops)
  {
    hide ValidPrefix, ScopedAddress, IsDropHold, SortSourceKeys, Saved, BoundedConfig;
    Subset(st.drops.Keys + st.selected.Keys, HeldPrefixes(st) + st.selected.Keys);
    forall p | p in c.drops ensures ValidPrefix(p) {
      assert p in st.drops || (p in st.selected && RouteOk(p, st.selected[p]));
    }
  }

  /** Every checkpoint of a valid engine restores under the engine's own configuration. */
  lemma RestoreSucceeds(st: State, c: Checkpoint)
    requires Valid(st) && IsCheckpoint(st, c)
    ensures Restore(st.cfg, c) == Refilled(Fresh(Defaulted(RestoreConfig(st.cfg, c))), c) && Restore(st.cfg, c).Ok?
  {
    OwnConfig(st, c);
    OwnHold(st, c);
    assert SourcesOk(st.cfg, st.now, st.em.sources) && DropsOk(st.now, st.drops) by { SoundParts(st); }
    OwnSources(st, c);
    OwnDrops(st, c);
    hide Valid, Defaulted, BoundedConfig, SourcesOk, DropsOk, RestorableHistory, RestorableDrops, IsDropHold;
    hide SortSourceKeys, SortPrefixes;
    UpdateHold(st.cfg);
  }

  lemma {:induction false} RestoredMap(sources: map<SourceKey, Source>, sks: seq<SourceKey>, expires: int)
    requires forall sk :: sk in sks ==> sk in sources
    ensures RestoredSources(Saved(sources, sks), expires)
         == map sk | sk in sks :: Source(sources[sk].seqno, sources[sk].metric, expires)
  {
    if sks != [] {
      var n := |sks| - 1;
      RestoredMap(sources, sks[..n], expires);
      assert Saved(sources, sks)[..n] == Saved(sources, sks[..n]);
      assert sks == sks[..n] + [sks[n]];
    }
  }

  /** The history of the engine, every entry with a full lifetime. */
  function Renewed(sources: map<SourceKey, Source>, expires: int): map<SourceKey, Source> {
    map sk | sk in sources :: Source(sources[sk].seqno, sources[sk].metric, expires)
  }

  function Suppressed(st: State, hold: int): map<Prefix, int> {
    map p | p in st.drops.Keys + st.selected.Keys :: hold
  }

  lemma RefillOwn(st: State, c: Checkpoint, bare: State)
    requires IsCheckpoint(st, c) && Refilled(bare, c).Ok?
    requires Hold(bare.cfg.updateInterval) <= c.dropHold
    ensures Refilled(bare, c).value
         == bare.(lastLink := st.lastLink, em := bare.em.(sources := Renewed(st.em.sources, bare.cfg.sourceGC)),
                  drops := Suppressed(st, c.dropHold))
  {
    hide RestorableHistory, RestorableDrops, IsDropHold, BoundedConfig, SourceKeyLess, PrefixLess;
    hide RestoredSources, Renewed, Suppressed, Saved;
    assert RestoredSources(c.sources, bare.cfg.sourceGC) == Renewed(st.em.sources, bare.cfg.sourceGC) by {
      RenewedSaved(st.em.sources, bare.cfg.sourceGC);
    }
    assert (map p | p in c.drops :: c.dropHold) == Suppressed(st, c.dropHold) by {
      SuppressedSaved(st, c.dropHold);
    }
  }

  lemma RenewedSaved(sources: map<SourceKey, Source>, expires: int)
    ensures RestoredSources(Saved(sources, SortSourceKeys(sources.Keys)), expires) == Renewed(sources, expires)
  {
    hide SourceKeyLess, Saved;
    RestoredMap(sources, SortSourceKeys(sources.Keys), expires);
  }

  lemma SuppressedSaved(st: State, hold: int)
    ensures (map p | p in SortPrefixes(st.drops.Keys + st.selected.Keys) :: hold) == Suppressed(st, hold)
  {
    hide PrefixLess;
  }

  /** What the engine's own checkpoint restores to. */
  lemma RestoreOwn(st: State, c: Checkpoint)
    requires Valid(st) && IsCheckpoint(st, c)
    ensures var bare := Fresh(Defaulted(RestoreConfig(st.cfg, c)));
            Restore(st.cfg, c) == Ok(bare.(lastLink := st.lastLink,
                                           em := bare.em.(sources := Renewed(st.em.sources, st.cfg.sourceGC)),
                                           drops := Suppressed(st, c.dropHold)))
  {
    hide Valid, Defaulted, BoundedConfig, Restore, IsCheckpoint, Refilled, Renewed, Suppressed;
    RestoreSucceeds(st, c);
    OwnConfig(st, c);
    OwnHold(st, c);
    RefillOwn(st, c, Fresh(Defaulted(RestoreConfig(st.cfg, c))));
  }

  lemma RestoreFields(st: State, c: Checkpoint, y: State)
    requires Valid(st) && IsCheckpoint(st, c) && Restore(st.cfg, c) == Ok(y)
    ensures y.now == 0 && y.seqno == st.seqno && y.lastLink == st.lastLink && y.selected == map[]
    ensures y.em.sources == Renewed(st.em.sources, st.cfg.sourceGC) && y.drops == Suppressed(st, c.dropHold)
    ensures y.cfg.updateInterval == st.cfg.updateInterval && y.cfg.sourceGC == st.cfg.sourceGC
    ensures y.cfg.routerId == st.cfg.routerId
  {
    hide Valid, Defaulted, BoundedConfig, Restore, IsCheckpoint, Renewed, Suppressed;
    RestoreOwn(st, c);
    OwnConfig(st, c);
    assert c.lastLink == st.lastLink by { CheckpointFields(st, c); }
  }

  lemma CheckpointFields(st: State, c: Checkpoint)
    requires IsCheckpoint(st, c)
    ensures c.seqno == st.seqno && c.lastLink == st.lastLink && c.sourceHold == st.cfg.sourceGC
    ensures IsDropHold(st, c.dropHold)
    ensures c.version == 1 && c.routerId == st.cfg.routerId
    ensures c.sources == Saved(st.em.sources, SortSourceKeys(st.em.sources.Keys))
    ensures c.drops == SortPrefixes(st.drops.Keys + st.selected.Keys)
  {
    hide IsDropHold, SortSourceKeys, SortPrefixes, BoundedConfig;
  }

  /**
   Restoring forgets nothing: sequence number, last link and every advertised distance
   are those of the engine that took the checkpoint, each with a full lifetime, and every
   prefix it forwarded or suppressed is suppressed for the remaining hold or longer.
   */
  lemma RestoreKeeps(st: State, c: Checkpoint, y: State)
    requires Valid(st) && IsCheckpoint(st, c) && Restore(st.cfg, c) == Ok(y)
    ensures y.seqno == st.seqno && y.lastLink == st.lastLink
    ensures y.em.sources == Renewed(st.em.sources, st.cfg.sourceGC)
    ensures y.drops.Keys == st.drops.Keys + st.selected.Keys
    ensures forall p :: p in y.drops ==> y.drops[p] - y.now >= Hold(st.cfg.updateInterval)
    ensures forall p :: p in st.drops ==> y.drops[p] - y.now >= st.drops[p] - st.now
  {
    hide Valid, BoundedConfig, Restore, IsCheckpoint, Renewed, Suppressed, IsDropHold, Saved, SortSourceKeys;
    hide SortPrefixes;
    RestoreFields(st, c, y);
    CheckpointFields(st, c);
    SuppressedHolds(st, c.dropHold);
  }

  lemma SuppressedHolds(st: State, hold: int)
    requires IsDropHold(st, hold)
    ensures var d := Suppressed(st, hold);
            && d.Keys == st.drops.Keys + st.selected.Keys
            && (forall p :: p in d ==> d[p] >= Hold(st.cfg.updateInterval))
            && (forall p :: p in st.drops ==> p in d && d[p] >= st.drops[p] - st.now)
  {
    hide BoundedConfig;
  }

  /** The checkpoint of a restored engine is the checkpoint it was restored from. */
  lemma CheckpointAgain(st: State, c: Checkpoint, y: State)
    requires Valid(st) && IsCheckpoint(st, c) && Restore(st.cfg, c) == Ok(y)
    ensures IsCheckpoint(y, c)
  {
    hide Valid, BoundedConfig, Restore, Renewed, Suppressed, IsDropHold, Saved, SortSourceKeys, SortPrefixes;
    RestoreFields(st, c, y);
    CheckpointFields(st, c);
    SameSaved(st, y);
    SameHold(st, c, y);
    assert y.drops.Keys + y.selected.Keys == st.drops.Keys + st.selected.Keys by { SuppressedKeys(st, c.dropHold); }
  }

  lemma SuppressedKeys(st: State, hold: int)
    ensures Suppressed(st, hold).Keys == st.drops.Keys + st.selected.Keys
  {
  }

  lemma SameSaved(st: State, y: State)
    requires y.em.sources == Renewed(st.em.sources, st.cfg.sourceGC)
    ensures Saved(y.em.sources, SortSourceKeys(y.em.sources.Keys))
        == Saved(st.em.sources, SortSourceKeys(st.em.sources.Keys))
  {
    hide SourceKeyLess;
    assert y.em.sources.Keys == st.em.sources.Keys;
  }

  lemma SameHold(st: State, c: Checkpoint, y: State)
    requires IsDropHold(st, c.dropHold) && y.drops == Suppressed(st, c.dropHold) && y.now == 0
    requires y.cfg.updateInterval == st.cfg.updateInterval
    ensures IsDropHold(y, c.dropHold)
  {
    if c.dropHold != Hold(st.cfg.updateInterval) {
      var p :| p in st.drops && st.drops[p] - st.now == c.dropHold;
      assert p in y.drops;
    }
  }
}
