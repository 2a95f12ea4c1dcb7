/** The two-phase step: when packets are withheld, and what steps and commits leave alone. */
module TwoPhase {
  import opened Types
  import opened Sorting
  import opened Steps
  import opened Soundness
  import opened Invariant
  import opened Release

  // ----------------------------------------------------------------- snapshots

  lemma SnapshotEntry(selected: map<Prefix, Route>, p: Prefix)
    requires SelectedOk(selected) && p in selected
    ensures selected[p] in Snapshot(selected) && selected[p].prefix == p
  {
    hide PrefixLess, ScopedAddress, ValidPrefix;
    var ps := SortPrefixes(selected.Keys);
    assert p in ps;
    var i :| 0 <= i < |ps| && ps[i] == p;
    assert Snapshot(selected)[i] == selected[p];
    assert RouteOk(p, selected[p]);
  }

  lemma SnapshotOnly(selected: map<Prefix, Route>, r: Route)
    requires SelectedOk(selected) && r in Snapshot(selected)
    ensures r.prefix in selected && selected[r.prefix] == r
  {
    hide PrefixLess, ScopedAddress, ValidPrefix;
    var ps := SortPrefixes(selected.Keys);
    var i :| 0 <= i < |ps| && Snapshot(selected)[i] == r;
    assert ps[i] in ps;
    assert RouteOk(ps[i], selected[ps[i]]);
  }

  /** A snapshot determines the selection: equal snapshots mean equal forwarding. */
  lemma SnapshotInjective(x: map<Prefix, Route>, y: map<Prefix, Route>)
    requires SelectedOk(x) && SelectedOk(y) && Snapshot(x) == Snapshot(y)
    ensures x == y
  {
    hide Snapshot, RouteOk;
    forall p | p in x ensures p in y && y[p] == x[p] {
      SnapshotEntry(x, p);
      SnapshotOnly(y, x[p]);
    }
    forall p | p in y ensures p in x {
      SnapshotEntry(y, p);
      SnapshotOnly(x, y[p]);
    }
  }

  // --------------------------------------------------------------------- steps

  /**
   A step withholds its packets exactly when it changed the forwarding table, and then
   asks for a revision greater than every one before.
   */
  lemma {:induction false} StepWithholds(st: State, now: int, event: Event, y: State, r: Result<Effects>)
    requires Valid(st) && Decoded(event) && Refusal(st, now, event).None? && (y, r) == Step(st, now, event)
    ensures r.Ok?
    ensures y.pending != 0 <==> y.selected != st.selected
    ensures y.selected == st.selected ==>
              y.revision == st.revision && y.held == [] && r.value == Effects(0, [], Produced(y, r.value))
    ensures y.selected != st.selected ==>
              y.revision > st.revision && y.pending == y.revision
              && r.value == Effects(y.revision, Snapshot(y.selected), []) && y.held == Produced(y, r.value)
    ensures !y.stopped
  {
    hide Valid, Refusal, Snapshot, Packets, Work, Decoded, Step, SelectedOk, Validate;
    Unrefused(st, now, event);
    StepProduces(st, now, event, y, r);
    WorkPhase(st, now, event);
    assert SelectedOk(st.selected) && st.held == [] by { ValidTables(st); }
    StepValid(st, now, event);
    assert SelectedOk(y.selected) by { ValidTables(y); }
    if Snapshot(st.selected) == Snapshot(y.selected) {
      SnapshotInjective(st.selected, y.selected);
    }
  }

  lemma ValidTables(st: State)
    requires Valid(st)
    ensures SelectedOk(st.selected) && (st.pending == 0 ==> st.held == [])
        && (st.pending != 0 ==> st.pending == st.revision)
  {
    hide LocalOk, RoutesOk, EmissionOk, RequestsOk, DropsOk, LinksOk, Room, SelectedOk;
  }

  /** A refused step changes nothing. */
  lemma RefusedUnchanged(st: State, now: int, event: Event)
    requires Step(st, now, event).1.Err?
    ensures Step(st, now, event).0 == st
    ensures Step(st, now, event).1 == Err(Refusal(st, now, event).value)
  {
    hide Work, Refusal, Snapshot;
  }

  lemma Answered(st: State, now: int, event: Event, y: State, r: Result<Effects>)
    requires (y, r) == Step(st, now, event) && r.Ok?
    ensures Refusal(st, now, event).None? && !st.stopped
  {
    hide Work, Validate, Snapshot;
  }

  /** The clock never runs backwards, and the configuration stays. */
  lemma StepForward(st: State, now: int, event: Event, y: State, r: Result<Effects>)
    requires Valid(st) && Decoded(event) && (y, r) == Step(st, now, event)
    ensures y.now >= st.now && y.cfg == st.cfg
    ensures r.Ok? ==> y.now == now && Refusal(st, now, event).None?
    ensures r.Err? ==> y == st
  {
    hide Valid, Decoded, Validate, Work, Snapshot, Packets, Step, Refusal;
    if r.Err? {
      RefusedUnchanged(st, now, event);
    } else {
      Answered(st, now, event, y, r);
      Unrefused(st, now, event);
      StepProduces(st, now, event, y, r);
      WorkKeeps(st, now, event);
    }
  }

  lemma WorkKeeps(st: State, now: int, event: Event)
    requires Valid(st) && Refusal(st, now, event).None? && Decoded(event) && Validate(st, event).None?
    ensures Work(st, now, event).now == now && Work(st, now, event).cfg == st.cfg
  {
    hide Valid, Work, Validate, Decoded, Refusal, Sound;
    WorkAdvances(0, SourceKey(Prefix(NoFamily, 0, 0), 0), st, now, event);
    assert Begin(st, now).now == now && Begin(st, now).cfg == st.cfg;
  }

  lemma CommitForward(st: State, revision: nat, success: bool)
    ensures var y := Commit(st, revision, success).0; y.now == st.now && y.cfg == st.cfg && y.selected == st.selected
  {
  }
}
