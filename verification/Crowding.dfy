/**
 The sum that the admission tests compare with MaxRoutes counts a lost route twice: as a
 candidate and as a suppression.
 */
module Crowding {
  import opened Arithmetic
  import opened Types
  import opened Rules
  import opened Steps
  import opened Soundness
  import opened Selection
  import opened Invariant
  import opened Rest
  import opened Traces
  import opened Scenario
  import Holddown
  import Progress
  import Quiet

  function Narrow(): LiveConfig { DEFAULT_CONFIG.(maxRoutes := 1) }

  const MOVES := [
    StepMove(0, AddLink(Wire(1))), StepMove(0, Offered(1, 0, 10)), CommitMove(1, true), StepMove(0, RemoveLink(1))]

  ghost function Run(): Trace { Played(Fresh(Narrow()), MOVES) }

  lemma Starts()
    ensures Opens(Fresh(Narrow()))
  {
    assert Defaulted(Narrow()) == Narrow();
    assert New(Narrow()) == Ok(Fresh(Narrow()));
  }

  lemma LinkRemoved(st: State, a: State)
    requires Routed(Narrow(), 10, st) && a == Apply(Begin(st, 0), RemoveLink(1))
    ensures a.now == 0 && a.cfg == Narrow() && a.links == map[] && a.routes.Keys == {ONLY} && a.local == map[]
  {
    hide BoundedConfig, LiveSources, LiveRequests;
    assert AgedRoutes(st.routes, 0) == st.routes;
  }

  lemma NoLinks(st: State, k: RouteKey)
    requires st.links == map[]
    ensures MetricAt(st, k) == INFINITY
  {
  }

  lemma LostCounts(y: State)
    requires Rested(y) && y.links == map[] && y.local == map[] && y.routes.Keys == {ONLY}
    requires ANYWHERE in y.selected && y.cfg == Narrow()
    ensures y.selected[ANYWHERE].unreachable && ANYWHERE in y.drops
    ensures |y.routes| + |y.local| + |y.drops| > y.cfg.maxRoutes
    ensures Validate(y, Originate(ANYWHERE, 0)) == Some(ErrLimit)
  {
    hide Live, NothingDue, Unanswered, MetricAt, BoundedConfig, RoutablePrefix, ValidPrefix;
    AnywhereRoutable();
    NoLinks(y, RouteKey(ANYWHERE, y.selected[ANYWHERE].link));
    assert Standing(y, ANYWHERE, y.selected[ANYWHERE]);
    Progress.Sizes(y.routes);
    Progress.Sizes(y.drops);
    Subset({ANYWHERE}, y.drops.Keys);
  }

  lemma LinkLost(st: State, y: State, r: Result<Effects>)
    requires Valid(st) && Routed(Narrow(), 10, st) && st.pending == 0 && (y, r) == Step(st, 0, RemoveLink(1))
    ensures r.Ok? && ANYWHERE in y.selected && y.cfg == Narrow()
    ensures y.links == map[] && y.local == map[] && y.routes.Keys == {ONLY}
  {
    hide Valid, Step, SelectRoutes, Timers, Begin, BoundedConfig, Apply, Marked, Holddown.Secured;
    var a := Apply(Begin(st, 0), RemoveLink(1));
    LinkRemoved(st, a);
    Progress.SelectRoutesFrame(a);
    StepTidy(st, 0, RemoveLink(1), y, r, SelectRoutes(a));
    Holddown.LossHolds(st, 0, RemoveLink(1), y, r, ANYWHERE);
  }

  // ---------------------------------------------------------------------- the run

  lemma RunTrace(t: Trace)
    requires t == Run()
    ensures IsTrace(t) && |t.moves| == 4 && |t.states| == 5 && |t.results| == 4 && t.states[0] == Fresh(Narrow())
  {
    hide Opens, Respond, RoutablePrefix, ValidPrefix, IsTrace, Decodable, BoundedConfig;
    Starts();
    forall m | m in MOVES ensures DecodedMove(m) {
      OfferDecoded(10);
    }
    PlayedTrace(Fresh(Narrow()), MOVES);
  }

  lemma RunRouted(t: Trace)
    requires t == Run()
    ensures |t.states| == 5 && |t.results| == 4 && t.results[1].Ok?
    ensures Routed(Narrow(), 10, t.states[3]) && t.states[3].pending == 0
  {
    hide Valid, Step, IsTrace, Linked, Routed, BoundedConfig;
    RunTrace(t);
    TraceValid(t, 0);
    TraceMove(t, 0);
    LinkAdded(Narrow(), t.states[0], t.states[1], t.results[0]);
    TraceValid(t, 1);
    TraceMove(t, 1);
    OfferSelected(Narrow(), 10, t.states[1], t.states[2], t.results[1]);
    TraceMove(t, 2);
    CommittedRouted(t.states[2]);
  }

  lemma CommittedRouted(st: State)
    requires Routed(Narrow(), 10, st) && st.pending == 1
    ensures Routed(Narrow(), 10, Commit(st, 1, true).0) && Commit(st, 1, true).0.pending == 0
  {
    hide BoundedConfig;
  }

  /**
   In a run that has room for one prefix, learns one and loses it, the sum of the admission
   tests exceeds MaxRoutes although the one prefix held does not, and that very prefix can
   no longer be originated.
   */
  lemma SumExceedsLimit(t: Trace)
    requires t == Run()
    ensures IsTrace(t) && |t.states| == 5
    ensures var st := t.states[4];
            && |st.routes| + |st.local| + |st.drops| > st.cfg.maxRoutes && |HeldPrefixes(st)| <= st.cfg.maxRoutes
            && ANYWHERE in st.selected && st.selected[ANYWHERE].unreachable
            && Validate(st, Originate(ANYWHERE, 0)) == Some(ErrLimit)
  {
    hide IsTrace, Valid, Step, Routed, Rested, HeldPrefixes, Validate, BoundedConfig;
    RunTrace(t);
    RunRouted(t);
    TraceValid(t, 3);
    TraceMove(t, 3);
    LinkLost(t.states[3], t.states[4], t.results[3]);
    assert Took(t, 1);
    Quiet.AlwaysRested(t, 1, 4);
    LostCounts(t.states[4]);
    TraceValid(t, 4);
    ValidCapacity(t.states[4]);
  }
}
