/**
 Self-feasibility: advertising a selected route lowers the history it is judged by,
 and never below the distance its own candidate advertised (sections 3.5.1 and 3.7.3
 of RFC 8966).
 */
module Selection {
  import opened Arithmetic
  import opened Types
  import opened Sorting
  import opened Rules
  import opened Steps
  import opened Soundness

  /** A route through a neighbour. */
  predicate Remote(r: Route) { !r.local && !r.unreachable }

  /** The route stands on a live candidate of its link, strictly closer than the route itself. */
  predicate Stands(p: Prefix, r: Route, routes: map<RouteKey, Candidate>) {
    var k := RouteKey(p, r.link);
    && k in routes
    && routes[k].id == r.routerId && routes[k].seqno == r.seqno
    && routes[k].advertised < r.metric && r.metric != INFINITY
  }

  predicate SelfFeasible(selected: map<Prefix, Route>, routes: map<RouteKey, Candidate>,
      sources: map<SourceKey, Source>) {
    forall p :: p in selected && Remote(selected[p]) ==>
      Stands(p, selected[p], routes) && Feasible(sources, p, routes[RouteKey(p, selected[p].link)])
  }

  lemma PositiveCost(st: State, k: RouteKey)
    requires MetricAt(st, k) != INFINITY
    ensures k in st.routes && st.routes[k].advertised < MetricAt(st, k)
  {
    hide Heard;
  }

  /** A source without history refuses nothing. */
  lemma UnknownFeasible(sources: map<SourceKey, Source>, p: Prefix, c: Candidate)
    requires SourceKey(p, c.id) !in sources
    ensures Feasible(sources, p, c)
  {
  }

  lemma LostSelected(st: State, next: map<Prefix, Route>, p: Prefix)
    requires Lost(st, next, p)
    ensures p in st.selected
  {
  }

  lemma AdvertiseKeepsFeasible(st: State, em: Emission, id: LinkId, p: Prefix, explicit: bool)
    requires SelfFeasible(st.selected, st.routes, em.sources)
    ensures SelfFeasible(st.selected, st.routes, Advertise(st, em, id, p, explicit).sources)
  {
    hide Queue, ScheduleTrigger, Gated, Announcement;
    var y := Advertise(st, em, id, p, explicit);
    forall q | q in st.selected && Remote(st.selected[q])
      ensures Feasible(y.sources, q, st.routes[RouteKey(q, st.selected[q].link)])
    {
      KeepsOne(st, em, id, p, explicit, q);
    }
  }

  lemma KeepsOne(st: State, em: Emission, id: LinkId, p: Prefix, explicit: bool, q: Prefix)
    requires q in st.selected && Remote(st.selected[q]) && Stands(q, st.selected[q], st.routes)
    requires Feasible(em.sources, q, st.routes[RouteKey(q, st.selected[q].link)])
    ensures Feasible(Advertise(st, em, id, p, explicit).sources, q, st.routes[RouteKey(q, st.selected[q].link)])
  {
    hide Queue, ScheduleTrigger, Gated, Announcement, Newer;
  }

  lemma {:induction false} AdvertiseAllKeepsFeasible(st: State, em: Emission, id: LinkId, ps: seq<Prefix>,
      explicit: bool)
    requires SelfFeasible(st.selected, st.routes, em.sources)
    ensures SelfFeasible(st.selected, st.routes, AdvertiseAll(st, em, id, ps, explicit).sources)
  {
    hide Advertise, SelfFeasible;
    if ps != [] {
      var n := |ps| - 1;
      AdvertiseAllKeepsFeasible(st, em, id, ps[..n], explicit);
      AdvertiseKeepsFeasible(st, AdvertiseAll(st, em, id, ps[..n], explicit), id, ps[n], explicit);
    }
  }

  lemma {:induction false} AnswerKeepsFeasible(st: State, em: Emission, sks: seq<SourceKey>)
    requires SelfFeasible(st.selected, st.routes, em.sources)
    ensures SelfFeasible(st.selected, st.routes, Answer(st, em, sks).sources)
  {
    hide Advertise, SelfFeasible, Settled;
    if sks != [] {
      var n := |sks| - 1;
      var sk := sks[n];
      AnswerKeepsFeasible(st, em, sks[..n]);
      if sk in st.requests {
        AdvertiseKeepsFeasible(st, Answer(st, em, sks[..n]), st.requests[sk].from, sk.prefix, true);
      }
    }
  }

  lemma ChoiceFeasible(st: State)
    ensures SelfFeasible(Choice(st), st.routes, st.em.sources)
  {
    hide Metric, Feasible, Preferred;
    var next := Choice(st);
    forall p | p in next && Remote(next[p])
      ensures Stands(p, next[p], st.routes) && Feasible(st.em.sources, p, st.routes[RouteKey(p, next[p].link)])
    {
      var k := RouteKey(p, next[p].link);
      assert Usable(st, k);
      PositiveCost(st, k);
    }
  }

  /** Suppressions are no routes: they need no support. */
  lemma DropsFeasible(next: map<Prefix, Route>, drops: map<Prefix, int>, routes: map<RouteKey, Candidate>,
      sources: map<SourceKey, Source>)
    requires SelfFeasible(next, routes, sources)
    ensures SelfFeasible(WithDrops(next, drops), routes, sources)
  {
    hide Feasible, Stands;
  }

  lemma SelectRoutesFeasible(st: State)
    ensures var y := SelectRoutes(st); SelfFeasible(y.selected, y.routes, y.em.sources)
  {
    hide Choice, LoseAll, LiveDrops, WithDrops, Announce, Answer, Unsettled, SelfFeasible;
    var next := Choice(st);
    var x := Adopt(st, next);
    ChoiceFeasible(st);
    AdoptFrame(st, next);
    DropsFeasible(next, x.drops, st.routes, st.em.sources);
    AnswerKeepsFeasible(x, x.em, SortSourceKeys(x.requests.Keys));
  }

  lemma {:induction false} DumpAllKeepsFeasible(st: State, em: Emission, ids: seq<LinkId>)
    requires SelfFeasible(st.selected, st.routes, em.sources)
    ensures SelfFeasible(st.selected, st.routes, DumpAll(st, em, ids).sources)
  {
    hide AdvertiseAll, SelfFeasible;
    if ids != [] {
      var n := |ids| - 1;
      DumpAllKeepsFeasible(st, em, ids[..n]);
      AdvertiseAllKeepsFeasible(st, DumpAll(st, em, ids[..n]), ids[n], SortPrefixes(st.selected.Keys), false);
    }
  }

  // Timers change links, output and schedules; of the candidates only the refresh mark.

  lemma HelloTimerFrame(st: State, id: LinkId)
    ensures var y := HelloTimer(st, id);
            y == st.(links := y.links, em := y.em) && y.links.Keys == st.links.Keys && y.em.sources == st.em.sources
  {
    hide Jitter, NextRandom, Queue, Centis, HelloInterval, BoundedLink, BoundedConfig;
  }

  lemma IHUTimerFrame(st: State, id: LinkId)
    ensures var y := IHUTimer(st, id);
            y == st.(links := y.links, em := y.em) && y.links.Keys == st.links.Keys && y.em.sources == st.em.sources
  {
    hide Jitter, NextRandom, Queue, Centis, HelloInterval, Heard, BoundedLink, BoundedConfig;
  }

  lemma UpdateTimerFrame(st: State, id: LinkId)
    ensures var y := UpdateTimer(st, id);
            y == st.(links := y.links, em := y.em) && y.links.Keys == st.links.Keys
    ensures UpdateTimer(st, id).em.sources == st.em.sources
        || UpdateTimer(st, id).em.sources == Dump(st, st.em, id, false).sources
  {
    hide Jitter, NextRandom, Dump;
  }

  lemma TriggerTimerFrame(st: State)
    ensures var y := TriggerTimer(st); y == st.(em := y.em)
  {
    hide DumpAll, Rearm, SortLinks, TriggerDue;
  }

  lemma RequestTimerFrame(st: State)
    ensures var y := RequestTimer(st); y == st.(requests := y.requests, em := y.em)
  {
    hide ResendOut, ResentRequests, SortSourceKeys;
  }

  lemma RefreshTimerFrame(st: State)
    ensures var y := RefreshTimer(st); y == st.(routes := y.routes, em := y.em)
  {
    hide RefreshOut, RefreshedRoutes, SortRouteKeys;
  }

  lemma LinkTimersFrame(st: State, id: LinkId)
    ensures var y := LinkTimers(st, id); y == st.(links := y.links, em := y.em) && y.links.Keys == st.links.Keys
  {
    hide HelloTimer, IHUTimer, UpdateTimer;
    var x := HelloTimer(st, id);
    HelloTimerFrame(st, id);
    IHUTimerFrame(x, id);
    UpdateTimerFrame(IHUTimer(x, id), id);
  }

  lemma {:induction false} AllLinkTimersFrame(st: State, ids: seq<LinkId>)
    ensures var y := AllLinkTimers(st, ids); y == st.(links := y.links, em := y.em) && y.links.Keys == st.links.Keys
  {
    hide LinkTimers;
    if ids != [] {
      AllLinkTimersFrame(st, ids[..|ids| - 1]);
      LinkTimersFrame(AllLinkTimers(st, ids[..|ids| - 1]), ids[|ids| - 1]);
    }
  }

  lemma LinkTimersKeepFeasible(st: State, id: LinkId)
    requires SelfFeasible(st.selected, st.routes, st.em.sources)
    ensures SelfFeasible(st.selected, st.routes, LinkTimers(st, id).em.sources)
  {
    hide AdvertiseAll, SelfFeasible, HelloTimer, IHUTimer, UpdateTimer;
    HelloTimerFrame(st, id);
    IHUTimerFrame(HelloTimer(st, id), id);
    var x := IHUTimer(HelloTimer(st, id), id);
    UpdateTimerFrame(x, id);
    AdvertiseAllKeepsFeasible(x, x.em, id, SortPrefixes(x.selected.Keys), false);
  }

  lemma {:induction false} AllLinkTimersKeepFeasible(st: State, ids: seq<LinkId>)
    requires SelfFeasible(st.selected, st.routes, st.em.sources)
    ensures SelfFeasible(st.selected, st.routes, AllLinkTimers(st, ids).em.sources)
  {
    hide LinkTimers, SelfFeasible;
    if ids != [] {
      var n := |ids| - 1;
      AllLinkTimersKeepFeasible(st, ids[..n]);
      AllLinkTimersFrame(st, ids[..n]);
      LinkTimersKeepFeasible(AllLinkTimers(st, ids[..n]), ids[n]);
    }
  }

  lemma RefreshKeepsFeasible(st: State)
    requires SelfFeasible(st.selected, st.routes, st.em.sources)
    ensures var y := RefreshTimer(st); SelfFeasible(y.selected, y.routes, y.em.sources)
  {
    hide RefreshOut, RefreshDue, Better;
    var y := RefreshTimer(st);
    assert y.selected == st.selected && y.em.sources == st.em.sources;
    forall p | p in y.selected && Remote(y.selected[p])
      ensures Stands(p, y.selected[p], y.routes) && Feasible(y.em.sources, p, y.routes[RouteKey(p, y.selected[p].link)])
    {
      assert Stands(p, st.selected[p], st.routes);
    }
  }

  lemma TimersKeepFeasible(st: State)
    requires SelfFeasible(st.selected, st.routes, st.em.sources)
    ensures var y := Timers(st); SelfFeasible(y.selected, y.routes, y.em.sources)
  {
    hide AllLinkTimers, DumpAll, ResendOut, RefreshTimer, SelfFeasible, Rearm, ResendDue;
    var a := AllLinkTimers(st, SortLinks(st.links.Keys));
    AllLinkTimersFrame(st, SortLinks(st.links.Keys));
    AllLinkTimersKeepFeasible(st, SortLinks(st.links.Keys));
    DumpAllKeepsFeasible(a, a.em, SortLinks(a.links.Keys));
    var b := TriggerTimer(a);
    var c := RequestTimer(b);
    assert c.selected == a.selected && c.routes == a.routes && c.em.sources == b.em.sources;
    RefreshKeepsFeasible(c);
  }

  /**
   At the end of every step each selected remote route stands on a candidate of its link
   that is feasible against the history all advertisements of the step have left behind.
   */
  lemma StepSelfFeasible(st: State, now: int, event: Event)
    requires Refusal(st, now, event).None?
    ensures var y := Step(st, now, event).0; SelfFeasible(y.selected, y.routes, y.em.sources)
  {
    hide SelectRoutes, Timers, Apply, Expire, SelfFeasible, Snapshot, Packets, RoutablePrefix, BoundedLink, ValidPrefix;
    var x := Apply(Expire(st.(now := now)), event);
    SelectRoutesFeasible(x);
    TimersKeepFeasible(SelectRoutes(x));
  }
}
