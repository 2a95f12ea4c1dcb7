/**
 The engine object of engine.go: its tables are fields that the methods update in
 place, in the order of the original.  Each method is proved to take the view of the
 engine from the old state to the one the transition functions prescribe.  Loops over
 a map pick its keys in an arbitrary order, as the original's do.
 */
module Engine {
  import opened Arithmetic
  import opened Types
  import opened Sorting
  import Rules
  import Steps
  import Soundness
  import Invariant
  import Recovery
  import opened Loops

  class Engine {
    var cfg: LiveConfig
    var now: int
    var seqno: u16
    var rng: bv64
    var lastLink: LinkId
    var links: map<LinkId, LinkState>
    var routes: map<RouteKey, Candidate>
    var sources: map<SourceKey, Source>
    var local: map<Prefix, u16>
    var selected: map<Prefix, Route>
    var drops: map<Prefix, int>
    var requests: map<SourceKey, Pending>
    var out: map<LinkId, seq<Message>>
    var revision: nat
    var pending: nat
    var held: seq<Datagram>
    var stopped: bool
    var triggerAt: int
    var trigger: bool
    var repeats: int

    // The engine as a value.
    ghost var view: State

    ghost predicate Valid()
      reads this
    {
      view == State(cfg, now, seqno, lastLink, links, routes, local, selected, drops, requests,
                    Emission(sources, out, Trigger(trigger, triggerAt, repeats, rng)), revision, pending, held, stopped)
    }

    constructor (c: LiveConfig)
      ensures Valid() && view == Steps.Fresh(c)
    {
      cfg, now, seqno, rng, lastLink := c, 0, c.initialSeqno, c.seed, 0;
      links, routes, sources, local, selected, drops, requests, out := map[], map[], map[], map[], map[], map[],
          map[], map[];
      revision, pending, held, stopped := 0, 0, [], false;
      triggerAt, trigger, repeats := 0, false, 0;
      view := Steps.Fresh(c);
    }

    // ---------------------------------------------------------------- readers

    function Cost(id: LinkId): (c: u16)
      requires Valid()
      reads this
      ensures c == Rules.Cost(view, id)
    {
      if id in links then Rules.LinkCost(links[id], now) else INFINITY
    }

    function Metric(k: RouteKey): (m: u16)
      requires Valid() && k in routes
      reads this
      ensures m == Rules.MetricAt(view, k)
    {
      var r := routes[k];
      if !Rules.Accepts(cfg, r.id, k.prefix, r.seqno) then INFINITY else Sum(r.advertised, Cost(k.link))
    }

    predicate Feasible(k: RouteKey)
      requires Valid() && k in routes
      reads this
      ensures Feasible(k) == Rules.Feasible(view.em.sources, k.prefix, view.routes[k])
    {
      Rules.Feasible(sources, k.prefix, routes[k])
    }

    // ------------------------------------------------------ trigger and queues

    method Jitter(maximum: int) returns (d: int)
      requires 0 <= maximum && Valid()
      modifies this
      ensures Valid() && view == Steps.Shuffle(old(view)) && d == Rules.Jitter(view.em.trigger.rng, maximum)
    {
      hide Rules.NextRandom;
      rng := Rules.NextRandom(rng);
      d := Rules.Jitter(rng, maximum);
      view := Steps.Shuffle(view);
    }

    method PutTrigger(on: bool)
      requires Valid()
      modifies this
      ensures Valid() && view == old(view).(em := old(view).em.(trigger := old(view).em.trigger.(on := on)))
    {
      trigger := on;
      view := view.(em := view.em.(trigger := view.em.trigger.(on := on)));
    }

    method PutTriggerAt(at: int)
      requires Valid()
      modifies this
      ensures Valid() && view == old(view).(em := old(view).em.(trigger := old(view).em.trigger.(at := at)))
    {
      triggerAt := at;
      view := view.(em := view.em.(trigger := view.em.trigger.(at := at)));
    }

    method PutRepeats(n: int)
      requires Valid()
      modifies this
      ensures Valid() && view == old(view).(em := old(view).em.(trigger := old(view).em.trigger.(repeats := n)))
    {
      repeats := n;
      view := view.(em := view.em.(trigger := view.em.trigger.(repeats := n)));
    }

    method Arm()
      requires Valid() && !view.em.trigger.on
      modifies this
      ensures Valid() && view == Armed(old(view), false)
    {
      hide Rules.NextRandom, Rules.Jitter;
      var at := now;
      assert at == view.now;
      hide Valid;
      PutTrigger(true);
      var j := Jitter(50 * MILLISECOND);
      PutTriggerAt(at + j);
    }

    method ScheduleTrigger(repeat: bool)
      requires Valid()
      modifies this
      ensures Valid() && view == Armed(old(view), repeat)
    {
      ArmedBy(view);
      var armed := trigger;
      assert armed == view.em.trigger.on;
      hide Valid, Rules.ScheduleTrigger, Armed;
      if !armed {
        Arm();
      }
      if repeat {
        PutRepeats(2);
      }
    }

    method Queue(id: LinkId, m: Message)
      requires Valid()
      modifies this
      ensures Valid() && view == Steps.Send(old(view), id, m)
    {
      if id in links {
        out := out[id := (if id in out then out[id] else []) + [m]];
      }
      view := Steps.Send(view, id, m);
    }

    method QueueAll(ids: seq<LinkId>, m: Message)
      requires Valid()
      modifies this
      ensures Valid() && view == SentAll(old(view), ids, m)
    {
      hide Valid, Rules.Queue, Rules.QueueAll;
      ghost var st := view;
      SentSteps(st, ids, m);
      for i := 0 to |ids|
        invariant Valid() && view == SentAll(st, ids[..i], m)
      {
        SentStep(st, ids, i, m);
        Queue(ids[i], m);
      }
    }

    // -------------------------------------------------------------- advertise

    method Record(sk: SourceKey, seqno: u16, metric: u16)
      requires Valid()
      modifies this
      ensures Valid() && view == Recorded(old(view), sk, Distance(seqno, metric))
    {
      var s := if sk in sources then sources[sk] else Source(seqno, metric, 0);
      if Newer(seqno, s.seqno) || (seqno == s.seqno && metric < s.metric) {
        s := s.(seqno := seqno, metric := metric);
      }
      s := s.(expires := now + cfg.sourceGC);
      assert s == Rules.Lowered(sources, sk, Distance(seqno, metric), now + cfg.sourceGC);
      hide Rules.Lowered;
      PutSources(sources[sk := s]);
    }

    /** The end of an advertisement: record the distance, then queue the message. */
    method AdvertiseRoute(id: LinkId, p: Prefix, r: Route)
      requires Valid() && id in links
      modifies this
      ensures Valid() && view == old(view).(em := Rules.AdvertiseRoute(old(view), old(view).em, id, p, r))
    {
      hide Rules.Queue, Rules.Lowered, Rules.Announcement;
      var l := links[id].link;
      var hop, via6 := NoAddr, false;
      if p.family == IPv4 {
        if IsValid(l.ipv4) {
          hop := l.ipv4;
        } else if cfg.ipv4ViaIPv6 {
          via6 := true;
        } else {
          return;
        }
      }
      var sk := SourceKey(p, r.routerId);
      if sk !in sources && |sources| >= cfg.maxSources { return; }
      AnnouncementOf(cfg, links[id], p, r, hop, via6);
      hide Valid;
      var m := Update(p, r.routerId, r.seqno, r.metric, Centis(cfg.updateInterval), hop, via6);
      Record(sk, r.seqno, r.metric);
      Queue(id, m);
    }

    method Advertise(id: LinkId, p: Prefix, explicit: bool)
      requires Valid()
      modifies this
      ensures Valid() && view == old(view).(em := Rules.Advertise(old(view), old(view).em, id, p, explicit))
    {
      hide Rules.ScheduleTrigger, Rules.Queue, Rules.AdvertiseRoute;
      if id !in links { return; }
      if p !in selected || selected[p].unreachable {
        Queue(id, Update(p, 0, 0, INFINITY, Centis(cfg.updateInterval), NoAddr, false));
        return;
      }
      var r := selected[p];
      if r.local && cfg.hooks.advertiseLocalRoute.Some?
          && !cfg.hooks.advertiseLocalRoute.value(r.routerId, p, r.seqno) {
        ScheduleTrigger(true);
        return;
      }
      if !explicit && r.link == id { return; }
      AdvertiseRoute(id, p, r);
    }

    method Dump(id: LinkId, explicit: bool)
      requires Valid()
      modifies this
      ensures Valid() && view == old(view).(em := Rules.Dump(old(view), old(view).em, id, explicit))
    {
      hide Rules.Advertise, Rules.AdvertiseAll, SortPrefixes, PrefixLess;
      ghost var st := view;
      var ps := SortPrefixes(selected.Keys);
      DumpSteps(st, id, ps, explicit);
      assert ps == SortPrefixes(st.selected.Keys);
      hide Valid;
      for i := 0 to |ps|
        invariant Valid() && view == st.(em := Rules.AdvertiseAll(st, st.em, id, ps[..i], explicit))
      {
        DumpStep(st, id, ps, i, explicit);
        Advertise(id, ps[i], explicit);
      }
    }

    // --------------------------------------------------------- seqno requests

    method PutPending(sk: SourceKey, q: Pending)
      requires Valid()
      modifies this
      ensures Valid() && view == old(view).(requests := old(view).requests[sk := q])
    {
      requests := requests[sk := q];
      view := view.(requests := view.requests[sk := q]);
    }

    method Request(sk: SourceKey, seqno: u16, targets: seq<LinkId>, from: LinkId, hops: u8)
      requires Valid()
      modifies this
      ensures Valid() && view == Rules.Ask(old(view), sk, seqno, Elements(targets), from, hops)
    {
      hide Rules.QueueAll, SortLinks, AtLeast;
      if sk in requests && AtLeast(requests[sk].seqno, seqno) { return; }
      if sk !in requests && |requests| >= cfg.maxRequests { return; }
      var ids := SortLinks(Elements(targets));
      var q := Pending(seqno, hops, ids, from, now + SECOND, now + 4 * SECOND, 2);
      hide Valid;
      QueueAll(ids, SeqRequest(sk.prefix, sk.id, seqno, hops));
      PutPending(sk, q);
    }

    // -------------------------------------------------------------- selection

    method ChooseLocal() returns (next: map<Prefix, Route>)
      requires Valid()
      ensures next == map p | p in view.local :: Rules.LocalRoute(view, p)
    {
      next := map[];
      var todo := local.Keys;
      while todo != {}
        invariant todo <= local.Keys
        invariant next == map p | p in local.Keys - todo :: Rules.LocalRoute(view, p)
      {
        var p :| p in todo;
        todo := todo - {p};
        next := next[p := Route(p, cfg.routerId, seqno, local[p], 0, NoAddr, true, false)];
      }
    }

    /** One turn of the selection loop. */
    method Consider(next: map<Prefix, Route>, k: RouteKey) returns (better: map<Prefix, Route>)
      requires Valid() && k in routes
      ensures k in view.routes && better == if k.prefix in view.local then next else Turn(view, next, k)
    {
      hide Rules.MetricAt, Rules.Feasible;
      better := next;
      if k.prefix in local { return; }
      var metric := Metric(k);
      if metric == INFINITY || !Feasible(k) { return; }
      var r := routes[k];
      var previous := if k.prefix in selected then selected[k.prefix].link else 0;
      if k.prefix !in next || metric < next[k.prefix].metric
          || (metric == next[k.prefix].metric && k.link == previous) {
        better := next[k.prefix := Route(k.prefix, r.id, r.seqno, metric, k.link, r.hop, false, false)];
      }
    }

    /** The single pass over the sorted candidates chooses what the specification asks for. */
    method Choose() returns (next: map<Prefix, Route>)
      requires Valid()
      ensures next == Rules.Choice(view)
    {
      hide ChosenAmong, Turn, Rules.Choice, Rules.LocalRoute, SortRouteKeys, RouteKeyLess;
      next := ChooseLocal();
      ChosenLocals(view, next);
      var keys := SortRouteKeys(routes.Keys);
      assert Elements(keys[..0]) == {};
      for i := 0 to |keys|
        invariant ChosenAmong(view, Elements(keys[..i]), next)
      {
        assert keys[i] in keys;
        ChooseStep(view, keys, i, next);
        next := Consider(next, keys[i]);
      }
      assert keys[..|keys|] == keys;
      ChosenAll(view, Elements(keys), next);
    }

    method LossTargets(p: Prefix) returns (targets: seq<LinkId>)
      requires Valid()
      ensures Elements(targets) == Rules.LossTargets(view, p)
    {
      hide Rules.LinkCost, RouteKeyLess, SortRouteKeys, Targeted;
      var keys := SortRouteKeys(routes.Keys);
      targets := [];
      TargetsNone(view, p, keys);
      for i := 0 to |keys|
        invariant Elements(targets) == TargetsAmong(view, p, Elements(keys[..i]))
      {
        var k := keys[i];
        assert k in keys;
        TargetsStep(view, p, keys, i, targets);
        if IsTarget(p, k) {
          targets := targets + [k.link];
        }
      }
      TargetsAll(view, p, keys);
    }

    predicate IsTarget(p: Prefix, k: RouteKey)
      requires Valid() && k in routes
      reads this
      ensures IsTarget(p, k) == Targeted(view, p, k)
    {
      k.prefix == p && routes[k].advertised != INFINITY && Cost(k.link) != INFINITY
    }

    method SuppressPrefix(p: Prefix)
      requires Valid()
      modifies this
      ensures Valid() && view == Rules.Suppress(old(view), p)
    {
      hide Rules.ScheduleTrigger;
      PutDrops(drops[p := now + Hold(cfg.updateInterval)]);
      ScheduleTrigger(true);
    }

    method LoseRoute(next: map<Prefix, Route>, p: Prefix)
      requires Valid()
      modifies this
      ensures Valid() && view == Rules.Lose(old(view), next, p)
    {
      hide Rules.Ask, Rules.LossTargets, Rules.Suppress;
      if p in next || p !in selected || selected[p].unreachable { return; }
      ghost var st := view;
      SuppressPrefix(p);
      SuppressedTargets(st, p);
      var sk := SourceKey(p, selected[p].routerId);
      if sk in sources {
        var targets := LossTargets(p);
        Nonempty(targets);
        if |targets| > 0 {
          Request(sk, NextSeqno(sources[sk].seqno), targets, 0, 64);
        }
      }
    }

    method LoseRoutes(next: map<Prefix, Route>)
      requires Valid()
      modifies this
      ensures Valid() && view == Rules.LoseAll(old(view), next, SortPrefixes(old(view).selected.Keys))
    {
      hide Rules.Lose, Rules.LoseAll, SortPrefixes, PrefixLess;
      ghost var st := view;
      var ps := SortPrefixes(selected.Keys);
      LoseSteps(st, next, ps);
      assert ps == SortPrefixes(st.selected.Keys);
      hide Valid;
      for i := 0 to |ps|
        invariant Valid() && view == Rules.LoseAll(st, next, ps[..i])
      {
        LoseStep(st, next, ps, i);
        LoseRoute(next, ps[i]);
      }
    }

    method PutDrops(d: map<Prefix, int>)
      requires Valid()
      modifies this
      ensures Valid() && view == old(view).(drops := d)
    {
      drops := d;
      view := view.(drops := d);
    }

    /** Drop the suppressions that a route replaced or that ran out; the others become unreachable routes. */
    method SweepDrops(chosen: map<Prefix, Route>) returns (next: map<Prefix, Route>, left: map<Prefix, int>)
      requires Valid()
      ensures left == Rules.LiveDrops(view, chosen) && next == Rules.WithDrops(chosen, left)
    {
      hide Rules.DropRoute;
      next, left := chosen, drops;
      var todo := drops.Keys;
      SweepNone(drops, now, chosen);
      while todo != {}
        invariant todo <= drops.Keys
        invariant left == Swept(drops, now, chosen, todo)
        invariant next == chosen + SweptRoutes(drops, now, chosen, todo)
      {
        var p :| p in todo;
        SweepStep(drops, now, chosen, todo, p);
        todo := todo - {p};
        if p in next {
          left := left - {p};
        } else if left[p] > now {
          next := next[p := Rules.DropRoute(p)];
        } else {
          left := left - {p};
        }
      }
      assert left == Rules.LiveDrops(view, chosen);
    }

    method AnnounceChanges(was: map<Prefix, Route>, next: map<Prefix, Route>)
      requires Valid()
      modifies this
      ensures Valid() && view == Announced(old(view), was, next, next.Keys)
    {
      hide Rules.ScheduleTrigger, Announced, Valid;
      ghost var st := view;
      var todo := next.Keys;
      AnnounceNone(st, was, next);
      while todo != {}
        invariant todo <= next.Keys
        invariant Valid() && view == Announced(st, was, next, next.Keys - todo)
      {
        var p :| p in todo;
        AnnounceStep(st, was, next, next.Keys - todo, p);
        assert next.Keys - (todo - {p}) == next.Keys - todo + {p};
        todo := todo - {p};
        var r := next[p];
        if p !in was || was[p].routerId != r.routerId || was[p].unreachable != r.unreachable {
          ScheduleTrigger(true);
        } else if was[p].metric != r.metric || was[p].seqno != r.seqno {
          ScheduleTrigger(false);
        }
      }
      assert next.Keys - todo == next.Keys;
    }

    method ForgetRequest(sk: SourceKey)
      requires Valid()
      modifies this
      ensures Valid() && view == old(view).(requests := old(view).requests - {sk})
    {
      requests := requests - {sk};
      view := view.(requests := view.requests - {sk});
    }

    /** A settled request is answered and forgotten. */
    method AnswerRequest(sk: SourceKey)
      requires Valid() && sk in view.requests
      modifies this
      ensures Valid() && view == AnswerOne(old(view), sk)
    {
      hide Rules.Advertise, AtLeast;
      var q := requests[sk];
      SettledBy(view.selected, sk, q);
      if sk.prefix in selected && !selected[sk.prefix].unreachable
        && (selected[sk.prefix].routerId != sk.id || AtLeast(selected[sk.prefix].seqno, q.seqno))
      {
        hide Valid, Rules.Settled;
        if q.from != 0 {
          Advertise(q.from, sk.prefix, true);
        }
        ForgetRequest(sk);
      }
    }

    method AnswerRequests()
      requires Valid()
      modifies this
      ensures Valid() && view == Rules.AnswerRequests(old(view))
    {
      hide Rules.Advertise, Rules.Answer, Rules.Settled, StillPending, SortSourceKeys, SourceKeyLess, AnswerOne;
      ghost var st := view;
      var sks := SortSourceKeys(requests.Keys);
      assert sks == SortSourceKeys(st.requests.Keys);
      AnswerSteps(st, sks);
      hide Valid;
      for i := 0 to |sks|
        invariant Valid() && view == AnsweredSome(st, sks[..i])
      {
        AnswerStep(st, sks, i);
        AnswerRequest(sks[i]);
      }
    }

    method Install(next: map<Prefix, Route>)
      requires Valid()
      modifies this
      ensures Valid() && view == old(view).(selected := next)
    {
      selected := next;
      view := view.(selected := next);
    }

    method SelectRoutes()
      requires Valid()
      modifies this
      ensures Valid() && view == Rules.SelectRoutes(old(view))
    {
      ghost var st := view;
      var was := selected;
      assert was == st.selected;
      hide Valid, Rules.Choice, Rules.LoseAll, Rules.LiveDrops, Rules.WithDrops, Rules.Announce;
      hide Rules.AnswerRequests, SortPrefixes;
      var chosen := Choose();
      LoseRoutes(chosen);
      Soundness.LoseAllFrame(st, chosen, SortPrefixes(st.selected.Keys));
      var next, left := SweepDrops(chosen);
      PutDrops(left);
      Install(next);
      AnnounceChanges(was, next);
      assert view == Rules.Adopt(st, chosen);
      AnswerRequests();
    }

    // ---------------------------------------------------------------- updates

    method PutRoutes(r: map<RouteKey, Candidate>)
      requires Valid()
      modifies this
      ensures Valid() && view == old(view).(routes := r)
    {
      routes := r;
      view := view.(routes := r);
    }

    method RetractLink(id: LinkId)
      requires Valid()
      modifies this
      ensures Valid() && view == Steps.RetractLink(old(view), id)
    {
      ghost var was := routes;
      var todo, r := routes.Keys, routes;
      while todo != {}
        invariant todo <= was.Keys
        invariant r == map k | k in was ::
            if k !in todo && k.link == id then was[k].(advertised := INFINITY) else was[k]
      {
        var k :| k in todo;
        todo := todo - {k};
        if k.link == id {
          r := r[k := r[k].(advertised := INFINITY)];
        }
      }
      assert r == Steps.RetractedRoutes(was, id);
      PutRoutes(r);
    }

    method Learn(id: LinkId, m: Message)
      requires Valid() && m.Update?
      modifies this
      ensures Valid() && view == Steps.Learn(old(view), id, m)
    {
      hide Rules.ScheduleTrigger;
      var k := RouteKey(m.prefix, id);
      var interval := m.interval * CENTISECOND;
      var c := Candidate(m.routerId, m.seqno, m.metric, m.address, now + Hold(interval), interval, false);
      assert c == Steps.NewCandidate(view, m);
      hide Steps.NewCandidate;
      if k in routes && routes[k].id != 0 && routes[k].id != m.routerId {
        ScheduleTrigger(true);
      }
      PutRoutes(routes[k := c]);
    }

    method AcceptUpdate(id: LinkId, m: Message)
      requires Valid() && m.Update?
      modifies this
      ensures Valid() && view == Steps.AcceptUpdate(old(view), id, m)
    {
      hide Steps.Learn, Rules.Ask, Rules.MetricAt, Rules.LinkCost;
      ghost var st := view;
      var k := RouteKey(m.prefix, id);
      var sk := SourceKey(m.prefix, m.routerId);
      Learn(id, m);
      LearnedRoute(st, id, m);
      if !Feasible(k) {
        if k.prefix !in selected || selected[k.prefix].unreachable || selected[k.prefix].link == id
          || Metric(k) < selected[k.prefix].metric
        {
          assert Elements([id]) == {id};
          Request(sk, NextSeqno(sources[sk].seqno), [id], 0, 64);
        }
      }
    }

    method ReceiveFinite(id: LinkId, m: Message)
      requires Valid() && id in view.links && FiniteUpdate(m)
      modifies this
      ensures Valid() && view == Steps.ReceiveUpdate(old(view), id, m)
    {
      hide Steps.AcceptUpdate, RoutablePrefix, Rules.Accepts;
      if !RoutablePrefix(m.prefix) { return; }
      if !Rules.Accepts(cfg, m.routerId, m.prefix, m.seqno) { return; }
      if m.routerId == cfg.routerId { return; }
      if m.v4ViaV6 && !cfg.ipv4ViaIPv6 { return; }
      if Is6(m.address) && m.address != links[id].link.peer { return; }
      if SourceKey(m.prefix, m.routerId) !in sources && |sources| >= cfg.maxSources { return; }
      if RouteKey(m.prefix, id) !in routes && |routes| + |local| + |drops| >= cfg.maxRoutes { return; }
      AcceptUpdate(id, m);
    }

    method ReceiveUpdate(id: LinkId, m: Message)
      requires Valid() && id in view.links && m.Update?
      modifies this
      ensures Valid() && view == Steps.ReceiveUpdate(old(view), id, m)
    {
      hide Steps.AcceptUpdate, Steps.Admissible, Steps.HasRoom;
      if m.metric == INFINITY {
        var k := RouteKey(m.prefix, id);
        if k in routes {
          PutRoutes(routes[k := routes[k].(advertised := INFINITY)]);
        }
      } else {
        ReceiveFinite(id, m);
      }
    }

    // ----------------------------------------------------- requests of others

    /** The neighbour to forward a sequence-number request to. */
    method BestRelay(p: Prefix, from: LinkId) returns (best: Option<RouteKey>)
      requires Valid()
      ensures best.Some? ==> Steps.IsBestRelay(view, p, from, best.value)
      ensures best.None? ==> forall k :: !Steps.Relay(view, p, from, k)
    {
      hide Rules.MetricAt, Rules.Feasible, SortRouteKeys, RouteKeyLess;
      var keys := SortRouteKeys(routes.Keys);
      best := None;
      for i := 0 to |keys|
        invariant RelayAmong(view, p, from, Elements(keys[..i]), best)
      {
        var k := keys[i];
        assert k in keys;
        RelayStep(view, p, from, keys, i, best);
        if k.prefix == p && k.link != from && Metric(k) != INFINITY {
          if best.None? {
            best := Some(k);
          } else {
            var f, g := Feasible(k), Feasible(best.value);
            if (f && !g) || (f == g && Metric(k) < Metric(best.value)) {
              best := Some(k);
            }
          }
        }
      }
      assert keys[..|keys|] == keys;
      RelayAll(view, p, from, keys, best);
    }

    /** Whether any finite source history names the prefix. */
    method HasAdvertised(p: Prefix) returns (found: bool)
      requires Valid()
      ensures found == Steps.Advertised(view, p)
    {
      var todo := sources.Keys;
      found := false;
      while todo != {}
        invariant todo <= sources.Keys
        invariant !found
        invariant forall sk :: sk in sources && sk !in todo ==> sk.prefix != p
      {
        var sk :| sk in todo;
        todo := todo - {sk};
        if sk.prefix == p {
          found := true;
          assert sk in view.em.sources;
          return;
        }
      }
    }

    method Forward(from: LinkId, m: Message)
      requires Valid() && m.SeqRequest?
      modifies this
      ensures Valid() && view == Steps.Forward(old(view), from, m)
    {
      hide Steps.Advertised, Rules.Ask, Steps.IsBestRelay;
      if m.routerId == cfg.routerId || m.hopCount < 2 { return; }
      var advertised := HasAdvertised(m.prefix);
      if !advertised { return; }
      var best := BestRelay(m.prefix, from);
      ForwardTo(view, from, m, best);
      hide Valid;
      if best.Some? {
        assert Elements([best.value.link]) == {best.value.link};
        Request(SourceKey(m.prefix, m.routerId), m.seqno, [best.value.link], from, m.hopCount - 1);
      }
    }

    /** The own sequence number advances by one, and the new one is answered with. */
    method Renew(from: LinkId, p: Prefix)
      requires Valid()
      modifies this
      ensures Valid() && view == Steps.Renew(old(view), from, p)
    {
      hide Rules.SelectRoutes, Rules.Advertise;
      seqno := NextSeqno(seqno);
      view := view.(seqno := NextSeqno(view.seqno));
      hide Valid;
      SelectRoutes();
      Advertise(from, p, true);
    }

    method ReceiveSeqRequest(from: LinkId, m: Message)
      requires Valid() && m.SeqRequest?
      modifies this
      ensures Valid() && view == Steps.ReceiveSeqRequest(old(view), from, m)
    {
      hide Steps.Renew, Steps.Forward, Rules.Advertise, AtLeast;
      if m.prefix in selected && !selected[m.prefix].unreachable {
        var r := selected[m.prefix];
        if r.routerId != m.routerId || AtLeast(r.seqno, m.seqno) {
          Advertise(from, m.prefix, true);
          return;
        }
        if r.local {
          Renew(from, m.prefix);
          return;
        }
      }
      Forward(from, m);
    }

    // --------------------------------------------------------------- messages

    method PutLink(id: LinkId, l: LinkState)
      requires Valid()
      modifies this
      ensures Valid() && view == Steps.Tuned(old(view), id, l)
    {
      links := links[id := l];
      view := Steps.Tuned(view, id, l);
    }

    method ReceiveWildcardRequest(id: LinkId)
      requires Valid() && id in view.links
      modifies this
      ensures Valid() && view == Steps.ReceiveWildcardRequest(old(view), id)
    {
      hide Rules.Dump, Rules.HelloInterval;
      var l := links[id];
      var at := now;
      if !l.dumped || now - l.lastDump >= Rules.HelloInterval(cfg, l) {
        Dump(id, true);
        PutLink(id, l.(lastDump := at, dumped := true));
      }
    }

    method ReceiveMessage(id: LinkId, m: Message)
      requires Valid() && id in view.links
      modifies this
      ensures Valid() && view == Steps.ReceiveMessage(old(view), id, m)
    {
      hide Steps.ReceiveUpdate, Steps.RetractLink, Rules.Advertise, Steps.ReceiveWildcardRequest;
      hide Steps.ReceiveSeqRequest, Steps.HearHello, Rules.Queue;
      var l, at := links[id], now;
      match m {
        case Hello(unicast, seqno, interval) =>
          if unicast {
            PutLink(id, l.(unicast := Steps.HearHello(l.unicast, at, seqno, interval)));
          } else {
            PutLink(id, l.(multicast := Steps.HearHello(l.multicast, at, seqno, interval)));
          }
        case IHU(address, metric, interval) =>
          if !IsValid(address) || address == l.link.local || address == l.link.ipv4 {
            PutLink(id, l.(tx := metric, ihuExpires := at + Hold(interval * CENTISECOND)));
          }
        case AckRequest(tag) => Queue(id, Ack(tag));
        case Ack(_) =>
        case Update(_, _, _, _, _, _, _) => ReceiveUpdate(id, m);
        case WildcardUpdate => RetractLink(id);
        case RouteRequest(p) => Advertise(id, p, true);
        case WildcardRequest => ReceiveWildcardRequest(id);
        case SeqRequest(_, _, _, _) => ReceiveSeqRequest(id, m);
      }
    }

    method ReceiveOne(id: LinkId, m: Message)
      requires Valid()
      modifies this
      ensures Valid() && view == Steps.ReceiveOne(old(view), id, m)
    {
      hide Rules.SelectRoutes, Steps.ReceiveMessage;
      if m.RouteRequest? || m.WildcardRequest? || m.SeqRequest? {
        SelectRoutes();
      }
      if id in links {
        ReceiveMessage(id, m);
      }
    }

    method ReceivePacket(id: LinkId, packet: Packet)
      requires Valid()
      modifies this
      ensures Valid() && view == Steps.ReceivePacket(old(view), id, packet)
    {
      hide Steps.ReceiveOne, Steps.ReceiveAll;
      if id !in links { return; }
      if packet.size > links[id].link.maxPacket { return; }
      if packet.decoded.None? { return; }
      ghost var st := view;
      var ms := packet.decoded.value;
      ReceiveSteps(st, id, ms);
      hide Valid;
      for i := 0 to |ms|
        invariant Valid() && view == Steps.ReceiveAll(st, id, ms[..i])
      {
        ReceiveStep(st, id, ms, i);
        ReceiveOne(id, ms[i]);
      }
    }

    // ----------------------------------------------------------------- events

    method PutLastLink(id: LinkId)
      requires Valid()
      modifies this
      ensures Valid() && view == old(view).(lastLink := id)
    {
      lastLink := id;
      view := view.(lastLink := id);
    }

    method AddLink(link: LiveLink)
      requires Valid()
      modifies this
      ensures Valid() && view == Steps.EventAddLink(old(view), link)
    {
      hide Rules.Queue;
      var l := Steps.NewLink(link, now);
      assert l == Steps.NewLink(link, view.now);
      hide Valid;
      PutLink(link.id, l);
      PutLastLink(link.id);
      Queue(link.id, WildcardRequest);
    }

    method ForgetLink(id: LinkId)
      requires Valid()
      modifies this
      ensures Valid() && view == old(view).(links := old(view).links - {id})
    {
      links := links - {id};
      view := view.(links := view.links - {id});
    }

    method RemoveLink(id: LinkId)
      requires Valid()
      modifies this
      ensures Valid() && view == Steps.EventRemoveLink(old(view), id)
    {
      hide Steps.ClosedRoutes;
      var closed := CloseRoutes(id);
      assert closed == Steps.ClosedRoutes(view.routes, id, view.now + Hold(view.cfg.updateInterval));
      ForgetLink(id);
      PutOut(out - {id});
      PutRoutes(closed);
    }

    method CloseRoutes(id: LinkId) returns (r: map<RouteKey, Candidate>)
      ensures r == Steps.ClosedRoutes(routes, id, now + Hold(cfg.updateInterval))
    {
      var until := now + Hold(cfg.updateInterval);
      r := routes;
      var todo := routes.Keys;
      while todo != {}
        invariant todo <= routes.Keys
        invariant r == map k | k in routes ::
          if k !in todo && k.link == id then routes[k].(advertised := INFINITY, expires := until) else routes[k]
      {
        var k :| k in todo;
        todo := todo - {k};
        if k.link == id {
          r := r[k := r[k].(advertised := INFINITY, expires := until)];
        }
      }
      assert r == Steps.ClosedRoutes(routes, id, until);
    }

    method SetCost(id: LinkId, cost: u16)
      requires Valid() && cost != 0
      modifies this
      ensures Valid() && view == Steps.EventSetCost(old(view), id, cost)
    {
      hide LinkLocal;
      if id in links {
        var l := links[id];
        PutLink(id, l.(link := l.link.(cost := cost)));
      }
    }

    method PutLocal(l: map<Prefix, u16>)
      requires Valid()
      modifies this
      ensures Valid() && view == old(view).(local := l)
    {
      local := l;
      view := view.(local := l);
    }

    method Originate(p: Prefix, metric: u16)
      requires Valid()
      modifies this
      ensures Valid() && view == old(view).(local := old(view).local[p := metric], drops := old(view).drops - {p})
    {
      PutLocal(local[p := metric]);
      PutDrops(drops - {p});
    }

    method Withdraw(p: Prefix)
      requires Valid()
      modifies this
      ensures Valid() && view == old(view).(local := old(view).local - {p})
    {
      PutLocal(local - {p});
    }

    method Apply(event: Event)
      requires Valid()
      requires event.AddLink? ==> BoundedLink(event.link)
      requires event.SetCost? ==> event.cost != 0
      modifies this
      ensures Valid() && view == Steps.Apply(old(view), event)
    {
      hide Valid, BoundedLink, Steps.EventAddLink, Steps.EventRemoveLink, Steps.EventSetCost, Steps.ReceivePacket;
      match event {
        case Tick =>
        case AddLink(l) => AddLink(l);
        case RemoveLink(id) => RemoveLink(id);
        case SetCost(id, cost) => SetCost(id, cost);
        case Receive(id, packet) => ReceivePacket(id, packet);
        case Originate(p, metric) => Originate(p, metric);
        case Withdraw(p) => Withdraw(p);
      }
    }

    function Validate(event: Event): (error: Option<Error>)
      requires Valid()
      reads this
      ensures error == Steps.Validate(view, event)
    {
      match event
      case Tick => None
      case AddLink(l) =>
        if l.id == 0 || l.id <= lastLink || !BoundedLink(l) then Some(ErrConfig)
        else if |links| >= cfg.maxLinks then Some(ErrLimit)
        else None
      case RemoveLink(_) => None
      case SetCost(_, cost) => if cost == 0 then Some(ErrConfig) else None
      case Receive(_, _) => None
      case Originate(p, metric) =>
        if !RoutablePrefix(p) || metric == INFINITY then Some(ErrConfig)
        else if p !in local && |local| + |routes| + |drops| >= cfg.maxRoutes then Some(ErrLimit)
        else if SourceKey(p, cfg.routerId) !in sources && |sources| >= cfg.maxSources then Some(ErrLimit)
        else None
      case Withdraw(p) => if !ValidPrefix(p) then Some(ErrConfig) else None
    }

    // ----------------------------------------------------------------- expiry

    method ExpireRoutes() returns (r: map<RouteKey, Candidate>)
      ensures r == Steps.AgedRoutes(routes, now)
    {
      hide Steps.Dead, Steps.Aged;
      r := routes;
      var todo := routes.Keys;
      AgeNone(routes, now);
      while todo != {}
        invariant todo <= routes.Keys
        invariant r == AgedBut(routes, now, todo)
      {
        var k :| k in todo;
        AgeStep(routes, now, todo, k);
        todo := todo - {k};
        var c := routes[k];
        if c.expires <= now {
          if c.advertised == INFINITY {
            r := r - {k};
          } else {
            r := r[k := c.(advertised := INFINITY, expires := now + Hold(c.interval))];
          }
        }
      }
    }

    method ExpireSources() returns (s: map<SourceKey, Source>)
      ensures s == Steps.LiveSources(sources, now)
    {
      s := sources;
      var todo := sources.Keys;
      while todo != {}
        invariant todo <= sources.Keys
        invariant s == map sk | sk in sources && (sk in todo || sources[sk].expires > now) :: sources[sk]
      {
        var sk :| sk in todo;
        todo := todo - {sk};
        if sources[sk].expires <= now {
          s := s - {sk};
        }
      }
    }

    method ExpireRequests() returns (q: map<SourceKey, Pending>)
      ensures q == Steps.LiveRequests(requests, now)
    {
      q := requests;
      var todo := requests.Keys;
      while todo != {}
        invariant todo <= requests.Keys
        invariant q == map sk | sk in requests && (sk in todo || requests[sk].expires > now) :: requests[sk]
      {
        var sk :| sk in todo;
        todo := todo - {sk};
        if requests[sk].expires <= now {
          q := q - {sk};
        }
      }
    }

    method PutSources(s: map<SourceKey, Source>)
      requires Valid()
      modifies this
      ensures Valid() && view == old(view).(em := old(view).em.(sources := s))
    {
      sources := s;
      view := view.(em := view.em.(sources := s));
    }

    method PutRequests(q: map<SourceKey, Pending>)
      requires Valid()
      modifies this
      ensures Valid() && view == old(view).(requests := q)
    {
      requests := q;
      view := view.(requests := q);
    }

    method Expire()
      requires Valid()
      modifies this
      ensures Valid() && view == Steps.Expire(old(view))
    {
      hide Steps.AgedRoutes, Steps.LiveSources, Steps.LiveRequests;
      var r := ExpireRoutes();
      var s := ExpireSources();
      var q := ExpireRequests();
      assert r == Steps.AgedRoutes(view.routes, view.now);
      assert s == Steps.LiveSources(view.em.sources, view.now) && q == Steps.LiveRequests(view.requests, view.now);
      hide Valid;
      PutRoutes(r);
      PutSources(s);
      PutRequests(q);
    }

    // ----------------------------------------------------------------- timers

    method HelloTimer(id: LinkId)
      requires Valid() && id in view.links
      modifies this
      ensures Valid() && view == Steps.HelloTimer(old(view), id)
    {
      hide Rules.HelloInterval, Rules.Jitter, Steps.Shuffle, Steps.Send, Centis;
      var l, at := links[id], now;
      if l.nextHello <= now {
        var d := Rules.HelloInterval(cfg, l);
        assert d == Rules.HelloInterval(view.cfg, view.links[id]);
        NudgeFrame(view, id, Hello(false, l.helloSeq, Centis(d)));
        hide Valid;
        Queue(id, Hello(false, l.helloSeq, Centis(d)));
        var j := Jitter(d / 8);
        PutLink(id, l.(helloSeq := NextSeqno(l.helloSeq), nextHello := at + d - j));
      }
    }

    method IHUTimer(id: LinkId)
      requires Valid() && id in view.links
      modifies this
      ensures Valid() && view == Steps.IHUTimer(old(view), id)
    {
      hide Rules.HelloInterval, Rules.Jitter, Steps.Shuffle, Steps.Send, Centis;
      var l, at := links[id], now;
      if l.nextIHU <= now {
        var d := Rules.HelloInterval(cfg, l);
        var rx := l.link.cost;
        if l.multicast.expires <= now && l.unicast.expires <= now {
          rx := INFINITY;
        }
        assert d == Rules.HelloInterval(view.cfg, view.links[id]);
        NudgeFrame(view, id, IHU(NoAddr, rx, Centis(d * 2)));
        hide Valid;
        Queue(id, IHU(NoAddr, rx, Centis(d * 2)));
        var j := Jitter(d / 8);
        PutLink(id, l.(nextIHU := at + d * 2 - j));
      }
    }

    method UpdateTimer(id: LinkId)
      requires Valid() && id in view.links
      modifies this
      ensures Valid() && view == Steps.UpdateTimer(old(view), id)
    {
      hide Rules.Jitter, Rules.Dump, Rules.NextRandom;
      var l, at, d := links[id], now, cfg.updateInterval;
      if l.nextUpdate <= now {
        assert l == view.links[id] && at == view.now && d == view.cfg.updateInterval;
        hide Valid;
        Dump(id, false);
        var j := Jitter(d / 8);
        PutLink(id, l.(nextUpdate := at + d - j));
      }
    }

    method AllLinkTimers()
      requires Valid()
      modifies this
      ensures Valid() && view == Steps.AllLinkTimers(old(view), SortLinks(old(view).links.Keys))
    {
      hide Steps.HelloTimer, Steps.IHUTimer, Steps.UpdateTimer, SortLinks, Steps.AllLinkTimers;
      ghost var st := view;
      var ids := SortLinks(links.Keys);
      assert ids == SortLinks(st.links.Keys);
      LinkTimersNone(st, ids);
      hide Valid;
      for i := 0 to |ids|
        invariant Valid() && view == Steps.AllLinkTimers(st, ids[..i])
      {
        LinkTimersStep(st, ids, i);
        HelloTimer(ids[i]);
        IHUTimer(ids[i]);
        UpdateTimer(ids[i]);
      }
    }

    method DumpAll()
      requires Valid()
      modifies this
      ensures Valid()
      ensures view == old(view).(em := Steps.DumpAll(old(view), old(view).em, SortLinks(old(view).links.Keys)))
    {
      hide Rules.Dump, SortLinks, Steps.DumpAll;
      ghost var st := view;
      var ids := SortLinks(links.Keys);
      assert ids == SortLinks(st.links.Keys);
      DumpAllNone(st, ids);
      hide Valid;
      for i := 0 to |ids|
        invariant Valid() && view == st.(em := Steps.DumpAll(st, st.em, ids[..i]))
      {
        DumpAllStep(st, ids, i);
        Dump(ids[i], false);
      }
    }

    method Rearm()
      requires Valid() && view.em.trigger.on
      modifies this
      ensures Valid()
      ensures view == old(view).(em := old(view).em.(trigger := Steps.Rearm(old(view).em.trigger, old(view).now)))
    {
      hide Rules.NextRandom, Rules.Jitter;
      if repeats > 0 {
        var at, n := now, repeats;
        assert at == view.now && n == view.em.trigger.repeats;
        hide Valid;
        var j := Jitter(50 * MILLISECOND);
        PutRepeats(n - 1);
        PutTriggerAt(at + 100 * MILLISECOND + j);
      } else {
        PutTrigger(false);
      }
    }

    method TriggerTimer()
      requires Valid()
      modifies this
      ensures Valid() && view == Steps.TriggerTimer(old(view))
    {
      hide Steps.DumpAll, Steps.Rearm, SortLinks;
      if trigger && triggerAt <= now {
        Steady(view, SortLinks(view.links.Keys));
        hide Valid;
        DumpAll();
        Rearm();
      }
    }

    /** Send a pending request again when it is due. */
    method Resend(sk: SourceKey)
      requires Valid() && sk in view.requests
      modifies this
      ensures Valid() && view == ResendOne(old(view), sk)
    {
      hide Rules.QueueAll;
      var q, at := requests[sk], now;
      if q.remaining > 0 && q.next <= now {
        assert q == view.requests[sk] && at == view.now;
        hide Valid;
        QueueAll(q.targets, SeqRequest(sk.prefix, sk.id, q.seqno, q.hopCount));
        PutPending(sk, q.(remaining := q.remaining - 1, next := at + SECOND));
      }
    }

    method RequestTimer()
      requires Valid()
      modifies this
      ensures Valid() && view == Steps.RequestTimer(old(view))
    {
      hide SortSourceKeys, SourceKeyLess, ResendOne, ResentSome;
      ghost var st := view;
      var sks := SortSourceKeys(requests.Keys);
      assert sks == SortSourceKeys(st.requests.Keys);
      ResendNone(st, sks);
      hide Valid, Steps.ResendOut, Steps.ResentRequests, Steps.RequestTimer;
      for i := 0 to |sks|
        invariant Valid() && view == ResentSome(st, sks[..i])
      {
        ResendStep(st, sks, i);
        Resend(sks[i]);
      }
    }

    /** Ask for a selected candidate before it runs out. */
    method Refresh(k: RouteKey)
      requires Valid() && k in view.routes
      modifies this
      ensures Valid() && view == RefreshOne(old(view), k)
    {
      hide Rules.Queue;
      var r := routes[k];
      if k.prefix in selected && selected[k.prefix].link == k.link
        && !r.refreshRequested && r.advertised != INFINITY && r.expires - now <= r.interval
      {
        Queue(k.link, RouteRequest(k.prefix));
        PutRoutes(routes[k := r.(refreshRequested := true)]);
      }
    }

    method RefreshTimer()
      requires Valid()
      modifies this
      ensures Valid() && view == Steps.RefreshTimer(old(view))
    {
      hide SortRouteKeys, RouteKeyLess, RefreshOne, RefreshedSome;
      ghost var st := view;
      var ks := SortRouteKeys(routes.Keys);
      assert ks == SortRouteKeys(st.routes.Keys);
      RefreshNone(st, ks);
      hide Valid, Steps.RefreshOut, Steps.RefreshedRoutes, Steps.RefreshTimer;
      for i := 0 to |ks|
        invariant Valid() && view == RefreshedSome(st, ks[..i])
      {
        RefreshStep(st, ks, i);
        Refresh(ks[i]);
      }
    }

    method RunTimers()
      requires Valid()
      modifies this
      ensures Valid() && view == Steps.Timers(old(view))
    {
      hide Valid, Steps.AllLinkTimers, Steps.TriggerTimer, Steps.RequestTimer, Steps.RefreshTimer, SortLinks;
      AllLinkTimers();
      TriggerTimer();
      RequestTimer();
      RefreshTimer();
    }

    // ------------------------------------------------------------------- step

    method RouteSnapshot() returns (snapshot: seq<Route>)
      requires Valid()
      ensures snapshot == Steps.Snapshot(view.selected)
    {
      hide PrefixLess;
      var ps := SortPrefixes(selected.Keys);
      snapshot := [];
      for i := 0 to |ps|
        invariant |snapshot| == i
        invariant forall j :: 0 <= j < i ==> snapshot[j] == selected[ps[j]]
      {
        snapshot := snapshot + [selected[ps[i]]];
      }
      assert ps == SortPrefixes(view.selected.Keys);
    }

    /** The queued messages of every link, in order of the links. */
    method Collect() returns (packets: seq<Datagram>)
      requires Valid()
      ensures packets == Steps.Packets(view)
    {
      hide SortLinks, LinkLess, Steps.Collect;
      var ids := SortLinks(links.Keys);
      packets := [];
      CollectNone(out, ids);
      for i := 0 to |ids|
        invariant packets == Steps.Collect(out, ids[..i])
      {
        CollectStep(out, ids, i);
        if ids[i] in out && out[ids[i]] != [] {
          packets := packets + [Datagram(ids[i], out[ids[i]])];
        }
      }
    }

    method PutOut(o: map<LinkId, seq<Message>>)
      requires Valid()
      modifies this
      ensures Valid() && view == old(view).(em := old(view).em.(out := o))
    {
      out := o;
      view := view.(em := view.em.(out := o));
    }

    /** Collect the queued messages and empty the queues. */
    method Flush() returns (packets: seq<Datagram>)
      requires Valid()
      modifies this
      ensures Valid() && view == Steps.Flushed(old(view)) && packets == Steps.Packets(old(view))
    {
      hide Steps.Packets;
      packets := Collect();
      PutOut(out - links.Keys);
    }

    method AwaitCommit(p: nat)
      requires Valid()
      modifies this
      ensures Valid() && view == old(view).(pending := p)
    {
      pending := p;
      view := view.(pending := p);
    }

    method PutHeld(packets: seq<Datagram>)
      requires Valid()
      modifies this
      ensures Valid() && view == old(view).(held := packets)
    {
      held := packets;
      view := view.(held := packets);
    }

    method PutRevision(n: nat)
      requires Valid()
      modifies this
      ensures Valid() && view == old(view).(revision := n)
    {
      revision := n;
      view := view.(revision := n);
    }

    method Stop()
      requires Valid()
      modifies this
      ensures Valid() && view == old(view).(stopped := true)
    {
      stopped := true;
      view := view.(stopped := true);
    }

    method Withhold(packets: seq<Datagram>)
      requires Valid()
      modifies this
      ensures Valid() && view == Withheld(old(view), packets)
    {
      var next := revision + 1;
      assert next == view.revision + 1;
      hide Valid;
      PutRevision(next);
      AwaitCommit(next);
      PutHeld(packets);
    }

    method Advance(at: int)
      requires Valid()
      modifies this
      ensures Valid() && view == old(view).(now := at)
    {
      now := at;
      view := view.(now := at);
    }

    /** Expiry, event, selection and timers. */
    method Work(at: int, event: Event)
      requires Valid() && Steps.Validate(view, event).None?
      modifies this
      ensures Valid() && view == Steps.Work(old(view), at, event)
    {
      hide Valid, Steps.Expire, Steps.Apply, Rules.SelectRoutes, Steps.Timers, BoundedLink, RoutablePrefix, ValidPrefix;
      Advance(at);
      Expire();
      Apply(event);
      SelectRoutes();
      RunTimers();
    }

    /**
     Consume one event.  Forwarding changes withhold the packets until their revision is
     committed.  The invariant of the tables is kept.
     */
    method Step(at: int, event: Event) returns (r: Result<Effects>)
      requires Valid()
      modifies this
      ensures Valid() && (view, r) == Steps.Step(old(view), at, event)
      ensures Invariant.Valid(old(view)) && Decoded(event) ==> Invariant.Valid(view)
    {
      hide Steps.Work, Steps.Validate, Steps.Snapshot, Steps.Packets, Steps.Flushed, Invariant.Valid, Decoded;
      StepKeeps(view, at, event);
      if stopped { return Err(ErrStopped); }
      if pending != 0 { return Err(ErrPending); }
      if at < now { return Err(ErrTime); }
      if at > MAX_DURATION - 48 * HOUR { return Err(ErrTime); }
      var error := Validate(event);
      if error.Some? { return Err(error.value); }
      ghost var st := view;
      Accepted(st, at, event);
      hide Valid, Steps.Refusal;
      var was := RouteSnapshot();
      Work(at, event);
      var packets := Flush();
      var routes := RouteSnapshot();
      if was != routes {
        Withhold(packets);
        r := Ok(Effects(Revision(), routes, []));
      } else {
        r := Ok(Effects(0, [], packets));
      }
    }

    function Revision(): (n: nat)
      requires Valid()
      reads this
      ensures n == view.pending
    {
      pending
    }

    /** Release the withheld packets after the forwarding table was applied, or stop for good. */
    method Commit(revision: nat, success: bool) returns (r: Result<Effects>)
      requires Valid()
      modifies this
      ensures Valid() && (view, r) == Steps.Commit(old(view), revision, success)
      ensures Invariant.Valid(old(view)) ==> Invariant.Valid(view)
    {
      hide Invariant.Valid;
      CommitKeeps(view, revision, success);
      if stopped { return Err(ErrStopped); }
      if revision == 0 || revision != pending { return Err(ErrRevision); }
      AwaitCommit(0);
      if !success {
        Stop();
        PutHeld([]);
        return Err(ErrStopped);
      }
      var packets := held;
      PutHeld([]);
      r := Ok(Effects(0, [], packets));
    }

    // --------------------------------------------------------------- deadline

    method LinkDeadline() returns (best: Option<int>, ghost seen: set<int>)
      ensures Earliest(now, seen, best)
      ensures forall d :: d in seen <==> exists id :: id in links && d in Steps.LinkTimes(links[id])
    {
      hide Steps.LinkTimes;
      best, seen := None, {};
      var todo := links.Keys;
      while todo != {}
        invariant todo <= links.Keys
        invariant Earliest(now, seen, best)
        invariant forall d :: d in seen <==> exists id :: id in links && id !in todo && d in Steps.LinkTimes(links[id])
      {
        var id :| id in todo;
        todo := todo - {id};
        EarlierLink(now, seen, best, links[id]);
        best := EarlierOfLink(now, best, links[id]);
        seen := seen + Steps.LinkTimes(links[id]);
      }
    }

    method RouteDeadline(best0: Option<int>, ghost seen0: set<int>) returns (best: Option<int>, ghost seen: set<int>)
      requires Earliest(now, seen0, best0)
      ensures Earliest(now, seen, best)
      ensures forall d :: d in seen <==> d in seen0 || exists k :: k in routes && d in Steps.CandidateTimes(routes[k])
    {
      hide Steps.CandidateTimes;
      best, seen := best0, seen0;
      var todo := routes.Keys;
      while todo != {}
        invariant todo <= routes.Keys
        invariant Earliest(now, seen, best)
        invariant forall d :: d in seen <==>
          d in seen0 || exists k :: k in routes && k !in todo && d in Steps.CandidateTimes(routes[k])
      {
        var k :| k in todo;
        todo := todo - {k};
        EarlierRoute(now, seen, best, routes[k]);
        best := EarlierOfRoute(now, best, routes[k]);
        seen := seen + Steps.CandidateTimes(routes[k]);
      }
    }

    method SourceDeadline(best0: Option<int>, ghost seen0: set<int>) returns (best: Option<int>, ghost seen: set<int>)
      requires Earliest(now, seen0, best0)
      ensures Earliest(now, seen, best)
      ensures forall d :: d in seen <==> d in seen0 || exists sk :: sk in sources && d == sources[sk].expires
    {
      best, seen := best0, seen0;
      var todo := sources.Keys;
      while todo != {}
        invariant todo <= sources.Keys
        invariant Earliest(now, seen, best)
        invariant forall d :: d in seen <==>
            d in seen0 || exists sk :: sk in sources && sk !in todo && d == sources[sk].expires
      {
        var sk :| sk in todo;
        todo := todo - {sk};
        best := Earlier(now, best, sources[sk].expires);
        seen := seen + {sources[sk].expires};
      }
    }

    method DropDeadline(best0: Option<int>, ghost seen0: set<int>) returns (best: Option<int>, ghost seen: set<int>)
      requires Earliest(now, seen0, best0)
      ensures Earliest(now, seen, best)
      ensures forall d :: d in seen <==> d in seen0 || exists p :: p in drops && d == drops[p]
    {
      best, seen := best0, seen0;
      var todo := drops.Keys;
      while todo != {}
        invariant todo <= drops.Keys
        invariant Earliest(now, seen, best)
        invariant forall d :: d in seen <==> d in seen0 || exists p :: p in drops && p !in todo && d == drops[p]
      {
        var p :| p in todo;
        todo := todo - {p};
        best := Earlier(now, best, drops[p]);
        seen := seen + {drops[p]};
      }
    }

    method RequestDeadline(best0: Option<int>, ghost seen0: set<int>) returns (best: Option<int>, ghost seen: set<int>)
      requires Earliest(now, seen0, best0)
      ensures Earliest(now, seen, best)
      ensures forall d :: d in seen <==>
          d in seen0 || exists sk :: sk in requests && d in Steps.PendingTimes(requests[sk])
    {
      hide Steps.PendingTimes;
      best, seen := best0, seen0;
      var todo := requests.Keys;
      while todo != {}
        invariant todo <= requests.Keys
        invariant Earliest(now, seen, best)
        invariant forall d :: d in seen <==>
          d in seen0 || exists sk :: sk in requests && sk !in todo && d in Steps.PendingTimes(requests[sk])
      {
        var sk :| sk in todo;
        todo := todo - {sk};
        EarlierRequest(now, seen, best, requests[sk]);
        best := EarlierOfRequest(now, best, requests[sk]);
        seen := seen + Steps.PendingTimes(requests[sk]);
      }
    }

    /** The earliest timer still ahead, whatever the order the tables are walked in. */
    method NextDeadline() returns (deadline: Option<int>)
      requires Valid()
      ensures Steps.IsNextDeadline(view, deadline)
    {
      hide Steps.LinkTimes, Steps.CandidateTimes, Steps.PendingTimes;
      if stopped || pending != 0 { return None; }
      var best, seen := LinkDeadline();
      best, seen := RouteDeadline(best, seen);
      best, seen := SourceDeadline(best, seen);
      best, seen := DropDeadline(best, seen);
      best, seen := RequestDeadline(best, seen);
      if trigger {
        if triggerAt <= now { return Some(now); }
        best := Earlier(now, best, triggerAt);
        seen := seen + {triggerAt};
      }
      AllTimers(view, seen);
      EarliestDeadline(view, seen, best);
      deadline := best;
    }

    // ------------------------------------------------------------- construction

    static method FillDefaults(c: Config) returns (d: Config)
      ensures d == Steps.Defaulted(c)
    {
      var hello, update, gc, seed := c.helloInterval, c.updateInterval, c.sourceGC, c.seed;
      var links, routes, sources, requests := c.maxLinks, c.maxRoutes, c.maxSources, c.maxRequests;
      if hello == 0 { hello := 4 * SECOND; }
      if update == 0 { update := 16 * SECOND; }
      if gc == 0 { gc := 3 * MINUTE; }
      if links == 0 { links := 64; }
      if routes == 0 { routes := 8192; }
      if sources == 0 { sources := 16384; }
      if requests == 0 { requests := 1024; }
      if seed == 0 { seed := c.routerId as bv64; }
      d := c.(helloInterval := hello, updateInterval := update, sourceGC := gc, maxLinks := links, maxRoutes := routes,
              maxSources := sources, maxRequests := requests, seed := seed);
    }

    static method New(c: Config) returns (e: Engine?, error: Option<Error>)
      ensures error.None? ==>
          e != null && fresh(e) && e.Valid() && Steps.New(c) == Ok(e.view) && Invariant.Valid(e.view)
      ensures error.Some? ==> e == null && Steps.New(c) == Err(error.value)
    {
      hide Invariant.Valid;
      if c.routerId == 0 || c.routerId == ALL_ONES { return null, Some(ErrConfig); }
      var d := FillDefaults(c);
      if !InRange(d.helloInterval) || !InRange(d.updateInterval) { return null, Some(ErrConfig); }
      if d.sourceGC < 3 * MINUTE || d.sourceGC < Hold(d.updateInterval) || d.sourceGC > 24 * HOUR {
        return null, Some(ErrConfig);
      }
      if d.helloInterval > 32767 * CENTISECOND { return null, Some(ErrConfig); }
      if d.maxLinks < 1 || d.maxRoutes < 1 || d.maxSources < 1 || d.maxRequests < 1 { return null, Some(ErrConfig); }
      e := new Engine(d);
      Invariant.FreshValid(d);
      error := None;
    }

    // --------------------------------------------------------------- checkpoint

    method LongestDrop() returns (hold: int)
      requires Valid()
      ensures Steps.IsDropHold(view, hold)
    {
      hold := Hold(cfg.updateInterval);
      var todo := drops.Keys;
      while todo != {}
        invariant todo <= drops.Keys
        invariant hold >= Hold(cfg.updateInterval)
        invariant forall p :: p in drops && p !in todo ==> drops[p] - now <= hold
        invariant hold == Hold(cfg.updateInterval) || exists p :: p in drops && drops[p] - now == hold
      {
        var p :| p in todo;
        todo := todo - {p};
        hold := Max(hold, drops[p] - now);
      }
    }

    /** The safety history: it survives a crash when persisted before the packets are sent. */
    method Checkpoint() returns (c: Types.Checkpoint)
      requires Valid()
      ensures Steps.IsCheckpoint(view, c)
      ensures Invariant.Valid(view) ==> Steps.Restore(view.cfg, c).Ok?
    {
      hide Invariant.Valid, Steps.Restore;
      hide SortSourceKeys, SourceKeyLess, SortPrefixes, PrefixLess, Steps.IsDropHold;
      var hold := LongestDrop();
      var sks := SortSourceKeys(sources.Keys);
      var history: seq<SourceHistory> := [];
      for i := 0 to |sks|
        invariant |history| == i
        invariant forall j :: 0 <= j < i ==>
          history[j] == SourceHistory(sks[j].prefix, sks[j].id, sources[sks[j]].seqno, sources[sks[j]].metric)
      {
        var s := sources[sks[i]];
        history := history + [SourceHistory(sks[i].prefix, sks[i].id, s.seqno, s.metric)];
      }
      assert sks == SortSourceKeys(view.em.sources.Keys);
      c := Types.Checkpoint.Checkpoint(1, cfg.routerId, seqno, lastLink, cfg.sourceGC, hold, history,
                                 SortPrefixes(drops.Keys + selected.Keys));
      if Invariant.Valid(view) {
        Recovery.RestoreSucceeds(view, c);
      }
    }

    /** Fill the history of a checkpoint into a fresh engine, refusing entries no checkpoint holds. */
    method RestoreSources(saved: seq<SourceHistory>) returns (ok: bool)
      requires Valid() && view.em.sources == map[]
      modifies this
      ensures Valid() && ok == Steps.RestorableHistory(saved)
      ensures ok ==>
          view == old(view).(em := old(view).em.(sources := Steps.RestoredSources(saved, old(view).cfg.sourceGC)))
    {
      hide ValidPrefix;
      var restored: map<SourceKey, Source> := map[];
      var gc := cfg.sourceGC;
      assert gc == view.cfg.sourceGC && saved[..|saved|] == saved;
      for i := 0 to |saved|
        invariant Valid() && view == old(view)
        invariant Steps.RestorableHistory(saved[..i])
        invariant restored == Steps.RestoredSources(saved[..i], gc)
      {
        var h := saved[i];
        RestoredStep(saved, i, gc);
        if !ValidPrefix(h.prefix) || h.routerId == 0 || h.routerId == ALL_ONES || h.metric == INFINITY { return false; }
        if SourceKey(h.prefix, h.routerId) in restored { return false; }
        restored := restored[SourceKey(h.prefix, h.routerId) := Source(h.seqno, h.metric, gc)];
      }
      PutSources(restored);
      ok := true;
    }

    method RestoreDrops(saved: seq<Prefix>, until: int) returns (ok: bool)
      requires Valid() && view.drops == map[]
      modifies this
      ensures Valid() && ok == Steps.RestorableDrops(saved)
      ensures ok ==> view == old(view).(drops := map p | p in saved :: until)
    {
      hide ValidPrefix;
      var restored: map<Prefix, int> := map[];
      for i := 0 to |saved|
        invariant Valid() && view == old(view)
        invariant forall j :: 0 <= j < i ==> ValidPrefix(saved[j])
        invariant restored == map p | p in saved[..i] :: until
      {
        assert saved[i] in saved;
        if !ValidPrefix(saved[i]) { return false; }
        assert saved[..i + 1] == saved[..i] + [saved[i]];
        restored := restored[saved[i] := until];
      }
      assert saved[..|saved|] == saved;
      PutDrops(restored);
      ok := true;
    }

    /** Restart at elapsed time zero from a checkpoint. */
    static method Restore(c: Config, saved: Types.Checkpoint) returns (e: Engine?, error: Option<Error>)
      ensures error.None? ==>
          e != null && fresh(e) && e.Valid() && Steps.Restore(c, saved) == Ok(e.view) && Invariant.Valid(e.view)
      ensures error.Some? ==> e == null && Steps.Restore(c, saved) == Err(error.value)
    {
      hide Invariant.Valid;
      hide Steps.New, Steps.RestorableHistory, Steps.RestorableDrops, Steps.RestoredSources;
      if saved.version != 1 || c.routerId != saved.routerId { return null, Some(ErrConfig); }
      if saved.sourceHold < 3 * MINUTE || saved.sourceHold > 24 * HOUR || saved.dropHold <= 0
          || saved.dropHold > 24 * HOUR {
        return null, Some(ErrConfig);
      }
      var d := c.(sourceGC := Max(c.sourceGC, saved.sourceHold), initialSeqno := saved.seqno);
      e, error := New(d);
      if error.Some? { return null, error; }
      ghost var st := e.view;
      FreshTables(d, st);
      error := e.Refill(saved);
      if error.Some? { return null, error; }
      Recovery.RestoreValid(c, saved);
    }

    method Refill(saved: Types.Checkpoint) returns (error: Option<Error>)
      requires Valid() && view.em.sources == map[] && view.drops == map[]
      modifies this
      ensures Valid()
      ensures error.None? ==> Steps.Refilled(old(view), saved) == Ok(view)
      ensures error.Some? ==> Steps.Refilled(old(view), saved) == Err(error.value)
    {
      hide Steps.RestorableHistory, Steps.RestorableDrops, Steps.RestoredSources;
      if |saved.sources| > cfg.maxSources || |saved.drops| > cfg.maxRoutes { return Some(ErrLimit); }
      var until := Max(Hold(cfg.updateInterval), saved.dropHold);
      assert until == Max(Hold(view.cfg.updateInterval), saved.dropHold);
      PutLastLink(saved.lastLink);
      var ok := RestoreSources(saved.sources);
      if !ok { return Some(ErrConfig); }
      ok := RestoreDrops(saved.drops, until);
      if !ok { return Some(ErrConfig); }
      error := None;
    }
  }
}
