/**
 What the loops of Engine.dfy have done after part of their work, and why one more
 turn keeps it so.  The bodies of the loops meet the elements one at a time, often in
 an arbitrary order; the transition functions speak of all of them at once.
 */
module Loops {
  import opened Arithmetic
  import opened Types
  import opened Sorting
  import Rules
  import Steps
  import Progress
  import Selection
  import Invariant

  // The least of the deadlines after now that have been added so far.
  function Earlier(now: int, best: Option<int>, d: int): Option<int> {
    if d > now && (best.None? || d < best.value) then Some(d) else best
  }

  ghost predicate Earliest(now: int, seen: set<int>, best: Option<int>) {
    match best
    case None => forall d :: d in seen ==> d <= now
    case Some(t) => t in seen && t > now && forall d :: d in seen && d > now ==> t <= d
  }

  lemma EarlierEarliest(now: int, seen: set<int>, best: Option<int>, d: int)
    requires Earliest(now, seen, best)
    ensures Earliest(now, seen + {d}, Earlier(now, best, d))
  {
  }

  lemma AnnouncementOf(cfg: LiveConfig, l: LinkState, p: Prefix, r: Route, hop: Addr, via6: bool)
    requires hop == if p.family == IPv4 && IsValid(l.link.ipv4) then l.link.ipv4 else NoAddr
    requires via6 == (p.family == IPv4 && !IsValid(l.link.ipv4))
    ensures Rules.Announcement(cfg, l, p, r)
         == Update(p, r.routerId, r.seqno, r.metric, Centis(cfg.updateInterval), hop, via6)
  {
  }

  // ------------------------------------------------------ views of small changes

  function Armed(st: State, repeat: bool): State {
    st.(em := st.em.(trigger := Rules.ScheduleTrigger(st.em.trigger, st.now, repeat)))
  }

  lemma ArmedBy(st: State)
    ensures st.em.trigger.on ==> Armed(st, false) == st
    ensures var x := Armed(st, false); Armed(st, true) == x.(em := x.em.(trigger := x.em.trigger.(repeats := 2)))
  {
    hide Rules.NextRandom, Rules.Jitter;
  }

  function SentAll(st: State, ids: seq<LinkId>, m: Message): State {
    st.(em := st.em.(out := Rules.QueueAll(st.links, st.em.out, ids, m)))
  }

  function Recorded(st: State, sk: SourceKey, d: Distance): State {
    var s := Rules.Lowered(st.em.sources, sk, d, st.now + st.cfg.sourceGC);
    st.(em := st.em.(sources := st.em.sources[sk := s]))
  }

  lemma SentStep(st: State, ids: seq<LinkId>, i: nat, m: Message)
    requires i < |ids|
    ensures SentAll(st, ids[..i + 1], m) == Steps.Send(SentAll(st, ids[..i], m), ids[i], m)
  {
    hide Rules.Queue;
    assert ids[..i + 1][..i] == ids[..i];
  }

  lemma SentSteps(st: State, ids: seq<LinkId>, m: Message)
    ensures SentAll(st, ids[..0], m) == st && ids[..|ids|] == ids
  {
    hide Rules.Queue;
  }

  // ------------------------------------------------------------ the selection fold

  ghost predicate BestAmong(st: State, seen: set<RouteKey>, k: RouteKey) {
    && k in seen && Rules.Usable(st, k)
    && forall j :: j in seen && Rules.Usable(st, j) && j.prefix == k.prefix ==> Rules.Preferred(st, k, j)
  }

  /** The choice restricted to the candidates seen so far. */
  ghost predicate ChosenAmong(st: State, seen: set<RouteKey>, next: map<Prefix, Route>) {
    && (forall p :: p in next <==> p in st.local || exists k :: k in seen && Rules.Usable(st, k) && k.prefix == p)
    && (forall p :: p in next && p in st.local ==> next[p] == Rules.LocalRoute(st, p))
    && (forall p :: p in next && p !in st.local ==>
          var k := RouteKey(p, next[p].link); BestAmong(st, seen, k) && next[p] == Rules.RouteVia(st, k))
  }

  /** One turn of the loop. */
  function Turn(st: State, next: map<Prefix, Route>, k: RouteKey): map<Prefix, Route>
    requires k in st.routes
  {
    if !Rules.Usable(st, k) then next
    else
      var metric := Rules.MetricAt(st, k);
      if k.prefix !in next || metric < next[k.prefix].metric
        || (metric == next[k.prefix].metric && k.link == Rules.PreviousLink(st, k.prefix))
      then next[k.prefix := Rules.RouteVia(st, k)]
      else next
  }

  lemma ChosenLocals(st: State, next: map<Prefix, Route>)
    requires next == map p | p in st.local :: Rules.LocalRoute(st, p)
    ensures ChosenAmong(st, {}, next)
  {
  }

  lemma EarlierKeys(keys: seq<RouteKey>, i: nat)
    requires Sorted(keys, RouteKeyLess) && i < |keys|
    ensures forall j :: j in Elements(keys[..i]) && j.prefix == keys[i].prefix ==> j.link < keys[i].link
  {
    forall j | j in Elements(keys[..i]) && j.prefix == keys[i].prefix ensures j.link < keys[i].link {
      var n :| 0 <= n < i && keys[n] == j;
      assert RouteKeyLess(keys[n], keys[i]);
    }
  }

  lemma TurnBest(st: State, seen: set<RouteKey>, next: map<Prefix, Route>, k: RouteKey)
    requires ChosenAmong(st, seen, next) && Rules.Usable(st, k)
    requires forall j :: j in seen && j.prefix == k.prefix ==> j.link < k.link
    ensures var p := k.prefix; var t := Turn(st, next, k);
            p in t && var b := RouteKey(p, t[p].link); BestAmong(st, seen + {k}, b) && t[p] == Rules.RouteVia(st, b)
  {
    hide Rules.Metric, Rules.Feasible;
    var p := k.prefix;
    var t := Turn(st, next, k);
    var b := RouteKey(p, t[p].link);
    forall j | j in seen + {k} && Rules.Usable(st, j) && j.prefix == p ensures Rules.Preferred(st, b, j) {
      if j in seen {
        assert p in next;
        assert Rules.Preferred(st, RouteKey(p, next[p].link), j);
      }
    }
  }

  lemma TurnAmong(st: State, seen: set<RouteKey>, next: map<Prefix, Route>, k: RouteKey)
    requires ChosenAmong(st, seen, next) && k in st.routes
    requires forall j :: j in seen && j.prefix == k.prefix ==> j.link < k.link
    ensures ChosenAmong(st, seen + {k}, Turn(st, next, k))
  {
    hide Rules.Metric, Rules.Feasible, Rules.Preferred;
    var t := Turn(st, next, k);
    if Rules.Usable(st, k) {
      TurnBest(st, seen, next, k);
    }
    forall p | p in t && p !in st.local
      ensures var b := RouteKey(p, t[p].link); BestAmong(st, seen + {k}, b) && t[p] == Rules.RouteVia(st, b)
    {
      if p != k.prefix || !Rules.Usable(st, k) {
        assert BestAmong(st, seen, RouteKey(p, next[p].link));
      }
    }
  }

  lemma ChooseStep(st: State, keys: seq<RouteKey>, i: nat, next: map<Prefix, Route>)
    requires Sorted(keys, RouteKeyLess) && i < |keys| && keys[i] in st.routes
    requires ChosenAmong(st, Elements(keys[..i]), next)
    ensures ChosenAmong(st, Elements(keys[..i + 1]),
                        if keys[i].prefix in st.local then next else Turn(st, next, keys[i]))
  {
    hide ChosenAmong, Rules.Usable;
    EarlierKeys(keys, i);
    ElementsSnoc(keys, i);
    TurnAmong(st, Elements(keys[..i]), next, keys[i]);
    if keys[i].prefix in st.local {
      LocalTurn(st, next, keys[i]);
    }
  }

  lemma LocalTurn(st: State, next: map<Prefix, Route>, k: RouteKey)
    requires k in st.routes && k.prefix in st.local
    ensures Turn(st, next, k) == next
  {
    hide Rules.MetricAt, Rules.Feasible;
  }

  lemma ChosenAll(st: State, seen: set<RouteKey>, next: map<Prefix, Route>)
    requires seen == st.routes.Keys && ChosenAmong(st, seen, next)
    ensures next == Rules.Choice(st)
  {
    hide Rules.MetricAt, Rules.Feasible, Rules.Preferred, Rules.Choice;
    assert next.Keys == st.local.Keys + Rules.UsablePrefixes(st);
    Rules.ChoiceUnique(st, next);
  }

  // ------------------------------------------------- the other loops of selection

  predicate Targeted(st: State, p: Prefix, k: RouteKey) {
    k in st.routes && k.prefix == p && st.routes[k].advertised != INFINITY && Rules.Cost(st, k.link) != INFINITY
  }

  lemma SameTargets(x: State, y: State, p: Prefix)
    requires x.routes == y.routes && x.links == y.links && x.now == y.now
    ensures Rules.LossTargets(x, p) == Rules.LossTargets(y, p)
  {
    hide Rules.LinkCost;
    assert forall id :: Rules.Cost(x, id) == Rules.Cost(y, id);
  }

  lemma Nonempty<T>(s: seq<T>)
    ensures Elements(s) == {} <==> s == []
  {
    if s != [] {
      assert s[0] in Elements(s);
    }
  }

  /** The trigger after the changes of the prefixes ps have been met. */
  function Announced(st: State, was: map<Prefix, Route>, next: map<Prefix, Route>, ps: set<Prefix>): State {
    st.(em := st.em.(trigger := Rules.Announce(st.em.trigger, st.now, was, next, ps)))
  }

  lemma AnnounceNone(st: State, was: map<Prefix, Route>, next: map<Prefix, Route>)
    ensures Announced(st, was, next, next.Keys - next.Keys) == st
  {
    hide Rules.ScheduleTrigger;
  }

  lemma AnnounceOne(t: Trigger, now: int, was: map<Prefix, Route>, next: map<Prefix, Route>, done: set<Prefix>,
      p: Prefix)
    requires p in next
    ensures var x, y := Rules.Announce(t, now, was, next, done), Rules.Announce(t, now, was, next, done + {p});
            y == if Rules.OriginChanged(was, next, p) then Rules.ScheduleTrigger(x, now, true)
                 else if Rules.DistanceChanged(was, next, p) then Rules.ScheduleTrigger(x, now, false)
                 else x
  {
    hide Rules.NextRandom, Rules.Jitter;
    assert (exists q :: q in done + {p} && Rules.OriginChanged(was, next, q))
      <==> Rules.OriginChanged(was, next, p) || exists q :: q in done && Rules.OriginChanged(was, next, q);
    assert (exists q :: q in done + {p} && Rules.DistanceChanged(was, next, q))
      <==> Rules.DistanceChanged(was, next, p) || exists q :: q in done && Rules.DistanceChanged(was, next, q);
  }

  /** The trigger depends on which prefixes changed, not on the order they are met in. */
  lemma AnnounceStep(st: State, was: map<Prefix, Route>, next: map<Prefix, Route>, done: set<Prefix>, p: Prefix)
    requires p in next
    ensures var x, y := Announced(st, was, next, done), Announced(st, was, next, done + {p});
            y == if Rules.OriginChanged(was, next, p) then Armed(x, true)
                 else if Rules.DistanceChanged(was, next, p) then Armed(x, false)
                 else x
  {
    hide Rules.ScheduleTrigger, Rules.Announce, Rules.OriginChanged, Rules.DistanceChanged;
    AnnounceOne(st.em.trigger, st.now, was, next, done, p);
  }

  lemma DumpStep(st: State, id: LinkId, ps: seq<Prefix>, i: nat, explicit: bool)
    requires i < |ps|
    ensures var em := Rules.AdvertiseAll(st, st.em, id, ps[..i], explicit);
            Rules.AdvertiseAll(st, st.em, id, ps[..i + 1], explicit)
                == Rules.Advertise(st.(em := em), em, id, ps[i], explicit)
  {
    hide Rules.Advertise;
    assert ps[..i + 1][..i] == ps[..i];
    var em := Rules.AdvertiseAll(st, st.em, id, ps[..i], explicit);
    Progress.AdvertiseReads(st, st.(em := em), em, id, ps[i], explicit);
  }

  lemma DumpSteps(st: State, id: LinkId, ps: seq<Prefix>, explicit: bool)
    ensures Rules.AdvertiseAll(st, st.em, id, ps[..0], explicit) == st.em && ps[..|ps|] == ps
  {
  }

  lemma LoseStep(st: State, next: map<Prefix, Route>, ps: seq<Prefix>, i: nat)
    requires i < |ps|
    ensures Rules.LoseAll(st, next, ps[..i + 1]) == Rules.Lose(Rules.LoseAll(st, next, ps[..i]), next, ps[i])
  {
    hide Rules.Lose;
    assert ps[..i + 1][..i] == ps[..i];
  }

  lemma LoseSteps(st: State, next: map<Prefix, Route>, ps: seq<Prefix>)
    ensures Rules.LoseAll(st, next, ps[..0]) == st && ps[..|ps|] == ps
  {
    hide Rules.Lose;
  }

  lemma SuppressedTargets(st: State, p: Prefix)
    ensures Rules.LossTargets(Rules.Suppress(st, p), p) == Rules.LossTargets(st, p)
    ensures Rules.Suppress(st, p).em.sources == st.em.sources && Rules.Suppress(st, p).selected == st.selected
  {
    hide Rules.ScheduleTrigger, Rules.LossTargets;
    SameTargets(st, Rules.Suppress(st, p), p);
  }

  /** The suppressions left, and the routes made of them, when those of todo are still to be swept. */
  function Swept(was: map<Prefix, int>, now: int, chosen: map<Prefix, Route>, todo: set<Prefix>): map<Prefix, int> {
    map q | q in was && (q in todo || (q !in chosen && was[q] > now)) :: was[q]
  }

  function SweptRoutes(was: map<Prefix, int>, now: int, chosen: map<Prefix, Route>,
      todo: set<Prefix>): map<Prefix, Route> {
    map q | q in was && q !in todo && q !in chosen && was[q] > now :: Rules.DropRoute(q)
  }

  lemma SweepNone(was: map<Prefix, int>, now: int, chosen: map<Prefix, Route>)
    ensures Swept(was, now, chosen, was.Keys) == was
    ensures chosen + SweptRoutes(was, now, chosen, was.Keys) == chosen
    ensures chosen + SweptRoutes(was, now, chosen, {}) == Rules.WithDrops(chosen, Swept(was, now, chosen, {}))
  {
    hide Rules.DropRoute;
  }

  lemma SweepStep(was: map<Prefix, int>, now: int, chosen: map<Prefix, Route>, todo: set<Prefix>, p: Prefix)
    requires p in todo && todo <= was.Keys
    ensures var d, d1 := Swept(was, now, chosen, todo), Swept(was, now, chosen, todo - {p});
            var r := chosen + SweptRoutes(was, now, chosen, todo);
            var r1 := chosen + SweptRoutes(was, now, chosen, todo - {p});
            && p in d && d[p] == was[p] && (p in r <==> p in chosen)
            && d1 == (if p in chosen || was[p] <= now then d - {p} else d)
            && r1 == (if p in chosen || was[p] <= now then r else r[p := Rules.DropRoute(p)])
  {
    hide Rules.DropRoute;
  }

  /** The requests left once those of sks have been looked at. */
  function StillPending(st: State, sks: seq<SourceKey>): map<SourceKey, Pending> {
    map sk | sk in st.requests && !(sk in sks && Rules.Settled(st.selected, sk, st.requests[sk])) :: st.requests[sk]
  }

  lemma PendingStep(st: State, sks: seq<SourceKey>, i: nat)
    requires i < |sks| && sks[i] in st.requests && sks[i] !in sks[..i]
    ensures var x, y := StillPending(st, sks[..i]), StillPending(st, sks[..i + 1]);
            sks[i] in x && x[sks[i]] == st.requests[sks[i]]
            && y == if Rules.Settled(st.selected, sks[i], st.requests[sks[i]]) then x - {sks[i]} else x
  {
    hide Rules.Settled;
    assert sks[..i + 1] == sks[..i] + [sks[i]];
  }

  lemma PendingNone(st: State, sks: seq<SourceKey>)
    ensures StillPending(st, sks[..0]) == st.requests
  {
    hide Rules.Settled;
  }

  lemma PendingAll(st: State, sks: seq<SourceKey>)
    requires forall sk :: sk in st.requests ==> sk in sks
    ensures StillPending(st, sks) == Rules.Unsettled(st)
  {
    hide Rules.Settled;
  }

  /** One turn of the loop that answers settled requests. */
  function AnswerOne(st: State, sk: SourceKey): State
    requires sk in st.requests
  {
    var q := st.requests[sk];
    if !Rules.Settled(st.selected, sk, q) then st
    else st.(requests := st.requests - {sk},
             em := if q.from != 0 then Rules.Advertise(st, st.em, q.from, sk.prefix, true) else st.em)
  }

  lemma SettledBy(selected: map<Prefix, Route>, sk: SourceKey, q: Pending)
    ensures Rules.Settled(selected, sk, q) <==>
              sk.prefix in selected && !selected[sk.prefix].unreachable
              && (selected[sk.prefix].routerId != sk.id || AtLeast(selected[sk.prefix].seqno, q.seqno))
  {
  }

  lemma DistinctKey(sks: seq<SourceKey>, i: nat)
    requires Sorted(sks, SourceKeyLess) && i < |sks|
    ensures sks[i] !in sks[..i]
  {
  }

  function AnsweredSome(st: State, sks: seq<SourceKey>): State {
    st.(em := Rules.Answer(st, st.em, sks), requests := StillPending(st, sks))
  }

  lemma AnswerStep(st: State, sks: seq<SourceKey>, i: nat)
    requires sks == SortSourceKeys(st.requests.Keys) && i < |sks|
    ensures var x := AnsweredSome(st, sks[..i]);
            sks[i] in x.requests && AnsweredSome(st, sks[..i + 1]) == AnswerOne(x, sks[i])
  {
    hide Rules.Advertise, Rules.Settled, StillPending, SourceKeyLess, SortSourceKeys;
    var x := AnsweredSome(st, sks[..i]);
    var sk := sks[i];
    assert sks[..i + 1][..i] == sks[..i];
    assert sk in sks;
    DistinctKey(sks, i);
    PendingStep(st, sks, i);
    Progress.AdvertiseReads(x, st, x.em, st.requests[sk].from, sk.prefix, true);
  }

  lemma AnswerSteps(st: State, sks: seq<SourceKey>)
    requires sks == SortSourceKeys(st.requests.Keys)
    ensures AnsweredSome(st, sks[..0]) == st && sks[..|sks|] == sks
    ensures AnsweredSome(st, sks) == Rules.AnswerRequests(st)
  {
    PendingAll(st, sks);
    PendingNone(st, sks);
    hide Rules.Settled, Rules.Advertise, StillPending, SortSourceKeys, Rules.Unsettled;
  }

  // ------------------------------------------------------- the loops of receiving

  /** The links among seen that a lost prefix is asked for on. */
  function TargetsAmong(st: State, p: Prefix, seen: set<RouteKey>): set<LinkId> {
    set k | k in seen && Targeted(st, p, k) :: k.link
  }

  lemma TargetsNone(st: State, p: Prefix, keys: seq<RouteKey>)
    ensures TargetsAmong(st, p, Elements(keys[..0])) == Elements([])
  {
  }

  lemma TargetsStep(st: State, p: Prefix, keys: seq<RouteKey>, i: nat, targets: seq<LinkId>)
    requires i < |keys| && Elements(targets) == TargetsAmong(st, p, Elements(keys[..i]))
    ensures TargetsAmong(st, p, Elements(keys[..i + 1]))
         == if Targeted(st, p, keys[i]) then Elements(targets + [keys[i].link]) else Elements(targets)
  {
    hide Targeted;
    ElementsSnoc(keys, i);
    assert Elements(targets + [keys[i].link]) == Elements(targets) + {keys[i].link};
  }

  lemma TargetsAll(st: State, p: Prefix, keys: seq<RouteKey>)
    requires forall k :: k in keys <==> k in st.routes
    ensures TargetsAmong(st, p, Elements(keys[..|keys|])) == Rules.LossTargets(st, p)
  {
    hide Rules.Cost;
    assert keys[..|keys|] == keys;
    assert Elements(keys) == st.routes.Keys;
  }

  lemma LearnedRoute(st: State, id: LinkId, m: Message)
    requires m.Update?
    ensures var y := Steps.Learn(st, id, m); var k := RouteKey(m.prefix, id);
            k in y.routes && y.routes[k] == Steps.NewCandidate(st, m) && y.em.sources == st.em.sources
  {
    hide Rules.ScheduleTrigger, Steps.NewCandidate;
  }

  ghost predicate RelayAmong(st: State, p: Prefix, from: LinkId, seen: set<RouteKey>, best: Option<RouteKey>) {
    match best
    case None => forall j :: j in seen ==> !Steps.Relay(st, p, from, j)
    case Some(k) =>
      && k in seen && Steps.Relay(st, p, from, k)
      && forall j :: j in seen && Steps.Relay(st, p, from, j) ==> Steps.RelayPreferred(st, k, j)
  }

  /** One turn of the search for a relay. */
  function RelayTurn(st: State, p: Prefix, from: LinkId, k: RouteKey, best: Option<RouteKey>): Option<RouteKey> {
    if !Steps.Relay(st, p, from, k) then best
    else if best.None? then Some(k)
    else
      var f, g := Steps.FeasibleAt(st, k), Steps.FeasibleAt(st, best.value);
      if (f && !g) || (f == g && Rules.MetricAt(st, k) < Rules.MetricAt(st, best.value)) then Some(k) else best
  }

  lemma RelayStep(st: State, p: Prefix, from: LinkId, keys: seq<RouteKey>, i: nat, best: Option<RouteKey>)
    requires Sorted(keys, RouteKeyLess) && i < |keys|
    requires RelayAmong(st, p, from, Elements(keys[..i]), best)
    ensures RelayAmong(st, p, from, Elements(keys[..i + 1]), RelayTurn(st, p, from, keys[i], best))
  {
    hide Rules.MetricAt, Steps.FeasibleAt;
    EarlierKeys(keys, i);
    ElementsSnoc(keys, i);
  }

  lemma RelayAll(st: State, p: Prefix, from: LinkId, keys: seq<RouteKey>, best: Option<RouteKey>)
    requires forall k :: k in keys <==> k in st.routes
    requires RelayAmong(st, p, from, Elements(keys), best)
    ensures best.Some? ==> Steps.IsBestRelay(st, p, from, best.value)
    ensures best.None? ==> forall k :: !Steps.Relay(st, p, from, k)
  {
    hide Rules.MetricAt, Steps.RelayPreferred;
    assert Elements(keys) == st.routes.Keys;
  }

  lemma RelayUnique(st: State, p: Prefix, from: LinkId, k: RouteKey, j: RouteKey)
    requires Steps.IsBestRelay(st, p, from, k) && Steps.IsBestRelay(st, p, from, j)
    ensures k == j
  {
    hide Rules.MetricAt, Steps.FeasibleAt;
    assert Steps.RelayPreferred(st, k, j) && Steps.RelayPreferred(st, j, k);
  }

  /** The relay found is the one the specification names. */
  lemma ForwardTo(st: State, from: LinkId, m: Message, best: Option<RouteKey>)
    requires m.SeqRequest? && m.routerId != st.cfg.routerId && m.hopCount >= 2 && Steps.Advertised(st, m.prefix)
    requires best.Some? ==> Steps.IsBestRelay(st, m.prefix, from, best.value)
    requires best.None? ==> forall k :: !Steps.Relay(st, m.prefix, from, k)
    ensures Steps.Forward(st, from, m) ==
            if best.None? then st
            else Rules.Ask(st, SourceKey(m.prefix, m.routerId), m.seqno, {best.value.link}, from, m.hopCount - 1)
  {
    hide Rules.Ask, Steps.Advertised, Rules.MetricAt;
    if best.Some? {
      var k :| Steps.IsBestRelay(st, m.prefix, from, k)
        && Steps.Forward(st, from, m)
            == Rules.Ask(st, SourceKey(m.prefix, m.routerId), m.seqno, {k.link}, from, m.hopCount - 1);
      RelayUnique(st, m.prefix, from, k, best.value);
    }
  }

  lemma ReceiveStep(st: State, id: LinkId, ms: seq<Message>, i: nat)
    requires i < |ms|
    ensures Steps.ReceiveAll(st, id, ms[..i + 1]) == Steps.ReceiveOne(Steps.ReceiveAll(st, id, ms[..i]), id, ms[i])
  {
    hide Steps.ReceiveOne;
    assert ms[..i + 1][..i] == ms[..i];
  }

  lemma ReceiveSteps(st: State, id: LinkId, ms: seq<Message>)
    ensures Steps.ReceiveAll(st, id, ms[..0]) == st && ms[..|ms|] == ms
  {
    hide Steps.ReceiveOne;
  }

  // --------------------------------------------------- the loops of expiry and timers

  /** The candidates when those of todo are still to be looked at. */
  function AgedBut(routes: map<RouteKey, Candidate>, now: int, todo: set<RouteKey>): map<RouteKey, Candidate> {
    map k | k in routes && (k in todo || !Steps.Dead(routes[k], now)) ::
      if k in todo then routes[k] else Steps.Aged(routes[k], now)
  }

  lemma AgeNone(routes: map<RouteKey, Candidate>, now: int)
    ensures AgedBut(routes, now, routes.Keys) == routes
    ensures AgedBut(routes, now, {}) == Steps.AgedRoutes(routes, now)
  {
    hide Steps.Dead, Steps.Aged;
  }

  lemma AgeStep(routes: map<RouteKey, Candidate>, now: int, todo: set<RouteKey>, k: RouteKey)
    requires k in todo && todo <= routes.Keys
    ensures var x, y, c := AgedBut(routes, now, todo), AgedBut(routes, now, todo - {k}), routes[k];
            y == if c.expires > now then x
                 else if c.advertised == INFINITY then x - {k}
                 else x[k := c.(advertised := INFINITY, expires := now + Hold(c.interval))]
  {
  }

  lemma NudgeFrame(st: State, id: LinkId, m: Message)
    ensures var y := Steps.Shuffle(Steps.Send(st, id, m));
            y == st.(em := y.em) && Steps.Send(st, id, m).now == st.now
  {
    hide Rules.NextRandom, Rules.Queue;
  }

  lemma LinkTimersNone(st: State, ids: seq<LinkId>)
    ensures Steps.AllLinkTimers(st, ids[..0]) == st && ids[..|ids|] == ids
  {
    hide Steps.LinkTimers;
  }

  lemma LinkTimersStep(st: State, ids: seq<LinkId>, i: nat)
    requires i < |ids| && ids[i] in st.links
    ensures var x := Steps.AllLinkTimers(st, ids[..i]);
            && ids[i] in x.links && ids[i] in Steps.HelloTimer(x, ids[i]).links
            && ids[i] in Steps.IHUTimer(Steps.HelloTimer(x, ids[i]), ids[i]).links
            && Steps.AllLinkTimers(st, ids[..i + 1]) == Steps.LinkTimers(x, ids[i])
  {
    hide Steps.HelloTimer, Steps.IHUTimer, Steps.UpdateTimer;
    assert ids[..i + 1][..i] == ids[..i];
    var x := Steps.AllLinkTimers(st, ids[..i]);
    Selection.AllLinkTimersFrame(st, ids[..i]);
    Selection.HelloTimerFrame(x, ids[i]);
    Selection.IHUTimerFrame(Steps.HelloTimer(x, ids[i]), ids[i]);
  }

  lemma DumpAllNone(st: State, ids: seq<LinkId>)
    ensures Steps.DumpAll(st, st.em, ids[..0]) == st.em && ids[..|ids|] == ids
  {
    hide Rules.Dump;
  }

  lemma DumpAllStep(st: State, ids: seq<LinkId>, i: nat)
    requires i < |ids|
    ensures var em := Steps.DumpAll(st, st.em, ids[..i]);
            Steps.DumpAll(st, st.em, ids[..i + 1]) == Rules.Dump(st.(em := em), em, ids[i], false)
  {
    hide Rules.Dump;
    assert ids[..i + 1][..i] == ids[..i];
    var em := Steps.DumpAll(st, st.em, ids[..i]);
    Progress.DumpReads(st, st.(em := em), em, ids[i], false);
  }

  /** Dumping never switches an armed trigger off. */
  lemma {:induction false} Steady(st: State, ids: seq<LinkId>)
    requires st.em.trigger.on
    ensures Steps.DumpAll(st, st.em, ids).trigger.on
  {
    hide Rules.Advertise;
    if ids != [] {
      var n := |ids| - 1;
      Steady(st, ids[..n]);
      SteadyAll(st, Steps.DumpAll(st, st.em, ids[..n]), ids[n], SortPrefixes(st.selected.Keys), false);
    }
  }

  lemma {:induction false} SteadyAll(st: State, em: Emission, id: LinkId, ps: seq<Prefix>, explicit: bool)
    requires em.trigger.on
    ensures Rules.AdvertiseAll(st, em, id, ps, explicit).trigger.on
  {
    hide Rules.Queue, Rules.Lowered, Rules.Announcement, Rules.NextRandom, Rules.Jitter;
    if ps != [] {
      SteadyAll(st, em, id, ps[..|ps| - 1], explicit);
    }
  }

  function ResendOne(st: State, sk: SourceKey): State
    requires sk in st.requests
  {
    var q := st.requests[sk];
    if !Steps.ResendDue(st, sk) then st
    else SentAll(st, q.targets, Rules.RequestMessage(sk, q)).(requests := st.requests[sk := Steps.Resent(q, st.now)])
  }

  function ResentAmong(st: State, sks: seq<SourceKey>): map<SourceKey, Pending> {
    map sk | sk in st.requests ::
      if sk in sks && Steps.ResendDue(st, sk) then Steps.Resent(st.requests[sk], st.now) else st.requests[sk]
  }

  /** The requests of sks have been seen to. */
  function ResentSome(st: State, sks: seq<SourceKey>): State {
    st.(em := st.em.(out := Steps.ResendOut(st, st.em.out, sks)), requests := ResentAmong(st, sks))
  }

  lemma ResentNoneAll(st: State, sks: seq<SourceKey>)
    requires forall sk :: sk in sks <==> sk in st.requests
    ensures ResentAmong(st, []) == st.requests && ResentAmong(st, sks) == Steps.ResentRequests(st)
  {
    hide Steps.ResendDue;
  }

  lemma ResendNone(st: State, sks: seq<SourceKey>)
    requires sks == SortSourceKeys(st.requests.Keys)
    ensures ResentSome(st, sks[..0]) == st && sks[..|sks|] == sks
    ensures ResentSome(st, sks) == Steps.RequestTimer(st)
  {
    ResentNoneAll(st, sks);
    hide Steps.ResendDue, SourceKeyLess, ResentAmong, Steps.ResentRequests, SortSourceKeys;
  }

  lemma ResentStep(st: State, sks: seq<SourceKey>, i: nat)
    requires i < |sks| && sks[i] in st.requests && sks[i] !in sks[..i]
    ensures var x, y := ResentAmong(st, sks[..i]), ResentAmong(st, sks[..i + 1]);
            sks[i] in x && x[sks[i]] == st.requests[sks[i]]
            && y == if Steps.ResendDue(st, sks[i]) then x[sks[i] := Steps.Resent(st.requests[sks[i]], st.now)] else x
  {
    hide Steps.ResendDue;
    assert sks[..i + 1] == sks[..i] + [sks[i]];
  }

  lemma ResendStep(st: State, sks: seq<SourceKey>, i: nat)
    requires sks == SortSourceKeys(st.requests.Keys) && i < |sks|
    ensures var x := ResentSome(st, sks[..i]);
            sks[i] in x.requests && ResentSome(st, sks[..i + 1]) == ResendOne(x, sks[i])
  {
    hide SourceKeyLess, SortSourceKeys, Rules.QueueAll, ResentAmong;
    assert sks[..i + 1][..i] == sks[..i];
    assert sks[i] in sks;
    DistinctKey(sks, i);
    ResentStep(st, sks, i);
  }

  function RefreshOne(st: State, k: RouteKey): State
    requires k in st.routes
  {
    if !Steps.RefreshDue(st, k) then st
    else
      var routes := st.routes[k := st.routes[k].(refreshRequested := true)];
      Steps.Send(st, k.link, RouteRequest(k.prefix)).(routes := routes)
  }

  function RefreshedAmong(st: State, ks: seq<RouteKey>): map<RouteKey, Candidate> {
    map k | k in st.routes ::
      if k in ks && Steps.RefreshDue(st, k) then st.routes[k].(refreshRequested := true) else st.routes[k]
  }

  /** The candidates of ks have been seen to. */
  function RefreshedSome(st: State, ks: seq<RouteKey>): State {
    st.(em := st.em.(out := Steps.RefreshOut(st, st.em.out, ks)), routes := RefreshedAmong(st, ks))
  }

  lemma RefreshedNoneAll(st: State, ks: seq<RouteKey>)
    requires forall k :: k in ks <==> k in st.routes
    ensures RefreshedAmong(st, []) == st.routes && RefreshedAmong(st, ks) == Steps.RefreshedRoutes(st)
  {
    hide Steps.RefreshDue;
  }

  lemma RefreshNone(st: State, ks: seq<RouteKey>)
    requires ks == SortRouteKeys(st.routes.Keys)
    ensures RefreshedSome(st, ks[..0]) == st && ks[..|ks|] == ks
    ensures RefreshedSome(st, ks) == Steps.RefreshTimer(st)
  {
    RefreshedNoneAll(st, ks);
    hide Steps.RefreshDue, RouteKeyLess, RefreshedAmong, Steps.RefreshedRoutes, SortRouteKeys;
  }

  lemma DistinctRoute(ks: seq<RouteKey>, i: nat)
    requires Sorted(ks, RouteKeyLess) && i < |ks|
    ensures ks[i] !in ks[..i]
  {
  }

  lemma RefreshedStep(st: State, ks: seq<RouteKey>, i: nat)
    requires i < |ks| && ks[i] in st.routes && ks[i] !in ks[..i]
    ensures var x, y := RefreshedAmong(st, ks[..i]), RefreshedAmong(st, ks[..i + 1]);
            ks[i] in x && x[ks[i]] == st.routes[ks[i]]
            && y == if Steps.RefreshDue(st, ks[i]) then x[ks[i] := st.routes[ks[i]].(refreshRequested := true)] else x
  {
    hide Steps.RefreshDue;
    assert ks[..i + 1] == ks[..i] + [ks[i]];
  }

  lemma RefreshStep(st: State, ks: seq<RouteKey>, i: nat)
    requires ks == SortRouteKeys(st.routes.Keys) && i < |ks|
    ensures var x := RefreshedSome(st, ks[..i]);
            ks[i] in x.routes && RefreshedSome(st, ks[..i + 1]) == RefreshOne(x, ks[i])
  {
    hide RouteKeyLess, SortRouteKeys, Rules.Queue, RefreshedAmong;
    assert ks[..i + 1][..i] == ks[..i];
    assert ks[i] in ks;
    DistinctRoute(ks, i);
    RefreshedStep(st, ks, i);
  }

  lemma CollectNone(out: map<LinkId, seq<Message>>, ids: seq<LinkId>)
    ensures Steps.Collect(out, ids[..0]) == [] && ids[..|ids|] == ids
  {
  }

  lemma CollectStep(out: map<LinkId, seq<Message>>, ids: seq<LinkId>, i: nat)
    requires i < |ids|
    ensures Steps.Collect(out, ids[..i + 1])
         == Steps.Collect(out, ids[..i])
             + (if ids[i] in out && out[ids[i]] != [] then [Datagram(ids[i], out[ids[i]])] else [])
  {
    assert ids[..i + 1][..i] == ids[..i];
  }

  function Withheld(st: State, packets: seq<Datagram>): State {
    st.(revision := st.revision + 1, pending := st.revision + 1, held := packets)
  }

  lemma Accepted(st: State, now: int, event: Event)
    requires Steps.Refusal(st, now, event).None?
    ensures Steps.Validate(st, event).None?
  {
    hide Steps.Validate;
  }

  lemma StepKeeps(st: State, now: int, event: Event)
    ensures Invariant.Valid(st) && Decoded(event) ==> Invariant.Valid(Steps.Step(st, now, event).0)
  {
    hide Invariant.Valid, Decoded, Steps.Step;
    if Invariant.Valid(st) && Decoded(event) {
      Invariant.StepValid(st, now, event);
    }
  }

  lemma CommitKeeps(st: State, revision: nat, success: bool)
    ensures Invariant.Valid(st) ==> Invariant.Valid(Steps.Commit(st, revision, success).0)
  {
    hide Invariant.Valid, Steps.Commit;
    if Invariant.Valid(st) {
      Invariant.CommitValid(st, revision, success);
    }
  }

  // ------------------------------------------------------- the loops of deadlines

  function EarlierOfLink(now: int, best: Option<int>, l: LinkState): Option<int> {
    var a := Earlier(now, Earlier(now, Earlier(now, best, l.nextHello), l.nextIHU), l.nextUpdate);
    Earlier(now, Earlier(now, Earlier(now, a, l.ihuExpires), l.multicast.expires), l.unicast.expires)
  }

  lemma EarlierLink(now: int, seen: set<int>, best: Option<int>, l: LinkState)
    requires Earliest(now, seen, best)
    ensures Earliest(now, seen + Steps.LinkTimes(l), EarlierOfLink(now, best, l))
  {
    hide Earliest, Earlier;
    var a, s := Earlier(now, best, l.nextHello), seen + {l.nextHello};
    EarlierEarliest(now, seen, best, l.nextHello);
    EarlierEarliest(now, s, a, l.nextIHU);
    a, s := Earlier(now, a, l.nextIHU), s + {l.nextIHU};
    EarlierEarliest(now, s, a, l.nextUpdate);
    a, s := Earlier(now, a, l.nextUpdate), s + {l.nextUpdate};
    EarlierEarliest(now, s, a, l.ihuExpires);
    a, s := Earlier(now, a, l.ihuExpires), s + {l.ihuExpires};
    EarlierEarliest(now, s, a, l.multicast.expires);
    a, s := Earlier(now, a, l.multicast.expires), s + {l.multicast.expires};
    EarlierEarliest(now, s, a, l.unicast.expires);
    assert s + {l.unicast.expires} == seen + Steps.LinkTimes(l);
  }

  function EarlierOfRoute(now: int, best: Option<int>, c: Candidate): Option<int> {
    var a := Earlier(now, best, c.expires);
    if c.refreshRequested then a else Earlier(now, a, c.expires - c.interval)
  }

  lemma EarlierRoute(now: int, seen: set<int>, best: Option<int>, c: Candidate)
    requires Earliest(now, seen, best)
    ensures Earliest(now, seen + Steps.CandidateTimes(c), EarlierOfRoute(now, best, c))
  {
    EarlierEarliest(now, seen, best, c.expires);
    EarlierEarliest(now, seen + {c.expires}, Earlier(now, best, c.expires), c.expires - c.interval);
    assert seen + {c.expires} + {c.expires - c.interval} == seen + {c.expires, c.expires - c.interval};
  }

  function EarlierOfRequest(now: int, best: Option<int>, q: Pending): Option<int> {
    var a := Earlier(now, best, q.expires);
    if q.remaining > 0 then Earlier(now, a, q.next) else a
  }

  lemma EarlierRequest(now: int, seen: set<int>, best: Option<int>, q: Pending)
    requires Earliest(now, seen, best)
    ensures Earliest(now, seen + Steps.PendingTimes(q), EarlierOfRequest(now, best, q))
  {
    EarlierEarliest(now, seen, best, q.expires);
    EarlierEarliest(now, seen + {q.expires}, Earlier(now, best, q.expires), q.next);
    assert seen + {q.expires} + {q.next} == seen + {q.expires, q.next};
  }

  lemma AllTimers(st: State, seen: set<int>)
    requires forall d :: d in seen <==>
      || (exists id :: id in st.links && d in Steps.LinkTimes(st.links[id]))
      || (exists k :: k in st.routes && d in Steps.CandidateTimes(st.routes[k]))
      || (exists sk :: sk in st.em.sources && d == st.em.sources[sk].expires)
      || (exists p :: p in st.drops && d == st.drops[p])
      || (exists sk :: sk in st.requests && d in Steps.PendingTimes(st.requests[sk]))
      || (st.em.trigger.on && d == st.em.trigger.at)
    ensures forall d :: d in seen <==> Steps.Timer(st, d)
  {
    hide Steps.LinkTimes, Steps.CandidateTimes, Steps.PendingTimes;
  }

  lemma EarliestDeadline(st: State, seen: set<int>, best: Option<int>)
    requires !st.stopped && st.pending == 0 && !Steps.TriggerDue(st)
    requires forall d :: d in seen <==> Steps.Timer(st, d)
    requires Earliest(st.now, seen, best)
    ensures Steps.IsNextDeadline(st, best)
  {
    hide Steps.Timer;
    if best.None? {
      assert forall d :: Steps.Timer(st, d) ==> d in seen;
    } else {
      assert forall d :: Steps.Timer(st, d) && d > st.now ==> d in seen;
    }
  }

  // ------------------------------------------------------ construction and recovery

  predicate InRange(d: int) { 100 * MILLISECOND <= d <= 65534 * CENTISECOND && MultipleOfCentisecond(d) }

  lemma FreshTables(c: Config, st: State)
    requires Steps.New(c) == Ok(st)
    ensures st.em.sources == map[] && st.drops == map[]
  {
    hide BoundedConfig, Steps.Defaulted;
  }

  /** Duplicates show up as keys restored before. */
  lemma RestoredKeys(hs: seq<SourceHistory>, expires: int)
    ensures forall sk :: sk in Steps.RestoredSources(hs, expires) <==> exists h :: h in hs && Steps.HistoryKey(h) == sk
  {
    if hs != [] {
      var n := |hs| - 1;
      RestoredKeys(hs[..n], expires);
      assert hs == hs[..n] + [hs[n]];
    }
  }

  lemma RestoredStep(hs: seq<SourceHistory>, i: nat, expires: int)
    requires i < |hs| && Steps.RestorableHistory(hs[..i])
    ensures var h, m := hs[i], Steps.RestoredSources(hs[..i], expires);
            && Steps.RestoredSources(hs[..i + 1], expires)
                == m[Steps.HistoryKey(h) := Source(h.seqno, h.metric, expires)]
            && (Steps.RestorableHistory(hs[..i + 1]) <==>
                  ValidPrefix(h.prefix) && ValidRouterId(h.routerId) && h.metric != INFINITY
                      && Steps.HistoryKey(h) !in m)
            && (Steps.RestorableHistory(hs) ==> Steps.RestorableHistory(hs[..i + 1]))
  {
    hide ValidPrefix, ValidRouterId;
    assert hs[..i + 1][..i] == hs[..i] && hs[..i + 1] == hs[..i] + [hs[i]];
    RestoredKeys(hs[..i], expires);
    if Steps.HistoryKey(hs[i]) in Steps.RestoredSources(hs[..i], expires) {
      var h :| h in hs[..i] && Steps.HistoryKey(h) == Steps.HistoryKey(hs[i]);
      var j :| 0 <= j < i && hs[..i][j] == h;
      assert Steps.HistoryKey(hs[..i + 1][j]) == Steps.HistoryKey(hs[..i + 1][i]);
    }
  }
}
