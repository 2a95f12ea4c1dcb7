/** Confinement of a non-transit peer to its own host route (leaf.go), over every run. */
module Leaf {
  import opened Arithmetic
  import opened Types
  import opened Rules
  import opened Steps
  import opened Soundness
  import opened Progress
  import opened Selection
  import opened Invariant
  import opened Provenance
  import Release
  import opened Traces
  import TwoPhase

  datatype LeafError = Misconfigured | Undecodable | ForeignUpdate | ForeignRequest

  predicate LeafConfig(peer: Addr, own: Prefix) {
    Is6(peer) && LinkLocal(peer) && ValidPrefix(own) && own.family == IPv6 && own.len == 128
  }

  /** The check of one message. */
  function Offence(m: Message, peer: Addr, own: Prefix): Option<LeafError> {
    match m
    case WildcardUpdate => Some(ForeignUpdate)
    case Update(p, _, _, metric, _, address, _) =>
      if p != own || (metric != INFINITY && address != peer) then Some(ForeignUpdate) else None
    case RouteRequest(p) => if p != own then Some(ForeignRequest) else None
    case SeqRequest(p, _, _, _) => if p != own then Some(ForeignRequest) else None
    case _ => None
  }

  /** The message at i offends, and none before it. */
  predicate FirstAt(ms: seq<Message>, i: nat, peer: Addr, own: Prefix)
    requires i < |ms|
  {
    Offence(ms[i], peer, own).Some? && forall j :: 0 <= j < i ==> Offence(ms[j], peer, own).None?
  }

  /** The first offence among the messages, and so none exactly when no message offends. */
  function FirstOffence(ms: seq<Message>, peer: Addr, own: Prefix): (r: Option<LeafError>)
    ensures r.None? <==> forall m :: m in ms ==> Offence(m, peer, own).None?
    ensures r.Some? ==> exists i :: 0 <= i < |ms| && FirstAt(ms, i, peer, own) && Offence(ms[i], peer, own) == r
  {
    if ms == [] then None
    else
      var o := Offence(ms[0], peer, own);
      assert o.Some? ==> FirstAt(ms, 0, peer, own);
      assert ms == [ms[0]] + ms[1..];
      assert o.None? ==> forall i :: 0 <= i < |ms| - 1 && FirstAt(ms[1..], i, peer, own) ==>
          FirstAt(ms, i + 1, peer, own);
      if o.Some? then o else FirstOffence(ms[1..], peer, own)
  }

  function ValidateLeafPacket(packet: Packet, peer: Addr, own: Prefix): Option<LeafError> {
    if !LeafConfig(peer, own) then Some(Misconfigured)
    else
      match packet.decoded
      case None => Some(Undecodable)
      case Some(ms) => FirstOffence(ms, peer, own)
  }

  /** A packet passes exactly when each of its messages keeps to the leaf's own prefix. */
  predicate Tame(m: Message, peer: Addr, own: Prefix) {
    match m
    case WildcardUpdate => false
    case Update(p, _, _, metric, _, address, _) => p == own && (metric == INFINITY || address == peer)
    case RouteRequest(p) => p == own
    case SeqRequest(p, _, _, _) => p == own
    case _ => true
  }

  lemma PassesIff(packet: Packet, peer: Addr, own: Prefix)
    ensures ValidateLeafPacket(packet, peer, own) == None
       <==> LeafConfig(peer, own) && packet.decoded.Some? && forall m :: m in packet.decoded.value ==>
           Tame(m, peer, own)
  {
    assert forall m :: Offence(m, peer, own).None? <==> Tame(m, peer, own);
  }

  // ------------------------------------------------------------------- confinement

  /** Every packet arriving on the leaf's link passed the check. */
  predicate Screened(event: Event, id: LinkId, peer: Addr, own: Prefix) {
    event.Receive? && event.id == id ==> ValidateLeafPacket(event.packet, peer, own) == None
  }

  /** Through the link there are candidates for the leaf's own prefix only. */
  predicate Confined(st: State, id: LinkId, own: Prefix) {
    forall k :: k in st.routes && k.link == id ==> k.prefix == own
  }

  /** Hence no other prefix is routed through it. */
  lemma ConfinedRoutes(st: State, id: LinkId, own: Prefix, p: Prefix)
    requires Valid(st) && Confined(st, id, own)
    requires p in st.selected && Remote(st.selected[p]) && st.selected[p].link == id
    ensures p == own
  {
    hide Sound, Anchored, Feasible;
    assert Stands(p, st.selected[p], st.routes);
  }

  lemma ScreenedNames(event: Event, id: LinkId, peer: Addr, own: Prefix, k: RouteKey)
    requires Screened(event, id, peer, own) && id != 0 && k.link == id && Named(Arrival(event), Messages(event), k)
    ensures k.prefix == own
  {
    hide LeafConfig, Offence;
    PassesIff(event.packet, peer, own);
  }

  lemma {:induction false} StepConfined(st: State, now: int, event: Event, id: LinkId, peer: Addr, own: Prefix)
    requires Valid(st) && Decoded(event) && Screened(event, id, peer, own) && id != 0 && Confined(st, id, own)
    ensures Confined(Step(st, now, event).0, id, own)
  {
    hide Valid, Decoded, Step, Work, Screened, Named, Refusal, Snapshot, Packets, Supported;
    var (y, r) := Step(st, now, event);
    if r.Err? {
      TwoPhase.RefusedUnchanged(st, now, event);
    } else {
      TwoPhase.Answered(st, now, event, y, r);
      Release.StepProduces(st, now, event, y, r);
      WorkSupported(st, now, event, Work(st, now, event));
      forall k | k in y.routes && k.link == id ensures k.prefix == own {
        if k !in st.routes {
          ScreenedNames(event, id, peer, own, k);
        }
      }
    }
  }

  // ------------------------------------------------------------ sequence number

  /** Selected local routes are originated. */
  predicate LocalsOriginated(st: State) {
    forall p :: p in st.selected && st.selected[p].local ==> p in st.local
  }

  lemma SelectOriginated(st: State)
    ensures LocalsOriginated(SelectRoutes(st)) && SelectRoutes(st).seqno == st.seqno
    ensures SelectRoutes(st).local == st.local
  {
    hide Adopt, Choice, AnswerRequests, Anchored;
    SelectRoutesFrame(st);
    SelectAnchored(st);
  }

  lemma SelectAnchored(st: State)
    ensures LocalsOriginated(SelectRoutes(st))
  {
    hide Adopt, Choice, Answer, Unsettled;
    AdoptAnchored(st);
    AdoptFrame(st, Choice(st));
  }

  lemma RenewSeqno(st: State, from: LinkId, p: Prefix)
    ensures LocalsOriginated(Renew(st, from, p)) && Renew(st, from, p).local == st.local
  {
    hide SelectRoutes, Advertise;
    SelectOriginated(st.(seqno := NextSeqno(st.seqno)));
  }

  lemma SeqRequestSeqno(st: State, from: LinkId, m: Message)
    requires m.SeqRequest? && LocalsOriginated(st)
    ensures var y := ReceiveSeqRequest(st, from, m);
            LocalsOriginated(y) && y.local == st.local && (y.seqno == st.seqno || m.prefix in st.local)
  {
    hide Renew, Advertise, Forward, AtLeast;
    ForwardFrame(st, from, m);
    RenewSeqno(st, from, m.prefix);
  }

  lemma MessageSeqno(st: State, id: LinkId, m: Message, peer: Addr, own: Prefix)
    requires id in st.links && LocalsOriginated(st) && Tame(m, peer, own)
    ensures var y := ReceiveMessage(st, id, m);
            LocalsOriginated(y) && y.local == st.local && (y.seqno == st.seqno || own in st.local)
  {
    if m.SeqRequest? {
      hide ReceiveSeqRequest, LocalsOriginated;
      SeqRequestSeqno(st, id, m);
    } else {
      hide ReceiveMessage;
      MessageFrame(st, id, m);
    }
  }

  lemma OneSeqno(st: State, id: LinkId, m: Message, peer: Addr, own: Prefix)
    requires LocalsOriginated(st) && Tame(m, peer, own)
    ensures var y := ReceiveOne(st, id, m);
            LocalsOriginated(y) && y.local == st.local && (y.seqno == st.seqno || own in st.local)
  {
    hide SelectRoutes, ReceiveMessage, LocalsOriginated, Tame;
    SelectOriginated(st);
    var x := if Asks(m) then SelectRoutes(st) else st;
    if id in x.links {
      MessageSeqno(x, id, m, peer, own);
    }
  }

  lemma {:induction false} ReceiveAllSeqno(st: State, id: LinkId, ms: seq<Message>, peer: Addr, own: Prefix)
    requires LocalsOriginated(st) && forall m :: m in ms ==> Tame(m, peer, own)
    ensures var y := ReceiveAll(st, id, ms);
            LocalsOriginated(y) && y.local == st.local && (y.seqno == st.seqno || own in st.local)
  {
    hide ReceiveOne, LocalsOriginated, Tame;
    if ms != [] {
      var n := |ms| - 1;
      ReceiveAllSeqno(st, id, ms[..n], peer, own);
      assert ms[n] in ms;
      OneSeqno(ReceiveAll(st, id, ms[..n]), id, ms[n], peer, own);
    }
  }

  /** The leaf cannot make the router advance its sequence number but for a prefix the router originates itself. */
  lemma {:induction false} LeafSeqno(st: State, now: int, packet: Packet, id: LinkId, peer: Addr, own: Prefix)
    requires Valid(st) && Screened(Receive(id, packet), id, peer, own)
    ensures Step(st, now, Receive(id, packet)).0.seqno == st.seqno || own in st.local
  {
    hide Step, Work, Refusal, Snapshot, Packets, LeafConfig, Offence, Tame, Sound, SelfFeasible;
    var event := Receive(id, packet);
    var (y, r) := Step(st, now, event);
    if r.Err? {
      TwoPhase.RefusedUnchanged(st, now, event);
    } else {
      TwoPhase.Answered(st, now, event, y, r);
      Release.StepProduces(st, now, event, y, r);
      PassesIff(packet, peer, own);
      WorkSeqno(st, now, packet, id, peer, own);
    }
  }

  lemma WorkSeqno(st: State, now: int, packet: Packet, id: LinkId, peer: Addr, own: Prefix)
    requires LocalsOriginated(st) && packet.decoded.Some? && forall m :: m in packet.decoded.value ==>
        Tame(m, peer, own)
    ensures Work(st, now, Receive(id, packet)).seqno == st.seqno || own in st.local
  {
    hide SelectRoutes, Timers, ReceiveAll, AgedRoutes, LiveSources, LiveRequests, Tame;
    var x := Expire(st.(now := now));
    ReceiveAllSeqno(x, id, packet.decoded.value, peer, own);
    var a := Apply(x, Receive(id, packet));
    SelectOriginated(a);
    TimersFrame(SelectRoutes(a));
  }

  // ----------------------------------------------------------------------- runs

  predicate ScreenedMove(m: Move, id: LinkId, peer: Addr, own: Prefix) {
    m.StepMove? ==> Screened(m.event, id, peer, own)
  }

  lemma OpensConfined(st: State, id: LinkId, own: Prefix)
    requires Opens(st)
    ensures Confined(st, id, own)
  {
    hide Valid;
    OpensFacts(st);
  }

  lemma {:induction false} TraceConfined(t: Trace, i: nat, id: LinkId, peer: Addr, own: Prefix)
    requires IsTrace(t) && i < |t.states| && id != 0
    requires forall k {:trigger t.moves[k]} :: 0 <= k < |t.moves| ==> ScreenedMove(t.moves[k], id, peer, own)
    ensures Confined(t.states[i], id, own)
  {
    hide Opens, Screened, Decoded, Confined, Step, Commit, Valid, IsTrace;
    TraceSize(t);
    if i == 0 {
      TraceOpens(t);
      OpensConfined(t.states[0], id, own);
    } else {
      TraceConfined(t, i - 1, id, peer, own);
      TraceMove(t, i - 1);
      TraceValid(t, i - 1);
      match t.moves[i - 1]
      case StepMove(now, event) => StepConfined(t.states[i - 1], now, event, id, peer, own);
      case CommitMove(revision, success) => CommitConfined(t.states[i - 1], revision, success, id, own);
    }
  }

  /**
   Over every run in which all packets of its link are screened, a leaf is confined: through
   the link there are candidates for its own prefix only, and no other prefix is routed.
   */
  lemma {:induction false} LeafConfined(t: Trace, i: nat, id: LinkId, peer: Addr, own: Prefix, p: Prefix)
    requires IsTrace(t) && i < |t.states| && id != 0
    requires forall k {:trigger t.moves[k]} :: 0 <= k < |t.moves| ==> ScreenedMove(t.moves[k], id, peer, own)
    ensures RouteKey(p, id) in t.states[i].routes ==> p == own
    ensures p in t.states[i].selected && Remote(t.states[i].selected[p]) && t.states[i].selected[p].link == id ==>
        p == own
  {
    hide IsTrace, ScreenedMove, Valid;
    TraceConfined(t, i, id, peer, own);
    TraceValid(t, i);
    if p in t.states[i].selected && Remote(t.states[i].selected[p]) && t.states[i].selected[p].link == id {
      ConfinedRoutes(t.states[i], id, own, p);
    }
  }

  lemma CommitConfined(st: State, revision: nat, success: bool, id: LinkId, own: Prefix)
    requires Confined(st, id, own)
    ensures Confined(Commit(st, revision, success).0, id, own)
  {
  }
}
