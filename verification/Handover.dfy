/**
 Two-phase commits over every run: what the application forwards by, and which packets
 it has been handed.
 */
module Handover {
  import opened Types
  import opened Steps
  import opened Invariant
  import opened Release
  import opened Traces
  import opened TwoPhase

  // What the application has seen of the engine: the forwarding table committed last, the
  // packets produced and handed out so far, and the revisions asked for.
  datatype Log = Log(
    committed: map<Prefix, Route>,
    produced: seq<Datagram>,
    released: seq<Datagram>,
    revisions: seq<nat>)

  function Stepped(g: Log, y: State, e: Effects): Log {
    g.(produced := g.produced + Produced(y, e), released := g.released + e.datagrams,
       revisions := if e.revision != 0 then g.revisions + [e.revision] else g.revisions)
  }

  function Logged(g: Log, x: State, m: Move, r: Result<Effects>, y: State): Log {
    if r.Err? then g
    else
      match m
      case StepMove(_, _) => Stepped(g, y, r.value)
      case CommitMove(_, _) => g.(committed := x.selected, released := g.released + r.value.datagrams)
  }

  function LogAt(t: Trace, n: nat): Log
    requires |t.states| == |t.moves| + 1 && |t.results| == |t.moves| && n < |t.states|
  {
    if n == 0 then Log(map[], [], [], [])
    else Logged(LogAt(t, n - 1), t.states[n - 1], t.moves[n - 1], t.results[n - 1], t.states[n])
  }

  predicate Rising(revisions: seq<nat>, revision: nat) {
    && (forall i, j :: 0 <= i < j < |revisions| ==> revisions[i] < revisions[j])
    && (forall i :: 0 <= i < |revisions| ==> revisions[i] <= revision)
  }

  /**
   The table committed is the one selected exactly when no commit is due; every packet is
   handed out once and in order, those withheld only after their commit; revisions rise.
   */
  predicate Consistent(st: State, g: Log) {
    && Rising(g.revisions, st.revision)
    && (if st.stopped then g.released <= g.produced && st.held == []
        else g.produced == g.released + st.held && (st.pending == 0 <==> g.committed == st.selected))
  }

  lemma SteppedConsistent(x: State, g: Log, y: State, e: Effects)
    requires Consistent(x, g) && !x.stopped && x.pending == 0 && x.held == []
    requires !y.stopped && (y.pending != 0 <==> y.selected != x.selected)
    requires y.selected == x.selected ==>
               y.revision == x.revision && y.held == [] && e == Effects(0, [], Produced(y, e))
    requires y.selected != x.selected ==>
               y.revision > x.revision && y.pending == y.revision && e == Effects(y.revision, Snapshot(y.selected), [])
               && y.held == Produced(y, e)
    ensures Consistent(y, Stepped(g, y, e))
  {
    hide Snapshot, Produced;
  }

  lemma StepConsistent(x: State, g: Log, now: int, event: Event, y: State, r: Result<Effects>)
    requires Valid(x) && Consistent(x, g) && Decoded(event) && (y, r) == Step(x, now, event)
    ensures Consistent(y, Logged(g, x, StepMove(now, event), r, y))
    ensures x.stopped ==> r.Err? && y == x
  {
    hide Valid, Refusal, Snapshot, Decoded, Produced, Step, Stepped, Consistent;
    StepForward(x, now, event, y, r);
    if r.Ok? {
      ValidTables(x);
      Answered(x, now, event, y, r);
      StepWithholds(x, now, event, y, r);
      Unrefused(x, now, event);
      SteppedConsistent(x, g, y, r.value);
    }
  }

  lemma CommitConsistent(x: State, g: Log, revision: nat, success: bool, y: State, r: Result<Effects>)
    requires Valid(x) && Consistent(x, g) && (y, r) == Commit(x, revision, success)
    ensures Consistent(y, Logged(g, x, CommitMove(revision, success), r, y))
    ensures x.stopped ==> r.Err? && y == x
  {
    hide Valid;
    ValidTables(x);
  }

  lemma {:induction false} MoveConsistent(t: Trace, n: nat)
    requires IsTrace(t) && n < |t.moves|
    requires |t.states| == |t.moves| + 1 && |t.results| == |t.moves| && Consistent(t.states[n], LogAt(t, n))
    ensures Consistent(t.states[n + 1], LogAt(t, n + 1))
    ensures t.states[n].stopped ==> t.states[n + 1] == t.states[n] && LogAt(t, n + 1) == LogAt(t, n)
  {
    hide Valid, Step, Commit, Decoded, IsTrace, Consistent, Stepped;
    TraceMove(t, n);
    TraceValid(t, n);
    match t.moves[n]
    case StepMove(now, event) => StepConsistent(t.states[n], LogAt(t, n), now, event, t.states[n + 1], t.results[n]);
    case CommitMove(revision, success) =>
      CommitConsistent(t.states[n], LogAt(t, n), revision, success, t.states[n + 1], t.results[n]);
  }

  /** Over every run the application stays consistent with the engine. */
  lemma {:induction false} AlwaysConsistent(t: Trace, n: nat)
    requires IsTrace(t) && n < |t.states|
    ensures |t.states| == |t.moves| + 1 && |t.results| == |t.moves| && Consistent(t.states[n], LogAt(t, n))
  {
    hide IsTrace, Opens, Valid;
    TraceSize(t);
    if n == 0 {
      TraceOpens(t);
      OpensFacts(t.states[0]);
    } else {
      AlwaysConsistent(t, n - 1);
      MoveConsistent(t, n - 1);
    }
  }

  /** A failed commit is the end: the engine never changes again, and nothing more is handed out. */
  lemma {:induction false} FailureIsFinal(t: Trace, i: nat, j: nat)
    requires IsTrace(t) && i <= j < |t.states|
    ensures |t.states| == |t.moves| + 1 && |t.results| == |t.moves|
    ensures t.states[i].stopped ==> t.states[j] == t.states[i] && LogAt(t, j) == LogAt(t, i)
    decreases j
  {
    hide IsTrace, Consistent, Logged;
    TraceSize(t);
    if i < j {
      FailureIsFinal(t, i, j - 1);
      AlwaysConsistent(t, j - 1);
      MoveConsistent(t, j - 1);
    }
  }
}
