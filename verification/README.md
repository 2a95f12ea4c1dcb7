# A verified model of the Babel engine

`go/babel` is a deterministic router for a profile of Babel (RFC 8966) on
point-to-point links. It does no I/O: time, packets and configuration are
arguments, forwarding changes are committed in two phases, and its safety history
survives crashes in checkpoints. This project models the whole engine (`engine.go`),
its checkpoints (`checkpoint.go`), its construction and arithmetic (`types.go`) and
the screening of leaf packets (`leaf.go`), and proves the properties the protocol
rests on, from one advertisement up to networks of routers that crash.

`dafny verify dfyconfig.toml` verifies everything.

## How it is built

- `Arithmetic`, `Types`, `Sorting`: wrapping sequence numbers, saturating metrics,
  durations in nanoseconds; prefixes, messages, events, tables; sorted walks.
- `Rules`, `Steps`: every transition of the engine as a function of its state.
- `Engine`, `Loops`: the engine as an object whose methods update its tables in
  place, in the source's order, with loops over maps that meet the keys in an
  arbitrary order. Each method is proved to make the transition `Rules` and `Steps`
  prescribe. The object's ghost field `view` is its state as a value.
- `History`, `Soundness`, `Progress`, `Selection`, `Invariant`: the invariant of the
  tables, kept by every transition, step and commit.
- `Release`, `Provenance`, `TwoPhase`, `Recovery`: packets and the history that backs
  them, where candidates come from, when packets are withheld, checkpoints.
- `Traces`, `Handover`, `Truth`: every run of one engine by steps and commits, from any
  construction or restart on, what the application has seen of it, and what is announced.
- `Sites`, `Crashes`: one router with its disk, which persists before it sends, crashes
  and restarts, and never goes back on what it has sent.
- `Network`, `LoopFreedom`, `Tightness`: many routers, an unordered wire; no cycles.
- `Rest`, `Quiet`, `Contentment`: what a step leaves behind and how long one may sleep
  on it.
- `Holddown`, `Restarts`, `Leaf`, `Clock`: suppression, also across restarts, leaf
  confinement, time bounds.
- `Requests`, `Tally`, `Sends`: sequence-number requests, how far they travel and how
  often they are sent.
- `Triggered`, `Telling`, `Cadence`, `Upkeep`, `Chores`: triggered and periodic messages.
- `Scenario`, `Wraparound`, `Crowding`: runs written out move by move, for what can go wrong.

## What a router keeps across crashes

`Crashes.CrashSafe` is about one router whatever its environment does: packets may be
forged or late, steps may come at any time, commits may fail, and it may crash and
restart under any configuration that restores, as often as it likes. All it takes is
that the history is persisted before packets are sent, and that the sequence numbers of
the source in the router's tables, queues and disk, and in the updates it still answers
for, lie within half the circle in one state and the next.

## What the network theorem assumes

Loop-freedom is per source (prefix and router ID, section 2.7 of RFC 8966). A network
state holds for each router such a site: its engine, the forwarding table in force, its
disk, and the packets not yet persisted; the wire is a set of finite updates that are never
removed, so they may be delivered never, often, late and in any order. Assumed are:

- a link number stands for one neighbour from a start of the router to the next; after a
  restart the same number may lead to another;
- a finite update in a received packet was sent by the peer of its link, at most the
  delay bound ago, counted from the step that produced it; all other messages may be forged;
- no candidate and no route in force outlives its expiry unnoticed for longer than a
  lateness bound: routers tick and commit in time (`LoopFreedom.DeadlineIsOnTime`:
  sleeping until `NextDeadline` and waking up that late is enough);
- the delay bound, `hold(UpdateInterval)` and the lateness bound add up to less than
  `SourceGC`, in every router. The bound has to be strict: whenever they reach `SourceGC`,
  which `Config` admits, a router may still forward to a neighbour that has forgotten what
  it sent (`Tightness.BoundIsTight`, a run with updates every minute);
- the history is persisted before packets are sent, and a router whose engine is lost
  stops forwarding until it has restarted from its disk;
- the sequence numbers in use for the source, in one state and the next, lie within
  half the circle (section 3.2.1 of RFC 8966): in tables and queues, on disk, and in the
  updates on the wire that their sender still answers for.

Policy callbacks may change between any two steps of a network; in the runs of one engine
they are fixed.

## Properties that need a condition

Sleeping until `NextDeadline` is safe in every engine whose completed step left no
usable candidate better than the route selected, and in no other
(`Quiet.SleepUntilDeadline`, `Quiet.StepSleeps`). Advertising can break this when
sequence numbers span more than half the circle: it records the advertised distance
after selection, and by the wrapping comparison a candidate that was infeasible against
the old distance can be feasible against the new one. `Wraparound.NotQuiet` is a run in
which that happens: an engine restored with a recorded sequence number of 0 hears of
40000 on one link and of 20000 on another, selects the latter, and advertises it in the
same step. Inside of the half circle it cannot happen (`Contentment.StepContented`,
`Contentment.ContentAfterStep`), and early ticks are quiet over any run
(`Contentment.QuietUntilDeadline`).

The sum that the admission tests compare with `MaxRoutes` counts a lost route twice, as a
candidate and as a suppression, so it can exceed the limit (`Crowding.SumExceedsLimit`);
the distinct prefixes cannot (`Traces.WithinCapacity`).

What a step or its commit hands out announces the routes selected at that moment
(`Truth.HandedOutTruthful`), unless its packet asks for routes: a request is answered with
the routes selected when it is reached, which a later update of the same packet may replace.

A pending request is sent at most three times to each target. Two entries made one after
the other for one message are sent in their own right, so the sends are counted against the
entries made (`Sends.ThreeSends`, `Sends.EntrySentThrice`). A step whose packet carries no
request makes one at most (`Tally.StepMakesOne`, `Sends.AtMostThreeSends`).

## Model

| member | source | states |
|---|---|---|
| LoopFreedom.LoopFree | go/babel/engine.go:473-517 | In every state of every network run, with updates lost, duplicated, reordered and delayed, two-phase commits, crashes, restarts from disk and source expiry, no cycle of next hops is selected for one prefix and router ID |
| LoopFreedom.HopImproves | go/babel/engine.go:241-247 | Along each next hop the released feasibility distance gets strictly better |
| Crashes.CrashSafe | go/babel/checkpoint.go:9-12 | Over every run of one router by steps, commits that succeed or fail, persisting before sending, crashes and restarts, with any packets, at any times and under any configuration that restores: for the full collection time from the step that produced it, each finite update sent is dominated by the running engine, by the disk, and by whatever engine is restarted from it; one released but not yet sent, by the running engine. Sequence numbers of the source lie in half the circle |
| Tightness.BoundIsTight | go/babel/types.go:163 | With updates every minute, for every admissible collection time that delay, hold and lateness together reach: a network run of two routers that meets every other assumption of loop-freedom, in which one forwards to the other although that one has collected its history of the source |
| LoopFreedom.NextSafe | go/babel/engine.go:79-184 | Every action of the network (start, step, commit, halt, persist, time) keeps every claimed distance backed |
| Crashes.StoredStill | go/babel/engine.go:589-604 | A source entry a neighbour may still rely on survives expiry and every advertisement of a step |
| Crashes.ActKeeps | go/babel/checkpoint.go:9-12 | Whatever a router does, each update it answers for stays dominated, in the engine and on disk, and nothing it has answered for is answered for less |
| LoopFreedom.DeadlineIsOnTime | go/babel/engine.go:677-723 | A router that sleeps until NextDeadline and wakes up no later than the world allows is on time for the loop-freedom theorem |
| Release.StepHistory | go/babel/engine.go:497-517 | While sequence numbers lie in half the circle, a step keeps each live source entry, no worse and no shorter, and every finite update it produces is dominated by its entry for the full collection time |
| History.LoweredEvolves | go/babel/engine.go:502-517 | One advertisement writes the history before its message, improving the entry |
| Release.UpdatesKeepHistory | go/babel/engine.go:306-378 | Received updates and wildcard retractions alone never change the source table |
| Selection.StepSelfFeasible | go/babel/engine.go:473-517 | At the end of any step each selected remote route matches a candidate of its link in origin, sequence number and finite metric, strictly farther than the candidate advertised, and feasible against the final history |
| Selection.KeepsOne | go/babel/engine.go:502-515 | No advertisement makes the candidate of a selected route infeasible |
| Selection.PositiveCost | go/babel/engine.go:232-253 | A finite metric exceeds the metric its candidate advertised |
| Quiet.SleepUntilDeadline | go/babel/engine.go:677-723 | Over every run a tick of an idle engine before its deadline emits nothing, changes no route, draws no randomness and alters only the clock, if and only if no usable candidate beats the route selected for its prefix |
| Quiet.DeadlineAhead | go/babel/engine.go:677-723 | Over every run the deadline of an idle engine is strictly later than its clock |
| Quiet.StepSleeps | go/babel/engine.go:677-723 | The same equivalence after any completed step of any valid engine |
| Wraparound.NotQuiet | go/babel/types.go:190 | A concrete run, from a restart on, that leaves the half circle: its engine is idle and its deadline ahead, yet a tick at once changes the forwarding table |
| Traces.WithinCapacity | go/babel/engine.go:203-221 | In every state of every run the distinct prefixes originated, learnt and suppressed, the snapshot and the checkpoint's drops are at most MaxRoutes, and links, sources and requests keep to their limits |
| Crowding.SumExceedsLimit | go/babel/engine.go:213-215 | In a concrete run with room for one prefix, which is learnt and lost, the sum of the admission tests exceeds MaxRoutes although the distinct prefixes do not, and that prefix can no longer be originated |
| Traces.EveryCheckpointRestores | go/babel/checkpoint.go:29-114 | Every checkpoint of every engine a run reaches restores under its own configuration, and a checkpoint of the restored engine is the same value |
| Traces.RestartKeeps | go/babel/checkpoint.go:80-114 | Restoring keeps sequence number, last link and all source distances, each with a full lifetime, and suppresses every forwarded or suppressed prefix for what was left of its hold or longer |
| Traces.AlwaysSelfFeasible | go/babel/engine.go:473-517 | In every state of every run each selected remote route stands on a feasible candidate of its link, strictly closer than the route |
| Traces.HistoryNeverWorsens | go/babel/engine.go:511-516 | Over every run, while a source entry lives and sequence numbers keep to half the circle, the entry stays, its sequence number only rises or its metric falls at an equal one, and its lifetime is never cut short |
| Traces.HistoryDominates | go/babel/engine.go:502-517 | Every finite update a step of a run produces is dominated by the source entry the step leaves, which lives for the full collection time |
| Handover.AlwaysConsistent | go/babel/engine.go:149-184 | Over every run: the committed table is the selected one exactly when no revision is pending, packets are handed out once and in order, withheld ones only after their commit, and revisions strictly increase |
| Handover.FailureIsFinal | go/babel/engine.go:175-180 | After a failed commit the engine never changes again and nothing more is handed out |
| Truth.HandedOutTruthful | go/babel/engine.go:137-184 | Over every run, each finite update handed out by a step, or by the commit of its revision, announces the origin, sequence number and metric of the route selected at that moment, unless the packet of that step asks for routes |
| Truth.StepTruthful | go/babel/engine.go:473-517 | Unless its packet asks for routes, a step produces finite updates for the routes it leaves selected only, and changes the distances in its history to theirs only |
| Holddown.NoSilentFallback | go/babel/engine.go:401-428 | Over every run a prefix reachable in one state is in the forwarding table of every later one, reachable or unreachable, until a full hold after the next move |
| Holddown.RestartHolds | go/babel/checkpoint.go:107-112 | Over every run of a restored engine each prefix its checkpoint names is in the forwarding table from the first step on until a full hold after the restart |
| Restarts.RestartHoldsOut | go/babel/checkpoint.go:30-33 | Such a prefix is unreachable in the forwarding table until the whole hold saved in the checkpoint has run out, as long as no event originates it or brings an admissible update for it that is feasible, or whose candidate would outlive the entry that makes it infeasible |
| Leaf.LeafConfined | go/babel/leaf.go:16-37 | Over every run in which all packets of a link are screened, all candidates through it are for the leaf's own prefix and no other prefix is routed through it |
| Requests.AlwaysBounded | go/babel/engine.go:441-449 | In every state of every run no pending request is settled by the selected route, none is overdue or lives for more than four seconds, and none has more than two sends left or a target twice |
| Requests.PendingBounded | go/babel/engine.go:526-545 | Each pending request a step leaves is one it had, one it had that was due and is sent again, or a new one with distinct targets, exactly two sends left, the next in a second, and four seconds to live |
| Sends.EntrySentThrice | go/babel/engine.go:645-654 | Over every run, as long as a pending request stays the same, the packets carry its message to each of its targets once for each entry its first step made for it and at most twice more |
| Sends.AtMostThreeSends | go/babel/engine.go:645-654 | So one made by a step whose packet asks for nothing is sent to each of its targets at least once and at most three times |
| Sends.ThreeSends | go/babel/engine.go:526-545 | Over every stretch of every run the copies of a request sent to a link, with those still to come, are at least one and at most three for each entry made, and what was left to an earlier one |
| Tally.StepMakesOne | go/babel/engine.go:526-545 | A step whose packet asks for nothing makes at most one entry for a message and a link |
| Triggered.ThreeDumps | go/babel/engine.go:634-644 | In every run that steps no later than the armed trigger, a first selection or a change of origin or reachability is followed by three triggered dumps within 450 milliseconds |
| Triggered.SwitchesOff | go/babel/engine.go:638-643 | In every run that steps no later than the armed trigger, changes no route and has its gates open, the trigger makes exactly the dumps it held, at most three, each in time, and is off from then on |
| Telling.DumpTellsAll | go/babel/engine.go:634-637 | In every run the packets of a step whose trigger was due tell the neighbour on every live link of every selected and suppressed prefix, but for split horizon, gates, missing next hops and a full history |
| Cadence.IntervalsExact | go/babel/types.go:155-168 | The configured bounds make the announced Hello, IHU and update intervals exact on the wire |
| Chores.ThreeBeforeHold | go/babel/engine.go:614-632 | In every run that steps no later than a link's Hello, IHU or update is due, one that was due is in the packets of its step, and three more follow before the hold the neighbour computes from the announced interval runs out |
| Chores.ChoresRecur | go/babel/engine.go:614-632 | In every such run each of them is done k times by the time it is next due and k - 1 intervals more, for every k |
| Chores.WildcardPace | go/babel/engine.go:291-297 | Over every run the answers to wildcard requests on one link are at least a Hello interval apart |
| Chores.AnswerStamps | go/babel/engine.go:291-297 | A wildcard request is answered by a full dump exactly when it leaves its time on the link |
| Clock.TimersFit | go/babel/engine.go:86-91 | In every state of every run the clock and every timer fit in 64-bit nanoseconds, and no timer is more than a day ahead |
| Contentment.StepContented | go/babel/engine.go:380-400 | That condition holds after every completed step if the sequence numbers in use for each source lie in half the circle |
| Contentment.ContentAfterStep | go/babel/engine.go:380-400 | In every run a step whose sequence numbers keep to half the circle leaves no usable candidate better than the route selected |
| Contentment.QuietUntilDeadline | go/babel/engine.go:677-723 | Over every run, after a step whose sequence numbers keep to half the circle, with commits, refusals and early ticks in between, a tick of an idle engine before its deadline emits nothing, changes no route, draws no randomness and alters only the clock |
| Quiet.AlwaysRested | go/babel/engine.go:589-663 | In every run, from the first step on, nothing is ever overdue and the routes are those the tables give |
| Rest.StepRested | go/babel/engine.go:589-663 | A completed step leaves nothing overdue and selects exactly what its candidates, originated and suppressed prefixes give |
| Invariant.StepValid | go/babel/engine.go:79-162 | Every step keeps the invariant: well-formed tables, limits, deadlines, self-feasibility and the commit phase |
| Invariant.CommitValid | go/babel/engine.go:168-184 | So does every commit, successful or not |
| Invariant.ValidateAdmits | go/babel/engine.go:186-230 | What the checks let through before expiry is still admissible after it: room in the tables, a fresh link number, proper values |
| Recovery.CheckpointUnique | go/babel/checkpoint.go:29-75 | The contents of a checkpoint are determined by the engine |
| Recovery.RestoreValid | go/babel/checkpoint.go:80-114 | Whatever checkpoint restores, the engine starts valid at time zero |
| Recovery.RestoredSource | go/babel/checkpoint.go:98-106 | Each saved distance is in the restored table under its key |
| Holddown.StepSecured | go/babel/engine.go:401-428 | A prefix reachable or suppressed until some time stays so through every earlier step, and is in the table the step leaves |
| Holddown.LossHolds | go/babel/engine.go:403-405 | A reachable prefix a step does not leave reachable is suppressed for a full hold |
| Holddown.RestoreSecured | go/babel/checkpoint.go:52-64 | A restart suppresses every forwarded or suppressed prefix for what was left of its hold at least |
| TwoPhase.StepWithholds | go/babel/engine.go:149-162 | Packets are withheld exactly when the forwarding table changed, under a revision greater than all before |
| TwoPhase.RefusedUnchanged | go/babel/engine.go:80-93 | A refused step changes nothing |
| TwoPhase.SnapshotInjective | go/babel/engine.go:738-753 | Equal snapshots mean equal forwarding tables |
| Provenance.WorkSupported | go/babel/engine.go:306-378 | Each finite candidate a step leaves was unexpired before it or came with an update of the packet received on its link |
| Leaf.LeafSeqno | go/babel/engine.go:546-559 | A screened packet advances the router's sequence number only if the leaf's prefix is originated locally |
| Leaf.PassesIff | go/babel/leaf.go:16-37 | The check passes exactly when the configuration is a host prefix on a link-local peer, the packet decodes, and each message keeps to that prefix |
| Leaf.FirstOffence | go/babel/leaf.go:24-35 | The result is the first offence, and none exactly when no message offends |
| Requests.ForwardNarrows | go/babel/engine.go:584-586 | A forwarded request goes to one link other than the sender's, with a smaller, positive hop count |
| Requests.ChainEnds | go/babel/engine.go:560-587 | Along every chain of forwards the hop count falls by one at each router, no request goes back over the link it came by, and there are fewer forwards than the hop count it started with |
| Requests.ForwardRefuses | go/babel/engine.go:560-573 | Requests for the router's own origin, spent hop counts or prefixes never advertised are not forwarded |
| Requests.AnswerFeasible | go/babel/engine.go:241-247 | An update carrying the sequence number asked for is feasible whatever its metric |
| Requests.StarvingAsks | go/babel/engine.go:371-377 | An infeasible update for a prefix without a route leaves a request for the next sequence number, or a newer one, pending |
| Requests.SumStrict | go/babel/types.go:192-198 | Saturating addition of a positive cost is strictly increasing below infinity and monotone in both arguments |
| Triggered.DumpIsFull | go/babel/engine.go:634-637 | A due trigger queues word of every selected prefix for every live link, with the same exemptions |
| Triggered.TickSpends | go/babel/engine.go:638-643 | With no further change and open gates each dump spends one repetition and the last one switches the trigger off |
| Clock.HoldFits | go/babel/types.go:199 | Holds of wire and configured intervals are computed without overflow |
| Arithmetic.WindowOrder | go/babel/types.go:190-191 | In half of the circle the wrapping comparison, and the order on distances built on it, is an integer order |
| Arithmetic.NewerIsCircular | go/babel/types.go:190 | Over the whole circle it is not transitive |
| Rules.Choice | go/babel/engine.go:380-400 | There is a choice as specified: local routes first, otherwise the usable candidate of least metric, ties to the previous link, then to the lowest |
| Rules.ChoiceUnique | go/babel/engine.go:380-400 | The specification leaves no choice open |
| Loops.AnnounceStep | go/babel/engine.go:430-440 | The trigger after the changes of a selection does not depend on the order the map of routes is walked in |
| Loops.SweepStep | go/babel/engine.go:420-428 | Nor do the suppressions left and the unreachable routes made of them depend on the order of the map of drops |
| Loops.RelayUnique | go/babel/engine.go:574-583 | The candidate a request is forwarded through is determined by feasibility, metric and link |
| Engine.Engine.Jitter | go/babel/engine.go:461-466 | Advances the random state and yields a value from zero to the maximum |
| Engine.Engine.ScheduleTrigger | go/babel/engine.go:452-460 | Arms the trigger unless it is armed, and restarts its repetitions on demand |
| Engine.Engine.Queue | go/babel/engine.go:467-471 | Appends a message to the queue of a live link |
| Engine.Engine.Advertise | go/babel/engine.go:473-518 | Advertises one prefix on one link: retraction, gate, split horizon, next hop, history limit, history, message |
| Engine.Engine.Record | go/babel/engine.go:502-516 | Lowers the recorded distance if the new one is better and restarts its lifetime |
| Engine.Engine.Dump | go/babel/engine.go:519-523 | Advertises every selected prefix in order |
| Engine.Engine.Request | go/babel/engine.go:526-545 | Keeps at most one entry for a source, the newest, and sends it to its sorted distinct targets |
| Engine.Engine.Choose | go/babel/engine.go:380-400 | The single pass over the sorted candidates yields the specified choice |
| Engine.Engine.LossTargets | go/babel/engine.go:407-413 | The links a lost source is asked for again on |
| Engine.Engine.LoseRoutes | go/babel/engine.go:401-419 | Suppresses, announces and asks again for every route lost |
| Engine.Engine.SweepDrops | go/babel/engine.go:420-428 | Drops expired and replaced suppressions and keeps the others as unreachable routes, in any order |
| Engine.Engine.AnnounceChanges | go/babel/engine.go:430-440 | Arms the trigger for every change, in any order |
| Engine.Engine.AnswerRequests | go/babel/engine.go:441-449 | Answers and forgets the requests that are settled |
| Engine.Engine.SelectRoutes | go/babel/engine.go:380-450 | The whole of route selection |
| Engine.Engine.Learn | go/babel/engine.go:348-370 | Enters or replaces a candidate, arming the trigger when its origin changes |
| Engine.Engine.ReceiveUpdate | go/babel/engine.go:306-378 | An update: retraction, admission tests in order, candidate, and a request when it is infeasible but wanted |
| Engine.Engine.RetractLink | go/babel/engine.go:310-317 | A wildcard retraction withdraws all candidates of its link and no others |
| Engine.Engine.BestRelay | go/babel/engine.go:574-583 | The candidate to forward a request through |
| Engine.Engine.ReceiveSeqRequest | go/babel/engine.go:546-587 | A sequence-number request: answer, renew or forward |
| Engine.Engine.ReceiveMessage | go/babel/engine.go:267-304 | One message of a packet |
| Engine.Engine.ReceivePacket | go/babel/engine.go:120-142 | A packet as one atomic input, selecting routes before each request |
| Engine.Engine.AddLink | go/babel/engine.go:99-106 | A new link, all its timers due |
| Engine.Engine.RemoveLink | go/babel/engine.go:107-115 | Removes a link, its queue, and its candidates after a hold |
| Engine.Engine.SetCost | go/babel/engine.go:116-119 | Sets the cost of a live link |
| Engine.Engine.Originate | go/babel/engine.go:143-145 | Originates a prefix and lifts its suppression |
| Engine.Engine.Withdraw | go/babel/engine.go:146-147 | Withdraws a prefix |
| Engine.Engine.Expire | go/babel/engine.go:589-610 | Ages candidates, collects sources and requests, in any order |
| Engine.Engine.HelloTimer | go/babel/engine.go:614-620 | The periodic Hello of a link |
| Engine.Engine.IHUTimer | go/babel/engine.go:621-628 | The periodic IHU of a link |
| Engine.Engine.UpdateTimer | go/babel/engine.go:629-632 | The periodic dump of a link |
| Engine.Engine.TriggerTimer | go/babel/engine.go:634-644 | The triggered dumps and their repetition |
| Engine.Engine.RequestTimer | go/babel/engine.go:645-654 | The repetitions of pending requests |
| Engine.Engine.RefreshTimer | go/babel/engine.go:655-662 | The request that refreshes a selected candidate before it expires |
| Engine.Engine.RunTimers | go/babel/engine.go:611-663 | All timers |
| Engine.Engine.Flush | go/babel/engine.go:665-675 | Collects the queues of the live links in order and empties them |
| Engine.Engine.RouteSnapshot | go/babel/engine.go:738-753 | The selected routes in prefix order |
| Engine.Engine.Step | go/babel/engine.go:79-162 | One step: refusals, expiry, event, selection, timers, and the packets released or withheld; the invariant is kept |
| Engine.Engine.Commit | go/babel/engine.go:168-184 | Releases the withheld packets, or stops for good; the invariant is kept |
| Engine.Engine.NextDeadline | go/babel/engine.go:677-723 | The earliest timer still ahead, or the clock when the trigger is due, whatever order the tables are walked in |
| Engine.Engine.New | go/babel/types.go:145-188 | Defaults, bounds and the empty engine, which satisfies the invariant |
| Engine.Engine.Checkpoint | go/babel/checkpoint.go:29-75 | The safety history, sorted and free of duplicates; that of a valid engine restores |
| Engine.Engine.LongestDrop | go/babel/checkpoint.go:30-33 | The longest remaining hold, at least a full one |
| Engine.Engine.RestoreSources | go/babel/checkpoint.go:98-106 | Fills the history, refusing malformed and duplicate entries |
| Engine.Engine.RestoreDrops | go/babel/checkpoint.go:107-112 | Fills the suppressions, refusing malformed prefixes |
| Engine.Engine.Restore | go/babel/checkpoint.go:80-114 | The checks of a checkpoint in order and the engine restored from it, which satisfies the invariant |

## Left out

- The wire codec (`internal/wire`): a packet is its size and the messages the decoder delivers; the guarantees of section 4.6 of RFC 8966 that the proofs need (positive intervals, proper router IDs of finite updates and sequence-number requests, positive hop counts) are the predicate `Types.Decodable`.
- Engine.Engine.Flush: yields one datagram for each link with queued messages, in link order and with the messages in theirs; the packing of those messages under the payload budget belongs to the wire codec.
- `Counters`, `Snapshot` and error texts, which only report.
- `routerid.go`, the mobile and C bindings, the simulator and the command-line oracle, which do no routing.
- Pointers into tables: entries are values that methods put back into their maps, so the aliasing of a `*linkState` or `*candidate` held across calls is not captured.
- Sorting algorithms: the sorted walks are functions specified by their order and contents.
- Wrap-around of the 64-bit revision counter: revisions are unbounded.
- An event of an unknown type, which the closed set of events excludes.
- Quality of the random generator: only the range of `jitter` and its dependence on the state are used.
- Address classes beyond the predicates the engine consults; a prefix is a family, a value and a length.
- Convergence of a network: it needs fairness and topology assumptions the code does not make.
- Policy deadlines: `NextDeadline` cannot see when a callback's answer changes, so its theorem fixes the callbacks.
- LoopFreedom.LoopFree: says nothing of cycles through routes of different origins for one prefix, which section 2.7 of RFC 8966 allows for a moment.
- Triggered.ThreeDumps: counts steps in which the trigger is due; a dump that an update timer makes in the same step is not counted.
- Chores.ThreeBeforeHold: the update counted tells of every prefix but for the exemptions of `Telling.Informed`; whether the neighbour receives it is the link's concern.
- Clock.TimersFit: states bounds on stored timers; intermediate sums are covered by the day's margin of the time guard and by `Clock.HoldFits`.
- Tightness.BoundIsTight: exhibits runs whose update interval is a minute.
