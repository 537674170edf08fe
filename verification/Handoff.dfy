/** The protocol-v2 listener handoff as interleaved steps of the parent's serve loop, the request
    that prepares a replacement, the commit thread, and the replacement processes. A time-out, a
    lost pipe and a failed check are the same step: the awaited reply does not arrive.
    The exit of the launched process is the exit of the replacement runtime. */
module Handoff {

  type ChildId = nat

  datatype SessionState =
    | Idle | Preparing | Ready | Committing | Serving | Finalizing | Finalized | Aborting | RolledBack

  /** The explicit transition table. */
  predicate Edge(from: SessionState, to: SessionState) {
    match from
    case Idle => to == Preparing
    case Preparing => to == Ready || to == Aborting
    case Ready => to == Committing || to == Aborting
    case Committing => to == Serving || to == Aborting
    case Serving => to == Finalizing || to == Aborting
    case Finalizing => to == Finalized || to == Aborting
    case Finalized => to == Idle
    case Aborting => to == RolledBack
    case RolledBack => to == Idle
  }

  datatype Outcome = NoOutcome | OutFinalized | OutRolledBack | OutUnconfirmed

  /** The parent's serve loop: inside `serve_forever` (Entered to Cleared), waiting for an
      outcome, having read a rollback, about to serve again, or finished. */
  datatype LoopPc = Entered | Selecting | Accepting | Leaving | Cleared | Waiting | SawRollback | Resuming | Stopped

  datatype PreparePc = NoPrepare | Spawning | Started(child: ChildId) | AwaitingReady(child: ChildId)
                     | PrepareAborting(child: ChildId) | PrepareAborted

  datatype CommitPc = NoCommit | Begun(child: ChildId) | Stopping(child: ChildId) | StopRequested(child: ChildId)
                    | AcceptStopped(child: ChildId) | AwaitingServing(child: ChildId) | SawServing(child: ChildId)
                    | AwaitingFinalized(child: ChildId) | SawFinalized(child: ChildId)
                    | CommitFailed(child: ChildId, stopped: bool) | CommitAborting(child: ChildId, stopped: bool)
                    | Settling(child: ChildId, outcome: Outcome, stopped: bool)

  /** `stopped` above is the commit's own record that the accept loop had stopped. */
  datatype Order = PrepareOrder | CommitOrder | FinalizeOrder | AbortOrder
  datatype Reply = StartedReply | ReadyReply | ServingReply | FinalizedReply

  datatype ChildPc = Launched | AwaitingPrepare | AwaitingCommit | Probing | AwaitingFinalize | HandedOver | Failing

  /** `committed`: it has read COMMIT, so its accept loop may run until the process exits. */
  datatype Child = Child(alive: bool, pc: ChildPc, inbox: seq<Order>, outbox: seq<Reply>, committed: bool,
                         finalized: bool)

  datatype State = State(
    session: SessionState,
    outcome: Outcome,
    loop: LoopPc,
    stopRequest: bool,
    isShutDown: bool,
    prepare: PreparePc,
    commit: CommitPc,
    lateFinals: nat,
    lateStops: nat,
    current: seq<ChildId>,
    children: map<ChildId, Child>)

  // `lateFinals`: commits that have seen their replacement finalize, were overtaken by another request,
  // and are still to record the outcome. `lateStops`: failed commits that have recorded an outcome and
  // still owe the shutdown of an accept loop they never saw stop.

  /** A process serves: either the first one, or a replacement that took over (`Finalized`). */
  predicate Initial(s: State) {
    && (s.session == Idle || s.session == Finalized) && s.outcome == NoOutcome
    && s.loop == Entered && !s.stopRequest && !s.isShutDown
    && s.prepare == NoPrepare && s.commit == NoCommit && s.lateFinals == 0 && s.lateStops == 0 && s.current == []
    && s.children == map[]
  }

  predicate InServeForever(pc: LoopPc) {
    pc == Entered || pc == Selecting || pc == Accepting || pc == Leaving || pc == Cleared
  }

  /** The parent's accept loop is past its stop check. */
  predicate ParentAccepts(s: State) {
    s.loop == Selecting || s.loop == Accepting
  }

  predicate ChildAccepts(c: Child) {
    c.alive && c.committed
  }

  datatype Action =
    // the serve loop
    | LoopCheck | LoopSelected | LoopHandled | LoopClear | LoopLeave | LoopWake | LoopReset | LoopResume
    // the request that prepares a replacement
    | Admit | Spawn(child: ChildId) | SpawnFails | SendPrepare | ReadyArrives | ReadyFails
    | PrepareAbortConfirmed | PrepareAbortUnconfirmed | PrepareReset
    // the commit thread
    | BeginCommit | RequestStop | StopObserved | StopRaises | SendCommit | SendCommitFails
    | ServingArrives | SendFinalize | FinalizedArrives | ReplyFails | RecordFinalized | LateRecord
    | BeginAbort | AbortConfirmed | AbortUnconfirmed | RecordOutcome | LateStop
    // a replacement process
    | ChildStarts(c: ChildId) | ChildReads(c: ChildId) | ChildProves(c: ChildId) | ChildFails(c: ChildId)
    | ChildExits(c: ChildId)

  function Put(s: State, c: ChildId, child: Child): State {
    s.(children := s.children[c := child])
  }

  function Send(s: State, c: ChildId, order: Order): State
    requires c in s.children
  {
    Put(s, c, s.children[c].(inbox := s.children[c].inbox + [order]))
  }

  predicate Has(s: State, c: ChildId, reply: Reply) {
    c in s.children && s.children[c].outbox != [] && s.children[c].outbox[0] == reply
  }

  function Take(s: State, c: ChildId): State
    requires c in s.children && s.children[c].outbox != []
  {
    Put(s, c, s.children[c].(outbox := s.children[c].outbox[1..]))
  }

  /** The record a commit still owes when another request is admitted over it. */
  function Owed(pc: CommitPc): nat {
    if pc.SawFinalized? then 1 else 0
  }

  predicate Awaits(pc: CommitPc) {
    pc.AwaitingServing? || pc.AwaitingFinalized?
  }

  predicate LoopGuard(s: State, a: Action) {
    match a
    case LoopCheck => s.loop == Entered
    case LoopSelected => s.loop == Selecting
    case LoopHandled => s.loop == Accepting
    case LoopClear => s.loop == Leaving
    case LoopLeave => s.loop == Cleared
    case LoopWake => s.loop == Waiting
    case LoopReset => s.loop == SawRollback
    case LoopResume => s.loop == Resuming
    case _ => false
  }

  function LoopStep(s: State, a: Action): State
    requires LoopGuard(s, a)
  {
    match a
    case LoopCheck => s.(loop := if s.stopRequest then Leaving else Selecting)
    case LoopSelected => s.(loop := if s.stopRequest then Leaving else Accepting)
    case LoopHandled => s.(loop := Entered)
    case LoopClear => s.(loop := Cleared, stopRequest := false)
    case LoopLeave => s.(loop := Waiting, isShutDown := true)
    case LoopWake => s.(loop := if s.outcome == OutRolledBack then SawRollback else Stopped)
    case LoopReset => s.(loop := Resuming, session := Idle, outcome := NoOutcome)
    case LoopResume => s.(loop := Entered, isShutDown := false)
    case _ => s
  }

  predicate PrepareGuard(s: State, a: Action) {
    match a
    case Admit => s.prepare == NoPrepare && (s.session == Idle || s.session == Finalized)
    case Spawn(c) => s.prepare == Spawning && c !in s.children
    case SpawnFails => s.prepare == Spawning || s.prepare.Started?
    case SendPrepare => s.prepare.Started? && Has(s, s.prepare.child, StartedReply)
    case ReadyArrives => s.prepare.AwaitingReady? && Has(s, s.prepare.child, ReadyReply)
    case ReadyFails => s.prepare.AwaitingReady? && s.prepare.child in s.children
    case PrepareAbortConfirmed =>
      s.prepare.PrepareAborting? && s.prepare.child in s.children && !s.children[s.prepare.child].alive
    case PrepareAbortUnconfirmed => s.prepare.PrepareAborting?
    case PrepareReset => s.prepare.PrepareAborted?
    case _ => false
  }

  function PrepareStep(s: State, a: Action): State
    requires PrepareGuard(s, a)
  {
    match a
    case Admit =>
      s.(session := Preparing, outcome := NoOutcome, prepare := Spawning, current := [],
         lateFinals := s.lateFinals + Owed(s.commit), commit := if s.commit.SawFinalized? then NoCommit else s.commit)
    case Spawn(c) =>
      Put(s.(prepare := Started(c), current := [c]), c, Child(true, Launched, [], [], false, false))
    // the child, if any, may survive the attempts to stop it, but its pipe is gone
    case SpawnFails => s.(prepare := NoPrepare, session := Idle, current := [])
    case SendPrepare => Send(Take(s, s.prepare.child).(prepare := AwaitingReady(s.prepare.child)), s.prepare.child,
                             PrepareOrder)
    case ReadyArrives =>
      Take(s, s.prepare.child).(session := Ready, prepare := NoPrepare, commit := Begun(s.prepare.child))
    case ReadyFails => Send(s.(session := Aborting, prepare := PrepareAborting(s.prepare.child)), s.prepare.child,
                            AbortOrder)
    case PrepareAbortConfirmed => s.(session := RolledBack, prepare := PrepareAborted)
    case PrepareAbortUnconfirmed => s.(prepare := NoPrepare)
    case PrepareReset => s.(session := Idle, prepare := NoPrepare)
    case _ => s
  }

  predicate CommitGuard(s: State, a: Action) {
    match a
    case BeginCommit => s.commit.Begun?
    case RequestStop => s.commit.Stopping?
    case StopObserved => s.commit.StopRequested? && s.isShutDown
    case StopRaises => s.commit.Stopping? || s.commit.StopRequested?
    case SendCommit => s.commit.AcceptStopped? && s.commit.child in s.children
    case SendCommitFails => s.commit.AcceptStopped?
    case ServingArrives => s.commit.AwaitingServing? && Has(s, s.commit.child, ServingReply)
    case SendFinalize => s.commit.SawServing? && s.commit.child in s.children
    case FinalizedArrives => s.commit.AwaitingFinalized? && Has(s, s.commit.child, FinalizedReply)
    case ReplyFails => Awaits(s.commit) || s.commit.SawServing?
    case RecordFinalized => s.commit.SawFinalized?
    case LateRecord => s.lateFinals > 0
    case BeginAbort => s.commit.CommitFailed? && s.commit.child in s.children
    case AbortConfirmed => s.commit.CommitAborting? && s.commit.child in s.children && !s.children[s.commit.child].alive
    case AbortUnconfirmed => s.commit.CommitAborting?
    case RecordOutcome => s.commit.Settling?
    case LateStop => s.lateStops > 0
    case _ => false
  }

  function CommitStep(s: State, a: Action): State
    requires CommitGuard(s, a)
  {
    match a
    case BeginCommit => s.(session := Committing, commit := Stopping(s.commit.child))
    case RequestStop => s.(stopRequest := true, commit := StopRequested(s.commit.child))
    case StopObserved => s.(commit := AcceptStopped(s.commit.child))
    case StopRaises => s.(commit := CommitFailed(s.commit.child, false))
    case SendCommit => Send(s.(commit := AwaitingServing(s.commit.child)), s.commit.child, CommitOrder)
    case SendCommitFails => s.(commit := CommitFailed(s.commit.child, true))
    case ServingArrives => Take(s, s.commit.child).(session := Serving, commit := SawServing(s.commit.child))
    case SendFinalize => Send(s.(session := Finalizing, commit := AwaitingFinalized(s.commit.child)), s.commit.child,
                              FinalizeOrder)
    case FinalizedArrives => Take(s, s.commit.child).(session := Finalized, commit := SawFinalized(s.commit.child))
    case ReplyFails => s.(session := if s.commit.SawServing? then Finalizing else s.session,
                          commit := CommitFailed(s.commit.child, true))
    case RecordFinalized => s.(outcome := OutFinalized, commit := NoCommit)
    case LateRecord => s.(outcome := OutFinalized, lateFinals := s.lateFinals - 1)
    case BeginAbort => Send(s.(session := Aborting, commit := CommitAborting(s.commit.child, s.commit.stopped)),
                            s.commit.child, AbortOrder)
    case AbortConfirmed => s.(session := RolledBack,
                              commit := Settling(s.commit.child, OutRolledBack, s.commit.stopped))
    case AbortUnconfirmed => s.(commit := Settling(s.commit.child, OutUnconfirmed, s.commit.stopped))
    case RecordOutcome =>
      s.(outcome := s.commit.outcome, commit := NoCommit, lateStops := s.lateStops + if s.commit.stopped then 0 else 1)
    case LateStop => s.(stopRequest := true, lateStops := s.lateStops - 1)
    case _ => s
  }

  predicate ChildGuard(s: State, a: Action) {
    match a
    case ChildStarts(c) => c in s.children && s.children[c].alive && s.children[c].pc == Launched
    case ChildReads(c) => c in s.children && s.children[c].alive && s.children[c].inbox != []
                          && (s.children[c].pc == AwaitingPrepare || s.children[c].pc == AwaitingCommit
                              || s.children[c].pc == AwaitingFinalize)
    case ChildProves(c) => c in s.children && s.children[c].alive && s.children[c].pc == Probing
    case ChildFails(c) => c in s.children && s.children[c].alive
    case ChildExits(c) => c in s.children
    case _ => false
  }

  /** The replacement holds the listener dormant until it reads COMMIT, then serves. */
  function ChildRead(c: Child): Child
    requires c.inbox != []
  {
    var order, rest := c.inbox[0], c.(inbox := c.inbox[1..]);
    if c.pc == AwaitingPrepare && order == PrepareOrder then rest.(pc := AwaitingCommit,
                                                                   outbox := c.outbox + [ReadyReply])
    else if c.pc == AwaitingCommit && order == CommitOrder then rest.(pc := Probing, committed := true)
    else if c.pc == AwaitingFinalize && order == FinalizeOrder then
      rest.(pc := HandedOver, outbox := c.outbox + [FinalizedReply], finalized := true)
    else rest.(pc := Failing)
  }

  function ChildStep(s: State, a: Action): State
    requires ChildGuard(s, a)
  {
    match a
    case ChildStarts(c) => Put(s, c,
                               s.children[c].(pc := AwaitingPrepare, outbox := s.children[c].outbox + [StartedReply]))
    case ChildReads(c) => Put(s, c, ChildRead(s.children[c]))
    case ChildProves(c) => Put(s, c,
                               s.children[c].(pc := AwaitingFinalize, outbox := s.children[c].outbox + [ServingReply]))
    case ChildFails(c) => Put(s, c, s.children[c].(pc := Failing))
    case ChildExits(c) => Put(s, c, s.children[c].(alive := false))
    case _ => s
  }

  predicate Guard(s: State, a: Action) {
    LoopGuard(s, a) || PrepareGuard(s, a) || CommitGuard(s, a) || ChildGuard(s, a)
  }

  /** Every action belongs to one actor and has one effect. */
  function Do(s: State, a: Action): State
    requires Guard(s, a)
  {
    if LoopGuard(s, a) then LoopStep(s, a)
    else if PrepareGuard(s, a) then PrepareStep(s, a)
    else if CommitGuard(s, a) then CommitStep(s, a)
    else ChildStep(s, a)
  }

  predicate Step(s: State, a: Action, t: State) {
    Guard(s, a) && t == Do(s, a)
  }

  predicate IsRun(run: seq<State>, actions: seq<Action>) {
    && |run| == |actions| + 1 && Initial(run[0])
    && forall i :: 0 <= i < |actions| ==> Step(run[i], actions[i], run[i + 1])
  }
}
