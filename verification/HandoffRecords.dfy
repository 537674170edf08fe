/** What becomes of every handoff: each one that got ready is recorded exactly once, and each wait of a
    commit may end in a rollback. */
module HandoffRecords {
  import opened Handoff
  import opened HandoffSafety
  import opened HandoffLimits
  import opened HandoffProgress
  import opened Wrappers

  /** How many of these actions are of one of these kinds. */
  function Tally(actions: seq<Action>, kinds: set<Action>): nat {
    if actions == [] then 0
    else Tally(actions[..|actions| - 1], kinds) + One(actions[|actions| - 1] in kinds)
  }

  function One(b: bool): nat {
    if b then 1 else 0
  }

  const Records: set<Action> := {RecordFinalized, LateRecord, RecordOutcome}

  /** Commits under way, overtaken ones included. */
  function UnderWay(s: State): nat {
    s.lateFinals + One(s.commit != NoCommit)
  }

  /** Commits that have seen their replacement finalize and have not said so yet. */
  function Owing(s: State): nat {
    s.lateFinals + One(s.commit.SawFinalized?)
  }

  /** Failed commits that have not stopped the accept loop and still owe it. */
  function OwingStop(s: State): nat {
    s.lateStops
    + One((s.commit.CommitFailed? || s.commit.CommitAborting? || s.commit.Settling?) && !s.commit.stopped)
  }

  predicate RecordBalance(s: State, a: Action, t: State) {
    UnderWay(s) + One(a == ReadyArrives) == UnderWay(t) + One(a in Records)
  }

  predicate FinalBalance(s: State, a: Action, t: State) {
    Owing(s) + One(a == FinalizedArrives) == Owing(t) + One(a == RecordFinalized || a == LateRecord)
  }

  predicate StopBalance(s: State, a: Action, t: State) {
    OwingStop(s) + One(a == StopRaises) == OwingStop(t) + One(a == LateStop)
  }

  predicate Balances(s: State, a: Action, t: State) {
    RecordBalance(s, a, t) && FinalBalance(s, a, t) && StopBalance(s, a, t)
  }

  /** Nothing is owed or recorded in this step. */
  predicate Unrelated(s: State, a: Action, t: State) {
    && t.commit == s.commit && t.lateFinals == s.lateFinals && t.lateStops == s.lateStops
    && a != ReadyArrives && a != FinalizedArrives && a != StopRaises && a != LateStop
    && a != RecordFinalized && a != LateRecord && a != RecordOutcome
  }

  lemma UnrelatedBalances(s: State, a: Action, t: State)
    requires Unrelated(s, a, t)
    ensures Balances(s, a, t)
  {
  }

  lemma LoopBalances(s: State, a: Action)
    requires LoopGuard(s, a)
    ensures Unrelated(s, a, LoopStep(s, a))
  {
  }

  lemma PrepareBalances(s: State, a: Action)
    requires PrepareGuard(s, a) && a != Admit && a != ReadyArrives
    ensures Unrelated(s, a, PrepareStep(s, a))
  {
  }

  lemma AdmitBalances(s: State)
    requires CommitOk(s) && PrepareGuard(s, Admit)
    ensures Balances(s, Admit, PrepareStep(s, Admit))
  {
    hide Exited;
  }

  lemma ReadyBalances(s: State)
    requires PrepareOk(s) && PrepareGuard(s, ReadyArrives)
    ensures Balances(s, ReadyArrives, PrepareStep(s, ReadyArrives))
  {
  }

  lemma CommitRecords(s: State, a: Action)
    requires CommitGuard(s, a)
    ensures RecordBalance(s, a, CommitStep(s, a))
  {
  }

  lemma CommitFinals(s: State, a: Action)
    requires CommitGuard(s, a)
    ensures FinalBalance(s, a, CommitStep(s, a))
  {
  }

  lemma CommitStops(s: State, a: Action)
    requires CommitGuard(s, a)
    ensures StopBalance(s, a, CommitStep(s, a))
  {
  }

  lemma ChildBalances(s: State, a: Action)
    requires ChildGuard(s, a)
    ensures Unrelated(s, a, ChildStep(s, a))
  {
    hide ChildRead;
  }

  lemma StepBalances(s: State, a: Action, t: State)
    requires Core(s) && Step(s, a, t)
    ensures Balances(s, a, t)
  {
    hide LoopGuard, PrepareGuard, CommitGuard, ChildGuard, LoopStep, PrepareStep, CommitStep, ChildStep, LoopOk,
         OutcomeOk, BarrierOk, CommitOk, PrepareOk, RecordBalance, FinalBalance, StopBalance, Unrelated;
    if LoopGuard(s, a) {
      LoopBalances(s, a);
      UnrelatedBalances(s, a, t);
    } else if PrepareGuard(s, a) {
      if a == Admit {
        AdmitBalances(s);
      } else if a == ReadyArrives {
        ReadyBalances(s);
      } else {
        PrepareBalances(s, a);
        UnrelatedBalances(s, a, t);
      }
    } else if CommitGuard(s, a) {
      CommitRecords(s, a);
      CommitFinals(s, a);
      CommitStops(s, a);
    } else {
      ChildBalances(s, a);
      UnrelatedBalances(s, a, t);
    }
  }

  /** In every run the replacements that got ready are as many as the outcomes recorded and the commits
      under way: no handoff is recorded twice, and none is forgotten. */
  lemma {:induction false} EachHandoffIsRecorded(run: seq<State>, actions: seq<Action>, i: nat)
    requires IsRun(run, actions) && i < |run|
    ensures Tally(actions[..i], {ReadyArrives}) == Tally(actions[..i], Records) + UnderWay(run[i])
  {
    hide Core, Step;
    if i > 0 {
      EachHandoffIsRecorded(run, actions, i - 1);
      RunKeeps(run, actions, i - 1);
      StepBalances(run[i - 1], actions[i - 1], run[i]);
      assert actions[..i][..i - 1] == actions[..i - 1];
    }
  }

  /** In every run each replacement seen to finalize is recorded as finalized once, or still to be. */
  lemma {:induction false} EachFinalizedIsRecorded(run: seq<State>, actions: seq<Action>, i: nat)
    requires IsRun(run, actions) && i < |run|
    ensures Tally(actions[..i], {FinalizedArrives}) ==
      Tally(actions[..i], {RecordFinalized, LateRecord}) + Owing(run[i])
  {
    hide Core, Step;
    if i > 0 {
      EachFinalizedIsRecorded(run, actions, i - 1);
      RunKeeps(run, actions, i - 1);
      StepBalances(run[i - 1], actions[i - 1], run[i]);
      assert actions[..i][..i - 1] == actions[..i - 1];
    }
  }

  /** In every run each stop that failed is made good once, or still to be. */
  lemma {:induction false} EachStopIsMadeGood(run: seq<State>, actions: seq<Action>, i: nat)
    requires IsRun(run, actions) && i < |run|
    ensures Tally(actions[..i], {StopRaises}) == Tally(actions[..i], {LateStop}) + OwingStop(run[i])
  {
    hide Core, Step;
    if i > 0 {
      EachStopIsMadeGood(run, actions, i - 1);
      RunKeeps(run, actions, i - 1);
      StepBalances(run[i - 1], actions[i - 1], run[i]);
      assert actions[..i][..i - 1] == actions[..i - 1];
    }
  }

  lemma RecordSays(s: State, a: Action, t: State)
    requires Core(s) && Step(s, a, t) && a in Records
    ensures a != RecordOutcome ==> t.outcome == OutFinalized
    ensures a == RecordOutcome ==>
      s.commit.Settling? && t.outcome == if s.session == RolledBack then OutRolledBack else OutUnconfirmed
  {
    hide BarrierOk, LoopOk, OutcomeOk, Exited;
  }

  /** In every run a record says what happened: finalized, or, after an abort, whether the exit was confirmed. */
  lemma RecordsSay(run: seq<State>, actions: seq<Action>, i: nat)
    requires IsRun(run, actions) && i < |actions| && actions[i] in Records
    ensures run[i + 1].outcome ==
      if actions[i] != RecordOutcome then OutFinalized
      else if run[i].session == RolledBack then OutRolledBack
      else OutUnconfirmed
  {
    hide Core, Step;
    RunKeeps(run, actions, i);
    RecordSays(run[i], actions[i], run[i + 1]);
  }

  // ---- replacements

  predicate SameButMail(c: Child, d: Child) {
    c.alive == d.alive && c.pc == d.pc && c.committed == d.committed && c.finalized == d.finalized
  }

  /** The order a replacement waits for, and where it takes it. */
  function Expected(pc: ChildPc): Option<(Order, ChildPc)> {
    match pc
    case AwaitingPrepare => Some((PrepareOrder, AwaitingCommit))
    case AwaitingCommit => Some((CommitOrder, Probing))
    case AwaitingFinalize => Some((FinalizeOrder, HandedOver))
    case _ => None
  }

  /** The start of serving is proved before it is reported. */
  function RepliesTo(order: Order): seq<Reply> {
    match order
    case PrepareOrder => [ReadyReply]
    case FinalizeOrder => [FinalizedReply]
    case _ => []
  }

  /** It goes on with that order and fails with any other, without a reply and without taking anything on. */
  lemma ObeysExpected(c: Child)
    requires c.inbox != []
    ensures var d := ChildRead(c);
      if Expected(c.pc).Some? && c.inbox[0] == Expected(c.pc).value.0 then
        && d.pc == Expected(c.pc).value.1
        && d.committed == (c.committed || c.inbox[0] == CommitOrder)
        && d.finalized == (c.finalized || c.inbox[0] == FinalizeOrder)
        && d.outbox == c.outbox + RepliesTo(c.inbox[0])
      else d == c.(pc := Failing, inbox := c.inbox[1..])
    ensures ChildRead(c).inbox == c.inbox[1..] && ChildRead(c).alive == c.alive
  {
  }

  /** A replacement that fails goes no further, and still accepts until it exits. */
  lemma FailureIsNoExit(s: State, t: State, c: ChildId)
    requires Step(s, ChildFails(c), t)
    ensures t == Put(s, c, t.children[c]) && t.children[c].pc == Failing
    ensures c in s.children && ChildAccepts(t.children[c]) == ChildAccepts(s.children[c])
  {
  }

  predicate StillDead(s: State, t: State, c: ChildId) {
    Exited(s, c) && Exited(t, c) && SameButMail(s.children[c], t.children[c])
  }

  lemma DeadToPreparation(s: State, a: Action, c: ChildId)
    requires Exited(s, c) && PrepareGuard(s, a)
    ensures StillDead(s, PrepareStep(s, a), c)
  {
  }

  lemma DeadToCommit(s: State, a: Action, c: ChildId)
    requires Exited(s, c) && CommitGuard(s, a)
    ensures StillDead(s, CommitStep(s, a), c)
  {
  }

  lemma DeadItself(s: State, a: Action, c: ChildId)
    requires Exited(s, c) && ChildGuard(s, a)
    ensures StillDead(s, ChildStep(s, a), c)
  {
    hide ChildRead;
  }

  lemma DeadToLoop(s: State, a: Action, c: ChildId)
    requires Exited(s, c) && LoopGuard(s, a)
    ensures StillDead(s, LoopStep(s, a), c)
  {
  }

  lemma DeadStays(s: State, a: Action, t: State, c: ChildId)
    requires Step(s, a, t) && Exited(s, c)
    ensures StillDead(s, t, c)
  {
    hide LoopGuard, PrepareGuard, CommitGuard, ChildGuard, LoopStep, PrepareStep, CommitStep, ChildStep, StillDead;
    if LoopGuard(s, a) {
      DeadToLoop(s, a, c);
    } else if PrepareGuard(s, a) {
      DeadToPreparation(s, a, c);
    } else if CommitGuard(s, a) {
      DeadToCommit(s, a, c);
    } else {
      DeadItself(s, a, c);
    }
  }

  /** In every run a replacement that has exited does nothing more. */
  lemma {:induction false} ExitIsFinal(run: seq<State>, actions: seq<Action>, i: nat, j: nat, c: ChildId)
    requires IsRun(run, actions) && i <= j < |run| && Exited(run[i], c)
    ensures StillDead(run[i], run[j], c)
  {
    hide Step;
    if i < j {
      ExitIsFinal(run, actions, i, j - 1, c);
      DeadStays(run[j - 1], actions[j - 1], run[j], c);
    }
  }

  predicate Populates(s: State, a: Action, t: State) {
    && t.children.Keys == s.children.Keys + (if a.Spawn? then {a.child} else {})
    && (a.Spawn? ==> a.child !in s.children && s.prepare == Spawning && t.prepare == Started(a.child))
    && (t.prepare == Spawning ==> a == Admit || (s.prepare == Spawning && !a.Spawn?))
  }

  lemma LoopPopulates(s: State, a: Action)
    requires LoopGuard(s, a)
    ensures Populates(s, a, LoopStep(s, a))
  {
  }

  lemma PreparePopulates(s: State, a: Action)
    requires PrepareGuard(s, a)
    ensures Populates(s, a, PrepareStep(s, a))
  {
  }

  lemma CommitPopulates(s: State, a: Action)
    requires CommitGuard(s, a)
    ensures Populates(s, a, CommitStep(s, a))
  {
  }

  lemma ChildPopulates(s: State, a: Action)
    requires ChildGuard(s, a)
    ensures Populates(s, a, ChildStep(s, a))
  {
    hide ChildRead;
  }

  lemma ChildrenStay(s: State, a: Action, t: State)
    requires Step(s, a, t)
    ensures Populates(s, a, t)
  {
    hide LoopGuard, PrepareGuard, CommitGuard, ChildGuard, LoopStep, PrepareStep, CommitStep, ChildStep, Populates;
    if LoopGuard(s, a) {
      LoopPopulates(s, a);
    } else if PrepareGuard(s, a) {
      PreparePopulates(s, a);
    } else if CommitGuard(s, a) {
      CommitPopulates(s, a);
    } else {
      ChildPopulates(s, a);
    }
  }

  lemma {:induction false} ChildrenRemain(run: seq<State>, actions: seq<Action>, i: nat, j: nat)
    requires IsRun(run, actions) && i <= j < |run|
    ensures run[i].children.Keys <= run[j].children.Keys
  {
    hide Step;
    if i < j {
      ChildrenRemain(run, actions, i, j - 1);
      ChildrenStay(run[j - 1], actions[j - 1], run[j]);
    }
  }

  /** In every run every replacement is a new process: no identity is used twice. */
  lemma EachChildIsNew(run: seq<State>, actions: seq<Action>, i: nat, j: nat)
    requires IsRun(run, actions) && i < j < |actions| && actions[i].Spawn? && actions[j].Spawn?
    ensures actions[i].child != actions[j].child
  {
    hide Step;
    ChildrenStay(run[i], actions[i], run[i + 1]);
    ChildrenRemain(run, actions, i + 1, j);
    ChildrenStay(run[j], actions[j], run[j + 1]);
  }

  /** In every run there are at most as many replacements as admitted requests. */
  lemma {:induction false} OneChildEach(run: seq<State>, actions: seq<Action>, i: nat)
    requires IsRun(run, actions) && i < |run|
    ensures |run[i].children| + One(run[i].prepare == Spawning) <= Tally(actions[..i], {Admit})
  {
    hide Step, Populates;
    if i > 0 {
      OneChildEach(run, actions, i - 1);
      ChildrenStay(run[i - 1], actions[i - 1], run[i]);
      AdmitsOnce(run[i - 1], actions[i - 1], run[i]);
      Grows(run[i - 1], actions[i - 1], run[i]);
      assert actions[..i][..i - 1] == actions[..i - 1];
    }
  }

  lemma AdmitsOnce(s: State, a: Action, t: State)
    requires Step(s, a, t)
    ensures a == Admit ==> s.prepare != Spawning
  {
  }

  lemma Grows(s: State, a: Action, t: State)
    requires Populates(s, a, t)
    ensures |t.children| == |s.children| + One(a.Spawn?)
    ensures a.Spawn? ==> s.prepare == Spawning && t.prepare != Spawning
    ensures t.prepare == Spawning ==> a == Admit || s.prepare == Spawning
  {
    assert |t.children| == |t.children.Keys| && |s.children| == |s.children.Keys|;
  }

  // ---- every wait of a commit may fail

  /** The commit has begun, and its replacement has not been seen to finalize. */
  predicate Waits(pc: CommitPc) {
    match pc
    case Stopping(_) => true
    case StopRequested(_) => true
    case AcceptStopped(_) => true
    case AwaitingServing(_) => true
    case SawServing(_) => true
    case AwaitingFinalized(_) => true
    case _ => false
  }

  /** It has seen the accept loop stop. */
  predicate SawStop(pc: CommitPc) {
    !pc.Stopping? && !pc.StopRequested?
  }

  function Failure(pc: CommitPc): Action
    requires Waits(pc)
  {
    match pc
    case Stopping(_) => StopRaises
    case StopRequested(_) => StopRaises
    case AcceptStopped(_) => SendCommitFails
    case _ => ReplyFails
  }

  lemma Fails(s: State) returns (t: State)
    requires Core(s) && Waits(s.commit)
    ensures s.commit != NoCommit && Step(s, Failure(s.commit), t) && s.commit.child in s.children
    ensures t == s.(session := t.session, commit := CommitFailed(s.commit.child, SawStop(s.commit)))
  {
    hide BarrierOk, LoopOk, OutcomeOk, PrepareOk, Exited;
    t := CommitStep(s, Failure(s.commit));
  }

  lemma AbortSteps(s: State, c: ChildId, stopped: bool)
    requires c in s.children
    ensures s.commit == CommitFailed(c, stopped) ==>
      Step(s, BeginAbort, Send(s.(session := Aborting, commit := CommitAborting(c, stopped)), c, AbortOrder))
    ensures s.commit == CommitAborting(c, stopped) && !s.children[c].alive ==>
      Step(s, AbortConfirmed, s.(session := RolledBack, commit := Settling(c, OutRolledBack, stopped)))
    ensures s.commit == CommitAborting(c, stopped) ==>
      Step(s, AbortUnconfirmed, s.(commit := Settling(c, OutUnconfirmed, stopped)))
    ensures s.commit == Settling(c, OutRolledBack, stopped) ==>
      Step(s, RecordOutcome, s.(outcome := OutRolledBack, commit := NoCommit, lateStops := s.lateStops + One(!stopped)))
    ensures s.commit == Settling(c, OutUnconfirmed, stopped) ==>
      Step(s, RecordOutcome,
           s.(outcome := OutUnconfirmed, commit := NoCommit, lateStops := s.lateStops + One(!stopped)))
  {
  }

  /** Wherever the commit waits, it may fail: its replacement exits, and the rollback is recorded. */
  lemma CommitMayRollBack(s: State) returns (actions: seq<Action>, t: State)
    requires Core(s) && Waits(s.commit)
    ensures Leads(s, actions, t) && s.commit.child in s.children
    ensures var c, child := s.commit.child, s.children[s.commit.child];
      t == s.(session := RolledBack, outcome := OutRolledBack, commit := NoCommit,
              lateStops := s.lateStops + One(!SawStop(s.commit)),
              children := s.children[c := child.(alive := false, inbox := child.inbox + [AbortOrder])])
  {
    hide Leads, Step, Waits, Failure, SawStop, Core;
    var s1 := Fails(s);
    var c, stopped := s.commit.child, SawStop(s.commit);
    var s2 := Send(s1.(session := Aborting, commit := CommitAborting(c, stopped)), c, AbortOrder);
    var s3 := Put(s2, c, s2.children[c].(alive := false));
    var s4 := s3.(session := RolledBack, commit := Settling(c, OutRolledBack, stopped));
    t := s4.(outcome := OutRolledBack, commit := NoCommit, lateStops := s4.lateStops + One(!stopped));
    Stays(s);
    Goes(s, [], s, Failure(s.commit), s1);
    AbortSteps(s1, c, stopped);
    Goes(s, [] + [Failure(s.commit)], s1, BeginAbort, s2);
    Exits(s2, c);
    Goes(s, [] + [Failure(s.commit)] + [BeginAbort], s2, ChildExits(c), s3);
    AbortSteps(s3, c, stopped);
    Goes(s, [] + [Failure(s.commit)] + [BeginAbort] + [ChildExits(c)], s3, AbortConfirmed, s4);
    AbortSteps(s4, c, stopped);
    Goes(s, [] + [Failure(s.commit)] + [BeginAbort] + [ChildExits(c)] + [AbortConfirmed], s4, RecordOutcome, t);
    actions := [] + [Failure(s.commit)] + [BeginAbort] + [ChildExits(c)] + [AbortConfirmed] + [RecordOutcome];
  }

  /** Or the abort cannot be confirmed, and that is recorded. */
  lemma CommitMayStayUnconfirmed(s: State) returns (actions: seq<Action>, t: State)
    requires Core(s) && Waits(s.commit)
    ensures Leads(s, actions, t) && s.commit.child in s.children
    ensures var c, child := s.commit.child, s.children[s.commit.child];
      t == s.(session := Aborting, outcome := OutUnconfirmed, commit := NoCommit,
              lateStops := s.lateStops + One(!SawStop(s.commit)),
              children := s.children[c := child.(inbox := child.inbox + [AbortOrder])])
  {
    hide Leads, Step, Waits, Failure, SawStop, Core;
    var s1 := Fails(s);
    var c, stopped := s.commit.child, SawStop(s.commit);
    var s2 := Send(s1.(session := Aborting, commit := CommitAborting(c, stopped)), c, AbortOrder);
    var s3 := s2.(commit := Settling(c, OutUnconfirmed, stopped));
    t := s3.(outcome := OutUnconfirmed, commit := NoCommit, lateStops := s3.lateStops + One(!stopped));
    Stays(s);
    Goes(s, [], s, Failure(s.commit), s1);
    AbortSteps(s1, c, stopped);
    Goes(s, [] + [Failure(s.commit)], s1, BeginAbort, s2);
    AbortSteps(s2, c, stopped);
    Goes(s, [] + [Failure(s.commit)] + [BeginAbort], s2, AbortUnconfirmed, s3);
    AbortSteps(s3, c, stopped);
    Goes(s, [] + [Failure(s.commit)] + [BeginAbort] + [AbortUnconfirmed], s3, RecordOutcome, t);
    actions := [] + [Failure(s.commit)] + [BeginAbort] + [AbortUnconfirmed] + [RecordOutcome];
  }

  lemma CommitBegins(s: State, n: ChildId)
    requires s.commit == Begun(n)
    ensures Step(s, BeginCommit, s.(session := Committing, commit := Stopping(n)))
  {
  }

  lemma LateRecordForgets(s: State)
    requires s.lateFinals > 0 && s.session == RolledBack && s.prepare == NoPrepare && s.commit == NoCommit
    ensures var t := s.(outcome := OutFinalized, lateFinals := s.lateFinals - 1);
      Step(s, LateRecord, t) && !ResetPending(t)
  {
  }

  /** That no request overtakes a commit is needed for a rolled back session to be on its way to idle: after
      every run an overtaking request can be continued to a rollback whose record the late one replaces. */
  lemma OvertakingForgetsReset(run: seq<State>, actions: seq<Action>, n: ChildId)
    returns (longer: seq<State>, more: seq<Action>)
    requires IsRun(run, actions) && n !in run[|actions|].children
    requires PrepareGuard(run[|actions|], Admit) && Overtakes(run[|actions|], Admit)
    ensures IsRun(longer, actions + more) && run <= longer && more != [] && more[0] == Admit
    ensures !ResetPending(longer[|actions + more|])
  {
    hide Leads, Step, PrepareGuard, Core, ResetPending;
    var s := run[|actions|];
    var first, s1 := Prepares(s, n);
    var s2 := s1.(session := Committing, commit := Stopping(n));
    CommitBegins(s1, n);
    Goes(s, first, s1, BeginCommit, s2);
    var before := Extended(run, actions, first + [BeginCommit], s2);
    RunKeeps(before, actions + (first + [BeginCommit]), |actions + (first + [BeginCommit])|);
    var undone, s3 := CommitMayRollBack(s2);
    var t := s3.(outcome := OutFinalized, lateFinals := s3.lateFinals - 1);
    OvertakenOwes(run, actions);
    LateRecordForgets(s3);
    Joins(s, first + [BeginCommit], s2, undone, s3);
    Goes(s, first + [BeginCommit] + undone, s3, LateRecord, t);
    more := first + [BeginCommit] + undone + [LateRecord];
    longer := Extended(run, actions, more, t);
  }

  lemma OvertakenOwes(run: seq<State>, actions: seq<Action>)
    requires IsRun(run, actions)
    requires PrepareGuard(run[|actions|], Admit) && Overtakes(run[|actions|], Admit)
    ensures run[|actions|].commit.SawFinalized? && run[|actions|].prepare == NoPrepare
  {
    hide Step;
  }

  /** And some run from rest does so. */
  lemma ResetCanBeForgotten() returns (run: seq<State>, actions: seq<Action>)
    ensures IsRun(run, actions) && run[|actions|].session == RolledBack && !ResetPending(run[|actions|])
  {
    hide Leads, Step, PrepareGuard, Inv, Endangers;
    var first, before := HandsOver();
    HandedOverInv();
    var longer, more := OvertakingForgetsReset(first, before, 1);
    run, actions := longer, before + more;
  }

  /** A commit or a preparation that is under way, a serve loop that is not stopped, and a commit that still
      owes a record or a stop can always take a step. */
  lemma NeverStuck(run: seq<State>, actions: seq<Action>, i: nat)
    requires IsRun(run, actions) && i < |run|
    ensures run[i].commit != NoCommit ==> exists a :: CommitGuard(run[i], a)
    ensures run[i].prepare != NoPrepare ==> exists a :: PrepareGuard(run[i], a)
    ensures run[i].loop != Stopped ==> exists a :: LoopGuard(run[i], a)
    ensures run[i].lateFinals > 0 ==> CommitGuard(run[i], LateRecord)
    ensures run[i].lateStops > 0 ==> CommitGuard(run[i], LateStop)
  {
    hide Step, BarrierOk, LoopOk, OutcomeOk, Exited;
    RunKeeps(run, actions, i);
    var s := run[i];
    if s.commit != NoCommit {
      var a := match s.commit
        case Begun(_) => BeginCommit
        case SawFinalized(_) => RecordFinalized
        case CommitFailed(_, _) => BeginAbort
        case CommitAborting(_, _) => AbortUnconfirmed
        case Settling(_, _, _) => RecordOutcome
        case AcceptStopped(_) => SendCommitFails
        case Stopping(_) => StopRaises
        case StopRequested(_) => StopRaises
        case _ => ReplyFails;
      assert CommitGuard(s, a);
    }
    if s.prepare != NoPrepare {
      var a := match s.prepare
        case AwaitingReady(_) => ReadyFails
        case PrepareAborting(_) => PrepareAbortUnconfirmed
        case PrepareAborted => PrepareReset
        case _ => SpawnFails;
      assert PrepareGuard(s, a);
    }
    if s.loop != Stopped {
      var a := match s.loop
        case Entered => LoopCheck
        case Selecting => LoopSelected
        case Accepting => LoopHandled
        case Leaving => LoopClear
        case Cleared => LoopLeave
        case Waiting => LoopWake
        case SawRollback => LoopReset
        case _ => LoopResume;
      assert LoopGuard(s, a);
    }
  }
}
