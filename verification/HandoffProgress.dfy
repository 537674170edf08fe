/** That a handoff that fails frees the session for the next one, that the serve loop keeps serving,
    and where neither happens. */
module HandoffProgress {
  import opened Handoff
  import opened HandoffSafety
  import opened HandoffLimits

  // ---- the resets

  lemma ResetStep(s: State, a: Action, t: State)
    requires Core(s) && Step(s, a, t) && (a == PrepareReset || a == SpawnFails || a == LoopReset)
    ensures t.session == Idle && t.outcome != OutRolledBack
    ensures a != LoopReset ==> PrepareGuard(t, Admit)
    ensures a == SpawnFails ==> t.current == []
  {
    hide BarrierOk;
  }

  /** In every run a reset leaves the session idle; after a failed preparation the next request is
      admitted at once. */
  lemma ResetFrees(run: seq<State>, actions: seq<Action>, i: nat)
    requires IsRun(run, actions) && i < |actions|
    requires actions[i] == PrepareReset || actions[i] == SpawnFails || actions[i] == LoopReset
    ensures run[i + 1].session == Idle
    ensures actions[i] != LoopReset ==> PrepareGuard(run[i + 1], Admit)
  {
    hide Core, Step, PrepareGuard;
    RunKeeps(run, actions, i);
    ResetStep(run[i], actions[i], run[i + 1]);
  }

  /** A rolled back session has a reset before it: of the preparation, or of the serve loop once it
      reads the rollback that a commit has recorded or is about to record. */
  predicate ResetPending(s: State) {
    s.session == RolledBack ==>
      || s.prepare == PrepareAborted
      || (s.commit.Settling? && s.commit.outcome == OutRolledBack)
      || s.outcome == OutRolledBack
  }

  lemma PendingLoop(s: State, a: Action)
    requires ResetPending(s) && LoopGuard(s, a)
    ensures ResetPending(LoopStep(s, a))
  {
  }

  lemma PendingPrepare(s: State, a: Action)
    requires Core(s) && ResetPending(s) && PrepareGuard(s, a)
    ensures ResetPending(PrepareStep(s, a))
  {
    hide BarrierOk, LoopOk, CommitOk;
  }

  lemma PendingCommit(s: State, a: Action)
    requires Core(s) && ResetPending(s) && s.lateFinals == 0 && CommitGuard(s, a)
    ensures ResetPending(CommitStep(s, a))
  {
    hide BarrierOk, LoopOk, PrepareOk, Exited;
  }

  lemma PendingStep(s: State, a: Action, t: State)
    requires Core(s) && ResetPending(s) && s.lateFinals == 0 && Step(s, a, t)
    ensures ResetPending(t)
  {
    hide Core, LoopGuard, PrepareGuard, CommitGuard, ChildGuard, LoopStep, PrepareStep, CommitStep, ChildStep;
    if LoopGuard(s, a) {
      PendingLoop(s, a);
    } else if PrepareGuard(s, a) {
      PendingPrepare(s, a);
    } else if CommitGuard(s, a) {
      PendingCommit(s, a);
    } else {
      ChildStepIsPut(s, a);
    }
  }

  lemma NoneOwed(s: State)
    requires Timely(s)
    ensures s.lateFinals == 0
  {
  }

  lemma NotRolledBackYet(s: State)
    requires Initial(s)
    ensures ResetPending(s)
  {
  }

  /** In every run in which no request overtakes a commit, a rolled back session is on its way to idle. */
  lemma {:induction false} RolledBackIsReset(run: seq<State>, actions: seq<Action>, i: nat)
    requires IsRun(run, actions) && NeverOvertaken(run, actions) && i < |run|
    ensures ResetPending(run[i])
  {
    hide Core, Step, Overtakes, Timely, ResetPending;
    if i == 0 {
      NotRolledBackYet(run[0]);
    } else {
      RolledBackIsReset(run, actions, i - 1);
      RunKeeps(run, actions, i - 1);
      RunTimely(run, actions, i - 1);
      NoneOwed(run[i - 1]);
      PendingStep(run[i - 1], actions[i - 1], run[i]);
    }
  }

  // ---- a failed preparation, and the next request

  lemma ReadinessFails(s: State, n: ChildId)
    requires s.prepare == AwaitingReady(n) && n in s.children && s.children[n] == Dormant.(outbox := [ReadyReply])
    ensures Step(s, ReadyFails, Put(s.(session := Aborting, prepare := PrepareAborting(n)), n,
                                    Dormant.(outbox := [ReadyReply], inbox := [AbortOrder])))
  {
    assert [] + [AbortOrder] == [AbortOrder];
  }

  lemma PrepareConfirms(s: State, n: ChildId)
    requires s.prepare == PrepareAborting(n) && n in s.children && !s.children[n].alive
    ensures Step(s, PrepareAbortConfirmed, s.(session := RolledBack, prepare := PrepareAborted))
  {
  }

  lemma PrepareGivesUp(s: State, n: ChildId)
    requires s.prepare == PrepareAborting(n)
    ensures Step(s, PrepareAbortUnconfirmed, s.(prepare := NoPrepare))
  {
  }

  lemma PrepareResets(s: State)
    requires s.prepare == PrepareAborted
    ensures Step(s, PrepareReset, s.(session := Idle, prepare := NoPrepare))
  {
  }

  /** A replacement is started and answers, and its answer is not accepted. */
  lemma PreparationFails(s: State, n: ChildId) returns (actions: seq<Action>, t: State)
    requires PrepareGuard(s, Admit) && n !in s.children && s.commit == NoCommit
    ensures Leads(s, actions, t) && actions != [] && actions[0] == Admit
    ensures t == s.(session := Aborting, outcome := NoOutcome, prepare := PrepareAborting(n), current := [n],
                    children := s.children[n := Dormant.(outbox := [ReadyReply], inbox := [AbortOrder])])
  {
    hide Leads, Step, PrepareGuard;
    var s1 := s.(session := Preparing, outcome := NoOutcome, prepare := Spawning, current := []);
    var s2 := Put(s1.(prepare := Started(n), current := [n]), n, Child(true, Launched, [], [], false, false));
    var s3 := Put(s2.(prepare := AwaitingReady(n)), n, Dormant.(outbox := [ReadyReply]));
    t := Put(s3.(session := Aborting, prepare := PrepareAborting(n)), n,
             Dormant.(outbox := [ReadyReply], inbox := [AbortOrder]));
    Stays(s);
    Admits(s);
    Goes(s, [], s, Admit, s1);
    Spawns(s1, n);
    Goes(s, [] + [Admit], s1, Spawn(n), s2);
    var answers := Answers(s2, n);
    Joins(s, [] + [Admit] + [Spawn(n)], s2, answers, s3);
    ReadinessFails(s3, n);
    Goes(s, [] + [Admit] + [Spawn(n)] + answers, s3, ReadyFails, t);
    actions := [] + [Admit] + [Spawn(n)] + answers + [ReadyFails];
  }

  /** The replacement exits, the abort is confirmed, and the session is idle again. */
  lemma PreparationIsUndone(s: State, n: ChildId) returns (actions: seq<Action>, t: State)
    requires PrepareGuard(s, Admit) && n !in s.children && s.commit == NoCommit
    ensures Leads(s, actions, t)
    ensures t == s.(session := Idle, outcome := NoOutcome, prepare := NoPrepare, current := [n],
                    children := s.children[n := Gone.(outbox := [ReadyReply])])
  {
    hide Leads, Step, PrepareGuard;
    var s1: State;
    actions, s1 := PreparationFails(s, n);
    var s2 := Put(s1, n, Gone.(outbox := [ReadyReply]));
    var s3 := s2.(session := RolledBack, prepare := PrepareAborted);
    t := s3.(session := Idle, prepare := NoPrepare);
    Exits(s1, n);
    Goes(s, actions, s1, ChildExits(n), s2);
    PrepareConfirms(s2, n);
    Goes(s, actions + [ChildExits(n)], s2, PrepareAbortConfirmed, s3);
    PrepareResets(s3);
    Goes(s, actions + [ChildExits(n)] + [PrepareAbortConfirmed], s3, PrepareReset, t);
    actions := actions + [ChildExits(n)] + [PrepareAbortConfirmed] + [PrepareReset];
  }

  /** A run from rest: a preparation fails, and the next request hands the listener over. */
  lemma SecondRequestSucceeds() returns (run: seq<State>, actions: seq<Action>)
    ensures IsRun(run, actions) && run[|actions|].commit == SawFinalized(1) && IsAccepting(run[|actions|], 1)
  {
    hide Leads, Step, PrepareGuard;
    AdmitsSoon(AtRest);
    var undone, s1 := PreparationIsUndone(AtRest, 0);
    AdmitsSoon(s1);
    var prepared, s2 := Prepares(s1, 1);
    var taken, s3 := TakesOver(s2, 1);
    var finalized, s4 := Finalizes(s3, 1);
    Joins(AtRest, undone, s1, prepared, s2);
    Joins(AtRest, undone + prepared, s2, taken, s3);
    Joins(AtRest, undone + prepared + taken, s3, finalized, s4);
    RestIsInitial();
    run := Extended([AtRest], [], undone + prepared + taken + finalized, s4);
    actions := [] + (undone + prepared + taken + finalized);
  }

  // ---- an unconfirmed abort ends all handoffs

  lemma {:induction false} AbortedForever(run: seq<State>, actions: seq<Action>, i: nat, k: nat)
    requires IsRun(run, actions) && i <= k < |run| && Aborted(run[i])
    ensures Aborted(run[k]) && !PrepareGuard(run[k], Admit)
  {
    hide Core, Step;
    if k > i {
      AbortedForever(run, actions, i, k - 1);
      RunKeeps(run, actions, k - 1);
      AbortedStays(run[k - 1], actions[k - 1], run[k]);
    }
  }

  lemma UnconfirmedIsAborted(s: State, t: State)
    requires Core(s) && Step(s, PrepareAbortUnconfirmed, t) && s.outcome != OutRolledBack
    ensures Aborted(t)
  {
    hide BarrierOk, LoopOk, CommitOk;
  }

  /** In every run, once the abort of a preparation could not be confirmed, no request is admitted again. */
  lemma UnconfirmedPreparationIsForever(run: seq<State>, actions: seq<Action>, i: nat, k: nat)
    requires IsRun(run, actions) && i < k < |run| && actions[i] == PrepareAbortUnconfirmed
    ensures !PrepareGuard(run[k], Admit)
  {
    hide Core, Step, PrepareGuard, Aborted;
    RunKeeps(run, actions, i);
    AbortingIsNotRolledBack(run[i], run[i + 1]);
    UnconfirmedIsAborted(run[i], run[i + 1]);
    AbortedForever(run, actions, i + 1, k);
  }

  lemma AbortingIsNotRolledBack(s: State, t: State)
    requires Core(s) && Step(s, PrepareAbortUnconfirmed, t)
    ensures s.outcome != OutRolledBack
  {
    hide BarrierOk, LoopOk, CommitOk;
  }

  // ---- the serve loop

  lemma LoopSteps(s: State)
    ensures s.loop == Entered ==> Step(s, LoopCheck, s.(loop := if s.stopRequest then Leaving else Selecting))
    ensures s.loop == Selecting ==>
      Step(s, LoopSelected, s.(loop := if s.stopRequest then Leaving else LoopPc.Accepting))
    ensures s.loop == LoopPc.Accepting ==> Step(s, LoopHandled, s.(loop := Entered))
  {
  }

  /** Without a request to stop the loop goes on accepting, turn after turn. */
  lemma ServesOn(s: State) returns (actions: seq<Action>)
    requires s.loop == Selecting && !s.stopRequest
    ensures actions != [] && Leads(s, actions, s)
  {
    hide Leads, Step;
    var s1, s2 := s.(loop := LoopPc.Accepting), s.(loop := Entered);
    Stays(s);
    LoopSteps(s);
    Goes(s, [], s, LoopSelected, s1);
    LoopSteps(s1);
    Goes(s, [] + [LoopSelected], s1, LoopHandled, s2);
    LoopSteps(s2);
    Goes(s, [] + [LoopSelected] + [LoopHandled], s2, LoopCheck, s);
    actions := [] + [LoopSelected] + [LoopHandled] + [LoopCheck];
  }

  /** With one it leaves, from anywhere inside. */
  lemma LeavesFromAnywhere(s: State) returns (actions: seq<Action>, t: State)
    requires s.stopRequest && InServeForever(s.loop) && !s.isShutDown
    ensures Leads(s, actions, t) && t.loop == Waiting && t.isShutDown
  {
    hide Leads, Step;
    Stays(s);
    actions, t := [], s;
    if s.loop == LoopPc.Accepting {
      LoopSteps(s);
      t := s.(loop := Entered);
      Goes(s, [], s, LoopHandled, t);
      actions := [] + [LoopHandled];
    }
    var rest, u := Leaves(t);
    Joins(s, actions, t, rest, u);
    LeftWaits(t, u);
    actions, t := actions + rest, u;
  }

  lemma LeftWaits(s: State, t: State)
    requires InServeForever(s.loop) && t.isShutDown
    requires t == s.(loop := t.loop, stopRequest := t.stopRequest, isShutDown := true)
    requires s.loop == Entered || s.loop == Selecting || s.loop == Leaving || s.loop == Cleared ==> t.loop == Waiting
    requires s.loop != LoopPc.Accepting
    ensures t.loop == Waiting
  {
  }

  /** A loop that wakes without a recorded rollback never serves again. */
  lemma WakesToStop(run: seq<State>, actions: seq<Action>, i: nat, k: nat)
    requires IsRun(run, actions) && i < k < |run| && actions[i] == LoopWake && run[i].outcome != OutRolledBack
    ensures run[k].loop == Stopped
    decreases k
  {
    hide Core;
    if k > i + 1 {
      WakesToStop(run, actions, i, k - 1);
      StoppedStays(run[k - 1], actions[k - 1], run[k]);
    } else {
      WakesOnce(run[i], run[k]);
    }
  }

  lemma WakesOnce(s: State, t: State)
    requires Step(s, LoopWake, t)
    ensures t.loop == if s.outcome == OutRolledBack then SawRollback else Stopped
  {
  }
}
