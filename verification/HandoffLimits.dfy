/** Where the promises of a handoff end: what recorded outcomes mean in every run, how far an
    unconfirmed abort keeps the parent from accepting, and runs in which a promise fails. */
module HandoffLimits {
  import opened Handoff
  import opened HandoffSafety

  // ---- recorded outcomes

  /** In every run a recorded rollback means that the replacement of the handoff has exited. */
  lemma RolledBackMeansExited(run: seq<State>, actions: seq<Action>, i: nat)
    requires IsRun(run, actions) && i < |run| && run[i].outcome == OutRolledBack
    ensures exists c: ChildId :: run[i].current == [c] && Exited(run[i], c)
  {
    hide Step;
    RunKeeps(run, actions, i);
    assert run[i].current == [run[i].current[0]];
  }

  /** The replacement of this handoff has finalized. */
  ghost predicate CurrentFinalized(s: State) {
    exists c :: c in s.children && s.current == [c] && s.children[c].finalized
  }

  /** A request admitted after the commit saw its replacement finalize and before it said so. */
  predicate Overtakes(s: State, a: Action) {
    a == Admit && s.commit.SawFinalized?
  }

  ghost predicate NeverOvertaken(run: seq<State>, actions: seq<Action>)
    requires |run| == |actions| + 1
  {
    forall i :: 0 <= i < |actions| ==> !Overtakes(run[i], actions[i])
  }

  predicate Timely(s: State) {
    && s.lateFinals == 0
    && (s.outcome == OutFinalized ==>
          s.session == Finalized && s.current != [] && s.commit == NoCommit && s.prepare == NoPrepare)
  }

  lemma TimelyStep(s: State, a: Action, t: State)
    requires Core(s) && Timely(s) && Step(s, a, t) && !Overtakes(s, a)
    ensures Timely(t)
  {
    hide Core, Timely, LoopGuard, PrepareGuard, CommitGuard, ChildGuard, LoopStep, PrepareStep, CommitStep, ChildStep,
         Overtakes;
    if LoopGuard(s, a) {
      LoopTimely(s, a);
    } else if PrepareGuard(s, a) {
      PrepareTimely(s, a);
    } else if CommitGuard(s, a) {
      CommitTimely(s, a);
    } else {
      ChildStepIsPut(s, a);
      SameTimely(s, t);
    }
  }

  lemma LoopTimely(s: State, a: Action)
    requires Core(s) && Timely(s) && LoopGuard(s, a)
    ensures Timely(LoopStep(s, a))
  {
    hide BarrierOk, OutcomeOk, PrepareOk, CommitOk;
  }

  lemma PrepareTimely(s: State, a: Action)
    requires Timely(s) && PrepareGuard(s, a) && !Overtakes(s, a)
    ensures Timely(PrepareStep(s, a))
  {
  }

  lemma CommitTimely(s: State, a: Action)
    requires Core(s) && Timely(s) && CommitGuard(s, a)
    ensures Timely(CommitStep(s, a))
  {
    hide BarrierOk, OutcomeOk, PrepareOk, LoopOk, Exited;
  }

  lemma SameTimely(s: State, t: State)
    requires Timely(s) && t == s.(children := t.children)
    ensures Timely(t)
  {
  }

  lemma {:induction false} RunTimely(run: seq<State>, actions: seq<Action>, i: nat)
    requires IsRun(run, actions) && NeverOvertaken(run, actions) && i < |run|
    ensures Timely(run[i])
  {
    hide Core, Step, Overtakes;
    if i > 0 {
      RunTimely(run, actions, i - 1);
      RunKeeps(run, actions, i - 1);
      TimelyStep(run[i - 1], actions[i - 1], run[i]);
    }
  }

  /** In every run in which no request overtakes a commit, a recorded `finalized` means that the
      replacement of the same handoff has finalized. */
  lemma FinalizedIsProved(run: seq<State>, actions: seq<Action>, i: nat)
    requires IsRun(run, actions) && NeverOvertaken(run, actions) && i < |run| && run[i].outcome == OutFinalized
    ensures CurrentFinalized(run[i])
  {
    hide Core, Step, Overtakes;
    RunTimely(run, actions, i);
    RunHonest(run, actions, i);
    assert run[i].current == [run[i].current[0]];
  }

  // ---- after an abort that could not be confirmed

  /** The serve loop reads a rollback, and will serve again. */
  predicate ReadsRollback(s: State, a: Action) {
    a == LoopWake && s.loop == Waiting && s.outcome == OutRolledBack
  }

  lemma LoopStaysParked(s: State, a: Action)
    requires Parked(s) && LoopGuard(s, a) && !ReadsRollback(s, a)
    ensures Parked(LoopStep(s, a))
  {
  }

  /** Nobody but the serve loop can leave the parking position, and only by reading a rollback. */
  lemma StaysParked(s: State, a: Action, t: State)
    requires Parked(s) && Step(s, a, t) && !ReadsRollback(s, a)
    ensures Parked(t)
  {
    hide LoopGuard, LoopStep, ChildRead, ReadsRollback;
    if LoopGuard(s, a) {
      LoopStaysParked(s, a);
    }
  }

  lemma ObservedIsParked(s: State, t: State)
    requires Core(s) && Step(s, StopObserved, t)
    ensures Parked(t)
  {
    hide OutcomeOk, PrepareOk;
  }

  /** In every run: once a commit has observed that the accept loop stopped, the parent accepts again
      only after reading a recorded rollback. */
  lemma {:induction false} StoppedUntilRollback(run: seq<State>, actions: seq<Action>, m: nat, k: nat)
    requires IsRun(run, actions) && m < k < |run| && actions[m] == StopObserved
    requires forall i :: m < i < k ==> !ReadsRollback(run[i], actions[i])
    ensures Parked(run[k]) && !ParentAccepts(run[k])
  {
    hide Core, Step, ReadsRollback;
    if k == m + 1 {
      RunKeeps(run, actions, m);
      ObservedIsParked(run[m], run[k]);
    } else {
      StoppedUntilRollback(run, actions, m, k - 1);
      StaysParked(run[k - 1], actions[k - 1], run[k]);
    }
  }

  /** An unconfirmed abort has been recorded, if not overwritten by a late record of an earlier handoff. */
  predicate Aborted(s: State) {
    s.session == Aborting && s.commit == NoCommit && s.prepare == NoPrepare && s.outcome != OutRolledBack
  }

  lemma AbortedStays(s: State, a: Action, t: State)
    requires Core(s) && Aborted(s) && Step(s, a, t)
    ensures Aborted(t)
  {
    hide Core, LoopOk, PrepareGuard, PrepareStep, CommitStep, CommitGuard, LoopGuard, LoopStep, ChildGuard, ChildStep;
    OnlyTheLoop(s, a);
    if !LoopGuard(s, a) && ChildGuard(s, a) {
      ChildStepIsPut(s, a);
    }
  }

  /** After such an abort only the serve loop, the replacements and what commits still owe remain. */
  lemma OnlyTheLoop(s: State, a: Action)
    requires Core(s) && Aborted(s)
    ensures !PrepareGuard(s, a)
    ensures LoopGuard(s, a) ==> Aborted(LoopStep(s, a))
    ensures CommitGuard(s, a) ==> Aborted(CommitStep(s, a))
    ensures CommitGuard(s, a) ==> CommitStep(s, a).loop == s.loop && (s.stopRequest ==> CommitStep(s, a).stopRequest)
    ensures s.loop != SawRollback
  {
    hide BarrierOk, OutcomeOk, CommitOk, PrepareOk, CommitGuard, CommitStep;
    if CommitGuard(s, a) {
      OwedOnly(s, a);
    }
  }

  lemma OwedOnly(s: State, a: Action)
    requires s.commit == NoCommit && CommitGuard(s, a)
    ensures a == LateRecord || a == LateStop
    ensures CommitStep(s, a) == if a == LateRecord then s.(outcome := OutFinalized, lateFinals := s.lateFinals - 1)
                                else s.(stopRequest := true, lateStops := s.lateStops - 1)
  {
  }

  /** An unconfirmed abort, recorded by a commit that had stopped the accept loop or had not. */
  predicate RecordsUnconfirmed(s: State, a: Action, stopped: bool) {
    a == RecordOutcome && s.commit.Settling? && s.commit.outcome == OutUnconfirmed && s.commit.stopped == stopped
  }

  lemma RecordedAborted(s: State, a: Action, t: State, stopped: bool)
    requires Core(s) && Step(s, a, t) && RecordsUnconfirmed(s, a, stopped)
    ensures Aborted(t) && t.outcome == OutUnconfirmed && (stopped ==> Parked(t)) && (!stopped ==> t.lateStops > 0)
  {
    hide OutcomeOk, PrepareOk;
  }

  /** In every run: after an unconfirmed abort is recorded by a commit that had stopped the accept
      loop, the parent never accepts again. */
  lemma {:induction false} UnconfirmedIsForever(run: seq<State>, actions: seq<Action>, i: nat, k: nat)
    requires IsRun(run, actions) && i < k < |run| && RecordsUnconfirmed(run[i], actions[i], true)
    ensures Aborted(run[k]) && Parked(run[k]) && !ParentAccepts(run[k])
  {
    hide Core, Step, Aborted, RecordsUnconfirmed;
    RunKeeps(run, actions, k - 1);
    if k == i + 1 {
      RecordedAborted(run[i], actions[i], run[k], true);
    } else {
      UnconfirmedIsForever(run, actions, i, k - 1);
      AbortedStays(run[k - 1], actions[k - 1], run[k]);
      AbortedReadsNothing(run[k - 1], actions[k - 1]);
      StaysParked(run[k - 1], actions[k - 1], run[k]);
    }
  }

  lemma AbortedReadsNothing(s: State, a: Action)
    requires Aborted(s)
    ensures !ReadsRollback(s, a)
  {
  }

  /** The stop has been requested and not yet been cleared, or the loop is parked. */
  predicate WindingDown(s: State) {
    Parked(s) || ((s.loop == Selecting || s.loop == Accepting) && s.stopRequest)
  }

  lemma WindsDown(s: State, a: Action, t: State)
    requires Core(s) && Aborted(s) && WindingDown(s) && Step(s, a, t)
    ensures WindingDown(t) && (ParentAccepts(t) ==> ParentAccepts(s))
  {
    hide Core, PrepareGuard, PrepareStep, CommitStep, CommitGuard, ChildGuard, ChildStep;
    OnlyTheLoop(s, a);
    if !LoopGuard(s, a) && !CommitGuard(s, a) {
      ChildStepIsPut(s, a);
    }
  }

  lemma LateStopWinds(s: State, t: State)
    requires Core(s) && Aborted(s) && Step(s, LateStop, t)
    ensures WindingDown(t)
  {
    hide BarrierOk, OutcomeOk, CommitOk, PrepareOk;
  }

  /** The commit that had not stopped the loop owes it a stop; once made, the parent finishes at most
      the acceptance it is in, and then never accepts again. */
  lemma {:induction false} LateStopEnds(run: seq<State>, actions: seq<Action>, m: nat, j: nat, k: nat)
    requires IsRun(run, actions) && m < j <= k < |run|
    requires Aborted(run[m]) && actions[m] == LateStop && !ParentAccepts(run[j])
    ensures !ParentAccepts(run[k])
  {
    hide Core, Step, Aborted, WindingDown, ParentAccepts;
    if k > j {
      LateStopEnds(run, actions, m, j, k - 1);
      LateStopHolds(run, actions, m, k - 1);
      RunKeeps(run, actions, k - 1);
      WindsDown(run[k - 1], actions[k - 1], run[k]);
    }
  }

  lemma {:induction false} LateStopHolds(run: seq<State>, actions: seq<Action>, m: nat, k: nat)
    requires IsRun(run, actions) && m < k < |run| && Aborted(run[m]) && actions[m] == LateStop
    ensures Aborted(run[k]) && WindingDown(run[k])
  {
    hide Core, Step, Aborted, WindingDown;
    RunKeeps(run, actions, k - 1);
    if k == m + 1 {
      AbortedStays(run[m], LateStop, run[k]);
      LateStopWinds(run[m], run[k]);
    } else {
      LateStopHolds(run, actions, m, k - 1);
      AbortedStays(run[k - 1], actions[k - 1], run[k]);
      WindsDown(run[k - 1], actions[k - 1], run[k]);
    }
  }

  /** Either way a replacement that may accept finds the parent parked. */
  lemma UnconfirmedIsParked(run: seq<State>, actions: seq<Action>, i: nat, c: ChildId)
    requires IsRun(run, actions) && NeverEndangered(run, actions) && i < |run|
    requires run[i].outcome == OutUnconfirmed && Armed(run[i], c)
    ensures Parked(run[i])
  {
    hide Core, Honest, Step, Endangers, Armed;
    RunKeepsInv(run, actions, i);
  }

  // ---- playing actions

  /** The actions can be taken in order from one state to another. */
  ghost predicate Leads(s: State, actions: seq<Action>, t: State)
    decreases |actions|, 1
  {
    if actions == [] then s == t else exists u :: LeadsBy(s, actions, u, t)
  }

  ghost predicate LeadsBy(s: State, actions: seq<Action>, u: State, t: State)
    requires actions != []
    decreases |actions|, 0
  {
    Step(u, actions[|actions| - 1], t) && Leads(s, actions[..|actions| - 1], u)
  }

  lemma Stays(s: State)
    ensures Leads(s, [], s)
  {
  }

  lemma Goes(s: State, actions: seq<Action>, u: State, a: Action, t: State)
    requires Leads(s, actions, u) && Step(u, a, t)
    ensures Leads(s, actions + [a], t)
  {
    hide Step;
    assert (actions + [a])[..|actions|] == actions;
    assert LeadsBy(s, actions + [a], u, t);
  }

  lemma {:induction false} Joins(s: State, first: seq<Action>, u: State, second: seq<Action>, t: State)
    requires Leads(s, first, u) && Leads(u, second, t)
    ensures Leads(s, first + second, t)
    decreases |second|
  {
    hide Step;
    if second == [] {
      assert first + second == first;
    } else {
      var n := |second| - 1;
      var v :| LeadsBy(u, second, v, t);
      Joins(s, first, u, second[..n], v);
      assert first + second[..n] + [second[n]] == first + second;
      Goes(s, first + second[..n], v, second[n], t);
    }
  }

  /** What can be done after a run makes it a longer run. */
  lemma {:induction false} Extended(run: seq<State>, actions: seq<Action>, more: seq<Action>,
                                    t: State) returns (longer: seq<State>)
    requires IsRun(run, actions) && Leads(run[|actions|], more, t)
    ensures IsRun(longer, actions + more) && longer[|actions| + |more|] == t && run <= longer
    decreases |more|
  {
    hide Step;
    if more == [] {
      longer := run;
      assert actions + more == actions;
    } else {
      var n := |more| - 1;
      var u :| LeadsBy(run[|actions|], more, u, t);
      var shorter := Extended(run, actions, more[..n], u);
      longer := shorter + [t];
      assert actions + more[..n] + [more[n]] == actions + more;
    }
  }

  /** Without the stop, a parent that is not parked accepts now or within two steps of its loop. */
  lemma AcceptsSoon(s: State) returns (actions: seq<Action>, t: State)
    requires Core(s) && s.outcome == OutUnconfirmed && !Parked(s)
    ensures |actions| <= 2 && Leads(s, actions, t) && ParentAccepts(t)
  {
    hide Leads, BarrierOk, CommitOk, PrepareOk;
    Stays(s);
    actions, t := [], s;
    if s.loop == Resuming {
      var u := LoopStep(s, LoopResume);
      Goes(s, [], s, LoopResume, u);
      t := LoopStep(u, LoopCheck);
      Goes(s, [] + [LoopResume], u, LoopCheck, t);
      actions := [] + [LoopResume] + [LoopCheck];
    } else if s.loop == Entered {
      t := LoopStep(s, LoopCheck);
      Goes(s, [], s, LoopCheck, t);
      actions := [] + [LoopCheck];
    }
  }

  // ---- single steps of a handoff, with their effects

  const Dormant := Child(true, AwaitingCommit, [], [], false, false)
  const Accepter := Dormant.(pc := Probing, committed := true)
  const Successor := Child(true, HandedOver, [], [], true, true)

  lemma Admits(s: State)
    requires PrepareGuard(s, Admit) && (s.commit == NoCommit || s.commit.SawFinalized?)
    ensures Step(s, Admit,
                 s.(session := Preparing, outcome := NoOutcome, prepare := Spawning, current := [], commit := NoCommit,
                              lateFinals := s.lateFinals + Owed(s.commit)))
  {
  }

  lemma Spawns(s: State, n: ChildId)
    requires s.prepare == Spawning && n !in s.children
    ensures Step(s, Spawn(n),
                 Put(s.(prepare := Started(n), current := [n]), n, Child(true, Launched, [], [], false, false)))
  {
  }

  /** The replacement starts, is sent PREPARE, and answers. */
  lemma Answers(s: State, n: ChildId) returns (actions: seq<Action>)
    requires s.prepare == Started(n) && n in s.children && s.children[n] == Child(true, Launched, [], [], false, false)
    ensures Leads(s, actions, Put(s.(prepare := AwaitingReady(n)), n, Dormant.(outbox := [ReadyReply])))
  {
    hide Leads, Step;
    var s1 := Put(s, n, Child(true, AwaitingPrepare, [], [StartedReply], false, false));
    var s2 := Put(s.(prepare := AwaitingReady(n)), n, Child(true, AwaitingPrepare, [PrepareOrder], [], false, false));
    Stays(s);
    Starts(s, n);
    Goes(s, [], s, ChildStarts(n), s1);
    SendsPrepare(s1, s2, n);
    ReadsPrepare(s2, n);
    Goes(s, [] + [ChildStarts(n)], s1, SendPrepare, s2);
    var s3 := Put(s.(prepare := AwaitingReady(n)), n, Dormant.(outbox := [ReadyReply]));
    assert s3 == Put(s2, n, Dormant.(outbox := [ReadyReply]));
    Goes(s, [] + [ChildStarts(n)] + [SendPrepare], s2, ChildReads(n), s3);
    actions := [] + [ChildStarts(n)] + [SendPrepare] + [ChildReads(n)];
  }

  lemma Starts(s: State, n: ChildId)
    requires n in s.children && s.children[n] == Child(true, Launched, [], [], false, false)
    ensures Step(s, ChildStarts(n), Put(s, n, Child(true, AwaitingPrepare, [], [StartedReply], false, false)))
  {
    assert [] + [StartedReply] == [StartedReply];
  }

  lemma ReadsPrepare(s: State, n: ChildId)
    requires n in s.children && s.children[n] == Child(true, AwaitingPrepare, [PrepareOrder], [], false, false)
    ensures Step(s, ChildReads(n), Put(s, n, Dormant.(outbox := [ReadyReply])))
  {
    assert [PrepareOrder][1..] == [] && [] + [ReadyReply] == [ReadyReply];
  }

  lemma SendsPrepare(s: State, t: State, n: ChildId)
    requires s.prepare == Started(n) && n in s.children
    requires s.children[n] == Child(true, AwaitingPrepare, [], [StartedReply], false, false)
    requires t == Put(s.(prepare := AwaitingReady(n)), n,
                      Child(true, AwaitingPrepare, [PrepareOrder], [], false, false))
    ensures Step(s, SendPrepare, t)
  {
    assert [StartedReply][1..] == [] && [] + [PrepareOrder] == [PrepareOrder];
  }

  lemma Readies(s: State, n: ChildId)
    requires s.prepare == AwaitingReady(n) && n in s.children && s.children[n] == Dormant.(outbox := [ReadyReply])
    ensures Step(s, ReadyArrives, Put(s.(session := Ready, prepare := NoPrepare, commit := Begun(n)), n, Dormant))
  {
    assert [ReadyReply][1..] == [];
  }

  lemma Asks(s: State, n: ChildId)
    requires s.commit == Begun(n)
    ensures Step(s, BeginCommit, s.(session := Committing, commit := Stopping(n)))
    ensures Step(s.(session := Committing, commit := Stopping(n)), RequestStop,
                 s.(session := Committing, commit := StopRequested(n), stopRequest := true))
  {
  }

  lemma SendsCommit(s: State, n: ChildId)
    requires s.commit == StopRequested(n) && s.isShutDown && n in s.children && s.children[n] == Dormant
    ensures Step(s, StopObserved, s.(commit := AcceptStopped(n)))
    ensures Step(s.(commit := AcceptStopped(n)), SendCommit,
                 Put(s.(commit := AwaitingServing(n)), n, Dormant.(inbox := [CommitOrder])))
  {
    assert [] + [CommitOrder] == [CommitOrder];
  }

  lemma ReadsCommit(s: State, n: ChildId)
    requires n in s.children && s.children[n] == Dormant.(inbox := [CommitOrder])
    ensures Step(s, ChildReads(n), Put(s, n, Accepter))
  {
    assert [CommitOrder][1..] == [];
  }

  lemma Proves(s: State, n: ChildId)
    requires n in s.children && s.children[n] == Accepter
    ensures Step(s, ChildProves(n), Put(s, n, Accepter.(pc := AwaitingFinalize, outbox := [ServingReply])))
  {
    assert [] + [ServingReply] == [ServingReply];
  }

  lemma Serves(s: State, n: ChildId)
    requires s.commit == AwaitingServing(n) && n in s.children
    requires s.children[n] == Accepter.(pc := AwaitingFinalize, outbox := [ServingReply])
    ensures Step(s, ServingArrives,
                 Put(s.(session := Serving, commit := SawServing(n)), n, Accepter.(pc := AwaitingFinalize)))
  {
    assert [ServingReply][1..] == [];
  }

  lemma OrdersFinal(s: State, n: ChildId)
    requires s.commit == SawServing(n) && n in s.children && s.children[n] == Accepter.(pc := AwaitingFinalize)
    ensures Step(s, SendFinalize,
        Put(s.(session := Finalizing, commit := AwaitingFinalized(n)), n,
            Accepter.(pc := AwaitingFinalize, inbox := [FinalizeOrder])))
  {
    assert [] + [FinalizeOrder] == [FinalizeOrder];
  }

  lemma ReadsFinal(s: State, n: ChildId)
    requires s.commit == AwaitingFinalized(n) && n in s.children
    requires s.children[n] == Accepter.(pc := AwaitingFinalize, inbox := [FinalizeOrder])
    ensures Step(s, ChildReads(n), Put(s, n, Successor.(outbox := [FinalizedReply])))
  {
    assert [FinalizeOrder][1..] == [] && [] + [FinalizedReply] == [FinalizedReply];
  }

  lemma SeesFinal(s: State, n: ChildId)
    requires s.commit == AwaitingFinalized(n) && n in s.children
    requires s.children[n] == Successor.(outbox := [FinalizedReply])
    ensures Step(s, FinalizedArrives, Put(s.(session := Finalized, commit := SawFinalized(n)), n, Successor))
  {
    assert [FinalizedReply][1..] == [];
  }

  // ---- stretches of a handoff

  /** A request prepares a replacement, and the commit begins. */
  lemma Prepares(s: State, n: ChildId) returns (actions: seq<Action>, t: State)
    requires PrepareGuard(s, Admit) && n !in s.children && (s.commit == NoCommit || s.commit.SawFinalized?)
    ensures Leads(s, actions, t) && actions != [] && actions[0] == Admit
    ensures t == s.(session := Ready, outcome := NoOutcome, prepare := NoPrepare, commit := Begun(n), current := [n],
                    lateFinals := s.lateFinals + Owed(s.commit), children := s.children[n := Dormant])
  {
    hide Leads, Step, PrepareGuard;
    var s1 := s.(session := Preparing, outcome := NoOutcome, prepare := Spawning, current := [], commit := NoCommit,
                 lateFinals := s.lateFinals + Owed(s.commit));
    var s2 := Put(s1.(prepare := Started(n), current := [n]), n, Child(true, Launched, [], [], false, false));
    var s3 := Put(s2.(prepare := AwaitingReady(n)), n, Dormant.(outbox := [ReadyReply]));
    t := Put(s3.(session := Ready, prepare := NoPrepare, commit := Begun(n)), n, Dormant);
    Stays(s);
    Admits(s);
    Goes(s, [], s, Admit, s1);
    Spawns(s1, n);
    Goes(s, [] + [Admit], s1, Spawn(n), s2);
    var answers := Answers(s2, n);
    Joins(s, [] + [Admit] + [Spawn(n)], s2, answers, s3);
    Readies(s3, n);
    Goes(s, [] + [Admit] + [Spawn(n)] + answers, s3, ReadyArrives, t);
    actions := [] + [Admit] + [Spawn(n)] + answers + [ReadyArrives];
  }

  /** A loop that is asked to stop leaves `serve_forever`. */
  lemma Leaves(s: State) returns (actions: seq<Action>, t: State)
    requires s.stopRequest && s.isShutDown == !InServeForever(s.loop) && s.loop != Accepting
    ensures Leads(s, actions, t) && t.isShutDown
    ensures t == s.(loop := t.loop, stopRequest := t.stopRequest, isShutDown := true)
    ensures s.loop == Entered || s.loop == Selecting ==> t.loop == Waiting && !t.stopRequest
    ensures InServeForever(s.loop) ==> t.loop == Waiting
  {
    hide Leads;
    Stays(s);
    actions, t := [], s;
    if s.loop == Entered || s.loop == Selecting {
      var a := if s.loop == Entered then LoopCheck else LoopSelected;
      Goes(s, actions, t, a, LoopStep(t, a));
      actions, t := actions + [a], LoopStep(t, a);
    }
    if t.loop == Leaving {
      Goes(s, actions, t, LoopClear, LoopStep(t, LoopClear));
      actions, t := actions + [LoopClear], LoopStep(t, LoopClear);
    }
    if t.loop == Cleared {
      Goes(s, actions, t, LoopLeave, LoopStep(t, LoopLeave));
      actions, t := actions + [LoopLeave], LoopStep(t, LoopLeave);
    }
  }

  /** From a prepared replacement to one that accepts. */
  lemma TakesOver(s: State, n: ChildId) returns (actions: seq<Action>, t: State)
    requires s.commit == Begun(n) && n in s.children && s.children[n] == Dormant
    requires s.isShutDown == !InServeForever(s.loop) && s.loop != Accepting
    ensures Leads(s, actions, t)
    ensures t == s.(session := Committing, loop := t.loop, stopRequest := t.stopRequest, isShutDown := true,
                    commit := AwaitingServing(n), children := s.children[n := Accepter])
    ensures s.loop == Entered || s.loop == Selecting ==> t.loop == Waiting && !t.stopRequest
  {
    hide Leads, Step, InServeForever;
    var s1 := s.(session := Committing, commit := Stopping(n));
    var s2 := s1.(commit := StopRequested(n), stopRequest := true);
    Stays(s);
    Asks(s, n);
    Goes(s, [], s, BeginCommit, s1);
    Goes(s, [] + [BeginCommit], s1, RequestStop, s2);
    var leaving, s3 := Leaves(s2);
    actions := [] + [BeginCommit] + [RequestStop] + leaving;
    Joins(s, [] + [BeginCommit] + [RequestStop], s2, leaving, s3);
    SendsCommit(s3, n);
    Goes(s, actions, s3, StopObserved, s3.(commit := AcceptStopped(n)));
    var s5 := Put(s3.(commit := AwaitingServing(n)), n, Dormant.(inbox := [CommitOrder]));
    Goes(s, actions + [StopObserved], s3.(commit := AcceptStopped(n)), SendCommit, s5);
    ReadsCommit(s5, n);
    t := Put(s5, n, Accepter);
    Goes(s, actions + [StopObserved] + [SendCommit], s5, ChildReads(n), t);
    actions := actions + [StopObserved] + [SendCommit] + [ChildReads(n)];
  }

  /** An accepting replacement is proved to serve. */
  lemma GetsServing(s: State, n: ChildId) returns (actions: seq<Action>, t: State)
    requires s.commit == AwaitingServing(n) && n in s.children && s.children[n] == Accepter
    ensures Leads(s, actions, t)
    ensures t == Put(s.(session := Serving, commit := SawServing(n)), n, Accepter.(pc := AwaitingFinalize))
  {
    hide Leads, Step;
    var s1 := Put(s, n, Accepter.(pc := AwaitingFinalize, outbox := [ServingReply]));
    t := Put(s1.(session := Serving, commit := SawServing(n)), n, Accepter.(pc := AwaitingFinalize));
    Stays(s);
    Proves(s, n);
    Goes(s, [], s, ChildProves(n), s1);
    Serves(s1, n);
    Goes(s, [] + [ChildProves(n)], s1, ServingArrives, t);
    actions := [] + [ChildProves(n)] + [ServingArrives];
  }

  /** From an accepting replacement to one that has finalized. */
  lemma Finalizes(s: State, n: ChildId) returns (actions: seq<Action>, t: State)
    requires s.commit == AwaitingServing(n) && n in s.children && s.children[n] == Accepter
    ensures Leads(s, actions, t)
    ensures t == s.(session := Finalized, commit := SawFinalized(n), children := s.children[n := Successor])
  {
    hide Leads, Step;
    var s2: State;
    actions, s2 := GetsServing(s, n);
    var s3 := Put(s2.(session := Finalizing, commit := AwaitingFinalized(n)), n,
                  Accepter.(pc := AwaitingFinalize, inbox := [FinalizeOrder]));
    var s4 := Put(s3, n, Successor.(outbox := [FinalizedReply]));
    t := Put(s4.(session := Finalized, commit := SawFinalized(n)), n, Successor);
    OrdersFinal(s2, n);
    Goes(s, actions, s2, SendFinalize, s3);
    ReadsFinal(s3, n);
    Goes(s, actions + [SendFinalize], s3, ChildReads(n), s4);
    SeesFinal(s4, n);
    Goes(s, actions + [SendFinalize] + [ChildReads(n)], s4, FinalizedArrives, t);
    actions := actions + [SendFinalize] + [ChildReads(n)] + [FinalizedArrives];
  }

  // ---- runs that fail

  /** With a replacement accepting, a further request leads to a second one accepting beside it. */
  lemma SecondAccepts(s: State, c: ChildId, n: ChildId) returns (actions: seq<Action>, t: State)
    requires Inv(s) && PrepareGuard(s, Admit) && IsAccepting(s, c) && n !in s.children
    ensures Leads(s, actions, t) && actions != [] && actions[0] == Admit && !ReplacementAlone(t)
  {
    hide Leads, Step, Honest, OutcomeOk, BarrierOk;
    assert Armed(s, c);
    assert Shielded(s, c);
    var first, s1 := Prepares(s, n);
    var second, s2 := TakesOver(s1, n);
    Joins(s, first, s1, second, s2);
    actions, t := first + second, s2;
    assert IsAccepting(t, c) && IsAccepting(t, n);
  }

  /** Mutual exclusion needs its condition: after every run that met it, a request that endangers a
      replacement, if admitted, can be continued to a run in which two replacements accept. */
  lemma EndangeringBreaksExclusion(run: seq<State>, actions: seq<Action>, n: ChildId)
    requires IsRun(run, actions) && NeverEndangered(run, actions)
    requires PrepareGuard(run[|actions|], Admit) && Endangers(run[|actions|], Admit) && n !in run[|actions|].children
    ensures exists longer: seq<State>, more: seq<Action> ::
              Continues(run, actions, longer, more) && !ReplacementAlone(longer[|actions| + |more|])
  {
    hide Inv, Leads, Step, PrepareGuard, ReplacementAlone;
    var s := run[|actions|];
    RunKeepsInv(run, actions, |actions|);
    var c :| IsAccepting(s, c);
    var more, t := SecondAccepts(s, c, n);
    var longer := Extended(run, actions, more, t);
    assert Continues(run, actions, longer, more);
  }

  /** A longer run, continued by admitting a request. */
  ghost predicate Continues(run: seq<State>, actions: seq<Action>, longer: seq<State>, more: seq<Action>) {
    more != [] && more[0] == Admit && |longer| == |actions| + |more| + 1 && run <= longer
    && IsRun(longer, actions + more)
  }

  const AtRest := State(Idle, NoOutcome, Entered, false, false, NoPrepare, NoCommit, 0, 0, [], map[])

  /** A parent that has seen its replacement finalize and has not said so yet. */
  const HandedOverState :=
    State(Finalized, NoOutcome, Waiting, false, true, NoPrepare, SawFinalized(0), 0, 0, [0], map[0 := Successor])

  /** One whole handoff, as a run from rest. */
  lemma HandsOver() returns (run: seq<State>, actions: seq<Action>)
    ensures IsRun(run, actions) && run[|actions|] == HandedOverState
  {
    hide Leads, Step;
    var first, s1 := Prepares(AtRest, 0);
    var second, s2 := TakesOver(s1, 0);
    var third, s3 := Finalizes(s2, 0);
    Joins(AtRest, first, s1, second, s2);
    Joins(AtRest, first + second, s2, third, s3);
    actions := [] + (first + second + third);
    run := Extended([AtRest], [], first + second + third, s3);
  }

  lemma HandedOverInv()
    ensures Inv(HandedOverState) && PrepareGuard(HandedOverState, Admit) && Endangers(HandedOverState, Admit)
    ensures IsAccepting(HandedOverState, 0)
  {
    assert IsAccepting(HandedOverState, 0);
  }

  /** Two replacements accept at once in some run. */
  lemma ExclusionCanFail() returns (run: seq<State>, actions: seq<Action>)
    ensures IsRun(run, actions) && !ReplacementAlone(run[|actions|])
  {
    hide Leads, Step, PrepareGuard, ReplacementAlone, Inv;
    run, actions := HandsOver();
    HandedOverInv();
    var more, t := SecondAccepts(run[|actions|], 0, 1);
    run := Extended(run, actions, more, t);
    assert |actions + more| == |actions| + |more|;
    actions := actions + more;
  }

  // ---- the parent beside a replacement

  lemma Exits(s: State, n: ChildId)
    requires n in s.children
    ensures Step(s, ChildExits(n), Put(s, n, s.children[n].(alive := false)))
  {
  }

  lemma Confirms(s: State, n: ChildId)
    requires s.commit == CommitAborting(n, false) && n in s.children && !s.children[n].alive
    ensures Step(s, AbortConfirmed, s.(session := RolledBack, commit := Settling(n, OutRolledBack, false)))
  {
  }

  const Gone := Dormant.(inbox := [AbortOrder], alive := false)

  /** A commit that fails before the stop, and whose replacement exits. */
  lemma FailsAndExits(s: State, n: ChildId) returns (actions: seq<Action>, t: State)
    requires s.commit == Begun(n) && n in s.children && s.children[n] == Dormant
    ensures Leads(s, actions, t)
    ensures t == Put(s.(session := RolledBack, outcome := OutRolledBack, commit := NoCommit,
                        lateStops := s.lateStops + 1), n, Gone)
  {
    hide Leads, Step;
    var s1: State;
    actions, s1 := StopsShort(s, n);
    var s2 := Put(s1, n, Gone);
    var s3 := s2.(session := RolledBack, commit := Settling(n, OutRolledBack, false));
    t := s3.(outcome := OutRolledBack, commit := NoCommit, lateStops := s3.lateStops + 1);
    Exits(s1, n);
    Goes(s, actions, s1, ChildExits(n), s2);
    Confirms(s2, n);
    Goes(s, actions + [ChildExits(n)], s2, AbortConfirmed, s3);
    RecordsIt(s3);
    Goes(s, actions + [ChildExits(n)] + [AbortConfirmed], s3, RecordOutcome, t);
    actions := actions + [ChildExits(n)] + [AbortConfirmed] + [RecordOutcome];
  }

  /** A whole handoff request that ends in a recorded rollback, without the serve loop taking part. */
  lemma RollsBack(s: State, n: ChildId) returns (actions: seq<Action>, t: State)
    requires PrepareGuard(s, Admit) && n !in s.children && (s.commit == NoCommit || s.commit.SawFinalized?)
    ensures Leads(s, actions, t) && actions != [] && actions[0] == Admit
    ensures t == s.(session := RolledBack, outcome := OutRolledBack, prepare := NoPrepare, commit := NoCommit,
                    current := [n],
                    lateFinals := s.lateFinals + Owed(s.commit), lateStops := s.lateStops + 1,
                    children := s.children[n := Gone])
  {
    hide Leads, Step, PrepareGuard;
    var first, s1 := Prepares(s, n);
    var second: seq<Action>;
    second, t := FailsAndExits(s1, n);
    Joins(s, first, s1, second, t);
    actions := first + second;
  }

  /** The loop, if it is not there yet, gets to wait for an outcome. */
  lemma Waits(s: State) returns (actions: seq<Action>, t: State)
    requires Parked(s) && s.loop != Stopped && s.isShutDown == !InServeForever(s.loop)
    ensures Leads(s, actions, t)
    ensures t == s.(loop := Waiting, stopRequest := t.stopRequest, isShutDown := true)
    ensures s.loop == Waiting || s.loop == Cleared ==> t.stopRequest == s.stopRequest
    ensures s.loop != Waiting && s.loop != Cleared ==> !t.stopRequest
  {
    hide Leads;
    Stays(s);
    actions, t := [], s;
    if t.loop == Resuming {
      Goes(s, actions, t, LoopResume, LoopStep(t, LoopResume));
      actions, t := actions + [LoopResume], LoopStep(t, LoopResume);
    }
    if t.loop == Entered {
      Goes(s, actions, t, LoopCheck, LoopStep(t, LoopCheck));
      actions, t := actions + [LoopCheck], LoopStep(t, LoopCheck);
    }
    if t.loop == Leaving {
      Goes(s, actions, t, LoopClear, LoopStep(t, LoopClear));
      actions, t := actions + [LoopClear], LoopStep(t, LoopClear);
    }
    if t.loop == Cleared {
      Goes(s, actions, t, LoopLeave, LoopStep(t, LoopLeave));
      actions, t := actions + [LoopLeave], LoopStep(t, LoopLeave);
    }
  }

  /** A loop that reads the rollback serves again. */
  lemma Resumes(s: State) returns (actions: seq<Action>, t: State)
    requires s.loop == Waiting && s.outcome == OutRolledBack
    ensures Leads(s, actions, t)
    ensures t == s.(session := Idle, outcome := NoOutcome, loop := Entered, isShutDown := false)
  {
    hide Leads;
    var s1 := s.(loop := SawRollback);
    var s2 := s1.(loop := Resuming, session := Idle, outcome := NoOutcome);
    t := s2.(loop := Entered, isShutDown := false);
    Stays(s);
    Goes(s, [], s, LoopWake, s1);
    Goes(s, [] + [LoopWake], s1, LoopReset, s2);
    Goes(s, [] + [LoopWake] + [LoopReset], s2, LoopResume, t);
    actions := [] + [LoopWake] + [LoopReset] + [LoopResume];
  }

  /** One round: a request rolls back and the serve loop enters again. */
  lemma OneRound(s: State, n: ChildId) returns (actions: seq<Action>, t: State)
    requires PrepareGuard(s, Admit) && n !in s.children && (s.commit == NoCommit || s.commit.SawFinalized?)
    requires Parked(s) && s.loop != Stopped && s.isShutDown == !InServeForever(s.loop)
    ensures Leads(s, actions, t) && actions != [] && actions[0] == Admit
    ensures t == s.(session := Idle, outcome := NoOutcome, loop := Entered, isShutDown := false, prepare := NoPrepare,
                    commit := NoCommit, current := [n], lateFinals := t.lateFinals, lateStops := t.lateStops,
                    stopRequest := t.stopRequest, children := s.children[n := Gone])
    ensures t.stopRequest ==> (s.loop == Waiting || s.loop == Cleared) && s.stopRequest
  {
    hide Leads, Step, PrepareGuard, Parked, InServeForever;
    var first, s1 := RollsBack(s, n);
    SameParked(s, s1);
    var second, s2 := Waits(s1);
    Joins(s, first, s1, second, s2);
    var third: seq<Action>;
    third, t := Resumes(s2);
    Joins(s, first + second, s2, third, t);
    actions := first + second + third;
  }

  lemma Enters(s: State)
    requires s.loop == Entered && !s.stopRequest
    ensures Step(s, LoopCheck, s.(loop := Selecting))
  {
  }

  /** With a replacement accepting and the serve loop not gone, one or two rounds of a request that
      rolls back lead to the parent accepting beside it. */
  lemma ParentJoins(s: State, c: ChildId, n: ChildId, m: ChildId) returns (actions: seq<Action>, t: State)
    requires Inv(s) && PrepareGuard(s, Admit) && IsAccepting(s, c) && s.loop != Stopped
    requires n !in s.children && m !in s.children && n != m
    ensures Leads(s, actions, t) && actions != [] && actions[0] == Admit && ParentAccepts(t) && IsAccepting(t, c)
  {
    hide Leads, Step, Honest, OutcomeOk, BarrierOk;
    assert Armed(s, c);
    assert Shielded(s, c);
    var s1: State;
    actions, s1 := OneRound(s, n);
    if s1.stopRequest {
      AdmitsSoon(s1);
      var again, s2 := OneRound(s1, m);
      Joins(s, actions, s1, again, s2);
      actions, s1 := actions + again, s2;
    }
    t := s1.(loop := Selecting);
    Enters(s1);
    Goes(s, actions, s1, LoopCheck, t);
    actions := actions + [LoopCheck];
  }

  /** The parent's half needs its condition: after every run that met it, a request that exposes a
      replacement, if admitted, can be continued to a run in which the parent accepts beside it. */
  lemma ExposingBreaksExclusion(run: seq<State>, actions: seq<Action>, n: ChildId, m: ChildId)
    requires IsRun(run, actions) && NeverExposed(run, actions)
    requires PrepareGuard(run[|actions|], Admit) && Exposes(run[|actions|], Admit)
    requires n !in run[|actions|].children && m !in run[|actions|].children && n != m
    ensures exists longer: seq<State>, more: seq<Action> ::
              Continues(run, actions, longer, more) && !ParentAlone(longer[|actions| + |more|])
  {
    hide Core, Honest, AllShielded, Leads, Step, PrepareGuard;
    var s := run[|actions|];
    RunKeepsParent(run, actions, |actions|);
    var c :| IsAccepting(s, c);
    var more, t := ParentJoins(s, c, n, m);
    var longer := Extended(run, actions, more, t);
    assert Continues(run, actions, longer, more);
  }

  /** The parent accepts beside the replacement it handed over to, in some run from rest. */
  lemma ParentCanJoin() returns (run: seq<State>, actions: seq<Action>)
    ensures IsRun(run, actions) && !ParentAlone(run[|actions|])
  {
    hide Leads, Step, PrepareGuard, Inv;
    run, actions := HandsOver();
    HandedOverInv();
    var more, t := ParentJoins(run[|actions|], 0, 1, 2);
    run := Extended(run, actions, more, t);
    assert |actions + more| == |actions| + |more|;
    actions := actions + more;
  }

  /** The record that comes late stands against the handoff that is under way. */
  lemma Overtaken(s: State, n: ChildId) returns (actions: seq<Action>, t: State)
    requires PrepareGuard(s, Admit) && Overtakes(s, Admit) && n !in s.children
    ensures Leads(s, actions, t) && actions != [] && actions[0] == Admit && t.outcome == OutFinalized
    ensures !CurrentFinalized(t)
  {
    hide Leads;
    var s1 := PrepareStep(s, Admit);
    var s2 := PrepareStep(s1, Spawn(n));
    t := s2.(outcome := OutFinalized, lateFinals := s2.lateFinals - 1);
    Stays(s);
    Admits(s);
    Goes(s, [], s, Admit, s1);
    Spawns(s1, n);
    Goes(s, [] + [Admit], s1, Spawn(n), s2);
    Goes(s, [] + [Admit] + [Spawn(n)], s2, LateRecord, t);
    actions := [] + [Admit] + [Spawn(n)] + [LateRecord];
  }

  /** A recorded `finalized` needs its condition too: after every run that stands between seeing the
      replacement finalize and saying so, a request that overtakes can be continued to a run that
      records `finalized` for a handoff whose replacement has not finalized. */
  lemma OvertakingDisagrees(run: seq<State>, actions: seq<Action>, n: ChildId)
    requires IsRun(run, actions) && PrepareGuard(run[|actions|], Admit) && Overtakes(run[|actions|], Admit)
    requires n !in run[|actions|].children
    ensures exists longer: seq<State>, more: seq<Action> :: Continues(run, actions, longer, more)
              && longer[|actions| + |more|].outcome == OutFinalized && !CurrentFinalized(longer[|actions| + |more|])
  {
    hide Leads, Step, PrepareGuard, CurrentFinalized, Overtakes;
    var more, t := Overtaken(run[|actions|], n);
    var longer := Extended(run, actions, more, t);
    assert Continues(run, actions, longer, more);
  }

  /** And some run does. */
  lemma OutcomeCanDisagree() returns (run: seq<State>, actions: seq<Action>)
    ensures IsRun(run, actions) && run[|actions|].outcome == OutFinalized && !CurrentFinalized(run[|actions|])
  {
    hide Leads, Step, PrepareGuard, Inv, CurrentFinalized, Endangers;
    run, actions := HandsOver();
    HandedOverInv();
    var more, t := Overtaken(run[|actions|], 1);
    run := Extended(run, actions, more, t);
    assert |actions + more| == |actions| + |more|;
    actions := actions + more;
  }

  /** The commit fails before the accept loop has stopped, and begins to abort. */
  lemma StopsShort(s: State, n: ChildId) returns (actions: seq<Action>, t: State)
    requires s.commit == Begun(n) && n in s.children && s.children[n] == Dormant
    ensures Leads(s, actions, t)
    ensures t == Put(s.(session := Aborting, commit := CommitAborting(n, false)), n, Dormant.(inbox := [AbortOrder]))
  {
    hide Leads, Step;
    var s1 := s.(session := Committing, commit := Stopping(n));
    var s2 := s1.(commit := CommitFailed(n, false));
    t := Put(s.(session := Aborting, commit := CommitAborting(n, false)), n, Dormant.(inbox := [AbortOrder]));
    Stays(s);
    Asks(s, n);
    Goes(s, [], s, BeginCommit, s1);
    RaisesInstead(s1, n);
    Goes(s, [] + [BeginCommit], s1, StopRaises, s2);
    Aborts(s2, n);
    Goes(s, [] + [BeginCommit] + [StopRaises], s2, BeginAbort, t);
    actions := [] + [BeginCommit] + [StopRaises] + [BeginAbort];
  }

  /** The abort is not confirmed. */
  lemma FailsToStop(s: State, n: ChildId) returns (actions: seq<Action>, t: State)
    requires s.commit == Begun(n) && n in s.children && s.children[n] == Dormant
    ensures Leads(s, actions, t)
    ensures t == Put(s.(session := Aborting, commit := Settling(n, OutUnconfirmed, false)), n,
                     Dormant.(inbox := [AbortOrder]))
  {
    hide Leads, Step;
    var s1: State;
    actions, s1 := StopsShort(s, n);
    t := s1.(commit := Settling(n, OutUnconfirmed, false));
    GivesUp(s1, n);
    Goes(s, actions, s1, AbortUnconfirmed, t);
    actions := actions + [AbortUnconfirmed];
  }

  lemma RaisesInstead(s: State, n: ChildId)
    requires s.commit == Stopping(n)
    ensures Step(s, StopRaises, s.(commit := CommitFailed(n, false)))
  {
  }

  lemma Aborts(s: State, n: ChildId)
    requires s.commit == CommitFailed(n, false) && n in s.children && s.children[n] == Dormant
    ensures Step(s, BeginAbort,
                 Put(s.(session := Aborting, commit := CommitAborting(n, false)), n, Dormant.(inbox := [AbortOrder])))
  {
    assert [] + [AbortOrder] == [AbortOrder];
  }

  lemma GivesUp(s: State, n: ChildId)
    requires s.commit == CommitAborting(n, false)
    ensures Step(s, AbortUnconfirmed, s.(commit := Settling(n, OutUnconfirmed, false)))
  {
  }

  /** A commit that never saw the accept loop stop is about to record an unconfirmed abort. */
  lemma AboutToRecord() returns (run: seq<State>, actions: seq<Action>)
    ensures IsRun(run, actions)
    ensures var s := run[|actions|];
      s.loop == Selecting && s.lateStops == 0 && s.commit == Settling(0, OutUnconfirmed, false)
  {
    hide Leads, Step;
    var s0 := AtRest.(loop := Selecting);
    Stays(AtRest);
    Selects();
    Goes(AtRest, [], AtRest, LoopCheck, s0);
    AdmitsSoon(s0);
    var first, s1 := Prepares(s0, 0);
    var second, s2 := FailsToStop(s1, 0);
    Joins(AtRest, [] + [LoopCheck], s0, first, s1);
    Joins(AtRest, [] + [LoopCheck] + first, s1, second, s2);
    var before := [] + [LoopCheck] + first + second;
    RestIsInitial();
    run := Extended([AtRest], [], before, s2);
    assert [] + before == before;
    actions := before;
  }

  lemma AdmitsSoon(s: State)
    requires s.prepare == NoPrepare && s.session == Idle
    ensures PrepareGuard(s, Admit)
  {
  }

  lemma RestIsInitial()
    ensures IsRun([AtRest], [])
  {
  }

  /** The stop fails, the abort cannot be confirmed, and the parent accepts although it is recorded. */
  lemma UnstoppedAccepts() returns (run: seq<State>, actions: seq<Action>, i: nat)
    ensures IsRun(run, actions) && i + 1 == |actions| && RecordsUnconfirmed(run[i], actions[i], false)
    ensures run[i + 1].outcome == OutUnconfirmed && ParentAccepts(run[i + 1])
  {
    hide Leads, Step;
    var shorter, before := AboutToRecord();
    i := |before|;
    var s := shorter[i];
    var t := s.(outcome := OutUnconfirmed, commit := NoCommit, lateStops := s.lateStops + 1);
    RecordsIt(s);
    run := shorter + [t];
    actions := before + [RecordOutcome];
  }

  lemma Selects()
    ensures Step(AtRest, LoopCheck, AtRest.(loop := Selecting))
  {
  }

  lemma RecordsIt(s: State)
    requires s.commit.Settling? && !s.commit.stopped
    ensures Step(s, RecordOutcome, s.(outcome := s.commit.outcome, commit := NoCommit, lateStops := s.lateStops + 1))
  {
  }
}
