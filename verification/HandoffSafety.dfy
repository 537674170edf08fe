/** What holds in every interleaving of a handoff; and, for what does not, exactly when it does. */
module HandoffSafety {
  import opened Handoff

  // ---- what every run keeps

  /** The serve loop has stopped, or will stop before it can accept. */
  predicate Parked(s: State) {
    || s.loop == Waiting || s.loop == Stopped || s.loop == Leaving || s.loop == Cleared
    || ((s.loop == Resuming || s.loop == Entered) && s.stopRequest)
  }

  predicate BeforeBarrier(pc: CommitPc) {
    pc.Begun? || pc.Stopping? || pc.StopRequested? || pc.AcceptStopped?
  }

  /** The commit has seen the accept loop stop. */
  predicate BehindBarrier(pc: CommitPc) {
    || pc.AcceptStopped? || pc.AwaitingServing? || pc.SawServing? || pc.AwaitingFinalized? || pc.SawFinalized?
    || ((pc.CommitFailed? || pc.CommitAborting? || pc.Settling?) && pc.stopped)
  }

  predicate Exited(s: State, c: ChildId) {
    c in s.children && !s.children[c].alive
  }

  predicate LoopOk(s: State) {
    && (s.isShutDown <==> !InServeForever(s.loop))
    && (s.loop == SawRollback ==> s.session == RolledBack && s.commit == NoCommit && s.prepare == NoPrepare)
  }

  predicate OutcomeOk(s: State) {
    && (s.outcome == OutRolledBack ==>
          s.session == RolledBack && s.commit == NoCommit && s.prepare == NoPrepare && |s.current| == 1
          && Exited(s, s.current[0]))
    && (s.outcome == OutUnconfirmed ==> s.session == Aborting && s.commit == NoCommit && s.prepare == NoPrepare)
  }

  predicate BarrierOk(s: State) {
    && (BehindBarrier(s.commit) ==> Parked(s))
    && (s.commit.StopRequested? ==> s.stopRequest || s.loop == Cleared || s.loop == Waiting || s.loop == Stopped)
  }

  predicate CommitOk(s: State) {
    s.commit != NoCommit ==>
      && s.current == [s.commit.child] && s.commit.child in s.children && s.prepare == NoPrepare
      && match s.commit
         case Begun(_) => s.session == Ready
         case SawServing(_) => s.session == Serving
         case AwaitingFinalized(_) => s.session == Finalizing
         case SawFinalized(_) => s.session == Finalized
         case CommitFailed(_, _) => s.session == Committing || s.session == Finalizing
         case CommitAborting(_, _) => s.session == Aborting
         case Settling(c, o, _) =>
           || (o == OutRolledBack && s.session == RolledBack && Exited(s, c))
           || (o == OutUnconfirmed && s.session == Aborting)
         case _ => s.session == Committing
  }

  predicate PrepareOk(s: State) {
    && (s.prepare != NoPrepare ==> s.commit == NoCommit)
    && match s.prepare
       case NoPrepare => s.session != Preparing
       case Spawning => s.session == Preparing && s.current == []
       case Started(c) => s.session == Preparing && s.current == [c] && c in s.children
       case AwaitingReady(c) => s.session == Preparing && s.current == [c] && c in s.children
       case PrepareAborting(c) => s.session == Aborting && s.current == [c] && c in s.children
       case PrepareAborted => s.session == RolledBack
  }

  /** The invariant of every run, whatever the replacements do. */
  predicate Core(s: State) {
    LoopOk(s) && OutcomeOk(s) && BarrierOk(s) && CommitOk(s) && PrepareOk(s)
  }

  lemma LoopKeeps(s: State, a: Action)
    requires Core(s) && LoopGuard(s, a)
    ensures Core(LoopStep(s, a))
  {
  }

  lemma PrepareKeeps(s: State, a: Action)
    requires Core(s) && PrepareGuard(s, a)
    ensures Core(PrepareStep(s, a))
  {
  }

  lemma CommitKeepsBarrier(s: State, a: Action)
    requires Core(s) && CommitGuard(s, a)
    ensures BarrierOk(CommitStep(s, a))
  {
    hide OutcomeOk, PrepareOk, Exited;
  }

  lemma CommitKeepsOutcome(s: State, a: Action)
    requires Core(s) && CommitGuard(s, a)
    ensures var t := CommitStep(s, a); LoopOk(t) && OutcomeOk(t) && PrepareOk(t)
  {
    hide BarrierOk;
  }

  lemma CommitKeepsPhase(s: State, a: Action)
    requires Core(s) && CommitGuard(s, a)
    ensures CommitOk(CommitStep(s, a))
  {
    hide BarrierOk, LoopOk, OutcomeOk, PrepareOk;
  }

  lemma CommitKeeps(s: State, a: Action)
    requires Core(s) && CommitGuard(s, a)
    ensures Core(CommitStep(s, a))
  {
    hide LoopOk, OutcomeOk, BarrierOk, CommitOk, PrepareOk, CommitGuard, CommitStep;
    CommitKeepsBarrier(s, a);
    CommitKeepsOutcome(s, a);
    CommitKeepsPhase(s, a);
  }

  /** A replacement that changes only itself, and is not revived. */
  lemma PutKeeps(s: State, c: ChildId, child: Child)
    requires Core(s) && c in s.children && (child.alive ==> s.children[c].alive)
    ensures Core(Put(s, c, child))
  {
  }

  lemma ChildKeeps(s: State, a: Action)
    requires Core(s) && ChildGuard(s, a)
    ensures Core(ChildStep(s, a))
  {
    hide Core;
    PutKeeps(s, a.c, ChildStep(s, a).children[a.c]);
  }

  lemma StepKeeps(s: State, a: Action, t: State)
    requires Core(s) && Step(s, a, t)
    ensures Core(t)
  {
    hide Core, LoopGuard, PrepareGuard, CommitGuard, ChildGuard, LoopStep, PrepareStep, CommitStep, ChildStep;
    if LoopGuard(s, a) {
      LoopKeeps(s, a);
    } else if PrepareGuard(s, a) {
      PrepareKeeps(s, a);
    } else if CommitGuard(s, a) {
      CommitKeeps(s, a);
    } else {
      ChildKeeps(s, a);
    }
  }

  lemma InitialCore(s: State)
    requires Initial(s)
    ensures Core(s)
  {
  }

  lemma {:induction false} RunKeeps(run: seq<State>, actions: seq<Action>, i: nat)
    requires IsRun(run, actions) && i < |run|
    ensures Core(run[i])
  {
    hide Core, Step;
    if i == 0 {
      InitialCore(run[0]);
    } else {
      RunKeeps(run, actions, i - 1);
      StepKeeps(run[i - 1], actions[i - 1], run[i]);
    }
  }

  // ---- the transition table

  /** The reset of a request that never had a child leaves `preparing` for `idle` off the table. */
  predicate ChildlessReset(a: Action, from: SessionState, to: SessionState) {
    a == SpawnFails && from == Preparing && to == Idle
  }

  predicate Followed(from: SessionState, to: SessionState) {
    from == to || Edge(from, to) || (Edge(from, Idle) && Edge(Idle, to))
  }

  lemma LoopFollows(s: State, a: Action)
    requires Core(s) && LoopGuard(s, a)
    ensures Followed(s.session, LoopStep(s, a).session)
  {
    hide BarrierOk, OutcomeOk, CommitOk, PrepareOk;
  }

  lemma PrepareFollows(s: State, a: Action)
    requires Core(s) && PrepareGuard(s, a)
    ensures Followed(s.session, PrepareStep(s, a).session) || ChildlessReset(a, s.session, PrepareStep(s, a).session)
  {
    hide BarrierOk, OutcomeOk, CommitOk, LoopOk;
  }

  lemma CommitFollows(s: State, a: Action)
    requires Core(s) && CommitGuard(s, a)
    ensures Followed(s.session, CommitStep(s, a).session)
  {
    hide BarrierOk, OutcomeOk, PrepareOk, LoopOk, Exited;
  }

  lemma ChildStepIsPut(s: State, a: Action)
    requires ChildGuard(s, a)
    ensures ChildStep(s, a) == s.(children := ChildStep(s, a).children)
  {
    hide ChildRead;
  }

  lemma StepFollows(s: State, a: Action, t: State)
    requires Core(s) && Step(s, a, t)
    ensures Followed(s.session, t.session) || ChildlessReset(a, s.session, t.session)
  {
    hide Core, LoopGuard, PrepareGuard, CommitGuard, ChildGuard, LoopStep, PrepareStep, CommitStep, ChildStep,
         ChildlessReset, Edge;
    if LoopGuard(s, a) {
      LoopFollows(s, a);
    } else if PrepareGuard(s, a) {
      PrepareFollows(s, a);
    } else if CommitGuard(s, a) {
      CommitFollows(s, a);
    } else {
      ChildStepIsPut(s, a);
    }
  }

  /** How far a handoff that goes through has come; the two states of one that does not come last. */
  function Stage(state: SessionState): nat {
    match state
    case Idle => 0
    case Preparing => 1
    case Ready => 2
    case Committing => 3
    case Serving => 4
    case Finalizing => 5
    case Finalized => 6
    case Aborting => 7
    case RolledBack => 8
  }

  /** The table: one stage on and round again, an abort from strictly inside, and from there back. */
  lemma TableIs(from: SessionState, to: SessionState)
    ensures Edge(from, to) <==>
      || (Stage(from) <= 6 && Stage(to) == (Stage(from) + 1) % 7)
      || (1 <= Stage(from) <= 5 && to == Aborting)
      || (from == Aborting && to == RolledBack)
      || (from == RolledBack && to == Idle)
  {
  }

  /** In every run every change of the session state follows the transition table, except the
      childless reset. */
  lemma FollowsTable(run: seq<State>, actions: seq<Action>, i: nat)
    requires IsRun(run, actions) && i < |actions|
    ensures Followed(run[i].session, run[i + 1].session)
            || ChildlessReset(actions[i], run[i].session, run[i + 1].session)
  {
    hide Core, Step, Followed, ChildlessReset;
    RunKeeps(run, actions, i);
    StepFollows(run[i], actions[i], run[i + 1]);
  }

  // ---- mutual exclusion

  /** COMMIT is on its way to this replacement, or it has read it, and it still lives. */
  predicate Armed(s: State, c: ChildId) {
    c in s.children && s.children[c].alive && (s.children[c].committed || CommitOrder in s.children[c].inbox)
  }

  /** Nothing else may accept while this replacement may. */
  predicate Shielded(s: State, c: ChildId) {
    && s.current == [c] && Parked(s) && s.prepare == NoPrepare && !BeforeBarrier(s.commit)
    && (s.session == Committing || s.session == Serving || s.session == Finalizing || s.session == Finalized
        || s.session == Aborting)
    && s.outcome != OutRolledBack
  }

  ghost predicate AllShielded(s: State) {
    forall c :: Armed(s, c) ==> Shielded(s, c)
  }

  predicate IsAccepting(s: State, c: ChildId) {
    c in s.children && ChildAccepts(s.children[c])
  }

  /** A request admitted while a replacement already accepts on the listener. */
  ghost predicate Endangers(s: State, a: Action) {
    a == Admit && exists c :: IsAccepting(s, c)
  }

  ghost predicate NeverEndangered(run: seq<State>, actions: seq<Action>)
    requires |run| == |actions| + 1
  {
    forall i :: 0 <= i < |actions| ==> !Endangers(run[i], actions[i])
  }

  lemma LoopShields(s: State, a: Action, c: ChildId)
    requires Core(s) && LoopGuard(s, a) && Shielded(s, c)
    ensures Shielded(LoopStep(s, a), c)
  {
    hide BarrierOk, CommitOk, PrepareOk;
  }

  /** A shielded replacement may still be sent another COMMIT only by the request that would endanger it. */
  lemma PrepareShields(s: State, a: Action, c: ChildId)
    requires Core(s) && PrepareGuard(s, a) && Shielded(s, c)
    ensures a == Admit && s.session == Finalized
  {
    hide BarrierOk, CommitOk, LoopOk, OutcomeOk;
  }

  lemma CommitShields(s: State, a: Action, c: ChildId)
    requires Core(s) && CommitGuard(s, a) && Shielded(s, c) && Armed(s, c)
    ensures Shielded(CommitStep(s, a), c)
  {
    hide BarrierOk, PrepareOk, LoopOk, OutcomeOk;
  }

  predicate MayAccept(c: Child) {
    c.alive && (c.committed || CommitOrder in c.inbox)
  }

  /** Outside SendCommit the parent arms nobody. */
  lemma PrepareArms(s: State, a: Action, c: ChildId)
    requires PrepareGuard(s, a) && Armed(PrepareStep(s, a), c)
    ensures Armed(s, c)
  {
  }

  lemma CommitArms(s: State, a: Action, c: ChildId)
    requires CommitGuard(s, a) && a != SendCommit && Armed(CommitStep(s, a), c)
    ensures Armed(s, c)
  {
  }

  lemma ReadingArms(c: Child)
    requires c.inbox != [] && MayAccept(ChildRead(c))
    ensures MayAccept(c)
  {
    assert c.inbox == [c.inbox[0]] + c.inbox[1..];
  }

  /** A replacement does not arm itself. */
  lemma ChildArms(s: State, a: Action, c: ChildId)
    requires ChildGuard(s, a) && Armed(ChildStep(s, a), c)
    ensures Armed(s, c)
  {
    hide ChildRead;
    if a == ChildReads(c) {
      ReadingArms(s.children[c]);
    }
  }

  lemma SendCommitArms(s: State, c: ChildId)
    requires CommitGuard(s, SendCommit) && Armed(CommitStep(s, SendCommit), c)
    ensures Armed(s, c) || c == s.commit.child
  {
  }

  lemma SendCommitShields(s: State)
    requires Core(s) && CommitGuard(s, SendCommit)
    ensures Shielded(CommitStep(s, SendCommit), s.commit.child)
  {
    hide PrepareOk, LoopOk;
  }

  /** What a replacement has said about itself is true. */
  predicate Truthful(c: Child) {
    && (FinalizedReply in c.outbox ==> c.finalized) && (c.finalized ==> c.committed)
    && (c.pc == Probing || c.pc == AwaitingFinalize ==> c.committed)
  }

  /** The replacement of a finalized session has finalized. */
  predicate Proved(s: State) {
    s.session == Finalized && s.current != [] ==>
      |s.current| == 1 && s.current[0] in s.children && s.children[s.current[0]].finalized
  }

  ghost predicate Honest(s: State) {
    Proved(s) && forall c :: c in s.children ==> Truthful(s.children[c])
  }

  lemma LoopHonest(s: State, a: Action)
    requires Honest(s) && LoopGuard(s, a)
    ensures Honest(LoopStep(s, a))
  {
  }

  lemma PrepareHonest(s: State, a: Action)
    requires Core(s) && Honest(s) && PrepareGuard(s, a)
    ensures Honest(PrepareStep(s, a))
  {
    hide BarrierOk, LoopOk, OutcomeOk, CommitOk;
  }

  lemma CommitHonest(s: State, a: Action)
    requires Core(s) && Honest(s) && CommitGuard(s, a)
    ensures Honest(CommitStep(s, a))
  {
    hide BarrierOk, LoopOk, OutcomeOk, PrepareOk;
  }

  lemma ReadsHonestly(c: Child)
    requires Truthful(c) && c.inbox != []
    ensures Truthful(ChildRead(c)) && (c.finalized ==> ChildRead(c).finalized)
  {
  }

  lemma ChildHonest(s: State, a: Action)
    requires Honest(s) && ChildGuard(s, a)
    ensures Honest(ChildStep(s, a))
  {
    hide ChildRead;
    if a.ChildReads? {
      ReadsHonestly(s.children[a.c]);
    }
  }

  /** The invariant of the runs in which no accepting replacement is endangered. */
  ghost predicate Inv(s: State) {
    Core(s) && Honest(s) && AllShielded(s)
  }

  lemma StepHonest(s: State, a: Action, t: State)
    requires Core(s) && Honest(s) && Step(s, a, t)
    ensures Honest(t)
  {
    hide Core, Honest, LoopGuard, PrepareGuard, CommitGuard, ChildGuard, LoopStep, PrepareStep, CommitStep, ChildStep;
    if LoopGuard(s, a) {
      LoopHonest(s, a);
    } else if PrepareGuard(s, a) {
      PrepareHonest(s, a);
    } else if CommitGuard(s, a) {
      CommitHonest(s, a);
    } else {
      ChildHonest(s, a);
    }
  }

  lemma ArmedAccepts(s: State, c: ChildId)
    requires Honest(s) && Armed(s, c) && s.session == Finalized && s.current == [c]
    ensures IsAccepting(s, c)
  {
  }

  lemma ShieldsStay(s: State, a: Action, t: State, c: ChildId)
    requires Core(s) && Honest(s) && AllShielded(s) && Step(s, a, t) && !Endangers(s, a) && Armed(t, c)
    ensures Shielded(t, c)
  {
    hide Core, Honest, Parked, BeforeBarrier, LoopGuard, PrepareGuard, CommitGuard, ChildGuard, LoopStep, PrepareStep,
         CommitStep, ChildStep, Armed;
    if LoopGuard(s, a) {
      SameArmed(s, LoopStep(s, a), a, c);
      LoopShields(s, a, c);
    } else if PrepareGuard(s, a) {
      PrepareArms(s, a, c);
      PrepareShields(s, a, c);
      ArmedAccepts(s, c);
    } else if CommitGuard(s, a) {
      if a == SendCommit {
        SendCommitArms(s, c);
        SendCommitShields(s);
      } else {
        CommitArms(s, a, c);
      }
      if Armed(s, c) {
        CommitShields(s, a, c);
      }
    } else {
      ChildArms(s, a, c);
      ChildStepIsPut(s, a);
      SameParked(s, t);
    }
  }

  lemma SameArmed(s: State, t: State, a: Action, c: ChildId)
    requires LoopGuard(s, a) && t == LoopStep(s, a)
    ensures Armed(s, c) <==> Armed(t, c)
  {
  }

  lemma SameParked(s: State, t: State)
    requires s.loop == t.loop && s.stopRequest == t.stopRequest
    ensures Parked(s) <==> Parked(t)
  {
  }

  lemma StepKeepsInv(s: State, a: Action, t: State)
    requires Inv(s) && Step(s, a, t) && !Endangers(s, a)
    ensures Inv(t)
  {
    hide Core, Honest, Step, Endangers, Armed, Shielded;
    StepKeeps(s, a, t);
    StepHonest(s, a, t);
    forall c | Armed(t, c) ensures Shielded(t, c) {
      ShieldsStay(s, a, t, c);
    }
  }

  lemma InitialInv(s: State)
    requires Initial(s)
    ensures Inv(s)
  {
  }

  lemma {:induction false} RunKeepsInv(run: seq<State>, actions: seq<Action>, i: nat)
    requires IsRun(run, actions) && NeverEndangered(run, actions) && i < |run|
    ensures Inv(run[i])
  {
    hide Inv, Step, Endangers;
    if i == 0 {
      InitialInv(run[0]);
    } else {
      RunKeepsInv(run, actions, i - 1);
      StepKeepsInv(run[i - 1], actions[i - 1], run[i]);
    }
  }

  /** The parent's accept loop never runs beside a replacement's. */
  ghost predicate ParentAlone(s: State) {
    ParentAccepts(s) ==> forall c :: !IsAccepting(s, c)
  }

  /** No two replacements accept. */
  ghost predicate ReplacementAlone(s: State) {
    forall c, d :: IsAccepting(s, c) && IsAccepting(s, d) ==> c == d
  }

  /** At most one accept loop runs. */
  ghost predicate Exclusive(s: State) {
    ParentAlone(s) && ReplacementAlone(s)
  }

  lemma InvIsExclusive(s: State)
    requires Inv(s)
    ensures Exclusive(s)
  {
    hide Core, Honest;
    forall c: ChildId | IsAccepting(s, c) ensures s.current == [c] && Parked(s) {
      assert Armed(s, c);
    }
  }

  /** In every interleaving in which no request is admitted while a replacement accepts, at most one
      accept loop ever runs. */
  lemma MutualExclusion(run: seq<State>, actions: seq<Action>, i: nat)
    requires IsRun(run, actions) && NeverEndangered(run, actions) && i < |run|
    ensures Exclusive(run[i])
  {
    hide Inv, Step, Endangers, Exclusive;
    RunKeepsInv(run, actions, i);
    InvIsExclusive(run[i]);
  }

  // ---- the parent's half of mutual exclusion

  /** A request that endangers a replacement while the serve loop can still come back. */
  ghost predicate Exposes(s: State, a: Action) {
    Endangers(s, a) && s.loop != Stopped
  }

  ghost predicate NeverExposed(run: seq<State>, actions: seq<Action>)
    requires |run| == |actions| + 1
  {
    forall i :: 0 <= i < |actions| ==> !Exposes(run[i], actions[i])
  }

  /** Either the serve loop is gone for good, or nothing else may accept beside a replacement. */
  ghost predicate ParentInv(s: State) {
    Core(s) && Honest(s) && (s.loop == Stopped || AllShielded(s))
  }

  lemma StoppedStays(s: State, a: Action, t: State)
    requires s.loop == Stopped && Step(s, a, t)
    ensures t.loop == Stopped
  {
    hide LoopStep, PrepareGuard, PrepareStep, CommitGuard, CommitStep, ChildGuard, ChildStep;
    if PrepareGuard(s, a) {
      PrepareLeavesLoop(s, a);
    } else if CommitGuard(s, a) {
      CommitLeavesLoop(s, a);
    } else {
      ChildStepIsPut(s, a);
    }
  }

  lemma PrepareLeavesLoop(s: State, a: Action)
    requires PrepareGuard(s, a)
    ensures PrepareStep(s, a).loop == s.loop
  {
  }

  lemma CommitLeavesLoop(s: State, a: Action)
    requires CommitGuard(s, a)
    ensures CommitStep(s, a).loop == s.loop
  {
  }

  lemma StepKeepsParent(s: State, a: Action, t: State)
    requires ParentInv(s) && Step(s, a, t) && !Exposes(s, a)
    ensures ParentInv(t)
  {
    hide Core, Honest, Step, AllShielded, Endangers;
    StepKeeps(s, a, t);
    StepHonest(s, a, t);
    if s.loop == Stopped {
      StoppedStays(s, a, t);
    } else {
      StepKeepsInv(s, a, t);
    }
  }

  lemma {:induction false} RunKeepsParent(run: seq<State>, actions: seq<Action>, i: nat)
    requires IsRun(run, actions) && NeverExposed(run, actions) && i < |run|
    ensures ParentInv(run[i])
  {
    hide Inv, ParentInv, Step, Exposes;
    if i == 0 {
      InitialInv(run[0]);
      InvIsParent(run[0]);
    } else {
      RunKeepsParent(run, actions, i - 1);
      StepKeepsParent(run[i - 1], actions[i - 1], run[i]);
    }
  }

  lemma InvIsParent(s: State)
    requires Inv(s)
    ensures ParentInv(s)
  {
    hide Core, Honest, AllShielded;
  }

  lemma ParentIsAlone(s: State)
    requires ParentInv(s)
    ensures ParentAlone(s)
  {
    hide Core, Honest;
    if s.loop != Stopped {
      InvIsExclusive(s);
    }
  }

  /** In every interleaving in which a request that endangers a replacement is admitted only after the
      serve loop is gone for good, the parent never accepts beside a replacement. */
  lemma ParentExclusion(run: seq<State>, actions: seq<Action>, i: nat)
    requires IsRun(run, actions) && NeverExposed(run, actions) && i < |run|
    ensures ParentAlone(run[i])
  {
    hide ParentInv, Step, Exposes, ParentAlone;
    RunKeepsParent(run, actions, i);
    ParentIsAlone(run[i]);
  }

  lemma {:induction false} RunHonest(run: seq<State>, actions: seq<Action>, i: nat)
    requires IsRun(run, actions) && i < |run|
    ensures Honest(run[i])
  {
    hide Core, Honest, Step;
    if i == 0 {
      InitialHonest(run[0]);
    } else {
      RunHonest(run, actions, i - 1);
      RunKeeps(run, actions, i - 1);
      StepHonest(run[i - 1], actions[i - 1], run[i]);
    }
  }

  lemma InitialHonest(s: State)
    requires Initial(s)
    ensures Honest(s)
  {
  }
}
