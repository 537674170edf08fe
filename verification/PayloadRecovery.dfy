/** Recovery reaches a verdict that depends only on the durable state and the live runtime, and an
    interrupted recovery that is run again reaches the same verdict and the same state. */
module PayloadRecovery {
  import opened Wrappers
  import opened PayloadState
  import opened PayloadTransaction
  import opened PayloadSafety

  /** The link can be pointed at the candidate's control executable. */
  ghost predicate Projectable(b: Durable, d: Durable, j: Journal) {
    Classify(d.command, CandidateControl(b, j)) != Foreign || MatchesSnapshot(d.command, b.command)
  }

  ghost predicate Recorded(d: Durable, j: Journal) {
    d.installed == Some(Installed(j.tx, j.payload))
  }

  /** The live runtime allows going back to the prior projection. */
  ghost predicate AllowsReturn(b: Durable, j: Journal, r: Runtime)
    requires !j.Terminal()
  {
    var prior := j.prior.Some? && IsComplete(b, j.prior.value.active)
                 && RuntimeMatches(r, Gens(b)[j.prior.value.active].payload);
    if j.Phase() == Materialized then !j.Reuses() || prior
    else if j.isFresh then r == NoRuntime
    else prior
  }

  ghost predicate GoesForward(d: Durable, j: Journal, r: Runtime)
    requires !j.Terminal()
  {
    RuntimeMatches(r, j.payload) || (j.Phase() == Activated && Recorded(d, j))
  }

  ghost predicate Projects(d: Durable, j: Journal)
    requires !j.Terminal()
  {
    j.Phase() == Materialized && !Recorded(d, j)
  }

  /** The verdict of recovery, without its writes: which states are refused, and otherwise how the
      transaction ends. */
  ghost function Judge(b: Durable, d: Durable, r: Runtime): Verdict {
    if Idle(d) then NotRequired
    else if d.journal.None? then Refused
    else
      var j := d.journal.value;
      if j.Terminal() then Ends(j.state)
      else if j.Phase() == Prepared then if d.root == Root(NoRollback) then Ends(Closed) else Refused
      else if GoesForward(d, j, r) then
        if Projects(d, j) && !Projectable(b, d, j) then Refused else Ends(Finalized)
      else if AllowsReturn(b, j, r) && Detachable(b, d, j) then Ends(RolledBack)
      else Refused
  }

  function TargetOf(command: Option<Link>): Option<Target> {
    if command.Some? then Some(command.value.target) else None
  }

  /** Where the command link points once the transaction has ended. */
  ghost function FinalTarget(b: Durable, d: Durable, r: Runtime): Option<Target>
    requires d.journal.Some?
  {
    var j := d.journal.value;
    match Judge(b, d, r)
    case Ends(Finalized) =>
      if !j.Terminal() && j.Phase() != Prepared && Projects(d, j)
      then Some(CandidateControl(b, j)) else TargetOf(d.command)
    case Ends(_) => TargetOf(b.command)
    case _ => None
  }

  ghost function FinalInstalled(b: Durable, d: Durable, r: Runtime): Option<Installed>
    requires d.journal.Some?
  {
    match Judge(b, d, r)
    case Ends(Finalized) => Some(Installed(d.journal.value.tx, d.journal.value.payload))
    case Ends(_) => d.installed
    case _ => None
  }

  ghost predicate SameTransaction(j: Journal, k: Journal) {
    k == j.(state := k.state)
  }

  /** A state on the way of a recovery from `d`: it keeps the invariant, and recovery from it is
      bound for the same end. */
  ghost predicate OnTheWay(b: Durable, d: Durable, s: Durable, r: Runtime)
    requires d.journal.Some?
  {
    && s.journal.Some? && Inv(b, s)
    && SameTransaction(d.journal.value, s.journal.value)
    && Judge(b, s, r) == Judge(b, d, r)
    && FinalTarget(b, s, r) == FinalTarget(b, d, r)
    && FinalInstalled(b, s, r) == FinalInstalled(b, d, r)
  }

  /** The whole recovery from `d`: every state is on the way, and the last one is the end. */
  ghost predicate Reaches(b: Durable, d: Durable, run: Run, r: Runtime)
    requires d.journal.Some?
  {
    && run.verdict == Judge(b, d, r)
    && (run.verdict.Ends? ==>
          && run.states != []
          && (forall s :: s in run.states ==>
                if s.journal.None? then s == run.states[|run.states| - 1] else OnTheWay(b, d, s, r))
          && var e := run.states[|run.states| - 1];
             && EndsAtomically(b, e, d.journal.value.(state := run.verdict.state))
             && TargetOf(e.command) == FinalTarget(b, d, r)
             && e.installed == FinalInstalled(b, d, r))
    && (!run.verdict.Ends? ==>
          forall s ::
            s in run.states ==> OnTheWay(b, d, s, r) && s == d.(selector := Some(d.journal.value.Candidate())))
  }

  // ---- the terminal tail

  lemma TerminalOnTheWay(b: Durable, d: Durable, s: Durable, k: Journal, r: Runtime)
    requires d.journal.Some? && BaseOk(b)
    requires SameTransaction(d.journal.value, k) && k.Terminal()
    requires s.journal == Some(k) && JournalOk(b, s, k)
    requires Judge(b, d, r) == Ends(k.state)
    requires TargetOf(s.command) == FinalTarget(b, d, r)
    requires s.installed == FinalInstalled(b, d, r)
    ensures OnTheWay(b, d, s, r)
  {
    hide BegunIn, ClosedStore, CandidateControl, Names, CommandMaterialized;
  }

  /** Completing a transaction whose effects are in place. */
  lemma CompletesOnTheWay(b: Durable, d: Durable, e: Durable, outcome: JournalState, r: Runtime, listing: seq<Id>)
    requires d.journal.Some? && BaseOk(b)
    requires e.journal.Some? && SameTransaction(d.journal.value, e.journal.value)
    requires !outcome.Working? && !outcome.RecoveryRequired?
    requires var k := d.journal.value.(state := outcome); JournalOk(b, e.(journal := Some(k)), k)
    requires Judge(b, d, r) == Ends(outcome)
    requires TargetOf(e.command) == FinalTarget(b, d, r) && e.installed == FinalInstalled(b, d, r)
    requires Covers(listing, e)
    ensures var w := CompleteTransaction(e, e.journal.value, outcome, listing);
            && w.ok && w.states != []
            && (forall s :: s in w.states ==>
                  if s.journal.None? then s == w.states[|w.states| - 1] else OnTheWay(b, d, s, r))
            && var f := w.states[|w.states| - 1];
               && EndsAtomically(b, f, d.journal.value.(state := outcome))
               && f.command == e.command && f.installed == e.installed
  {
    hide JournalOk, Judge, FinalTarget, FinalInstalled, EndsAtomically, FinishCleanup, OnTheWay, BaseOk;
    var k := d.journal.value.(state := outcome);
    var m := e.(journal := Some(k));
    assert e.journal.value.(state := outcome) == k;
    CleanupSafe(b, m, k, listing);
    var c := FinishCleanup(m, k, listing);
    TerminalOnTheWay(b, d, m, k, r);
    forall s | s in c.states && s.journal.Some?
      ensures OnTheWay(b, d, s, r)
    {
      TerminalOnTheWay(b, d, s, k, r);
    }
    assert CompleteTransaction(e, e.journal.value, outcome, listing).states == [m] + c.states;
  }

  lemma TerminalReaches(b: Durable, d: Durable, env: Env)
    requires Inv(b, d) && d.journal.Some? && d.journal.value.Terminal() && Covers(env.listing, d)
    ensures Reaches(b, d, Recover(d, env), env.runtime)
  {
    hide BegunIn, ClosedStore, CandidateControl, Names, CommandMaterialized, EndsAtomically, FinishCleanup, OnTheWay,
         Inv;
    var j := d.journal.value;
    InvParts(b, d);
    CleanupSafe(b, d, j, env.listing);
    var c := FinishCleanup(d, j, env.listing);
    forall s | s in c.states && s.journal.Some?
      ensures OnTheWay(b, d, s, env.runtime)
    {
      TerminalOnTheWay(b, d, s, j, env.runtime);
    }
  }

  lemma InvParts(b: Durable, d: Durable)
    requires Inv(b, d)
    ensures BaseOk(b)
    ensures d.journal.Some? ==> JournalOk(b, d, d.journal.value) && BegunIn(b, d.journal.value)
    ensures d.journal.Some? ==> JournalReadable(d)
    ensures d.journal.Some? && !d.journal.value.Terminal() && d.journal.value.Phase() != Prepared ==>
              MaterializedOk(b, d, d.journal.value)
  {
    hide BegunIn, ClosedStore, CandidateControl, Names, CommandMaterialized;
  }

  lemma SameBegun(b: Durable, j: Journal, k: Journal)
    requires BegunIn(b, j) && SameTransaction(j, k)
    ensures BegunIn(b, k) && CandidateControl(b, k) == CandidateControl(b, j) && k.Candidate() == j.Candidate()
  {
  }

  lemma PreparedReaches(b: Durable, d: Durable, env: Env)
    requires Inv(b, d) && d.journal.Some? && !d.journal.value.Terminal() && d.journal.value.Phase() == Prepared
    requires Covers(env.listing, d)
    ensures Reaches(b, d, Recover(d, env), env.runtime)
  {
    hide BegunIn, ClosedStore, CandidateControl, Names, CommandMaterialized, EndsAtomically, OnTheWay,
         CompleteTransaction;
    if d.root == Root(NoRollback) {
      SameBegun(b, d.journal.value, d.journal.value.(state := Closed));
      CompletesOnTheWay(b, d, d, Closed, env.runtime, env.listing);
    }
  }

  // ---- going back

  /** Restoring the prior projection stays on the way back. */
  lemma RestoringOnTheWay(b: Durable, d: Durable, s: Durable, r: Runtime)
    requires Inv(b, d) && d.journal.Some? && Judge(b, d, r) == Ends(RolledBack)
    requires !d.journal.value.Terminal() && Restoring(b, d, s, d.journal.value)
    ensures OnTheWay(b, d, s, r)
  {
    hide BegunIn, ClosedStore, CandidateControl, Names, CommandMaterialized, SnapshotOk, HoldsCandidate;
  }

  lemma BackReaches(b: Durable, d: Durable, env: Env)
    requires Inv(b, d) && d.journal.Some? && !d.journal.value.Terminal()
    requires Judge(b, d, env.runtime) == Ends(RolledBack) && Covers(env.listing, d)
    ensures var j := d.journal.value; var a := RestorePrior(d, j, j.prior, env.inode);
            && a.ok && ControlReadable(Last(d, a))
            && Reaches(b, d, Ended(Then(a, CompleteTransaction(Last(d, a), j, RolledBack, env.listing)), RolledBack),
                       env.runtime)
  {
    hide BegunIn, ClosedStore, CandidateControl, Names, CommandMaterialized, SnapshotOk, EndsAtomically, OnTheWay,
         CompleteTransaction, RestorePrior, Inv;
    var j := d.journal.value;
    InvParts(b, d);
    JudgedBack(b, d, env.runtime);
    RestoreSafe(b, d, j, env.inode);
    CandidateIsNotPrior(b, j);
    var a := RestorePrior(d, j, b.selector, env.inode);
    var e := Last(d, a);
    PriorControl(b, e, j);
    forall s | s in a.states ensures OnTheWay(b, d, s, env.runtime) {
      RestoringOnTheWay(b, d, s, env.runtime);
    }
    RestoredIsRolledBack(b, d, e, j);
    CompletesOnTheWay(b, d, e, RolledBack, env.runtime, env.listing);
  }

  lemma JudgedBack(b: Durable, d: Durable, r: Runtime)
    requires Inv(b, d) && d.journal.Some? && !d.journal.value.Terminal()
    requires Judge(b, d, r) == Ends(RolledBack)
    ensures d.journal.value.Phase() != Prepared && Detachable(b, d, d.journal.value)
    ensures FinalTarget(b, d, r) == TargetOf(b.command) && FinalInstalled(b, d, r) == d.installed
  {
    hide BegunIn, ClosedStore, CandidateControl, Names, CommandMaterialized, Detachable;
  }

  lemma RestoredIsRolledBack(b: Durable, d: Durable, e: Durable, j: Journal)
    requires BaseOk(b) && BegunIn(b, j) && Restoring(b, d, e, j)
    requires e.selector == b.selector && SameTarget(e.command, b.command)
    ensures var k := j.(state := RolledBack); JournalOk(b, e.(journal := Some(k)), k)
  {
    hide CandidateControl, CommandMaterialized, SnapshotOk, Detachable;
    var g := Gens(b)[j.tx := Complete(j.payload)];
    if j.Reuses() {
      assert g == Gens(b);
    } else {
      assert g - {j.tx} == Gens(b);
    }
  }

  /** Recovery that neither goes forward nor is allowed back leaves no trace. */
  lemma BackRefuses(b: Durable, d: Durable, inode: nat)
    requires Inv(b, d) && d.journal.Some? && !d.journal.value.Terminal() && d.journal.value.Phase() != Prepared
    requires !Detachable(b, d, d.journal.value)
    ensures var a := RestorePrior(d, d.journal.value, d.journal.value.prior, inode); !a.ok && a.states == []
  {
    hide BegunIn, ClosedStore, CandidateControl, Names, CommandMaterialized, SnapshotOk, RestorePrior, Inv;
    InvParts(b, d);
    RestoreSafe(b, d, d.journal.value, inode);
    CandidateIsNotPrior(b, d.journal.value);
  }

  // ---- going forward

  /** Selecting the candidate, once recorded, stays on the way forward. */
  lemma ForwardOnTheWay(b: Durable, d: Durable, s: Durable, r: Runtime)
    requires Inv(b, d) && d.journal.Some? && Judge(b, d, r) == Ends(Finalized)
    requires !d.journal.value.Terminal() && s.journal == d.journal
    requires MaterializedOk(b, s, d.journal.value)
    requires Recorded(s, d.journal.value)
    requires TargetOf(s.command) == FinalTarget(b, d, r)
    ensures OnTheWay(b, d, s, r)
  {
    hide BegunIn, ClosedStore, CandidateControl, Names, CommandMaterialized, SnapshotOk, HoldsCandidate, Detachable,
         Projectable;
  }

  lemma JudgedForward(b: Durable, d: Durable, r: Runtime)
    requires Inv(b, d) && d.journal.Some? && !d.journal.value.Terminal()
    requires Judge(b, d, r) == Ends(Finalized)
    ensures d.journal.value.Phase() != Prepared && GoesForward(d, d.journal.value, r)
    ensures FinalInstalled(b, d, r) == Some(Installed(d.journal.value.tx, d.journal.value.payload))
    ensures FinalTarget(b, d, r) ==
            if Projects(d, d.journal.value) then Some(CandidateControl(b, d.journal.value)) else TargetOf(d.command)
    ensures Projects(d, d.journal.value) ==> Projectable(b, d, d.journal.value)
  {
    hide BegunIn, ClosedStore, CandidateControl, Names, CommandMaterialized, Detachable, Projectable;
  }

  /** Once the installed record is durable, closing selects the retained pair and completes. */
  lemma ClosesOnTheWay(b: Durable, d: Durable, e: Durable, r: Runtime, listing: seq<Id>)
    requires Inv(b, d) && d.journal.Some? && !d.journal.value.Terminal() && Judge(b, d, r) == Ends(Finalized)
    requires e.journal == d.journal && MaterializedOk(b, e, d.journal.value) && Recorded(e, d.journal.value)
    requires TargetOf(e.command) == FinalTarget(b, d, r) && Covers(listing, e)
    ensures var w := CloseFinalized(e, d.journal.value, true, listing);
            && w.ok && w.states != []
            && (forall s :: s in w.states ==>
                  if s.journal.None? then s == w.states[|w.states| - 1] else OnTheWay(b, d, s, r))
            && var f := w.states[|w.states| - 1];
               && EndsAtomically(b, f, d.journal.value.(state := Finalized))
               && f.command == e.command && f.installed == e.installed
  {
    hide BegunIn, ClosedStore, CandidateControl, Names, CommandMaterialized, SnapshotOk, EndsAtomically, OnTheWay,
         CompleteTransaction, Inv, Judge, FinalTarget, FinalInstalled, Covers;
    var j := d.journal.value;
    InvParts(b, d);
    JudgedForward(b, d, r);
    CandidateReadable(b, e, j);
    RetentionIsCandidate(b, e, j);
    var f := e.(selector := Some(j.Candidate()));
    SelectedMaterialized(b, e, j);
    ForwardOnTheWay(b, d, f, r);
    CandidateReadable(b, f, j);
    MaterializedIsFinalized(b, f, j);
    CoversStore(listing, e, f);
    CompletesOnTheWay(b, d, f, Finalized, r, listing);
  }

  lemma CoversStore(listing: seq<Id>, d: Durable, e: Durable)
    requires Covers(listing, d) && e.store == d.store
    ensures Covers(listing, e)
  {
  }

  lemma RetentionIsCandidate(b: Durable, e: Durable, j: Journal)
    requires BaseOk(b) && BegunIn(b, j) && MaterializedOk(b, e, j)
    ensures SelectRetention(e, j) == One(e.(selector := Some(j.Candidate())))
  {
    hide CandidateControl, CommandMaterialized, SnapshotOk, Newer;
    CandidateDistinct(b, j);
  }

  lemma SelectedMaterialized(b: Durable, e: Durable, j: Journal)
    requires BegunIn(b, j) && MaterializedOk(b, e, j)
    ensures MaterializedOk(b, e.(selector := Some(j.Candidate())), j)
  {
    hide CandidateControl, SnapshotOk, BegunIn, Names;
  }

  lemma MaterializedIsFinalized(b: Durable, f: Durable, j: Journal)
    requires BaseOk(b) && BegunIn(b, j) && MaterializedOk(b, f, j) && Recorded(f, j)
    requires f.selector == Some(j.Candidate())
    ensures var k := j.(state := Finalized); JournalOk(b, f.(journal := Some(k)), k)
  {
    hide SnapshotOk;
    CandidateDistinct(b, j);
    SameBegun(b, j, j.(state := Finalized));
  }

  lemma RecordedReaches(b: Durable, d: Durable, env: Env)
    requires Inv(b, d) && d.journal.Some? && !d.journal.value.Terminal()
    requires Judge(b, d, env.runtime) == Ends(Finalized) && Recorded(d, d.journal.value)
    requires Covers(env.listing, d)
    ensures Reaches(b, d, Ended(CloseFinalized(d, d.journal.value, true, env.listing), Finalized), env.runtime)
  {
    hide BegunIn, ClosedStore, CandidateControl, Names, CommandMaterialized, SnapshotOk, EndsAtomically, OnTheWay,
         CloseFinalized, Inv, Judge, FinalTarget, FinalInstalled, Covers;
    InvParts(b, d);
    JudgedForward(b, d, env.runtime);
    ClosesOnTheWay(b, d, d, env.runtime, env.listing);
  }

  /** Writing the installed record and closing, from a state where the link is final. */
  lemma InstallsOnTheWay(b: Durable, d: Durable, e: Durable, env: Env)
    requires Inv(b, d) && d.journal.Some? && !d.journal.value.Terminal() && Judge(b, d, env.runtime) == Ends(Finalized)
    requires e.journal == d.journal && MaterializedOk(b, e, d.journal.value)
    requires TargetOf(e.command) == FinalTarget(b, d, env.runtime) && Covers(env.listing, e)
    ensures var w := FinalizeInstallation(e, d.journal.value, true, env.listing);
            && w.ok && w.states != []
            && (forall s :: s in w.states ==>
                  if s.journal.None? then s == w.states[|w.states| - 1] else OnTheWay(b, d, s, env.runtime))
            && var f := w.states[|w.states| - 1];
               && EndsAtomically(b, f, d.journal.value.(state := Finalized))
               && f.command == e.command && f.installed == FinalInstalled(b, d, env.runtime)
  {
    hide BegunIn, ClosedStore, CandidateControl, Names, SnapshotOk, EndsAtomically, OnTheWay,
         CloseFinalized, Inv, Judge, FinalTarget, FinalInstalled, Covers;
    var j := d.journal.value;
    JudgedForward(b, d, env.runtime);
    var f := e.(installed := Some(Installed(j.tx, j.payload)));
    assert MaterializedOk(b, f, j);
    ForwardOnTheWay(b, d, f, env.runtime);
    CoversStore(env.listing, e, f);
    ClosesOnTheWay(b, d, f, env.runtime, env.listing);
  }

  lemma ProjectionOf(b: Durable, d: Durable, inode: nat)
    requires Inv(b, d) && d.journal.Some? && !d.journal.value.Terminal() && d.journal.value.Phase() == Materialized
    ensures var j := d.journal.value;
            var f := d.(selector := Some(j.Candidate()));
            && MaterializedOk(b, f, j)
            && SelectAndProject(d, j, inode) == Then(One(f), Project(f, CandidateControl(b, j), b.command, inode))
            && CandidateControl(b, j).Exec? && IsComplete(f, CandidateControl(b, j).id)
  {
    hide BegunIn, ClosedStore, CandidateControl, Names, SnapshotOk, CommandMaterialized, Inv, Project, ControlTarget;
    var j := d.journal.value;
    InvParts(b, d);
    SelectedMaterialized(b, d, j);
    var f := d.(selector := Some(j.Candidate()));
    CandidateReadable(b, d, j);
    CandidateReadable(b, f, j);
    PriorInStore(b, d, j);
  }

  lemma PriorInStore(b: Durable, d: Durable, j: Journal)
    requires BaseOk(b) && BegunIn(b, j) && HoldsCandidate(b, d, j)
    ensures j.prior.Some? ==> j.prior.value.active in Gens(d)
  {
  }

  /** Before the installed record is written, the projecting states are on the way forward. */
  lemma ProjectingOnTheWay(b: Durable, d: Durable, s: Durable, r: Runtime)
    requires Inv(b, d) && d.journal.Some? && !d.journal.value.Terminal()
    requires GoesForward(d, d.journal.value, r) && Projects(d, d.journal.value)
    requires s == d.(selector := Some(d.journal.value.Candidate()), command := s.command)
    requires MaterializedOk(b, s, d.journal.value)
    requires Projectable(b, s, d.journal.value) <==> Projectable(b, d, d.journal.value)
    ensures OnTheWay(b, d, s, r)
  {
    hide BegunIn, ClosedStore, CandidateControl, Names, CommandMaterialized, SnapshotOk, HoldsCandidate, Detachable,
         Projectable;
  }

  lemma ServingMaterialized(b: Durable, d: Durable, env: Env)
    requires Inv(b, d) && d.journal.Some? && !d.journal.value.Terminal() && d.journal.value.Phase() == Materialized
    requires RuntimeMatches(env.runtime, d.journal.value.payload) && !Recorded(d, d.journal.value)
    requires Covers(env.listing, d) && env.binds
    ensures Reaches(b, d, RecoverServing(d, d.journal.value, env), env.runtime)
  {
    hide BegunIn, ClosedStore, CandidateControl, Names, CommandMaterialized, SnapshotOk, EndsAtomically, OnTheWay,
         MaterializedOk,
         FinalizeInstallation, Inv, FinalTarget, FinalInstalled, Covers, SelectAndProject, AllowsReturn, Detachable;
    var j := d.journal.value;
    ProjectionOf(b, d, env.inode);
    var f := d.(selector := Some(j.Candidate()));
    ProjectingOnTheWay(b, d, f, env.runtime);
    var p := Project(f, CandidateControl(b, j), b.command, env.inode);
    assert p.ok <==> Projectable(b, d, j);
    if p.ok {
      JudgedForward(b, d, env.runtime);
      var g := Last(f, p);
      LinkedMaterialized(b, f, g, j);
      ProjectingOnTheWay(b, d, g, env.runtime);
      CoversStore(env.listing, d, g);
      InstallsOnTheWay(b, d, g, env);
    }
  }

  lemma LinkedMaterialized(b: Durable, f: Durable, g: Durable, j: Journal)
    requires MaterializedOk(b, f, j) && f.selector == Some(j.Candidate())
    requires g == f.(command := g.command)
    requires g.command == f.command || TargetOf(g.command) == Some(CandidateControl(b, j))
    ensures MaterializedOk(b, g, j)
  {
    hide CandidateControl, SnapshotOk;
  }

  lemma ServingActivated(b: Durable, d: Durable, env: Env)
    requires Inv(b, d) && d.journal.Some? && !d.journal.value.Terminal() && d.journal.value.Phase() == Activated
    requires RuntimeMatches(env.runtime, d.journal.value.payload) && !Recorded(d, d.journal.value)
    requires Covers(env.listing, d) && env.binds
    ensures Reaches(b, d, RecoverServing(d, d.journal.value, env), env.runtime)
  {
    hide BegunIn, ClosedStore, CandidateControl, Names, CommandMaterialized, SnapshotOk, EndsAtomically, OnTheWay,
         MaterializedOk,
         FinalizeInstallation, Inv, FinalTarget, FinalInstalled, Covers, Projectable, AllowsReturn, Detachable;
    InvParts(b, d);
    JudgedForward(b, d, env.runtime);
    InstallsOnTheWay(b, d, d, env);
  }

  lemma ForwardReaches(b: Durable, d: Durable, env: Env)
    requires Inv(b, d) && d.journal.Some? && !d.journal.value.Terminal() && d.journal.value.Phase() != Prepared
    requires GoesForward(d, d.journal.value, env.runtime) && Covers(env.listing, d) && env.binds
    ensures Reaches(b, d, Recover(d, env), env.runtime)
  {
    hide BegunIn, CandidateControl, Names, CommandMaterialized, SnapshotOk, EndsAtomically, Reaches, MaterializedOk,
         CloseFinalized, RecoverServing, RollbackMaterialized, RestorePriorGeneration, Inv, Covers, Projectable,
         AllowsReturn, Detachable;
    InvParts(b, d);
    CandidateVerified(b, d, d.journal.value);
    if Recorded(d, d.journal.value) {
      RecordedReaches(b, d, env);
    } else if d.journal.value.Phase() == Materialized {
      ServingMaterialized(b, d, env);
    } else {
      ServingActivated(b, d, env);
    }
  }

  lemma CandidateVerified(b: Durable, d: Durable, j: Journal)
    requires MaterializedOk(b, d, j)
    ensures IsComplete(d, j.tx) && Gens(d)[j.tx].payload == j.payload
    ensures d.root.Root? && d.root.rollback.Saved?
  {
    hide CandidateControl, Names, CommandMaterialized, SnapshotOk;
  }

  lemma BackwardReaches(b: Durable, d: Durable, env: Env)
    requires Inv(b, d) && d.journal.Some? && !d.journal.value.Terminal() && d.journal.value.Phase() != Prepared
    requires !GoesForward(d, d.journal.value, env.runtime) && Covers(env.listing, d) && env.binds
    ensures Reaches(b, d, Recover(d, env), env.runtime)
  {
    hide BegunIn, CandidateControl, Names, CommandMaterialized, SnapshotOk, EndsAtomically, MaterializedOk, OnTheWay,
         CloseFinalized, RecoverServing, RestorePrior, CompleteTransaction, Inv, Covers, Detachable;
    var j := d.journal.value;
    InvParts(b, d);
    CandidateVerified(b, d, j);
    CandidateReadable(b, d, j);
    PriorPayload(b, d, j);
    if Judge(b, d, env.runtime) == Ends(RolledBack) {
      BackReaches(b, d, env);
    } else if !Detachable(b, d, j) {
      BackRefuses(b, d, env.inode);
    }
  }

  lemma PriorPayload(b: Durable, d: Durable, j: Journal)
    requires BaseOk(b) && BegunIn(b, j) && MaterializedOk(b, d, j)
    ensures j.isFresh == j.prior.None?
    ensures j.Reuses() ==> !j.isFresh
    ensures j.prior.Some? ==>
              var p := j.prior.value.active;
              IsComplete(b, p) && IsComplete(d, p) && Gens(d)[p].payload == Gens(b)[p].payload
  {
    hide CandidateControl, CommandMaterialized, SnapshotOk;
  }

  /** Recovery from every state of a transaction: the verdict is the judged one, every durable
      state it passes through keeps the invariant and is bound for the same end. */
  lemma RecoverReaches(b: Durable, d: Durable, env: Env)
    requires Inv(b, d) && d.journal.Some? && Covers(env.listing, d) && env.binds
    ensures Reaches(b, d, Recover(d, env), env.runtime)
  {
    hide *;
    if d.journal.value.Terminal() {
      TerminalReaches(b, d, env);
    } else if d.journal.value.Phase() == Prepared {
      PreparedReaches(b, d, env);
    } else if GoesForward(d, d.journal.value, env.runtime) {
      ForwardReaches(b, d, env);
    } else {
      BackwardReaches(b, d, env);
    }
  }

  // ---- resuming an interrupted recovery

  function Final(d: Durable, run: Run): Durable {
    Last(d, Writes(run.states, true))
  }

  /** Equal up to the inode of the command link. */
  ghost predicate SameButInode(d: Durable, e: Durable) {
    e == d.(command := e.command) && TargetOf(d.command) == TargetOf(e.command)
  }

  /** How a transaction ends determines the state it ends in. */
  lemma EndsUniquely(b: Durable, e: Durable, f: Durable, j: Journal)
    requires BaseOk(b) && BegunIn(b, j) && EndsAtomically(b, e, j) && EndsAtomically(b, f, j)
    requires TargetOf(e.command) == TargetOf(f.command) && e.installed == f.installed
    ensures SameButInode(e, f)
  {
    hide CandidateControl, CommandMaterialized, BegunIn, Newer;
    if j.state.Finalized? {
      assert e.store.value.Keys == Names(j.Candidate()) == f.store.value.Keys;
      forall id | id in e.store.value ensures e.store.value[id] == f.store.value[id] {
      }
      assert e.store.value == f.store.value;
    }
  }

  /** Recovery interrupted after any durable write, and run again with the same runtime evidence,
      reaches the verdict and the durable state of the uninterrupted run. */
  lemma Resumable(b: Durable, d: Durable, env: Env, k: nat, again: Env)
    requires Inv(b, d) && d.journal.Some? && Covers(env.listing, d) && env.binds && again.binds
    requires k < |Recover(d, env).states| && again.runtime == env.runtime
    requires var s := Recover(d, env).states[k]; s.journal.Some? && Covers(again.listing, s)
    ensures var s := Recover(d, env).states[k];
            && Recover(s, again).verdict == Recover(d, env).verdict
            && SameButInode(Final(s, Recover(s, again)), Final(d, Recover(d, env)))
  {
    hide BegunIn, ClosedStore, JournalOk, EndsAtomically, Recover, Judge, FinalTarget, FinalInstalled, Covers;
    var s := Recover(d, env).states[k];
    RecoverReaches(b, d, env);
    assert s in Recover(d, env).states;
    assert OnTheWay(b, d, s, env.runtime);
    RecoverReaches(b, s, again);
    var first, second := Recover(d, env), Recover(s, again);
    if first.verdict.Ends? {
      var j := d.journal.value.(state := first.verdict.state);
      InvParts(b, d);
      SameBegun(b, d.journal.value, j);
      EndsUniquely(b, second.states[|second.states| - 1], first.states[|first.states| - 1], j);
    } else {
      SameCandidate(d.journal.value, s.journal.value);
      AllEqual(first.states, s);
      AllEqual(second.states, s);
    }
  }

  lemma SameCandidate(j: Journal, k: Journal)
    requires SameTransaction(j, k)
    ensures j.Candidate() == k.Candidate()
  {
  }

  lemma AllEqual(states: seq<Durable>, s: Durable)
    requires forall t :: t in states ==> t == s
    ensures states != [] ==> states[|states| - 1] == s
  {
    if states != [] {
      assert states[|states| - 1] in states;
    }
  }

  /** A recorded terminal state never changes: recovery only disposes and forgets. */
  lemma TerminalIsFinal(b: Durable, d: Durable, env: Env, s: Durable)
    requires Inv(b, d) && d.journal.Some? && d.journal.value.Terminal()
    requires Covers(env.listing, d) && s in Recover(d, env).states
    ensures s.journal == d.journal || s.journal.None?
    ensures s.selector == d.selector && s.command == d.command && s.installed == d.installed
    ensures Recover(d, env).verdict == Ends(d.journal.value.state)
  {
    hide BegunIn, ClosedStore, JournalOk, EndsAtomically, FinishCleanup, Covers;
    InvParts(b, d);
    CleanupSafe(b, d, d.journal.value, env.listing);
  }

  /** A supervisor that cannot be bound only cuts recovery short. */
  lemma BindingOnlyInterrupts(d: Durable, env: Env, s: Durable)
    requires s in Recover(d, env).states
    ensures s in Recover(d, env.(binds := true)).states
  {
    hide RestorePrior, CompleteTransaction, FinishCleanup, SelectRetention, SelectAndProject, ControlTarget, Newer;
  }
}
