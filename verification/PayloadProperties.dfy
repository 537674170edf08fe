/** What holds in every run of payload transactions and recoveries. */
module PayloadProperties {
  import opened Wrappers
  import opened PayloadState
  import opened PayloadTransaction
  import opened PayloadSafety
  import opened PayloadRecovery
  import opened PayloadRuns

  // ---- selection

  lemma InvSelectsComplete(b: Durable, d: Durable)
    requires Inv(b, d)
    ensures forall id :: id in SelectedNames(d.selector) ==> IsComplete(d, id)
  {
    hide CandidateControl, CommandMaterialized, SnapshotOk, Newer;
    if d.journal.Some? {
      var j := d.journal.value;
      CandidateDistinct(b, j);
      if !j.Reuses() && d.selector == b.selector {
        forall id | id in SelectedNames(d.selector) ensures IsComplete(d, id) {
          assert id in Gens(b);
          assert Gens(d) - {j.tx} == Gens(b) || d.store == b.store || HoldsCandidate(b, d, j);
        }
      }
    }
  }

  /** In every durable state of every run, the selector names only complete generations. */
  lemma SelectorNamesComplete(run: seq<System>, events: seq<Event>, i: nat)
    requires IsRun(run, events) && SysInv(run[0]) && i < |run|
    ensures forall id :: id in SelectedNames(run[i].disk.selector) ==> IsComplete(run[i].disk, id)
  {
    hide Step, Inv, SessionOk;
    RunKeeps(run, events, i);
    if !Idle(run[i].disk) {
      InvSelectsComplete(run[i].base, run[i].disk);
    }
  }

  // ---- crash atomicity

  /** While a transaction is open the selection is the prior one or the candidate's, and no prior
      generation has gone; a recorded end says which. */
  ghost predicate Atomic(b: Durable, d: Durable, j: Journal) {
    && (!j.Terminal() ==>
          && (d.selector == b.selector || d.selector == Some(j.Candidate()))
          && (forall id :: id in Gens(b) ==> id in Gens(d) && Gens(d)[id] == Gens(b)[id]))
    && (j.state.Closed? ==> Untouched(b, d))
    && (j.state.RolledBack? ==> d.selector == b.selector && TargetOf(d.command) == TargetOf(b.command))
    && (j.state.Finalized? ==> d.selector == Some(j.Candidate()))
  }

  lemma InvAtomic(b: Durable, d: Durable)
    requires Inv(b, d) && d.journal.Some?
    ensures Atomic(b, d, d.journal.value)
  {
    hide CandidateControl, CommandMaterialized, SnapshotOk, Newer, Names, ClosedStore;
    var j := d.journal.value;
    if j.state == Working(Prepared) && d.store != b.store {
      forall id | id in Gens(b) ensures id in Gens(d) && Gens(d)[id] == Gens(b)[id] {
        assert id in d.store.value - {j.tx};
      }
    }
  }

  lemma CrashAtomic(run: seq<System>, events: seq<Event>, i: nat)
    requires IsRun(run, events) && SysInv(run[0]) && i < |run| && run[i].disk.journal.Some?
    ensures Atomic(run[i].base, run[i].disk, run[i].disk.journal.value)
  {
    hide Step, Inv, SessionOk, Atomic;
    RunKeeps(run, events, i);
    InvAtomic(run[i].base, run[i].disk);
  }

  /** At every idle state of every run the store is exactly the selected generations, all complete,
      or neither store nor selector exists. */
  lemma IdleStoreIsClosed(run: seq<System>, events: seq<Event>, i: nat)
    requires IsRun(run, events) && SysInv(run[0]) && i < |run| && Idle(run[i].disk)
    ensures ClosedStore(run[i].disk)
  {
    hide Step, ClosedStore, Inv;
    RunKeeps(run, events, i);
  }

  // ---- the command link

  /** A link into the generation store points at a complete generation. */
  ghost predicate CommandComplete(d: Durable) {
    d.command.Some? && d.command.value.target.Exec? ==> IsComplete(d, d.command.value.target.id)
  }

  /** The link still points at the generation that finalizing this transaction will prune. */
  ghost predicate Stale(command: Option<Link>, j: Journal) {
    && command.Some? && command.value.target.Exec?
    && j.prior.Some? && j.prior.value.predecessor == Some(command.value.target.id)
    && !j.Reuses()
  }

  /** A committed state, or one on its way to being idle with the candidate selected. */
  ghost predicate Settling(j: Journal, s: Durable) {
    if s.journal.Some? then s.journal.value.state.Finalized? else s.selector == Some(j.Candidate())
  }

  lemma LinkComplete(b: Durable, d: Durable, j: Journal)
    requires BaseOk(b) && JournalOk(b, d, j) && CommandComplete(b)
    requires j.state.Finalized? ==> !Stale(d.command, j)
    ensures CommandComplete(d)
  {
    hide SnapshotOk, Newer, ControlTarget;
    CandidateDistinct(b, j);
    ControlIsCandidate(b, j);
    if d.command.Some? && d.command.value.target.Exec? && SameTarget(d.command, b.command) {
      assert d.command.value.target.id in Gens(b);
    }
  }

  lemma ControlIsCandidate(b: Durable, j: Journal)
    requires BaseOk(b) && BegunIn(b, j)
    ensures CandidateControl(b, j).Exec? && CandidateControl(b, j).id in Names(j.Candidate())
  {
    hide Newer;
    CandidateDistinct(b, j);
  }

  /** When a committed transaction is disposed of, the link dangles exactly when it was stale. */
  lemma DanglesIffStale(b: Durable, d: Durable, j: Journal)
    requires BaseOk(b) && BegunIn(b, j) && j.state.Finalized? && EndsAtomically(b, d, j)
    requires CommandComplete(b)
    ensures CommandComplete(d) <==> !Stale(d.command, j)
  {
    hide SnapshotOk, Newer, ControlTarget;
    CandidateDistinct(b, j);
    ControlIsCandidate(b, j);
  }

  /** Recovery that finalizes without projecting the link leaves it dangling exactly when it still
      points at the generation about to be pruned. */
  lemma RecoveryDanglesIff(b: Durable, d: Durable, env: Env)
    requires Inv(b, d) && d.journal.Some? && !d.journal.value.Terminal() && CommandComplete(b)
    requires Covers(env.listing, d) && env.binds && Judge(b, d, env.runtime) == Ends(Finalized)
    ensures Recover(d, env).verdict == Ends(Finalized)
    ensures CommandComplete(Final(d, Recover(d, env))) <==>
            Projects(d, d.journal.value) || !Stale(d.command, d.journal.value)
  {
    hide Inv, Judge, FinalTarget, FinalInstalled, EndsAtomically, BegunIn, Recover, Covers, CommandComplete,
         CandidateControl, Names,
         OnTheWay, BaseOk;
    var j := d.journal.value;
    InvParts(b, d);
    JudgedForward(b, d, env.runtime);
    RecoverReaches(b, d, env);
    var k := j.(state := Finalized);
    SameBegun(b, j, k);
    DanglesIffStale(b, Final(d, Recover(d, env)), k);
    ControlIsNotStale(b, j, Final(d, Recover(d, env)).command);
  }

  lemma ControlIsNotStale(b: Durable, j: Journal, command: Option<Link>)
    requires BaseOk(b) && BegunIn(b, j)
    ensures TargetOf(command) == Some(CandidateControl(b, j)) ==> !Stale(command, j)
  {
    hide CandidateControl, Newer;
    ControlIsCandidate(b, j);
  }

  /** The failing family is real: when the prior control is the prior predecessor, a return that
      is interrupted after restoring the link, and then a recovery that finds the candidate
      serving, ends finalized with a dangling link. */
  lemma InterruptedReturnDangles(b: Durable, d: Durable, back: Env, forth: Env)
    requires Inv(b, d) && d.journal.Some? && !d.journal.value.Terminal() && CommandComplete(b)
    requires d.journal.value.Phase() == Activated && !d.journal.value.Reuses()
    requires Stale(b.command, d.journal.value)
    requires Judge(b, d, back.runtime) == Ends(RolledBack) && Covers(back.listing, d) && back.binds
    requires RuntimeMatches(forth.runtime, d.journal.value.payload) && forth.binds && Covers(forth.listing, d)
    ensures exists s :: (s == d || s in Recover(d, back).states)
              && Recover(s, forth).verdict == Ends(Finalized)
              && !CommandComplete(Final(s, Recover(s, forth)))
  {
    hide Inv, FinalTarget, FinalInstalled, EndsAtomically, BegunIn, Covers, CommandComplete, CandidateControl, Names,
         BaseOk,
         RestorePrior, CompleteTransaction, FinishCleanup, MaterializedOk, Final, OnTheWay;
    var j := d.journal.value;
    InvParts(b, d);
    JudgedBack(b, d, back.runtime);
    RestoreSafe(b, d, j, back.inode);
    var a := RestorePrior(d, j, b.selector, back.inode);
    var s := Last(d, a);
    RestoringOnTheWay(b, d, s, back.runtime);
    ReturnBegins(b, d, back);
    OnTheWayInv(b, d, s, back.runtime);
    CoversStore(forth.listing, d, s);
    RecoveryDanglesIff(b, s, forth);
  }

  lemma OnTheWayInv(b: Durable, d: Durable, s: Durable, r: Runtime)
    requires d.journal.Some? && OnTheWay(b, d, s, r)
    ensures Inv(b, s)
  {
    hide Inv, Judge;
  }

  /** Recovery that goes back begins by restoring the prior projection. */
  lemma ReturnBegins(b: Durable, d: Durable, env: Env)
    requires Inv(b, d) && d.journal.Some? && !d.journal.value.Terminal() && d.journal.value.Phase() == Activated
    requires Judge(b, d, env.runtime) == Ends(RolledBack) && env.binds
    ensures forall s ::
      s in RestorePrior(d, d.journal.value, b.selector, env.inode).states ==> s in Recover(d, env).states
  {
    hide Inv, BegunIn, CandidateControl, Names, BaseOk, RestorePrior, CompleteTransaction, MaterializedOk, Detachable;
    var j := d.journal.value;
    InvParts(b, d);
    JudgedBack(b, d, env.runtime);
    RestoreSafe(b, d, j, env.inode);
    CandidateIsNotPrior(b, j);
    CandidateVerified(b, d, j);
    CandidateReadable(b, d, j);
    PriorPayload(b, d, j);
    var e := Last(d, RestorePrior(d, j, b.selector, env.inode));
    RestoredControl(b, d, e, j);
  }

  lemma RestoredControl(b: Durable, d: Durable, e: Durable, j: Journal)
    requires BaseOk(b) && BegunIn(b, j) && Restoring(b, d, e, j) && e.selector == b.selector
    ensures ControlReadable(e)
  {
    hide CandidateControl, Newer, BegunIn, ClosedStore, Names;
    PriorControl(b, e, j);
  }

  // ---- the installed record

  ghost predicate InstalledMatches(d: Durable) {
    if d.selector.None? then d.installed.None?
    else IsComplete(d, d.selector.value.active)
         && d.installed == Some(Installed(d.selector.value.active, Gens(d)[d.selector.value.active].payload))
  }

  /** A committed transaction's installed record names the active generation. */
  lemma CommittedInstalled(b: Durable, d: Durable, j: Journal)
    requires BaseOk(b) && BegunIn(b, j) && EndsAtomically(b, d, j) && j.state.Finalized?
    ensures InstalledMatches(d)
  {
    hide CandidateControl, CommandMaterialized, Newer;
  }

  /** A recovery that rolls back leaves the record of the active generation exactly when the
      candidate had not been recorded; and only a materialized transaction can be so undone. */
  lemma RolledBackInstalledIff(b: Durable, d: Durable, env: Env)
    requires Inv(b, d) && d.journal.Some? && !d.journal.value.Terminal() && InstalledMatches(b)
    requires Covers(env.listing, d) && env.binds && Judge(b, d, env.runtime) == Ends(RolledBack)
    ensures Recover(d, env).verdict == Ends(RolledBack)
    ensures InstalledMatches(Final(d, Recover(d, env))) <==> !Recorded(d, d.journal.value)
    ensures Recorded(d, d.journal.value) ==> d.journal.value.Phase() == Materialized
  {
    hide Inv, FinalTarget, FinalInstalled, BegunIn, Recover, Covers, CandidateControl, Names, OnTheWay, BaseOk,
         ClosedStore,
         AllowsReturn, Detachable, SnapshotOk, HoldsCandidate, CommandMaterialized;
    var j := d.journal.value;
    InvParts(b, d);
    JudgedBack(b, d, env.runtime);
    RecoverReaches(b, d, env);
    BegunFacts(b, j);
  }

  // ---- runs that avoid both failing families

  /** The step does not finalize over a stale link without projecting it, and does not roll back a
      transaction whose installed record is already written. */
  ghost predicate Prudent(sys: System, ev: Event) {
    sys.disk.journal.Some? && !sys.disk.journal.value.Terminal() && sys.disk.journal.value.Phase() != Prepared ==>
      var d, j := sys.disk, sys.disk.journal.value;
      && (ev.action.FinalizeCandidate? ==> !Stale(d.command, j))
      && (ev.action.RecoverTransaction? ==>
            if GoesForward(d, j, ev.env.runtime) then Projects(d, j) || !Stale(d.command, j)
            else !Recorded(d, j))
  }

  /** The link and the record that a state is bound to leave behind are sound. */
  ghost predicate Sound(b: Durable, j: Journal, s: Durable) {
    && (Settling(j, s) ==> !Stale(s.command, j))
    && (!Settling(j, s) && (s.journal.None? || s.journal.value.Terminal()) ==> s.installed == b.installed)
  }

  ghost predicate GoodInv(sys: System) {
    && SysInv(sys)
    && CommandComplete(sys.base) && InstalledMatches(sys.base)
    && (WithinTransaction(sys) ==> Sound(sys.base, sys.disk.journal.value, sys.disk))
  }

  /** An idle end of a sound run is again a good base. */
  lemma EndsGood(b: Durable, j: Journal, k: Journal, s: Durable)
    requires BaseOk(b) && BegunIn(b, j) && SameTransaction(j, k) && EndsAtomically(b, s, k) && Sound(b, j, s)
    requires CommandComplete(b) && InstalledMatches(b)
    ensures CommandComplete(s) && InstalledMatches(s)
  {
    hide CandidateControl, CommandMaterialized, Newer, BegunIn, ClosedStore, Names, FinalizedOk;
    SameBegun(b, j, k);
    CandidateIsNotPrior(b, j);
    if k.state.Finalized? {
      FinalizedSelects(b, s, k);
      DanglesIffStale(b, s, k);
      CommittedInstalled(b, s, k);
    }
  }

  lemma FinalizedSelects(b: Durable, s: Durable, k: Journal)
    requires FinalizedOk(b, s, k)
    ensures s.selector == Some(k.Candidate())
  {
  }

  lemma RecoverSound(b: Durable, d: Durable, env: Env, s: Durable)
    requires Inv(b, d) && d.journal.Some? && !d.journal.value.Terminal() && Covers(env.listing, d) && env.binds
    requires d.journal.value.Phase() == Prepared || if GoesForward(d, d.journal.value, env.runtime)
               then Projects(d, d.journal.value) || !Stale(d.command, d.journal.value)
                 else !Recorded(d, d.journal.value)
    requires s in Recover(d, env).states
    ensures Sound(b, d.journal.value, s)
  {
    hide Inv, BegunIn, Recover, Covers, CandidateControl, Names, BaseOk, ClosedStore, OnTheWay,
         AllowsReturn, Detachable, SnapshotOk, HoldsCandidate, CommandMaterialized, Projectable, Stale;
    var j := d.journal.value;
    InvParts(b, d);
    CandidateIsNotPrior(b, j);
    RecoverReaches(b, d, env);
    if s.journal.Some? && s.journal.value.Terminal() {
      SettledOnTheWay(b, d, s, env.runtime);
    }
    if Judge(b, d, env.runtime) == Ends(Finalized) {
      JudgedForward(b, d, env.runtime);
      ControlIsNotStale(b, j, s.command);
      SameStale(s.command, d.command, j);
    } else if Judge(b, d, env.runtime) == Ends(RolledBack) {
      JudgedBack(b, d, env.runtime);
      BegunFacts(b, j);
    }
  }

  lemma SameStale(c: Option<Link>, d: Option<Link>, j: Journal)
    ensures TargetOf(c) == TargetOf(d) ==> (Stale(c, j) <==> Stale(d, j))
  {
  }

  lemma SettledOnTheWay(b: Durable, d: Durable, s: Durable, r: Runtime)
    requires d.journal.Some? && OnTheWay(b, d, s, r) && s.journal.value.Terminal()
    ensures Judge(b, d, r) == Ends(s.journal.value.state)
    ensures s.journal.value.state.Finalized? ==> TargetOf(s.command) == FinalTarget(b, d, r)
    ensures s.installed == FinalInstalled(b, d, r) || s.journal.value.state.Finalized?
  {
    hide Inv, CandidateControl;
  }

  /** Disposing of a sound terminal state keeps it sound. */
  lemma DisposeSound(b: Durable, d: Durable, j: Journal, s: Durable)
    requires Inv(b, d) && d.journal == Some(j) && j.Terminal() && Sound(b, j, d) && OnlyDisposes(d, s)
    ensures Sound(b, j, s)
  {
    hide BegunIn, CandidateControl, CommandMaterialized, Names, ClosedStore, SameTarget;
    InvParts(b, d);
    CandidateIsNotPrior(b, j);
  }

  lemma FinalizeSound(b: Durable, d: Durable, s: Session, env: Env, t: Durable)
    requires Holds(b, d, s) && !Stale(d.command, d.journal.value)
    requires t in Finalize(d, s, env).states
    ensures Sound(b, d.journal.value, t)
  {
    hide BegunIn, CandidateControl, Names, ClosedStore, SnapshotOk, BaseOk, Inv, CompleteTransaction, SelectRetention,
         Stale,
         HoldsCandidate, CommandMaterialized;
    var j := d.journal.value;
    HeldFacts(b, d, s);
    var e := d.(installed := Some(Installed(j.tx, j.payload)));
    SameButInstalled(b, d, e, j);
    RetentionIsCandidate(b, e, j);
    var f := e.(selector := Some(j.Candidate()));
    CompleteFrame(f, j, Finalized, env.listing);
    var c := CompleteTransaction(f, j, Finalized, env.listing);
    assert t == e || t == f || t in c.states;
  }

  lemma RollBackSound(b: Durable, d: Durable, s: Session, env: Env, t: Durable)
    requires Holds(b, d, s) && Sound(b, d.journal.value, d)
    requires t in RollBack(d, s, env).states
    ensures Sound(b, d.journal.value, t)
  {
    hide BegunIn, CandidateControl, Names, ClosedStore, SnapshotOk, BaseOk, Inv, CompleteTransaction, FinishCleanup,
         Stale,
         HoldsCandidate, CommandMaterialized, RestorePrior, Detachable;
    var j := d.journal.value;
    HeldFacts(b, d, s);
    InvParts(b, d);
    CandidateIsNotPrior(b, j);
    if j.Terminal() {
      CleanupFrame(d, j, env.listing);
      DisposeSound(b, d, j, t);
    } else if s.phase == Prepared {
      PreparedRollBack(b, d, s, env);
      CompleteFrame(d, j, RolledBack, env.listing);
    } else {
      RestoreSafe(b, d, j, env.inode);
      CandidateVerified(b, d, j);
      var a := RestorePrior(d, j, s.prior, env.inode);
      if a.ok {
        CompleteFrame(Last(d, a), j, RolledBack, env.listing);
      }
    }
  }

  /** A state with the prior selection and record is sound. */
  lemma PriorSound(b: Durable, j: Journal, t: Durable)
    requires BaseOk(b) && BegunIn(b, j) && t.selector == b.selector && t.installed == b.installed
    requires t.journal.Some? ==> !t.journal.value.state.Finalized?
    ensures Sound(b, j, t)
  {
    hide BegunIn, BaseOk, Stale;
    CandidateIsNotPrior(b, j);
  }

  lemma UndoFrame(b: Durable, d: Durable, s: Session, env: Env, t: Durable)
    requires BaseOk(b) && d.journal == Some(JournalOf(s, Working(Prepared)))
    requires BegunIn(b, d.journal.value) && PreparedOk(b, d, d.journal.value) && d.root.rollback.Saved?
    requires s.prior == b.selector
    requires t in RollBack(d, s, env).states
    ensures t.selector == b.selector && t.installed == b.installed
    ensures t.journal.Some? ==> t.journal.value.state.RolledBack?
  {
    hide BegunIn, CompleteTransaction, ClosedStore, Newer;
    PreparedControl(b, d, d.journal.value);
    CompleteFrame(d, d.journal.value, RolledBack, env.listing);
  }

  lemma CommitFrame(b: Durable, d: Durable, s: Session, env: Env, fault: Fault, t: Durable)
    requires Holds(b, d, s) && s.phase == Prepared && OwnsJournal(d, s)
    requires t in Commit(d, s, env, fault).states
    ensures t.selector == b.selector && t.installed == b.installed
    ensures t.journal.Some? ==> !t.journal.value.state.Finalized?
  {
    hide BegunIn, CompleteTransaction, ClosedStore, Newer, RollBack, ControlTarget, SessionOk;
    var j := d.journal.value;
    HeldFacts(b, d, s);
    InvParts(b, d);
    BegunFacts(b, j);
    var d0 := d.(root := Root(EmptyRollback));
    var d1 := d0.(root := Root(Saved(d0.command)));
    CompleteFrame(d0, j, Closed, env.listing);
    CompleteFrame(d1, j, Closed, env.listing);
    SnapshotTaken(b, d0, j);
    if !s.reuses && s.tx !in Gens(d1) && SnapshotOk(b) {
      var e := d1.(store := Some(Gens(d1)[s.tx := Partial]));
      var f := d1.(store := Some(Gens(d1)[s.tx := Generation.Complete(s.payload)]));
      HeldReuse(d, s);
      WritingPrepared(b, d1, Partial, j);
      WritingPrepared(b, d1, Generation.Complete(s.payload), j);
      if t in RollBack(e, s, env).states { UndoFrame(b, e, s, env, t); }
      if t in RollBack(f, s, env).states { UndoFrame(b, f, s, env, t); }
    }
  }

  lemma HeldReuse(d: Durable, s: Session)
    requires d.journal.Some? && SessionOk(d, s)
    ensures s.reuses == d.journal.value.Reuses()
  {
  }

  /** Operations that only move an open journal on leave no settled state. */
  lemma OpenJournals(b: Durable, d: Durable, s: Session, env: Env, t: Durable)
    requires Holds(b, d, s)
    requires t in Activate(d, s, env).states || t in Preserve(d, s).states
    ensures t.journal.Some? && !t.journal.value.Terminal()
  {
    hide BegunIn, ClosedStore, Newer, ControlTarget, Inv, BaseOk, SessionOk, ControlReadable;
  }

  lemma WritesNothing(d: Durable, s: Session, env: Env, fault: Fault)
    ensures !(s.phase == Prepared && OwnsJournal(d, s)) ==> Commit(d, s, env, fault).states == []
  {
  }

  lemma RecoverStepSound(b: Durable, d: Durable, env: Env, s: Durable)
    requires Inv(b, d) && d.journal.Some? && Covers(env.listing, d) && Sound(b, d.journal.value, d)
    requires d.journal.value.Terminal() || d.journal.value.Phase() == Prepared ||
             if GoesForward(d, d.journal.value, env.runtime)
             then Projects(d, d.journal.value) || !Stale(d.command, d.journal.value) else !Recorded(d, d.journal.value)
    requires s in Recover(d, env).states
    ensures Sound(b, d.journal.value, s)
  {
    hide Inv, Recover, Covers, Sound, Stale;
    BindingOnlyInterrupts(d, env, s);
    if d.journal.value.Terminal() {
      TerminalIsFinal(b, d, env, s);
      DisposeSound(b, d, d.journal.value, s);
    } else {
      RecoverSound(b, d, env.(binds := true), s);
    }
  }

  lemma StepSound(sys: System, ev: Event, t: Durable)
    requires GoodInv(sys) && WithinTransaction(sys) && Enabled(sys, ev) && Prudent(sys, ev)
    requires t in StatesOf(sys, ev)
    ensures Sound(sys.base, sys.disk.journal.value, t)
  {
    hide Inv, BaseOk, Commit, Activate, Finalize, RollBack, Preserve, Recover, Covers, AdmitsInstall, AdmitsReverse,
         SessionOk,
         Sound, Stale, CommandComplete, InstalledMatches, BegunIn, GoesForward, Projects;
    var b, d, j := sys.base, sys.disk, sys.disk.journal.value;
    InvParts(b, d);
    NotIdleRefuses(d, if ev.action.BeginInstall? then ev.action.payload else Payload(Version(0, 0, 0), 0));
    match ev.action
    case CommitProjection(fault) =>
      WritesNothing(d, sys.session.value, ev.env, fault);
      CommitFrame(b, d, sys.session.value, ev.env, fault, t);
      PriorSound(b, j, t);
    case ActivateCandidate =>
      OpenJournals(b, d, sys.session.value, ev.env, t);
      OpenIsSound(b, j, t);
    case PreserveCandidate =>
      OpenJournals(b, d, sys.session.value, ev.env, t);
      OpenIsSound(b, j, t);
    case FinalizeCandidate =>
      FinalizeNeedsOpen(b, d, sys.session.value, ev.env);
      FinalizeSound(b, d, sys.session.value, ev.env, t);
    case RollbackCandidate =>
      RollBackSound(b, d, sys.session.value, ev.env, t);
    case RecoverTransaction =>
      RecoverStepSound(b, d, ev.env, t);
    case _ =>
  }

  lemma OpenIsSound(b: Durable, j: Journal, t: Durable)
    requires t.journal.Some? && !t.journal.value.Terminal()
    ensures Sound(b, j, t)
  {
  }

  lemma FinalizeNeedsOpen(b: Durable, d: Durable, s: Session, env: Env)
    requires Holds(b, d, s)
    ensures Finalize(d, s, env).states != [] ==> !d.journal.value.Terminal() && d.journal.value.Phase() != Prepared
  {
    hide Inv, BaseOk, FinalizeInstallation;
  }

  lemma GoodStep(sys: System, ev: Event, next: System)
    requires GoodInv(sys) && Step(sys, ev, next) && Prudent(sys, ev)
    ensures GoodInv(next)
  {
    hide Inv, BaseOk, AllReached, StatesOf, Enabled, SessionAfter, SessionOk, Sound, CommandComplete, InstalledMatches,
         Prudent,
         EndsAtomically;
    StepKeeps(sys, ev, next);
    if WithinTransaction(sys) {
      var b, j := sys.base, sys.disk.journal.value;
      if ev.writes > 0 {
        StatesReached(sys, ev);
        AllReachedAt(b, j, StatesOf(sys, ev), ev.writes - 1);
        ReachedEnds(b, j, next.disk);
        StepSound(sys, ev, next.disk);
        InvParts(b, sys.disk);
        if next.disk.journal.None? {
          var k :| SameTransaction(j, k) && EndsAtomically(b, next.disk, k);
          EndsGood(b, j, k, next.disk);
        } else {
          SameSound(b, j, next.disk.journal.value, next.disk);
        }
      }
    } else {
      BeginSound(sys, ev, next);
    }
  }

  lemma SameSound(b: Durable, j: Journal, k: Journal, s: Durable)
    requires SameTransaction(j, k) && Sound(b, j, s)
    ensures Sound(b, k, s)
  {
  }

  lemma BeginSound(sys: System, ev: Event, next: System)
    requires GoodInv(sys) && Step(sys, ev, next) && SysInv(next) && !WithinTransaction(sys)
    ensures GoodInv(next)
  {
    hide Inv, BaseOk, Recover, AdmitsInstall, AdmitsReverse, Covers, Unused, CommandComplete, InstalledMatches;
    if ev.action.RecoverTransaction? {
      RecoverWithoutJournal(sys.disk, ev.env);
    }
  }

  /** In a run whose steps are all prudent, a link into the store always points at a complete
      generation, and at every idle state the installed record names the active generation. */
  lemma {:induction false} PrudentRuns(run: seq<System>, events: seq<Event>, i: nat)
    requires IsRun(run, events) && GoodInv(run[0]) && i < |run|
    requires forall k :: 0 <= k < |events| ==> Prudent(run[k], events[k])
    ensures GoodInv(run[i])
    ensures CommandComplete(run[i].disk)
    ensures Idle(run[i].disk) ==> InstalledMatches(run[i].disk)
  {
    hide Step, Prudent, Inv, Sound, SessionOk, CommandComplete, InstalledMatches;
    if i > 0 {
      PrudentRuns(run, events, i - 1);
      GoodStep(run[i - 1], events[i - 1], run[i]);
    }
    if !Idle(run[i].disk) {
      GoodIsComplete(run[i]);
    }
  }

  lemma GoodIsComplete(sys: System)
    requires GoodInv(sys) && !Idle(sys.disk)
    ensures CommandComplete(sys.disk)
  {
    hide JournalOk, BaseOk;
    if sys.disk.journal.Some? {
      LinkComplete(sys.base, sys.disk, sys.disk.journal.value);
    }
  }

  const EmptyHost := Durable(None, NoRoot, None, None, None, None)

  /** Runs may start on an empty host. */
  lemma EmptyHostIsGood()
    ensures GoodInv(System(EmptyHost, EmptyHost, None))
  {
  }
}
