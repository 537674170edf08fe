/** The upgrade of a running installation: which of its steps may fail, and what becomes of the
    transaction for every combination of failures. */
module Deployment {
  import opened Wrappers
  import opened PayloadState
  import opened PayloadTransaction
  import opened PayloadSafety
  import opened PayloadRecovery
  import opened PayloadRuns
  import opened PayloadProperties
  import opened PayloadHost
  import opened PayloadOwner

  /** How one step of the deployment ends: done, failed, or with an outcome nobody can prove. */
  datatype StepResult = Done | Failed | Unknown

  /** What the steps outside the payload transaction turn out to do. */
  datatype Steps = Steps(native: bool, fault: Fault, drain: StepResult, stop: nat, swap: StepResult, bind: StepResult,
                         reopens: bool)

  datatype Disposition = WasAbandoned | WasRolledBack | WasFinalized | WasPreserved | IsWedged

  /** The state in which a disposition leaves the installation. */
  ghost predicate Disposes(b: Durable, j: Journal, d: Durable, disposition: Disposition) {
    match disposition
    case WasAbandoned => EndsAtomically(b, d, j.(state := Closed)) || EndsAtomically(b, d, j.(state := RolledBack))
    case WasRolledBack => EndsAtomically(b, d, j.(state := RolledBack))
    case WasFinalized => EndsAtomically(b, d, j.(state := Finalized))
    case WasPreserved =>
      Inv(b, d) && d.journal.Some? && SameTransaction(j, d.journal.value) && d.journal.value.state.RecoveryRequired?
    case IsWedged => Inv(b, d) && d.journal.Some? && SameTransaction(j, d.journal.value) && !d.journal.value.Terminal()
  }

  /** The candidate's activation makes a link that its own rollback will not recognize: control
      stays with another generation, and the link was absent or pointed elsewhere before. */
  ghost predicate Unreturnable(b: Durable, j: Journal) {
    CandidateControl(b, j) != Exec(j.tx) && TargetOf(b.command) != Some(CandidateControl(b, j))
  }

  // ---- how each operation of the owner ends

  lemma CompleteEnds(b: Durable, j: Journal, e: Durable, outcome: JournalState, listing: seq<Id>)
    requires BaseOk(b) && !outcome.Working? && !outcome.RecoveryRequired?
    requires outcome.Finalized? ==> Covers(listing, e)
    requires var k := j.(state := outcome); JournalOk(b, e.(journal := Some(k)), k)
    ensures CompleteTransaction(e, j, outcome, listing).ok
    ensures EndsAtomically(b, Last(e, CompleteTransaction(e, j, outcome, listing)), j.(state := outcome))
  {
    hide JournalOk, EndsAtomically, FinishCleanup, BaseOk;
    var k := j.(state := outcome);
    CleanupSafe(b, e.(journal := Some(k)), k, listing);
  }

  lemma AbandonEnds(b: Durable, d: Durable, s: Session, env: Env)
    requires BaseOk(b) && BegunIn(b, JournalOf(s, Working(Prepared))) && Untouched(b, d)
    ensures EndsAtomically(b, Last(d, Abandon(d, s, env)), JournalOf(s, Closed))
    ensures Abandon(d, s, env).states != [] && !Abandon(d, s, env).ok
  {
    hide BaseOk, BegunIn, FinishCleanup, EndsAtomically;
    var j := JournalOf(s, Working(Prepared));
    SameBegun(b, j, j.(state := Closed));
    CompleteEnds(b, j, d, Closed, env.listing);
  }

  lemma UndoEnds(b: Durable, d: Durable, s: Session, env: Env)
    requires BaseOk(b) && d.journal == Some(JournalOf(s, Working(Prepared)))
    requires BegunIn(b, d.journal.value) && PreparedOk(b, d, d.journal.value) && d.root.rollback.Saved?
    requires s.prior == b.selector
    ensures EndsAtomically(b, Last(d, Undo(d, s, env)), JournalOf(s, RolledBack))
    ensures Undo(d, s, env).states != []
  {
    hide BegunIn, FinishCleanup, ClosedStore, Newer, EndsAtomically;
    var j := d.journal.value;
    PreparedControl(b, d, j);
    assert RestorePrior(d, j, s.prior, env.inode) == Nothing;
    PreparedIsRolledBack(b, d, j);
    CompleteEnds(b, j, d, RolledBack, env.listing);
    var c := CompleteTransaction(d, j, RolledBack, env.listing);
    assert RollBack(d, s, env).states == c.states;
  }

  lemma MaterializeEnds(b: Durable, d: Durable, s: Session, env: Env, fault: Fault)
    requires BaseOk(b) && d.journal == Some(JournalOf(s, Working(Prepared))) && s.reuses == d.journal.value.Reuses()
    requires BegunIn(b, d.journal.value) && Untouched(b, d) && SnapshotOk(b) && d.root == Root(Saved(b.command))
    ensures var w := Materialize(d, s, env, fault); var e := Last(d, w);
            && w.states != []
            && (if w.ok then e.command == b.command && e.selector == b.selector
                else EndsAtomically(b, e, JournalOf(s, Closed)) || EndsAtomically(b, e, JournalOf(s, RolledBack)))
  {
    hide BegunIn, ClosedStore, RollBack, Newer, SnapshotOk, CandidateControl, CompleteTransaction, EndsAtomically;
    BegunFacts(b, d.journal.value);
    AbandonEnds(b, d, s, env);
    if !s.reuses {
      WritingPrepared(b, d, Partial, d.journal.value);
      WritingPrepared(b, d, Generation.Complete(s.payload), d.journal.value);
      UndoEnds(b, d.(store := Some(Gens(d)[s.tx := Partial])), s, env);
      UndoEnds(b, d.(store := Some(Gens(d)[s.tx := Generation.Complete(s.payload)])), s, env);
    }
  }

  lemma CommitEnds(b: Durable, d: Durable, s: Session, env: Env, fault: Fault)
    requires Holds(b, d, s) && s.phase == Prepared && !d.journal.value.Terminal() && d.root == Root(NoRollback)
    ensures var w := Commit(d, s, env, fault); var e := Last(d, w);
            if w.ok then Holds(b, e, s.(phase := Materialized)) && !e.journal.value.Terminal()
                         && e.command == b.command && e.selector == b.selector
                         && SameTransaction(d.journal.value, e.journal.value)
            else EndsAtomically(b, e, JournalOf(s, Closed)) || EndsAtomically(b, e, JournalOf(s, RolledBack))
  {
    hide BegunIn, ClosedStore, CompleteTransaction, Materialize, Newer, Names, EndsAtomically, Inv;
    HeldFacts(b, d, s);
    HeldReuse(d, s);
    var d0 := d.(root := Root(EmptyRollback));
    var d1 := d0.(root := Root(Saved(d0.command)));
    AbandonEnds(b, d0, s, env);
    SnapshotTaken(b, d0, d.journal.value);
    if SnapshotOk(b) {
      MaterializeEnds(b, d1, s, env, fault);
      MaterializeReached(b, d1, s, env, fault);
    }
    CommitReached(b, d, s, env, fault);
  }

  /** Activation from a freshly materialized state goes through; a failing write leaves one of
      its own intermediate states. */
  lemma ActivateEnds(b: Durable, d: Durable, s: Session, env: Env)
    requires Holds(b, d, s) && s.phase == Materialized && !d.journal.value.Terminal() && d.command == b.command
    ensures Activate(d, s, env).ok
    ensures var j := d.journal.value;
            var f := d.(selector := Some(j.Candidate()));
            var l := Last(f, Project(f, CandidateControl(b, j), b.command, env.inode));
            var g := l.(journal := Some(JournalOf(s, Working(Activated))));
            && Project(f, CandidateControl(b, j), b.command, env.inode).ok
            && Activate(d, s, env).states == [f] + Project(f, CandidateControl(b, j), b.command, env.inode).states + [g]
            && Linked(b, f, l, j) && Holds(b, f, s) && Holds(b, l, s) && Holds(b, g, s)
  {
    hide ClosedStore, Newer, Names, SnapshotOk, CommandMaterialized, BegunIn, CandidateControl, ControlTarget,
         HoldsCandidate, BaseOk;
    var j := d.journal.value;
    HeldFacts(b, d, s);
    var f := d.(selector := Some(j.Candidate()));
    SelectedMaterialized(b, d, j);
    CandidateReadable(b, d, j);
    CandidateReadable(b, f, j);
    SnapshotIs(b, d, j);
    var p := Project(f, CandidateControl(b, j), b.command, env.inode);
    LinkedMaterialized(b, f, Last(f, p), j);
    SameMaterialized(b, Last(f, p), Last(f, p).(journal := Some(JournalOf(s, Working(Activated)))), j,
                     JournalOf(s, Working(Activated)));
    SameBegun(b, j, JournalOf(s, Working(Activated)));
  }

  /** The link after projection: the one that was there, if it already led to the candidate's
      control, and otherwise a new one that does. */
  ghost predicate Linked(b: Durable, f: Durable, l: Durable, j: Journal) {
    && l == f.(command := l.command) && f.selector == Some(j.Candidate())
    && (if TargetOf(b.command) == Some(CandidateControl(b, j)) then l.command == b.command
        else TargetOf(l.command) == Some(CandidateControl(b, j)))
  }

  ghost predicate Activating(b: Durable, d: Durable, e: Durable, s: Session) {
    && d.journal.Some? && Holds(b, e, s) && s.phase != Prepared
    && !e.journal.value.Terminal() && SameTransaction(d.journal.value, e.journal.value)
    && e.store == d.store
  }

  lemma ActivateLeaves(b: Durable, d: Durable, s: Session, env: Env, stop: nat)
    requires Holds(b, d, s) && s.phase == Materialized && !d.journal.value.Terminal() && d.command == b.command
    ensures var e := Last(d, ActivateUpTo(d, s, env, stop));
            && Activating(b, d, e, s) && Activating(b, d, e, s.(phase := Activated))
            && (Detachable(b, e, e.journal.value) <==> !(stop >= 2 && Unreturnable(b, d.journal.value)))
            && (ActivateUpTo(d, s, env, stop).ok ==> e.journal.value.Phase() == Activated && stop >= 2)
            && (stop >= 3 ==> ActivateUpTo(d, s, env, stop).ok)
  {
    hide ClosedStore, Newer, Names, SnapshotOk, CommandMaterialized, BegunIn, CandidateControl, HoldsCandidate, BaseOk,
         Inv, Activate;
    var j := d.journal.value;
    ActivateEnds(b, d, s, env);
    HeldFacts(b, d, s);
    CandidateIsNotPrior(b, j);
    var f := d.(selector := Some(j.Candidate()));
    var p := Project(f, CandidateControl(b, j), b.command, env.inode);
    var l := Last(f, p);
    var w := Activate(d, s, env);
    ActivatedReturns(b, l, j);
    assert |p.states| <= 1;
    var e := Last(d, ActivateUpTo(d, s, env, stop));
    assert e == d || e == f || e == l || e == l.(journal := Some(JournalOf(s, Working(Activated))));
    ActivatedHolds(b, e, s);
    if stop >= 2 {
      assert e.command == l.command && e.selector == l.selector && e.journal.value.tx == j.tx;
      SameDetachable(b, l, e, j, e.journal.value);
    } else {
      assert e.command == b.command;
      UnlinkedDetaches(b, e, e.journal.value);
    }
  }

  lemma SameDetachable(b: Durable, d: Durable, e: Durable, j: Journal, k: Journal)
    requires e.command == d.command && e.selector == d.selector && k.tx == j.tx
    ensures Detachable(b, d, j) <==> Detachable(b, e, k)
  {
  }

  /** A link that is still the one from before can always be taken off. */
  lemma UnlinkedDetaches(b: Durable, e: Durable, j: Journal)
    requires e.command == b.command
    ensures Detachable(b, e, j)
  {
  }

  lemma ActivatedHolds(b: Durable, e: Durable, s: Session)
    requires e.journal.Some? && SessionOk(e, s) && s.phase == Materialized
    ensures SessionOk(e, s.(phase := Activated))
  {
  }

  lemma RollBackEnds(b: Durable, d: Durable, s: Session, env: Env)
    requires Holds(b, d, s) && s.phase != Prepared && !d.journal.value.Terminal()
    ensures RollBack(d, s, env).ok <==> Detachable(b, d, d.journal.value)
    ensures RollBack(d, s, env).ok ==>
      EndsAtomically(b, Last(d, RollBack(d, s, env)), d.journal.value.(state := RolledBack))
    ensures !RollBack(d, s, env).ok ==> RollBack(d, s, env).states == []
  {
    hide ClosedStore, Newer, Names, SnapshotOk, CommandMaterialized, BegunIn, CandidateControl, Detachable,
         HoldsCandidate, BaseOk, FinishCleanup, RestorePrior, MaterializedOk, Untouched, EndsAtomically;
    var j := d.journal.value;
    HeldFacts(b, d, s);
    RestoreSafe(b, d, j, env.inode);
    CandidateVerified(b, d, j);
    var a := RestorePrior(d, j, s.prior, env.inode);
    if a.ok {
      RestoredIsRolledBack(b, d, Last(d, a), j);
      CompleteEnds(b, j, Last(d, a), RolledBack, env.listing);
    }
  }

  lemma FinalizeEnds(b: Durable, d: Durable, s: Session, env: Env)
    requires Holds(b, d, s) && s.phase == Activated && !d.journal.value.Terminal() && Covers(env.listing, d)
    ensures Finalize(d, s, env).ok
    ensures EndsAtomically(b, Last(d, Finalize(d, s, env)), d.journal.value.(state := Finalized))
  {
    hide ClosedStore, Newer, Names, SnapshotOk, CommandMaterialized, BegunIn, CandidateControl, ControlTarget,
         HoldsCandidate, BaseOk, FinishCleanup, SelectRetention, Covers, EndsAtomically;
    HeldFacts(b, d, s);
    var j := d.journal.value;
    var e := d.(installed := Some(Installed(j.tx, j.payload)));
    var f := e.(selector := Some(j.Candidate()));
    SameButInstalled(b, d, e, j);
    SelectedMaterialized(b, e, j);
    RetentionIsCandidate(b, e, j);
    CandidateReadable(b, f, j);
    MaterializedIsFinalized(b, f, j);
    CoversStore(env.listing, d, f);
    CompleteEnds(b, j, f, Finalized, env.listing);
  }

  lemma PreserveEnds(b: Durable, d: Durable, s: Session)
    requires Holds(b, d, s) && s.phase != Prepared && !d.journal.value.Terminal()
    ensures Preserve(d, s).ok
    ensures Disposes(b, d.journal.value, Last(d, Preserve(d, s)), WasPreserved)
  {
    hide MaterializedOk, BegunIn, EndsAtomically, BaseOk;
    HeldFacts(b, d, s);
    var k := JournalOf(s, RecoveryRequired(s.phase));
    SameBegun(b, d.journal.value, k);
    SameMaterialized(b, d, d.(journal := Some(k)), d.journal.value, k);
  }

  /** After activation, the rollback goes through exactly when the link can be returned. */
  lemma ActivatedReturns(b: Durable, e: Durable, j: Journal)
    requires BaseOk(b) && BegunIn(b, j) && e.selector == Some(j.Candidate())
    requires if TargetOf(b.command) == Some(CandidateControl(b, j)) then e.command == b.command
             else TargetOf(e.command) == Some(CandidateControl(b, j))
    ensures e.selector != b.selector
    ensures Detachable(b, e, j) <==> !Unreturnable(b, j)
  {
    hide CandidateControl, BaseOk, BegunIn;
    CandidateIsNotPrior(b, j);
  }

  /** The rollback of a transaction that has just been activated goes through exactly when the
      link that activation made can be recognized again. */
  lemma RollbackAfterActivationIff(b: Durable, d: Durable, s: Session, env: Env)
    requires Holds(b, d, s) && s.phase == Materialized && !d.journal.value.Terminal() && d.command == b.command
    ensures var e := Last(d, Activate(d, s, env));
            RollBack(e, s.(phase := Activated), env).ok <==> !Unreturnable(b, d.journal.value)
  {
    hide ClosedStore, Newer, Names, SnapshotOk, CommandMaterialized, BegunIn, CandidateControl, HoldsCandidate, BaseOk,
         Inv, Activate,
         RollBack, SessionOk, Unreturnable;
    var j := d.journal.value;
    ActivateEnds(b, d, s, env);
    HeldFacts(b, d, s);
    var f := d.(selector := Some(j.Candidate()));
    var l := Last(f, Project(f, CandidateControl(b, j), b.command, env.inode));
    var e := l.(journal := Some(JournalOf(s, Working(Activated))));
    ActivatedHolds(b, e, s);
    HeldJournal(b, d, s);
    ActivatedReturns(b, l, j);
    RollBackEnds(b, e, s.(phase := Activated), env);
  }

  /** How far an upgrade gets: whether the candidate is materialized, activation got past writing the
      link, and the candidate was activated; how the steps end; whether admission may have closed,
      and whether the successor has committed. */
  datatype Course = Course(
    materialized: bool, linked: bool, activated: bool, result: StepResult, admissionClosed: bool, committed: bool)

  ghost predicate Activates(d: Durable, s: Session, env: Env, steps: Steps) {
    ActivateUpTo(Last(d, Commit(d, s, env, steps.fault)), s.(phase := Materialized), env, steps.stop).ok
  }

  ghost function CourseOf(d: Durable, s: Session, env: Env, steps: Steps): Course {
    var w := Commit(d, s, env, steps.fault);
    var reaches := w.ok && (steps.native ==> steps.drain.Done?);
    var activated := reaches && Activates(d, s, env, steps);
    var result := if !reaches then steps.drain
                  else if !activated then Failed
                  else if !steps.swap.Done? || steps.native then steps.swap
                  else steps.bind;
    Course(w.ok, reaches && steps.stop >= 2, activated, result, w.ok && (steps.native || activated),
           activated && steps.swap.Done?)
  }

  /** What becomes of the transaction, decided by the course alone. */
  ghost predicate Follows(c: Course, reopens: bool, unreturnable: bool, disposition: Disposition) {
    var closed := c.admissionClosed && !reopens;
    var undone := c.materialized && c.result.Failed? && !c.committed && !closed;
    && (disposition.WasAbandoned? <==> !c.materialized)
    && (disposition.WasFinalized? <==> c.materialized && c.result.Done?)
    && (disposition.WasPreserved? <==>
          c.materialized && !c.result.Done? && (c.result.Unknown? || c.committed || closed))
    && (disposition.WasRolledBack? <==> undone && !(c.linked && unreturnable))
    && (disposition.IsWedged? <==> undone && c.linked && unreturnable)
  }

  /** The same read off the steps one after the other, given whether the candidate was materialized and
      whether its activation goes through. */
  function Ordained(steps: Steps, materialized: bool, activates: bool, unreturnable: bool): Disposition {
    var undone := if unreturnable && steps.stop >= 2 then IsWedged else WasRolledBack;
    if !materialized then WasAbandoned
    else if steps.native && steps.drain.Unknown? then WasPreserved
    else if steps.native && steps.drain.Failed? then (if steps.reopens then WasRolledBack else WasPreserved)
    else if !activates then (if steps.native && !steps.reopens then WasPreserved else undone)
    else if steps.swap.Done? then (if steps.native || steps.bind.Done? then WasFinalized else WasPreserved)
    else if steps.swap.Failed? && steps.reopens then undone
    else WasPreserved
  }

  lemma SameUnreturnable(b: Durable, j: Journal, k: Journal)
    requires SameTransaction(j, k)
    ensures Unreturnable(b, j) <==> Unreturnable(b, k)
  {
  }

  lemma HeldJournal(b: Durable, d: Durable, s: Session)
    requires Holds(b, d, s)
    ensures d.journal.Some? && d.journal.value == JournalOf(s, d.journal.value.state)
  {
    hide Inv, BaseOk;
  }

  lemma CoversCandidate(b: Durable, d: Durable, s: Session, listing: seq<Id>)
    requires Holds(b, d, s) && s.phase != Prepared && !d.journal.value.Terminal()
    requires s.tx in listing && Covers(listing, b)
    ensures Covers(listing, d)
  {
    hide Inv, BaseOk, SnapshotOk, CommandMaterialized, BegunIn;
    HeldFacts(b, d, s);
  }

  /** For every combination of failures the upgrade leaves the disposition that its course decides.
      After the successor committed it never rolls back; while admission may be closed it rolls back
      only with admission proved reopened. */
  method Upgrade(owner: Owner, env: Env, steps: Steps, ghost b: Durable)
    returns (disposition: Disposition, ghost course: Course)
    requires owner.state == In(Prepared)
    requires Holds(b, owner.host.disk, owner.Session()) && !owner.host.disk.journal.value.Terminal()
    requires owner.host.disk.root == Root(NoRollback)
    requires owner.tx in env.listing && Covers(env.listing, b)
    modifies owner`state, owner.host
    ensures course == CourseOf(old(owner.host.disk), old(owner.Session()), env, steps)
    ensures Disposes(b, old(owner.host.disk).journal.value, owner.host.disk, disposition)
    ensures Follows(course, steps.reopens, Unreturnable(b, old(owner.host.disk).journal.value), disposition)
    ensures var d, session := old(owner.host.disk), old(owner.Session());
      var activates := Activates(d, session, env, steps);
      && disposition ==
         Ordained(steps, Commit(d, session, env, steps.fault).ok, activates, Unreturnable(b, d.journal.value))
      && (!disposition.WasAbandoned? && steps.stop >= 3 ==> activates)
      && (!disposition.WasAbandoned? && steps.stop < 2 ==> !activates)
    ensures course.committed ==> disposition.WasFinalized? || disposition.WasPreserved?
    ensures disposition.WasFinalized? ==> course.committed
    ensures disposition.WasRolledBack? && course.admissionClosed ==> steps.reopens
  {
    hide Holds, Commit, ActivateUpTo, RollBack, Finalize, Preserve, Inv, EndsAtomically, CandidateControl, Covers,
         BegunIn,
         Unreturnable, Detach;
    ghost var d, s := owner.host.disk, owner.Session();
    course := CourseOf(d, s, env, steps);
    HeldJournal(b, d, s);
    ghost var j := d.journal.value;
    CommitEnds(b, d, s, env, steps.fault);
    var ok := owner.CommitProjection(env, steps.fault);
    if !ok {
      return WasAbandoned, course;
    }
    ghost var e := owner.host.disk;
    HeldJournal(b, e, owner.Session());
    SameUnreturnable(b, j, e.journal.value);
    UnlinkedDetaches(b, e, e.journal.value);
    ActivateLeaves(b, e, owner.Session(), env, steps.stop);
    var admissionMayBeClosed, committed := false, false;
    var result := Done;
    if steps.native {
      admissionMayBeClosed := true;
      result := steps.drain;
    }
    if result.Done? {
      ok := owner.ActivateCandidate(env, steps.stop);
      result := Failed;
      if ok {
        admissionMayBeClosed := true;
        result := steps.swap;
      }
    }
    if result.Done? {
      committed := true;
      if !steps.native {
        result := steps.bind;
      }
    }
    HeldJournal(b, owner.host.disk, owner.Session());
    CoversCandidate(b, owner.host.disk, owner.Session(), env.listing);
    disposition := Settle(owner, env, result, committed, admissionMayBeClosed, steps.reopens, b, j);
  }

  /** The tail of an upgrade: finalize, preserve, or roll back with admission proved reopened. */
  method Settle(owner: Owner, env: Env, result: StepResult, committed: bool, admissionMayBeClosed: bool, reopens: bool,
                ghost b: Durable, ghost j: Journal) returns (disposition: Disposition)
    requires owner.state.In? && Activating(b, owner.host.disk, owner.host.disk, owner.Session())
    requires SameTransaction(j, owner.host.disk.journal.value) && Covers(env.listing, owner.host.disk)
    requires result.Done? ==> owner.state == In(Activated)
    modifies owner`state, owner.host
    ensures Disposes(b, j, owner.host.disk, disposition)
    ensures disposition.WasFinalized? <==> result.Done?
    ensures disposition.WasPreserved? <==>
      !result.Done? && (result.Unknown? || committed || (admissionMayBeClosed && !reopens))
    ensures disposition.WasRolledBack? || disposition.IsWedged? <==>
            result.Failed? && !committed && (admissionMayBeClosed ==> reopens)
    ensures disposition.IsWedged? <==>
            result.Failed? && !committed && (admissionMayBeClosed ==> reopens)
            && !Detachable(b, old(owner.host.disk), old(owner.host.disk).journal.value)
  {
    hide RollBack, Finalize, Preserve, Inv, EndsAtomically, CandidateControl, Covers, BegunIn, Unreturnable,
         Detachable, SessionOk, BaseOk;
    ghost var d, s := owner.host.disk, owner.Session();
    var ok: bool;
    if result.Done? {
      FinalizeEnds(b, d, s, env);
      ok := owner.FinalizeCandidate(env);
      return WasFinalized;
    }
    if result.Unknown? || committed || (admissionMayBeClosed && !reopens) {
      PreserveEnds(b, d, s);
      ok := owner.PreserveForRecovery();
      return WasPreserved;
    }
    RollBackEnds(b, d, s, env);
    ok := owner.Rollback(env);
    return if ok then WasRolledBack else IsWedged;
  }
}
