/** What later steps of a run can no longer change: a recorded end, a recorded installation, and the
    two states that recovery refuses. */
module PayloadFinality {
  import opened Wrappers
  import opened PayloadState
  import opened PayloadTransaction
  import opened PayloadSafety
  import opened PayloadRecovery
  import opened PayloadRuns
  import opened PayloadProperties

  // ---- a recorded end

  /** The end of `j` stands: still recorded and only disposed of since, or reached. */
  ghost predicate Stands(b: Durable, j: Journal, d: Durable, s: Durable) {
    && OnlyDisposes(d, s)
    && (if s.journal.Some? then s.journal == Some(j) else EndsAtomically(b, s, j))
  }

  lemma CleanupStands(b: Durable, d: Durable, j: Journal, listing: seq<Id>)
    requires BaseOk(b) && JournalOk(b, d, j) && j.Terminal() && d.journal == Some(j) && Covers(listing, d)
    ensures forall s :: s in FinishCleanup(d, j, listing).states ==> Stands(b, j, d, s)
  {
    hide JournalOk, EndsAtomically, FinishCleanup, BaseOk, Covers;
    CleanupSafe(b, d, j, listing);
    CleanupFrame(d, j, listing);
  }

  lemma TerminalOwns(d: Durable, s: Session, env: Env, fault: Fault)
    requires d.journal.Some? && d.journal.value.Terminal()
    ensures Commit(d, s, env, fault).states == [] && Activate(d, s, env).states == []
    ensures Finalize(d, s, env).states == []
    ensures Preserve(d, s).states == []
    ensures RollBack(d, s, env).states == [] || RollBack(d, s, env) == FinishCleanup(d, d.journal.value, env.listing)
  {
    hide FinishCleanup, Materialize, CompleteTransaction, FinalizeInstallation, Project, Select;
  }

  lemma TerminalStates(sys: System, ev: Event)
    requires SysInv(sys) && Enabled(sys, ev) && WithinTransaction(sys) && sys.disk.journal.value.Terminal()
    ensures StatesOf(sys, ev) == []
            || StatesOf(sys, ev) == FinishCleanup(sys.disk, sys.disk.journal.value, ev.env.listing).states
  {
    hide Inv, BaseOk, Commit, Activate, Finalize, RollBack, Preserve, FinishCleanup, Covers, AdmitsInstall,
         AdmitsReverse, SessionOk;
    NotIdleRefuses(sys.disk, if ev.action.BeginInstall? then ev.action.payload else Payload(Version(0, 0, 0), 0));
    InvParts(sys.base, sys.disk);
    if sys.session.Some? {
      TerminalOwns(sys.disk, sys.session.value, ev.env,
                   if ev.action.CommitProjection? then ev.action.fault else NoFault);
    }
  }

  lemma TerminalStep(sys: System, ev: Event, next: System)
    requires SysInv(sys) && Step(sys, ev, next) && WithinTransaction(sys) && sys.disk.journal.value.Terminal()
    ensures Stands(sys.base, sys.disk.journal.value, sys.disk, next.disk)
    ensures !Idle(next.disk) ==> next.base == sys.base
  {
    hide Inv, BaseOk, StatesOf, Enabled, SessionAfter, FinishCleanup, SessionOk, Stands;
    InvParts(sys.base, sys.disk);
    TerminalStates(sys, ev);
    EnabledCovers(sys, ev);
    CleanupStands(sys.base, sys.disk, sys.disk.journal.value, ev.env.listing);
    StandsStill(sys.base, sys.disk, sys.disk.journal.value);
  }

  lemma EnabledCovers(sys: System, ev: Event)
    requires Enabled(sys, ev)
    ensures Covers(ev.env.listing, sys.disk)
  {
    hide Covers;
  }

  lemma StandsStill(b: Durable, d: Durable, j: Journal)
    requires d.journal == Some(j)
    ensures Stands(b, j, d, d)
  {
  }

  lemma StandsOn(b: Durable, j: Journal, d: Durable, s: Durable, t: Durable)
    requires Stands(b, j, d, s) && s.journal == Some(j) && Stands(b, j, s, t)
    ensures Stands(b, j, d, t)
  {
    hide EndsAtomically;
  }

  /** The run has not come to rest between two of its states. */
  ghost predicate Busy(run: seq<System>, i: nat, k: nat)
    requires i <= k < |run|
  {
    forall m :: i <= m < k ==> !Idle(run[m].disk)
  }

  /** In every run a recorded terminal state never changes: until the run is idle again nothing but
      disposal happens, and then the transaction has ended as recorded. */
  lemma {:induction false} TerminalNeverChanges(run: seq<System>, events: seq<Event>, i: nat, k: nat)
    requires IsRun(run, events) && SysInv(run[0]) && i <= k < |run| && Busy(run, i, k)
    requires run[i].disk.journal.Some? && run[i].disk.journal.value.Terminal()
    ensures Stands(run[i].base, run[i].disk.journal.value, run[i].disk, run[k].disk)
    ensures !Idle(run[k].disk) ==> run[k].base == run[i].base
  {
    hide Step, SysInv, Stands;
    var b, d, j := run[i].base, run[i].disk, run[i].disk.journal.value;
    if k == i {
      StandsStill(b, d, j);
    } else {
      TerminalNeverChanges(run, events, i, k - 1);
      RunKeeps(run, events, k - 1);
      StandsBusy(run[k - 1], b, d, j);
      TerminalStep(run[k - 1], events[k - 1], run[k]);
      StandsOn(b, j, d, run[k - 1].disk, run[k].disk);
    }
  }

  lemma StandsBusy(sys: System, b: Durable, d: Durable, j: Journal)
    requires SysInv(sys) && Stands(b, j, d, sys.disk) && !Idle(sys.disk)
    ensures sys.disk.journal == Some(j)
  {
    hide Inv, BaseOk, SessionOk, ClosedStore;
  }

  /** Whenever a run returns to an idle state, the transaction either left everything as it found
      it, or put exactly its candidate in place, as its journal says if an end was recorded; and the
      store is closed over its selector. */
  lemma EndsAllOrNothing(run: seq<System>, events: seq<Event>, i: nat)
    requires IsRun(run, events) && SysInv(run[0]) && i + 1 < |run|
    requires WithinTransaction(run[i]) && Idle(run[i + 1].disk)
    ensures ClosedStore(run[i + 1].disk)
    ensures exists k :: SameTransaction(run[i].disk.journal.value, k) && EndsAtomically(run[i].base, run[i + 1].disk, k)
              && (run[i].disk.journal.value.Terminal() ==> k == run[i].disk.journal.value)
  {
    hide Inv, BaseOk, AllReached, StatesOf, Enabled, SessionAfter, SessionOk, EndsAtomically, ClosedStore;
    RunKeeps(run, events, i);
    assert Step(run[i], events[i], run[i + 1]);
    var j := run[i].disk.journal.value;
    StatesReached(run[i], events[i]);
    AllReachedAt(run[i].base, j, StatesOf(run[i], events[i]), events[i].writes - 1);
    var k :| SameTransaction(j, k) && EndsAtomically(run[i].base, run[i + 1].disk, k);
    EndsClosed(run[i].base, run[i + 1].disk, k);
    if j.Terminal() {
      TerminalStep(run[i], events[i], run[i + 1]);
      assert SameTransaction(j, j) && EndsAtomically(run[i].base, run[i + 1].disk, j);
    }
  }

  lemma EndsClosed(b: Durable, d: Durable, k: Journal)
    requires EndsAtomically(b, d, k)
    ensures ClosedStore(d)
  {
    hide ClosedStore;
  }

  // ---- a recorded installation

  /** The transaction of `j` is bound to be finalized: it is activated and recorded, or finalized, or
      has ended with its candidate in place. */
  ghost predicate Bound(b: Durable, j: Journal, s: Durable) {
    if s.journal.None? then EndsAtomically(b, s, j.(state := Finalized))
    else
      var k := s.journal.value;
      && SameTransaction(j, k)
      && (k.state.Finalized? || (!k.Terminal() && k.Phase() == Activated && Recorded(s, k)))
  }

  /** Recovery of a recorded activation, with or without a supervisor that can be bound. */
  lemma RecordedRecovers(b: Durable, d: Durable, env: Env)
    requires Inv(b, d) && d.journal.Some? && !d.journal.value.Terminal()
    requires d.journal.value.Phase() == Activated && Recorded(d, d.journal.value) && Covers(env.listing, d)
    ensures Recover(d, env).verdict == if env.binds then Ends(Finalized) else Refused
    ensures forall s :: s in Recover(d, env).states ==> Bound(b, d.journal.value, s)
  {
    hide BegunIn, ClosedStore, CandidateControl, Names, CommandMaterialized, SnapshotOk, EndsAtomically, Inv, Covers,
         MaterializedOk,
         CompleteTransaction, SelectRetention, ControlTarget, RestorePrior;
    var j := d.journal.value;
    InvParts(b, d);
    CandidateVerified(b, d, j);
    RetentionIsCandidate(b, d, j);
    var f := d.(selector := Some(j.Candidate()));
    SelectedMaterialized(b, d, j);
    CandidateReadable(b, f, j);
    MaterializedIsFinalized(b, f, j);
    CoversStore(env.listing, d, f);
    FinalizedStates(b, f, j, env.listing);
  }

  lemma FinalizedStates(b: Durable, f: Durable, j: Journal, listing: seq<Id>)
    requires BaseOk(b) && Covers(listing, f) && f.journal == Some(j) && !j.Terminal()
    requires var k := j.(state := Finalized); JournalOk(b, f.(journal := Some(k)), k)
    ensures CompleteTransaction(f, j, Finalized, listing).ok
    ensures forall s :: s in CompleteTransaction(f, j, Finalized, listing).states ==> Bound(b, j, s)
  {
    hide JournalOk, EndsAtomically, FinishCleanup, BaseOk;
    var k := j.(state := Finalized);
    CleanupSafe(b, f.(journal := Some(k)), k, listing);
  }

  lemma BoundStep(sys: System, ev: Event, next: System, b: Durable, j: Journal)
    requires SysInv(sys) && Step(sys, ev, next) && WithinTransaction(sys) && sys.base == b && Bound(b, j, sys.disk)
    ensures Bound(b, j, next.disk) && (!Idle(next.disk) ==> next.base == b)
  {
    hide Inv, BaseOk, SessionAfter, Recover, Covers, AdmitsInstall, AdmitsReverse, EndsAtomically, Commit, Activate,
         Finalize, RollBack, Preserve;
    var k := sys.disk.journal.value;
    if k.Terminal() {
      TerminalStep(sys, ev, next);
    } else {
      NotIdleRefuses(sys.disk, if ev.action.BeginInstall? then ev.action.payload else Payload(Version(0, 0, 0), 0));
      RecordedRecovers(b, sys.disk, ev.env);
      if ev.writes > 0 {
        SameBound(b, j, k, next.disk);
      }
    }
  }

  lemma SameBound(b: Durable, j: Journal, k: Journal, s: Durable)
    requires SameTransaction(j, k) && Bound(b, k, s)
    ensures Bound(b, j, s)
  {
    hide EndsAtomically;
    assert k.(state := Finalized) == j.(state := Finalized);
  }

  /** In every run, once an activated transaction's installed record is durable, no later step rolls
      it back, whatever recoveries find or fail to bind: it stays recorded until it is finalized. */
  lemma {:induction false} RecordedNeverRollsBack(run: seq<System>, events: seq<Event>, i: nat, k: nat)
    requires IsRun(run, events) && SysInv(run[0]) && i <= k < |run| && Busy(run, i, k)
    requires run[i].disk.journal.Some? && !run[i].disk.journal.value.Terminal()
    requires run[i].disk.journal.value.Phase() == Activated && Recorded(run[i].disk, run[i].disk.journal.value)
    ensures Bound(run[i].base, run[i].disk.journal.value, run[k].disk)
    ensures !Idle(run[k].disk) ==> run[k].base == run[i].base
  {
    hide Step, SysInv, EndsAtomically;
    var b, j := run[i].base, run[i].disk.journal.value;
    if k > i {
      RecordedNeverRollsBack(run, events, i, k - 1);
      RunKeeps(run, events, k - 1);
      BoundBusy(run[k - 1], b, j);
      BoundStep(run[k - 1], events[k - 1], run[k], b, j);
    }
  }

  lemma BoundBusy(sys: System, b: Durable, j: Journal)
    requires SysInv(sys) && Bound(b, j, sys.disk) && !Idle(sys.disk)
    ensures WithinTransaction(sys)
  {
    hide Inv, BaseOk, SessionOk, ClosedStore;
  }

  // ---- the states that recovery refuses

  /** A transaction directory without a journal, or a prepared journal whose directory already holds
      the rollback directory. */
  predicate Stuck(d: Durable) {
    && d.root.Root?
    && (d.journal.None?
        || (!d.journal.value.Terminal() && d.journal.value.Phase() == Prepared && d.root != Root(NoRollback)))
  }

  lemma StuckRefuses(d: Durable, env: Env)
    requires Stuck(d)
    ensures Recover(d, env) == Run([], Refused)
  {
  }

  lemma StuckStep(sys: System, ev: Event, next: System)
    requires Stuck(sys.disk) && sys.session.None? && Step(sys, ev, next)
    ensures next.disk == sys.disk && next.session.None?
  {
    hide Covers, AdmitsInstall, AdmitsReverse, Recover, Commit, Activate, Finalize, RollBack, Preserve;
    NotIdleRefuses(sys.disk, if ev.action.BeginInstall? then ev.action.payload else Payload(Version(0, 0, 0), 0));
    StuckRefuses(sys.disk, ev.env);
  }

  /** In every run, once its owner is gone, such a state is for ever: no step changes anything, and
      every recovery refuses. */
  lemma {:induction false} StuckForever(run: seq<System>, events: seq<Event>, i: nat, k: nat, env: Env)
    requires IsRun(run, events) && i <= k < |run| && Stuck(run[i].disk) && run[i].session.None?
    ensures run[k].disk == run[i].disk && run[k].session.None? && Recover(run[k].disk, env) == Run([], Refused)
  {
    hide Step, Stuck, Recover;
    if k > i {
      StuckForever(run, events, i, k - 1, env);
      StuckStep(run[k - 1], events[k - 1], run[k]);
    }
    StuckRefuses(run[k].disk, env);
  }

  /** A directory without a journal never has an owner. */
  lemma UnjournaledHasNoOwner(sys: System)
    requires SysInv(sys) && sys.disk.journal.None?
    ensures sys.session.None?
  {
    hide Inv, BaseOk;
  }

  /** While its owner lives, a prepared transaction can still be rolled back, exactly unless the
      rollback directory was made and its snapshot not yet written; then everything is as it was. */
  lemma OwnerRollsBackIff(b: Durable, d: Durable, s: Session, env: Env)
    requires Holds(b, d, s) && s.phase == Prepared && !d.journal.value.Terminal()
    ensures RollBack(d, s, env).ok <==> d.root != Root(EmptyRollback)
    ensures RollBack(d, s, env).ok ==>
      EndsAtomically(b, Last(d, RollBack(d, s, env)), d.journal.value.(state := RolledBack))
    ensures !RollBack(d, s, env).ok ==> RollBack(d, s, env).states == []
  {
    hide Inv, BaseOk, BegunIn, ClosedStore, CompleteTransaction, RollBack, EndsAtomically, JournalOk;
    var j := d.journal.value;
    HeldFacts(b, d, s);
    PreparedRollBack(b, d, s, env);
    PreparedIsRolledBack(b, d, j);
    RolledBackEnds(b, j, d, env.listing);
  }

  lemma RolledBackEnds(b: Durable, j: Journal, e: Durable, listing: seq<Id>)
    requires BaseOk(b) && (var k := j.(state := RolledBack); JournalOk(b, e.(journal := Some(k)), k))
    ensures CompleteTransaction(e, j, RolledBack, listing).ok
    ensures EndsAtomically(b, Last(e, CompleteTransaction(e, j, RolledBack, listing)), j.(state := RolledBack))
  {
    hide JournalOk, EndsAtomically, FinishCleanup, BaseOk;
    var k := j.(state := RolledBack);
    CleanupSafe(b, e.(journal := Some(k)), k, listing);
  }
}
