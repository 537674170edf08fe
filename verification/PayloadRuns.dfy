/** Whole runs: any number of transactions and recoveries, each stopped after any durable write. */
module PayloadRuns {
  import opened Wrappers
  import opened PayloadState
  import opened PayloadTransaction
  import opened PayloadSafety
  import opened PayloadRecovery

  /** `base` is the idle state in which the current transaction began, or the idle state itself. */
  datatype System = System(base: Durable, disk: Durable, session: Option<Session>)

  datatype Action =
    | BeginInstall(tx: Id, payload: Payload)
    | BeginReverse
    | CommitProjection(fault: Fault)
    | ActivateCandidate
    | FinalizeCandidate
    | RollbackCandidate
    | PreserveCandidate
    | RecoverTransaction

  /** One operation and the number of its durable writes that happen before it is cut short. */
  datatype Event = Event(action: Action, env: Env, writes: nat)

  /** A random identifier is not in use anywhere on disk. */
  ghost predicate Unused(d: Durable, tx: Id, payload: Payload) {
    && tx !in Gens(d)
    && d.installed != Some(Installed(tx, payload))
    && (d.command.Some? ==> d.command.value.target != Exec(tx))
    && tx !in SelectedNames(d.selector)
  }

  ghost predicate Enabled(sys: System, ev: Event) {
    && Covers(ev.env.listing, sys.disk)
    && match ev.action
       case BeginInstall(tx, payload) =>
         sys.session.None? && AdmitsInstall(sys.disk, payload) && Unused(sys.disk, tx, payload)
       case BeginReverse => sys.session.None? && AdmitsReverse(sys.disk)
       case RecoverTransaction => sys.session.None?
       case _ => sys.session.Some?
  }

  ghost function StatesOf(sys: System, ev: Event): seq<Durable>
    requires Enabled(sys, ev)
  {
    match ev.action
    case BeginInstall(tx, payload) => Begin(sys.disk, InstallSession(sys.disk, tx, payload)).states
    case BeginReverse => Begin(sys.disk, ReverseSession(sys.disk)).states
    case CommitProjection(fault) => Commit(sys.disk, sys.session.value, ev.env, fault).states
    case ActivateCandidate => Activate(sys.disk, sys.session.value, ev.env).states
    case FinalizeCandidate => Finalize(sys.disk, sys.session.value, ev.env).states
    case RollbackCandidate => RollBack(sys.disk, sys.session.value, ev.env).states
    case PreserveCandidate => Preserve(sys.disk, sys.session.value).states
    case RecoverTransaction => Recover(sys.disk, ev.env).states
  }

  /** What may be left of the in-process owner: nothing after a crash; after a failure that it
      survives, a phase it had or was about to have. */
  ghost predicate SessionAfter(sys: System, ev: Event, session: Option<Session>)
    requires Enabled(sys, ev)
  {
    var n := |StatesOf(sys, ev)|;
    session.None? ||
    match ev.action
    case BeginInstall(tx, payload) => ev.writes == n && session == Some(InstallSession(sys.disk, tx, payload))
    case BeginReverse => ev.writes == n && session == Some(ReverseSession(sys.disk))
    case CommitProjection(fault) =>
      if ev.writes == n && Commit(sys.disk, sys.session.value, ev.env, fault).ok
      then session == Some(sys.session.value.(phase := Materialized))
      else session == sys.session
    case ActivateCandidate =>
      || session == sys.session
      || (Activate(sys.disk, sys.session.value, ev.env).ok && session == Some(sys.session.value.(phase := Activated)))
    case RollbackCandidate => session == sys.session
    case _ => false
  }

  ghost predicate Step(sys: System, ev: Event, next: System) {
    && Enabled(sys, ev)
    && ev.writes <= |StatesOf(sys, ev)|
    && next.disk == (if ev.writes == 0 then sys.disk else StatesOf(sys, ev)[ev.writes - 1])
    && next.base == (if Idle(next.disk) then next.disk else sys.base)
    && SessionAfter(sys, ev, next.session)
    && (Idle(next.disk) ==> next.session.None?)
  }

  ghost predicate IsRun(run: seq<System>, events: seq<Event>) {
    && |run| == |events| + 1
    && forall i :: 0 <= i < |events| ==> Step(run[i], events[i], run[i + 1])
  }

  // ---- the invariant of a run

  ghost predicate SessionOk(d: Durable, s: Session) {
    d.journal.Some? ==>
      var j := d.journal.value;
      && j == JournalOf(s, j.state) && s.reuses == j.Reuses()
      && (!j.Terminal() ==> !Recorded(d, j))
      && (!j.Terminal() ==> (s.phase == Prepared <==> j.Phase() == Prepared))
  }

  ghost predicate SysInv(sys: System) {
    && (if Idle(sys.disk) then sys.base == sys.disk && BaseOk(sys.disk) else Inv(sys.base, sys.disk))
    && (sys.session.Some? ==> !Idle(sys.disk) && sys.disk.journal.Some? && SessionOk(sys.disk, sys.session.value))
  }

  /** A state reached by an operation of the transaction of `j`: within it, or at its end. */
  ghost predicate Reached(b: Durable, j: Journal, s: Durable) {
    if s.journal.Some? then Inv(b, s) && SameTransaction(j, s.journal.value)
    else exists k :: SameTransaction(j, k) && EndsAtomically(b, s, k)
  }

  ghost predicate AllReached(b: Durable, j: Journal, states: seq<Durable>) {
    forall s :: s in states ==> Reached(b, j, s)
  }

  lemma JoinReached(b: Durable, j: Journal, x: seq<Durable>, y: seq<Durable>)
    requires AllReached(b, j, x) && AllReached(b, j, y)
    ensures AllReached(b, j, x + y)
  {
    hide Reached;
  }

  /** Completing a transaction whose effects are in place reaches only states of it. */
  lemma CompleteReached(b: Durable, j: Journal, e: Durable, outcome: JournalState, listing: seq<Id>)
    requires BaseOk(b) && !outcome.Working? && !outcome.RecoveryRequired?
    requires outcome.Finalized? ==> Covers(listing, e)
    requires var k := j.(state := outcome); JournalOk(b, e.(journal := Some(k)), k)
    ensures CompleteTransaction(e, j, outcome, listing).ok
    ensures AllReached(b, j, CompleteTransaction(e, j, outcome, listing).states)
  {
    hide JournalOk, EndsAtomically, FinishCleanup, BaseOk;
    var k := j.(state := outcome);
    var m := e.(journal := Some(k));
    CleanupSafe(b, m, k, listing);
    var c := FinishCleanup(m, k, listing);
    assert CompleteTransaction(e, j, outcome, listing).states == [m] + c.states;
  }

  lemma BeginReached(b: Durable, s: Session)
    requires BaseOk(b) && BegunIn(b, JournalOf(s, Working(Prepared)))
    ensures AllReached(b, JournalOf(s, Working(Prepared)), Begin(b, s).states[1..])
    ensures forall t :: t in Begin(b, s).states ==> Inv(b, t) && !Idle(t)
  {
    hide BegunIn, ClosedStore;
  }

  // ---- the operations of the in-process owner

  lemma AbandonReached(b: Durable, d: Durable, s: Session, env: Env)
    requires BaseOk(b) && BegunIn(b, JournalOf(s, Working(Prepared))) && Untouched(b, d)
    ensures AllReached(b, JournalOf(s, Working(Prepared)), Abandon(d, s, env).states)
  {
    hide BaseOk, BegunIn, CompleteTransaction, AllReached;
    var j := JournalOf(s, Working(Prepared));
    SameBegun(b, j, j.(state := Closed));
    CompleteReached(b, j, d, Closed, env.listing);
  }

  /** Undoing a candidate that was being written removes it again. */
  lemma UndoReached(b: Durable, d: Durable, s: Session, env: Env)
    requires BaseOk(b) && d.journal == Some(JournalOf(s, Working(Prepared)))
    requires BegunIn(b, d.journal.value) && PreparedOk(b, d, d.journal.value) && d.root.rollback.Saved?
    requires s.prior == b.selector
    ensures AllReached(b, d.journal.value, RollBack(d, s, env).states)
  {
    hide BegunIn, CompleteTransaction, AllReached, ClosedStore, Newer;
    var j := d.journal.value;
    PreparedControl(b, d, j);
    assert RestorePrior(d, j, s.prior, env.inode) == Nothing;
    PreparedIsRolledBack(b, d, j);
    CompleteReached(b, j, d, RolledBack, env.listing);
    var c := CompleteTransaction(d, j, RolledBack, env.listing);
    assert RollBack(d, s, env) == Then(Nothing, c);
    assert RollBack(d, s, env).states == c.states;
  }

  lemma PreparedControl(b: Durable, d: Durable, j: Journal)
    requires BaseOk(b) && BegunIn(b, j) && PreparedOk(b, d, j)
    ensures SelectionReadable(d) && ControlReadable(d) && ControlReadable(b) && Control(d) == Control(b)
  {
    hide Newer;
    if d.store != b.store {
      forall id | id in Gens(b) ensures id in Gens(d) && Gens(d)[id] == Gens(b)[id] {
        assert id in Gens(d) - {j.tx};
      }
    }
  }

  lemma PreparedIsRolledBack(b: Durable, d: Durable, j: Journal)
    requires BegunIn(b, j) && PreparedOk(b, d, j)
    ensures var k := j.(state := RolledBack); JournalOk(b, d.(journal := Some(k)), k)
  {
    hide CandidateControl, CommandMaterialized, Newer;
    if !j.Reuses() && d.store == b.store {
      assert Gens(d) - {j.tx} == Gens(b);
    }
  }

  lemma MaterializeReached(b: Durable, d: Durable, s: Session, env: Env, fault: Fault)
    requires BaseOk(b) && d.journal == Some(JournalOf(s, Working(Prepared))) && s.reuses == d.journal.value.Reuses()
    requires BegunIn(b, d.journal.value) && Untouched(b, d) && SnapshotOk(b) && d.root == Root(Saved(b.command))
    ensures AllReached(b, d.journal.value, Materialize(d, s, env, fault).states)
    ensures Materialize(d, s, env, fault).ok ==>
              var e := Last(d, Materialize(d, s, env, fault));
              e.journal == Some(JournalOf(s, Working(Materialized))) && Inv(b, e) && e.installed == b.installed
  {
    hide BegunIn, ClosedStore, RollBack, AllReached, Newer, SnapshotOk, CandidateControl;
    var j := d.journal.value;
    var k := JournalOf(s, Working(Materialized));
    SameBegun(b, j, k);
    BegunFacts(b, j);
    if s.reuses {
      if fault.NoFault? {
        assert Gens(b)[j.tx := Complete(j.payload)] == Gens(b);
        OneReached(b, j, d.(journal := Some(k)));
      } else {
        AbandonReached(b, d, s, env);
      }
    } else if fault.BeforeWriting? {
      AbandonReached(b, d, s, env);
    } else {
      WritingReached(b, d, s, env, fault);
    }
  }

  lemma BegunFacts(b: Durable, j: Journal)
    requires BaseOk(b) && BegunIn(b, j)
    ensures j.prior == b.selector
    ensures j.Reuses() ==> b.store.Some? && j.tx in Gens(b) && Gens(b)[j.tx] == Complete(j.payload)
    ensures !j.Reuses() ==> j.tx !in Gens(b)
    ensures b.installed != Some(Installed(j.tx, j.payload))
  {
  }

  lemma OneReached(b: Durable, j: Journal, s: Durable)
    requires s.journal.Some? && Inv(b, s) && SameTransaction(j, s.journal.value)
    ensures AllReached(b, j, [s])
  {
    hide Inv;
  }

  lemma WritingReached(b: Durable, d: Durable, s: Session, env: Env, fault: Fault)
    requires BaseOk(b) && d.journal == Some(JournalOf(s, Working(Prepared))) && !s.reuses && !d.journal.value.Reuses()
    requires BegunIn(b, d.journal.value) && Untouched(b, d) && SnapshotOk(b) && d.root == Root(Saved(b.command))
    requires !fault.BeforeWriting?
    ensures AllReached(b, d.journal.value, Materialize(d, s, env, fault).states)
    ensures Materialize(d, s, env, fault).ok ==>
              var e := Last(d, Materialize(d, s, env, fault));
              e.journal == Some(JournalOf(s, Working(Materialized))) && Inv(b, e) && e.installed == b.installed
  {
    hide BegunIn, ClosedStore, RollBack, AllReached, Newer, SnapshotOk, CandidateControl;
    var j := d.journal.value;
    var k := JournalOf(s, Working(Materialized));
    SameBegun(b, j, k);
    BegunFacts(b, j);
    var e := d.(store := Some(Gens(d)[s.tx := Partial]));
    var f := d.(store := Some(Gens(d)[s.tx := Generation.Complete(s.payload)]));
    var g := f.(journal := Some(k));
    WritingPrepared(b, d, Partial, j);
    WritingPrepared(b, d, Generation.Complete(s.payload), j);
    OneReached(b, j, e);
    OneReached(b, j, f);
    JoinReached(b, j, [e], [f]);
    assert [e] + [f] == [e, f];
    match fault
    case WhileWriting =>
      UndoReached(b, e, s, env);
      JoinReached(b, j, [e], RollBack(e, s, env).states);
    case AfterWriting =>
      UndoReached(b, f, s, env);
      JoinReached(b, j, [e, f], RollBack(f, s, env).states);
    case BeforeWriting =>
    case NoFault =>
      assert MaterializedOk(b, g, k);
      OneReached(b, j, g);
      JoinReached(b, j, [e, f], [g]);
  }

  lemma WritingPrepared(b: Durable, d: Durable, g: Generation, j: Journal)
    requires BaseOk(b) && BegunIn(b, j) && j.state == Working(Prepared) && !j.Reuses() && Untouched(b, d)
    requires SnapshotOk(b)
    requires d.root == Root(Saved(b.command)) && d.journal == Some(j)
    ensures var e := d.(store := Some(Gens(d)[j.tx := g])); PreparedOk(b, e, j) && Inv(b, e)
  {
    hide ClosedStore, Newer, SnapshotOk;
    assert Gens(d)[j.tx := g] - {j.tx} == Gens(b);
  }

  /** What a surviving in-process owner knows about the disk it left behind. */
  ghost predicate Holds(b: Durable, d: Durable, s: Session) {
    BaseOk(b) && Inv(b, d) && d.journal.Some? && SessionOk(d, s)
  }

  lemma HeldFacts(b: Durable, d: Durable, s: Session)
    requires Holds(b, d, s)
    ensures BegunIn(b, d.journal.value) && s.prior == b.selector && JournalReadable(d)
    ensures !d.journal.value.Terminal() && s.phase != Prepared ==>
      MaterializedOk(b, d, d.journal.value) && d.installed == b.installed
    ensures !d.journal.value.Terminal() && s.phase == Prepared ==>
              && d.journal.value == JournalOf(s, Working(Prepared)) && PreparedOk(b, d, d.journal.value)
              && (d.root == Root(NoRollback) ==> Untouched(b, d))
    ensures d.journal.value.Terminal() ==> JournalOk(b, d, d.journal.value)
  {
    hide BegunIn, ClosedStore, CommandMaterialized, SnapshotOk, Names;
    InvParts(b, d);
    BegunFacts(b, d.journal.value);
  }

  lemma CommitReached(b: Durable, d: Durable, s: Session, env: Env, fault: Fault)
    requires Holds(b, d, s)
    ensures AllReached(b, d.journal.value, Commit(d, s, env, fault).states)
    ensures Commit(d, s, env, fault).ok ==> Holds(b, Last(d, Commit(d, s, env, fault)), s.(phase := Materialized))
  {
    hide BegunIn, ClosedStore, CompleteTransaction, Materialize, AllReached, Newer, Names;
    HeldFacts(b, d, s);
    EmptyReached(b, d.journal.value);
    if s.phase == Prepared && OwnsJournal(d, s) && d.root == Root(NoRollback) {
      var j := d.journal.value;
      var d0 := d.(root := Root(EmptyRollback));
      OneReached(b, j, d0);
      AbandonReached(b, d0, s, env);
      JoinReached(b, j, [d0], Abandon(d0, s, env).states);
      SnapshotTaken(b, d0, j);
      var d1 := d0.(root := Root(Saved(d0.command)));
      if SnapshotOk(b) {
        OneReached(b, j, d1);
        JoinReached(b, j, [d0], [d1]);
        assert [d0] + [d1] == [d0, d1];
        MaterializeReached(b, d1, s, env, fault);
        JoinReached(b, j, [d0, d1], Materialize(d1, s, env, fault).states);
        if Materialize(d1, s, env, fault).ok {
          MaterializedHeld(b, d, d1, s, env, fault);
        }
      }
    }
  }

  lemma MaterializedHeld(b: Durable, d: Durable, d1: Durable, s: Session, env: Env, fault: Fault)
    requires Holds(b, d, s) && !d.journal.value.Terminal()
    requires Materialize(d1, s, env, fault).ok
    requires var e := Last(d1, Materialize(d1, s, env, fault));
             e.journal == Some(JournalOf(s, Working(Materialized))) && Inv(b, e) && e.installed == b.installed
    ensures Holds(b, Last(d1, Materialize(d1, s, env, fault)), s.(phase := Materialized))
    ensures Materialize(d1, s, env, fault).states != []
  {
    hide ClosedStore, Newer, Names, Inv, CompleteTransaction, RollBack;
    HeldFacts(b, d, s);
    BegunFacts(b, d.journal.value);
  }

  lemma SnapshotTaken(b: Durable, d: Durable, j: Journal)
    requires BaseOk(b) && BegunIn(b, j) && PreparedOk(b, d, j)
    ensures SelectionReadable(d) && ControlReadable(d)
    ensures SnapshotOk(b) <==> Classify(d.command, Control(d)) != Foreign
  {
    hide ClosedStore, BegunIn, Newer, Names;
    PreparedControl(b, d, j);
  }

  lemma ActivatedStates(b: Durable, d: Durable, s: Session, inode: nat)
    requires Holds(b, d, s) && !d.journal.value.Terminal() && s.phase == Materialized
    requires d.selector == Some(d.journal.value.Candidate()) && MaterializedOk(b, d, d.journal.value)
    ensures var j := d.journal.value;
            var p := Project(d, CandidateControl(b, j), b.command, inode);
            var e := Last(d, p);
            var g := e.(journal := Some(JournalOf(s, Working(Activated))));
            && AllReached(b, j, p.states + [g])
            && (forall t :: t in p.states + [g] ==>
                  t.journal.Some? && SessionOk(t, s) && SessionOk(t, s.(phase := Activated)))
  {
    hide ClosedStore, Newer, Names, SnapshotOk, CommandMaterialized, BegunIn, CandidateControl, HoldsCandidate,
         AllReached, BaseOk;
    var j := d.journal.value;
    var k := JournalOf(s, Working(Activated));
    var p := Project(d, CandidateControl(b, j), b.command, inode);
    var e := Last(d, p);
    var g := e.(journal := Some(k));
    HeldFacts(b, d, s);
    LinkedMaterialized(b, d, e, j);
    SameBegun(b, j, k);
    SameMaterialized(b, e, g, j, k);
    if p.states != [] {
      OneReached(b, j, e);
    } else {
      EmptyReached(b, j);
    }
    OneReached(b, j, g);
    JoinReached(b, j, p.states, [g]);
  }

  lemma EmptyReached(b: Durable, j: Journal)
    ensures AllReached(b, j, [])
  {
  }

  lemma SameMaterialized(b: Durable, d: Durable, e: Durable, j: Journal, k: Journal)
    requires BegunIn(b, j) && MaterializedOk(b, d, j) && SameTransaction(j, k) && e == d.(journal := e.journal)
    ensures MaterializedOk(b, e, k)
  {
    hide SnapshotOk, Newer, Names;
    SameBegun(b, j, k);
  }

  lemma ActivateReached(b: Durable, d: Durable, s: Session, env: Env)
    requires Holds(b, d, s)
    ensures AllReached(b, d.journal.value, Activate(d, s, env).states)
    ensures forall t :: t in Activate(d, s, env).states ==> t.journal.Some? && SessionOk(t, s)
    ensures Activate(d, s, env).ok ==> forall t :: t in Activate(d, s, env).states ==>
      SessionOk(t, s.(phase := Activated))
  {
    hide ClosedStore, Newer, Names, SnapshotOk, CommandMaterialized, BegunIn, CandidateControl, ControlTarget, Project,
         MaterializedOk, AllReached, BaseOk;
    HeldFacts(b, d, s);
    EmptyReached(b, d.journal.value);
    if s.phase == Materialized && OwnsJournal(d, s) {
      var j := d.journal.value;
      var f := d.(selector := Some(j.Candidate()));
      SelectedMaterialized(b, d, j);
      CandidateReadable(b, d, j);
      CandidateReadable(b, f, j);
      CandidateVerified(b, d, j);
      SnapshotIs(b, d, j);
      OneReached(b, j, f);
      ActivatedStates(b, f, s, env.inode);
      var p := Project(f, CandidateControl(b, j), b.command, env.inode);
      var g := Last(f, p).(journal := Some(JournalOf(s, Working(Activated))));
      PrefixReached(b, j, p.states, [g]);
      JoinReached(b, j, [f], p.states);
      JoinReached(b, j, [f], p.states + [g]);
      assert ([f] + p.states) + [g] == [f] + (p.states + [g]);
      assert forall t :: t in p.states ==> t in p.states + [g];
      assert forall t :: t in [f] + (p.states + [g]) ==> t == f || t in p.states + [g];
    }
  }

  lemma SnapshotIs(b: Durable, d: Durable, j: Journal)
    requires MaterializedOk(b, d, j)
    ensures d.root == Root(Saved(b.command))
  {
  }

  lemma PrefixReached(b: Durable, j: Journal, x: seq<Durable>, y: seq<Durable>)
    requires AllReached(b, j, x + y)
    ensures AllReached(b, j, x)
  {
    hide Reached;
    assert forall s :: s in x ==> s in x + y;
  }

  lemma FinalizeReached(b: Durable, d: Durable, s: Session, env: Env)
    requires Holds(b, d, s) && Covers(env.listing, d)
    ensures AllReached(b, d.journal.value, Finalize(d, s, env).states)
  {
    hide ClosedStore, Newer, Names, SnapshotOk, CommandMaterialized, BegunIn, CandidateControl, ControlTarget,
         HoldsCandidate, AllReached, BaseOk, CompleteTransaction, SelectRetention, Covers;
    HeldFacts(b, d, s);
    EmptyReached(b, d.journal.value);
    if s.phase == Activated && OwnsJournal(d, s) {
      var j := d.journal.value;
      var e := d.(installed := Some(Installed(j.tx, j.payload)));
      var f := e.(selector := Some(j.Candidate()));
      SameButInstalled(b, d, e, j);
      SelectedMaterialized(b, e, j);
      RetentionIsCandidate(b, e, j);
      CandidateReadable(b, f, j);
      MaterializedIsFinalized(b, f, j);
      CoversStore(env.listing, d, f);
      CompleteReached(b, j, f, Finalized, env.listing);
      OneReached(b, j, e);
      OneReached(b, j, f);
      var c := CompleteTransaction(f, j, Finalized, env.listing);
      JoinReached(b, j, [f], c.states);
      JoinReached(b, j, [e], [f] + c.states);
      assert CloseFinalized(e, j, true, env.listing) == Then(One(f), c);
    }
  }

  lemma SameButInstalled(b: Durable, d: Durable, e: Durable, j: Journal)
    requires MaterializedOk(b, d, j) && e == d.(installed := Some(Installed(j.tx, j.payload)))
    ensures MaterializedOk(b, e, j)
  {
    hide SnapshotOk, CandidateControl, Newer, Names;
  }

  /** The rollback of an owner that is still prepared: it has nothing to restore, and is refused only
      where the rollback directory was made and its snapshot not yet written. */
  lemma PreparedRollBack(b: Durable, d: Durable, s: Session, env: Env)
    requires Holds(b, d, s) && s.phase == Prepared && !d.journal.value.Terminal()
    ensures var w := RollBack(d, s, env); var c := CompleteTransaction(d, d.journal.value, RolledBack, env.listing);
            if d.root == Root(EmptyRollback) then !w.ok && w.states == [] else w.ok == c.ok && w.states == c.states
  {
    hide BegunIn, CompleteTransaction, ClosedStore, Newer, Inv, ControlTarget;
    HeldFacts(b, d, s);
    PreparedControl(b, d, d.journal.value);
    SnapshotTaken(b, d, d.journal.value);
    if d.root != Root(EmptyRollback) {
      var a := if d.root.rollback.NoRollback? then Nothing else RestorePrior(d, d.journal.value, s.prior, env.inode);
      assert a == Nothing;
      assert [] + CompleteTransaction(d, d.journal.value, RolledBack, env.listing).states
             == CompleteTransaction(d, d.journal.value, RolledBack, env.listing).states;
    }
  }

  lemma RollBackReached(b: Durable, d: Durable, s: Session, env: Env)
    requires Holds(b, d, s) && Covers(env.listing, d)
    ensures AllReached(b, d.journal.value, RollBack(d, s, env).states)
  {
    hide ClosedStore, Newer, Names, SnapshotOk, CommandMaterialized, BegunIn, CandidateControl, Detachable,
         HoldsCandidate, AllReached, BaseOk, CompleteTransaction, FinishCleanup, RestorePrior, Covers, MaterializedOk,
         Untouched;
    var j := d.journal.value;
    HeldFacts(b, d, s);
    EmptyReached(b, j);
    if j.Terminal() {
      CleanupAllReached(b, d, j, env.listing);
    } else if s.phase == Prepared {
      PreparedRollBack(b, d, s, env);
      PreparedIsRolledBack(b, d, j);
      CompleteReached(b, j, d, RolledBack, env.listing);
    } else {
      RestoreSafe(b, d, j, env.inode);
      CandidateVerified(b, d, j);
      var a := RestorePrior(d, j, s.prior, env.inode);
      if a.ok {
        var e := Last(d, a);
        RestoringReached(b, d, j, a.states);
        RestoredIsRolledBack(b, d, e, j);
        CompleteReached(b, j, e, RolledBack, env.listing);
        JoinReached(b, j, a.states, CompleteTransaction(e, j, RolledBack, env.listing).states);
      }
    }
  }

  lemma CleanupAllReached(b: Durable, d: Durable, j: Journal, listing: seq<Id>)
    requires BaseOk(b) && JournalOk(b, d, j) && j.Terminal() && d.journal == Some(j) && Covers(listing, d)
    ensures AllReached(b, j, FinishCleanup(d, j, listing).states)
  {
    hide JournalOk, EndsAtomically, FinishCleanup, BaseOk;
    CleanupSafe(b, d, j, listing);
  }

  lemma RestoringReached(b: Durable, d: Durable, j: Journal, states: seq<Durable>)
    requires BaseOk(b) && Inv(b, d) && d.journal == Some(j) && !j.Terminal() && j.Phase() != Prepared
    requires forall s :: s in states ==> Restoring(b, d, s, j)
    ensures AllReached(b, j, states)
  {
    hide MaterializedOk, BegunIn, Detachable, EndsAtomically, BaseOk;
  }

  lemma PreserveReached(b: Durable, d: Durable, s: Session)
    requires Holds(b, d, s)
    ensures AllReached(b, d.journal.value, Preserve(d, s).states)
  {
    hide MaterializedOk, BegunIn, EndsAtomically, BaseOk, AllReached;
    HeldFacts(b, d, s);
    EmptyReached(b, d.journal.value);
    if s.phase != Prepared && OwnsJournal(d, s) {
      var j := d.journal.value;
      var k := JournalOf(s, RecoveryRequired(s.phase));
      SameBegun(b, j, k);
      SameMaterialized(b, d, d.(journal := Some(k)), j, k);
      OneReached(b, j, d.(journal := Some(k)));
    }
  }

  lemma RecoverAllReached(b: Durable, d: Durable, env: Env)
    requires Inv(b, d) && d.journal.Some? && Covers(env.listing, d)
    ensures AllReached(b, d.journal.value, Recover(d, env).states)
  {
    hide Recover, JournalOk, EndsAtomically, BaseOk, Judge, FinalTarget, FinalInstalled, Covers;
    RecoverReaches(b, d, env.(binds := true));
    forall s | s in Recover(d, env).states
      ensures Reached(b, d.journal.value, s)
    {
      BindingOnlyInterrupts(d, env, s);
    }
  }

  /** A recovery that is not needed, or that finds no journal, writes nothing. */
  lemma RecoverWithoutJournal(d: Durable, env: Env)
    requires d.journal.None?
    ensures Recover(d, env).states == []
  {
  }

  // ---- one step of a run

  lemma ReachedEnds(b: Durable, j: Journal, s: Durable)
    requires Reached(b, j, s)
    ensures s.journal.Some? ==> Inv(b, s) && SameTransaction(j, s.journal.value) && !Idle(s)
    ensures s.journal.None? ==> Idle(s) && BaseOk(s)
  {
    hide JournalOk, ClosedStore, RolledBackOk, FinalizedOk, Untouched;
  }

  lemma InstallBegins(d: Durable, tx: Id, payload: Payload)
    requires BaseOk(d) && AdmitsInstall(d, payload) && Unused(d, tx, payload)
    ensures var s := InstallSession(d, tx, payload);
            BegunIn(d, JournalOf(s, Working(Prepared))) && !JournalOf(s, Working(Prepared)).Reuses()
  {
    hide Newer, ControlTarget;
  }

  lemma ReverseBegins(d: Durable)
    requires BaseOk(d) && AdmitsReverse(d)
    ensures var s := ReverseSession(d);
            BegunIn(d, JournalOf(s, Working(Prepared))) && JournalOf(s, Working(Prepared)).Reuses()
  {
    hide Newer, ControlTarget;
  }

  lemma BeginStep(sys: System, ev: Event, next: System, s: Session)
    requires SysInv(sys) && Step(sys, ev, next) && Idle(sys.disk)
    requires StatesOf(sys, ev) == Begin(sys.disk, s).states && s.phase == Prepared
    requires next.session.None? || (next.session == Some(s) && ev.writes == |StatesOf(sys, ev)|)
    requires BegunIn(sys.disk, JournalOf(s, Working(Prepared))) && s.reuses == JournalOf(s, Working(Prepared)).Reuses()
    ensures SysInv(next)
  {
    hide Inv, BegunIn, BaseOk, StatesOf, Enabled, SessionAfter, Covers, ClosedStore;
    BeginReached(sys.disk, s);
    if next.session.Some? {
      BegunUnrecorded(sys.disk, JournalOf(s, Working(Prepared)));
    }
  }

  lemma BegunUnrecorded(b: Durable, j: Journal)
    requires BegunIn(b, j)
    ensures !Recorded(b, j)
  {
  }

  ghost predicate WithinTransaction(sys: System) {
    !Idle(sys.disk) && sys.disk.journal.Some?
  }

  /** Every state that an operation of the current transaction passes through belongs to it. */
  lemma StatesReached(sys: System, ev: Event)
    requires SysInv(sys) && Enabled(sys, ev) && WithinTransaction(sys)
    ensures AllReached(sys.base, sys.disk.journal.value, StatesOf(sys, ev))
  {
    hide Inv, BaseOk, AllReached, Commit, Activate, Finalize, RollBack, Preserve, Recover, Covers, AdmitsInstall,
         AdmitsReverse, SessionOk;
    InvParts(sys.base, sys.disk);
    match ev.action
    case CommitProjection(fault) => CommitReached(sys.base, sys.disk, sys.session.value, ev.env, fault);
    case ActivateCandidate => ActivateReached(sys.base, sys.disk, sys.session.value, ev.env);
    case FinalizeCandidate => FinalizeReached(sys.base, sys.disk, sys.session.value, ev.env);
    case RollbackCandidate => RollBackReached(sys.base, sys.disk, sys.session.value, ev.env);
    case PreserveCandidate => PreserveReached(sys.base, sys.disk, sys.session.value);
    case RecoverTransaction => RecoverAllReached(sys.base, sys.disk, ev.env);
    case BeginInstall(_, payload) => NotIdleRefuses(sys.disk, payload);
    case BeginReverse => NotIdleRefuses(sys.disk, Payload(Version(0, 0, 0), 0));
  }

  lemma NotIdleRefuses(d: Durable, payload: Payload)
    requires !Idle(d)
    ensures !AdmitsInstall(d, payload) && !AdmitsReverse(d)
  {
  }

  /** Rolling back leaves the journal as it is until it is terminal. */
  lemma RollBackSession(b: Durable, d: Durable, s: Session, env: Env, t: Durable)
    requires Holds(b, d, s) && Covers(env.listing, d)
    requires t in RollBack(d, s, env).states && t.journal.Some?
    ensures SessionOk(t, s)
  {
    hide ClosedStore, Newer, Names, SnapshotOk, CommandMaterialized, BegunIn, CandidateControl, Detachable,
         HoldsCandidate,
         BaseOk, FinishCleanup, RestorePrior, Covers, Untouched, EndsAtomically, JournalOk;
    var j := d.journal.value;
    HeldFacts(b, d, s);
    if j.Terminal() {
      CleanupSafe(b, d, j, env.listing);
    } else if s.phase == Prepared {
      PreparedRollBack(b, d, s, env);
      PreparedIsRolledBack(b, d, j);
      CompletedJournal(b, d, j, env.listing, t);
    } else {
      RestoreSafe(b, d, j, env.inode);
      CandidateVerified(b, d, j);
      var a := RestorePrior(d, j, s.prior, env.inode);
      if a.ok && t !in a.states {
        RestoredIsRolledBack(b, d, Last(d, a), j);
        CompletedJournal(b, Last(d, a), j, env.listing, t);
      }
    }
  }

  lemma CompletedJournal(b: Durable, e: Durable, j: Journal, listing: seq<Id>, t: Durable)
    requires BaseOk(b)
    requires var k := j.(state := RolledBack); JournalOk(b, e.(journal := Some(k)), k)
    requires t in CompleteTransaction(e, j, RolledBack, listing).states && t.journal.Some?
    ensures t.journal == Some(j.(state := RolledBack))
  {
    hide JournalOk, EndsAtomically, FinishCleanup, BaseOk;
    var k := j.(state := RolledBack);
    CleanupSafe(b, e.(journal := Some(k)), k, listing);
  }

  /** While a commit has not gone through, its owner is still a prepared one: the journal is the
      prepared one, or says that the transaction is closed or rolled back. */
  ghost predicate StillPrepared(d: Durable, t: Durable)
    requires d.journal.Some?
  {
    && t.installed == d.installed
    && (t.journal == d.journal || t.journal.None? ||
        t.journal == Some(d.journal.value.(state := Closed))
        || t.journal == Some(d.journal.value.(state := RolledBack)))
  }

  lemma CompletePrepared(d: Durable, e: Durable, outcome: JournalState, listing: seq<Id>)
    requires d.journal.Some? && (outcome == Closed || outcome == RolledBack) && e.installed == d.installed
    ensures forall t :: t in CompleteTransaction(e, d.journal.value, outcome, listing).states ==> StillPrepared(d, t)
  {
    hide CompleteTransaction;
    CompleteFrame(e, d.journal.value, outcome, listing);
  }

  lemma UndoPrepared(b: Durable, d: Durable, e: Durable, s: Session, env: Env)
    requires Holds(b, d, s) && d.journal == Some(JournalOf(s, Working(Prepared))) && e.journal == d.journal
    requires e.installed == d.installed
    requires Inv(b, e) && s.phase == Prepared
    ensures forall t :: t in RollBack(e, s, env).states ==> StillPrepared(d, t)
  {
    hide Inv, BaseOk, CompleteTransaction, RollBack;
    PreparedRollBack(b, e, s, env);
    CompletePrepared(d, e, RolledBack, env.listing);
  }

  lemma CommitSession(b: Durable, d: Durable, s: Session, env: Env, fault: Fault, i: nat)
    requires Holds(b, d, s) && i < |Commit(d, s, env, fault).states|
    requires !(Commit(d, s, env, fault).ok && i == |Commit(d, s, env, fault).states| - 1)
    ensures SessionOk(Commit(d, s, env, fault).states[i], s)
  {
    hide BegunIn, ClosedStore, CompleteTransaction, RollBack, Newer, Names, ControlTarget, BaseOk;
    HeldFacts(b, d, s);
    BegunFacts(b, d.journal.value);
    var j := d.journal.value;
    var d0 := d.(root := Root(EmptyRollback));
    var d1 := d0.(root := Root(Saved(d0.command)));
    SnapshotTaken(b, d0, j);
    CompletePrepared(d, d0, Closed, env.listing);
    CompletePrepared(d, d1, Closed, env.listing);
    if SnapshotOk(b) && !s.reuses {
      var e := d1.(store := Some(Gens(d1)[s.tx := Partial]));
      var f := d1.(store := Some(Gens(d1)[s.tx := Generation.Complete(s.payload)]));
      WritingPrepared(b, d1, Partial, j);
      WritingPrepared(b, d1, Generation.Complete(s.payload), j);
      UndoPrepared(b, d, e, s, env);
      UndoPrepared(b, d, f, s, env);
    }
    assert StillPrepared(d, Commit(d, s, env, fault).states[i]);
  }

  lemma SessionKept(sys: System, ev: Event, next: System)
    requires SysInv(sys) && Step(sys, ev, next) && WithinTransaction(sys)
    requires next.session.Some? && next.disk.journal.Some?
    ensures SessionOk(next.disk, next.session.value)
  {
    hide Inv, BaseOk, Commit, Activate, Finalize, RollBack, Preserve, Recover, Covers, AdmitsInstall, AdmitsReverse;
    InvParts(sys.base, sys.disk);
    NotIdleRefuses(sys.disk, if ev.action.BeginInstall? then ev.action.payload else Payload(Version(0, 0, 0), 0));
    var s := sys.session.value;
    match ev.action
    case CommitProjection(fault) =>
      CommitReached(sys.base, sys.disk, s, ev.env, fault);
      var w := Commit(sys.disk, s, ev.env, fault);
      if ev.writes > 0 && !(w.ok && ev.writes == |w.states|) {
        CommitSession(sys.base, sys.disk, s, ev.env, fault, ev.writes - 1);
      }
    case ActivateCandidate =>
      ActivateReached(sys.base, sys.disk, s, ev.env);
      ActivateNeedsMaterialized(sys.disk, s, ev.env);
    case RollbackCandidate =>
      if ev.writes > 0 {
        RollBackSession(sys.base, sys.disk, s, ev.env, next.disk);
      }
    case _ =>
  }

  lemma ActivateNeedsMaterialized(d: Durable, s: Session, env: Env)
    ensures Activate(d, s, env).ok ==> s.phase == Materialized
  {
    hide ControlTarget, Newer, Project, ControlReadable;
  }

  /** The invariant survives every operation, cut short after any of its durable writes. */
  lemma StepKeeps(sys: System, ev: Event, next: System)
    requires SysInv(sys) && Step(sys, ev, next)
    ensures SysInv(next)
  {
    hide Inv, BaseOk, AllReached, Reached, StatesOf, Enabled, SessionAfter, SessionOk;
    if WithinTransaction(sys) {
      StatesReached(sys, ev);
      if ev.writes > 0 {
        AllReachedAt(sys.base, sys.disk.journal.value, StatesOf(sys, ev), ev.writes - 1);
        ReachedEnds(sys.base, sys.disk.journal.value, next.disk);
      }
      if next.session.Some? {
        SessionKept(sys, ev, next);
      }
    } else {
      IdleStep(sys, ev, next);
    }
  }

  lemma AllReachedAt(b: Durable, j: Journal, states: seq<Durable>, i: nat)
    requires AllReached(b, j, states) && i < |states|
    ensures Reached(b, j, states[i])
  {
    hide Reached;
  }

  lemma IdleStep(sys: System, ev: Event, next: System)
    requires SysInv(sys) && Step(sys, ev, next) && !WithinTransaction(sys)
    ensures SysInv(next)
  {
    hide Inv, BaseOk, Recover, AdmitsInstall, AdmitsReverse, Begin, Covers, BegunIn, Unused;
    match ev.action
    case BeginInstall(tx, payload) =>
      AdmitsIdle(sys.disk, payload);
      InstallBegins(sys.disk, tx, payload);
      BeginStep(sys, ev, next, InstallSession(sys.disk, tx, payload));
    case BeginReverse =>
      AdmitsIdle(sys.disk, Payload(Version(0, 0, 0), 0));
      ReverseBegins(sys.disk);
      BeginStep(sys, ev, next, ReverseSession(sys.disk));
    case RecoverTransaction =>
      RecoverWithoutJournal(sys.disk, ev.env);
    case _ =>
  }

  lemma AdmitsIdle(d: Durable, payload: Payload)
    ensures AdmitsInstall(d, payload) || AdmitsReverse(d) ==> Idle(d)
  {
  }

  /** Every state of every run satisfies the invariant. */
  lemma {:induction false} RunKeeps(run: seq<System>, events: seq<Event>, i: nat)
    requires IsRun(run, events) && SysInv(run[0]) && i < |run|
    ensures SysInv(run[i])
  {
    hide SysInv, Step;
    if i > 0 {
      RunKeeps(run, events, i - 1);
      StepKeeps(run[i - 1], events[i - 1], run[i]);
    }
  }
}
