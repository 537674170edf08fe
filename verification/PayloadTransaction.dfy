/** The operations of one payload transaction and of its recovery, each given by the durable
    writes it makes and by how it ends. */
module PayloadTransaction {
  import opened Wrappers
  import opened PayloadState

  datatype Runtime = NoRuntime | Runtime(payload: Payload, accepting: bool)

  /** What an operation learns from outside: the live runtime, whether binding the supervisor
      succeeds, the inode of the next link it creates, and the listing of the store. */
  datatype Env = Env(runtime: Runtime, binds: bool, inode: nat, listing: seq<Id>)

  datatype Verdict = NotRequired | Ends(state: JournalState) | Refused

  datatype Run = Run(states: seq<Durable>, verdict: Verdict)

  predicate RuntimeMatches(r: Runtime, p: Payload) {
    r.Runtime? && r.accepting && r.payload == p
  }

  /** Write the terminal state before deleting any recovery input. */
  function CompleteTransaction(d: Durable, j: Journal, outcome: JournalState, listing: seq<Id>): Writes {
    var k := j.(state := outcome);
    var a := WriteJournal(d, k);
    Then(a, FinishCleanup(Last(d, a), k, listing))
  }

  /** Resume only disposal: the terminal projection is not touched. */
  function FinishCleanup(d: Durable, j: Journal, listing: seq<Id>): Writes {
    var a := DisposeGenerations(d, j, listing);
    if !a.ok then a
    else
      var b := RemoveRoot(Last(d, a));
      var e := Last(Last(d, a), b);
      Then(a, Then(b, One(e.(journal := None))))
  }

  function DisposeGenerations(d: Durable, j: Journal, listing: seq<Id>): Writes {
    match j.state
    case Finalized =>
      if !SelectionReadable(d) || d.selector.None? || d.selector.value.active != j.tx || d.store.None? then Fails
      else Prune(d, Names(d.selector.value), listing)
    case RolledBack => if j.Reuses() then Nothing else RemoveGeneration(d, j.tx)
    case Closed => Nothing
    case _ => Fails
  }

  /** Restore selector and command as independent durable effects. */
  function RestorePrior(d: Durable, j: Journal, prior: Option<Selection>, inode: nat): Writes {
    var candidate := Selection(j.tx, if prior.Some? then Some(prior.value.active) else None);
    if !SelectionReadable(d) || (d.selector != prior && d.selector != Some(candidate)) then Fails
    else if !(d.root.Root? && d.root.rollback.Saved?) then Fails
    else
      var snapshot := d.root.rollback.link;
      var a := if d.selector == prior then Nothing else Unselect(d, j.tx, prior, snapshot);
      if !a.ok then a
      else
        var e := Last(d, a);
        if !ControlReadable(e) then Writes(a.states, false)
        else Then(a, Restore(e, Control(e), snapshot, inode))
  }

  function Unselect(d: Durable, tx: Id, prior: Option<Selection>, snapshot: Option<Link>): Writes {
    var a := Detach(d, Exec(tx), snapshot);
    if !a.ok then a
    else
      var e := Last(d, a);
      Then(a, if prior.None? then ClearSelector(e) else Select(e, prior.value))
  }

  /** Select the final retained generations; a failure is journaled before it is raised. */
  function SelectRetention(d: Durable, j: Journal): Writes {
    var sel := if j.isFresh || j.prior.None? then Selection(j.tx, None) else j.Candidate();
    if (sel.predecessor.Some? ==> sel.predecessor.value in Gens(d)) && CanSelect(d, sel)
    then Select(d, sel)
    else Writes(WriteJournal(d, j.(state := RecoveryRequired(Activated))).states, false)
  }

  function CloseFinalized(d: Durable, j: Journal, binds: bool, listing: seq<Id>): Writes {
    var a := SelectRetention(d, j);
    if !a.ok || !ControlReadable(Last(d, a)) || !binds then Writes(a.states, false)
    else Then(a, CompleteTransaction(Last(d, a), j, Finalized, listing))
  }

  function FinalizeInstallation(d: Durable, j: Journal, binds: bool, listing: seq<Id>): Writes {
    var a := One(d.(installed := Some(Installed(j.tx, j.payload))));
    Then(a, CloseFinalized(Last(d, a), j, binds, listing))
  }

  // ---- recovery

  function Ended(w: Writes, state: JournalState): Run {
    Run(w.states, if w.ok then Ends(state) else Refused)
  }

  function Refuse(): Run {
    Run([], Refused)
  }

  function Recover(d: Durable, env: Env): Run {
    if d.root.NoRoot? && d.journal.None? then Run([], NotRequired)
    else if !JournalReadable(d) then Refuse()
    else
      var j := d.journal.value;
      if j.Terminal() then Ended(FinishCleanup(d, j, env.listing), j.state)
      else if j.Phase() == Prepared then ClosePrepared(d, j, env)
      else if !(IsComplete(d, j.tx) && Gens(d)[j.tx].payload == j.payload) then Refuse()
      else if j.Phase() == Materialized && !RuntimeMatches(env.runtime, j.payload) then RollbackMaterialized(d, j, env)
      else if d.installed == Some(Installed(j.tx, j.payload)) then
        Ended(CloseFinalized(d, j, env.binds, env.listing), Finalized)
      else if RuntimeMatches(env.runtime, j.payload) then RecoverServing(d, j, env)
      else if j.isFresh then
        if env.runtime != NoRuntime then Refuse() else RollbackMaterialized(d, j, env)
      else RestorePriorGeneration(d, j, env)
  }

  function ClosePrepared(d: Durable, j: Journal, env: Env): Run {
    if d.root != Root(NoRollback) then Refuse()
    else Ended(CompleteTransaction(d, j, Closed, env.listing), Closed)
  }

  function RecoverServing(d: Durable, j: Journal, env: Env): Run
    requires !j.Terminal()
  {
    var a := if j.Phase() == Materialized then SelectAndProject(d, j, env.inode) else Nothing;
    if !a.ok then Ended(a, Finalized)
    else Ended(Then(a, FinalizeInstallation(Last(d, a), j, env.binds, env.listing)), Finalized)
  }

  function SelectAndProject(d: Durable, j: Journal, inode: nat): Writes
    requires !j.Terminal()
  {
    var predecessor := if j.prior.Some? && j.prior.value.active in Gens(d) then Some(j.prior.value.active) else None;
    var a := Select(d, Selection(j.tx, predecessor));
    if !a.ok || !ControlReadable(Last(d, a)) then Writes(a.states, false)
    else if !(d.root.Root? && d.root.rollback.Saved?) then Writes(a.states, false)
    else Then(a, Project(Last(d, a), Control(Last(d, a)), d.root.rollback.link, inode))
  }

  function RollbackMaterialized(d: Durable, j: Journal, env: Env): Run {
    if !SelectionReadable(d) then Refuse()
    else if j.Reuses() then
      if d.selector == j.prior && d.root == Root(NoRollback) then
        if UnchangedPriorTerminal(d, j.prior.value.active, env.runtime)
        then Ended(CompleteTransaction(d, j, RolledBack, env.listing), RolledBack)
        else Refuse()
      else RestorePriorGeneration(d, j, env)
    else
      var a := RestorePrior(d, j, j.prior, env.inode);
      if !a.ok || (j.prior.Some? && !(ControlReadable(Last(d, a)) && env.binds)) then Run(a.states, Refused)
      else Ended(Then(a, CompleteTransaction(Last(d, a), j, RolledBack, env.listing)), RolledBack)
  }

  predicate UnchangedPriorTerminal(d: Durable, id: Id, runtime: Runtime) {
    && IsComplete(d, id)
    && d.installed == Some(Installed(id, Gens(d)[id].payload))
    && Classify(d.command, Exec(id)) == Owned
    && RuntimeMatches(runtime, Gens(d)[id].payload)
  }

  function RestorePriorGeneration(d: Durable, j: Journal, env: Env): Run {
    if j.prior.None? || !IsComplete(d, j.prior.value.active) then Refuse()
    else if !RuntimeMatches(env.runtime, Gens(d)[j.prior.value.active].payload) then Refuse()
    else
      var a := RestorePrior(d, j, j.prior, env.inode);
      if !a.ok || !ControlReadable(Last(d, a)) || !env.binds then Run(a.states, Refused)
      else Ended(Then(a, CompleteTransaction(Last(d, a), j, RolledBack, env.listing)), RolledBack)
  }

  // ---- one in-process transaction

  /** The volatile owner of a transaction. */
  datatype Session = Session(tx: Id, payload: Payload, isFresh: bool, prior: Option<Selection>, reuses: bool,
                             phase: Phase)

  function JournalOf(s: Session, state: JournalState): Journal {
    Journal(s.tx, s.payload, s.isFresh, s.prior, state)
  }

  predicate Idle(d: Durable) {
    d.root.NoRoot? && d.journal.None?
  }

  predicate OwnsJournal(d: Durable, s: Session) {
    JournalReadable(d) && d.journal.value.tx == s.tx && !d.journal.value.Terminal()
  }

  /** A forward transition is admitted on an idle installation, for a strictly newer release. */
  predicate AdmitsInstall(d: Durable, payload: Payload) {
    && Idle(d)
    && SelectionReadable(d)
    && (d.installed.Some? ==>
          && d.selector.Some? && ControlReadable(d)
          && Control(d).Exec?
          && Newer(payload.version, Gens(d)[Control(d).id].payload.version))
    && (d.installed.None? && d.selector.None? ==> d.store.None?)
  }

  /** A reverse transition is admitted when the store is closed over a complete predecessor and
      the installed record names the active generation. */
  predicate AdmitsReverse(d: Durable) {
    && Idle(d)
    && d.selector.Some? && d.selector.value.predecessor.Some?
    && d.store.Some? && d.store.value.Keys == Names(d.selector.value)
    && ControlReadable(d)
    && IsComplete(d, d.selector.value.active) && IsComplete(d, d.selector.value.predecessor.value)
    && d.installed == Some(Installed(d.selector.value.active, Gens(d)[d.selector.value.active].payload))
  }

  function InstallSession(d: Durable, tx: Id, payload: Payload): Session {
    Session(tx, payload, d.selector.None?, d.selector, false, Prepared)
  }

  function ReverseSession(d: Durable): Session
    requires AdmitsReverse(d)
  {
    var p := d.selector.value.predecessor.value;
    Session(p, Gens(d)[p].payload, false, d.selector, true, Prepared)
  }

  /** Claim the transaction root, then write the prepared journal. */
  function Begin(d: Durable, s: Session): Writes {
    var e := d.(root := Root(NoRollback));
    Writes([e, e.(journal := Some(JournalOf(s, Working(Prepared))))], true)
  }

  /** Where the materialization of a candidate may fail. */
  datatype Fault = NoFault | BeforeWriting | WhileWriting | AfterWriting

  function Abandon(d: Durable, s: Session, env: Env): Writes {
    Writes(CompleteTransaction(d, JournalOf(s, Working(Prepared)), Closed, env.listing).states, false)
  }

  function Commit(d: Durable, s: Session, env: Env, fault: Fault): Writes {
    if s.phase != Prepared || !OwnsJournal(d, s) || d.root != Root(NoRollback) then Fails
    else
      var d0 := d.(root := Root(EmptyRollback));
      if s.reuses && !(IsComplete(d0, s.tx) && Gens(d0)[s.tx].payload == s.payload) then
        Then(One(d0), Abandon(d0, s, env))
      else if !SelectionReadable(d0) || !ControlReadable(d0) || Classify(d0.command, Control(d0)) == Foreign then
        Then(One(d0), Abandon(d0, s, env))
      else
        var d1 := d0.(root := Root(Saved(d0.command)));
        Then(Writes([d0, d1], true), Materialize(d1, s, env, fault))
  }

  function Materialize(d: Durable, s: Session, env: Env, fault: Fault): Writes {
    var j := JournalOf(s, Working(Materialized));
    if s.reuses then
      if fault.NoFault? then WriteJournal(d, j) else Abandon(d, s, env)
    else if fault.BeforeWriting? || s.tx in Gens(d) then Abandon(d, s, env)
    else
      var e := d.(store := Some(Gens(d)[s.tx := Partial]));
      var f := d.(store := Some(Gens(d)[s.tx := Generation.Complete(s.payload)]));
      match fault
      case WhileWriting => Then(One(e), Undo(e, s, env))
      case AfterWriting => Then(Writes([e, f], true), Undo(f, s, env))
      case _ => Then(Writes([e, f], true), WriteJournal(f, j))
  }

  function Undo(d: Durable, s: Session, env: Env): Writes {
    Writes(RollBack(d, s, env).states, false)
  }

  function Activate(d: Durable, s: Session, env: Env): Writes {
    if s.phase != Materialized || !OwnsJournal(d, s) || !(d.root.Root? && d.root.rollback.Saved?) then Fails
    else
      var a := Select(d, Selection(s.tx, if s.prior.Some? then Some(s.prior.value.active) else None));
      if !a.ok || !ControlReadable(Last(d, a)) then Writes(a.states, false)
      else
        var b := Then(a, Project(Last(d, a), Control(Last(d, a)), d.root.rollback.link, env.inode));
        if !b.ok then b else Then(b, WriteJournal(Last(d, b), JournalOf(s, Working(Activated))))
  }

  /** Activation in which the write numbered `stop` (from 0) fails. */
  function ActivateUpTo(d: Durable, s: Session, env: Env, stop: nat): Writes {
    var w := Activate(d, s, env);
    if stop < |w.states| then Writes(w.states[..stop], false) else w
  }

  function Finalize(d: Durable, s: Session, env: Env): Writes {
    if s.phase != Activated || !OwnsJournal(d, s) then Fails
    else FinalizeInstallation(d, d.journal.value, true, env.listing)
  }

  function RollBack(d: Durable, s: Session, env: Env): Writes {
    if !JournalReadable(d) || d.journal.value.tx != s.tx || d.journal.value.state.Finalized? then Fails
    else
      var j := d.journal.value;
      if j.Terminal() then FinishCleanup(d, j, env.listing)
      else
        var a := if d.root.Root? && !d.root.rollback.NoRollback?
          then RestorePrior(d, j, s.prior, env.inode) else Nothing;
        if !a.ok then a else Then(a, CompleteTransaction(Last(d, a), j, RolledBack, env.listing))
  }

  function Preserve(d: Durable, s: Session): Writes {
    if s.phase == Prepared || !OwnsJournal(d, s) then Fails
    else WriteJournal(d, JournalOf(s, RecoveryRequired(s.phase)))
  }
}
