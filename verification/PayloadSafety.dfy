/** What every durable write of a payload transaction keeps, relative to the idle state `b` in
    which the transaction began. */
module PayloadSafety {
  import opened Wrappers
  import opened PayloadState
  import opened PayloadTransaction

  /** The store is exactly the selected generations, all complete; or neither exists. */
  ghost predicate ClosedStore(b: Durable) {
    && (b.selector.None? ==> b.store.None?)
    && (b.selector.Some? ==>
          && b.store.Some? && b.store.value.Keys == Names(b.selector.value)
          && b.selector.value.predecessor != Some(b.selector.value.active)
          && forall id :: id in b.store.value ==> b.store.value[id].Complete?)
  }

  ghost predicate BaseOk(b: Durable) {
    Idle(b) && ClosedStore(b)
  }

  /** The journal belongs to a transaction begun in `b`: forward onto a new generation, or in
      reverse onto the selected predecessor. */
  ghost predicate BegunIn(b: Durable, j: Journal) {
    && j.prior == b.selector
    && j.isFresh == b.selector.None?
    && b.installed != Some(Installed(j.tx, j.payload))
    && (if j.Reuses() then IsComplete(b, j.tx) && Gens(b)[j.tx].payload == j.payload
        else j.tx !in Gens(b) && (b.command.Some? ==> b.command.value.target != Exec(j.tx)))
  }

  ghost predicate SameTarget(a: Option<Link>, b: Option<Link>) {
    a.Some? == b.Some? && (a.Some? ==> a.value.target == b.value.target)
  }

  /** The store holds `b`'s generations and the complete candidate. */
  ghost predicate HoldsCandidate(b: Durable, d: Durable, j: Journal) {
    d.store == Some(Gens(b)[j.tx := Complete(j.payload)])
  }

  ghost predicate CommandMaterialized(b: Durable, d: Durable, j: Journal) {
    || d.command.None?
    || SameTarget(d.command, b.command)
    || (d.selector == Some(j.Candidate()) && d.command.value.target == CandidateControl(b, j))
  }

  ghost function CandidateControl(b: Durable, j: Journal): Target {
    var gens := Gens(b)[j.tx := Complete(j.payload)];
    if forall id :: id in Names(j.Candidate()) ==> id in gens && gens[id].Complete?
    then ControlTarget(gens, Some(j.Candidate())) else Stable
  }

  /** Nothing outside the journal and the root differs from `b`. */
  ghost predicate Untouched(b: Durable, d: Durable) {
    d.store == b.store && d.selector == b.selector && d.command == b.command && d.installed == b.installed
  }

  ghost predicate InstalledOk(b: Durable, d: Durable, j: Journal) {
    d.installed == b.installed || d.installed == Some(Installed(j.tx, j.payload))
  }

  /** The command was unowned or absent when the transaction took its snapshot. */
  ghost predicate SnapshotOk(b: Durable) {
    ControlReadable(b) && Classify(b.command, Control(b)) != Foreign
  }

  ghost predicate PreparedOk(b: Durable, d: Durable, j: Journal) {
    && d.root.Root?
    && (d.root.rollback.Saved? ==> d.root.rollback.link == b.command && SnapshotOk(b))
    && d.selector == b.selector && d.command == b.command && d.installed == b.installed
    && (d.store == b.store ||
        (d.root.rollback.Saved? && !j.Reuses() && d.store.Some? && j.tx in d.store.value
         && d.store.value - {j.tx} == Gens(b)))
  }

  ghost predicate MaterializedOk(b: Durable, d: Durable, j: Journal) {
    && d.root == Root(Saved(b.command)) && SnapshotOk(b)
    && HoldsCandidate(b, d, j)
    && (d.selector == b.selector || d.selector == Some(j.Candidate()))
    && CommandMaterialized(b, d, j)
    && InstalledOk(b, d, j)
  }

  ghost predicate RolledBackOk(b: Durable, d: Durable, j: Journal) {
    && d.selector == b.selector
    && SameTarget(d.command, b.command)
    && InstalledOk(b, d, j)
    && (if j.Reuses() then d.store == b.store
        else Gens(d) - {j.tx} == Gens(b) && (b.store.Some? ==> d.store.Some?))
  }

  ghost predicate FinalizedOk(b: Durable, d: Durable, j: Journal) {
    && d.selector == Some(j.Candidate())
    && CommandMaterialized(b, d, j)
    && d.installed == Some(Installed(j.tx, j.payload))
    && d.store.Some?
    && d.store.value.Keys <= Gens(b).Keys + {j.tx}
    && forall id :: id in Names(j.Candidate()) ==>
         id in d.store.value && id in Gens(b)[j.tx := Complete(j.payload)]
         && d.store.value[id] == Gens(b)[j.tx := Complete(j.payload)][id]
  }

  ghost predicate JournalOk(b: Durable, d: Durable, j: Journal) {
    BegunIn(b, j) &&
    match j.state
    case Working(Prepared) => PreparedOk(b, d, j)
    case RecoveryRequired(Prepared) => false
    case Working(_) => MaterializedOk(b, d, j)
    case RecoveryRequired(_) => MaterializedOk(b, d, j)
    case Closed => Untouched(b, d)
    case RolledBack => RolledBackOk(b, d, j)
    case Finalized => FinalizedOk(b, d, j)
  }

  /** The invariant of every durable state a transaction begun in `b` passes through. */
  ghost predicate Inv(b: Durable, d: Durable) {
    && BaseOk(b)
    && (if d.journal.None? then d.root == Root(NoRollback) && Untouched(b, d)
        else JournalOk(b, d, d.journal.value))
  }

  /** The state after the transaction of `j`, begun in `b`, has ended: as before it, or committed.
      Only the inode of a link that was made again, and the installed record, may differ. */
  ghost predicate EndsAtomically(b: Durable, d: Durable, j: Journal) {
    && Idle(d) && ClosedStore(d)
    && match j.state
       case Closed => Untouched(b, d)
       case RolledBack => RolledBackOk(b, d, j) && d.store == b.store
       case Finalized => FinalizedOk(b, d, j)
       case _ => false
  }

  ghost predicate Covers(listing: seq<Id>, d: Durable) {
    forall id :: id in Gens(d) ==> id in listing
  }

  // ---- disposal

  /** A state in which only the store and the root have moved on since `d`. */
  ghost predicate Disposing(d: Durable, s: Durable) {
    s == d.(store := s.store, root := s.root)
  }

  lemma {:induction false} PruneSafe(b: Durable, d: Durable, j: Journal, listing: seq<Id>)
    requires FinalizedOk(b, d, j)
    ensures Prune(d, Names(j.Candidate()), listing).ok
    ensures forall s ::
      s in Prune(d, Names(j.Candidate()), listing).states ==> s == d.(store := s.store) && FinalizedOk(b, s, j)
    ensures var e := Last(d, Prune(d, Names(j.Candidate()), listing));
            && e == d.(store := e.store) && FinalizedOk(b, e, j)
            && forall id :: id in Gens(e) ==> id in Gens(d) && (id in Names(j.Candidate()) || id !in listing)
    decreases |listing|
  {
    hide BegunIn, CandidateControl, CommandMaterialized, Names;
    var keep := Names(j.Candidate());
    if listing == [] {
    } else if listing[0] in Gens(d) && listing[0] !in keep {
      var id := listing[0];
      var p := d.(store := Some(Gens(d)[id := Partial]));
      var q := d.(store := Some(Gens(d) - {id}));
      PruneOne(b, d, j, id);
      PruneSafe(b, q, j, listing[1..]);
      var rest := Prune(q, keep, listing[1..]);
      assert Prune(d, keep, listing).states == [p, q] + rest.states;
    } else {
      PruneSafe(b, d, j, listing[1..]);
    }
  }

  lemma PruneOne(b: Durable, d: Durable, j: Journal, id: Id)
    requires FinalizedOk(b, d, j) && id in Gens(d) && id !in Names(j.Candidate())
    ensures FinalizedOk(b, d.(store := Some(Gens(d)[id := Partial])), j)
    ensures FinalizedOk(b, d.(store := Some(Gens(d) - {id})), j)
  {
    hide CandidateControl, CommandMaterialized, Names;
    SameCommandMaterialized(b, d, d.(store := Some(Gens(d)[id := Partial])), j);
    SameCommandMaterialized(b, d, d.(store := Some(Gens(d) - {id})), j);
  }

  lemma SameCommandMaterialized(b: Durable, d: Durable, e: Durable, j: Journal)
    requires CommandMaterialized(b, d, j) && e.command == d.command && e.selector == d.selector
    ensures CommandMaterialized(b, e, j)
  {
    hide CandidateControl;
  }

  lemma RemoveSafe(b: Durable, d: Durable, j: Journal)
    requires BaseOk(b) && BegunIn(b, j) && RolledBackOk(b, d, j) && !j.Reuses()
    ensures RemoveGeneration(d, j.tx).ok
    ensures forall s :: s in RemoveGeneration(d, j.tx).states ==> s == d.(store := s.store) && RolledBackOk(b, s, j)
    ensures var e := Last(d, RemoveGeneration(d, j.tx));
            e == d.(store := e.store) && RolledBackOk(b, e, j) && e.store == b.store
  {
    var g := Gens(d);
    assert SelectedNames(d.selector) <= Gens(b).Keys;
    assert (g[j.tx := Partial]) - {j.tx} == Gens(b);
    assert (g - {j.tx}) - {j.tx} == Gens(b);
    if j.tx !in g {
      assert g - {j.tx} == g;
    }
  }

  /** The invariant of a terminal journal does not depend on the root. */
  lemma RootFree(b: Durable, d: Durable, e: Durable, j: Journal)
    requires JournalOk(b, d, j) && j.Terminal() && e == d.(root := e.root)
    ensures JournalOk(b, e, j)
  {
    hide BegunIn, CandidateControl, Names;
  }

  lemma DisposeSafe(b: Durable, d: Durable, j: Journal, listing: seq<Id>)
    requires BaseOk(b) && JournalOk(b, d, j) && j.Terminal() && (j.state.Finalized? ==> Covers(listing, d))
    ensures DisposeGenerations(d, j, listing).ok
    ensures forall s ::
      s in DisposeGenerations(d, j, listing).states ==> s == d.(store := s.store) && JournalOk(b, s, j)
    ensures var e := Last(d, DisposeGenerations(d, j, listing));
            e == d.(store := e.store) && JournalOk(b, e, j) && ClosedStore(e)
            && (!j.state.Finalized? ==> e.store == b.store)
  {
    hide BegunIn, CandidateControl, CommandMaterialized, SameTarget, InstalledOk;
    match j.state
    case Closed =>
    case RolledBack => if !j.Reuses() { RemoveSafe(b, d, j); }
    case Finalized =>
      PruneSafe(b, d, j, listing);
      CandidateDistinct(b, j);
  }

  lemma CandidateDistinct(b: Durable, j: Journal)
    requires BaseOk(b) && BegunIn(b, j)
    ensures j.Candidate().predecessor != Some(j.tx)
    ensures var gens := Gens(b)[j.tx := Complete(j.payload)];
            forall id :: id in Names(j.Candidate()) ==> id in gens && gens[id].Complete?
  {
  }

  /** Every state of a disposal keeps the invariant, and the last one is idle. */
  ghost predicate Disposed(b: Durable, d: Durable, j: Journal, states: seq<Durable>) {
    && states != []
    && (forall s :: s in states ==>
          if s.journal.None? then s == states[|states| - 1]
          else s.journal == Some(j) && JournalOk(b, s, j) && Disposing(d, s))
    && EndsAtomically(b, states[|states| - 1], j)
    && Disposing(d.(journal := None), states[|states| - 1])
  }

  lemma RootSafe(b: Durable, e: Durable, j: Journal)
    requires JournalOk(b, e, j) && j.Terminal()
    ensures forall s :: s in RemoveRoot(e).states ==> s == e.(root := s.root) && JournalOk(b, s, j)
    ensures Last(e, RemoveRoot(e)) == e.(root := NoRoot) && JournalOk(b, e.(root := NoRoot), j)
  {
    hide JournalOk, RemoveRoot, Last;
    RootFrame(e);
    forall s | s in RemoveRoot(e).states ensures JournalOk(b, s, j) {
      RootFree(b, e, s, j);
    }
    RootFree(b, e, e.(root := NoRoot), j);
  }

  lemma CleanupSafe(b: Durable, d: Durable, j: Journal, listing: seq<Id>)
    requires BaseOk(b) && JournalOk(b, d, j) && j.Terminal() && d.journal == Some(j)
    requires j.state.Finalized? ==> Covers(listing, d)
    ensures FinishCleanup(d, j, listing).ok
    ensures Disposed(b, d, j, FinishCleanup(d, j, listing).states)
  {
    hide BaseOk, DisposeGenerations, RemoveRoot, JournalOk, EndsAtomically, ClosedStore;
    DisposeSafe(b, d, j, listing);
    var a := DisposeGenerations(d, j, listing);
    var e := Last(d, a);
    RootSafe(b, e, j);
    var f := e.(root := NoRoot);
    var last := f.(journal := None);
    SameClosedStore(e, f);
    EndsHere(b, f, j);
    assert FinishCleanup(d, j, listing).states == a.states + (RemoveRoot(e).states + [last]);
  }

  lemma SameClosedStore(d: Durable, e: Durable)
    requires ClosedStore(d) && e.store == d.store && e.selector == d.selector
    ensures ClosedStore(e)
  {
  }

  lemma EndsHere(b: Durable, d: Durable, j: Journal)
    requires JournalOk(b, d, j) && j.Terminal() && d.root.NoRoot? && ClosedStore(d)
    requires !j.state.Finalized? ==> d.store == b.store
    ensures EndsAtomically(b, d.(journal := None), j)
  {
    hide BegunIn, CandidateControl;
  }

  // ---- the frame of completing a transaction

  ghost predicate OnlyDisposes(d: Durable, s: Durable) {
    && (s.journal == d.journal || s.journal.None?)
    && s.selector == d.selector && s.command == d.command && s.installed == d.installed
  }

  lemma {:induction false} PruneFrame(d: Durable, keep: set<Id>, listing: seq<Id>)
    ensures forall s :: s in Prune(d, keep, listing).states ==> s == d.(store := s.store)
    ensures var e := Last(d, Prune(d, keep, listing)); e == d.(store := e.store)
    decreases |listing|
  {
    if listing == [] {
    } else if listing[0] in Gens(d) && listing[0] !in keep {
      var p := d.(store := Some(Gens(d)[listing[0] := Partial]));
      var q := d.(store := Some(Gens(d) - {listing[0]}));
      PruneFrame(q, keep, listing[1..]);
      assert Prune(d, keep, listing).states == [p, q] + Prune(q, keep, listing[1..]).states;
    } else {
      PruneFrame(d, keep, listing[1..]);
    }
  }

  lemma DisposeFrame(d: Durable, j: Journal, listing: seq<Id>)
    ensures forall s :: s in DisposeGenerations(d, j, listing).states ==> s == d.(store := s.store)
    ensures var e := Last(d, DisposeGenerations(d, j, listing)); e == d.(store := e.store)
  {
    hide SelectionReadable, Names;
    if d.selector.Some? {
      PruneFrame(d, Names(d.selector.value), listing);
    }
  }

  lemma RootFrame(d: Durable)
    ensures forall s :: s in RemoveRoot(d).states ==> s == d.(root := s.root)
    ensures Last(d, RemoveRoot(d)) == d.(root := NoRoot)
  {
  }

  lemma CleanupFrame(d: Durable, j: Journal, listing: seq<Id>)
    ensures forall s :: s in FinishCleanup(d, j, listing).states ==> OnlyDisposes(d, s)
  {
    hide DisposeGenerations, RemoveRoot, Last;
    DisposeFrame(d, j, listing);
    RootFrame(Last(d, DisposeGenerations(d, j, listing)));
  }

  lemma CompleteFrame(d: Durable, j: Journal, outcome: JournalState, listing: seq<Id>)
    ensures forall s :: s in CompleteTransaction(d, j, outcome, listing).states ==>
              OnlyDisposes(d.(journal := Some(j.(state := outcome))), s)
  {
    hide FinishCleanup;
    CleanupFrame(d.(journal := Some(j.(state := outcome))), j.(state := outcome), listing);
  }

  // ---- restoring the prior projection

  /** The candidate's link, or the very link that was there before, can be taken off. */
  ghost predicate Detachable(b: Durable, d: Durable, j: Journal) {
    d.selector == b.selector || Detach(d, Exec(j.tx), b.command).ok
  }

  /** A state between a materialized one and its restoration. */
  ghost predicate Restoring(b: Durable, d: Durable, s: Durable, j: Journal) {
    && s == d.(selector := s.selector, command := s.command)
    && MaterializedOk(b, s, j)
    && Detachable(b, s, j)
  }

  lemma CandidateIsNotPrior(b: Durable, j: Journal)
    requires BaseOk(b) && BegunIn(b, j)
    ensures j.prior == b.selector && b.selector != Some(j.Candidate())
  {
  }

  /** With the prior selection in place, control is what it was in `b`. */
  lemma PriorControl(b: Durable, e: Durable, j: Journal)
    requires BaseOk(b) && BegunIn(b, j) && HoldsCandidate(b, e, j) && e.selector == b.selector
    ensures SelectionReadable(e) && ControlReadable(e) && ControlReadable(b) && Control(e) == Control(b)
    ensures b.selector.Some? ==> CanSelect(e, b.selector.value)
  {
    hide Newer;
  }

  lemma RestoreCommand(d: Durable, target: Target, snapshot: Option<Link>, inode: nat)
    requires Classify(snapshot, target) != Foreign
    requires d.command.None? || SameTarget(d.command, snapshot)
    ensures var w := Restore(d, target, snapshot, inode);
            && w.ok
            && (forall s :: s in w.states ==>
                  s == d.(command := s.command) && (s.command.None? || SameTarget(s.command, snapshot)))
            && var e := Last(d, w);
               e == d.(command := e.command) && SameTarget(e.command, snapshot)
  {
  }

  lemma UnselectSafe(b: Durable, d: Durable, j: Journal)
    requires BaseOk(b) && BegunIn(b, j) && MaterializedOk(b, d, j) && d.selector == Some(j.Candidate())
    ensures var w := Unselect(d, j.tx, b.selector, b.command);
            && (w.ok <==> Detach(d, Exec(j.tx), b.command).ok)
            && (!w.ok ==> w.states == [])
            && (w.ok ==> (forall s :: s in w.states ==> s.command.None? && Restoring(b, d, s, j))
                         && var e := Last(d, w); Restoring(b, d, e, j) && e.command.None? && e.selector == b.selector)
  {
    hide CandidateControl, Newer, ClosedStore, SnapshotOk, BegunIn, Names;
    var w := Detach(d, Exec(j.tx), b.command);
    if w.ok {
      var e := Last(d, w);
      assert e == d.(command := None);
      PriorControl(b, e.(selector := b.selector), j);
    }
  }

  lemma RestoreSafe(b: Durable, d: Durable, j: Journal, inode: nat)
    requires BaseOk(b) && BegunIn(b, j) && MaterializedOk(b, d, j)
    ensures RestorePrior(d, j, b.selector, inode).ok <==> Detachable(b, d, j)
    ensures !Detachable(b, d, j) ==> RestorePrior(d, j, b.selector, inode).states == []
    ensures Detachable(b, d, j) ==>
              && (forall s :: s in RestorePrior(d, j, b.selector, inode).states ==> Restoring(b, d, s, j))
              && var e := Last(d, RestorePrior(d, j, b.selector, inode));
                 Restoring(b, d, e, j) && e.selector == b.selector && SameTarget(e.command, b.command)
  {
    hide CandidateControl, Newer, ClosedStore, BegunIn, Names, Unselect, Restore, Detach;
    CandidateIsNotPrior(b, j);
    CandidateReadable(b, d, j);
    var a := if d.selector == b.selector then Nothing else Unselect(d, j.tx, b.selector, b.command);
    if d.selector != b.selector {
      UnselectSafe(b, d, j);
    }
    if a.ok {
      var e := Last(d, a);
      PriorControl(b, e, j);
      RestoreCommand(e, Control(e), b.command, inode);
      var r := Restore(e, Control(e), b.command, inode);
      assert RestorePrior(d, j, b.selector, inode) == Then(a, r);
    }
  }

  lemma CandidateReadable(b: Durable, d: Durable, j: Journal)
    requires BaseOk(b) && BegunIn(b, j) && MaterializedOk(b, d, j)
    ensures SelectionReadable(d) && ControlReadable(d)
    ensures d.selector == Some(j.Candidate()) ==> Control(d) == CandidateControl(b, j)
    ensures CanSelect(d, j.Candidate())
    ensures CandidateControl(b, j).Exec? && IsComplete(d, CandidateControl(b, j).id)
  {
    hide Newer;
    CandidateDistinct(b, j);
  }
}
