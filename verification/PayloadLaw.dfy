/** What the operations of a transaction may write in any durable state whatsoever, however it came about:
    no invariant of runs is assumed here. */
module PayloadLaw {
  import opened Wrappers
  import opened PayloadState
  import opened PayloadTransaction

  predicate Open(d: Durable) {
    d.journal.Some? && !d.journal.value.Terminal() && d.root.Root?
  }

  predicate Closing(d: Durable) {
    d.journal.Some? && d.journal.value.Terminal()
  }

  function SavedLink(d: Durable): Option<Link> {
    if d.root.Root? && d.root.rollback.Saved? then d.root.rollback.link else None
  }

  /** The link leads to the candidate, to a selected generation, to the stable root while nothing is
      selected, or is the very one that the transaction saved. */
  ghost predicate Ours(d: Durable, link: Link) {
    || (d.journal.Some? && link.target == Exec(d.journal.value.tx))
    || (link.target.Exec? && link.target.id in SelectedNames(d.selector))
    || (link.target == Stable && d.selector.None?)
    || SavedLink(d) == Some(link)
  }

  /** The journal is closed once, under its own identifier, and goes last. */
  ghost predicate JournalLaw(p: Durable, n: Durable) {
    && n == p.(journal := n.journal) && p.journal.Some?
    && (if n.journal.Some? then Open(p) && n.journal.value.tx == p.journal.value.tx
        else Closing(p) && p.root.NoRoot?)
  }

  /** The directory is built step by step while the transaction is open, with the link as it stands, and
      taken down in reverse once it is closed. */
  ghost predicate RootLaw(p: Durable, n: Durable) {
    && n == p.(root := n.root) && p.root.Root?
    && match p.root.rollback
       case NoRollback => (Open(p) && n.root == Root(EmptyRollback)) || (Closing(p) && n.root == NoRoot)
       case EmptyRollback => (Open(p) && n.root == Root(Saved(p.command))) || (Closing(p) && n.root == Root(NoRollback))
       case Saved(_) => Closing(p) && n.root == Root(EmptyRollback)
  }

  /** No selected generation changes; only the candidate does, or anything else once a finalized
      transaction is disposed of; and a complete one is taken away only in disposal. */
  ghost predicate StoreLaw(p: Durable, n: Durable) {
    && n == p.(store := n.store) && (Open(p) || Closing(p))
    && (forall id :: id in Gens(p).Keys + Gens(n).Keys && Entry(p, id) != Entry(n, id) ==>
          && id !in SelectedNames(p.selector)
          && (id == p.journal.value.tx || p.journal.value.state.Finalized?)
          && (IsComplete(p, id) ==> Closing(p)))
  }

  function Entry(d: Durable, id: Id): Option<Generation> {
    if id in Gens(d) then Some(Gens(d)[id]) else None
  }

  /** Only complete and distinct generations are selected, and only while the transaction is open. */
  ghost predicate SelectorLaw(p: Durable, n: Durable) {
    && n == p.(selector := n.selector) && Open(p)
    && (n.selector.Some? ==>
          && Entry(p, n.selector.value.active).Some? && Entry(p, n.selector.value.active).value.Complete?
          && (n.selector.value.predecessor.Some? ==>
                && n.selector.value.predecessor.value != n.selector.value.active
                && Entry(p, n.selector.value.predecessor.value).Some?
                && Entry(p, n.selector.value.predecessor.value).value.Complete?))
  }

  /** A link that is not ours stays; a new one leads to a complete generation or where the saved one led. */
  ghost predicate LinkLaw(p: Durable, n: Durable) {
    && n == p.(command := n.command) && Open(p) && p.root.rollback.Saved?
    && (p.command.Some? ==> Ours(p, p.command.value))
    && (n.command.Some? ==>
          || (n.command.value.target.Exec? && IsComplete(p, n.command.value.target.id))
          || (SavedLink(p).Some? && n.command.value.target == SavedLink(p).value.target))
  }

  /** The record is that of the candidate. */
  ghost predicate RecordLaw(p: Durable, n: Durable) {
    && n == p.(installed := n.installed) && Open(p)
    && n.installed == Some(Installed(p.journal.value.tx, p.journal.value.payload))
  }

  ghost predicate Lawful(p: Durable, n: Durable) {
    || JournalLaw(p, n) || RootLaw(p, n) || StoreLaw(p, n) || SelectorLaw(p, n) || LinkLaw(p, n) || RecordLaw(p, n)
  }

  function Before(d: Durable, states: seq<Durable>, i: nat): Durable
    requires i < |states|
  {
    if i == 0 then d else states[i - 1]
  }

  /** Every write of a sequence is lawful in the state it is made in. */
  ghost predicate AllLawful(d: Durable, states: seq<Durable>) {
    forall i :: 0 <= i < |states| ==> Lawful(Before(d, states, i), states[i])
  }

  lemma NoneLawful(d: Durable)
    ensures AllLawful(d, [])
  {
  }

  lemma OneLawful(d: Durable, e: Durable)
    requires Lawful(d, e)
    ensures AllLawful(d, [e])
  {
    hide Lawful;
  }

  lemma ThenLawful(d: Durable, a: Writes, b: Writes)
    requires AllLawful(d, a.states) && AllLawful(Last(d, a), b.states)
    ensures AllLawful(d, Then(a, b).states)
    ensures Last(d, Then(a, b)) == Last(Last(d, a), b)
  {
    hide Lawful;
    var states := Then(a, b).states;
    forall i | 0 <= i < |states| ensures Lawful(Before(d, states, i), states[i]) {
      if i < |a.states| {
        assert Lawful(Before(d, a.states, i), a.states[i]);
      } else {
        assert Lawful(Before(Last(d, a), b.states, i - |a.states|), b.states[i - |a.states|]);
      }
    }
  }

  lemma TwoLawful(d: Durable, e: Durable, f: Durable)
    requires Lawful(d, e) && Lawful(e, f)
    ensures AllLawful(d, [e, f])
  {
    hide Lawful;
  }

  // ---- what the collaborators do, exactly

  function Leads(link: Option<Link>): Option<Target> {
    if link.Some? then Some(link.value.target) else None
  }

  lemma SelectsIff(d: Durable, sel: Selection)
    ensures Select(d, sel).ok <==>
      && Entry(d, sel.active).Some? && Entry(d, sel.active).value.Complete?
      && (sel.predecessor.Some? ==>
            && sel.predecessor.value != sel.active
            && Entry(d, sel.predecessor.value).Some? && Entry(d, sel.predecessor.value).value.Complete?)
    ensures Select(d, sel).ok ==> Last(d, Select(d, sel)) == d.(selector := Some(sel))
    ensures !Select(d, sel).ok ==> Select(d, sel).states == []
  {
  }

  /** A link is made to a complete generation over nothing, over itself and over the saved link, in one write at
      most. */
  lemma ProjectsIff(d: Durable, target: Target, snapshot: Option<Link>, inode: nat)
    ensures var w := Project(d, target, snapshot, inode);
      && (w.ok <==>
            && target.Exec? && Entry(d, target.id).Some? && Entry(d, target.id).value.Complete?
            && (d.command.None? || d.command.value.target == target || d.command == snapshot))
      && (w.ok ==> Last(d, w) == d.(command := Last(d, w).command) && Leads(Last(d, w).command) == Some(target))
      && (w.states == [] <==> !w.ok || Leads(d.command) == Some(target))
      && |w.states| <= 1
  {
  }

  /** A link is taken away if it is the candidate's or the saved one. */
  lemma DetachesIff(d: Durable, target: Target, snapshot: Option<Link>)
    ensures var w := Detach(d, target, snapshot);
      && (w.ok <==> d.command.None? || d.command.value.target == target || d.command == snapshot)
      && (w.ok ==> Last(d, w) == d.(command := None))
      && (w.states == [] <==> !w.ok || d.command.None?)
  {
  }

  /** The saved link is made again over nothing, over the controlling generation's link and over itself, by its
      target; the very link that was saved is left alone. */
  lemma RestoresIff(d: Durable, target: Target, snapshot: Option<Link>, inode: nat)
    ensures var w := Restore(d, target, snapshot, inode);
      && (w.ok <==> d.command.None? || d.command.value.target == target || d.command == snapshot)
      && (w.ok ==> Last(d, w) == d.(command := Last(d, w).command) && Leads(Last(d, w).command) == Leads(snapshot))
      && (d.command == snapshot ==> w.states == [])
      && (!w.ok ==> w.states == [])
  {
  }

  /** An unselected generation goes, and with the last one the store. */
  lemma RemovesIff(d: Durable, id: Id)
    ensures var w := RemoveGeneration(d, id);
      && (w.ok <==> id !in SelectedNames(d.selector) && forall k :: k in SelectedNames(d.selector) ==> k in Gens(d))
      && (w.ok ==> Gens(Last(d, w)) == Gens(d) - {id} && Last(d, w) == d.(store := Last(d, w).store))
      && (w.ok ==> Last(d, w).store != Some(map[]))
      && (!w.ok ==> w.states == [])
  {
  }

  /** Selection and link go back to what was saved, unless something else is selected, the snapshot is missing or
      a link is in the way. */
  lemma RestoresPrior(d: Durable, j: Journal, prior: Option<Selection>, inode: nat)
    ensures var w := RestorePrior(d, j, prior, inode);
      && (w.ok ==>
            && d.root.Root? && d.root.rollback.Saved? && Last(d, w).selector == prior
            && Leads(Last(d, w).command) == Leads(d.root.rollback.link)
            && (forall id :: id in SelectedNames(prior) ==> IsComplete(d, id)))
      && (d.selector != prior && d.selector != Some(Selection(j.tx,
                                                              if prior.Some? then Some(prior.value.active) else None))
          ==> w == Fails)
      && (d.root.NoRoot? || !d.root.rollback.Saved? ==> w == Fails)
  {
    hide Restore, Detach, ControlTarget;
    if d.root.Root? && d.root.rollback.Saved? {
      var snapshot := d.root.rollback.link;
      var a := if d.selector == prior then Nothing else Unselect(d, j.tx, prior, snapshot);
      DetachesIff(d, Exec(j.tx), snapshot);
      var e := Last(d, a);
      if ControlReadable(e) {
        RestoresIff(e, Control(e), snapshot, inode);
      }
    }
  }

  /** The final selection is written, or it is journaled that recovery is required. */
  lemma RetainsIff(d: Durable, j: Journal)
    ensures var w := SelectRetention(d, j);
      var prior := if j.isFresh || j.prior.None? then None else Some(j.prior.value.active);
      && (w.ok <==>
            && IsComplete(d, j.tx)
            && (prior.Some? ==> prior.value != j.tx && IsComplete(d, prior.value)))
      && (w.ok ==> w.states == [d.(selector := Some(Selection(j.tx, prior)))])
      && (!w.ok ==> w.states == [d.(journal := Some(j.(state := RecoveryRequired(Activated))))])
  {
  }

  /** A commit goes through, in any state, exactly when the owner has its prepared and unsaved journal, a candidate
      to be reused stands as it should and a new one is not there yet, everything selected is complete, the command
      link is absent or that of the controlling generation, and nothing fails on the way. */
  lemma CommitsIff(d: Durable, s: Session, env: Env, fault: Fault)
    ensures var w := Commit(d, s, env, fault);
      && (w.ok <==>
            && s.phase == Prepared && Open(d) && d.journal.value.tx == s.tx && d.root == Root(NoRollback)
            && (if s.reuses then Entry(d, s.tx) == Some(Generation.Complete(s.payload)) else Entry(d, s.tx).None?)
            && (forall id :: id in SelectedNames(d.selector) ==> IsComplete(d, id))
            && (d.command.None? || Leads(d.command) == Some(ControlTarget(Gens(d), d.selector)))
            && fault.NoFault?)
      && (w.ok ==>
            Last(d, w) ==
            d.(journal := Some(JournalOf(s, Working(Materialized))), root := Root(Saved(d.command)),
               store := if s.reuses then d.store else Some(Gens(d)[s.tx := Generation.Complete(s.payload)])))
  {
    hide ControlTarget, CompleteTransaction, RollBack;
  }

  /** Activation goes through exactly when the owner has its materialized journal and its snapshot, candidate and
      prior generation are complete and distinct, and the command link can be projected. */
  lemma ActivatesIff(d: Durable, s: Session, env: Env)
    ensures var w := Activate(d, s, env);
      var sel := Selection(s.tx, if s.prior.Some? then Some(s.prior.value.active) else None);
      && (w.ok ==>
            && s.phase == Materialized && Open(d) && d.journal.value.tx == s.tx && d.root.rollback.Saved?
            && Last(d, w).selector == Some(sel) && Last(d, w).journal == Some(JournalOf(s, Working(Activated)))
            && (forall id :: id in Names(sel) ==> IsComplete(d, id))
            && Leads(Last(d, w).command) == Some(ControlTarget(Gens(d), Some(sel))))
      && (&& s.phase == Materialized && Open(d) && d.journal.value.tx == s.tx && d.root.rollback.Saved?
          && (forall id :: id in Names(sel) ==> IsComplete(d, id)) && sel.predecessor != Some(s.tx)
          && (d.command.None? || d.command == SavedLink(d)
              || Leads(d.command) == Some(ControlTarget(Gens(d), Some(sel))))
          ==> w.ok)
  {
    hide Newer;
    var sel := Selection(s.tx, if s.prior.Some? then Some(s.prior.value.active) else None);
    var e := d.(selector := Some(sel));
    if Open(d) && d.root.rollback.Saved? && ControlReadable(e) {
      ProjectsIff(e, Control(e), d.root.rollback.link, env.inode);
    }
  }

  // ---- the parts

  lemma SelectLawful(d: Durable, sel: Selection)
    requires Open(d)
    ensures AllLawful(d, Select(d, sel).states)
    ensures Last(d, Select(d, sel)) == d.(selector := Last(d, Select(d, sel)).selector)
  {
    if CanSelect(d, sel) {
      assert SelectorLaw(d, d.(selector := Some(sel)));
    }
  }

  lemma ClearLawful(d: Durable)
    requires Open(d)
    ensures AllLawful(d, ClearSelector(d).states)
  {
    assert SelectorLaw(d, d.(selector := None));
  }

  lemma JournalLawful(d: Durable, j: Journal)
    requires Open(d) && j.tx == d.journal.value.tx
    ensures AllLawful(d, WriteJournal(d, j).states)
  {
    assert JournalLaw(d, d.(journal := Some(j)));
  }

  lemma ProjectLawful(d: Durable, inode: nat)
    requires Open(d) && d.root.rollback.Saved? && ControlReadable(d)
    ensures var w := Project(d, Control(d), d.root.rollback.link, inode);
      AllLawful(d, w.states) && Last(d, w) == d.(command := Last(d, w).command)
  {
    var w := Project(d, Control(d), d.root.rollback.link, inode);
    if w.states != [] {
      assert LinkLaw(d, w.states[0]);
    }
  }

  lemma DetachLawful(d: Durable)
    requires Open(d) && d.root.rollback.Saved?
    ensures var w := Detach(d, Exec(d.journal.value.tx), d.root.rollback.link);
      AllLawful(d, w.states) && Last(d, w) == d.(command := Last(d, w).command)
  {
    var w := Detach(d, Exec(d.journal.value.tx), d.root.rollback.link);
    if w.states != [] {
      assert LinkLaw(d, w.states[0]);
    }
  }

  lemma RelinkLawful(d: Durable, inode: nat)
    requires Open(d) && d.root.rollback.Saved? && d.command.None?
    ensures var w := Relink(d, d.root.rollback.link, inode);
      AllLawful(d, w.states) && Last(d, w) == d.(command := Last(d, w).command)
  {
    var w := Relink(d, d.root.rollback.link, inode);
    if w.states != [] {
      assert LinkLaw(d, w.states[0]);
    }
  }

  lemma RestoreLawful(d: Durable, inode: nat)
    requires Open(d) && d.root.rollback.Saved? && ControlReadable(d)
    ensures var w := Restore(d, Control(d), d.root.rollback.link, inode);
      AllLawful(d, w.states) && Last(d, w) == d.(command := Last(d, w).command)
  {
    hide AllLawful, Newer;
    NoneLawful(d);
    var snapshot := d.root.rollback.link;
    if MatchesSnapshot(d.command, snapshot) || Classify(d.command, Control(d)).Foreign? {
    } else if Classify(d.command, Control(d)).Owned? {
      var e := d.(command := None);
      ControlIsOurs(d);
      OneLawful(d, e);
      RelinkLawful(e, inode);
      ThenLawful(d, One(e), Relink(e, snapshot, inode));
    } else {
      RelinkLawful(d, inode);
    }
  }

  lemma ControlIsOurs(d: Durable)
    requires Open(d) && d.root.rollback.Saved? && ControlReadable(d)
    requires d.command.Some? && d.command.value.target == Control(d)
    ensures Lawful(d, d.(command := None))
  {
    assert Ours(d, d.command.value);
    assert LinkLaw(d, d.(command := None));
  }

  lemma UnselectLawful(d: Durable, prior: Option<Selection>)
    requires Open(d) && d.root.rollback.Saved?
    ensures var w := Unselect(d, d.journal.value.tx, prior, d.root.rollback.link);
      && AllLawful(d, w.states)
      && Last(d, w) == d.(command := Last(d, w).command, selector := Last(d, w).selector)
  {
    hide AllLawful, Detach, CanSelect;
    var a := Detach(d, Exec(d.journal.value.tx), d.root.rollback.link);
    DetachLawful(d);
    if a.ok {
      var e := Last(d, a);
      if prior.None? {
        ClearLawful(e);
        ThenLawful(d, a, ClearSelector(e));
      } else {
        SelectLawful(e, prior.value);
        ThenLawful(d, a, Select(e, prior.value));
      }
    }
  }

  lemma RestorePriorLawful(d: Durable, prior: Option<Selection>, inode: nat)
    requires Open(d)
    ensures var w := RestorePrior(d, d.journal.value, prior, inode);
      && AllLawful(d, w.states)
      && Last(d, w) == d.(command := Last(d, w).command, selector := Last(d, w).selector)
  {
    hide AllLawful, Unselect, Restore, ControlReadable, SelectionReadable, ControlTarget;
    NoneLawful(d);
    var w := RestorePrior(d, d.journal.value, prior, inode);
    if d.root.rollback.Saved? {
      UnselectLawful(d, prior);
      var a := if d.selector == prior then Nothing else Unselect(d, d.journal.value.tx, prior, d.root.rollback.link);
      var e := Last(d, a);
      if a.ok && ControlReadable(e) {
        RestoreLawful(e, inode);
        ThenLawful(d, a, Restore(e, Control(e), d.root.rollback.link, inode));
      }
    }
  }

  // ---- disposal

  lemma PartialLawful(d: Durable, id: Id)
    requires Closing(d) && id in Gens(d) && id !in SelectedNames(d.selector)
    requires id == d.journal.value.tx || d.journal.value.state.Finalized?
    ensures var e, f := d.(store := Some(Gens(d)[id := Partial])), d.(store := Some(Gens(d) - {id}));
      Lawful(d, e) && Lawful(e, f)
  {
    var e, f := d.(store := Some(Gens(d)[id := Partial])), d.(store := Some(Gens(d) - {id}));
    assert StoreLaw(d, e);
    assert StoreLaw(e, f);
  }

  lemma RemoveLawful(d: Durable)
    requires Closing(d)
    ensures var w := RemoveGeneration(d, d.journal.value.tx);
      AllLawful(d, w.states) && Last(d, w) == d.(store := Last(d, w).store)
  {
    hide AllLawful, Lawful, SelectionReadable;
    var id := d.journal.value.tx;
    NoneLawful(d);
    if SelectionReadable(d) && id !in SelectedNames(d.selector) {
      var a := if id in Gens(d)
               then Writes([d.(store := Some(Gens(d)[id := Partial])), d.(store := Some(Gens(d) - {id}))], true)
               else Nothing;
      if id in Gens(d) {
        PartialLawful(d, id);
        TwoLawful(d, a.states[0], a.states[1]);
      }
      var e := Last(d, a);
      if e.store == Some(map[]) {
        StoreGoes(e);
        OneLawful(e, e.(store := None));
        ThenLawful(d, a, One(e.(store := None)));
      } else {
        NoneLawful(e);
        ThenLawful(d, a, Nothing);
      }
    }
  }

  lemma StoreGoes(d: Durable)
    requires Closing(d) && d.store == Some(map[])
    ensures Lawful(d, d.(store := None))
  {
    assert StoreLaw(d, d.(store := None));
  }

  lemma {:induction false} PruneLawful(d: Durable, keep: set<Id>, listing: seq<Id>)
    requires Closing(d) && d.journal.value.state.Finalized? && SelectedNames(d.selector) <= keep
    ensures var w := Prune(d, keep, listing); AllLawful(d, w.states) && Last(d, w) == d.(store := Last(d, w).store)
    decreases |listing|
  {
    hide AllLawful, Lawful, Gens, SelectedNames;
    NoneLawful(d);
    if listing != [] {
      var id := listing[0];
      if id in Gens(d) && id !in keep {
        var a := Writes([d.(store := Some(Gens(d)[id := Partial])), d.(store := Some(Gens(d) - {id}))], true);
        PartialLawful(d, id);
        TwoLawful(d, a.states[0], a.states[1]);
        PruneLawful(Last(d, a), keep, listing[1..]);
        ThenLawful(d, a, Prune(Last(d, a), keep, listing[1..]));
      } else {
        PruneLawful(d, keep, listing[1..]);
      }
    }
  }

  lemma DisposeLawful(d: Durable, listing: seq<Id>)
    requires Closing(d)
    ensures var w := DisposeGenerations(d, d.journal.value, listing);
      AllLawful(d, w.states) && Last(d, w) == d.(store := Last(d, w).store)
  {
    hide AllLawful, Prune, RemoveGeneration, SelectionReadable;
    var j := d.journal.value;
    NoneLawful(d);
    RemoveLawful(d);
    if j.state.Finalized? && d.selector.Some? {
      PruneLawful(d, Names(d.selector.value), listing);
    }
  }

  lemma RootStep(d: Durable)
    requires Closing(d)
    ensures d.root == Root(NoRollback) ==> Lawful(d, d.(root := NoRoot))
    ensures d.root == Root(EmptyRollback) ==> Lawful(d, d.(root := Root(NoRollback)))
    ensures d.root.Root? && d.root.rollback.Saved? ==> Lawful(d, d.(root := Root(EmptyRollback)))
    ensures d.root == NoRoot ==> Lawful(d, d.(journal := None))
  {
    if d.root == NoRoot {
      assert JournalLaw(d, d.(journal := None));
    } else {
      var r := match d.root.rollback
        case NoRollback => NoRoot
        case EmptyRollback => Root(NoRollback)
        case Saved(_) => Root(EmptyRollback);
      assert RootLaw(d, d.(root := r));
    }
  }

  lemma RemoveRootLawful(d: Durable)
    requires Closing(d)
    ensures var w := RemoveRoot(d); AllLawful(d, w.states) && Last(d, w) == d.(root := NoRoot)
  {
    hide Lawful;
    RootStep(d);
    RootStep(d.(root := Root(EmptyRollback)));
    RootStep(d.(root := Root(NoRollback)));
  }

  lemma CleanupLawful(d: Durable, listing: seq<Id>)
    requires Closing(d)
    ensures AllLawful(d, FinishCleanup(d, d.journal.value, listing).states)
  {
    hide AllLawful, DisposeGenerations, RemoveRoot, Lawful;
    var j := d.journal.value;
    var a := DisposeGenerations(d, j, listing);
    DisposeLawful(d, listing);
    if a.ok {
      var u := Last(d, a);
      var b := RemoveRoot(u);
      RemoveRootLawful(u);
      var e := Last(u, b);
      RootStep(e);
      OneLawful(e, e.(journal := None));
      ThenLawful(u, b, One(e.(journal := None)));
      ThenLawful(d, a, Then(b, One(e.(journal := None))));
    }
  }

  lemma CompleteLawful(d: Durable, j: Journal, outcome: JournalState, listing: seq<Id>)
    requires Open(d) && j.tx == d.journal.value.tx && !outcome.Working? && !outcome.RecoveryRequired?
    ensures AllLawful(d, CompleteTransaction(d, j, outcome, listing).states)
  {
    hide AllLawful, FinishCleanup, Lawful;
    var k := j.(state := outcome);
    JournalLawful(d, k);
    CleanupLawful(d.(journal := Some(k)), listing);
    ThenLawful(d, WriteJournal(d, k), FinishCleanup(d.(journal := Some(k)), k, listing));
  }

  // ---- finalizing

  lemma RetentionLawful(d: Durable)
    requires Open(d)
    ensures var w := SelectRetention(d, d.journal.value);
      && AllLawful(d, w.states)
      && (w.ok ==> Last(d, w) == d.(selector := Last(d, w).selector))
  {
    hide AllLawful, CanSelect;
    var j := d.journal.value;
    var sel := if j.isFresh || j.prior.None? then Selection(j.tx, None) else j.Candidate();
    SelectLawful(d, sel);
    JournalLawful(d, j.(state := RecoveryRequired(Activated)));
  }

  lemma CloseLawful(d: Durable, binds: bool, listing: seq<Id>)
    requires Open(d)
    ensures AllLawful(d, CloseFinalized(d, d.journal.value, binds, listing).states)
  {
    hide AllLawful, SelectRetention, CompleteTransaction, ControlReadable;
    var j := d.journal.value;
    var a := SelectRetention(d, j);
    RetentionLawful(d);
    if a.ok && ControlReadable(Last(d, a)) && binds {
      CompleteLawful(Last(d, a), j, Finalized, listing);
      ThenLawful(d, a, CompleteTransaction(Last(d, a), j, Finalized, listing));
    }
  }

  lemma FinalizeInstallationLawful(d: Durable, binds: bool, listing: seq<Id>)
    requires Open(d)
    ensures AllLawful(d, FinalizeInstallation(d, d.journal.value, binds, listing).states)
  {
    hide AllLawful, CloseFinalized;
    var j := d.journal.value;
    var e := d.(installed := Some(Installed(j.tx, j.payload)));
    assert RecordLaw(d, e);
    OneLawful(d, e);
    CloseLawful(e, binds, listing);
    ThenLawful(d, One(e), CloseFinalized(e, j, binds, listing));
  }

  // ---- recovery

  lemma SelectAndProjectLawful(d: Durable, inode: nat)
    requires Open(d)
    ensures var w := SelectAndProject(d, d.journal.value, inode);
      && AllLawful(d, w.states)
      && Last(d, w) == d.(command := Last(d, w).command, selector := Last(d, w).selector)
  {
    hide AllLawful, Select, Project, ControlReadable, ControlTarget;
    var j := d.journal.value;
    var predecessor := if j.prior.Some? && j.prior.value.active in Gens(d) then Some(j.prior.value.active) else None;
    var a := Select(d, Selection(j.tx, predecessor));
    SelectLawful(d, Selection(j.tx, predecessor));
    var e := Last(d, a);
    if a.ok && ControlReadable(e) && d.root.rollback.Saved? {
      ProjectLawful(e, inode);
      ThenLawful(d, a, Project(e, Control(e), d.root.rollback.link, inode));
    }
  }

  lemma ServingLawful(d: Durable, env: Env)
    requires Open(d)
    ensures AllLawful(d, RecoverServing(d, d.journal.value, env).states)
  {
    hide AllLawful, SelectAndProject, FinalizeInstallation;
    var j := d.journal.value;
    NoneLawful(d);
    SelectAndProjectLawful(d, env.inode);
    var a := if j.Phase() == Materialized then SelectAndProject(d, j, env.inode) else Nothing;
    FinalizeInstallationLawful(Last(d, a), env.binds, env.listing);
    ThenLawful(d, a, FinalizeInstallation(Last(d, a), j, env.binds, env.listing));
  }

  /** Restoring and then closing as rolled back. */
  lemma ReturnLawful(d: Durable, prior: Option<Selection>, env: Env)
    requires Open(d)
    ensures var a := RestorePrior(d, d.journal.value, prior, env.inode);
      && AllLawful(d, a.states)
      && AllLawful(d, Then(a, CompleteTransaction(Last(d, a), d.journal.value, RolledBack, env.listing)).states)
  {
    hide AllLawful, RestorePrior, CompleteTransaction;
    var a := RestorePrior(d, d.journal.value, prior, env.inode);
    RestorePriorLawful(d, prior, env.inode);
    CompleteLawful(Last(d, a), d.journal.value, RolledBack, env.listing);
    ThenLawful(d, a, CompleteTransaction(Last(d, a), d.journal.value, RolledBack, env.listing));
  }

  lemma RollbackMaterializedLawful(d: Durable, env: Env)
    requires Open(d)
    ensures AllLawful(d, RollbackMaterialized(d, d.journal.value, env).states)
    ensures AllLawful(d, RestorePriorGeneration(d, d.journal.value, env).states)
  {
    hide AllLawful, RestorePrior, CompleteTransaction, ControlReadable, SelectionReadable, UnchangedPriorTerminal;
    NoneLawful(d);
    ReturnLawful(d, d.journal.value.prior, env);
    CompleteLawful(d, d.journal.value, RolledBack, env.listing);
  }

  /** Whatever state it finds, recovery makes lawful writes alone. */
  lemma RecoverIsLawful(d: Durable, env: Env)
    ensures AllLawful(d, Recover(d, env).states)
  {
    hide AllLawful, FinishCleanup, CompleteTransaction, CloseFinalized, RecoverServing, RollbackMaterialized,
         RestorePriorGeneration;
    NoneLawful(d);
    if JournalReadable(d) {
      if d.journal.value.Terminal() {
        CleanupLawful(d, env.listing);
      } else {
        CompleteLawful(d, d.journal.value, Closed, env.listing);
        CloseLawful(d, env.binds, env.listing);
        ServingLawful(d, env);
        RollbackMaterializedLawful(d, env);
      }
    }
  }

  /** States it will not touch: a directory without a journal, an open journal without its directory, a
      candidate that should stand and is missing, partial or another, a prepared transaction that had begun to
      save, an unrecorded fresh activation beside another runtime, and a finalized transaction that is not the
      one selected. */
  lemma DamageIsRefused(d: Durable, env: Env)
    requires
      || (d.journal.None? && d.root.Root?)
      || (d.journal.Some? && !d.journal.value.Terminal() && d.root.NoRoot?)
      || (Open(d) && d.journal.value.Phase() != Prepared
          && Entry(d, d.journal.value.tx) != Some(Generation.Complete(d.journal.value.payload)))
      || (Open(d) && d.journal.value.Phase() == Prepared && d.root.rollback != NoRollback)
      || (Open(d) && d.journal.value.Phase() == Activated && d.journal.value.isFresh
          && d.installed != Some(Installed(d.journal.value.tx, d.journal.value.payload))
          && env.runtime.Runtime? && (!env.runtime.accepting || env.runtime.payload != d.journal.value.payload))
      || (Closing(d) && d.journal.value.state.Finalized?
          && (d.selector.None? || d.selector.value.active != d.journal.value.tx
              || exists id :: id in SelectedNames(d.selector) && Entry(d, id).None?))
    ensures Recover(d, env) == Run([], Refused)
  {
  }

  /** Without a supervisor to bind nothing is finalized, and nothing rolled back but a fresh install and a return
      that had not begun to save. */
  lemma UnboundIsRefused(d: Durable, env: Env)
    requires Open(d) && !env.binds
    ensures Recover(d, env).verdict in {Refused, Ends(Closed), Ends(RolledBack)}
    ensures Recover(d, env).verdict == Ends(RolledBack) ==>
      || d.journal.value.prior.None?
      || (d.journal.value.Reuses() && d.selector == d.journal.value.prior && d.root == Root(NoRollback))
  {
    hide RestorePrior, CompleteTransaction, ControlReadable, SelectionReadable, UnchangedPriorTerminal, SelectRetention;
  }

  /** A materialized return that had not begun to save, and whose candidate does not serve, is closed as rolled
      back exactly when nothing of the prior generation has moved: it is complete, recorded, linked and serving. */
  lemma UntouchedReturnIff(d: Durable, env: Env)
    requires Open(d) && d.journal.value.Phase() == Materialized && d.journal.value.Reuses()
    requires d.selector == d.journal.value.prior && d.root == Root(NoRollback) && SelectionReadable(d)
    requires Entry(d, d.journal.value.tx) == Some(Generation.Complete(d.journal.value.payload))
    requires !RuntimeMatches(env.runtime, d.journal.value.payload)
    ensures var active := d.journal.value.prior.value.active;
      Recover(d, env).verdict == Ends(RolledBack) <==>
      && Entry(d, active).Some? && Entry(d, active).value.Complete?
      && d.installed == Some(Installed(active, Entry(d, active).value.payload))
      && Leads(d.command) == Some(Exec(active))
      && env.runtime == Runtime(Entry(d, active).value.payload, true)
    ensures Recover(d, env).verdict != Ends(RolledBack) ==> Recover(d, env) == Run([], Refused)
  {
    hide RemoveRoot, SelectionReadable;
  }

  /** Adopting a serving candidate needs the snapshot: without it only the selection is written. */
  lemma ServingNeedsSnapshot(d: Durable, env: Env)
    requires Open(d) && d.journal.value.Phase() == Materialized && !d.root.rollback.Saved?
    requires RuntimeMatches(env.runtime, d.journal.value.payload)
    requires d.installed != Some(Installed(d.journal.value.tx, d.journal.value.payload))
    ensures Recover(d, env).verdict == Refused
    ensures forall e :: e in Recover(d, env).states ==> e == d.(selector := e.selector)
  {
    hide FinalizeInstallation, ControlReadable, Project;
  }

  /** Nothing is to be done exactly when neither is there. */
  lemma NotRequiredIff(d: Durable, env: Env)
    ensures Recover(d, env).verdict == NotRequired <==> d.journal.None? && d.root.NoRoot?
    ensures Recover(d, env).verdict == NotRequired ==> Recover(d, env).states == []
  {
  }

  // ---- the owner

  lemma AbandonLawful(d: Durable, s: Session, env: Env)
    requires Open(d) && d.journal.value.tx == s.tx
    ensures AllLawful(d, Abandon(d, s, env).states)
  {
    hide AllLawful, CompleteTransaction;
    CompleteLawful(d, JournalOf(s, Working(Prepared)), Closed, env.listing);
  }

  /** So does the owner's rollback, */
  lemma RollBackIsLawful(d: Durable, s: Session, env: Env)
    ensures AllLawful(d, RollBack(d, s, env).states)
  {
    hide AllLawful, FinishCleanup, CompleteTransaction, RestorePrior;
    NoneLawful(d);
    if JournalReadable(d) && d.journal.value.tx == s.tx && !d.journal.value.state.Finalized? {
      if d.journal.value.Terminal() {
        CleanupLawful(d, env.listing);
      } else {
        ReturnLawful(d, s.prior, env);
        CompleteLawful(d, d.journal.value, RolledBack, env.listing);
        ThenLawful(d, Nothing, CompleteTransaction(d, d.journal.value, RolledBack, env.listing));
      }
    }
  }

  lemma WritingLawful(d: Durable, s: Session)
    requires Open(d) && d.journal.value.tx == s.tx && s.tx !in Gens(d) && SelectionReadable(d)
    ensures var e, f := d.(store := Some(Gens(d)[s.tx := Partial])),
                        d.(store := Some(Gens(d)[s.tx := Generation.Complete(s.payload)]));
      Lawful(d, e) && Lawful(e, f)
  {
    var e, f := d.(store := Some(Gens(d)[s.tx := Partial])),
                d.(store := Some(Gens(d)[s.tx := Generation.Complete(s.payload)]));
    assert StoreLaw(d, e);
    assert StoreLaw(e, f);
  }

  lemma MaterializeLawful(d: Durable, s: Session, env: Env, fault: Fault)
    requires Open(d) && d.journal.value.tx == s.tx && SelectionReadable(d)
    ensures AllLawful(d, Materialize(d, s, env, fault).states)
  {
    hide AllLawful, Abandon, RollBack, SelectionReadable, Lawful;
    var j := JournalOf(s, Working(Materialized));
    AbandonLawful(d, s, env);
    JournalLawful(d, j);
    if s.tx !in Gens(d) {
      var e := d.(store := Some(Gens(d)[s.tx := Partial]));
      var f := d.(store := Some(Gens(d)[s.tx := Generation.Complete(s.payload)]));
      WritingLawful(d, s);
      OneLawful(d, e);
      TwoLawful(d, e, f);
      RollBackIsLawful(e, s, env);
      RollBackIsLawful(f, s, env);
      JournalLawful(f, j);
      ThenLawful(d, One(e), Undo(e, s, env));
      ThenLawful(d, Writes([e, f], true), Undo(f, s, env));
      ThenLawful(d, Writes([e, f], true), WriteJournal(f, j));
    }
  }

  lemma SnapshotLawful(d: Durable)
    requires Open(d) && d.root == Root(NoRollback)
    ensures var e := d.(root := Root(EmptyRollback)); Lawful(d, e) && Lawful(e, e.(root := Root(Saved(e.command))))
  {
    var e := d.(root := Root(EmptyRollback));
    assert RootLaw(d, e);
    assert RootLaw(e, e.(root := Root(Saved(e.command))));
  }

  /** its commit, */
  lemma CommitIsLawful(d: Durable, s: Session, env: Env, fault: Fault)
    ensures AllLawful(d, Commit(d, s, env, fault).states)
  {
    hide AllLawful, Lawful, Abandon, Materialize, ControlTarget;
    NoneLawful(d);
    if OwnsJournal(d, s) && d.root == Root(NoRollback) {
      var d0 := d.(root := Root(EmptyRollback));
      var d1 := d0.(root := Root(Saved(d0.command)));
      SnapshotLawful(d);
      OneLawful(d, d0);
      TwoLawful(d, d0, d1);
      AbandonLawful(d0, s, env);
      ThenLawful(d, One(d0), Abandon(d0, s, env));
      if SelectionReadable(d1) {
        MaterializeLawful(d1, s, env, fault);
        ThenLawful(d, Writes([d0, d1], true), Materialize(d1, s, env, fault));
      }
    }
  }

  /** its activation, */
  lemma ActivateIsLawful(d: Durable, s: Session, env: Env)
    ensures AllLawful(d, Activate(d, s, env).states)
  {
    hide AllLawful, Select, Project, ControlTarget, ControlReadable;
    NoneLawful(d);
    if OwnsJournal(d, s) && d.root.Root? && d.root.rollback.Saved? {
      var sel := Selection(s.tx, if s.prior.Some? then Some(s.prior.value.active) else None);
      var a := Select(d, sel);
      SelectLawful(d, sel);
      var e := Last(d, a);
      if ControlReadable(e) {
        var p := Project(e, Control(e), d.root.rollback.link, env.inode);
        ProjectLawful(e, env.inode);
        ThenLawful(d, a, p);
        var b := Then(a, p);
        var f := Last(d, b);
        JournalLawful(f, JournalOf(s, Working(Activated)));
        ThenLawful(d, b, WriteJournal(f, JournalOf(s, Working(Activated))));
      }
    }
  }

  /** its finalizing and its last resort. */
  lemma FinalizeIsLawful(d: Durable, s: Session, env: Env)
    ensures AllLawful(d, Finalize(d, s, env).states) && AllLawful(d, Preserve(d, s).states)
  {
    hide AllLawful, FinalizeInstallation;
    NoneLawful(d);
    if OwnsJournal(d, s) {
      FinalizeInstallationLawful(d, true, env.listing);
      JournalLawful(d, JournalOf(s, RecoveryRequired(s.phase)));
    }
  }
}
