/** The installation as an object: its durable state is changed one write at a time, and the log
    keeps every state it passed through. Each operation is proved to make exactly the writes of
    its specification, in order, and to end as it says. */
module PayloadHost {
  import opened Wrappers
  import opened PayloadState
  import opened PayloadTransaction
  import opened PayloadSafety
  import opened PayloadRecovery

  class Host {
    var disk: Durable
    ghost var log: seq<Durable>

    constructor (disk: Durable)
      ensures this.disk == disk && log == []
    {
      this.disk := disk;
      log := [];
    }

    /** Everything written since `d` and `before` is `w`. */
    ghost predicate Wrote(d: Durable, before: seq<Durable>, w: Writes)
      reads this
    {
      disk == Last(d, w) && log == before + w.states
    }

    method Put(d: Durable)
      modifies this
      ensures Wrote(old(disk), old(log), One(d))
    {
      disk := d;
      log := log + [d];
    }

    // ---- the generation store and the selector

    method SelectPair(sel: Selection) returns (ok: bool)
      modifies this
      ensures ok == Select(old(disk), sel).ok && Wrote(old(disk), old(log), Select(old(disk), sel))
    {
      ok := CanSelect(disk, sel);
      if ok {
        Put(disk.(selector := Some(sel)));
      }
    }

    method PruneStore(keep: set<Id>, listing: seq<Id>)
      modifies this
      ensures Wrote(old(disk), old(log), Prune(old(disk), keep, listing))
    {
      var i := 0;
      ghost var done := Nothing;
      while i < |listing|
        invariant 0 <= i <= |listing|
        invariant Wrote(old(disk), old(log), done)
        invariant Then(done, Prune(disk, keep, listing[i..])) == Then(Nothing, Prune(old(disk), keep, listing))
      {
        var id := listing[i];
        assert listing[i..][1..] == listing[i + 1..];
        ghost var rest := Prune(disk, keep, listing[i..]);
        if id in Gens(disk) && id !in keep {
          ghost var two := Writes([disk.(store := Some(Gens(disk)[id := Partial])),
                                   disk.(store := Some(Gens(disk) - {id}))], true);
          ghost var tail := Prune(Last(disk, two), keep, listing[i + 1..]);
          assert rest == Then(two, tail);
          assert done.states + (two.states + tail.states) == (done.states + two.states) + tail.states;
          var before := disk;
          Put(before.(store := Some(Gens(before)[id := Partial])));
          Put(before.(store := Some(Gens(before) - {id})));
          done := Then(done, two);
        }
        i := i + 1;
      }
      assert done.states + [] == done.states;
    }

    method RemoveOne(id: Id) returns (ok: bool)
      modifies this
      ensures ok == RemoveGeneration(old(disk), id).ok && Wrote(old(disk), old(log), RemoveGeneration(old(disk), id))
    {
      ok := SelectionReadable(disk) && id !in SelectedNames(disk.selector);
      if ok {
        var before := disk;
        if id in Gens(before) {
          Put(before.(store := Some(Gens(before)[id := Partial])));
          Put(before.(store := Some(Gens(before) - {id})));
        }
        if disk.store == Some(map[]) {
          Put(disk.(store := None));
        }
      }
    }

    // ---- the command link

    method ProjectCommand(target: Target, snapshot: Option<Link>, inode: nat) returns (ok: bool)
      modifies this
      ensures ok == Project(old(disk), target, snapshot, inode).ok
      ensures Wrote(old(disk), old(log), Project(old(disk), target, snapshot, inode))
    {
      if !(target.Exec? && IsComplete(disk, target.id)) {
        return false;
      }
      var owner := Classify(disk.command, target);
      if owner == Owned {
        return true;
      }
      if owner == Foreign && !MatchesSnapshot(disk.command, snapshot) {
        return false;
      }
      Put(disk.(command := Some(Link(target, inode))));
      return true;
    }

    method DetachCommand(target: Target, snapshot: Option<Link>) returns (ok: bool)
      modifies this
      ensures ok == Detach(old(disk), target, snapshot).ok
      ensures Wrote(old(disk), old(log), Detach(old(disk), target, snapshot))
    {
      var owner := Classify(disk.command, target);
      if owner == Absent {
        return true;
      }
      if owner == Foreign && !MatchesSnapshot(disk.command, snapshot) {
        return false;
      }
      Put(disk.(command := None));
      return true;
    }

    method RestoreCommand(target: Target, snapshot: Option<Link>, inode: nat) returns (ok: bool)
      modifies this
      ensures ok == Restore(old(disk), target, snapshot, inode).ok
      ensures Wrote(old(disk), old(log), Restore(old(disk), target, snapshot, inode))
    {
      if MatchesSnapshot(disk.command, snapshot) {
        return true;
      }
      var owner := Classify(disk.command, target);
      if owner == Foreign {
        return false;
      }
      if owner == Owned {
        Put(disk.(command := None));
      }
      if snapshot.Some? {
        Put(disk.(command := Some(Link(snapshot.value.target, inode))));
      }
      return true;
    }

    // ---- completing a transaction

    method ClearRoot()
      modifies this
      ensures Wrote(old(disk), old(log), RemoveRoot(old(disk)))
    {
      if disk.root.Root? {
        if disk.root.rollback.Saved? {
          Put(disk.(root := Root(EmptyRollback)));
        }
        if disk.root.rollback.EmptyRollback? {
          Put(disk.(root := Root(NoRollback)));
        }
        Put(disk.(root := NoRoot));
      }
    }

    method Dispose(j: Journal, listing: seq<Id>) returns (ok: bool)
      modifies this
      ensures ok == DisposeGenerations(old(disk), j, listing).ok
      ensures Wrote(old(disk), old(log), DisposeGenerations(old(disk), j, listing))
    {
      match j.state
      case Finalized =>
        ok := SelectionReadable(disk) && disk.selector.Some? && disk.selector.value.active == j.tx && disk.store.Some?;
        if ok {
          PruneStore(Names(disk.selector.value), listing);
          PruneSucceeds(old(disk), Names(old(disk).selector.value), listing);
        }
      case RolledBack =>
        ok := true;
        if !j.Reuses() {
          ok := RemoveOne(j.tx);
        }
      case Closed => ok := true;
      case _ => ok := false;
    }

    method Cleanup(j: Journal, listing: seq<Id>) returns (ok: bool)
      modifies this
      ensures ok == FinishCleanup(old(disk), j, listing).ok
      ensures Wrote(old(disk), old(log), FinishCleanup(old(disk), j, listing))
    {
      hide DisposeGenerations, RemoveRoot;
      ghost var d, before := disk, log;
      ok := Dispose(j, listing);
      if ok {
        ghost var a := DisposeGenerations(d, j, listing);
        ghost var e := disk;
        ClearRoot();
        ghost var r := RemoveRoot(e);
        Put(disk.(journal := None));
        assert log == before + (a.states + (r.states + [disk]));
      }
    }

    method CompleteWith(j: Journal, outcome: JournalState, listing: seq<Id>) returns (ok: bool)
      modifies this
      ensures ok == CompleteTransaction(old(disk), j, outcome, listing).ok
      ensures Wrote(old(disk), old(log), CompleteTransaction(old(disk), j, outcome, listing))
    {
      hide FinishCleanup;
      ghost var d, before := disk, log;
      var k := j.(state := outcome);
      Put(disk.(journal := Some(k)));
      ok := Cleanup(k, listing);
      ghost var c := FinishCleanup(d.(journal := Some(k)), k, listing);
      assert log == before + ([d.(journal := Some(k))] + c.states);
    }

    // ---- the two directions

    method TakeBack(tx: Id, prior: Option<Selection>, snapshot: Option<Link>) returns (ok: bool)
      modifies this
      ensures ok == Unselect(old(disk), tx, prior, snapshot).ok
      ensures Wrote(old(disk), old(log), Unselect(old(disk), tx, prior, snapshot))
    {
      hide Detach;
      ghost var d, before := disk, log;
      ok := DetachCommand(Exec(tx), snapshot);
      if ok {
        ghost var a := Detach(d, Exec(tx), snapshot);
        ghost var e := disk;
        if prior.None? {
          Put(disk.(selector := None));
          assert log == before + (a.states + ClearSelector(e).states);
        } else {
          ok := SelectPair(prior.value);
          assert log == before + (a.states + Select(e, prior.value).states);
        }
      }
    }

    method RestoreProjection(j: Journal, prior: Option<Selection>, inode: nat) returns (ok: bool)
      modifies this
      ensures ok == RestorePrior(old(disk), j, prior, inode).ok
      ensures Wrote(old(disk), old(log), RestorePrior(old(disk), j, prior, inode))
    {
      hide Unselect, Restore, ControlTarget;
      ghost var d, before := disk, log;
      var candidate := Selection(j.tx, if prior.Some? then Some(prior.value.active) else None);
      if !SelectionReadable(disk) || (disk.selector != prior && disk.selector != Some(candidate)) {
        return false;
      }
      if !(disk.root.Root? && disk.root.rollback.Saved?) {
        return false;
      }
      var snapshot := disk.root.rollback.link;
      ghost var a := if d.selector == prior then Nothing else Unselect(d, j.tx, prior, snapshot);
      if disk.selector != prior {
        ok := TakeBack(j.tx, prior, snapshot);
        if !ok {
          return false;
        }
      }
      if !ControlReadable(disk) {
        return false;
      }
      ghost var e := disk;
      ok := RestoreCommand(Control(disk), snapshot, inode);
      ghost var r := Restore(e, Control(e), snapshot, inode);
      assert log == before + (a.states + r.states);
    }

    method RetainSelection(j: Journal) returns (ok: bool)
      modifies this
      ensures ok == SelectRetention(old(disk), j).ok && Wrote(old(disk), old(log), SelectRetention(old(disk), j))
    {
      var sel := if j.isFresh || j.prior.None? then Selection(j.tx, None) else j.Candidate();
      ok := false;
      if sel.predecessor.Some? ==> sel.predecessor.value in Gens(disk) {
        ok := SelectPair(sel);
      }
      if !ok {
        Put(disk.(journal := Some(j.(state := RecoveryRequired(Activated)))));
      }
    }

    method CloseAsFinalized(j: Journal, binds: bool, listing: seq<Id>) returns (ok: bool)
      modifies this
      ensures ok == CloseFinalized(old(disk), j, binds, listing).ok
      ensures Wrote(old(disk), old(log), CloseFinalized(old(disk), j, binds, listing))
    {
      hide SelectRetention, CompleteTransaction;
      ghost var d, before := disk, log;
      ok := RetainSelection(j);
      if !ok || !ControlReadable(disk) || !binds {
        return false;
      }
      ghost var a := SelectRetention(d, j);
      ghost var e := disk;
      ok := CompleteWith(j, Finalized, listing);
      assert log == before + (a.states + CompleteTransaction(e, j, Finalized, listing).states);
    }

    method RecordInstallation(j: Journal, binds: bool, listing: seq<Id>) returns (ok: bool)
      modifies this
      ensures ok == FinalizeInstallation(old(disk), j, binds, listing).ok
      ensures Wrote(old(disk), old(log), FinalizeInstallation(old(disk), j, binds, listing))
    {
      hide CloseFinalized;
      ghost var d, before := disk, log;
      Put(disk.(installed := Some(Installed(j.tx, j.payload))));
      ghost var e := disk;
      ok := CloseAsFinalized(j, binds, listing);
      assert log == before + ([e] + CloseFinalized(e, j, binds, listing).states);
    }

    // ---- recovery

    ghost predicate Ran(d: Durable, before: seq<Durable>, run: Run)
      reads this
    {
      Wrote(d, before, Writes(run.states, true))
    }

    /** The recovery of a transaction begun in `b`: the verdict is the judged one, every state it
        writes keeps the invariant and is bound for the same end, and the last one is that end; where
        the supervisor cannot be bound it is only cut short. */
    method RecoverTransaction(env: Env, ghost b: Durable) returns (verdict: Verdict)
      requires Inv(b, disk) && disk.journal.Some? && Covers(env.listing, disk)
      modifies this
      ensures |old(log)| <= |log| && log[..|old(log)|] == old(log)
      ensures env.binds ==> verdict == Judge(b, old(disk), env.runtime)
      ensures env.binds ==> Reaches(b, old(disk), Run(log[|old(log)|..], verdict), env.runtime)
      ensures forall s :: s in log[|old(log)|..] ==>
        if s.journal.Some? then OnTheWay(b, old(disk), s, env.runtime)
        else Judge(b, old(disk), env.runtime).Ends?
             && EndsAtomically(b, s, old(disk).journal.value.(state := Judge(b, old(disk), env.runtime).state))
    {
      hide Recover, Inv, Covers, Judge, OnTheWay, EndsAtomically, FinalTarget, FinalInstalled;
      RecoverReaches(b, disk, env.(binds := true));
      ghost var d, before := disk, log;
      verdict := RecoverPayload(env);
      assert log[|before|..] == Recover(d, env).states;
      forall s | s in log[|before|..] ensures s in Recover(d, env.(binds := true)).states {
        BindingOnlyInterrupts(d, env, s);
      }
      assert env.binds ==> env.(binds := true) == env;
    }

    method RecoverPayload(env: Env) returns (verdict: Verdict)
      modifies this
      ensures verdict == Recover(old(disk), env).verdict && Ran(old(disk), old(log), Recover(old(disk), env))
    {
      hide FinishCleanup, CompleteTransaction, CloseFinalized, RecoverServing, RollbackMaterialized,
           RestorePriorGeneration;
      if disk.root.NoRoot? && disk.journal.None? {
        return NotRequired;
      }
      if !JournalReadable(disk) {
        return Refused;
      }
      var j := disk.journal.value;
      var ok: bool;
      if j.Terminal() {
        ok := Cleanup(j, env.listing);
        return if ok then Ends(j.state) else Refused;
      }
      if j.Phase() == Prepared {
        if disk.root != Root(NoRollback) {
          return Refused;
        }
        ok := CompleteWith(j, Closed, env.listing);
        return if ok then Ends(Closed) else Refused;
      }
      if !(IsComplete(disk, j.tx) && Gens(disk)[j.tx].payload == j.payload) {
        return Refused;
      }
      if j.Phase() == Materialized && !RuntimeMatches(env.runtime, j.payload) {
        verdict := RollBackMaterialized(j, env);
        return;
      }
      if disk.installed == Some(Installed(j.tx, j.payload)) {
        ok := CloseAsFinalized(j, env.binds, env.listing);
        return if ok then Ends(Finalized) else Refused;
      }
      if RuntimeMatches(env.runtime, j.payload) {
        verdict := AdoptServing(j, env);
        return;
      }
      if j.isFresh {
        if env.runtime != NoRuntime {
          return Refused;
        }
        verdict := RollBackMaterialized(j, env);
        return;
      }
      verdict := ReturnToPrior(j, env);
    }

    method AdoptServing(j: Journal, env: Env) returns (verdict: Verdict)
      requires !j.Terminal()
      modifies this
      ensures verdict == RecoverServing(old(disk), j, env).verdict
      ensures Ran(old(disk), old(log), RecoverServing(old(disk), j, env))
    {
      hide SelectAndProject, FinalizeInstallation;
      ghost var d, before := disk, log;
      ghost var a := if j.Phase() == Materialized then SelectAndProject(d, j, env.inode) else Nothing;
      var ok := true;
      if j.Phase() == Materialized {
        ok := ProjectCandidate(j, env.inode);
      }
      if !ok {
        return Refused;
      }
      ghost var e := disk;
      ok := RecordInstallation(j, env.binds, env.listing);
      assert log == before + (a.states + FinalizeInstallation(e, j, env.binds, env.listing).states);
      return if ok then Ends(Finalized) else Refused;
    }

    method ProjectCandidate(j: Journal, inode: nat) returns (ok: bool)
      requires !j.Terminal()
      modifies this
      ensures ok == SelectAndProject(old(disk), j, inode).ok
      ensures Wrote(old(disk), old(log), SelectAndProject(old(disk), j, inode))
    {
      hide Project, ControlTarget;
      ghost var d, before := disk, log;
      var predecessor := if j.prior.Some? && j.prior.value.active in Gens(disk)
        then Some(j.prior.value.active) else None;
      ok := SelectPair(Selection(j.tx, predecessor));
      if !ok || !ControlReadable(disk) || !(disk.root.Root? && disk.root.rollback.Saved?) {
        return false;
      }
      ghost var e := disk;
      ok := ProjectCommand(Control(disk), disk.root.rollback.link, inode);
      assert log == before + ([e] + Project(e, Control(e), e.root.rollback.link, inode).states);
    }

    method RollBackMaterialized(j: Journal, env: Env) returns (verdict: Verdict)
      modifies this
      ensures verdict == RollbackMaterialized(old(disk), j, env).verdict
      ensures Ran(old(disk), old(log), RollbackMaterialized(old(disk), j, env))
    {
      hide RestorePrior, CompleteTransaction, RestorePriorGeneration, ControlTarget;
      ghost var d, before := disk, log;
      var ok: bool;
      if !SelectionReadable(disk) {
        return Refused;
      }
      if j.Reuses() {
        if disk.selector == j.prior && disk.root == Root(NoRollback) {
          if !UnchangedPriorTerminal(disk, j.prior.value.active, env.runtime) {
            return Refused;
          }
          ok := CompleteWith(j, RolledBack, env.listing);
          return if ok then Ends(RolledBack) else Refused;
        }
        verdict := ReturnToPrior(j, env);
        return;
      }
      ok := RestoreProjection(j, j.prior, env.inode);
      if !ok || (j.prior.Some? && !(ControlReadable(disk) && env.binds)) {
        return Refused;
      }
      ghost var a := RestorePrior(d, j, j.prior, env.inode);
      ghost var e := disk;
      ok := CompleteWith(j, RolledBack, env.listing);
      assert log == before + (a.states + CompleteTransaction(e, j, RolledBack, env.listing).states);
      return if ok then Ends(RolledBack) else Refused;
    }

    method ReturnToPrior(j: Journal, env: Env) returns (verdict: Verdict)
      modifies this
      ensures verdict == RestorePriorGeneration(old(disk), j, env).verdict
      ensures Ran(old(disk), old(log), RestorePriorGeneration(old(disk), j, env))
    {
      hide RestorePrior, CompleteTransaction, ControlTarget;
      ghost var d, before := disk, log;
      if j.prior.None? || !IsComplete(disk, j.prior.value.active) {
        return Refused;
      }
      if !RuntimeMatches(env.runtime, Gens(disk)[j.prior.value.active].payload) {
        return Refused;
      }
      var ok := RestoreProjection(j, j.prior, env.inode);
      if !ok || !ControlReadable(disk) || !env.binds {
        return Refused;
      }
      ghost var a := RestorePrior(d, j, j.prior, env.inode);
      ghost var e := disk;
      ok := CompleteWith(j, RolledBack, env.listing);
      assert log == before + (a.states + CompleteTransaction(e, j, RolledBack, env.listing).states);
      return if ok then Ends(RolledBack) else Refused;
    }
  }

  lemma {:induction false} PruneSucceeds(d: Durable, keep: set<Id>, listing: seq<Id>)
    ensures Prune(d, keep, listing).ok
    decreases |listing|
  {
    if listing == [] {
    } else if listing[0] in Gens(d) && listing[0] !in keep {
      PruneSucceeds(d.(store := Some(Gens(d) - {listing[0]})), keep, listing[1..]);
    } else {
      PruneSucceeds(d, keep, listing[1..]);
    }
  }
}
