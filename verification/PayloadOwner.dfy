/** The single-use, in-process owner of one transaction. */
module PayloadOwner {
  import opened Wrappers
  import opened PayloadState
  import opened PayloadTransaction
  import opened PayloadHost

  datatype OwnerState = In(phase: Phase) | NeedsRecovery | HasRolledBack | HasFinalized

  class Owner {
    const host: Host
    const tx: Id
    const payload: Payload
    const isFresh: bool
    const prior: Option<Selection>
    const reuses: bool
    var state: OwnerState

    /** Bind an owner to the journal that its session has just written. */
    constructor (host: Host, session: Session)
      requires session.phase == Prepared
      ensures this.host == host && state == In(Prepared) && Session() == session
    {
      this.host := host;
      tx, payload, isFresh := session.tx, session.payload, session.isFresh;
      prior, reuses := session.prior, session.reuses;
      state := In(Prepared);
    }

    ghost function Session(): Session
      requires state.In?
      reads this
    {
      PayloadTransaction.Session(tx, payload, isFresh, prior, reuses, state.phase)
    }

    method OwnJournal(forRollback: bool) returns (journal: Option<Journal>)
      ensures journal.Some? <==>
              && JournalReadable(host.disk) && host.disk.journal.value.tx == tx
              && (!host.disk.journal.value.Terminal() || (forRollback && !host.disk.journal.value.state.Finalized?))
      ensures journal.Some? ==> journal == host.disk.journal
    {
      journal := None;
      if JournalReadable(host.disk) && host.disk.journal.value.tx == tx {
        var j := host.disk.journal.value;
        if !j.Terminal() || (forRollback && !j.state.Finalized?) {
          journal := Some(j);
        }
      }
    }

    /** Materialize the candidate, or close, or undo what was written of it. */
    method CommitProjection(env: Env, fault: Fault) returns (ok: bool)
      modifies this`state, host
      ensures old(state).In? ==> var w := Commit(old(host.disk), old(Session()), env, fault);
              ok == w.ok && host.Wrote(old(host.disk), old(host.log), w)
      ensures old(state).In? ==>
        (if ok then state == In(Materialized) else state == old(state) || state == HasRolledBack)
      ensures !old(state).In? ==> !ok && state == old(state) && host.disk == old(host.disk) && host.log == old(host.log)
    {
      hide CompleteTransaction, RollBack, ControlTarget;
      if !state.In? {
        return false;
      }
      ghost var d, before, session := host.disk, host.log, Session();
      var j := OwnJournal(false);
      if state != In(Prepared) || j.None? || host.disk.root != Root(NoRollback) {
        return false;
      }
      host.Put(host.disk.(root := Root(EmptyRollback)));
      ghost var d0 := host.disk;
      var changed := reuses && !(IsComplete(host.disk, tx) && Gens(host.disk)[tx].payload == payload);
      if changed || !SelectionReadable(host.disk) || !ControlReadable(host.disk)
         || Classify(host.disk.command, Control(host.disk)) == Foreign {
        Close(env);
        assert host.log == before + ([d0] + Abandon(d0, session, env).states);
        return false;
      }
      host.Put(host.disk.(root := Root(Saved(host.disk.command))));
      ghost var d1 := host.disk;
      ok := WriteCandidate(env, fault);
      assert host.log == before + ([d0, d1] + Materialize(d1, session, env, fault).states);
    }

    method Close(env: Env)
      requires state == In(Prepared)
      modifies this`state, host
      ensures host.Wrote(old(host.disk), old(host.log), Abandon(old(host.disk), old(Session()), env))
      ensures state == HasRolledBack
    {
      var _ := host.CompleteWith(Journal(tx, payload, isFresh, prior, Working(Prepared)), Closed, env.listing);
      state := HasRolledBack;
    }

    method WriteCandidate(env: Env, fault: Fault) returns (ok: bool)
      requires state == In(Prepared)
      modifies this`state, host
      ensures var w := Materialize(old(host.disk), old(Session()), env, fault);
              ok == w.ok && host.Wrote(old(host.disk), old(host.log), w)
      ensures if ok then state == In(Materialized) else state == old(state) || state == HasRolledBack
    {
      hide CompleteTransaction, RollBack;
      ghost var d, before, session := host.disk, host.log, Session();
      if (if reuses then !fault.NoFault? else fault.BeforeWriting? || tx in Gens(host.disk)) {
        Close(env);
        return false;
      }
      if !reuses {
        var start := host.disk;
        host.Put(start.(store := Some(Gens(start)[tx := Partial])));
        if fault.WhileWriting? {
          ghost var e := host.disk;
          var _ := Rollback(env);
          assert host.log == before + ([e] + Undo(e, session, env).states);
          return false;
        }
        ghost var e := host.disk;
        host.Put(start.(store := Some(Gens(start)[tx := Generation.Complete(payload)])));
        if fault.AfterWriting? {
          ghost var f := host.disk;
          var _ := Rollback(env);
          assert host.log == before + ([e, f] + Undo(f, session, env).states);
          return false;
        }
      }
      state := In(Materialized);
      host.Put(host.disk.(journal := Some(Journal(tx, payload, isFresh, prior, Working(Materialized)))));
      return true;
    }

    method Rollback(env: Env) returns (ok: bool)
      modifies this`state, host
      ensures old(state).In? ==> var w := RollBack(old(host.disk), old(Session()), env);
              ok == w.ok && host.Wrote(old(host.disk), old(host.log), w)
      ensures old(state).In? ==> (state == if ok then HasRolledBack else old(state))
      ensures !old(state).In? ==>
        ok == (old(state) == HasRolledBack) && state == old(state) && host.disk == old(host.disk)
        && host.log == old(host.log)
    {
      hide CompleteTransaction, RestorePrior, FinishCleanup;
      if !state.In? {
        return state == HasRolledBack;
      }
      ghost var d, before := host.disk, host.log;
      var journal := OwnJournal(true);
      if journal.None? {
        return false;
      }
      var j := journal.value;
      if j.Terminal() {
        ok := host.Cleanup(j, env.listing);
      } else {
        ok := true;
        ghost var a := Nothing;
        if host.disk.root.Root? && !host.disk.root.rollback.NoRollback? {
          a := RestorePrior(d, j, prior, env.inode);
          ok := host.RestoreProjection(j, prior, env.inode);
        }
        if ok {
          ghost var e := host.disk;
          ok := host.CompleteWith(j, RolledBack, env.listing);
          assert host.log == before + (a.states + CompleteTransaction(e, j, RolledBack, env.listing).states);
        }
      }
      if ok {
        state := HasRolledBack;
      }
    }

    /** Select and project the candidate; the write numbered `stop`, if it is reached, fails. */
    method ActivateCandidate(env: Env, stop: nat) returns (ok: bool)
      modifies this`state, host
      ensures old(state).In? ==> var w := ActivateUpTo(old(host.disk), old(Session()), env, stop);
              ok == w.ok && host.Wrote(old(host.disk), old(host.log), w)
      ensures old(state).In? ==> (state == old(state) || (old(state) == In(Materialized) && state == In(Activated)))
      ensures old(state).In? ==> (ok ==> state == In(Activated))
      ensures !old(state).In? ==> !ok && state == old(state) && host.disk == old(host.disk) && host.log == old(host.log)
    {
      hide Project, ControlTarget;
      if !state.In? {
        return false;
      }
      ghost var d, before, session := host.disk, host.log, Session();
      var journal := OwnJournal(false);
      if state != In(Materialized) || journal.None? || !(host.disk.root.Root? && host.disk.root.rollback.Saved?) {
        return false;
      }
      var snapshot := host.disk.root.rollback.link;
      if stop == 0 {
        return false;
      }
      ok := host.SelectPair(Selection(tx, if prior.Some? then Some(prior.value.active) else None));
      if !ok || !ControlReadable(host.disk) {
        return false;
      }
      ghost var e := host.disk;
      ghost var p := Project(e, Control(e), snapshot, env.inode);
      var owner := Classify(host.disk.command, Control(host.disk));
      ProjectLength(e, Control(e), snapshot, env.inode);
      if stop == 1 && owner != Owned {
        assert Activate(d, session, env).states[..1] == [e] || !Activate(d, session, env).ok;
        return false;
      }
      ok := host.ProjectCommand(Control(host.disk), snapshot, env.inode);
      assert host.log == before + ([e] + p.states);
      if !ok {
        return false;
      }
      state := In(Activated);
      if stop == (if owner == Owned then 1 else 2) {
        ghost var g := host.disk.(journal := Some(JournalOf(session, Working(Activated))));
        assert Activate(d, session, env).states == ([e] + p.states) + [g];
        assert (([e] + p.states) + [g])[..stop] == [e] + p.states;
        return false;
      }
      host.Put(host.disk.(journal := Some(Journal(tx, payload, isFresh, prior, Working(Activated)))));
      assert host.log == before + (([e] + p.states) + [host.disk]);
      return true;
    }

    method FinalizeCandidate(env: Env) returns (ok: bool)
      modifies this`state, host
      ensures old(state).In? ==> var w := Finalize(old(host.disk), old(Session()), env);
              ok == w.ok && host.Wrote(old(host.disk), old(host.log), w)
      ensures old(state).In? ==> (ok ==> state == HasFinalized)
      ensures old(state).In? ==>
        (!ok ==>
           state == if Finalize(old(host.disk), old(Session()), env).states == [] then old(state) else NeedsRecovery)
      ensures !old(state).In? ==> !ok && state == old(state) && host.disk == old(host.disk) && host.log == old(host.log)
    {
      hide FinalizeInstallation;
      if !state.In? {
        return false;
      }
      ghost var d := host.disk;
      var journal := OwnJournal(false);
      if state != In(Activated) || journal.None? {
        return false;
      }
      RecordsFirst(d, journal.value, env.listing);
      ok := host.RecordInstallation(journal.value, true, env.listing);
      state := if ok then HasFinalized else NeedsRecovery;
    }

    method PreserveForRecovery() returns (ok: bool)
      modifies this`state, host
      ensures old(state).In? ==> var w := Preserve(old(host.disk), old(Session()));
              ok == w.ok && host.Wrote(old(host.disk), old(host.log), w)
      ensures old(state).In? ==> (state == if ok then NeedsRecovery else old(state))
      ensures !old(state).In? ==> !ok && state == old(state) && host.disk == old(host.disk) && host.log == old(host.log)
    {
      if !state.In? {
        return false;
      }
      var journal := OwnJournal(false);
      if state == In(Prepared) || journal.None? {
        return false;
      }
      var phase := state.phase;
      state := NeedsRecovery;
      host.Put(host.disk.(journal := Some(Journal(tx, payload, isFresh, prior, RecoveryRequired(phase)))));
      return true;
    }
  }

  lemma RecordsFirst(d: Durable, j: Journal, listing: seq<Id>)
    ensures FinalizeInstallation(d, j, true, listing).states != []
  {
    hide CloseFinalized;
  }

  lemma ProjectLength(d: Durable, target: Target, snapshot: Option<Link>, inode: nat)
    ensures var p := Project(d, target, snapshot, inode);
            |p.states| == if p.ok && Classify(d.command, target) != Owned then 1 else 0
  {
  }
}
