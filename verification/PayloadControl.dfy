/** Which generation owns lifecycle control: the newest selected one, where versions compare component
    by component; and what admission makes of that over whole runs. */
module PayloadControl {
  import opened Wrappers
  import opened PayloadState
  import opened PayloadTransaction
  import opened PayloadSafety
  import opened PayloadRecovery
  import opened PayloadRuns
  import opened PayloadProperties
  import opened PayloadFinality
  import opened PayloadWitnesses

  function Components(v: Version): seq<nat> {
    [v.major, v.minor, v.patch]
  }

  /** The first component in which two versions differ is greater in the first. */
  ghost predicate Exceeds(a: Version, b: Version) {
    exists i :: 0 <= i < 3 && Components(a)[i] > Components(b)[i] && Components(a)[..i] == Components(b)[..i]
  }

  lemma NewerIffExceeds(a: Version, b: Version)
    ensures Newer(a, b) <==> Exceeds(a, b)
  {
    var x, y := Components(a), Components(b);
    assert x[..0] == y[..0] && x[..1] == [a.major] && y[..1] == [b.major];
    assert x[..2] == [a.major, a.minor] && y[..2] == [b.major, b.minor];
    if Exceeds(a, b) {
      var i :| 0 <= i < 3 && x[i] > y[i] && x[..i] == y[..i];
      assert i == 2 ==> x[..2][0] == y[..2][0] && x[..2][1] == y[..2][1];
      assert i == 1 ==> x[..1][0] == y[..1][0];
    } else {
      assert !(x[0] > y[0]) && !(x[1] > y[1] && x[..1] == y[..1]) && !(x[2] > y[2] && x[..2] == y[..2]);
    }
  }

  lemma OneExceeds(a: Version, b: Version)
    ensures !(Exceeds(a, b) && Exceeds(b, a)) && (Exceeds(a, b) || Exceeds(b, a) || a == b)
  {
    NewerIffExceeds(a, b);
    NewerIffExceeds(b, a);
  }

  lemma ExceedsTrans(a: Version, b: Version, c: Version)
    ensures Exceeds(a, b) && (Exceeds(b, c) || b == c) ==> Exceeds(a, c)
    ensures Exceeds(a, b) && !Exceeds(c, b) ==> Exceeds(a, c)
  {
    NewerIffExceeds(a, b);
    NewerIffExceeds(b, c);
    NewerIffExceeds(a, c);
    NewerIffExceeds(c, b);
  }

  function VersionOf(d: Durable, id: Id): Version
    requires IsComplete(d, id)
  {
    Gens(d)[id].payload.version
  }

  /** Control lies with a selected generation whose version no other selected one exceeds; the active
      one has it unless the predecessor's version exceeds its own. */
  lemma ControlIsNewest(d: Durable)
    requires ControlReadable(d) && d.selector.Some?
    ensures Control(d).Exec? && Control(d).id in SelectedNames(d.selector)
    ensures forall id :: id in SelectedNames(d.selector) ==> !Exceeds(VersionOf(d, id), VersionOf(d, Control(d).id))
    ensures var sel := d.selector.value;
      Control(d).id == sel.active <==>
      sel.predecessor.None? || sel.predecessor == Some(sel.active)
      || !Exceeds(VersionOf(d, sel.predecessor.value), VersionOf(d, sel.active))
  {
    hide Newer, Exceeds;
    var sel := d.selector.value;
    OneExceeds(VersionOf(d, sel.active), VersionOf(d, sel.active));
    if sel.predecessor.Some? {
      var p := sel.predecessor.value;
      NewerIffExceeds(VersionOf(d, p), VersionOf(d, sel.active));
      OneExceeds(VersionOf(d, p), VersionOf(d, sel.active));
      OneExceeds(VersionOf(d, p), VersionOf(d, p));
    }
  }

  /** A release is admitted over an installed one exactly when its version exceeds that of every
      selected generation; a downgrade and a replay are refused. */
  lemma AdmitsExactlyNewer(d: Durable, payload: Payload)
    requires BaseOk(d) && d.installed.Some? && d.selector.Some?
    ensures AdmitsInstall(d, payload) <==>
      forall id :: id in SelectedNames(d.selector) ==> Exceeds(payload.version, VersionOf(d, id))
  {
    hide Newer, Exceeds;
    ControlIsNewest(d);
    var c := Control(d).id;
    NewerIffExceeds(payload.version, VersionOf(d, c));
    forall id | id in SelectedNames(d.selector)
      ensures Exceeds(payload.version, VersionOf(d, c)) ==> Exceeds(payload.version, VersionOf(d, id))
    {
      ExceedsTrans(payload.version, VersionOf(d, c), VersionOf(d, id));
    }
  }

  /** The same for any state at all: an installation is admitted exactly when nothing is under way, what is
      selected is there, and either nothing is recorded and no store is left without a selection, or what is
      recorded is selected, complete and exceeded. */
  lemma AdmitsInstallIff(d: Durable, payload: Payload)
    ensures AdmitsInstall(d, payload) <==>
      && d.journal.None? && d.root.NoRoot? && (forall id :: id in SelectedNames(d.selector) ==> id in Gens(d))
      && (if d.installed.None? then d.selector.None? ==> d.store.None?
          else
            && d.selector.Some?
            && forall id :: id in SelectedNames(d.selector) ==>
                 IsComplete(d, id) && Exceeds(payload.version, VersionOf(d, id)))
  {
    if d.selector.Some? && ControlReadable(d) {
      ControlIsNewest(d);
      var control := VersionOf(d, Control(d).id);
      forall id | id in SelectedNames(d.selector)
        ensures Exceeds(payload.version, control) ==> Exceeds(payload.version, VersionOf(d, id))
      {
        ExceedsTrans(payload.version, control, VersionOf(d, id));
      }
      NewerIffExceeds(payload.version, control);
    }
  }

  /** A return is admitted exactly when the store holds the two selected generations and no other, both complete,
      and the active one is recorded. */
  lemma AdmitsReverseIff(d: Durable)
    ensures AdmitsReverse(d) <==>
      && d.journal.None? && d.root.NoRoot? && d.selector.Some? && d.selector.value.predecessor.Some? && d.store.Some?
      && (forall id :: id in d.store.value <==> id in [d.selector.value.active, d.selector.value.predecessor.value])
      && (forall id :: id in d.store.value ==> d.store.value[id].Complete?)
      && d.installed ==
         Some(Installed(d.selector.value.active, d.store.value[d.selector.value.active].payload))
  {
    if d.selector.Some? && d.selector.value.predecessor.Some? && d.store.Some? {
      assert d.store.value.Keys == Names(d.selector.value) <==>
        forall id :: id in d.store.value <==> id in [d.selector.value.active, d.selector.value.predecessor.value];
    }
  }

  lemma AdmitsFresh(d: Durable, payload: Payload)
    requires BaseOk(d) && d.selector.None?
    ensures AdmitsInstall(d, payload) <==> d.installed.None?
  {
  }

  /** Finalizing an admitted forward transaction leaves control with its candidate. */
  lemma ForwardControls(b: Durable, e: Durable, j: Journal)
    requires BaseOk(b) && BegunIn(b, j) && !j.Reuses() && j.state.Finalized? && EndsAtomically(b, e, j)
    requires AdmitsInstall(b, j.payload) && (b.selector.Some? ==> b.installed.Some?)
    ensures ControlReadable(e) && Control(e) == Exec(j.tx)
  {
    hide Newer, Exceeds, CandidateControl, CommandMaterialized;
    CandidateDistinct(b, j);
    assert ControlReadable(e);
    ControlIsNewest(e);
    if b.selector.Some? {
      AdmitsExactlyNewer(b, j.payload);
      var p := b.selector.value.active;
      assert Exceeds(j.payload.version, VersionOf(b, p));
      OneExceeds(j.payload.version, VersionOf(b, p));
    }
  }

  // ---- over runs

  /** A selection always has an installed record beside it, and the open forward transaction was
      admitted on the state it began in. */
  ghost predicate Admitted(sys: System) {
    && (sys.base.selector.Some? ==> sys.base.installed.Some?)
    && (WithinTransaction(sys) && !sys.disk.journal.value.Reuses() ==>
          AdmitsInstall(sys.base, sys.disk.journal.value.payload))
  }

  lemma EndsRecorded(b: Durable, e: Durable, k: Journal)
    requires BaseOk(b) && EndsAtomically(b, e, k) && (b.selector.Some? ==> b.installed.Some?)
    ensures e.selector.Some? ==> e.installed.Some?
  {
    hide CandidateControl, CommandMaterialized, ClosedStore;
  }

  lemma AdmittedStep(sys: System, ev: Event, next: System)
    requires SysInv(sys) && Admitted(sys) && Step(sys, ev, next)
    ensures Admitted(next)
  {
    hide Inv, BaseOk, AllReached, StatesOf, Enabled, SessionAfter, SessionOk, EndsAtomically, AdmitsInstall;
    if WithinTransaction(sys) {
      if ev.writes > 0 {
        var j := sys.disk.journal.value;
        StatesReached(sys, ev);
        AllReachedAt(sys.base, j, StatesOf(sys, ev), ev.writes - 1);
        ReachedEnds(sys.base, j, next.disk);
        InvParts(sys.base, sys.disk);
        if next.disk.journal.None? {
          var k :| SameTransaction(j, k) && EndsAtomically(sys.base, next.disk, k);
          EndsRecorded(sys.base, next.disk, k);
        } else {
          SameCandidate(j, next.disk.journal.value);
        }
      }
    } else {
      BeginAdmitted(sys, ev, next);
    }
  }

  lemma BeginAdmitted(sys: System, ev: Event, next: System)
    requires SysInv(sys) && Admitted(sys) && Step(sys, ev, next) && !WithinTransaction(sys)
    ensures Admitted(next)
  {
    hide Inv, BaseOk, Recover, AdmitsInstall, Covers, Unused, ControlReadable;
    AdmitsIdle(sys.disk, if ev.action.BeginInstall? then ev.action.payload else Payload(Version(0, 0, 0), 0));
    if ev.action.RecoverTransaction? {
      RecoverWithoutJournal(sys.disk, ev.env);
    }
  }

  lemma {:induction false} RunAdmitted(run: seq<System>, events: seq<Event>, i: nat)
    requires IsRun(run, events) && SysInv(run[0]) && Admitted(run[0]) && i < |run|
    ensures Admitted(run[i])
  {
    hide Step, SysInv, Admitted;
    if i > 0 {
      RunAdmitted(run, events, i - 1);
      RunKeeps(run, events, i - 1);
      AdmittedStep(run[i - 1], events[i - 1], run[i]);
    }
  }

  /** In every run a forward transaction that ends with its candidate selected leaves lifecycle
      control, the target of later links, with that candidate. */
  lemma FinalizedControls(run: seq<System>, events: seq<Event>, i: nat)
    requires IsRun(run, events) && SysInv(run[0]) && Admitted(run[0]) && i + 1 < |run|
    requires WithinTransaction(run[i]) && !run[i].disk.journal.value.Reuses() && Idle(run[i + 1].disk)
    requires run[i + 1].disk.selector == Some(run[i].disk.journal.value.Candidate())
    ensures ControlReadable(run[i + 1].disk) && Control(run[i + 1].disk) == Exec(run[i].disk.journal.value.tx)
  {
    hide Inv, BaseOk, AllReached, StatesOf, Enabled, SessionAfter, SessionOk, EndsAtomically, ClosedStore,
         AdmitsInstall;
    var b, j, e := run[i].base, run[i].disk.journal.value, run[i + 1].disk;
    RunKeeps(run, events, i);
    RunAdmitted(run, events, i);
    InvParts(b, run[i].disk);
    EndsAllOrNothing(run, events, i);
    var k :| SameTransaction(j, k) && EndsAtomically(b, e, k);
    SameBegun(b, j, k);
    CandidateIsNotPrior(b, j);
    EndsWithCandidate(b, e, k);
    ForwardControls(b, e, k);
  }

  lemma EndsWithCandidate(b: Durable, e: Durable, k: Journal)
    requires EndsAtomically(b, e, k) && b.selector != Some(k.Candidate()) && e.selector == Some(k.Candidate())
    ensures k.state.Finalized?
  {
    hide ClosedStore, CandidateControl, FinalizedOk;
  }

  lemma EmptyHostAdmitted()
    ensures Admitted(System(EmptyHost, EmptyHost, None))
  {
  }

  // ---- where only the patch number grows

  const Patch3 := Payload(Version(1, 2, 3), 1)
  const Patch4 := Payload(Version(1, 2, 4), 2)

  lemma PatchBegins(b: Durable)
    requires Standing(b, Selection(1, None), map[1 := Complete(Patch3)], Exec(1), Installed(1, Patch3))
    ensures Begins(b, InstallSession(b, 2, Patch4), BeginInstall(2, Patch4), Quiet)
    ensures CandidateControl(b, JournalOf(InstallSession(b, 2, Patch4), Finalized)) == Exec(2)
    ensures !AdmitsInstall(b, Patch3) && !AdmitsInstall(b, Payload(Version(1, 2, 2), 3))
  {
    assert Control(b) == Exec(1);
  }

  /** Over 1.2.3, release 1.2.4 is admitted, goes through, and has the link and control. */
  lemma PatchUpgrade(b: Durable) returns (run: seq<System>, events: seq<Event>, e: Durable)
    requires Standing(b, Selection(1, None), map[1 := Complete(Patch3)], Exec(1), Installed(1, Patch3))
    ensures IsRun(run, events) && run[0] == System(b, b, None) && run[|events|] == System(e, e, None)
    ensures e.selector == Some(Selection(2, Some(1))) && TargetOf(e.command) == Some(Exec(2))
    ensures ControlReadable(e) && Control(e) == Exec(2)
  {
    hide IsRun, Begins, EndsAtomically, CandidateControl;
    PatchBegins(b);
    var s := InstallSession(b, 2, Patch4);
    run, events, e := GoesThrough(b, s, BeginInstall(2, Patch4), Quiet);
    EndsStanding(b, e, s, map[1 := Complete(Patch3), 2 := Complete(Patch4)], Exec(2));
  }
}
