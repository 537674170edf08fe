/** Runs in which a promise fails, from an empty host where runs alone lead there. */
module PayloadWitnesses {
  import opened Wrappers
  import opened PayloadState
  import opened PayloadTransaction
  import opened PayloadSafety
  import opened PayloadRecovery
  import opened PayloadRuns
  import opened PayloadProperties
  import opened PayloadFinality
  import opened Deployment

  // ---- putting runs together

  lemma JoinRuns(first: seq<System>, events: seq<Event>, second: seq<System>,
                 more: seq<Event>) returns (run: seq<System>)
    requires IsRun(first, events) && IsRun(second, more) && first[|events|] == second[0]
    ensures IsRun(run, events + more) && run[0] == first[0] && run[|events + more|] == second[|more|]
    ensures first <= run
  {
    hide Step;
    run := first + second[1..];
    forall i | 0 <= i < |events + more| ensures Step(run[i], (events + more)[i], run[i + 1]) {
      if i < |events| {
        assert Step(first[i], events[i], first[i + 1]);
      } else {
        var k := i - |events|;
        assert Step(second[k], more[k], second[k + 1]);
      }
    }
  }

  lemma OneStep(sys: System, ev: Event, next: System)
    requires Step(sys, ev, next)
    ensures IsRun([sys, next], [ev])
  {
    hide Step;
  }

  // ---- a transaction that goes through

  /** A transaction that may begin on an idle host whose link, if any, leads to its control. */
  ghost predicate Begins(b: Durable, s: Session, begin: Action, env: Env) {
    && BaseOk(b) && SnapshotOk(b) && s.phase == Prepared && s.tx in env.listing && Covers(env.listing, b)
    && BegunIn(b, JournalOf(s, Working(Prepared))) && s.reuses == JournalOf(s, Working(Prepared)).Reuses()
    && match begin
       case BeginInstall(tx, payload) =>
         AdmitsInstall(b, payload) && Unused(b, tx, payload) && s == InstallSession(b, tx, payload)
       case BeginReverse => AdmitsReverse(b) && s == ReverseSession(b)
       case _ => false
  }

  ghost function Begun(b: Durable, s: Session): Durable {
    b.(root := Root(NoRollback), journal := Some(JournalOf(s, Working(Prepared))))
  }

  lemma BeginGoes(b: Durable, s: Session, begin: Action, env: Env)
    requires Begins(b, s, begin, env)
    ensures Step(System(b, b, None), Event(begin, env, 2), System(b, Begun(b, s), Some(s)))
    ensures Holds(b, Begun(b, s), s) && !Begun(b, s).journal.value.Terminal() && Begun(b, s).root == Root(NoRollback)
  {
    hide BegunIn, ClosedStore, SnapshotOk, Newer, AdmitsInstall, AdmitsReverse, Unused, Covers;
    BeginReached(b, s);
    assert Begin(b, s).states == [b.(root := Root(NoRollback)), Begun(b, s)];
    BegunUnrecorded(b, JournalOf(s, Working(Prepared)));
  }

  lemma CommitGoes(b: Durable, s: Session, begin: Action, env: Env)
    requires Begins(b, s, begin, env)
    ensures var d := Begun(b, s); var w := Commit(d, s, env, NoFault);
      w.ok && w.states != [] && Holds(b, Last(d, w), s.(phase := Materialized)) && !Last(d, w).journal.value.Terminal()
      && Last(d, w).command == b.command && Last(d, w).selector == b.selector
      && Last(d, w).journal == Some(JournalOf(s, Working(Materialized)))
  {
    hide BegunIn, ClosedStore, Newer, AdmitsInstall, AdmitsReverse, Unused, CompleteTransaction, RollBack, Inv;
    var d := Begun(b, s);
    BeginGoes(b, s, begin, env);
    HeldFacts(b, d, s);
    BegunFacts(b, d.journal.value);
    var d0 := d.(root := Root(EmptyRollback));
    SnapshotTaken(b, d0, d.journal.value);
    CommitEnds(b, d, s, env, NoFault);
  }

  /** Begun and materialized, with the owner still there or not. */
  lemma Materializes(b: Durable, s: Session, begin: Action, env: Env,
                     left: Option<Session>) returns (run: seq<System>, events: seq<Event>, e: Durable)
    requires Begins(b, s, begin, env) && (left == None || left == Some(s.(phase := Materialized)))
    ensures IsRun(run, events) && run[0] == System(b, b, None) && run[|events|] == System(b, e, left)
    ensures Holds(b, e, s.(phase := Materialized)) && e.journal == Some(JournalOf(s, Working(Materialized)))
    ensures e.command == b.command && e.selector == b.selector
  {
    hide BegunIn, BaseOk, SnapshotOk, AdmitsInstall, AdmitsReverse, Unused, Inv, Commit, Holds;
    BeginGoes(b, s, begin, env);
    CommitGoes(b, s, begin, env);
    var d := Begun(b, s);
    var w := Commit(d, s, env, NoFault);
    e := Last(d, w);
    OneStep(System(b, b, None), Event(begin, env, 2), System(b, d, Some(s)));
    assert Step(System(b, d, Some(s)), Event(CommitProjection(NoFault), env, |w.states|), System(b, e, left));
    OneStep(System(b, d, Some(s)), Event(CommitProjection(NoFault), env, |w.states|), System(b, e, left));
    run := JoinRuns([System(b, b, None), System(b, d, Some(s))], [Event(begin, env, 2)],
                    [System(b, d, Some(s)), System(b, e, left)], [Event(CommitProjection(NoFault), env, |w.states|)]);
    events := [Event(begin, env, 2)] + [Event(CommitProjection(NoFault), env, |w.states|)];
  }

  /** Activated, with the owner still there or not; the link leads to the candidate's control. */
  lemma Activates(b: Durable, s: Session, begin: Action, env: Env,
                  left: Option<Session>) returns (run: seq<System>, events: seq<Event>, g: Durable)
    requires Begins(b, s, begin, env) && (left == None || left == Some(s.(phase := Activated)))
    ensures IsRun(run, events) && run[0] == System(b, b, None) && run[|events|] == System(b, g, left)
    ensures Holds(b, g, s.(phase := Activated)) && g.journal == Some(JournalOf(s, Working(Activated)))
    ensures g.selector == Some(g.journal.value.Candidate())
    ensures TargetOf(g.command) == Some(CandidateControl(b, g.journal.value))
    ensures TargetOf(b.command) == Some(CandidateControl(b, g.journal.value)) ==> g.command == b.command
  {
    hide BegunIn, BaseOk, SnapshotOk, AdmitsInstall, AdmitsReverse, Unused, Inv, Activate, CandidateControl, Project,
         SessionOk, Begins;
    var e: Durable;
    var s2 := s.(phase := Materialized);
    run, events, e := Materializes(b, s, begin, env, Some(s2));
    ActivateEnds(b, e, s2, env);
    var w := Activate(e, s2, env);
    g := Last(e, w);
    SameControl(b, e.journal.value, g.journal.value);
    ActivatedHolds(b, g, s2);
    assert Step(System(b, e, Some(s2)), Event(ActivateCandidate, env, |w.states|), System(b, g, left)) by {
      MaterializedCovers(b, e, s, begin, env);
    }
    OneStep(System(b, e, Some(s2)), Event(ActivateCandidate, env, |w.states|), System(b, g, left));
    run := JoinRuns(run, events, [System(b, e, Some(s2)), System(b, g, left)],
                    [Event(ActivateCandidate, env, |w.states|)]);
    events := events + [Event(ActivateCandidate, env, |w.states|)];
  }

  lemma SameControl(b: Durable, j: Journal, k: Journal)
    requires SameTransaction(j, k)
    ensures CandidateControl(b, j) == CandidateControl(b, k) && j.Candidate() == k.Candidate()
  {
  }

  lemma MaterializedCovers(b: Durable, e: Durable, s: Session, begin: Action, env: Env)
    requires Begins(b, s, begin, env) && Holds(b, e, s.(phase := Materialized)) && !e.journal.value.Terminal()
    ensures Covers(env.listing, e)
  {
    hide Inv, BegunIn, BaseOk, SnapshotOk, AdmitsInstall, AdmitsReverse, Unused;
    CoversCandidate(b, e, s.(phase := Materialized), env.listing);
  }

  lemma {:induction false} CloseKeepsLink(d: Durable, j: Journal, listing: seq<Id>)
    ensures Last(d, FinalizeInstallation(d, j, true, listing)).command == d.command
  {
    hide CompleteTransaction, ControlTarget;
    var e := d.(installed := Some(Installed(j.tx, j.payload)));
    var a := SelectRetention(e, j);
    CompleteFrame(Last(e, a), j, Finalized, listing);
    var c := CompleteTransaction(Last(e, a), j, Finalized, listing);
    assert c.states != [] ==> c.states[|c.states| - 1] in c.states;
  }

  /** A whole transaction that goes through, as a run. */
  lemma GoesThrough(b: Durable, s: Session, begin: Action, env: Env)
    returns (run: seq<System>, events: seq<Event>, e: Durable)
    requires Begins(b, s, begin, env)
    ensures IsRun(run, events) && run[0] == System(b, b, None) && run[|events|] == System(e, e, None)
    ensures EndsAtomically(b, e, JournalOf(s, Finalized))
    ensures TargetOf(e.command) == Some(CandidateControl(b, JournalOf(s, Finalized)))
  {
    hide BegunIn, BaseOk, SnapshotOk, AdmitsInstall, AdmitsReverse, Unused, Inv, CandidateControl, SessionOk, Begins,
         FinalizeInstallation,
         EndsAtomically;
    var g: Durable;
    var s3 := s.(phase := Activated);
    run, events, g := Activates(b, s, begin, env, Some(s3));
    ActivatedCovers(b, g, s, begin, env);
    FinalizeEnds(b, g, s3, env);
    var w := Finalize(g, s3, env);
    e := Last(g, w);
    CloseKeepsLink(g, g.journal.value, env.listing);
    SameControl(b, g.journal.value, JournalOf(s, Finalized));
    HeldFacts(b, g, s3);
    EndsIdle(b, e, JournalOf(s, Finalized));
    assert Step(System(b, g, Some(s3)), Event(FinalizeCandidate, env, |w.states|), System(e, e, None));
    OneStep(System(b, g, Some(s3)), Event(FinalizeCandidate, env, |w.states|), System(e, e, None));
    run := JoinRuns(run, events, [System(b, g, Some(s3)), System(e, e, None)],
                    [Event(FinalizeCandidate, env, |w.states|)]);
    events := events + [Event(FinalizeCandidate, env, |w.states|)];
  }

  lemma EndsIdle(b: Durable, e: Durable, j: Journal)
    requires EndsAtomically(b, e, j)
    ensures Idle(e)
  {
  }

  lemma ActivatedCovers(b: Durable, g: Durable, s: Session, begin: Action, env: Env)
    requires Begins(b, s, begin, env) && Holds(b, g, s.(phase := Activated)) && !g.journal.value.Terminal()
    ensures Covers(env.listing, g)
  {
    hide Inv, BegunIn, BaseOk, SnapshotOk, AdmitsInstall, AdmitsReverse, Unused;
    CoversCandidate(b, g, s.(phase := Activated), env.listing);
  }

  // ---- concrete hosts

  const V1 := Payload(Version(1, 0, 0), 1)
  const V2 := Payload(Version(2, 0, 0), 2)
  const V3 := Payload(Version(3, 0, 0), 3)

  const Gen1: map<Id, Generation> := map[1 := Complete(V1)]
  const Gen12: map<Id, Generation> := map[1 := Complete(V1), 2 := Complete(V2)]

  const Quiet := Env(NoRuntime, true, 7, [1, 2, 3])

  /** An idle host with this selection, these generations, this link target and the active one recorded. */
  ghost predicate Standing(d: Durable, sel: Selection, gens: map<Id, Generation>, target: Target,
                           installed: Installed) {
    d == Durable(None, NoRoot, Some(gens), Some(sel), d.command, Some(installed)) && TargetOf(d.command) == Some(target)
  }

  lemma EndsStanding(b: Durable, e: Durable, s: Session, gens: map<Id, Generation>, target: Target)
    requires EndsAtomically(b, e, JournalOf(s, Finalized)) && TargetOf(e.command) == Some(target)
    requires gens.Keys == Names(JournalOf(s, Finalized).Candidate())
    requires forall id ::
      id in gens ==> id in Gens(b)[s.tx := Complete(s.payload)] && gens[id] == Gens(b)[s.tx := Complete(s.payload)][id]
    ensures Standing(e, JournalOf(s, Finalized).Candidate(), gens, target, Installed(s.tx, s.payload))
  {
    hide CommandMaterialized;
    assert e.store.value == gens;
  }

  lemma FirstBegins()
    ensures Begins(EmptyHost, InstallSession(EmptyHost, 1, V1), BeginInstall(1, V1), Quiet)
    ensures CandidateControl(EmptyHost, JournalOf(InstallSession(EmptyHost, 1, V1), Finalized)) == Exec(1)
  {
  }

  /** The first release is installed. */
  lemma InstallsFirst() returns (run: seq<System>, events: seq<Event>, e: Durable)
    ensures IsRun(run, events) && run[0] == System(EmptyHost, EmptyHost, None) && run[|events|] == System(e, e, None)
    ensures Standing(e, Selection(1, None), Gen1, Exec(1), Installed(1, V1))
  {
    hide IsRun, Begins, EndsAtomically, CandidateControl, Standing;
    FirstBegins();
    var s := InstallSession(EmptyHost, 1, V1);
    run, events, e := GoesThrough(EmptyHost, s, BeginInstall(1, V1), Quiet);
    EndsStanding(EmptyHost, e, s, Gen1, Exec(1));
  }

  lemma SecondBegins(b: Durable)
    requires Standing(b, Selection(1, None), Gen1, Exec(1), Installed(1, V1))
    ensures Begins(b, InstallSession(b, 2, V2), BeginInstall(2, V2), Quiet)
    ensures CandidateControl(b, JournalOf(InstallSession(b, 2, V2), Finalized)) == Exec(2)
  {
    assert Control(b) == Exec(1);
  }

  /** The second release replaces it. */
  lemma InstallsSecond(b: Durable) returns (run: seq<System>, events: seq<Event>, e: Durable)
    requires Standing(b, Selection(1, None), Gen1, Exec(1), Installed(1, V1))
    ensures IsRun(run, events) && run[0] == System(b, b, None) && run[|events|] == System(e, e, None)
    ensures Standing(e, Selection(2, Some(1)), Gen12, Exec(2), Installed(2, V2))
  {
    hide IsRun, Begins, EndsAtomically, CandidateControl;
    SecondBegins(b);
    var s := InstallSession(b, 2, V2);
    run, events, e := GoesThrough(b, s, BeginInstall(2, V2), Quiet);
    EndsStanding(b, e, s, Gen12, Exec(2));
  }

  lemma ReverseBegins2(b: Durable)
    requires Standing(b, Selection(2, Some(1)), Gen12, Exec(2), Installed(2, V2)) || b == Unlinked
    ensures Begins(b, Session(1, V1, false, b.selector, true, Prepared), BeginReverse, Quiet)
    ensures CandidateControl(b, JournalOf(Session(1, V1, false, b.selector, true, Prepared), Finalized)) == Exec(2)
  {
    assert Control(b) == Exec(2);
  }

  /** The first release is returned to; the second, being newer, keeps control. */
  lemma Returns(b: Durable) returns (run: seq<System>, events: seq<Event>, e: Durable)
    requires Standing(b, Selection(2, Some(1)), Gen12, Exec(2), Installed(2, V2))
    ensures IsRun(run, events) && run[0] == System(b, b, None) && run[|events|] == System(e, e, None)
    ensures Standing(e, Selection(1, Some(2)), Gen12, Exec(2), Installed(1, V1))
  {
    hide IsRun, Begins, EndsAtomically, CandidateControl;
    ReverseBegins2(b);
    var s := Session(1, V1, false, b.selector, true, Prepared);
    run, events, e := GoesThrough(b, s, BeginReverse, Quiet);
    EndsStanding(b, e, s, Gen12, Exec(2));
  }

  /** A run from an empty host to one whose control lies with the retained predecessor. */
  lemma ReachesReturned() returns (run: seq<System>, events: seq<Event>, e: Durable)
    ensures IsRun(run, events) && run[0] == System(EmptyHost, EmptyHost, None) && run[|events|] == System(e, e, None)
    ensures Standing(e, Selection(1, Some(2)), Gen12, Exec(2), Installed(1, V1))
  {
    hide Step, Standing;
    var b1: Durable;
    run, events, b1 := InstallsFirst();
    var second, more, b2 := InstallsSecond(b1);
    run := JoinRuns(run, events, second, more);
    events := events + more;
    second, more, e := Returns(b2);
    run := JoinRuns(run, events, second, more);
    events := events + more;
  }

  // ---- a dangling link

  const PriorServes := Env(Runtime(V1, true), true, 8, [1, 2, 3])
  const CandidateServes := Env(Runtime(V3, true), true, 9, [1, 2, 3])

  lemma ThirdBegins(b: Durable)
    requires Standing(b, Selection(1, Some(2)), Gen12, Exec(2), Installed(1, V1))
    ensures Begins(b, InstallSession(b, 3, V3), BeginInstall(3, V3), Quiet)
    ensures CandidateControl(b, JournalOf(InstallSession(b, 3, V3), Working(Activated))) == Exec(3)
    ensures CommandComplete(b) && Stale(b.command, JournalOf(InstallSession(b, 3, V3), Working(Activated)))
  {
    assert Control(b) == Exec(2);
  }

  lemma ThirdIsJudged(b: Durable, d: Durable)
    requires Standing(b, Selection(1, Some(2)), Gen12, Exec(2), Installed(1, V1))
    requires Holds(b, d, InstallSession(b, 3, V3).(phase := Activated))
    requires d.journal == Some(JournalOf(InstallSession(b, 3, V3), Working(Activated)))
    requires TargetOf(d.command) == Some(Exec(3))
    ensures Judge(b, d, PriorServes.runtime) == Ends(RolledBack)
  {
    hide Inv, BaseOk, CandidateControl, Projectable;
  }

  /** From an empty host: install, upgrade, return, upgrade again; a recovery finds the old release
      serving, goes back and is cut short; the next finds the new one serving and finalizes. The link
      then points at a generation that is gone. */
  lemma DanglingRun() returns (run: seq<System>, events: seq<Event>)
    ensures IsRun(run, events) && run[0] == System(EmptyHost, EmptyHost, None)
    ensures Idle(run[|events|].disk) && !CommandComplete(run[|events|].disk)
  {
    hide Step, Standing, Begins, CandidateControl, Inv, Holds, Judge, Recover, CommandComplete, Stale, Covers;
    var b: Durable;
    run, events, b := ReachesReturned();
    ThirdBegins(b);
    var s := InstallSession(b, 3, V3);
    var upgrade, more, d := Activates(b, s, BeginInstall(3, V3), Quiet, None);
    run := JoinRuns(run, events, upgrade, more);
    events := events + more;
    ThirdIsJudged(b, d);
    ActivatedCovers(b, d, s, BeginInstall(3, V3), Quiet);
    SameListing(d);
    HeldInv(b, d, s.(phase := Activated));
    InterruptedReturnDangles(b, d, PriorServes, CandidateServes);
    var t :| (t == d || t in Recover(d, PriorServes).states) && Recover(t, CandidateServes).verdict == Ends(Finalized)
             && !CommandComplete(Final(t, Recover(t, CandidateServes)));
    var cut, last := RecoversTwice(b, d, t, PriorServes, CandidateServes);
    run := JoinRuns(run, events, cut, last);
    events := events + last;
  }

  lemma HeldInv(b: Durable, d: Durable, s: Session)
    requires Holds(b, d, s)
    ensures Inv(b, d) && BaseOk(b) && d.journal.Some?
  {
    hide Inv, BaseOk, SessionOk;
  }

  lemma SameListing(d: Durable)
    requires Covers(Quiet.listing, d)
    ensures Covers(PriorServes.listing, d) && Covers(CandidateServes.listing, d)
  {
  }

  lemma CoversLater(b: Durable, d: Durable, t: Durable, listing: seq<Id>)
    requires Inv(b, d) && d.journal.Some? && !d.journal.value.Terminal() && d.journal.value.Phase() != Prepared
    requires Covers(listing, d)
    requires Inv(b, t) && t.journal.Some? && SameTransaction(d.journal.value, t.journal.value)
    ensures Covers(listing, t)
  {
    hide BegunIn, BaseOk, CommandMaterialized, SnapshotOk, CandidateControl;
    forall id | id in Gens(t) ensures id in Gens(d) {
      if id != t.journal.value.tx {
        assert id in Gens(t) - {t.journal.value.tx};
      }
    }
  }

  lemma OnTheWayStays(b: Durable, d: Durable, t: Durable, back: Env, forth: Env)
    requires Inv(b, d) && d.journal.Some? && Covers(back.listing, d) && back.binds
    requires t in Recover(d, back).states && Recover(t, forth).verdict.Ends?
    ensures t.journal.Some? && Inv(b, t) && SameTransaction(d.journal.value, t.journal.value)
  {
    hide Inv, Judge, EndsAtomically, BaseOk, FinalTarget, FinalInstalled, Covers, Recover;
    RecoverReaches(b, d, back);
    if t.journal.None? {
      NothingToRecover(t, forth);
      assert false;
    }
  }

  lemma NothingToRecover(t: Durable, env: Env)
    requires t.journal.None?
    ensures !Recover(t, env).verdict.Ends?
  {
  }

  /** One recovery, stopped after some of its writes. */
  lemma RecoversUpTo(b: Durable, d: Durable, env: Env, t: Durable) returns (ev: Event)
    requires Covers(env.listing, d) && (t == d || t in Recover(d, env).states)
    ensures Step(System(b, d, None), ev, System(if Idle(t) then t else b, t, None))
  {
    hide Recover, Covers;
    if t == d {
      ev := Event(RecoverTransaction, env, 0);
    } else {
      var i :| 0 <= i < |Recover(d, env).states| && Recover(d, env).states[i] == t;
      ev := Event(RecoverTransaction, env, i + 1);
    }
  }

  /** A recovery cut short at one of its states, and then another that ends. */
  lemma RecoversTwice(b: Durable, d: Durable, t: Durable, back: Env,
                      forth: Env) returns (run: seq<System>, events: seq<Event>)
    requires Inv(b, d) && d.journal.Some? && !d.journal.value.Terminal() && d.journal.value.Phase() != Prepared
    requires Covers(back.listing, d) && back.listing == forth.listing
    requires t == d || t in Recover(d, back).states
    requires back.binds && forth.binds && Recover(t, forth).verdict.Ends?
    ensures IsRun(run, events) && run[0] == System(b, d, None)
    ensures var e := Final(t, Recover(t, forth)); run[|events|] == System(e, e, None) && Idle(e)
  {
    hide Inv, Recover, Judge, OnTheWay, EndsAtomically, BaseOk, FinalTarget, FinalInstalled, Covers, Step;
    if t != d {
      OnTheWayStays(b, d, t, back, forth);
    }
    CoversLater(b, d, t, forth.listing);
    var first := RecoversUpTo(b, d, back, t);
    OneStep(System(b, d, None), first, System(b, t, None));
    RecoverReaches(b, t, forth);
    var e := Final(t, Recover(t, forth));
    EndsIdle(b, e, t.journal.value.(state := Recover(t, forth).verdict.state));
    assert e in Recover(t, forth).states;
    var second := RecoversUpTo(b, t, forth, e);
    OneStep(System(b, t, None), second, System(e, e, None));
    run := JoinRuns([System(b, d, None), System(b, t, None)], [first], [System(b, t, None), System(e, e, None)],
                    [second]);
    events := [first] + [second];
  }

  // ---- a record of a removed generation

  const FirstServes := Env(Runtime(V1, true), true, 8, [1, 2, 3])

  /** The state after a recovery that found the first release serving has written its record. */
  lemma RecordedCandidate(d: Durable) returns (t: Durable)
    requires Holds(EmptyHost, d, InstallSession(EmptyHost, 1, V1).(phase := Materialized))
    requires d.journal == Some(JournalOf(InstallSession(EmptyHost, 1, V1), Working(Materialized))) && d.command == None
    ensures t in Recover(d, FirstServes).states && t.journal == d.journal && Recorded(t, t.journal.value)
    ensures TargetOf(t.command) == Some(Exec(1))
  {
    hide CandidateControl, BaseOk, SnapshotOk, BegunIn, SelectAndProject, CloseFinalized, SessionOk, Inv,
         MaterializedOk;
    var j := d.journal.value;
    HeldFacts(EmptyHost, d, InstallSession(EmptyHost, 1, V1).(phase := Materialized));
    CandidateVerified(EmptyHost, d, j);
    ProjectionOf(EmptyHost, d, FirstServes.inode);
    FirstControl(j);
    var f := d.(selector := Some(j.Candidate()));
    var g := f.(command := Some(Link(Exec(1), FirstServes.inode)));
    t := g.(installed := Some(Installed(1, V1)));
    assert Project(f, Exec(1), None, FirstServes.inode) == One(g);
    assert SelectAndProject(d, j, FirstServes.inode).states == [f, g];
    var w := FinalizeInstallation(g, j, true, FirstServes.listing);
    assert w.states[0] == t;
    assert ([f, g] + w.states)[2] == t;
  }

  lemma FirstControl(j: Journal)
    requires j == JournalOf(InstallSession(EmptyHost, 1, V1), j.state)
    ensures CandidateControl(EmptyHost, j) == Exec(1)
  {
  }

  /** From an empty host: the first release is materialized and its owner dies; a recovery finds it
      serving and is cut short after writing the record; the next finds nothing serving and rolls
      back. The record then names a generation that is gone. */
  lemma ForgottenRecordRun() returns (run: seq<System>, events: seq<Event>)
    ensures IsRun(run, events) && run[0] == System(EmptyHost, EmptyHost, None)
    ensures Idle(run[|events|].disk) && !InstalledMatches(run[|events|].disk)
  {
    hide Step, Begins, CandidateControl, Inv, Holds, Judge, Recover, InstalledMatches, Covers;
    FirstBegins();
    var s := InstallSession(EmptyHost, 1, V1);
    var d: Durable;
    run, events, d := Materializes(EmptyHost, s, BeginInstall(1, V1), Quiet, None);
    var t := RecordedCandidate(d);
    HeldInv(EmptyHost, d, s.(phase := Materialized));
    MaterializedCovers(EmptyHost, d, s, BeginInstall(1, V1), Quiet);
    SameListings(d);
    RecoveredInv(EmptyHost, d, t, FirstServes);
    CoversLater(EmptyHost, d, t, Quiet.listing);
    FirstIsJudged(t);
    RolledBackInstalledIff(EmptyHost, t, Quiet);
    var cut, last := RecoversTwice(EmptyHost, d, t, FirstServes, Quiet);
    run := JoinRuns(run, events, cut, last);
    events := events + last;
  }

  lemma SameListings(d: Durable)
    requires Covers(Quiet.listing, d)
    ensures Covers(FirstServes.listing, d)
  {
  }

  lemma RecoveredInv(b: Durable, d: Durable, t: Durable, env: Env)
    requires Inv(b, d) && d.journal.Some? && Covers(env.listing, d) && env.binds && t in Recover(d, env).states
    requires t.journal.Some?
    ensures Inv(b, t) && SameTransaction(d.journal.value, t.journal.value)
  {
    hide Inv, Judge, EndsAtomically, BaseOk, FinalTarget, FinalInstalled, Covers, Recover;
    RecoverReaches(b, d, env);
  }

  lemma FirstIsJudged(t: Durable)
    requires t.journal == Some(JournalOf(InstallSession(EmptyHost, 1, V1), Working(Materialized)))
    requires TargetOf(t.command) == Some(Exec(1))
    ensures Judge(EmptyHost, t, Quiet.runtime) == Ends(RolledBack) && InstalledMatches(EmptyHost)
  {
    hide CandidateControl, Projectable;
  }

  // ---- a rollback that cannot go through

  /** Two releases installed, and the command link removed from outside. */
  const Unlinked := Durable(None, NoRoot, Some(Gen12), Some(Selection(2, Some(1))), None, Some(Installed(2, V2)))

  /** A return to the predecessor on such a host, right after its activation: no rollback goes through. */
  lemma WedgedRun() returns (run: seq<System>, events: seq<Event>, s: Session)
    ensures IsRun(run, events) && run[0] == System(Unlinked, Unlinked, None) && SysInv(run[0])
    ensures run[|events|].session == Some(s) && forall env :: !RollBack(run[|events|].disk, s, env).ok
  {
    hide Step, Begins, CandidateControl, Inv, Holds, RollBack, BaseOk, SessionOk;
    ReverseBegins2(Unlinked);
    var s0 := Session(1, V1, false, Unlinked.selector, true, Prepared);
    s := s0.(phase := Activated);
    var g: Durable;
    run, events, g := Activates(Unlinked, s0, BeginReverse, Quiet, Some(s));
    UnlinkedBase();
    SameControl(Unlinked, g.journal.value, JournalOf(s0, Finalized));
    forall env ensures !RollBack(g, s, env).ok {
      RollBackEnds(Unlinked, g, s, env);
    }
  }

  lemma UnlinkedBase()
    ensures BaseOk(Unlinked)
  {
  }

  // ---- states that recovery refuses

  /** A crash between claiming the transaction directory and writing the journal. */
  lemma UnjournaledRun() returns (run: seq<System>, events: seq<Event>)
    ensures IsRun(run, events) && run[0] == System(EmptyHost, EmptyHost, None) && Stuck(run[|events|].disk)
    ensures run[|events|].disk.journal.None?
  {
    hide IsRun;
    FirstBegins();
    var d := EmptyHost.(root := Root(NoRollback));
    OneStep(System(EmptyHost, EmptyHost, None), Event(BeginInstall(1, V1), Quiet, 1), System(EmptyHost, d, None));
    run, events := [System(EmptyHost, EmptyHost, None),
                    System(EmptyHost, d, None)], [Event(BeginInstall(1, V1), Quiet, 1)];
  }

  /** A crash right after the rollback directory was made. */
  lemma PreparedRun() returns (run: seq<System>, events: seq<Event>)
    ensures IsRun(run, events) && run[0] == System(EmptyHost, EmptyHost, None) && Stuck(run[|events|].disk)
    ensures run[|events|].disk.journal.Some?
  {
    hide Step, Begins, CandidateControl;
    FirstBegins();
    var s := InstallSession(EmptyHost, 1, V1);
    BeginGoes(EmptyHost, s, BeginInstall(1, V1), Quiet);
    var d := Begun(EmptyHost, s);
    OneStep(System(EmptyHost, EmptyHost, None), Event(BeginInstall(1, V1), Quiet, 2), System(EmptyHost, d, Some(s)));
    var e := d.(root := Root(EmptyRollback));
    MakesRollback(s, d, e);
    OneStep(System(EmptyHost, d, Some(s)), Event(CommitProjection(NoFault), Quiet, 1), System(EmptyHost, e, None));
    run := JoinRuns([System(EmptyHost, EmptyHost, None), System(EmptyHost, d, Some(s))],
                    [Event(BeginInstall(1, V1), Quiet, 2)],
                    [System(EmptyHost, d, Some(s)),
                     System(EmptyHost, e, None)], [Event(CommitProjection(NoFault), Quiet, 1)]);
    events := [Event(BeginInstall(1, V1), Quiet, 2)] + [Event(CommitProjection(NoFault), Quiet, 1)];
  }

  lemma MakesRollback(s: Session, d: Durable, e: Durable)
    requires s == InstallSession(EmptyHost, 1, V1) && d == Begun(EmptyHost, s) && e == d.(root := Root(EmptyRollback))
    ensures Step(System(EmptyHost, d, Some(s)), Event(CommitProjection(NoFault), Quiet, 1), System(EmptyHost, e, None))
  {
    hide Materialize, CompleteTransaction;
  }

  /** The state in which the candidate is being written. */
  ghost function HalfWritten(s: Session): Durable {
    Begun(EmptyHost, s).(root := Root(Saved(None)), store := Some(map[1 := Partial]))
  }

  lemma WritesHalf(s: Session)
    requires s == InstallSession(EmptyHost, 1, V1)
    ensures var d := Begun(EmptyHost, s);
      Step(System(EmptyHost, d, Some(s)), Event(CommitProjection(WhileWriting), Quiet, 3),
           System(EmptyHost, HalfWritten(s), Some(s)))
  {
    hide RollBack, CompleteTransaction;
    var d := Begun(EmptyHost, s);
    var d0 := d.(root := Root(EmptyRollback));
    var d1 := d0.(root := Root(Saved(None)));
    var e := HalfWritten(s);
    assert Commit(d, s, Quiet, WhileWriting).states == [d0, d1] + ([e] + Undo(e, s, Quiet).states);
    assert Commit(d, s, Quiet, WhileWriting).states[2] == e;
  }

  /** What recovery would refuse for ever, the owner that is still there undoes. */
  lemma OwnerUndoesRun() returns (run: seq<System>, events: seq<Event>, i: nat)
    ensures IsRun(run, events) && run[0] == System(EmptyHost, EmptyHost, None)
    ensures i + 1 == |events| && Stuck(run[i].disk) && Idle(run[i + 1].disk)
  {
    hide Step, Begins, CandidateControl, RollBack, Inv, BaseOk, SessionOk, EndsAtomically;
    FirstBegins();
    var s := InstallSession(EmptyHost, 1, V1);
    BeginGoes(EmptyHost, s, BeginInstall(1, V1), Quiet);
    var d, e := Begun(EmptyHost, s), HalfWritten(s);
    var s0, s1, s2 := System(EmptyHost, EmptyHost, None), System(EmptyHost, d, Some(s)), System(EmptyHost, e, Some(s));
    WritesHalf(s);
    OneStep(s0, Event(BeginInstall(1, V1), Quiet, 2), s1);
    OneStep(s1, Event(CommitProjection(WhileWriting), Quiet, 3), s2);
    run := JoinRuns([s0, s1], [Event(BeginInstall(1, V1), Quiet, 2)], [s1, s2],
                    [Event(CommitProjection(WhileWriting), Quiet, 3)]);
    events := [Event(BeginInstall(1, V1), Quiet, 2)] + [Event(CommitProjection(WhileWriting), Quiet, 3)];
    StepKeeps(s1, Event(CommitProjection(WhileWriting), Quiet, 3), s2);
    OwnerRollsBackIff(EmptyHost, e, s, Quiet);
    var w := RollBack(e, s, Quiet);
    var f := Last(e, w);
    EndsIdle(EmptyHost, f, e.journal.value.(state := RolledBack));
    var ev := Event(RollbackCandidate, Quiet, |w.states|);
    UndoesAll(s, f, ev);
    OneStep(s2, ev, System(f, f, None));
    i := 2;
    run := JoinRuns(run, events, [s2, System(f, f, None)], [ev]);
    events := events + [ev];
  }

  lemma UndoesAll(s: Session, f: Durable, ev: Event)
    requires s == InstallSession(EmptyHost, 1, V1) && Idle(f)
    requires var w := RollBack(HalfWritten(s), s, Quiet);
      f == Last(HalfWritten(s), w) && ev == Event(RollbackCandidate, Quiet, |w.states|)
    ensures Step(System(EmptyHost, HalfWritten(s), Some(s)), ev, System(f, f, None))
  {
    hide RollBack;
  }
}
