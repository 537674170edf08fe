/** Which events hold a stream back and which send it off, by what they announce; when the relay
    reconnects; and how a stream is said to have ended. */
module SseMeaning {
  import opened Wrappers
  import opened SseFraming
  import opened SseRelay

  /** The event can still be withheld: it has no payload, opens the response, or is a failure of the
      server before any output. */
  predicate Withheld(v: Verdict) {
    && v.Projected?
    && match v.kind
       case NoPayload => true
       case Preface => true
       case Failed => v.retryable
       case _ => false
  }

  /** The event must reach the client: content, a clean end, or a failure that cannot be retried. */
  predicate Shown(v: Verdict) {
    && v.Projected?
    && match v.kind
       case Completed => true
       case Incomplete => true
       case Ordinary => true
       case Failed => !v.retryable
       case _ => false
  }

  lemma WithheldIsHeld(v: Verdict)
    ensures Withheld(v) <==> Held(v)
    ensures Shown(v) <==> Commits(v)
  {
  }

  ghost function EventsOf(judge: Judge, rs: seq<Read>): seq<Bytes> {
    UpToStop(judge, Split(Received(rs)))
  }

  /** An attempt of withheld events alone writes nothing, whatever ends it. */
  lemma WithheldWritesNothing(judge: Judge, rs: seq<Read>)
    requires forall e :: e in EventsOf(judge, rs) ==> Withheld(judge(e)) || judge(e).Unprojectable?
    ensures !Outcome(judge, rs).wrote && Outcome(judge, rs).written == []
  {
    hide UpToStop, Split, ProcessAll, Restored, Withheld, Held;
    var es := EventsOf(judge, rs);
    StreamDescribed(judge, Split(Received(rs)));
    forall i | 0 <= i < |es| ensures !Commits(judge(es[i])) {
      assert es[i] in es;
      WithheldIsHeld(judge(es[i]));
    }
  }

  /** An event that must be shown sends everything restored so far off at once, itself included. */
  lemma ShownSendsAll(judge: Judge, es: seq<Bytes>, i: nat)
    requires i < |es| && Shown(judge(es[i])) && forall k :: 0 <= k < i ==> !Stops(judge(es[k]))
    ensures var p := ProcessAll(judge, Start, es[..i + 1]);
      p.wrote && p.written == Restored(judge, es[..i + 1]) && p.prelude == []
  {
    hide ProcessAll, Restored, Shown, Held, Stops;
    var us := es[..i + 1];
    WithheldIsHeld(judge(us[i]));
    StreamDescribed(judge, us);
    NoStopBefore(judge, us);
    assert Commits(judge(us[i]));
  }

  lemma {:induction false} NoStopBefore(judge: Judge, es: seq<Bytes>)
    requires forall k :: 0 <= k < |es| - 1 ==> !Stops(judge(es[k]))
    ensures UpToStop(judge, es) == es
  {
    hide Stops;
    if es != [] {
      NoStopBefore(judge, es[1..]);
      if |es| == 1 {
        assert es[1..] == [];
      }
      assert [es[0]] + es[1..] == es;
    }
  }

  /** A stream stops at an event that cannot be projected and at a terminal one, and at no other. */
  lemma StopsExactly(v: Verdict)
    ensures Stops(v) <==> v.Unprojectable? || v.kind == Completed || v.kind == Incomplete || v.kind == Failed
  {
  }

  /** An attempt after which the relay is free to reconnect. */
  ghost predicate MayReconnect(judge: Judge, rs: seq<Read>) {
    forall e :: e in EventsOf(judge, rs) ==> Withheld(judge(e))
  }

  lemma MayReconnectIff(judge: Judge, rs: seq<Read>)
    ensures MayReconnect(judge, rs) <==> !Settles(Outcome(judge, rs))
  {
    hide Split, ProcessAll, Restored, Withheld, Held, UpToStop, Received;
    var es := EventsOf(judge, rs);
    StreamDescribed(judge, Split(Received(rs)));
    Unwritten(judge, rs);
    if MayReconnect(judge, rs) {
      WithheldWritesNothing(judge, rs);
      if es != [] {
        assert es[|es| - 1] in es;
        WithheldIsProjected(judge(es[|es| - 1]));
      }
    } else {
      var e :| e in es && !Withheld(judge(e));
      var i :| 0 <= i < |es| && es[i] == e;
      if judge(e).Unprojectable? {
        UnprojectableIsLast(judge, Split(Received(rs)), i);
      } else {
        WithheldIsHeld(judge(e));
        assert Commits(judge(es[i]));
      }
    }
  }

  lemma WithheldIsProjected(v: Verdict)
    ensures Withheld(v) ==> v.Projected? && v.kind != Completed && v.kind != Incomplete
  {
  }

  lemma {:induction false} UnprojectableIsLast(judge: Judge, es: seq<Bytes>, i: nat)
    requires i < |UpToStop(judge, es)| && judge(UpToStop(judge, es)[i]).Unprojectable?
    ensures i == |UpToStop(judge, es)| - 1
  {
    if i > 0 {
      UnprojectableIsLast(judge, es[1..], i - 1);
    }
  }

  /** A relay that may reopen makes another attempt exactly when the last one showed nothing and failed
      nowhere, the reopen works, and fewer than six were made. */
  lemma ReconnectsExactly(judge: Judge, first: seq<Read>, nexts: seq<Next>, n: nat)
    requires Attempts(judge, first, nexts, true, n)
    ensures 1 <= n <= 6
    ensures forall k :: 0 <= k < n - 1 ==> NextAt(nexts, k).Reopened? && MayReconnect(judge, Attempt(first, nexts, k))
    ensures n < 6 ==> !(NextAt(nexts, n - 1).Reopened? && MayReconnect(judge, Attempt(first, nexts, n - 1)))
  {
    hide Outcome, MayReconnect, Settles;
    forall k | 0 <= k < n - 1 ensures MayReconnect(judge, Attempt(first, nexts, k)) {
      MayReconnectIff(judge, Attempt(first, nexts, k));
    }
    MayReconnectIff(judge, Attempt(first, nexts, n - 1));
  }

  // ---- how a stream ended

  /** The read brings at least a byte, whether or not it was cut short. */
  predicate Brings(r: Read) {
    match r
    case Data(bytes) => bytes != []
    case CutShort(bytes) => bytes != []
    case _ => false
  }

  predicate Cut(r: Read) {
    r.CutShort?
  }

  /** Reads that all deliver, and then the one that does not, if there is one. */
  lemma {:induction false} EndingIs(rs: seq<Read>, n: nat, d: Detail)
    requires n <= |rs| && (forall i :: 0 <= i < n ==> Brings(rs[i])) && (n < |rs| ==> !Brings(rs[n]))
    ensures Ending(rs, d) ==
      if n < |rs| && rs[n].TimedOut? then (if rs[n].late then Deadline else Timeout)
      else if n < |rs| && rs[n].PastDeadline? then Deadline
      else if (exists i :: 0 <= i <= n && i < |rs| && Cut(rs[i])) then IncompleteRead
      else d
    decreases |rs|
  {
    if n > 0 {
      var e := if Cut(rs[0]) then IncompleteRead else d;
      EndingIs(rs[1..], n - 1, e);
      assert forall i :: 0 <= i < |rs| - 1 ==> rs[1..][i] == rs[i + 1];
      if exists i :: 0 <= i <= n && i < |rs| && Cut(rs[i]) {
        var i :| 0 <= i <= n && i < |rs| && Cut(rs[i]);
        assert i > 0 ==> Cut(rs[1..][i - 1]);
      }
      if exists i :: 0 <= i <= n - 1 && i < |rs[1..]| && Cut(rs[1..][i]) {
        var i :| 0 <= i <= n - 1 && i < |rs[1..]| && Cut(rs[1..][i]);
        assert Cut(rs[i + 1]);
      }
    } else if |rs| > 0 {
      assert rs[0].CutShort? ==> Cut(rs[0]);
    }
  }

  /** Everything up to the first read that delivers nothing is received, in order. */
  lemma {:induction false} ReceivedIs(rs: seq<Read>, n: nat)
    requires n <= |rs| && (forall i :: 0 <= i < n ==> Brings(rs[i])) && (n < |rs| ==> !Brings(rs[n]))
    ensures Received(rs) == Bodies(rs[..n])
    decreases |rs|
  {
    if n > 0 {
      ReceivedIs(rs[1..], n - 1);
      assert rs[1..][..n - 1] == rs[..n][1..];
    }
  }

  function Bodies(rs: seq<Read>): Bytes {
    if rs == [] then []
    else (if rs[0].Data? || rs[0].CutShort? then rs[0].bytes else []) + Bodies(rs[1..])
  }

  /** A stream without a terminal event ends as its reads do, unless some event could not be projected. */
  lemma DetailIs(judge: Judge, rs: seq<Read>)
    ensures OutcomeDetail(judge, rs) ==
      if exists e :: e in EventsOf(judge, rs) && judge(e).Unprojectable? then ProjectionFailed else Ending(rs, Eof)
  {
    hide Split, ProcessAll, Restored, UpToStop, Received, Ending;
    var es := EventsOf(judge, rs);
    StreamDescribed(judge, Split(Received(rs)));
    Unwritten(judge, rs);
    if exists e :: e in es && judge(e).Unprojectable? {
      var e :| e in es && judge(e).Unprojectable?;
      var i :| 0 <= i < |es| && es[i] == e;
      UnprojectableIsLast(judge, Split(Received(rs)), i);
    }
  }
}
