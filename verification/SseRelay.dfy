/** Relay of one upstream event stream with reconnects only before anything was sent downstream. */
module SseRelay {
  import opened Wrappers
  import opened SseFraming

  datatype Kind = NoPayload | Preface | Completed | Incomplete | Failed | Ordinary

  /** What projecting one event gives: its restored bytes and what it announces. */
  datatype Verdict = Unprojectable | Projected(data: Bytes, kind: Kind, retryable: bool)

  type Judge = Bytes -> Verdict

  /** A restored event is never empty. */
  ghost predicate Faithful(judge: Judge) {
    forall e: Bytes :: e != [] && judge(e).Projected? ==> judge(e).data != []
  }

  predicate Terminal(k: Kind) {
    k == Completed || k == Incomplete || k == Failed
  }

  /** An event after which the relay can still reconnect. */
  predicate Held(v: Verdict) {
    v.Projected? && (v.kind == NoPayload || v.kind == Preface || (v.kind == Failed && v.retryable))
  }

  predicate Stops(v: Verdict) {
    v.Unprojectable? || Terminal(v.kind)
  }

  // ---- one stream

  datatype Progress = Progress(
    count: nat, terminal: Option<Kind>, unprojectable: bool, wrote: bool, prelude: seq<Bytes>, written: seq<Bytes>)

  const Start := Progress(0, None, false, false, [], [])

  predicate Stopped(p: Progress) {
    p.terminal.Some? || p.unprojectable
  }

  function EmitStep(p: Progress, data: Bytes, hold: bool): Progress {
    if hold && !p.wrote then p.(prelude := p.prelude + [data])
    else p.(wrote := true, written := p.written + p.prelude + [data], prelude := [])
  }

  function Process(judge: Judge, p: Progress, e: Bytes): Progress {
    match judge(e)
    case Unprojectable => p.(unprojectable := true)
    case Projected(data, kind, _) =>
      EmitStep(p.(count := p.count + 1, terminal := if Terminal(kind) then Some(kind) else p.terminal), data,
               Held(judge(e)))
  }

  /** Events in order, up to the first that stops the stream. */
  function ProcessAll(judge: Judge, p: Progress, es: seq<Bytes>): Progress
    decreases |es|
  {
    if es == [] || Stopped(p) then p else ProcessAll(judge, Process(judge, p, es[0]), es[1..])
  }

  lemma {:induction false} ProcessSplits(judge: Judge, p: Progress, es: seq<Bytes>, fs: seq<Bytes>)
    ensures ProcessAll(judge, p, es + fs) == ProcessAll(judge, ProcessAll(judge, p, es), fs)
    decreases |es|
  {
    hide Process;
    if es == [] {
      assert es + fs == fs;
    } else if !Stopped(p) {
      assert (es + fs)[1..] == es[1..] + fs;
      ProcessSplits(judge, Process(judge, p, es[0]), es[1..], fs);
    }
  }

  lemma ProcessOne(judge: Judge, p: Progress, e: Bytes)
    requires !Stopped(p)
    ensures ProcessAll(judge, p, [e]) == Process(judge, p, e)
  {
    hide Process;
    assert [e][1..] == [];
  }

  // ---- what a stream amounts to, read off its events

  /** The events a relay looks at: all of them up to the first that stops it. */
  function UpToStop(judge: Judge, es: seq<Bytes>): seq<Bytes> {
    if es == [] then [] else if Stops(judge(es[0])) then [es[0]] else [es[0]] + UpToStop(judge, es[1..])
  }

  function Restored(judge: Judge, es: seq<Bytes>): seq<Bytes> {
    if es == [] then []
    else if judge(es[|es| - 1]).Unprojectable? then Restored(judge, es[..|es| - 1])
    else Restored(judge, es[..|es| - 1]) + [judge(es[|es| - 1]).data]
  }

  predicate Commits(v: Verdict) {
    v.Projected? && !Held(v)
  }

  /** Some event must be shown downstream. */
  predicate Committed(judge: Judge, es: seq<Bytes>) {
    exists i :: 0 <= i < |es| && Commits(judge(es[i]))
  }

  ghost predicate Describes(judge: Judge, p: Progress, es: seq<Bytes>) {
    && p.count == |Restored(judge, es)|
    && (p.wrote <==> Committed(judge, es))
    && p.written == (if p.wrote then Restored(judge, es) else [])
    && p.prelude == (if p.wrote then [] else Restored(judge, es))
    && (p.unprojectable <==> es != [] && judge(es[|es| - 1]).Unprojectable?)
    && (p.terminal.Some? <==> es != [] && judge(es[|es| - 1]).Projected? && Terminal(judge(es[|es| - 1]).kind))
    && (p.terminal.Some? ==> p.terminal.value == judge(es[|es| - 1]).kind)
  }

  lemma RestoredAppend(judge: Judge, es: seq<Bytes>, e: Bytes)
    ensures Restored(judge, es + [e]) == if judge(e).Unprojectable?
      then Restored(judge, es) else Restored(judge, es) + [judge(e).data]
    ensures Committed(judge, es + [e]) <==> Committed(judge, es) || Commits(judge(e))
  {
    var fs := es + [e];
    assert fs[..|es|] == es && fs[|es|] == e && forall i :: 0 <= i < |es| ==> fs[i] == es[i];
    if Committed(judge, es) {
      var i :| 0 <= i < |es| && Commits(judge(es[i]));
      assert Commits(judge(fs[i]));
    }
    if Commits(judge(e)) {
      assert Commits(judge(fs[|es|]));
    }
  }

  lemma ProcessDescribes(judge: Judge, p: Progress, es: seq<Bytes>, e: Bytes)
    requires Describes(judge, p, es) && !Stopped(p)
    ensures Describes(judge, Process(judge, p, e), es + [e])
    ensures Stopped(Process(judge, p, e)) <==> Stops(judge(e))
  {
    hide Restored, Committed;
    RestoredAppend(judge, es, e);
    assert (es + [e])[|es|] == e;
    assert [] + Restored(judge, es) == Restored(judge, es);
  }

  /** The outcome of a stream is what its events up to the first stop amount to. */
  lemma {:induction false} ProcessAllDescribes(judge: Judge, p: Progress, done: seq<Bytes>, es: seq<Bytes>)
    requires Describes(judge, p, done) && !Stopped(p)
    ensures Describes(judge, ProcessAll(judge, p, es), done + UpToStop(judge, es))
    decreases |es|
  {
    hide Describes, Process, Stopped;
    if es == [] {
      assert done + [] == done;
    } else {
      var q := Process(judge, p, es[0]);
      ProcessDescribes(judge, p, done, es[0]);
      if !Stopped(q) {
        ProcessAllDescribes(judge, q, done + [es[0]], es[1..]);
        assert done + [es[0]] + UpToStop(judge, es[1..]) == done + UpToStop(judge, es);
      }
    }
  }

  lemma StreamDescribed(judge: Judge, es: seq<Bytes>)
    ensures Describes(judge, ProcessAll(judge, Start, es), UpToStop(judge, es))
  {
    hide ProcessAll;
    assert !Committed(judge, []);
    ProcessAllDescribes(judge, Start, [], es);
    assert [] + UpToStop(judge, es) == UpToStop(judge, es);
  }

  // ---- reading

  /** One read of the upstream: bytes, bytes cut short, or none because it failed. */
  datatype Read = Data(bytes: Bytes) | CutShort(bytes: Bytes) | TimedOut(late: bool) | Broken | PastDeadline

  datatype Detail = Eof | IncompleteRead | Timeout | Deadline | ProjectionFailed

  predicate Delivers(r: Read) {
    (r.Data? || r.CutShort?) && r.bytes != []
  }

  /** Everything the reads deliver before the first that delivers nothing. */
  function Received(rs: seq<Read>): Bytes {
    if rs == [] || !Delivers(rs[0]) then [] else rs[0].bytes + Received(rs[1..])
  }

  /** How a stream stands after a read. */
  function EndingOf(r: Read, d: Detail): Detail {
    match r
    case Data(_) => d
    case CutShort(_) => IncompleteRead
    case TimedOut(late) => if late then Deadline else Timeout
    case Broken => d
    case PastDeadline => Deadline
  }

  /** How the reads end. */
  function Ending(rs: seq<Read>, d: Detail): Detail {
    if rs == [] then d
    else if Delivers(rs[0]) then Ending(rs[1..], EndingOf(rs[0], d))
    else EndingOf(rs[0], d)
  }

  /** What relaying one stream comes to. */
  function Outcome(judge: Judge, rs: seq<Read>): Progress {
    ProcessAll(judge, Start, Split(Received(rs)))
  }

  function OutcomeDetail(judge: Judge, rs: seq<Read>): Detail {
    if Outcome(judge, rs).unprojectable then ProjectionFailed else Ending(rs, Eof)
  }

  class StreamReader {
    var buffer: Bytes
    var count: nat
    var terminal: Option<Kind>
    var detail: Detail
    var wrote: bool
    var prelude: seq<Bytes>
    var wire: Bytes
    ghost var written: seq<Bytes>

    ghost function State(): Progress
      reads this
    {
      Progress(count, terminal, detail == ProjectionFailed, wrote, prelude, written)
    }

    ghost predicate Valid()
      reads this
    {
      wire == Chunks(written)
    }

    /** What the relay logs of a stream: its terminal event, or else how it ended. */
    ghost function Reported(): (Option<Kind>, Option<Detail>)
      reads this
    {
      if terminal.Some? then (terminal, None) else (None, Some(detail))
    }

    constructor ()
      ensures Valid() && State() == Start && buffer == [] && detail == Eof
    {
      buffer, count, terminal, detail, wrote, prelude, wire, written := [], 0, None, Eof, false, [], [], [];
    }

    method Emit(data: Bytes, hold: bool)
      requires Valid()
      modifies this
      ensures Valid() && State() == EmitStep(old(State()), data, hold) && buffer == old(buffer) && detail == old(detail)
    {
      hide Chunks;
      if hold && !wrote {
        prelude := prelude + [data];
        return;
      }
      wrote := true;
      WriteAll(prelude + [data]);
      assert old(written) + (prelude + [data]) == old(written) + prelude + [data];
      prelude := [];
    }

    /** Write each event as one chunk. */
    method WriteAll(pending: seq<Bytes>)
      requires Valid()
      modifies this`wire, this`written
      ensures Valid() && written == old(written) + pending
    {
      hide Chunks, Chunk;
      for n := 0 to |pending|
        invariant Valid() && written == old(written) + pending[..n]
      {
        ChunksAppend(written, pending[n]);
        assert pending[..n + 1] == pending[..n] + [pending[n]];
        assert old(written) + pending[..n + 1] == old(written) + pending[..n] + [pending[n]];
        wire := wire + Chunk(pending[n]);
        written := written + [pending[n]];
      }
      assert pending[..|pending|] == pending;
    }

    method ProcessEvent(judge: Judge, event: Bytes)
      requires Valid()
      modifies this
      ensures Valid() && State() == Process(judge, old(State()), event) && buffer == old(buffer)
      ensures detail == if judge(event).Unprojectable? then ProjectionFailed else old(detail)
    {
      hide Chunks, EmitStep;
      match judge(event) {
        case Unprojectable => detail := ProjectionFailed;
        case Projected(data, kind, retryable) =>
          count := count + 1;
          terminal := if Terminal(kind) then Some(kind) else terminal;
          Emit(data, kind == NoPayload || kind == Preface || (kind == Failed && retryable));
      }
    }

    /** Process the complete events of the buffer, dropping the rest once the stream is over. */
    method Drain(judge: Judge)
      requires Valid() && !Stopped(State())
      modifies this
      ensures Valid() && State() == ProcessAll(judge, old(State()), Events(old(buffer)).0)
      ensures buffer == if Stopped(State()) then [] else Events(old(buffer)).1
      ensures detail == if State().unprojectable then ProjectionFailed else old(detail)
    {
      hide Process, PopEvent;
      ghost var es := Events(buffer).0;
      ghost var done := 0;
      while PopEvent(buffer).Some?
        invariant Valid() && 0 <= done <= |es|
        invariant !Stopped(State()) ==> Events(old(buffer)).1 == Events(buffer).1 && es[done..] == Events(buffer).0
        invariant Stopped(State()) ==> buffer == []
        invariant ProcessAll(judge, old(State()), es) == ProcessAll(judge, State(), es[done..])
        invariant detail == if State().unprojectable then ProjectionFailed else old(detail)
        decreases |buffer|
      {
        EmptyPops();
        PopShrinks(buffer);
        var (event, rest) := PopEvent(buffer).value;
        assert es[done..] == [event] + Events(rest).0;
        assert es[done..][1..] == es[done + 1..] && es[done] == event;
        buffer := rest;
        ProcessEvent(judge, event);
        done := done + 1;
        if terminal.Some? || detail == ProjectionFailed {
          buffer := [];
        }
      }
    }

    /** Read one stream to its end. However the bytes arrive, the outcome is that of the batch split
        of everything received. */
    method ReadStream(judge: Judge, rs: seq<Read>)
      requires Valid() && State() == Start && buffer == [] && detail == Eof
      modifies this
      ensures Valid() && State() == Outcome(judge, rs)
      ensures terminal.None? ==> detail == OutcomeDetail(judge, rs)
    {
      hide Process, ProcessAll, Events, Received, Ending, Chunks;
      ghost var seen: Bytes := [];
      NoEvents();
      NothingProcessed(judge, Start);
      assert rs[0..] == rs && [] + Received(rs) == Received(rs);
      var i := 0;
      while i < |rs|
        invariant 0 <= i <= |rs| && Valid() && !Stopped(State())
        invariant State() == ProcessAll(judge, Start, Events(seen).0) && buffer == Events(seen).1
        invariant Received(rs) == seen + Received(rs[i..]) && Ending(rs, Eof) == Ending(rs[i..], detail)
      {
        EndingNext(rs, i, detail);
        var chunk: Bytes := [];
        match rs[i] {
          case Data(bytes) => chunk := bytes;
          case CutShort(bytes) => chunk, detail := bytes, IncompleteRead;
          case TimedOut(late) => detail := if late then Deadline else Timeout;
          case Broken =>
          case PastDeadline => detail := Deadline;
        }
        if chunk == [] {
          Finish(judge, rs, seen);
          return;
        }
        ReceivedNext(rs, i, seen);
        EventsExtend(seen, chunk);
        ProcessSplits(judge, Start, Events(seen).0, Events(Events(seen).1 + chunk).0);
        buffer := buffer + chunk;
        Drain(judge);
        seen := seen + chunk;
        i := i + 1;
        if terminal.Some? || detail == ProjectionFailed {
          StopIsFinal(judge, seen, Received(rs[i..]));
          return;
        }
      }
      NothingMore(detail);
      assert rs[i..] == [];
      Finish(judge, rs, seen);
    }

    /** Bytes left over at the end are one more event. */
    method Finish(judge: Judge, ghost rs: seq<Read>, ghost seen: Bytes)
      requires Valid() && !Stopped(State()) && Received(rs) == seen + []
      requires State() == ProcessAll(judge, Start, Events(seen).0) && buffer == Events(seen).1
      requires detail == Ending(rs, Eof)
      modifies this
      ensures Valid() && State() == Outcome(judge, rs)
      ensures terminal.None? ==> detail == OutcomeDetail(judge, rs)
    {
      hide Process, ProcessAll, Events, Received, Ending, Chunks;
      assert seen + [] == seen;
      if buffer != [] {
        RemainderCounts(judge, seen, buffer);
        ProcessEvent(judge, buffer);
      }
    }
  }

  lemma NothingMore(d: Detail)
    ensures Received([]) == [] && Ending([], d) == d
  {
  }

  lemma ChunksAppend(es: seq<Bytes>, e: Bytes)
    ensures Chunks(es + [e]) == Chunks(es) + Chunk(e)
  {
    hide Chunk;
    assert (es + [e])[..|es|] == es;
  }

  /** One more read is one more stretch of bytes. */
  lemma ReceivedNext(rs: seq<Read>, i: nat, seen: Bytes)
    requires i < |rs| && Delivers(rs[i])
    ensures seen + Received(rs[i..]) == (seen + rs[i].bytes) + Received(rs[i + 1..])
  {
    assert rs[i..][1..] == rs[i + 1..];
  }

  lemma EndingNext(rs: seq<Read>, i: nat, d: Detail)
    requires i < |rs|
    ensures Delivers(rs[i]) ==> Ending(rs[i..], d) == Ending(rs[i + 1..], EndingOf(rs[i], d))
    ensures !Delivers(rs[i]) ==> Received(rs[i..]) == []
    ensures !Delivers(rs[i]) ==> Ending(rs[i..], d) == EndingOf(rs[i], d)
  {
    assert rs[i..][1..] == rs[i + 1..];
  }

  lemma EmptyPops()
    ensures PopEvent([]).None?
  {
    PopIsShortest([]);
  }

  lemma NoEvents()
    ensures Events([]) == ([], [])
  {
    EmptyPops();
  }

  lemma NothingProcessed(judge: Judge, p: Progress)
    ensures ProcessAll(judge, p, []) == p
  {
  }

  /** Once a stream has stopped, bytes that would have followed change nothing. */
  lemma StopIsFinal(judge: Judge, seen: Bytes, more: Bytes)
    requires Stopped(ProcessAll(judge, Start, Events(seen).0))
    ensures ProcessAll(judge, Start, Split(seen + more)) == ProcessAll(judge, Start, Events(seen).0)
  {
    hide Events;
    EventsExtend(seen, more);
    var es := Events(seen).0;
    var (fs, tail) := Events(Events(seen).1 + more);
    var rest := if tail == [] then fs else fs + [tail];
    assert Split(seen + more) == es + rest;
    ProcessSplits(judge, Start, es, rest);
  }

  /** Bytes left over at the end count as one more event. */
  lemma RemainderCounts(judge: Judge, seen: Bytes, buffer: Bytes)
    requires buffer == Events(seen).1 && buffer != [] && !Stopped(ProcessAll(judge, Start, Events(seen).0))
    ensures ProcessAll(judge, Start, Split(seen)) == Process(judge, ProcessAll(judge, Start, Events(seen).0), buffer)
  {
    hide Events, Process;
    ProcessSplits(judge, Start, Events(seen).0, [buffer]);
    ProcessOne(judge, ProcessAll(judge, Start, Events(seen).0), buffer);
  }

  /** Two readers of the same bytes, however each gets them cut into reads: they end in the same state
      and have written the same bytes, which are those that the batch split amounts to; and if the
      reads also end alike, or the stream came to its own end, they report the same. */
  method ReadTwoWays(judge: Judge, rs: seq<Read>, others: seq<Read>) returns (one: StreamReader, other: StreamReader)
    requires Received(rs) == Received(others)
    ensures one.Valid() && other.Valid() && one.State() == other.State() && one.wire == other.wire
    ensures Describes(judge, one.State(), UpToStop(judge, Split(Received(rs))))
    ensures Ending(rs, Eof) == Ending(others, Eof) ==> one.Reported() == other.Reported()
  {
    hide ProcessAll, Chunks, Received, Ending, Split, UpToStop, Describes;
    one := new StreamReader();
    other := new StreamReader();
    one.ReadStream(judge, rs);
    other.ReadStream(judge, others);
    StreamDescribed(judge, Split(Received(rs)));
  }

  // ---- reconnecting

  /** What follows an attempt that sent nothing: another stream, a failed reopen, or no time left. */
  datatype Next = Reopened(rs: seq<Read>) | ReopenFailed | NoTime

  const MaxAttempts := 6

  function NextAt(nexts: seq<Next>, k: nat): Next {
    if k < |nexts| then nexts[k] else ReopenFailed
  }

  function Attempt(first: seq<Read>, nexts: seq<Next>, k: nat): seq<Read>
    requires k == 0 || NextAt(nexts, k - 1).Reopened?
  {
    if k == 0 then first else NextAt(nexts, k - 1).rs
  }

  /** An attempt after which the relay may not reconnect. */
  predicate Settles(p: Progress) {
    p.wrote || p.terminal == Some(Completed) || p.terminal == Some(Incomplete) || p.unprojectable
  }

  /** The run of attempts: each but the last is followed by a reconnect because it settled nothing;
      the last one settled, was the last allowed, or had no successor. */
  ghost predicate Attempts(judge: Judge, first: seq<Read>, nexts: seq<Next>, reopenable: bool, n: nat) {
    && 1 <= n <= (if reopenable then MaxAttempts else 1)
    && (forall k :: 0 <= k < n - 1 ==> NextAt(nexts, k).Reopened?)
    && (forall k :: 0 <= k < n - 1 ==> !Settles(Outcome(judge, Attempt(first, nexts, k))))
    && (n < MaxAttempts && reopenable && NextAt(nexts, n - 1).Reopened? ==>
          Settles(Outcome(judge, Attempt(first, nexts, n - 1))))
  }

  /** The downstream body of a relay that ended with this attempt. */
  function BodyOf(p: Progress): Bytes {
    if !p.wrote then [] else if p.terminal.Some? then Chunks(p.written) + LastChunk else Chunks(p.written)
  }

  method Relay(judge: Judge, first: seq<Read>, nexts: seq<Next>, reopenable: bool)
    returns (wire: Bytes, headersSent: bool, closeConnection: bool, attempts: nat)
    ensures Attempts(judge, first, nexts, reopenable, attempts)
    ensures var last := Outcome(judge, Attempt(first, nexts, attempts - 1));
      && headersSent == last.wrote
      && wire == BodyOf(last)
      && closeConnection == (last.wrote && last.terminal.None?)
  {
    hide Outcome, Chunks;
    NoChunks();
    wire, headersSent, closeConnection, attempts := [], false, false, 1;
    var maximum := if reopenable then MaxAttempts else 1;
    var current := first;
    var stream := new StreamReader();
    stream.ReadStream(judge, current);
    while true
      invariant 1 <= attempts <= maximum && wire == [] && !headersSent && !closeConnection
      invariant forall k :: 0 <= k < attempts - 1 ==> NextAt(nexts, k).Reopened?
      invariant forall k :: 0 <= k < attempts - 1 ==> !Settles(Outcome(judge, Attempt(first, nexts, k)))
      invariant current == Attempt(first, nexts, attempts - 1)
      invariant stream.Valid() && stream.State() == Outcome(judge, current)
      decreases maximum - attempts
    {
      Unwritten(judge, current);
      wire := wire + stream.wire;
      headersSent := stream.wrote;
      if stream.wrote || stream.terminal == Some(Completed) || stream.terminal == Some(Incomplete)
         || stream.detail == ProjectionFailed {
        break;
      }
      if attempts == maximum {
        break;
      }
      match NextAt(nexts, attempts - 1) {
        case NoTime => break;
        case ReopenFailed => break;
        case Reopened(rs) =>
          current := rs;
          attempts := attempts + 1;
          stream := new StreamReader();
          stream.ReadStream(judge, current);
      }
    }
    if headersSent {
      if stream.terminal.Some? {
        wire := wire + LastChunk;
      } else {
        closeConnection := true;
      }
    }
  }

  lemma NoChunks()
    ensures Chunks([]) == []
  {
  }

  lemma Unwritten(judge: Judge, rs: seq<Read>)
    ensures !Outcome(judge, rs).wrote ==> Outcome(judge, rs).written == []
    ensures Outcome(judge, rs).terminal == Some(Completed) || Outcome(judge, rs).terminal == Some(Incomplete) ==>
      Outcome(judge, rs).wrote
  {
    hide ProcessAll, UpToStop, Restored;
    var es := UpToStop(judge, Split(Received(rs)));
    StreamDescribed(judge, Split(Received(rs)));
    if Outcome(judge, rs).terminal == Some(Completed) || Outcome(judge, rs).terminal == Some(Incomplete) {
      assert Commits(judge(es[|es| - 1]));
    }
  }

  lemma {:induction false} RestoredNonEmpty(judge: Judge, es: seq<Bytes>)
    requires Faithful(judge) && forall i :: 0 <= i < |es| ==> es[i] != []
    ensures forall i :: 0 <= i < |Restored(judge, es)| ==> Restored(judge, es)[i] != []
  {
    if es != [] {
      RestoredNonEmpty(judge, es[..|es| - 1]);
    }
  }

  lemma {:induction false} UpToStopIsPrefix(judge: Judge, es: seq<Bytes>)
    ensures UpToStop(judge, es) <= es
  {
    if es != [] {
      UpToStopIsPrefix(judge, es[1..]);
    }
  }

  lemma SplitNonEmpty(s: Bytes)
    ensures forall i :: 0 <= i < |Split(s)| ==> Split(s)[i] != []
  {
    SplitIsWhole(s);
  }

  /** Over every run of reconnects the body is empty, or decodes to the restored events of exactly
      the last attempt in order; it is a complete body exactly when that attempt ended in a terminal
      event, and then the terminal event is its last one. */
  lemma SingleStream(judge: Judge, first: seq<Read>, nexts: seq<Next>, reopenable: bool, n: nat)
    requires Faithful(judge) && Attempts(judge, first, nexts, reopenable, n)
    ensures var stream := Attempt(first, nexts, n - 1);
      var es := UpToStop(judge, Split(Received(stream)));
      var body := BodyOf(Outcome(judge, stream));
      && (body == [] <==> !Committed(judge, es))
      && (Committed(judge, es) ==>
          Decode(body) == if Outcome(judge, stream).terminal.Some?
            then Complete(Joined(Restored(judge, es)), []) else Partial(Joined(Restored(judge, es))))
      && (Outcome(judge, stream).terminal.Some? <==>
          es != [] && judge(es[|es| - 1]).Projected? && Terminal(judge(es[|es| - 1]).kind))
    ensures forall k :: 0 <= k < n - 1 ==> !Committed(judge, UpToStop(judge, Split(Received(Attempt(first, nexts, k)))))
  {
    hide Faithful, Split, UpToStop, Restored, Committed, ProcessAll, Chunks, Decode, Joined;
    var stream := Attempt(first, nexts, n - 1);
    var all := Split(Received(stream));
    var es := UpToStop(judge, all);
    StreamDescribed(judge, all);
    UpToStopIsPrefix(judge, all);
    SplitNonEmpty(Received(stream));
    RestoredNonEmpty(judge, es);
    CodingRoundTrip(Restored(judge, es));
    if Committed(judge, es) {
      CommittedWrites(judge, es);
    }
    forall k | 0 <= k < n - 1 ensures !Committed(judge, UpToStop(judge, Split(Received(Attempt(first, nexts, k))))) {
      StreamDescribed(judge, Split(Received(Attempt(first, nexts, k))));
    }
  }

  lemma {:induction false} CommittedWrites(judge: Judge, es: seq<Bytes>)
    requires Committed(judge, es)
    ensures Restored(judge, es) != [] && Chunks(Restored(judge, es)) != []
  {
    hide Held;
    var i :| 0 <= i < |es| && Commits(judge(es[i]));
    var n := |es| - 1;
    if judge(es[n]).Unprojectable? {
      assert es[..n][i] == es[i];
      CommittedWrites(judge, es[..n]);
    } else {
      HexRoundTrip(|judge(es[n]).data|);
    }
  }
}
