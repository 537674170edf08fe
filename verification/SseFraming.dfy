/** Server-Sent Events framing over a byte buffer, and the chunked coding of section 7.1 of RFC 9112. */
module SseFraming {
  import opened Wrappers

  type byte = b: int | 0 <= b < 256
  type Bytes = seq<byte>

  const CR: byte := 13
  const LF: byte := 10

  /** The two blank lines that end an event. */
  datatype Blank = LfLf | CrLfCrLf

  function Width(m: Blank): nat {
    if m == LfLf then 2 else 4
  }

  predicate MarkerAt(s: Bytes, m: Blank, i: int) {
    && 0 <= i && i + Width(m) <= |s|
    && match m
       case LfLf => s[i] == LF && s[i + 1] == LF
       case CrLfCrLf => s[i] == CR && s[i + 1] == LF && s[i + 2] == CR && s[i + 3] == LF
  }

  /** The least position of a marker from a position on, or -1. */
  function Find(s: Bytes, m: Blank, from: nat): (i: int)
    requires from <= |s|
    ensures i == -1 || (from <= i && MarkerAt(s, m, i))
    ensures forall j :: from <= j && MarkerAt(s, m, j) ==> 0 <= i <= j
    decreases |s| - from
  {
    if MarkerAt(s, m, from) then from
    else if from == |s| then -1
    else Find(s, m, from + 1)
  }

  /** The first complete event of a buffer and what follows it: the marker that starts first wins. */
  function PopEvent(s: Bytes): Option<(Bytes, Bytes)> {
    var lf, crlf := Find(s, LfLf, 0), Find(s, CrLfCrLf, 0);
    if lf < 0 && crlf < 0 then None
    else
      var k := if crlf < 0 || (0 <= lf < crlf) then lf + 2 else crlf + 4;
      Some((s[..k], s[k..]))
  }

  // ---- an event is the shortest prefix that ends in a blank line

  predicate Ends(s: Bytes, k: int) {
    MarkerAt(s, LfLf, k - 2) || MarkerAt(s, CrLfCrLf, k - 4)
  }

  /** Said of the bytes alone: two line feeds, or two carriage returns each before a line feed. */
  lemma EndsInBlankLine(s: Bytes, k: int)
    ensures Ends(s, k) <==>
      || (2 <= k <= |s| && s[k - 2..k] == [10, 10])
      || (4 <= k <= |s| && s[k - 4..k] == [13, 10, 13, 10])
  {
    if 4 <= k <= |s| {
      assert s[k - 4..k] == [s[k - 4], s[k - 3], s[k - 2], s[k - 1]];
    }
    if 2 <= k <= |s| {
      assert s[k - 2..k] == [s[k - 2], s[k - 1]];
    }
  }

  ghost predicate Boundary(s: Bytes, k: int) {
    Ends(s, k) && forall j :: Ends(s, j) ==> k <= j
  }

  /** The two markers cannot overlap in a way that makes starting first and ending first differ. */
  lemma NoOverlap(s: Bytes, i: int, j: int)
    requires MarkerAt(s, LfLf, i) && MarkerAt(s, CrLfCrLf, j)
    ensures i != j && (i < j <==> i + 2 <= j + 4)
  {
  }

  lemma PopIsShortest(s: Bytes)
    ensures PopEvent(s).None? <==> forall k :: !Ends(s, k)
    ensures PopEvent(s).Some? ==>
      var k := |PopEvent(s).value.0|; Boundary(s, k) && PopEvent(s).value == (s[..k], s[k..])
  {
    hide MarkerAt;
    var lf, crlf := Find(s, LfLf, 0), Find(s, CrLfCrLf, 0);
    MarkerFits(s, lf, crlf);
    if lf >= 0 && crlf >= 0 {
      NoOverlap(s, lf, crlf);
    }
    if PopEvent(s).None? {
      forall k ensures !Ends(s, k) {
        assert k >= 2 ==> !MarkerAt(s, LfLf, k - 2);
        MarkerFits(s, k - 2, k - 4);
      }
    } else {
      var k := |PopEvent(s).value.0|;
      assert Ends(s, k);
      forall j | Ends(s, j) ensures k <= j {
        MarkerFits(s, j - 2, j - 4);
      }
    }
  }

  lemma MarkerFits(s: Bytes, i: int, j: int)
    ensures MarkerAt(s, LfLf, i) ==> 0 <= i <= |s| - 2
    ensures MarkerAt(s, CrLfCrLf, j) ==> 0 <= j <= |s| - 4
  {
  }

  lemma EndsExtends(s: Bytes, t: Bytes, k: int)
    requires k <= |s|
    ensures Ends(s + t, k) <==> Ends(s, k)
  {
  }

  /** A complete event stays the first event whatever arrives later. */
  lemma PopExtends(s: Bytes, t: Bytes)
    requires PopEvent(s).Some?
    ensures PopEvent(s + t) == Some((PopEvent(s).value.0, PopEvent(s).value.1 + t))
  {
    hide PopEvent;
    PopIsShortest(s);
    PopIsShortest(s + t);
    var k := |PopEvent(s).value.0|;
    EndsExtends(s, t, k);
    if PopEvent(s + t).Some? {
      var j := |PopEvent(s + t).value.0|;
      EndsExtends(s, t, j);
      assert j == k;
      assert (s + t)[..k] == s[..k] && (s + t)[k..] == s[k..] + t;
    }
  }

  lemma PopShrinks(s: Bytes)
    requires PopEvent(s).Some?
    ensures var (e, rest) := PopEvent(s).value; s == e + rest && |e| >= 2 && |rest| < |s|
  {
    PopIsShortest(s);
  }

  // ---- the batch split

  /** The complete events of a stream, and the bytes after the last one. */
  function Events(s: Bytes): (seq<Bytes>, Bytes)
    decreases |s|
  {
    match PopEvent(s)
    case None => ([], s)
    case Some((e, rest)) =>
      PopShrinks(s);
      var (es, tail) := Events(rest);
      ([e] + es, tail)
  }

  /** A stream as the relay sees it: its complete events, then a non-empty remainder. */
  function Split(s: Bytes): seq<Bytes> {
    var (es, tail) := Events(s);
    if tail == [] then es else es + [tail]
  }

  function Flatten(es: seq<Bytes>): Bytes {
    if es == [] then [] else es[0] + Flatten(es[1..])
  }

  /** Splitting loses nothing: the events in order are the stream. */
  lemma {:induction false} SplitIsWhole(s: Bytes)
    ensures Flatten(Events(s).0) + Events(s).1 == s
    ensures forall i :: 0 <= i < |Events(s).0| ==> |Events(s).0[i]| >= 2
    decreases |s|
  {
    hide PopEvent;
    if PopEvent(s).Some? {
      var (e, rest) := PopEvent(s).value;
      PopShrinks(s);
      SplitIsWhole(rest);
      var (es, tail) := Events(rest);
      assert ([e] + es)[1..] == es;
      assert e + Flatten(es) + tail == e + (Flatten(es) + tail);
    }
  }

  /** More bytes leave the complete events as they are and continue the remainder. */
  lemma {:induction false} EventsExtend(s: Bytes, t: Bytes)
    ensures Events(s + t) == (Events(s).0 + Events(Events(s).1 + t).0, Events(Events(s).1 + t).1)
    decreases |s|
  {
    hide PopEvent;
    match PopEvent(s) {
      case None => assert [] + Events(s + t).0 == Events(s + t).0;
      case Some((e, rest)) =>
        PopShrinks(s);
        PopExtends(s, t);
        EventsExtend(rest, t);
        assert [e] + (Events(rest).0 + Events(Events(rest).1 + t).0) ==
          ([e] + Events(rest).0) + Events(Events(rest).1 + t).0;
    }
  }

  // ---- chunked transfer coding

  predicate HexDigit(b: byte) {
    48 <= b <= 57 || 65 <= b <= 70 || 97 <= b <= 102
  }

  function HexValue(b: byte): (n: nat)
    requires HexDigit(b)
    ensures n < 16
  {
    if b <= 57 then b - 48 else if b <= 70 then b - 55 else b - 87
  }

  function HexDigitOf(n: nat): (b: byte)
    requires n < 16
    ensures HexDigit(b) && HexValue(b) == n
  {
    if n < 10 then 48 + n else 55 + n
  }

  function Hex(n: nat): Bytes {
    if n < 16 then [HexDigitOf(n)] else Hex(n / 16) + [HexDigitOf(n % 16)]
  }

  function HexNumber(s: Bytes): Option<nat> {
    if s == [] then Some(0)
    else if !HexDigit(s[|s| - 1]) || HexNumber(s[..|s| - 1]).None? then None
    else Some(16 * HexNumber(s[..|s| - 1]).value + HexValue(s[|s| - 1]))
  }

  lemma {:induction false} HexRoundTrip(n: nat)
    ensures Hex(n) != [] && HexNumber(Hex(n)) == Some(n)
    ensures forall i :: 0 <= i < |Hex(n)| ==> HexDigit(Hex(n)[i])
  {
    if n < 16 {
      assert Hex(n)[..0] == [];
    } else {
      HexRoundTrip(n / 16);
      assert Hex(n)[..|Hex(n)| - 1] == Hex(n / 16);
    }
  }

  /** The digits written are the upper-case ones; a recipient takes either case. */
  lemma HexDigitsAre(n: nat)
    requires n < 16
    ensures HexDigitOf(n) == "0123456789ABCDEF"[n] as int
    ensures HexDigit("0123456789abcdef"[n] as int) && HexValue("0123456789abcdef"[n] as int) == n
    ensures forall b: byte :: HexDigit(b) ==> b in [48 + HexValue(b), 55 + HexValue(b), 87 + HexValue(b)]
  {
  }

  const CrLf: Bytes := [CR, LF]

  function Chunk(data: Bytes): Bytes {
    Hex(|data|) + CrLf + data + CrLf
  }

  const LastChunk: Bytes := [48] + CrLf + CrLf

  function Chunks(es: seq<Bytes>): Bytes {
    if es == [] then [] else Chunks(es[..|es| - 1]) + Chunk(es[|es| - 1])
  }

  /** What a recipient makes of a chunked body: complete only at a last chunk. */
  datatype Body = Complete(data: Bytes, rest: Bytes) | Partial(data: Bytes) | Malformed

  /** Position of the first byte that is not a hexadecimal digit. */
  function SizeEnd(s: Bytes, i: nat): (k: nat)
    requires i <= |s|
    ensures i <= k <= |s|
    decreases |s| - i
  {
    if i < |s| && HexDigit(s[i]) then SizeEnd(s, i + 1) else i
  }

  /** The length of the size line's digits and the size they give, if a whole chunk is there. */
  function ChunkHead(s: Bytes): (r: Option<(nat, nat)>)
    ensures r.Some? ==> 0 < r.value.0 && r.value.0 + 4 + r.value.1 <= |s|
  {
    var k := SizeEnd(s, 0);
    if k == 0 || HexNumber(s[..k]).None? || k + 2 > |s| || s[k..k + 2] != CrLf then None
    else
      var n := HexNumber(s[..k]).value;
      if k + 2 + n + 2 > |s| || s[k + 2 + n..k + 4 + n] != CrLf then None else Some((k, n))
  }

  function Prepend(data: Bytes, b: Body): Body {
    match b
    case Complete(more, rest) => Complete(data + more, rest)
    case Partial(more) => Partial(data + more)
    case Malformed => Malformed
  }

  /** The recipient: a size line, that many bytes and a line end, until a chunk of size zero. */
  function Decode(s: Bytes): Body
    decreases |s|
  {
    if s == [] then Partial([])
    else
      match ChunkHead(s)
      case None => Malformed
      case Some((k, n)) =>
        if n == 0 then Complete([], s[k + 4..]) else Prepend(s[k + 2..k + 2 + n], Decode(s[k + 4 + n..]))
  }

  lemma {:induction false} SizeEndStops(s: Bytes, i: nat, k: nat)
    requires i <= k < |s| && !HexDigit(s[k]) && forall j :: i <= j < k ==> HexDigit(s[j])
    ensures SizeEnd(s, i) == k
    decreases k - i
  {
    if i < k {
      SizeEndStops(s, i + 1, k);
    }
  }

  lemma Layout(size: Bytes, data: Bytes, tail: Bytes)
    ensures var s, k, n := size + CrLf + data + CrLf + tail, |size|, |data|;
      && s[..k] == size && s[k..k + 2] == CrLf && s[k + 2..k + 2 + n] == data
      && s[k + 2 + n..k + 4 + n] == CrLf && s[k + 4 + n..] == tail && s[k] == CR
      && forall j :: 0 <= j < k ==> s[j] == size[j]
  {
  }

  /** A non-empty chunk is read back, whatever follows it. */
  lemma ChunkDecodes(data: Bytes, tail: Bytes)
    requires data != []
    ensures Decode(Chunk(data) + tail) == Prepend(data, Decode(tail))
  {
    hide Hex, HexNumber, HexDigit, Prepend, SizeEnd;
    var size := Hex(|data|);
    var k, n := |size|, |data|;
    HexRoundTrip(n);
    var s := Chunk(data) + tail;
    assert s == size + CrLf + data + CrLf + tail;
    Layout(size, data, tail);
    CrIsNotHex();
    SizeEndStops(s, 0, k);
    assert ChunkHead(s) == Some((k, n));
  }

  lemma CrIsNotHex()
    ensures !HexDigit(CR)
  {
  }

  lemma {:induction false} ChunksDecode(es: seq<Bytes>, tail: Bytes)
    requires forall i :: 0 <= i < |es| ==> es[i] != []
    ensures Decode(Chunks(es) + tail) == Prepend(Joined(es), Decode(tail))
  {
    hide Decode, Chunk;
    if es == [] {
      assert Chunks(es) + tail == tail;
    } else {
      var n := |es| - 1;
      ChunkDecodes(es[n], tail);
      ChunksDecode(es[..n], Chunk(es[n]) + tail);
      assert Chunks(es) + tail == Chunks(es[..n]) + (Chunk(es[n]) + tail);
      PrependTwice(Joined(es[..n]), es[n], Decode(tail));
    }
  }

  lemma PrependTwice(a: Bytes, b: Bytes, body: Body)
    ensures Prepend(a, Prepend(b, body)) == Prepend(a + b, body)
  {
    if body.Complete? || body.Partial? {
      assert a + (b + body.data) == (a + b) + body.data;
    }
  }

  function Joined(es: seq<Bytes>): Bytes {
    if es == [] then [] else Joined(es[..|es| - 1]) + es[|es| - 1]
  }

  /** A coded sequence of non-empty events decodes to those events joined; it is complete exactly
      when the last chunk was added. */
  lemma CodingRoundTrip(es: seq<Bytes>)
    requires forall i :: 0 <= i < |es| ==> es[i] != []
    ensures Decode(Chunks(es) + LastChunk) == Complete(Joined(es), [])
    ensures Decode(Chunks(es)) == Partial(Joined(es))
  {
    ChunksDecode(es, LastChunk);
    ChunksDecode(es, []);
    assert Chunks(es) + [] == Chunks(es) && Joined(es) + [] == Joined(es);
    LastChunkDecodes();
  }

  lemma LastChunkDecodes()
    ensures Decode(LastChunk) == Complete([], [])
  {
    assert Hex(0) == [48];
    HexRoundTrip(0);
    SizeEndStops(LastChunk, 0, 1);
    assert LastChunk[..1] == [48] && LastChunk[1..3] == CrLf && LastChunk[3..5] == CrLf && LastChunk[5..] == [];
  }
}
