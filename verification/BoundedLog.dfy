/** A text log kept in a live file and numbered backups, each bounded in size. */
module BoundedLog {
  import opened Wrappers

  type Text = seq<int>

  /** Segment 0 is the live file, segment 1 the newest backup. */
  type Segments = map<nat, Text>

  function Segment(files: Segments, i: nat): Option<Text> {
    if i in files then Some(files[i]) else None
  }

  predicate Oversized(files: Segments, i: nat, maxBytes: int) {
    i in files && |files[i]| > maxBytes
  }

  /** The bytes in oversized segments from one index up to another. */
  function OversizedBytes(files: Segments, lo: nat, hi: int, maxBytes: int): nat
    decreases hi - lo
  {
    if lo >= hi then 0
    else
      var rest := OversizedBytes(files, lo, hi - 1, maxBytes);
      if Oversized(files, hi - 1, maxBytes) then |files[hi - 1]| + rest else rest
  }

  /** A segment that is kept only if it is within the limit. */
  function Fitting(files: Segments, i: nat, maxBytes: int): Option<Text> {
    if Oversized(files, i, maxBytes) then None else Segment(files, i)
  }

  predicate MustRotate(files: Segments, incoming: nat, maxBytes: int) {
    0 in files && |files[0]| + incoming > maxBytes
  }

  /** Where each segment of a rotated log comes from. */
  function Rotated(files: Segments, maxBytes: int, backups: int, i: nat): Option<Text>
    requires 0 in files
  {
    if i == 0 then None
    else if backups <= 0 || i > backups then Segment(files, i)
    else if |files[0]| > maxBytes then Fitting(files, i, maxBytes)
    else if i == 1 then Some(files[0])
    else Fitting(files, i - 1, maxBytes)
  }

  function RotatedAway(files: Segments, maxBytes: int, backups: int): nat
    requires 0 in files
  {
    if |files[0]| > maxBytes then |files[0]| + OversizedBytes(files, 1, backups + 1, maxBytes)
    else OversizedBytes(files, 1, backups, maxBytes)
  }

  class Log {
    var files: Segments

    constructor ()
      ensures files == map[]
    {
      files := map[];
    }

    /** Make room for more bytes: drop an oversized live file, else shift every segment by one. */
    method Rotate(incoming: nat, maxBytes: int, backups: int) returns (discarded: nat)
      modifies this
      ensures !MustRotate(old(files), incoming, maxBytes) ==> files == old(files) && discarded == 0
      ensures MustRotate(old(files), incoming, maxBytes) ==>
        && (forall i: nat :: Segment(files, i) == Rotated(old(files), maxBytes, backups, i))
        && discarded == RotatedAway(old(files), maxBytes, backups)
    {
      if 0 !in files || |files[0]| + incoming <= maxBytes {
        return 0;
      }
      discarded := 0;
      if |files[0]| > maxBytes {
        discarded := |files[0]|;
        files := files - {0};
        OversizedAgree(files, old(files), 1, backups + 1, maxBytes);
      } else if backups <= 0 {
        files := files - {0};
      } else {
        discarded := Shift(maxBytes, backups);
        forall i: nat | i in files && 1 <= i < backups + 1 ensures |files[i]| <= maxBytes {
          assert Segment(files, i) == Rotated(old(files), maxBytes, backups, i);
        }
        NoneOversized(files, 1, backups + 1, maxBytes);
      }
      var more := DropOversized(maxBytes, backups);
      discarded := discarded + more;
    }

    method Shift(maxBytes: int, backups: int) returns (discarded: nat)
      requires 0 in files && |files[0]| <= maxBytes && backups >= 1
      modifies this
      ensures forall i: nat :: Segment(files, i) == Rotated(old(files), maxBytes, backups, i)
      ensures discarded == OversizedBytes(old(files), 1, backups, maxBytes)
    {
      discarded := 0;
      files := files - {backups};
      var index := backups - 1;
      while index > 0
        invariant 0 <= index < backups
        invariant forall i: nat :: i <= index || i > backups ==> Segment(files, i) == Segment(old(files), i)
        invariant index + 1 !in files
        invariant forall i: nat ::
          index + 1 < i <= backups ==> Segment(files, i) == Fitting(old(files), i - 1, maxBytes)
        invariant discarded + OversizedBytes(old(files), 1, index + 1, maxBytes) ==
          OversizedBytes(old(files), 1, backups, maxBytes)
      {
        assert Segment(files, index) == Segment(old(files), index);
        ghost var before := files;
        if index in files {
          var content := files[index];
          if |content| > maxBytes {
            discarded := discarded + |content|;
            files := files - {index};
          } else {
            files := (files - {index})[index + 1 := content];
          }
        }
        assert forall i: nat :: i != index && i != index + 1 ==> Segment(files, i) == Segment(before, i);
        assert Segment(files, index + 1) == Fitting(old(files), index, maxBytes);
        index := index - 1;
      }
      assert Segment(files, 0) == Segment(old(files), 0);
      ghost var before := files;
      files := (files - {0})[1 := files[0]];
      assert forall i: nat :: i > 1 ==> Segment(files, i) == Segment(before, i);
    }

    method DropOversized(maxBytes: int, backups: int) returns (discarded: nat)
      modifies this
      ensures forall i: nat ::
        Segment(files, i) == if 1 <= i <= backups then Fitting(old(files), i, maxBytes) else Segment(old(files), i)
      ensures discarded == OversizedBytes(old(files), 1, backups + 1, maxBytes)
    {
      discarded := 0;
      var index := 1;
      while index <= backups
        invariant index >= 1 && (index <= backups + 1 || index == 1)
        invariant forall i: nat ::
          Segment(files, i) == if 1 <= i < index then Fitting(old(files), i, maxBytes) else Segment(old(files), i)
        invariant discarded == OversizedBytes(old(files), 1, index, maxBytes)
      {
        assert Segment(files, index) == Segment(old(files), index);
        if index in files && |files[index]| > maxBytes {
          discarded := discarded + |files[index]|;
          files := files - {index};
        }
        index := index + 1;
      }
    }

    /** Append one line; when something oversized was discarded, the line says so. */
    method Append(line: Text, notice: nat -> Text, maxBytes: int, backups: int)
      modifies this
      ensures files == Appended(old(files), line, notice, maxBytes, backups)
    {
      hide Rotated, RotatedAway;
      var discarded := Rotate(|line|, maxBytes, backups);
      var text := if discarded > 0 then notice(discarded) else line;
      ghost var rotated := files;
      assert rotated == AfterRotation(old(files), |line|, maxBytes, backups) by {
        if MustRotate(old(files), |line|, maxBytes) {
          RotationDetermined(old(files), rotated, maxBytes, backups);
        }
      }
      files := files[0 := Part(files, 0) + text];
    }
  }

  lemma {:induction false} OversizedAgree(files: Segments, others: Segments, lo: nat, hi: int, maxBytes: int)
    requires forall i: nat :: lo <= i < hi ==> Segment(files, i) == Segment(others, i)
    ensures OversizedBytes(files, lo, hi, maxBytes) == OversizedBytes(others, lo, hi, maxBytes)
    decreases hi - lo
  {
    if lo < hi {
      assert Segment(files, hi - 1) == Segment(others, hi - 1);
      OversizedAgree(files, others, lo, hi - 1, maxBytes);
    }
  }

  lemma {:induction false} NoneOversized(files: Segments, lo: nat, hi: int, maxBytes: int)
    requires forall i: nat :: lo <= i < hi && i in files ==> |files[i]| <= maxBytes
    ensures OversizedBytes(files, lo, hi, maxBytes) == 0
    decreases hi - lo
  {
    if lo < hi {
      NoneOversized(files, lo, hi - 1, maxBytes);
    }
  }

  // ---- an append as a function of the log

  function AfterRotation(files: Segments, incoming: nat, maxBytes: int, backups: int): Segments {
    if !MustRotate(files, incoming, maxBytes) then files
    else
      RotatedSegments(files, maxBytes, backups)
  }

  function RotatedSegments(files: Segments, maxBytes: int, backups: int): Segments
    requires 0 in files
  {
    map i: nat | i in Candidates(files) && Rotated(files, maxBytes, backups, i).Some? ::
      Rotated(files, maxBytes, backups, i).value
  }

  function Candidates(files: Segments): set<nat> {
    files.Keys + (set i <- files.Keys :: i + 1) + {1}
  }

  lemma RotationDetermined(files: Segments, rotated: Segments, maxBytes: int, backups: int)
    requires 0 in files && forall i: nat :: Segment(rotated, i) == Rotated(files, maxBytes, backups, i)
    ensures rotated == RotatedSegments(files, maxBytes, backups)
  {
    forall i: nat | Rotated(files, maxBytes, backups, i).Some? ensures i in Candidates(files) {
      if i !in files && i > 1 {
        assert i - 1 in files;
      }
    }
    assert forall i: nat :: i in rotated <==> Segment(rotated, i).Some?;
  }

  function Appended(files: Segments, line: Text, notice: nat -> Text, maxBytes: int, backups: int): Segments {
    var rotated := AfterRotation(files, |line|, maxBytes, backups);
    var discarded := if MustRotate(files, |line|, maxBytes) then RotatedAway(files, maxBytes, backups) else 0;
    rotated[0 := Part(rotated, 0) + if discarded > 0 then notice(discarded) else line]
  }

  // ---- every run from an empty log

  function Logged(lines: seq<Text>, notice: nat -> Text, maxBytes: int, backups: int): Segments {
    if lines == [] then map[]
    else Appended(Logged(lines[..|lines| - 1], notice, maxBytes, backups), lines[|lines| - 1], notice, maxBytes,
                  backups)
  }

  function All(lines: seq<Text>): Text {
    if lines == [] then [] else All(lines[..|lines| - 1]) + lines[|lines| - 1]
  }

  function Part(files: Segments, i: nat): Text {
    if i in files then files[i] else []
  }

  /** The log as a reader sees it: backups from the oldest to the newest, then the live file. */
  function Kept(files: Segments, from: nat): Text {
    if from == 0 then Part(files, 0) else Part(files, from) + Kept(files, from - 1)
  }

  ghost predicate IsSuffix(s: Text, t: Text) {
    |s| <= |t| && s == t[|t| - |s|..]
  }

  function Oldest(backups: int): nat {
    if backups < 0 then 0 else backups
  }

  ghost predicate Retains(files: Segments, all: Text, maxBytes: int, backups: int) {
    && (forall i: nat :: i in files ==> i <= Oldest(backups) && |files[i]| <= maxBytes)
    && IsSuffix(Kept(files, Oldest(backups)), all)
  }

  /** Rotation within the limit moves every segment by one and forgets the oldest. */
  lemma RotationShifts(files: Segments, incoming: nat, maxBytes: int, backups: int, i: nat)
    requires MustRotate(files, incoming, maxBytes) && forall k: nat :: k in files ==>
      k <= Oldest(backups) && |files[k]| <= maxBytes
    ensures Segment(AfterRotation(files, incoming, maxBytes, backups), i) ==
      if i == 0 || i > Oldest(backups) then None else Segment(files, i - 1)
    ensures RotatedAway(files, maxBytes, backups) == 0
  {
    NoneOversized(files, 1, backups, maxBytes);
    var rotated := AfterRotation(files, incoming, maxBytes, backups);
    if i >= 1 && i - 1 in files {
      assert i in Candidates(files);
    }
  }

  lemma {:induction false} KeptShifts(files: Segments, rotated: Segments, from: nat)
    requires forall i: nat :: i <= from ==> Segment(rotated, i) == if i == 0 then None else Segment(files, i - 1)
    ensures Kept(rotated, from) == if from == 0 then [] else Kept(files, from - 1)
  {
    hide Segment, Part;
    assert Segment(rotated, from) == if from == 0 then None else Segment(files, from - 1);
    PartShifts(files, rotated, from);
    if from > 0 {
      KeptShifts(files, rotated, from - 1);
      if from == 1 {
        assert Kept(files, 0) + [] == Kept(files, 0);
      }
    }
  }

  lemma PartShifts(files: Segments, rotated: Segments, i: nat)
    requires Segment(rotated, i) == if i == 0 then None else Segment(files, i - 1)
    ensures Part(rotated, i) == if i == 0 then [] else Part(files, i - 1)
  {
  }

  lemma {:induction false} KeptAppends(files: Segments, text: Text, from: nat)
    ensures Kept(files[0 := Part(files, 0) + text], from) == Kept(files, from) + text
  {
    var after := files[0 := Part(files, 0) + text];
    if from > 0 {
      KeptAppends(files, text, from - 1);
      assert Part(after, from) == Part(files, from);
      assert Part(files, from) + (Kept(files, from - 1) + text) == Part(files, from) + Kept(files, from - 1) + text;
    }
  }

  lemma SuffixGrows(s: Text, t: Text, more: Text)
    requires IsSuffix(s, t)
    ensures IsSuffix(s + more, t + more)
  {
  }

  lemma SuffixDrops(head: Text, s: Text, t: Text)
    requires IsSuffix(head + s, t)
    ensures IsSuffix(s, t)
  {
    assert s == (head + s)[|head|..];
  }

  lemma AppendRetains(files: Segments, all: Text, line: Text, notice: nat -> Text, maxBytes: int, backups: int)
    requires Retains(files, all, maxBytes, backups) && |line| <= maxBytes
    ensures Retains(Appended(files, line, notice, maxBytes, backups), all + line, maxBytes, backups)
  {
    hide Rotated, RotatedAway, AfterRotation, Kept, IsSuffix;
    var rotated := AfterRotation(files, |line|, maxBytes, backups);
    var n := Oldest(backups);
    if MustRotate(files, |line|, maxBytes) {
      forall i: nat ensures Segment(rotated, i) == if i == 0 || i > n then None else Segment(files, i - 1) {
        RotationShifts(files, |line|, maxBytes, backups, i);
      }
      assert Segment(rotated, 0).None?;
      RotationShifts(files, |line|, maxBytes, backups, 0);
      KeptShifts(files, rotated, n);
      ForgetsOldest(files, all, n);
      forall i: nat | i in rotated ensures i <= n && |rotated[i]| <= maxBytes {
        assert Segment(rotated, i).Some?;
      }
    } else {
      Unrotated(files, |line|, maxBytes, backups);
    }
    SuffixGrows(Kept(rotated, n), all, line);
    KeptAppends(rotated, line, n);
  }

  lemma Unrotated(files: Segments, incoming: nat, maxBytes: int, backups: int)
    requires !MustRotate(files, incoming, maxBytes)
    ensures AfterRotation(files, incoming, maxBytes, backups) == files
  {
  }

  lemma ForgetsOldest(files: Segments, all: Text, n: nat)
    requires IsSuffix(Kept(files, n), all)
    ensures IsSuffix(if n == 0 then [] else Kept(files, n - 1), all)
  {
    if n > 0 {
      SuffixDrops(Part(files, n), Kept(files, n - 1), all);
    }
  }

  /** Over every run of appends from an empty log with lines within the limit, every segment stays
      within the limit, no more than the allowed backups exist, and what is kept, read from the
      oldest backup to the live file, is a suffix of everything appended. */
  lemma {:induction false} Retention(lines: seq<Text>, notice: nat -> Text, maxBytes: int, backups: int)
    requires forall i :: 0 <= i < |lines| ==> |lines[i]| <= maxBytes
    ensures Retains(Logged(lines, notice, maxBytes, backups), All(lines), maxBytes, backups)
  {
    hide Appended, Retains;
    if lines == [] {
      NothingLogged(maxBytes, backups);
    } else {
      var n := |lines| - 1;
      Retention(lines[..n], notice, maxBytes, backups);
      AppendRetains(Logged(lines[..n], notice, maxBytes, backups), All(lines[..n]), lines[n], notice, maxBytes,
                    backups);
    }
  }

  lemma NothingLogged(maxBytes: int, backups: int)
    ensures Retains(map[], [], maxBytes, backups)
  {
    NothingKept(Oldest(backups));
  }

  lemma {:induction false} NothingKept(n: nat)
    ensures Kept(map[], n) == []
  {
    if n > 0 {
      NothingKept(n - 1);
    }
  }

  // ---- when nothing is forgotten

  /** A line that fits the live file is appended to it, and nothing else changes. */
  lemma FittingAppend(files: Segments, line: Text, notice: nat -> Text, maxBytes: int, backups: int)
    requires 0 !in files || |files[0]| + |line| <= maxBytes
    ensures var after := Appended(files, line, notice, maxBytes, backups);
      && after.Keys == files.Keys + {0}
      && after[0] == (if 0 in files then files[0] else []) + line
      && forall i :: i in files && i != 0 ==> after[i] == files[i]
  {
  }

  /** While everything appended is within the limit, all of it is in the live file. */
  lemma {:induction false} NothingForgotten(lines: seq<Text>, notice: nat -> Text, maxBytes: int, backups: int)
    requires lines != [] && |All(lines)| <= maxBytes
    ensures Logged(lines, notice, maxBytes, backups) == map[0 := All(lines)]
  {
    hide Appended;
    var n := |lines| - 1;
    var before := Logged(lines[..n], notice, maxBytes, backups);
    if n == 0 {
      assert lines[..n] == [];
    } else {
      NothingForgotten(lines[..n], notice, maxBytes, backups);
    }
    FittingAppend(before, lines[n], notice, maxBytes, backups);
    assert [] + lines[n] == lines[n];
  }

  /** A line that does not fit moves the live file, whole, to the newest backup and starts a new one. */
  lemma OverflowMovesLive(files: Segments, line: Text, notice: nat -> Text, maxBytes: int, backups: int)
    requires 0 in files && |files[0]| <= maxBytes < |files[0]| + |line| && backups >= 1
    requires forall i: nat :: i in files ==> i <= backups && |files[i]| <= maxBytes
    ensures var after := Appended(files, line, notice, maxBytes, backups);
      && 0 in after && after[0] == line && 1 in after && after[1] == files[0]
      && forall i: nat :: 1 <= i < backups ==> Segment(after, i + 1) == Segment(files, i)
  {
    hide AfterRotation, RotatedAway, Rotated;
    forall i: nat ensures Segment(AfterRotation(files, |line|, maxBytes, backups), i) ==
      if i == 0 || i > Oldest(backups) then None else Segment(files, i - 1)
    {
      RotationShifts(files, |line|, maxBytes, backups, i);
    }
    RotationShifts(files, |line|, maxBytes, backups, 0);
    var rotated := AfterRotation(files, |line|, maxBytes, backups);
    assert Segment(rotated, 0) == None && Segment(rotated, 1) == Some(files[0]);
    assert [] + line == line;
    var after := Appended(files, line, notice, maxBytes, backups);
    assert forall i: nat :: 1 <= i ==> Segment(after, i) == Segment(rotated, i);
    forall i: nat | 1 <= i < backups ensures Segment(after, i + 1) == Segment(files, i) {
      assert Segment(rotated, i + 1) == Segment(files, i);
    }
  }

  /** Whatever was there before, no oversized segment survives a rotation. */
  lemma RotationFits(files: Segments, incoming: nat, maxBytes: int, backups: int, i: nat)
    requires MustRotate(files, incoming, maxBytes) && i <= Oldest(backups)
    ensures i in AfterRotation(files, incoming, maxBytes, backups) ==>
      |AfterRotation(files, incoming, maxBytes, backups)[i]| <= maxBytes
  {
  }

  // ---- no byte disappears unaccounted for

  function Weight(files: Segments, n: nat): nat {
    if n == 0 then 0 else Weight(files, n - 1) + |Part(files, n - 1)|
  }

  ghost predicate RotatesTo(files: Segments, rotated: Segments, maxBytes: int, backups: int) {
    0 in files && forall i: nat :: Segment(rotated, i) == Rotated(files, maxBytes, backups, i)
  }

  lemma RotatedIs(files: Segments, incoming: nat, maxBytes: int, backups: int)
    requires MustRotate(files, incoming, maxBytes)
    ensures RotatesTo(files, AfterRotation(files, incoming, maxBytes, backups), maxBytes, backups)
  {
    forall i: nat
      ensures Segment(AfterRotation(files, incoming, maxBytes, backups), i) == Rotated(files, maxBytes, backups, i)
    {
      if i >= 1 && i - 1 in files {
        assert i in Candidates(files);
      }
    }
  }

  lemma PartOf(files: Segments, i: nat)
    ensures |Part(files, i)| == if Segment(files, i).Some? then |Segment(files, i).value| else 0
  {
  }

  /** Dropping an oversized live file and the oversized backups. */
  lemma {:induction false} DropWeighs(files: Segments, rotated: Segments, maxBytes: int, backups: int, n: nat)
    requires RotatesTo(files, rotated, maxBytes, backups) && |files[0]| > maxBytes && n >= 1
    ensures Weight(rotated, n) + |files[0]|
      + OversizedBytes(files, 1, if n > backups then backups + 1 else n, maxBytes) == Weight(files, n)
  {
    var i := n - 1;
    assert Segment(rotated, i) == Rotated(files, maxBytes, backups, i);
    PartOf(rotated, i);
    PartOf(files, i);
    if n > 1 {
      DropWeighs(files, rotated, maxBytes, backups, i);
    }
  }

  /** Shifting every segment by one, less the oversized ones. */
  lemma {:induction false} ShiftWeighs(files: Segments, rotated: Segments, maxBytes: int, backups: int, n: nat)
    requires RotatesTo(files, rotated, maxBytes, backups) && |files[0]| <= maxBytes && 1 <= n <= backups
    ensures Weight(rotated, n + 1) + OversizedBytes(files, 1, n, maxBytes) == Weight(files, n)
  {
    assert Segment(rotated, n) == Rotated(files, maxBytes, backups, n);
    PartOf(rotated, n);
    PartOf(files, n - 1);
    if n == 1 {
      assert Segment(rotated, 0) == Rotated(files, maxBytes, backups, 0);
      PartOf(rotated, 0);
      assert Weight(rotated, 1) == 0 && Weight(files, 1) == |files[0]|;
    } else {
      ShiftWeighs(files, rotated, maxBytes, backups, n - 1);
    }
  }

  /** Past the last backup a rotation changes nothing. */
  lemma {:induction false} BeyondWeighs(files: Segments, rotated: Segments, maxBytes: int, backups: int, n: nat)
    requires RotatesTo(files, rotated, maxBytes, backups) && n > Oldest(backups)
    ensures Weight(rotated, n) - Weight(rotated, Oldest(backups) + 1) ==
      Weight(files, n) - Weight(files, Oldest(backups) + 1)
  {
    if n > Oldest(backups) + 1 {
      assert Segment(rotated, n - 1) == Rotated(files, maxBytes, backups, n - 1);
      PartOf(rotated, n - 1);
      PartOf(files, n - 1);
      BeyondWeighs(files, rotated, maxBytes, backups, n - 1);
    }
  }

  /** What a rotation forgets without a notice: the oldest segment, when the live file is moved. */
  function Forgotten(files: Segments, maxBytes: int, backups: int): nat
    requires 0 in files
  {
    if |files[0]| > maxBytes then 0 else |Part(files, Oldest(backups))|
  }

  /** The bytes that a rotation announces as discarded are exactly those that are gone, apart from the
      oldest segment. */
  lemma RotationConserves(files: Segments, incoming: nat, maxBytes: int, backups: int, n: nat)
    requires MustRotate(files, incoming, maxBytes) && n > Oldest(backups)
    ensures Weight(AfterRotation(files, incoming, maxBytes, backups), n) + RotatedAway(files, maxBytes, backups)
      + Forgotten(files, maxBytes, backups) == Weight(files, n)
  {
    hide AfterRotation, Rotated, MustRotate;
    var rotated := AfterRotation(files, incoming, maxBytes, backups);
    MustHaveLive(files, incoming, maxBytes);
    RotatedIs(files, incoming, maxBytes, backups);
    BeyondWeighs(files, rotated, maxBytes, backups, n);
    if |files[0]| > maxBytes {
      DropWeighs(files, rotated, maxBytes, backups, Oldest(backups) + 1);
    } else if backups >= 1 {
      ShiftWeighs(files, rotated, maxBytes, backups, backups);
    } else {
      LiveIsGone(files, rotated, maxBytes, backups);
    }
  }

  lemma MustHaveLive(files: Segments, incoming: nat, maxBytes: int)
    requires MustRotate(files, incoming, maxBytes)
    ensures 0 in files
  {
  }

  lemma LiveIsGone(files: Segments, rotated: Segments, maxBytes: int, backups: int)
    requires RotatesTo(files, rotated, maxBytes, backups)
    ensures Weight(rotated, 1) == 0 && Weight(files, 1) == |files[0]|
  {
    assert Segment(rotated, 0) == Rotated(files, maxBytes, backups, 0);
    PartOf(rotated, 0);
    assert Weight(rotated, 0) == 0 && Weight(files, 0) == 0;
  }

  /** The new live file after a rotation starts with the notice of just those bytes, if there are any, and is
      the line otherwise. */
  lemma NoticeIsTrue(files: Segments, line: Text, notice: nat -> Text, maxBytes: int, backups: int, n: nat)
    requires MustRotate(files, |line|, maxBytes) && n > Oldest(backups)
    ensures var after := Appended(files, line, notice, maxBytes, backups);
      var gone := Weight(files, n) - (Weight(after, n) - |Part(after, 0)|) - Forgotten(files, maxBytes, backups);
      gone >= 0 && Part(after, 0) == if gone > 0 then notice(gone) else line
  {
    hide AfterRotation, Rotated, MustRotate, RotatedAway, Forgotten;
    MustHaveLive(files, |line|, maxBytes);
    RotationConserves(files, |line|, maxBytes, backups, n);
    RotatedIs(files, |line|, maxBytes, backups);
    var rotated := AfterRotation(files, |line|, maxBytes, backups);
    LiveIsGone(files, rotated, maxBytes, backups);
    var d := RotatedAway(files, maxBytes, backups);
    var text := if d > 0 then notice(d) else line;
    PartOf(rotated, 0);
    assert Weight(rotated, 1) == Weight(rotated, 0) + |Part(rotated, 0)|;
    assert Part(rotated, 0) == [];
    assert [] + text == text;
    LiveWeighs(rotated, text, n);
  }

  lemma {:induction false} LiveWeighs(files: Segments, text: Text, n: nat)
    requires n >= 1
    ensures Weight(files[0 := text], n) - |text| == Weight(files, n) - |Part(files, 0)|
  {
    var after := files[0 := text];
    if n == 1 {
      assert Weight(after, 0) == 0 && Weight(files, 0) == 0;
    } else {
      LiveWeighs(files, text, n - 1);
    }
  }
}
