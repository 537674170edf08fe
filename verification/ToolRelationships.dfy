/** Ordered identity of tool calls and their outputs over one request. */
module ToolRelationships {
  import opened Wrappers
  import opened Json

  /** The output type that answers a call type. */
  function PairedOutput(w: Word): Option<Word> {
    match w
    case ToolSearchCall => Some(ToolSearchOutput)
    case LocalShellCall => Some(FunctionCallOutput)
    case FunctionCall => Some(FunctionCallOutput)
    case CustomToolCall => Some(CustomToolCallOutput)
    case _ => None
  }

  predicate IsPairedOutput(w: Word) {
    w == ToolSearchOutput || w == FunctionCallOutput || w == CustomToolCallOutput
  }

  /** What the tracker is told about one item. */
  datatype Sighting = Sighting(itemType: Json, callId: Json, name: Json, id: Json)

  predicate IsCall(x: Sighting) {
    x.itemType.JStr? && x.itemType.s.Known? && PairedOutput(x.itemType.s.word).Some?
  }

  predicate IsOutput(x: Sighting) {
    x.itemType.JStr? && x.itemType.s.Known? && IsPairedOutput(x.itemType.s.word)
  }

  datatype Issue = NoIssue | MissingCallId | DuplicateCall | OutputBeforeCall | MismatchedOutputType | DuplicateOutput

  datatype Tracker = Tracker(
    calls: map<Str, Word>,
    names: map<Str, Str>,
    outputs: set<Str>,
    outputIds: set<Str>,
    deliveries: set<Str>)

  const Fresh := Tracker(map[], map[], {}, {}, {})

  function CallName(t: Tracker, callId: Str): Option<Str> {
    if callId in t.names then Some(t.names[callId]) else None
  }

  /** A later result of a named call, under an identifier of its own. */
  predicate AdmitsDelivery(t: Tracker, callId: Str, name: Json, id: Json)
    requires callId in t.calls
  {
    && (t.calls[callId] == FunctionCall || t.calls[callId] == CustomToolCall)
    && name.JStr? && CallName(t, callId) == Some(name.s)
    && NonEmptyText(id) && id.s !in t.outputIds
  }

  function SeeCall(t: Tracker, x: Sighting): (Tracker, Issue)
    requires IsCall(x) && NonEmptyText(x.callId)
  {
    if x.callId.s in t.calls then (t, DuplicateCall)
    else (t.(calls := t.calls[x.callId.s := x.itemType.s.word],
             names := if NonEmptyText(x.name) then t.names[x.callId.s := x.name.s] else t.names), NoIssue)
  }

  function SeeOutput(t: Tracker, x: Sighting): (Tracker, Issue)
    requires IsOutput(x) && NonEmptyText(x.callId)
  {
    var id := x.callId.s;
    var u := t.(outputs := t.outputs + {id});
    if id !in t.calls then (u, OutputBeforeCall)
    else if PairedOutput(t.calls[id]) != Some(x.itemType.s.word) then (u, MismatchedOutputType)
    else if x.id.JStr? && x.id.s in t.outputIds then (u, DuplicateOutput)
    else if id in t.outputs && !AdmitsDelivery(t, id, x.name, x.id) then (u, DuplicateOutput)
    else
      var v := if id in t.outputs then u.(deliveries := u.deliveries + {x.id.s}) else u;
      (if NonEmptyText(x.id) then v.(outputIds := v.outputIds + {x.id.s}) else v, NoIssue)
  }

  /** Record one sighting and report its first structural issue. */
  function Observe(t: Tracker, x: Sighting): (Tracker, Issue) {
    if !IsCall(x) && !IsOutput(x) then (t, NoIssue)
    else if !NonEmptyText(x.callId) then (t, MissingCallId)
    else if IsCall(x) then SeeCall(t, x)
    else SeeOutput(t, x)
  }

  /** The tracker after a whole list, or nothing once an issue was reported. */
  function Run(xs: seq<Sighting>): Option<Tracker> {
    if xs == [] then Some(Fresh)
    else
      var before := Run(xs[..|xs| - 1]);
      if before.None? then None
      else
        var (t, issue) := Observe(before.value, xs[|xs| - 1]);
        if issue == NoIssue then Some(t) else None
  }

  /** Which output answers which call: seen after a call of one type, an output of another type under the same
      identifier goes without an issue exactly for these four pairs. */
  lemma PairsAre(call: Word, output: Word, id: Str)
    requires NonEmptyText(JStr(id)) && output in [ToolSearchOutput, FunctionCallOutput, CustomToolCallOutput]
    ensures
      var seen := Observe(Fresh, Sighting(JStr(Known(call)), JStr(id), Null, Null)).0;
      Observe(seen, Sighting(JStr(Known(output)), JStr(id), Null, Null)).1 == NoIssue <==>
      (call, output) in [(ToolSearchCall, ToolSearchOutput), (LocalShellCall, FunctionCallOutput),
                         (FunctionCall, FunctionCallOutput), (CustomToolCall, CustomToolCallOutput)]
  {
  }

  // ---- the declarative specification

  predicate CallAt(xs: seq<Sighting>, i: int, id: Str) {
    0 <= i < |xs| && IsCall(xs[i]) && xs[i].callId == JStr(id)
  }

  predicate OutputAt(xs: seq<Sighting>, i: int, id: Str) {
    0 <= i < |xs| && IsOutput(xs[i]) && xs[i].callId == JStr(id)
  }

  /** No earlier output carries this identifier. */
  ghost predicate FreshId(xs: seq<Sighting>, i: int)
    requires 0 <= i < |xs|
  {
    NonEmptyText(xs[i].id) ==> forall j :: 0 <= j < i && IsOutput(xs[j]) ==> xs[j].id != xs[i].id
  }

  ghost predicate IsDelivery(xs: seq<Sighting>, k: int, i: int)
    requires 0 <= k < i < |xs|
  {
    && (Is(xs[k].itemType, FunctionCall) || Is(xs[k].itemType, CustomToolCall))
    && NonEmptyText(xs[k].name) && xs[i].name == xs[k].name && NonEmptyText(xs[i].id)
  }

  /** The call was answered before. */
  ghost predicate Repeats(xs: seq<Sighting>, i: int)
    requires 0 <= i < |xs|
  {
    exists j :: 0 <= j < i && IsOutput(xs[j]) && xs[j].callId == xs[i].callId
  }

  ghost predicate Answers(xs: seq<Sighting>, k: int, i: int)
    requires 0 <= i < |xs| && IsOutput(xs[i])
  {
    && 0 <= k < i && IsCall(xs[k]) && xs[k].callId == xs[i].callId
    && PairedOutput(xs[k].itemType.s.word) == Some(xs[i].itemType.s.word)
    && (Repeats(xs, i) ==> IsDelivery(xs, k, i))
  }

  /** The relationships of one position are sound. */
  ghost predicate SoundAt(xs: seq<Sighting>, i: int)
    requires 0 <= i < |xs|
  {
    && (IsCall(xs[i]) || IsOutput(xs[i]) ==> NonEmptyText(xs[i].callId))
    && (IsCall(xs[i]) ==> forall j :: 0 <= j < i && IsCall(xs[j]) ==> xs[j].callId != xs[i].callId)
    && (IsOutput(xs[i]) ==> FreshId(xs, i) && exists k :: Answers(xs, k, i))
  }

  /** Call identifiers are non-empty and distinct; every output follows a call of the paired type;
      a repeated output is a named delivery under an identifier of its own; identifiers of outputs
      never repeat. */
  ghost predicate Sound(xs: seq<Sighting>) {
    forall i :: 0 <= i < |xs| ==> SoundAt(xs, i)
  }

  // ---- the tracker agrees with the specification

  /** The tracker remembers the call at a position: its type, and its name if it has one. */
  ghost predicate Remembers(xs: seq<Sighting>, t: Tracker, k: int, id: Str)
    requires id in t.calls
  {
    && CallAt(xs, k, id) && t.calls[id] == xs[k].itemType.s.word
    && (id in t.names <==> NonEmptyText(xs[k].name)) && (id in t.names ==> JStr(t.names[id]) == xs[k].name)
  }

  ghost predicate TracksCalls(xs: seq<Sighting>, t: Tracker) {
    && (forall id :: id in t.calls ==> exists k :: Remembers(xs, t, k, id))
    && (forall k, id :: CallAt(xs, k, id) ==> id in t.calls)
    && t.names.Keys <= t.calls.Keys
  }

  ghost predicate TracksOutputs(xs: seq<Sighting>, t: Tracker) {
    && (forall id :: id in t.outputs ==> exists j :: OutputAt(xs, j, id))
    && (forall j, id :: OutputAt(xs, j, id) ==> id in t.outputs)
  }

  ghost predicate IdAt(xs: seq<Sighting>, j: int, id: Str) {
    0 <= j < |xs| && IsOutput(xs[j]) && xs[j].id == JStr(id) && !Empty(id)
  }

  ghost predicate TracksIds(xs: seq<Sighting>, t: Tracker) {
    && (forall id :: id in t.outputIds ==> exists j :: IdAt(xs, j, id))
    && (forall j, id :: IdAt(xs, j, id) ==> id in t.outputIds)
  }

  ghost predicate Tracks(xs: seq<Sighting>, t: Tracker) {
    TracksCalls(xs, t) && TracksOutputs(xs, t) && TracksIds(xs, t)
  }

  /** What is sound at a position depends only on the list up to it. */
  lemma SoundAtPrefix(xs: seq<Sighting>, n: nat, i: nat)
    requires i < n <= |xs|
    ensures SoundAt(xs, i) <==> SoundAt(xs[..n], i)
  {
    var ys := xs[..n];
    assert forall j :: 0 <= j < n ==> ys[j] == xs[j];
    if IsOutput(xs[i]) {
      forall k ensures Answers(xs, k, i) <==> Answers(ys, k, i) {
        AnswersPrefix(xs, n, k, i);
      }
      assert FreshId(xs, i) <==> FreshId(ys, i);
    }
  }

  lemma AnswersPrefix(xs: seq<Sighting>, n: nat, k: int, i: nat)
    requires i < n <= |xs| && IsOutput(xs[i])
    ensures Answers(xs, k, i) <==> Answers(xs[..n], k, i)
  {
    var ys := xs[..n];
    assert forall j :: 0 <= j < n ==> ys[j] == xs[j];
  }

  lemma SoundSplits(xs: seq<Sighting>)
    requires xs != []
    ensures Sound(xs) <==> Sound(xs[..|xs| - 1]) && SoundAt(xs, |xs| - 1)
  {
    hide SoundAt;
    var n := |xs| - 1;
    forall i | 0 <= i < n ensures SoundAt(xs, i) <==> SoundAt(xs[..n], i) {
      SoundAtPrefix(xs, n, i);
    }
  }

  /** A sound call is one whose identifier the tracker has not seen. */
  lemma CallAgrees(xs: seq<Sighting>, t: Tracker, x: Sighting)
    requires TracksCalls(xs, t) && IsCall(x)
    ensures SoundAt(xs + [x], |xs|) <==> Observe(t, x).1 == NoIssue
  {
    var ys := xs + [x];
    assert ys[|xs|] == x && forall j :: 0 <= j < |xs| ==> ys[j] == xs[j];
    if NonEmptyText(x.callId) {
      if x.callId.s in t.calls {
        var k :| CallAt(xs, k, x.callId.s);
        assert IsCall(ys[k]) && ys[k].callId == x.callId;
      } else {
        forall j | 0 <= j < |xs| && IsCall(ys[j]) ensures ys[j].callId != x.callId {
          assert ys[j].callId == x.callId ==> CallAt(xs, j, x.callId.s);
        }
      }
    }
  }

  lemma CallTracked(xs: seq<Sighting>, t: Tracker, x: Sighting)
    requires Tracks(xs, t) && IsCall(x) && NonEmptyText(x.callId) && x.callId.s !in t.calls
    ensures Tracks(xs + [x], SeeCall(t, x).0)
  {
    var ys := xs + [x];
    var u := SeeCall(t, x).0;
    assert ys[|xs|] == x && forall j :: 0 <= j < |xs| ==> ys[j] == xs[j];
    assert CallAt(ys, |xs|, x.callId.s);
    forall id | id in u.calls ensures exists k :: Remembers(ys, u, k, id) {
      if id == x.callId.s {
        assert Remembers(ys, u, |xs|, id);
      } else {
        var k :| Remembers(xs, t, k, id);
        assert Remembers(ys, u, k, id);
      }
    }
    assert forall k, id :: CallAt(ys, k, id) ==> k == |xs| || CallAt(xs, k, id);
    OutputsUnmoved(xs, t, x);
  }

  lemma OutputsUnmoved(xs: seq<Sighting>, t: Tracker, x: Sighting)
    requires TracksOutputs(xs, t) && TracksIds(xs, t) && !IsOutput(x)
    ensures TracksOutputs(xs + [x], t) && TracksIds(xs + [x], t)
  {
    var ys := xs + [x];
    assert forall j, id :: OutputAt(ys, j, id) <==> OutputAt(xs, j, id);
    assert forall j, id :: IdAt(ys, j, id) <==> IdAt(xs, j, id);
  }

  lemma CallsUnmoved(xs: seq<Sighting>, t: Tracker, x: Sighting)
    requires TracksCalls(xs, t) && !IsCall(x)
    ensures TracksCalls(xs + [x], t)
  {
    var ys := xs + [x];
    assert forall j, id :: CallAt(ys, j, id) <==> CallAt(xs, j, id);
    forall id | id in t.calls ensures exists k :: Remembers(ys, t, k, id) {
      var k :| Remembers(xs, t, k, id);
      assert Remembers(ys, t, k, id);
    }
  }

  /** The call that the tracker remembers is the only one an output can answer. */
  lemma OneCall(xs: seq<Sighting>, t: Tracker, k: int, j: int, id: Str)
    requires Sound(xs) && CallAt(xs, k, id) && CallAt(xs, j, id)
    ensures j == k
  {
    assert SoundAt(xs, k) && SoundAt(xs, j);
  }

  /** The tracker admits an output exactly when the remembered call is one it may answer and its
      identifier is new. */
  lemma OutputAgrees(xs: seq<Sighting>, t: Tracker, x: Sighting)
    requires Sound(xs) && Tracks(xs, t) && IsOutput(x)
    ensures SoundAt(xs + [x], |xs|) <==> Observe(t, x).1 == NoIssue
  {
    hide Sound, Tracks, TracksCalls, TracksOutputs, TracksIds, FreshId, Answers, AdmitsDelivery;
    var ys, n := xs + [x], |xs|;
    assert ys[n] == x;
    TracksParts(xs, t);
    if NonEmptyText(x.callId) {
      IdAgrees(xs, t, x);
      RepeatAgrees(xs, t, x);
      if x.callId.s in t.calls {
        AnswerAgrees(xs, t, x);
      } else {
        NothingAnswered(xs, t, x);
      }
    }
  }

  lemma TracksParts(xs: seq<Sighting>, t: Tracker)
    requires Tracks(xs, t)
    ensures TracksCalls(xs, t) && TracksOutputs(xs, t) && TracksIds(xs, t)
  {
    hide TracksCalls, TracksOutputs, TracksIds;
  }

  lemma RepeatAgrees(xs: seq<Sighting>, t: Tracker, x: Sighting)
    requires TracksOutputs(xs, t) && x.callId.JStr?
    ensures x.callId.s in t.outputs <==> Repeats(xs + [x], |xs|)
  {
    var ys, id := xs + [x], x.callId.s;
    assert ys[|xs|] == x && forall j :: 0 <= j < |xs| ==> ys[j] == xs[j];
    if id in t.outputs {
      var j :| OutputAt(xs, j, id);
      assert IsOutput(ys[j]) && ys[j].callId == x.callId;
    }
    if j :| 0 <= j < |xs| && IsOutput(ys[j]) && ys[j].callId == x.callId {
      assert OutputAt(xs, j, id);
    }
  }

  /** With the call remembered, an answer is one of the paired type that is the first or a delivery. */
  lemma AnswerAgrees(xs: seq<Sighting>, t: Tracker, x: Sighting)
    requires Sound(xs) && TracksCalls(xs, t) && IsOutput(x) && NonEmptyText(x.callId) && x.callId.s in t.calls
    ensures var id := x.callId.s;
      (exists k :: Answers(xs + [x], k, |xs|)) && !(x.id.JStr? && x.id.s in t.outputIds) <==>
      && PairedOutput(t.calls[id]) == Some(x.itemType.s.word) && !(x.id.JStr? && x.id.s in t.outputIds)
      && (Repeats(xs + [x], |xs|) ==> AdmitsDelivery(t, id, x.name, x.id))
  {
    hide Sound, Repeats;
    var ys, n, id := xs + [x], |xs|, x.callId.s;
    assert ys[n] == x && forall j :: 0 <= j < n ==> ys[j] == xs[j];
    var k :| Remembers(xs, t, k, id);
    forall j | Answers(ys, j, n) ensures j == k {
      assert CallAt(xs, j, id);
      OneCall(xs, t, k, j, id);
    }
    assert AdmitsDelivery(t, id, x.name, x.id) <==> IsDelivery(ys, k, n) && x.id.s !in t.outputIds;
    assert (exists j :: Answers(ys, j, n)) <==> Answers(ys, k, n);
  }

  lemma NothingAnswered(xs: seq<Sighting>, t: Tracker, x: Sighting)
    requires TracksCalls(xs, t) && IsOutput(x) && x.callId.JStr? && x.callId.s !in t.calls
    ensures forall k :: !Answers(xs + [x], k, |xs|)
  {
    var ys := xs + [x];
    assert ys[|xs|] == x && forall j :: 0 <= j < |xs| ==> ys[j] == xs[j];
    assert forall k :: Answers(ys, k, |xs|) ==> CallAt(xs, k, x.callId.s);
  }

  lemma IdAgrees(xs: seq<Sighting>, t: Tracker, x: Sighting)
    requires TracksIds(xs, t)
    ensures FreshId(xs + [x], |xs|) <==> !(x.id.JStr? && x.id.s in t.outputIds)
  {
    var ys := xs + [x];
    assert ys[|xs|] == x && forall j :: 0 <= j < |xs| ==> ys[j] == xs[j];
    if x.id.JStr? && x.id.s in t.outputIds {
      var j :| IdAt(xs, j, x.id.s);
      assert IsOutput(ys[j]) && ys[j].id == x.id;
    } else if NonEmptyText(x.id) {
      forall j | 0 <= j < |xs| && IsOutput(ys[j]) ensures ys[j].id != x.id {
        assert ys[j].id == x.id ==> IdAt(xs, j, x.id.s);
      }
    }
  }

  lemma OutputTracked(xs: seq<Sighting>, t: Tracker, x: Sighting)
    requires Tracks(xs, t) && IsOutput(x) && Observe(t, x).1 == NoIssue
    ensures Tracks(xs + [x], Observe(t, x).0)
  {
    hide TracksCalls, TracksOutputs, TracksIds;
    var u := Observe(t, x).0;
    CallsUnmoved(xs, t, x);
    SameCalls(xs + [x], t, u);
    OutputsTracked(xs, t, x, u);
    IdsTracked(xs, t, x, u);
  }

  lemma SameCalls(xs: seq<Sighting>, t: Tracker, u: Tracker)
    requires TracksCalls(xs, t) && u.calls == t.calls && u.names == t.names
    ensures TracksCalls(xs, u)
  {
    forall id | id in u.calls ensures exists k :: Remembers(xs, u, k, id) {
      var k :| Remembers(xs, t, k, id);
      assert Remembers(xs, u, k, id);
    }
  }

  lemma OutputsTracked(xs: seq<Sighting>, t: Tracker, x: Sighting, u: Tracker)
    requires TracksOutputs(xs, t) && IsOutput(x) && x.callId.JStr? && u.outputs == t.outputs + {x.callId.s}
    ensures TracksOutputs(xs + [x], u)
  {
    var ys := xs + [x];
    assert ys[|xs|] == x && forall j :: 0 <= j < |xs| ==> ys[j] == xs[j];
    assert OutputAt(ys, |xs|, x.callId.s);
    forall id | id in u.outputs ensures exists j :: OutputAt(ys, j, id) {
      if id != x.callId.s {
        var j :| OutputAt(xs, j, id);
        assert OutputAt(ys, j, id);
      }
    }
    assert forall j, id :: OutputAt(ys, j, id) ==> j == |xs| || OutputAt(xs, j, id);
  }

  lemma IdsTracked(xs: seq<Sighting>, t: Tracker, x: Sighting, u: Tracker)
    requires TracksIds(xs, t) && IsOutput(x)
    requires u.outputIds == if NonEmptyText(x.id) then t.outputIds + {x.id.s} else t.outputIds
    ensures TracksIds(xs + [x], u)
  {
    var ys := xs + [x];
    assert ys[|xs|] == x && forall j :: 0 <= j < |xs| ==> ys[j] == xs[j];
    assert NonEmptyText(x.id) ==> IdAt(ys, |xs|, x.id.s);
    forall id | id in u.outputIds ensures exists j :: IdAt(ys, j, id) {
      if id in t.outputIds {
        var j :| IdAt(xs, j, id);
        assert IdAt(ys, j, id);
      }
    }
    assert forall j, id :: IdAt(ys, j, id) ==> j == |xs| || IdAt(xs, j, id);
  }

  /** One pass of the tracker reports no issue exactly over the sound lists, and then remembers
      exactly the calls, the answered calls and the identifiers of the list. */
  lemma {:induction false} TrackerAgrees(xs: seq<Sighting>)
    ensures Run(xs).Some? <==> Sound(xs)
    ensures Run(xs).Some? ==> Tracks(xs, Run(xs).value)
  {
    hide SoundAt, Sound, Tracks, TracksCalls, TracksOutputs, TracksIds;
    if xs == [] {
      NothingTracked();
    } else {
      var n := |xs| - 1;
      var ys, x := xs[..n], xs[n];
      assert xs == ys + [x];
      TrackerAgrees(ys);
      SoundSplits(xs);
      if Run(ys).Some? {
        StepAgrees(ys, Run(ys).value, x);
      }
    }
  }

  lemma NothingTracked()
    ensures Sound([]) && Tracks([], Fresh)
  {
  }

  lemma StepAgrees(xs: seq<Sighting>, t: Tracker, x: Sighting)
    requires Sound(xs) && Tracks(xs, t)
    ensures SoundAt(xs + [x], |xs|) <==> Observe(t, x).1 == NoIssue
    ensures Observe(t, x).1 == NoIssue ==> Tracks(xs + [x], Observe(t, x).0)
  {
    hide SoundAt, Sound, Remembers, TracksCalls, TracksOutputs, TracksIds;
    if IsCall(x) {
      CallAgrees(xs, t, x);
      if Observe(t, x).1 == NoIssue {
        CallTracked(xs, t, x);
      }
    } else if IsOutput(x) {
      OutputAgrees(xs, t, x);
      if Observe(t, x).1 == NoIssue {
        OutputTracked(xs, t, x);
      }
    } else {
      BystanderSound(xs, x);
      CallsUnmoved(xs, t, x);
      OutputsUnmoved(xs, t, x);
    }
  }

  lemma BystanderSound(xs: seq<Sighting>, x: Sighting)
    requires !IsCall(x) && !IsOutput(x)
    ensures SoundAt(xs + [x], |xs|)
  {
    assert (xs + [x])[|xs|] == x;
  }

  // ---- consequences

  /** The pending calls of a type are the ones that no later output answers. */
  predicate Pending(t: Tracker, w: Word) {
    exists id :: id in t.calls && t.calls[id] == w && id !in t.outputs
  }

  ghost predicate Unanswered(xs: seq<Sighting>, k: int) {
    0 <= k < |xs| && forall j :: k < j < |xs| && IsOutput(xs[j]) ==> xs[j].callId != xs[k].callId
  }

  lemma PendingIff(xs: seq<Sighting>, w: Word)
    requires Sound(xs)
    ensures Run(xs).Some?
    ensures Pending(Run(xs).value, w) <==>
      exists k :: 0 <= k < |xs| && IsCall(xs[k]) && Is(xs[k].itemType, w) && Unanswered(xs, k)
  {
    hide Run, Sound, Tracks;
    TrackerAgrees(xs);
    var t := Run(xs).value;
    if Pending(t, w) {
      var k := PendingCall(xs, t, w);
    }
    if k :| 0 <= k < |xs| && IsCall(xs[k]) && Is(xs[k].itemType, w) && Unanswered(xs, k) {
      UnansweredPends(xs, t, w, k);
    }
  }

  lemma PendingCall(xs: seq<Sighting>, t: Tracker, w: Word) returns (k: int)
    requires Tracks(xs, t) && Pending(t, w)
    ensures 0 <= k < |xs| && IsCall(xs[k]) && Is(xs[k].itemType, w) && Unanswered(xs, k)
  {
    hide TracksIds;
    var id :| id in t.calls && t.calls[id] == w && id !in t.outputs;
    k :| Remembers(xs, t, k, id);
    forall j | k < j < |xs| && IsOutput(xs[j]) ensures xs[j].callId != xs[k].callId {
      assert xs[j].callId == xs[k].callId ==> OutputAt(xs, j, id);
    }
  }

  lemma UnansweredPends(xs: seq<Sighting>, t: Tracker, w: Word, k: int)
    requires Sound(xs) && Tracks(xs, t) && 0 <= k < |xs| && IsCall(xs[k]) && Is(xs[k].itemType, w) && Unanswered(xs, k)
    ensures Pending(t, w)
  {
    hide TracksIds, Sound;
    CallHasId(xs, k);
    var id := xs[k].callId.s;
    assert CallAt(xs, k, id);
    var m :| Remembers(xs, t, m, id);
    OneCall(xs, t, m, k, id);
    if id in t.outputs {
      var j :| OutputAt(xs, j, id);
      var q := AnsweredCall(xs, j);
      OneCall(xs, t, q, k, id);
      assert false;
    }
  }

  lemma CallHasId(xs: seq<Sighting>, k: nat)
    requires Sound(xs) && k < |xs| && IsCall(xs[k])
    ensures NonEmptyText(xs[k].callId)
  {
    assert SoundAt(xs, k);
  }

  lemma AnsweredCall(xs: seq<Sighting>, j: nat) returns (q: int)
    requires Sound(xs) && j < |xs| && IsOutput(xs[j])
    ensures Answers(xs, q, j)
  {
    assert SoundAt(xs, j);
    q :| Answers(xs, q, j);
  }

  /** In a sound list whose outputs carry no identifier of their own, every call has at most one
      output, and it comes after the call. */
  lemma OneOutputEach(xs: seq<Sighting>, i: nat, j: nat)
    requires Sound(xs) && i < j < |xs| && IsOutput(xs[i]) && IsOutput(xs[j]) && xs[j].id == Null
    ensures xs[i].callId != xs[j].callId
  {
    assert SoundAt(xs, j);
    if xs[i].callId == xs[j].callId {
      var k :| Answers(xs, k, j);
      assert false;
    }
  }

  // ---- the tracker itself

  class Relationships {
    var calls: map<Str, Word>
    var names: map<Str, Str>
    var outputs: set<Str>
    var outputIds: set<Str>
    var deliveries: set<Str>

    ghost function State(): Tracker
      reads this
    {
      Tracker(calls, names, outputs, outputIds, deliveries)
    }

    constructor ()
      ensures State() == Fresh
    {
      calls, names, outputs, outputIds, deliveries := map[], map[], {}, {}, {};
    }

    /** Record one item and return its first structural issue. */
    method See(x: Sighting) returns (issue: Issue)
      modifies this
      ensures (State(), issue) == Observe(old(State()), x)
    {
      if !(x.itemType.JStr? && x.itemType.s.Known?) {
        return NoIssue;
      }
      var word := x.itemType.s.word;
      if PairedOutput(word).None? && !IsPairedOutput(word) {
        return NoIssue;
      }
      if !NonEmptyText(x.callId) {
        return MissingCallId;
      }
      var id := x.callId.s;
      if PairedOutput(word).Some? {
        if id in calls {
          return DuplicateCall;
        }
        calls := calls[id := word];
        if NonEmptyText(x.name) {
          names := names[id := x.name.s];
        }
        return NoIssue;
      }
      var duplicate := id in outputs;
      outputs := outputs + {id};
      if id !in calls {
        return OutputBeforeCall;
      }
      if PairedOutput(calls[id]) != Some(word) {
        return MismatchedOutputType;
      }
      if x.id.JStr? && x.id.s in outputIds {
        return DuplicateOutput;
      }
      if duplicate {
        var admitted := AdmitDelivery(id, x.name, x.id);
        if !admitted {
          return DuplicateOutput;
        }
      }
      if NonEmptyText(x.id) {
        outputIds := outputIds + {x.id.s};
      }
      return NoIssue;
    }

    method AdmitDelivery(callId: Str, name: Json, id: Json) returns (admitted: bool)
      requires callId in calls
      modifies this`deliveries
      ensures admitted == AdmitsDelivery(old(State()), callId, name, id)
      ensures deliveries == if admitted then old(deliveries) + {id.s} else old(deliveries)
    {
      admitted :=
        && (calls[callId] == FunctionCall || calls[callId] == CustomToolCall)
        && name.JStr? && callId in names && names[callId] == name.s
        && NonEmptyText(id) && id.s !in outputIds;
      if admitted {
        deliveries := deliveries + {id.s};
      }
    }
  }
}
