/** Smaller request-local bodies built from a projected request after an upstream failure. */
module Recovery {
  import opened Wrappers
  import opened Json
  import opened ToolRelationships
  import opened ReplayContent
  import opened ReplayProjection
  import opened ReplayGrammar

  // ---- what a recovery selects from

  predicate IsMessageOf(v: Json, role: Word) {
    v.Obj? && Is(Get(v.fields, Type), MessageType) && Is(Get(v.fields, Role), role)
  }

  /** The last position of a message with one of these roles, or -1. */
  function Latest(vs: seq<Json>, roles: set<Word>): (i: int)
    ensures -1 <= i < |vs|
  {
    if vs == [] then -1
    else if exists r <- roles :: IsMessageOf(vs[|vs| - 1], r) then |vs| - 1
    else Latest(vs[..|vs| - 1], roles)
  }

  /** The items at some positions, in order. */
  function Pick(vs: seq<Json>, keep: set<int>): seq<Json> {
    if vs == [] then []
    else if |vs| - 1 in keep then Pick(vs[..|vs| - 1], keep) + [vs[|vs| - 1]]
    else Pick(vs[..|vs| - 1], keep)
  }

  function ControlsOf(vs: seq<Json>): seq<Json> {
    if vs == [] then []
    else if IsControl(vs[|vs| - 1]) then ControlsOf(vs[..|vs| - 1]) + [vs[|vs| - 1]]
    else ControlsOf(vs[..|vs| - 1])
  }

  function ControlIndices(vs: seq<Json>): set<int> {
    set i | 0 <= i < |vs| && IsControl(vs[i])
  }

  function LatestUserItem(vs: seq<Json>): Option<Json> {
    if Latest(vs, {User}) < 0 then None else Some(vs[Latest(vs, {User})])
  }

  predicate IsAgentMessage(v: Json) {
    v.Obj? && Is(Get(v.fields, Type), AgentMessageType)
  }

  /** A request that execution recovery can work on: enough items, no agent message, and a user message. */
  predicate Recoverable(o: Item, minimum: nat) {
    && Get(o, Input).Arr? && |o[Input].elems| >= minimum
    && (forall i :: 0 <= i < |o[Input].elems| ==> !IsAgentMessage(o[Input].elems[i]))
    && Latest(o[Input].elems, {User}) >= 0
  }

  function Min(a: int, b: int): int {
    if a < b then a else b
  }

  function Max(a: int, b: int): int {
    if a < b then b else a
  }

  /** A positive budget, bounded by half the length of the failed request. */
  function Bounded(rawSize: nat, budget: int): Option<int> {
    if budget <= 0 then None else Some(Min(budget, Max(1, rawSize / 2)))
  }

  lemma BudgetShrinks(rawSize: nat, budget: int)
    requires rawSize >= 2 && Bounded(rawSize, budget).Some?
    ensures 0 < Bounded(rawSize, budget).value < rawSize
  {
  }

  function WithInput(o: Item, vs: seq<Json>): Item {
    o[Input := Arr(vs)][Store := Bool(false)] - {PromptCacheKey}
  }

  // ---- compaction

  /** A suffix may be kept alone exactly when its own tool relationships are sound. */
  method PairBoundaryIsSafe(vs: seq<Json>, start: nat) returns (safe: bool)
    requires start <= |vs|
    ensures safe <==> Sound(SeeAll(vs[start..]))
  {
    hide Observe, Sound;
    var items := vs[start..];
    var relationships := Fresh;
    assert SeeAll(items[..0]) == [];
    for n := 0 to |items|
      invariant Run(SeeAll(items[..n])) == Some(relationships)
    {
      assert items[..n + 1] == items[..n] + [items[n]];
      SeeAllSplits(items[..n], items[n]);
      RunExtends(SeeAll(items[..n]), SeeJson(items[n]));
      if items[n].Obj? {
        var (u, issue) := Observe(relationships, See(items[n].fields));
        if issue != NoIssue {
          IssueStays(items, n + 1);
          TrackerAgrees(SeeAll(items));
          return false;
        }
        relationships := u;
      } else {
        BystanderUnseen(relationships, SeeJson(items[n]));
      }
    }
    assert items[..|items|] == items;
    TrackerAgrees(SeeAll(items));
    return true;
  }

  lemma {:induction false} IssueStays(vs: seq<Json>, n: nat)
    requires n <= |vs| && Run(SeeAll(vs[..n])).None?
    ensures Run(SeeAll(vs)).None?
    decreases |vs| - n
  {
    if n == |vs| {
      assert vs[..n] == vs;
    } else {
      assert vs[..n + 1] == vs[..n] + [vs[n]];
      SeeAllSplits(vs[..n], vs[n]);
      assert SeeAll(vs[..n + 1])[..n] == SeeAll(vs[..n]);
      IssueStays(vs, n + 1);
    }
  }

  /** Everything from a position on, and the controls before it. */
  function RetainedIndices(vs: seq<Json>, start: int): set<int> {
    set i | 0 <= i < |vs| && (start <= i || IsControl(vs[i]))
  }

  function Compacted(o: Item, start: int): Item
    requires Get(o, Input).Arr?
  {
    WithInput(o, Pick(o[Input].elems, RetainedIndices(o[Input].elems, start)))
  }

  function CompactedSize(c: Codec, o: Item, start: int): nat
    requires Get(o, Input).Arr?
  {
    c.asciiSize(Obj(Compacted(o, start)))
  }

  /** A position at which the request may be cut. */
  ghost predicate Cut(o: Item, start: int)
    requires Get(o, Input).Arr?
  {
    1 <= start <= Latest(o[Input].elems, {User}) && Sound(SeeAll(o[Input].elems[start..]))
  }

  /** The first cut that meets the budget. */
  ghost predicate FirstWithin(c: Codec, o: Item, start: int, bound: int)
    requires Get(o, Input).Arr?
  {
    && Cut(o, start) && CompactedSize(c, o, start) <= bound
    && forall k :: Cut(o, k) && k < start ==> CompactedSize(c, o, k) > bound
  }

  /** The first of the smallest cuts among those that shrink the request. */
  ghost predicate Smallest(c: Codec, o: Item, start: int, rawSize: nat, upTo: int)
    requires Get(o, Input).Arr?
  {
    && Cut(o, start) && start < upTo && CompactedSize(c, o, start) < rawSize
    && (forall k :: Cut(o, k) && k < upTo ==> CompactedSize(c, o, start) <= CompactedSize(c, o, k))
    && (forall k :: Cut(o, k) && k < start ==> CompactedSize(c, o, start) < CompactedSize(c, o, k))
  }

  ghost predicate NoneWithin(c: Codec, o: Item, size: int, upTo: int)
    requires Get(o, Input).Arr?
  {
    forall k :: Cut(o, k) && k < upTo ==> CompactedSize(c, o, k) > size
  }

  /** Cut the oldest items at a safe position: at the first one that meets the budget, else at the
      first one that shrinks the request most. */
  method CompactRequest(c: Codec, o: Item, rawSize: nat, budget: int) returns (r: Option<Item>, ghost start: int)
    ensures r.Some? ==> Recoverable(o, 2) && Bounded(rawSize, budget).Some? && r == Some(Compacted(o, start))
    ensures r.Some? ==>
      || FirstWithin(c, o, start, Bounded(rawSize, budget).value)
      || (NoneWithin(c, o, Bounded(rawSize, budget).value,
                     |o[Input].elems| + 1) && Smallest(c, o, start, rawSize, |o[Input].elems| + 1))
    ensures r.None? && Recoverable(o, 2) && Bounded(rawSize, budget).Some? ==>
      NoneWithin(c, o, Max(rawSize - 1, Bounded(rawSize, budget).value), |o[Input].elems| + 1)
  {
    hide Sound, Compacted, Recoverable, Bounded;
    start := 0;
    var bound := Bounded(rawSize, budget);
    if bound.None? || !Recoverable(o, 2) {
      return None, 0;
    }
    RecoverableInput(o, 2);
    var items := o[Input].elems;
    var latest := Latest(items, {User});
    var best: Option<Item> := None;
    for s := 1 to latest + 1
      invariant best.None? ==> NoneWithin(c, o, Max(rawSize - 1, bound.value), s)
      invariant best.Some? ==> best == Some(Compacted(o, start)) && Smallest(c, o, start, rawSize, s)
      invariant NoneWithin(c, o, bound.value, s)
    {
      var safe := PairBoundaryIsSafe(items, s);
      if safe {
        var candidate := Compacted(o, s);
        var size := c.asciiSize(Obj(candidate));
        if size <= bound.value {
          return Some(candidate), s;
        }
        if size < rawSize && (best.None? || size < c.asciiSize(Obj(best.value))) {
          best, start := Some(candidate), s;
        }
      }
    }
    return best, start;
  }

  lemma RecoverableInput(o: Item, minimum: nat)
    requires Recoverable(o, minimum)
    ensures Get(o, Input).Arr? && Latest(o[Input].elems, {User}) >= 0
  {
  }

  // ---- dialogue recovery

  /** The latest instructions up to the latest user message, that message, and the controls. */
  function DialogueIndices(vs: seq<Json>): set<int>
    requires Latest(vs, {User}) >= 0
  {
    var user := Latest(vs, {User});
    var instructions := Latest(vs[..user + 1], {Developer, System});
    {user, if instructions < 0 then user else instructions} + ControlIndices(vs)
  }

  function DialogueBody(o: Item): Item
    requires Recoverable(o, 1)
  {
    WithInput(o, Pick(o[Input].elems, DialogueIndices(o[Input].elems)))
  }

  method RecoverDialogue(c: Codec, o: Item, rawSize: nat, budget: int) returns (r: Option<Item>)
    ensures r.Some? <==>
      && Bounded(rawSize, budget).Some? && Recoverable(o, 1)
      && c.asciiSize(Obj(DialogueBody(o))) <= Bounded(rawSize, budget).value
      && c.asciiSize(Obj(DialogueBody(o))) < rawSize
    ensures r.Some? ==> r.value == DialogueBody(o)
  {
    hide Pick, WithInput, Latest, IsControl;
    var bound := Bounded(rawSize, budget);
    if bound.None? || !Recoverable(o, 1) {
      return None;
    }
    var items := o[Input].elems;
    var latest := Latest(items, {User});
    var start := InstructionsBefore(items, latest);
    var body := WithInput(o, Pick(items, {start, latest} + ControlIndices(items)));
    assert {start, latest} + ControlIndices(items) == DialogueIndices(items);
    var size := c.asciiSize(Obj(body));
    if size > bound.value || size >= rawSize {
      return None;
    }
    return Some(body);
  }

  /** Search back from the user message for the instructions in force. */
  method InstructionsBefore(items: seq<Json>, latest: nat) returns (start: int)
    requires latest < |items|
    ensures var found := Latest(items[..latest + 1], {Developer, System}); start == if found < 0 then latest else found
  {
    hide IsMessageOf;
    var index: int := latest;
    while index >= 0
      invariant -1 <= index <= latest
      invariant Latest(items[..latest + 1], {Developer, System}) == Latest(items[..index + 1], {Developer, System})
    {
      assert items[..index + 1][..index] == items[..index];
      if IsMessageOf(items[index], Developer) || IsMessageOf(items[index], System) {
        return index;
      }
      index := index - 1;
    }
    return latest;
  }

  // ---- input recovery

  /** The non-empty text blocks of a list; a block whose type cannot be hashed stops the recovery. */
  function TextBlocks(vs: seq<Json>): Result<seq<Json>> {
    if vs == [] then Ok([])
    else
      var before := TextBlocks(vs[..|vs| - 1]);
      var v := vs[|vs| - 1];
      if before.Rejected? then before
      else if v.Obj? && Unhashable(Get(v.fields, Type)) then Rejected(UnhashableValue)
      else if v.Obj? && IsTextBlock(v.fields) && NonEmptyText(Get(v.fields, TextField))
      then Ok(before.value + [Obj(TextItem(v.fields[TextField].s))])
      else before
  }

  /** The text of a message's content, or nothing. */
  function TextContent(v: Json): Result<Option<Json>> {
    if NonEmptyText(v) then Ok(Some(v))
    else if v.Arr? then
      match TextBlocks(v.elems)
      case Rejected(reason) => Rejected(reason)
      case Ok(blocks) => Ok(if blocks == [] then None else Some(Arr(blocks)))
    else Ok(None)
  }

  /** A retained item: a control as it is, a message with its text alone. */
  function Recast(v: Json): Result<Option<Json>> {
    if IsControl(v) then Ok(Some(v))
    else if !v.Obj? || !Get(v.fields, Role).JStr? || Content !in v.fields then Ok(None)
    else
      match TextContent(v.fields[Content])
      case Rejected(reason) => Rejected(reason)
      case Ok(None) => Ok(None)
      case Ok(Some(content)) => Ok(Some(Obj(Message(v.fields[Role], content, Null))))
  }

  function RecastAll(vs: seq<Json>, keep: set<int>): Result<Option<seq<Json>>> {
    if vs == [] then Ok(Some([]))
    else
      var before := RecastAll(vs[..|vs| - 1], keep);
      if before.Rejected? || before.value.None? || |vs| - 1 !in keep then before
      else
        match Recast(vs[|vs| - 1])
        case Rejected(reason) => Rejected(reason)
        case Ok(None) => Ok(None)
        case Ok(Some(v)) => Ok(Some(before.value.value + [v]))
  }

  function LatestIndices(vs: seq<Json>): set<int> {
    set r <- {System, Developer, User} | Latest(vs, {r}) >= 0 :: Latest(vs, {r})
  }

  function CurrentIndices(vs: seq<Json>): set<int> {
    LatestIndices(vs) + ControlIndices(vs)
  }

  function Dialogue(vs: seq<Json>): Result<Option<seq<Json>>> {
    if Latest(vs, {User}) < 0 then Ok(None) else RecastAll(vs, CurrentIndices(vs))
  }

  method CurrentDialogue(vs: seq<Json>) returns (r: Result<Option<seq<Json>>>)
    ensures r == Dialogue(vs)
  {
    hide Recast, Latest, RecastAll;
    var latest := LatestByRole(vs);
    if User !in latest {
      return Ok(None);
    }
    LatestValues(vs, latest);
    r := RecastRetained(vs, latest.Values + ControlIndices(vs));
  }

  /** What is remembered of one role: its last position, if it has one. */
  ghost predicate RoleAt(vs: seq<Json>, latest: map<Word, int>, w: Word) {
    if Latest(vs, {w}) < 0 then w !in latest else w in latest && latest[w] == Latest(vs, {w})
  }

  /** The last position of each role that a recovery keeps. */
  ghost predicate ByRole(vs: seq<Json>, latest: map<Word, int>) {
    && latest.Keys <= {System, Developer, User}
    && RoleAt(vs, latest, System) && RoleAt(vs, latest, Developer) && RoleAt(vs, latest, User)
  }

  method LatestByRole(vs: seq<Json>) returns (latest: map<Word, int>)
    ensures ByRole(vs, latest)
  {
    hide Latest, IsMessageOf, ByRole;
    latest := map[];
    NoRoles();
    for n := 0 to |vs|
      invariant ByRole(vs[..n], latest)
    {
      assert vs[..n + 1] == vs[..n] + [vs[n]];
      RoleSeen(vs[..n], vs[n], latest);
      if IsMessageOf(vs[n], System) || IsMessageOf(vs[n], Developer) || IsMessageOf(vs[n], User) {
        RoleIsText(vs[n]);
        latest := latest[Get(vs[n].fields, Role).s.word := n];
      }
    }
    assert vs[..|vs|] == vs;
  }

  lemma NoRoles()
    ensures ByRole([], map[])
  {
  }

  lemma RoleIsText(v: Json)
    requires IsMessageOf(v, System) || IsMessageOf(v, Developer) || IsMessageOf(v, User)
    ensures v.Obj? && Get(v.fields, Role).JStr? && Get(v.fields, Role).s.Known?
  {
  }

  lemma LatestOne(vs: seq<Json>, v: Json, w: Word)
    ensures Latest(vs + [v], {w}) == if IsMessageOf(v, w) then |vs| else Latest(vs, {w})
  {
    hide IsMessageOf;
    assert (vs + [v])[..|vs|] == vs;
    assert (exists r <- {w} :: IsMessageOf(v, r)) <==> IsMessageOf(v, w);
  }

  lemma OneRole(v: Json, w: Word)
    requires IsMessageOf(v, w)
    ensures Get(v.fields, Role) == JStr(Known(w)) && forall x :: IsMessageOf(v, x) ==> x == w
  {
  }

  lemma RoleSeen(vs: seq<Json>, v: Json, latest: map<Word, int>)
    requires ByRole(vs, latest)
    ensures if IsMessageOf(v, System) || IsMessageOf(v, Developer) || IsMessageOf(v, User)
            then ByRole(vs + [v], latest[Get(v.fields, Role).s.word := |vs|])
            else ByRole(vs + [v], latest)
  {
    hide Latest, IsMessageOf, Get;
    LatestOne(vs, v, System);
    LatestOne(vs, v, Developer);
    LatestOne(vs, v, User);
    if IsMessageOf(v, System) {
      OneRole(v, System);
    } else if IsMessageOf(v, Developer) {
      OneRole(v, Developer);
    } else if IsMessageOf(v, User) {
      OneRole(v, User);
    }
  }

  lemma LatestValues(vs: seq<Json>, latest: map<Word, int>)
    requires ByRole(vs, latest)
    ensures latest.Values == LatestIndices(vs) && (User in latest <==> Latest(vs, {User}) >= 0)
  {
    hide Latest;
    forall i ensures i in latest.Values <==> i in LatestIndices(vs) {
      if i in latest.Values {
        var w :| w in latest && latest[w] == i;
        assert RoleAt(vs, latest, w);
      }
      if i in LatestIndices(vs) {
        var w :| w in {System, Developer, User} && Latest(vs, {w}) >= 0 && Latest(vs, {w}) == i;
        assert RoleAt(vs, latest, w);
      }
    }
  }

  method RecastRetained(vs: seq<Json>, retained: set<int>) returns (r: Result<Option<seq<Json>>>)
    ensures r == RecastAll(vs, retained)
  {
    hide Recast;
    var dialogue: seq<Json> := [];
    for n := 0 to |vs|
      invariant RecastAll(vs[..n], retained) == Ok(Some(dialogue))
    {
      assert vs[..n + 1][..n] == vs[..n];
      if n in retained {
        match Recast(vs[n]) {
          case Rejected(reason) =>
            RecastStops(vs, n + 1, retained);
            return Rejected(reason);
          case Ok(None) =>
            RecastStops(vs, n + 1, retained);
            return Ok(None);
          case Ok(Some(v)) => dialogue := dialogue + [v];
        }
      }
    }
    assert vs[..|vs|] == vs;
    return Ok(Some(dialogue));
  }

  lemma {:induction false} RecastStops(vs: seq<Json>, n: nat, keep: set<int>)
    requires n <= |vs| && (RecastAll(vs[..n], keep).Rejected? || RecastAll(vs[..n], keep).value.None?)
    ensures RecastAll(vs, keep) == RecastAll(vs[..n], keep)
    decreases |vs| - n
  {
    hide Recast;
    if n == |vs| {
      assert vs[..n] == vs;
    } else {
      assert vs[..n + 1][..n] == vs[..n];
      RecastStops(vs, n + 1, keep);
    }
  }

  /** A body with the current dialogue alone, if it is materially smaller than the request. */
  function BuildRecovery(c: Codec, o: Item, rawSize: nat, budget: int): Result<Option<Item>> {
    if budget <= 0 || !Get(o, Input).Arr? || o[Input].elems == [] then Ok(None)
    else
      match Dialogue(o[Input].elems)
      case Rejected(reason) => Rejected(reason)
      case Ok(None) => Ok(None)
      case Ok(Some(dialogue)) =>
        var body := Unbound(o)[Input := Arr(dialogue)];
        var includeRemoved := Get(o, Include).Arr? && |Trimmed(o[Include].elems)| != |o[Include].elems|;
        var materially := |o[Input].elems| - |dialogue| > 0 || BindingCount(o) > 0 || includeRemoved;
        if !c.encodes(Obj(body)) || !materially || c.size(Obj(body)) > budget || c.size(Obj(body)) >= rawSize
        then Ok(None)
        else Ok(Some(body))
  }
}
