/** Requests on which the sanitizer neither accepts nor rejects: a set membership test raises on a
    value that cannot be hashed. */
module ReplayRaises {
  import opened Wrappers
  import opened Json
  import opened ToolRelationships
  import opened ReplayContent
  import opened ReplayProjection

  /** The item's role, phase or status is tested for membership in a set and cannot be hashed. */
  predicate Raises(t: Tracker, v: Json) {
    && v.Obj?
    && var x := v.fields;
       match Classify(TypeOf(x))
       case Some(KeepMessage) =>
         x.Keys <= MessageKeys
         && (Unhashable(Get(x, Role)) || (Is(Get(x, Role), Assistant) && Unhashable(Get(x, Phase))))
       case Some(KeepAgentMessage) =>
         x.Keys <= AgentKeys && NonEmptyText(Get(x, Author)) && NonEmptyText(Get(x, Recipient))
         && Unhashable(Get(x, Phase))
       case Some(DropLocalTool) =>
         && x.Keys <= LocalShellKeys && NonEmptyText(Get(x, CallId)) && Get(x, CallId).s !in t.calls
         && Unhashable(Get(x, Status))
       case _ => false
  }

  // ---- content is only ever rejected

  lemma {:induction false} GatherRejects(c: Codec, vs: seq<Json>, images: bool, root: nat)
    ensures GatherInput(c, vs, images, root) != Rejected(UnhashableValue)
  {
    hide InputBlock;
    if vs != [] {
      GatherRejects(c, vs[..|vs| - 1], images, root);
      BlockRejects(c, vs[|vs| - 1], images);
    }
  }

  lemma BlockRejects(c: Codec, v: Json, images: bool)
    ensures InputBlock(c, v, images) != Rejected(UnhashableValue)
  {
  }

  lemma PartRejects(v: Json)
    ensures AssistantBlock(v) != Rejected(UnhashableValue)
  {
  }

  lemma {:induction false} PartsReject(vs: seq<Json>, root: nat)
    ensures GatherParts(vs, root) != Rejected(UnhashableValue)
  {
    hide AssistantBlock;
    if vs != [] {
      PartsReject(vs[..|vs| - 1], root);
      PartRejects(vs[|vs| - 1]);
    }
  }

  lemma ContentRejects(c: Codec, v: Json, marker: bool, root: nat)
    ensures InputContent(c, v, true, marker, root) != Rejected(UnhashableValue)
    ensures AssistantText(c, v, marker, root) != Rejected(UnhashableValue)
  {
    if v.Arr? {
      GatherRejects(c, v.elems, true, root);
      PartsReject(v.elems, root);
    }
  }

  // ---- items

  lemma MessageRaises(c: Codec, x: Item)
    ensures ProjectMessage(c, x) == Rejected(UnhashableValue) <==>
      x.Keys <= MessageKeys && (Unhashable(Get(x, Role)) || (Is(Get(x, Role), Assistant) && Unhashable(Get(x, Phase))))
  {
    hide AssistantText, InputContent, EmptyPlaceholder;
    ContentRejects(c, Get(x, Content), false, 0);
  }

  lemma AgentRaises(c: Codec, x: Item)
    ensures ProjectAgentMessage(c, x) == Rejected(UnhashableValue) <==>
      x.Keys <= AgentKeys && NonEmptyText(Get(x, Author)) && NonEmptyText(Get(x, Recipient))
      && Unhashable(Get(x, Phase))
  {
    hide AssistantText;
    ContentRejects(c, Get(x, Content), true, Count(EncryptedContent in x));
  }

  lemma LocalCallRaises(t: Tracker, x: Item)
    requires Type in x && Is(x[Type], LocalShellCall)
    ensures LocalCallStep(t, x) == Rejected(UnhashableValue) <==>
      x.Keys <= LocalShellKeys && NonEmptyText(Get(x, CallId)) && Get(x, CallId).s !in t.calls
      && Unhashable(Get(x, Status))
  {
    hide ValidAction;
  }

  lemma OutputRejects(c: Codec, t: Tracker, x: Item, w: Word)
    ensures OutputStep(c, t, x, w) != Rejected(UnhashableValue)
  {
    hide AssistantText, InputContent, Observe, ValidCaller;
    ContentRejects(c, Get(x, Output), true, OutputRoot(x));
    if OutputContent(c, x).Ok? {
      ContentRejects(c, OutputContent(c, x).value.value, false, 0);
    }
  }

  lemma CallRejects(t: Tracker, x: Item, w: Word)
    requires w == FunctionCall || w == CustomToolCall
    ensures CallStep(t, x, w) != Rejected(UnhashableValue)
  {
    hide Observe, NonEmptyText, NonEmptyTexts, ValidCaller;
  }

  /** An item raises exactly when its membership test is reached with a value that cannot be hashed. */
  lemma ItemRaisesIff(c: Codec, t: Tracker, v: Json)
    ensures ItemStep(c, t, v) == Rejected(UnhashableValue) <==> Raises(t, v)
  {
    hide ProjectMessage, ProjectAgentMessage, LocalCallStep, OutputStep, CallStep, Unhashable, NonEmptyText;
    if v.Obj? && Classify(TypeOf(v.fields)).Some? {
      var x := v.fields;
      match Classify(TypeOf(x)).value {
        case KeepMessage => MessageRaises(c, x);
        case KeepAgentMessage => AgentRaises(c, x);
        case DropLocalTool => LocalCallRaises(t, x);
        case KeepOutput => OutputRejects(c, t, x, TypeOf(x).s.word);
        case KeepCall => CallRejects(t, x, TypeOf(x).s.word);
        case _ =>
      }
    }
  }

  // ---- requests

  /** The first item that is not accepted is one that raises. */
  ghost predicate RaisesAt(c: Codec, vs: seq<Json>, n: nat) {
    n < |vs| && Walk(c, vs[..n]).Ok? && Raises(Walk(c, vs[..n]).value.tracker, vs[n])
  }

  lemma {:induction false} WalkRaisesIff(c: Codec, vs: seq<Json>)
    ensures Walk(c, vs) == Rejected(UnhashableValue) <==> exists n: nat :: RaisesAt(c, vs, n)
  {
    hide ItemStep, Raises, Advance;
    if vs != [] {
      var m := |vs| - 1;
      var us := vs[..m];
      WalkRaisesIff(c, us);
      forall n: nat ensures RaisesAt(c, us, n) <==> n < m && RaisesAt(c, vs, n) {
        if n < m {
          assert us[..n] == vs[..n] && us[n] == vs[n];
        }
      }
      if Walk(c, us).Ok? {
        ItemRaisesIff(c, Walk(c, us).value.tracker, vs[m]);
        assert RaisesAt(c, vs, m) <==> Raises(Walk(c, us).value.tracker, vs[m]);
        forall n: nat | n < m ensures !RaisesAt(c, vs, n) {
          assert !RaisesAt(c, us, n);
        }
      } else {
        assert !RaisesAt(c, vs, m);
      }
      if n: nat :| RaisesAt(c, us, n) {
        assert RaisesAt(c, vs, n);
      }
      if n: nat :| RaisesAt(c, vs, n) {
        assert n < m ==> RaisesAt(c, us, n);
      }
    }
  }

  /** A request raises exactly when its include list is well formed and the first item that is not
      accepted reaches a membership test with a value that cannot be hashed. */
  lemma SanitizeRaisesIff(c: Codec, o: Item)
    ensures Sanitize(c, Some(Obj(o))) == Refused(UnhashableValue) <==>
      ValidInclude(Get(o, Include)) && Get(o, Input).Arr? && exists n: nat :: RaisesAt(c, o[Input].elems, n)
  {
    hide Walk, RaisesAt, Unbound, ValidInclude;
    if Get(o, Input).Arr? {
      WalkRaisesIff(c, o[Input].elems);
    }
  }

  /** A message whose role is a list. */
  const ListedRole: Item := map[Type := W(MessageType), Role := Arr([]), Content := JStr(Text("hello"))]

  lemma SanitizerRaises(c: Codec)
    ensures Sanitize(c, Some(Obj(map[Input := Arr([Obj(ListedRole)])]))) == Refused(UnhashableValue)
  {
    hide Walk, Sanitize;
    var vs := [Obj(ListedRole)];
    assert RaisesAt(c, vs, 0) by {
      EmptyWalk(c);
      assert vs[..0] == [];
    }
    SanitizeRaisesIff(c, map[Input := Arr(vs)]);
  }

  lemma EmptyWalk(c: Codec)
    ensures Walk(c, []) == Ok(Progress(Fresh, [], Zero))
  {
  }
}
