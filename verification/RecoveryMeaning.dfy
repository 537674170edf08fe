/** What the smaller bodies keep, told by positions in the request: which messages, which controls, in
    which order, and nothing else. */
module RecoveryMeaning {
  import opened Wrappers
  import opened Json
  import opened ToolRelationships
  import opened ReplayContent
  import opened ReplayProjection
  import opened ReplayGrammar
  import opened Recovery
  import opened RecoverySafety

  // ---- selections

  predicate SpokenBy(v: Json, role: Word) {
    && v.Obj? && Type in v.fields && v.fields[Type] == JStr(Known(MessageType))
    && Role in v.fields && v.fields[Role] == JStr(Known(role))
  }

  predicate Instructs(v: Json) {
    SpokenBy(v, Developer) || SpokenBy(v, System)
  }

  predicate TurnControl(v: Json) {
    && v.Obj? && Type in v.fields
    && (v.fields[Type] == JStr(Known(AdditionalToolsType)) || v.fields[Type] == JStr(Known(CompactionTrigger)))
  }

  lemma SameWords(v: Json)
    ensures forall w :: IsMessageOf(v, w) <==> SpokenBy(v, w)
    ensures IsControl(v) <==> TurnControl(v)
  {
  }

  /** Strictly increasing positions of a list. */
  ghost predicate Positions(ps: seq<int>, n: nat) {
    && (forall k :: 0 <= k < |ps| ==> 0 <= ps[k] < n)
    && (forall k, m :: 0 <= k < m < |ps| ==> ps[k] < ps[m])
  }

  /** One list is the other at these positions. */
  ghost predicate Selects(vs: seq<Json>, ps: seq<int>, ys: seq<Json>) {
    Positions(ps, |vs|) && |ys| == |ps| && forall k :: 0 <= k < |ps| ==> ys[k] == vs[ps[k]]
  }

  lemma {:induction false} PickSelects(vs: seq<Json>, keep: set<int>) returns (ps: seq<int>)
    ensures Selects(vs, ps, Pick(vs, keep))
    ensures forall i :: i in ps <==> 0 <= i < |vs| && i in keep
  {
    if vs == [] {
      ps := [];
    } else {
      var n := |vs| - 1;
      ps := PickSelects(vs[..n], keep);
      if n in keep {
        ps := ps + [n];
      }
    }
  }

  /** The last position with one of these roles, told by all positions. */
  lemma {:induction false} LatestIs(vs: seq<Json>, roles: set<Word>)
    ensures var i := Latest(vs, roles);
      && (i >= 0 ==> exists r <- roles :: SpokenBy(vs[i], r))
      && (forall k, r :: i < k < |vs| && r in roles ==> !SpokenBy(vs[k], r))
  {
    hide SpokenBy, IsMessageOf;
    if vs != [] {
      var n := |vs| - 1;
      SameWords(vs[n]);
      LatestIs(vs[..n], roles);
      var i := Latest(vs[..n], roles);
      assert i >= 0 ==> vs[..n][i] == vs[i];
      assert forall k :: 0 <= k < n ==> vs[..n][k] == vs[k];
    }
  }

  // ---- dialogue recovery

  /** The latest user message. */
  ghost predicate LatestUserAt(vs: seq<Json>, u: int) {
    0 <= u < |vs| && SpokenBy(vs[u], User) && forall k :: u < k < |vs| ==> !SpokenBy(vs[k], User)
  }

  predicate AgentSpeaks(v: Json) {
    v.Obj? && Type in v.fields && v.fields[Type] == JStr(Known(AgentMessageType))
  }

  /** Execution recovery works on a list of enough items with a user message and no agent message. */
  lemma RecoverableIff(o: Item, minimum: nat)
    ensures Recoverable(o, minimum) <==>
      && Input in o && o[Input].Arr? && |o[Input].elems| >= minimum
      && (forall v :: v in o[Input].elems ==> !AgentSpeaks(v))
      && (exists v :: v in o[Input].elems && SpokenBy(v, User))
  {
    if Get(o, Input).Arr? {
      var vs := o[Input].elems;
      LatestIs(vs, {User});
      assert forall i :: 0 <= i < |vs| ==> (IsAgentMessage(vs[i]) <==> AgentSpeaks(vs[i]));
      assert forall v :: v in vs ==> exists i :: 0 <= i < |vs| && vs[i] == v;
      if Latest(vs, {User}) >= 0 {
        assert SpokenBy(vs[Latest(vs, {User})], User);
      }
    }
  }

  /** The instructions in force for it: the last developer or system message up to it. */
  ghost predicate InstructionsAt(vs: seq<Json>, u: int, i: int)
    requires 0 <= u < |vs|
  {
    0 <= i <= u && Instructs(vs[i]) && forall k :: i < k <= u ==> !Instructs(vs[k])
  }

  ghost predicate InDialogue(vs: seq<Json>, u: int, i: int)
    requires 0 <= u < |vs|
  {
    0 <= i < |vs| && (i == u || InstructionsAt(vs, u, i) || TurnControl(vs[i]))
  }

  lemma InstructionsAre(vs: seq<Json>, u: int, i: int)
    requires 0 <= u < |vs|
    ensures InstructionsAt(vs, u, i) <==> i >= 0 && i == Latest(vs[..u + 1], {Developer, System})
  {
    hide SpokenBy;
    var us := vs[..u + 1];
    LatestIs(us, {Developer, System});
    assert forall k :: 0 <= k <= u ==> us[k] == vs[k];
    var l := Latest(us, {Developer, System});
    if l >= 0 {
      var r :| r in {Developer, System} && SpokenBy(us[l], r);
      assert Instructs(vs[l]);
    }
    forall k | l < k <= u ensures !Instructs(vs[k]) {
      assert !SpokenBy(us[k], Developer) && !SpokenBy(us[k], System);
    }
  }

  /** The dialogue body holds exactly the latest user message, the instructions in force for it and the
      controls of the turn, each as it was, in order. */
  lemma DialogueHolds(o: Item) returns (u: int, ps: seq<int>)
    requires Recoverable(o, 1)
    ensures LatestUserAt(o[Input].elems, u)
    ensures Get(DialogueBody(o), Input).Arr? && Selects(o[Input].elems, ps, DialogueBody(o)[Input].elems)
    ensures forall i :: i in ps <==> InDialogue(o[Input].elems, u, i)
  {
    hide SpokenBy, Instructs, InstructionsAt, Pick, Latest;
    RecoverableInput(o, 1);
    var vs := o[Input].elems;
    u := Latest(vs, {User});
    LatestIs(vs, {User});
    var r :| r in {User} && SpokenBy(vs[u], r);
    ps := PickSelects(vs, DialogueIndices(vs));
    forall i | 0 <= i < |vs| ensures i in DialogueIndices(vs) <==> InDialogue(vs, u, i) {
      InstructionsAre(vs, u, i);
      InstructionsAre(vs, u, Latest(vs[..u + 1], {Developer, System}));
      SameWords(vs[i]);
    }
    InputReplaced(o, Pick(vs, DialogueIndices(vs)));
  }

  lemma InputReplaced(o: Item, ys: seq<Json>)
    ensures Input in WithInput(o, ys) && WithInput(o, ys)[Input] == Arr(ys)
    ensures Get(WithInput(o, ys), Store) == Bool(false) && PromptCacheKey !in WithInput(o, ys)
    ensures forall f :: f !in {Input, Store, PromptCacheKey} ==>
      (f in WithInput(o, ys) <==> f in o) && Get(WithInput(o, ys), f) == Get(o, f)
  {
  }

  // ---- compaction

  /** A compacted body holds everything from the cut on and the controls before it, in order; beside the
      input, storage and the cache key nothing of the request changes. */
  lemma CompactionHolds(o: Item, start: int) returns (ps: seq<int>)
    requires Get(o, Input).Arr?
    ensures Get(Compacted(o, start), Input).Arr? && Selects(o[Input].elems, ps, Compacted(o, start)[Input].elems)
    ensures forall i :: i in ps <==> 0 <= i < |o[Input].elems| && (start <= i || TurnControl(o[Input].elems[i]))
    ensures Get(Compacted(o, start), Store) == Bool(false) && PromptCacheKey !in Compacted(o, start)
    ensures forall f :: f !in {Input, Store, PromptCacheKey} ==>
      (f in Compacted(o, start) <==> f in o) && Get(Compacted(o, start), f) == Get(o, f)
  {
    hide Pick, TurnControl, WithInput;
    var vs := o[Input].elems;
    ps := PickSelects(vs, RetainedIndices(vs, start));
    forall i | 0 <= i < |vs| ensures i in RetainedIndices(vs, start) <==> start <= i || TurnControl(vs[i]) {
      SameWords(vs[i]);
    }
    InputReplaced(o, Pick(vs, RetainedIndices(vs, start)));
  }

  // ---- input recovery

  /** The last message of one of the kept roles, or a control. */
  ghost predicate IsCurrent(vs: seq<Json>, i: int) {
    0 <= i < |vs| && (TurnControl(vs[i]) || LastOf(vs, i, System) || LastOf(vs, i, Developer) || LastOf(vs, i, User))
  }

  ghost predicate LastOf(vs: seq<Json>, i: int, role: Word) {
    0 <= i < |vs| && SpokenBy(vs[i], role) && forall k :: i < k < |vs| ==> !SpokenBy(vs[k], role)
  }

  lemma LastIs(vs: seq<Json>, role: Word, i: int)
    ensures LastOf(vs, i, role) <==> i >= 0 && i == Latest(vs, {role})
  {
    hide SpokenBy;
    LatestIs(vs, {role});
    var l := Latest(vs, {role});
    if l >= 0 {
      var r :| r in {role} && SpokenBy(vs[l], r);
    }
  }

  lemma CurrentIs(vs: seq<Json>, i: int)
    ensures i in CurrentIndices(vs) <==> IsCurrent(vs, i)
  {
    hide LastOf, TurnControl, IsControl, Latest;
    LastIs(vs, System, i);
    LastIs(vs, Developer, i);
    LastIs(vs, User, i);
    if 0 <= i < |vs| {
      SameWords(vs[i]);
    }
    if i in LatestIndices(vs) {
      var r :| r in {System, Developer, User} && Latest(vs, {r}) >= 0 && Latest(vs, {r}) == i;
      assert r == System || r == Developer || r == User;
    }
    assert Latest(vs, {System}) >= 0 ==> Latest(vs, {System}) in LatestIndices(vs);
    assert Latest(vs, {Developer}) >= 0 ==> Latest(vs, {Developer}) in LatestIndices(vs);
    assert Latest(vs, {User}) >= 0 ==> Latest(vs, {User}) in LatestIndices(vs);
  }

  /** One list is the other at these positions, each item recast. */
  ghost predicate Recasting(vs: seq<Json>, ps: seq<int>, ys: seq<Json>) {
    Positions(ps, |vs|) && |ys| == |ps| && forall k :: 0 <= k < |ps| ==> Recast(vs[ps[k]]) == Ok(Some(ys[k]))
  }

  lemma {:induction false} RecastSelects(vs: seq<Json>, keep: set<int>) returns (ps: seq<int>)
    requires RecastAll(vs, keep).Ok? && RecastAll(vs, keep).value.Some?
    ensures Recasting(vs, ps, RecastAll(vs, keep).value.value)
    ensures forall i :: i in ps <==> 0 <= i < |vs| && i in keep
  {
    hide Recast;
    if vs == [] {
      ps := [];
    } else {
      var n := |vs| - 1;
      ps := RecastSelects(vs[..n], keep);
      if n in keep {
        ps := ps + [n];
      }
    }
  }

  /** A recast control is itself; a recast message is a message of the same role with its text alone. */
  lemma RecastMeans(v: Json, y: Json)
    requires Recast(v) == Ok(Some(y))
    ensures if TurnControl(v) then y == v
      else
        && v.Obj? && y.Obj? && y.fields.Keys == {Type, Role, Content} && Is(y.fields[Type], MessageType)
        && y.fields[Role] == Get(v.fields, Role) && Content in v.fields
        && TextContent(v.fields[Content]) == Ok(Some(y.fields[Content]))
  {
    SameWords(v);
  }

  /** The dialogue of input recovery exists only with a user message, and holds exactly the last system,
      developer and user message, reduced to text, and the controls of the turn, in order. */
  lemma CurrentDialogueHolds(vs: seq<Json>) returns (ps: seq<int>)
    requires Dialogue(vs).Ok? && Dialogue(vs).value.Some?
    ensures Recasting(vs, ps, Dialogue(vs).value.value)
    ensures forall i :: i in ps <==> IsCurrent(vs, i)
    ensures exists i :: LastOf(vs, i, User)
  {
    hide Recast, RecastAll, LastOf, IsCurrent, Latest;
    LastIs(vs, User, Latest(vs, {User}));
    ps := RecastSelects(vs, CurrentIndices(vs));
    forall i ensures i in CurrentIndices(vs) <==> IsCurrent(vs, i) {
      CurrentIs(vs, i);
    }
    CurrentInRange(vs);
  }

  lemma CurrentInRange(vs: seq<Json>)
    ensures forall i :: IsCurrent(vs, i) ==> 0 <= i < |vs|
  {
  }

  // ---- when input recovery raises

  predicate UnhashableBlock(v: Json) {
    v.Obj? && Type in v.fields && (v.fields[Type].Arr? || v.fields[Type].Obj?)
  }

  lemma {:induction false} TextBlocksRaiseIff(vs: seq<Json>)
    ensures TextBlocks(vs).Rejected? <==> exists v :: v in vs && UnhashableBlock(v)
  {
    hide IsTextBlock, NonEmptyText;
    if vs != [] {
      var n := |vs| - 1;
      var us, w := vs[..n], vs[n];
      assert vs == us + [w];
      TextBlocksRaiseIff(us);
      assert UnhashableBlock(w) <==> w.Obj? && Unhashable(Get(w.fields, Type));
      if v :| v in us && UnhashableBlock(v) {
        assert v in vs;
      } else if UnhashableBlock(w) {
        assert w in vs;
      }
    }
  }

  /** A retained message whose content lists a block with a list or an object for its type. */
  ghost predicate Raises(v: Json) {
    && !TurnControl(v) && v.Obj? && Get(v.fields, Role).JStr? && Get(v.fields, Content).Arr?
    && exists b :: b in v.fields[Content].elems && UnhashableBlock(b)
  }

  lemma RecastRaisesIff(v: Json)
    ensures Recast(v).Rejected? <==> Raises(v)
  {
    hide TextBlocks;
    SameWords(v);
    if v.Obj? && Get(v.fields, Content).Arr? {
      TextBlocksRaiseIff(v.fields[Content].elems);
    }
  }

  /** A retained item raises, and every retained one before it has a text. */
  ghost predicate RaisesFirst(vs: seq<Json>, keep: set<int>, i: int) {
    && 0 <= i < |vs| && i in keep && Raises(vs[i])
    && forall k :: 0 <= k < i && k in keep ==> Recast(vs[k]).Ok? && Recast(vs[k]).value.Some?
  }

  lemma {:induction false} RecastAllRaisesIff(vs: seq<Json>, keep: set<int>)
    ensures RecastAll(vs, keep).Rejected? <==> exists i :: RaisesFirst(vs, keep, i)
    ensures RecastAll(vs, keep).Ok? && RecastAll(vs, keep).value.Some? <==>
      forall k :: 0 <= k < |vs| && k in keep ==> Recast(vs[k]).Ok? && Recast(vs[k]).value.Some?
  {
    hide Recast, Raises;
    if vs != [] {
      var n := |vs| - 1;
      var us := vs[..n];
      RecastAllRaisesIff(us, keep);
      RecastRaisesIff(vs[n]);
      assert forall k :: 0 <= k < n ==> vs[k] == us[k];
      if i :| RaisesFirst(us, keep, i) {
        assert RaisesFirst(vs, keep, i);
      }
      if i :| RaisesFirst(vs, keep, i) {
        RecastRaisesIff(vs[i]);
        assert i < n ==> RaisesFirst(us, keep, i);
      }
      if RecastAll(vs, keep).Rejected? && RecastAll(us, keep).Ok? {
        assert RaisesFirst(vs, keep, n);
      }
    }
  }

  /** With a user message, building the dialogue raises exactly when some current item raises and every current
      item before it has a text. */
  lemma DialogueRaisesIff(vs: seq<Json>)
    ensures Dialogue(vs).Rejected? <==>
      (exists i :: LastOf(vs, i, User)) && exists i :: RaisesFirst(vs, CurrentIndices(vs), i)
  {
    hide RecastAll, Latest, CurrentIndices;
    RecastAllRaisesIff(vs, CurrentIndices(vs));
    LastIs(vs, User, Latest(vs, {User}));
    if i :| LastOf(vs, i, User) {
      LastIs(vs, User, i);
    }
  }

  /** Input recovery succeeds exactly when there is a dialogue, it drops something or the request still
      had a binding or asked for encrypted reasoning, and the body can be encoded within the budget and
      below the request's length. */
  lemma InputRecoveryIff(c: Codec, o: Item, rawSize: nat, budget: int)
    requires Get(o, Input).Arr? && Dialogue(o[Input].elems).Ok?
    ensures BuildRecovery(c, o, rawSize, budget).Ok?
    ensures BuildRecovery(c, o, rawSize, budget).value.Some? <==>
      && budget > 0 && Dialogue(o[Input].elems).value.Some?
      && var body := Unbound(o)[Input := Arr(Dialogue(o[Input].elems).value.value)];
      && (|Dialogue(o[Input].elems).value.value| < |o[Input].elems|
          || PreviousResponseId in o || Conversation in o || PromptCacheKey in o
          || (Get(o, Include).Arr? && W(ReasoningEncryptedContent) in o[Include].elems))
      && c.encodes(Obj(body)) && c.size(Obj(body)) <= budget && c.size(Obj(body)) < rawSize
  {
    hide Unbound, RecastAll, CurrentIndices, Trimmed;
    if Get(o, Include).Arr? {
      TrimmedTexts(o[Include].elems);
      TrimmedShrinks(o[Include].elems);
    }
  }

  lemma {:induction false} TrimmedShrinks(vs: seq<Json>)
    ensures |Trimmed(vs)| < |vs| <==> W(ReasoningEncryptedContent) in vs
  {
    TrimmedTexts(vs);
  }

  /** Bindings, storage and the request for encrypted reasoning go; nothing else of the request changes. */
  lemma UnboundKeeps(o: Item)
    ensures Get(Unbound(o), Store) == Bool(false)
    ensures PreviousResponseId !in Unbound(o) && Conversation !in Unbound(o) && PromptCacheKey !in Unbound(o)
    ensures forall f :: f !in {Store, Include, PreviousResponseId, Conversation, PromptCacheKey} ==>
      (f in Unbound(o) <==> f in o) && Get(Unbound(o), f) == Get(o, f)
    ensures !Get(o, Include).Arr? ==> Get(Unbound(o), Include) == Get(o, Include)
    ensures Get(o, Include).Arr? ==>
      Get(Unbound(o), Include).Arr?
      && forall v :: v in Unbound(o)[Include].elems <==> v in o[Include].elems && v != W(ReasoningEncryptedContent)
  {
    if Get(o, Include).Arr? {
      TrimmedTexts(o[Include].elems);
    }
  }

  /** The budget is the caller's, or half the request where that is less, and at least one byte. */
  lemma BudgetIsHalf(rawSize: nat, budget: int, b: int)
    requires budget > 0 && b >= 1
    ensures Bounded(rawSize, budget).Some?
    ensures b <= Bounded(rawSize, budget).value <==> b <= budget && (2 * b <= rawSize || b == 1)
  {
  }
}
