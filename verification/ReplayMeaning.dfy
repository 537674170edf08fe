/** What projected items say: the text of agent messages and of later results, what is stripped from an
    item without a trace, what is dropped, and lists whose projection is written out. */
module ReplayMeaning {
  import opened Wrappers
  import opened Json
  import opened ToolRelationships
  import opened ReplayContent
  import opened ReplayProjection
  import opened ReplayGrammar

  // ---- what assistant content says

  /** The text of assistant content: the text itself, or all texts and refusals joined in order. */
  ghost predicate SaysAll(c: Codec, v: Json, text: Str) {
    if v.JStr? then v == JStr(text) else v.Arr? && text == c.join(AllSaid(v.elems))
  }

  lemma AssistantSays(c: Codec, v: Json, root: nat, marker: bool)
    requires AssistantText(c, v, marker, root).Ok? && AssistantText(c, v, marker, root).value.encrypted == 0
    ensures SaysAll(c, v, AssistantText(c, v, marker, root).value.text)
  {
    AssistantTextKeeps(c, v, marker, root);
  }

  /** An agent message without ciphertext becomes an assistant message in its phase: the header with its
      author and recipient, before everything it says. With ciphertext it stays as it is, without the
      passthrough metadata and the status. */
  lemma AgentKeeps(c: Codec, x: Item)
    requires ProjectAgentMessage(c, x).Ok?
    ensures ProjectAgentMessage(c, x).value.value.Some?
    ensures var y := ProjectAgentMessage(c, x).value.value.value;
      if Ciphered(x) then
        && y.Keys == x.Keys - {Passthrough, Status}
        && forall f :: f in y ==> y[f] == x[f]
      else
        && y.Keys == {Type, Role, Content, Phase} && Is(y[Type], MessageType) && Is(y[Role], Assistant)
        && y[Phase] == (if Phase in x then x[Phase] else W(Commentary))
        && exists text :: SaysAll(c, Get(x, Content), text) && y[Content] == JStr(c.headed(AgentHeader(c, x), text))
  {
    hide AssistantText, CipherBlock, ExactCipher;
    AgentCiphered(x);
    if !Ciphered(x) {
      NothingEncrypted(c, x);
      AssistantSays(c, Get(x, Content), 0, true);
    }
  }

  function AgentHeader(c: Codec, x: Item): Str {
    c.dumps(map[Type := W(AgentMessageType), Author := Get(x, Author), Recipient := Get(x, Recipient)])
  }

  lemma AgentCiphered(x: Item)
    requires AgentCiphertext(x).Ok?
    ensures AgentCiphertext(x).value > 0 <==> Ciphered(x)
  {
    hide CipherBlock, ExactCipher;
    if Get(x, Content).Arr? {
      CipherCounted(Get(x, Content).elems);
    }
  }

  lemma NothingEncrypted(c: Codec, x: Item)
    requires AgentCiphertext(x) == Ok(0) && AssistantText(c, Get(x, Content), true, Count(EncryptedContent in x)).Ok?
    ensures AssistantText(c, Get(x, Content), true, 0).Ok? && EncryptedContent !in x
    ensures AssistantText(c, Get(x, Content), true, 0).value.encrypted == 0
  {
    hide AssistantBlock, CipherBlock, ExactCipher;
    if Get(x, Content).Arr? {
      PartsAccepted(Get(x, Content).elems, 0);
    }
  }

  /** A later result of a call becomes an assistant message: the header with the call, the tool's name
      and the caller, before everything the output's texts say. */
  lemma DeliveryKeeps(c: Codec, x: Item, w: Word)
    requires ProjectOutput(c, x, w, true).Ok?
    ensures ProjectOutput(c, x, w, true).value.value.Some?
    ensures var y := ProjectOutput(c, x, w, true).value.value.value;
      && y.Keys == {Type, Role, Content, Phase} && Is(y[Type], MessageType) && Is(y[Role], Assistant)
      && Is(y[Phase], Commentary)
      && exists text :: SaysAll(c, OutputContent(c, x).value.value, text)
           && y[Content] == JStr(c.headed(c.dumps(DeliveryHead(x)), text))
  {
    hide AssistantText, OutputContent, ValidCaller;
    OutputContentPortable(c, x);
    NothingCiphered(c, OutputContent(c, x).value.value);
    AssistantSays(c, OutputContent(c, x).value.value, 0, false);
  }

  /** The output that a later result speaks of shows what the raw one shows. */
  lemma DeliveredOutputKeeps(c: Codec, x: Item)
    requires OutputContent(c, x).Ok? && OutputRoot(x) == 0 && OutputContent(c, x).value.markers == 0
    ensures var v := OutputContent(c, x).value.value;
      if Get(x, Output) == JStr(Text("")) then v == W(EmptyToolOutputMarker)
      else if Get(x, Output).Arr? then v.Arr? && AllShown(c, v.elems) == AllShown(c, x[Output].elems)
      else v == Get(x, Output)
  {
    hide InputContent;
    if Get(x, Output).Arr? {
      InputContentKeeps(c, Get(x, Output), true, true, 0);
    } else if !EmptyOutput(x) {
      TextContentKept(c, Get(x, Output), true, 0);
    }
  }

  function DeliveryHead(x: Item): Item {
    var head := map[Type := W(ToolDelivery), CallId := Get(x, CallId), Name := Get(x, Name)];
    if Get(x, Caller) == Null then head else head[Caller := x[Caller]]
  }

  lemma NothingCiphered(c: Codec, v: Json)
    requires AssistantText(c, v, false, 0).Ok?
    requires (v.Arr? ==> forall i :: 0 <= i < |v.elems| ==> PortableBlock(c, v.elems[i]))
    ensures AssistantText(c, v, false, 0).value.encrypted == 0
  {
    hide PortableBlock, AssistantBlock;
    if v.Arr? {
      PartsAccepted(v.elems, 0);
      forall i | 0 <= i < |v.elems| ensures !CipherBlock(v.elems[i]) {
        PortableIsPlain(c, v.elems[i]);
      }
      CipherCounted(v.elems);
    }
  }

  lemma PortableIsPlain(c: Codec, v: Json)
    requires PortableBlock(c, v)
    ensures !CipherBlock(v)
  {
  }

  /** A result without a call becomes an assistant message: the header with the tool's name and
      namespace, before its text. */
  lemma DetachedKeeps(c: Codec, x: Item)
    requires ProjectDetachedDelivery(c, x).Ok?
    ensures ProjectDetachedDelivery(c, x).value.value.Some? && NonEmptyText(Get(x, Output))
    ensures var y := ProjectDetachedDelivery(c, x).value.value.value;
      && y.Keys == {Type, Role, Content, Phase} && Is(y[Type], MessageType) && Is(y[Role], Assistant)
      && Is(y[Phase], Commentary)
      && y[Content] == JStr(c.headed(c.dumps(DetachedHead(x)), x[Output].s))
  {
  }

  function DetachedHead(x: Item): Item {
    map[Type := W(ToolDelivery), Name := Get(x, Name), Namespace := Get(x, Namespace)]
  }

  // ---- what is stripped

  /** The same item with further fields. */
  ghost predicate Decorates(x: Item, y: Item, extra: set<Field>) {
    y.Keys == x.Keys + extra && x.Keys !! extra && forall f :: f in x ==> y[f] == x[f]
  }

  /** Identifier, status, name and metadata of a message are stripped, and nothing else happens to it. */
  lemma StripsMessage(c: Codec, x: Item, y: Item, extra: set<Field>)
    requires PortableMessage(c, x) && Decorates(x, y, extra) && extra <= {Id, Status, Name, Passthrough}
    ensures ProjectMessage(c, y) ==
      Ok(Projected(Some(x), Zero.(changed := Count(extra != {}), itemIds := Count(Id in extra))))
  {
    hide InputContent, PortableContent, Decorates, Message;
    SameMessage(c, x, y, extra);
    if !Is(x[Role], Assistant) {
      InputContentFixed(c, x[Content], false);
    }
  }

  lemma SameMessage(c: Codec, x: Item, y: Item, extra: set<Field>)
    requires PortableMessage(c, x) && Decorates(x, y, extra) && extra <= {Id, Status, Name, Passthrough}
    ensures y.Keys <= MessageKeys && (Id in y <==> Id in extra)
    ensures Get(y, Phase) == Get(x, Phase) && Get(y, Role) == x[Role] && Get(y, Content) == x[Content]
    ensures Message(x[Role], x[Content], Get(x, Phase)) == x && (y == x <==> extra == {})
  {
    hide PortableContent;
  }

  /** Status and metadata of an agent message that carries ciphertext are stripped. */
  lemma StripsAgentMessage(c: Codec, x: Item, y: Item, extra: set<Field>)
    requires PortableAgentMessage(x) && Decorates(x, y, extra) && extra <= {Status, Passthrough}
    ensures ProjectAgentMessage(c, y) == Ok(Projected(Some(x), Zero.(changed := Count(extra != {}))))
  {
    hide AssistantText, CipherBlock, ExactCipher, AgentBlock;
    SameAgent(x, y, extra);
    AgentFixed(c, x);
    assert y - {Passthrough, Status} == x;
    assert y == x <==> extra == {};
  }

  lemma SameAgent(x: Item, y: Item, extra: set<Field>)
    requires Decorates(x, y, extra) && extra <= {Status, Passthrough}
    ensures AgentCiphertext(y) == AgentCiphertext(x) && AgentPhase(y) == AgentPhase(x)
    ensures Get(y, Content) == Get(x, Content) && Get(y, Author) == Get(x, Author)
    ensures Get(y, Recipient) == Get(x, Recipient)
    ensures EncryptedContent in y <==> EncryptedContent in x
  {
    hide CipherBlock, ExactCipher;
  }

  /** Identifier, status and metadata of a call are stripped. */
  lemma StripsCall(t: Tracker, x: Item, y: Item, w: Word, extra: set<Field>)
    requires (w == FunctionCall || w == CustomToolCall) && PortableCall(x, w)
    requires Decorates(x, y, extra) && extra <= {Id, Status, Passthrough} && Observe(t, See(x)).1 == NoIssue
    ensures CallStep(t, y, w) == Ok(Effect(Observe(t, See(x)).0, Some(x),
                                           Zero.(changed := Count(extra != {}), itemIds := Count(Id in extra))))
  {
    hide Observe, NonEmptyTexts, ValidCaller;
    CallFixed(t, x, w);
    SameCall(x, y, w, extra);
    assert See(y).(id := Null) == See(x).(id := Null) && See(x).id == Null;
    assert y == x <==> extra == {};
  }

  lemma SameCall(x: Item, y: Item, w: Word, extra: set<Field>)
    requires (w == FunctionCall || w == CustomToolCall) && PortableCall(x, w)
    requires Decorates(x, y, extra) && extra <= {Id, Status, Passthrough}
    ensures ProjectCall(y, w).Ok? == ProjectCall(x, w).Ok?
    ensures ProjectCall(x, w).Ok? ==> ProjectCall(y, w).value.value == ProjectCall(x, w).value.value
    ensures y.Keys <= CallKeys(w)
  {
    hide NonEmptyText, NonEmptyTexts, ValidCaller;
    assert Get(y, CallId) == Get(x, CallId) && Get(y, Name) == Get(x, Name);
    assert Get(y, ArgumentField(w)) == Get(x, ArgumentField(w));
    assert Get(y, Namespace) == Get(x, Namespace) && Get(y, Caller) == Get(x, Caller);
    assert EncryptedFunctionArgs in y <==> EncryptedFunctionArgs in x;
  }

  /** Identifier, status, name and metadata of a first output are stripped, and of a function's output
      its namespace. */
  lemma StripsOutput(c: Codec, x: Item, y: Item, w: Word, extra: set<Field>)
    requires (w == FunctionCallOutput || w == CustomToolCallOutput) && PortableOutput(c, x, w)
    requires Decorates(x, y, extra)
    requires extra <= {Id, Status, Name, Passthrough} + if w == FunctionCallOutput then {Namespace} else {}
    ensures y.Keys <= OutputKeys(w)
    ensures ProjectOutput(c, y, w, false) ==
      Ok(Projected(Some(x), Zero.(changed := Count(extra != {}), itemIds := Count(Id in extra))))
  {
    hide InputContent, PortableContent, ValidCaller, PortableOutput, Decorates, With, OutputKeys;
    SameOutput(c, x, y, w, extra);
    PortableIsNotEmpty(c, x[Output]);
    InputContentFixed(c, x[Output], true);
  }

  lemma SameOutput(c: Codec, x: Item, y: Item, w: Word, extra: set<Field>)
    requires (w == FunctionCallOutput || w == CustomToolCallOutput) && PortableOutput(c, x, w)
    requires Decorates(x, y, extra)
    requires extra <= {Id, Status, Name, Passthrough} + if w == FunctionCallOutput then {Namespace} else {}
    ensures y.Keys <= OutputKeys(w) && Output in x && PortableContent(c, x[Output]) && ValidCaller(Get(y, Caller))
    ensures EncryptedContent !in y && Get(y, Output) == x[Output] && (Id in y <==> Id in extra)
    ensures With(map[Type := W(w), CallId := Get(y, CallId), Output := x[Output]], Caller, Get(y, Caller)) == x
    ensures y == x <==> extra == {}
  {
    hide PortableContent, ValidCaller;
    NullCaller();
  }

  // ---- what is dropped

  /** Items without a portable form that are dropped whatever they hold. */
  predicate DroppedType(v: Json) {
    || Is(v, ReasoningType)
    || Is(v, ItemReferenceType) || Is(v, CompactionType) || Is(v, ContextCompactionType)
    || Is(v, WebSearchCall) || Is(v, ToolSearchCall) || Is(v, ToolSearchOutput)
    || Is(v, ImageGenerationCall)
  }

  /** An accepted item leaves nothing exactly when it is of a dropped type, is a local shell call or the
      output of one, or is an assistant's empty placeholder. */
  lemma DropsExactly(c: Codec, t: Tracker, x: Item)
    requires ItemStep(c, t, Obj(x)).Ok?
    ensures ItemStep(c, t, Obj(x)).value.value.None? <==>
      || DroppedType(Get(x, Type))
      || Is(Get(x, Type), LocalShellCall)
      || ((Is(Get(x, Type), FunctionCallOutput) || Is(Get(x, Type), CustomToolCallOutput)) && AnswersLocalCall(t, x))
      || (Is(TypeOf(x), MessageType) && Is(Get(x, Role), Assistant) && EmptyPlaceholder(Get(x, Content)))
  {
    hide Observe, AssistantText, InputContent, EmptyPlaceholder, OutputStep, CallStep, LocalCallStep,
         ProjectAgentMessage,
         ProjectDetachedDelivery, AnswersLocalCall;
    match Classify(TypeOf(x)).value {
      case KeepAgentMessage => AgentIsKept(c, x);
      case KeepCall => CallIsKept(t, x, x[Type].s.word);
      case DropLocalTool => LocalCallDropped(t, x);
      case KeepOutput =>
        if AnswersLocalCall(t, x) {
        } else if CallId in x {
          OutputIsKept(c, t, x, x[Type].s.word);
        } else {
          DetachedUnrecorded(c, x);
        }
      case _ =>
    }
  }

  lemma AgentIsKept(c: Codec, x: Item)
    requires ProjectAgentMessage(c, x).Ok?
    ensures ProjectAgentMessage(c, x).value.value.Some?
  {
    hide AssistantText, AgentCiphertext;
  }

  lemma CallIsKept(t: Tracker, x: Item, w: Word)
    requires (w == FunctionCall || w == CustomToolCall) && CallStep(t, x, w).Ok?
    ensures CallStep(t, x, w).value.value.Some?
  {
    hide Observe, NonEmptyText, NonEmptyTexts, ValidCaller;
  }

  lemma OutputIsKept(c: Codec, t: Tracker, x: Item, w: Word)
    requires OutputStep(c, t, x, w).Ok?
    ensures OutputStep(c, t, x, w).value.value.Some?
  {
    hide Observe, AssistantText, OutputContent, ValidCaller;
  }

  /** Items of a dropped type are accepted whatever they hold, change nothing in the tracker, and are
      counted by kind. */
  lemma DroppedTypesAreCounted(c: Codec, t: Tracker, x: Item)
    requires DroppedType(Get(x, Type))
    ensures ItemStep(c, t, Obj(x)) ==
      Ok(Effect(t, None, Zero.(
        reasoning := Count(Is(x[Type], ReasoningType)),
        references := Count(Is(x[Type], ItemReferenceType) || Is(x[Type], CompactionType)
                            || Is(x[Type], ContextCompactionType)),
        searches := Count(Is(x[Type], WebSearchCall) || Is(x[Type], ToolSearchCall) || Is(x[Type], ToolSearchOutput)),
        itemIds := Count(Id in x))))
  {
  }

  // ---- what is counted

  /** The item as it leaves differs from the one that came, and its identifier is gone. */
  predicate CountsRight(x: Item, p: Projected) {
    && p.metrics.changed == Count(p.value != Some(x))
    && p.metrics.itemIds == Count(Id in x && !(p.value.Some? && Id in p.value.value))
  }

  lemma {:induction false} ShorterGather(c: Codec, vs: seq<Json>, images: bool, root: nat)
    requires GatherInput(c, vs, images, root).Ok?
    ensures |GatherInput(c, vs, images, root).value.blocks| <= |vs|
    ensures GatherInput(c, vs, images, root).value.changed ==> GatherInput(c, vs, images, root).value.blocks != vs
  {
    hide InputBlock;
    if vs != [] {
      var n := |vs| - 1;
      ShorterGather(c, vs[..n], images, root);
      var before := GatherInput(c, vs[..n], images, root).value;
      BlockChanges(c, vs[n], images);
      var after := GatherInput(c, vs, images, root).value;
      if after.blocks == vs {
        assert after.blocks[..n] == vs[..n] && after.blocks[n] == vs[n];
        assert before.blocks == vs[..n];
      }
    }
  }

  lemma BlockChanges(c: Codec, v: Json, images: bool)
    requires InputBlock(c, v, images).Ok?
    ensures InputBlock(c, v, images).value.Kept? && InputBlock(c, v, images).value.changed ==>
      Obj(InputBlock(c, v, images).value.item) != v
  {
  }

  /** Content that counts as changed has changed. */
  lemma ContentChanges(c: Codec, v: Json, marker: bool, root: nat)
    requires InputContent(c, v, true, marker, root).Ok? && InputContent(c, v, true, marker, root).value.changed
    ensures InputContent(c, v, true, marker, root).value.value != v || root > 0
  {
    hide GatherInput;
    if v.Arr? {
      ShorterGather(c, v.elems, true, root);
      if root == 0 && GatherInput(c, v.elems, true, root).value.encrypted > 0 {
        MarkerIsNew(c, v.elems, true);
      }
    }
  }

  lemma {:induction false} MarkerIsNew(c: Codec, vs: seq<Json>, images: bool)
    requires GatherInput(c, vs, images, 0).Ok? && GatherInput(c, vs, images, 0).value.encrypted > 0
    ensures Arr(vs) != Marker
  {
    if |vs| == 1 {
      assert vs[..0] == [];
      assert GatherInput(c, vs[..0], images, 0).value.encrypted == 0;
    }
  }

  predicate UnplayableImage(c: Codec, v: Json) {
    v.Obj? && Is(Get(v.fields, Type), InputImage) && !c.replayable(Get(v.fields, ImageUrl))
  }

  function UnplayableCount(c: Codec, vs: seq<Json>): nat {
    if vs == [] then 0 else UnplayableCount(c, vs[..|vs| - 1]) + Count(UnplayableImage(c, vs[|vs| - 1]))
  }

  lemma {:induction false} BlocksCounted(c: Codec, vs: seq<Json>, root: nat)
    requires GatherInput(c, vs, true, root).Ok?
    ensures var g := GatherInput(c, vs, true, root).value;
      g.encrypted == root + CipherCount(vs) && g.localImages == UnplayableCount(c, vs)
  {
    hide InputBlock, CipherBlock, UnplayableImage;
    if vs != [] {
      BlocksCounted(c, vs[..|vs| - 1], root);
      BlockCounted(c, vs[|vs| - 1]);
    }
  }

  lemma BlockCounted(c: Codec, v: Json)
    requires InputBlock(c, v, true).Ok?
    ensures InputBlock(c, v, true).value.Cipher? <==> CipherBlock(v)
    ensures InputBlock(c, v, true).value.Unreplayable? <==> UnplayableImage(c, v)
  {
  }

  /** Of accepted content every ciphertext and every image that cannot be replayed is counted, and a marker
      exactly where it stands in: for ciphertext with nothing else to show. */
  lemma ContentCounts(c: Codec, v: Json, marker: bool, root: nat)
    requires InputContent(c, v, true, marker, root).Ok?
    ensures var r := InputContent(c, v, true, marker, root).value;
      && r.encrypted == root + (if v.Arr? then CipherCount(v.elems) else 0)
      && r.localImages == (if v.Arr? then UnplayableCount(c, v.elems) else 0)
      && r.markers == Count(marker && r.encrypted > 0 && !NonEmptyText(v)
                            && (v.Arr? ==> OnlyEmptyText(GatherInput(c, v.elems, true, root).value.blocks)))
      && (r.markers > 0 ==> r.value == Marker)
  {
    hide GatherInput, OnlyEmptyText;
    if v.Arr? {
      BlocksCounted(c, v.elems, root);
    }
  }

  lemma {:induction false} PartsCounted(vs: seq<Json>, root: nat)
    requires GatherParts(vs, root).Ok?
    ensures GatherParts(vs, root).value.encrypted == root + CipherCount(vs)
  {
    if vs != [] {
      PartsCounted(vs[..|vs| - 1], root);
    }
  }

  lemma SpokenCounts(c: Codec, v: Json, marker: bool, root: nat)
    requires AssistantText(c, v, marker, root).Ok?
    ensures var r := AssistantText(c, v, marker, root).value;
      && r.encrypted == root + (if v.Arr? then CipherCount(v.elems) else 0)
      && r.markers == Count(marker && r.encrypted > 0 && !NonEmptyText(v)
                            && (v.Arr? ==> Empty(c.join(AllSaid(v.elems)))))
  {
    hide GatherParts;
    if v.Arr? {
      PartsCounted(v.elems, root);
      PartsKeep(v.elems, root);
    }
  }

  /** An empty output says so; with ciphertext beside it the other marker stands in. */
  lemma EmptyOutputIs(c: Codec, x: Item)
    requires Get(x, Output) == JStr(Text("")) && (EncryptedContent in x ==> x[EncryptedContent].JStr?)
    ensures OutputContent(c, x) ==
      if EncryptedContent in x then Ok(Carried(Marker, true, 1, 1, 0))
      else Ok(Carried(W(EmptyToolOutputMarker), true, 0, 0, 0))
  {
  }

  /** Content that is no list is refused as empty or as invalid. */
  lemma RefusedContentIs(c: Codec, v: Json, marker: bool, root: nat)
    requires !v.Arr?
    ensures InputContent(c, v, true, marker, root).Rejected? ==>
      InputContent(c, v, true, marker, root).reason == if v == JStr(Text("")) then EmptyTextContent else InvalidContent
    ensures AssistantText(c, v, marker, root).Rejected? ==>
      AssistantText(c, v, marker, root).reason == if v == JStr(Text("")) then EmptyTextContent else InvalidContent
  {
  }

  /** A block that is refused is refused for its shape, its fields, its place or its unknown type. */
  lemma RefusedBlockIs(c: Codec, v: Json)
    ensures AssistantBlock(v).Rejected? ==>
      AssistantBlock(v).reason ==
      if !v.Obj? then InvalidContentBlock
      else if IsTextBlock(v.fields) then InvalidTextBlock
      else if Is(Get(v.fields, Type), RefusalBlock) then InvalidRefusalBlock
      else if Is(Get(v.fields, Type), InputImage) then UnsupportedAssistantImage
      else UnknownContentType
    ensures InputBlock(c, v, true).Rejected? && v.Obj? && Is(Get(v.fields, Type), RefusalBlock) ==>
      (InputBlock(c, v, true).reason == InvalidRefusalRole <==> AssistantBlock(v).Ok?)
  {
  }

  /** The metrics of an accepted message are those of its content. */
  lemma MessageMetrics(c: Codec, x: Item)
    requires ProjectMessage(c, x).Ok? && ProjectMessage(c, x).value.value.Some?
    ensures var m, v := ProjectMessage(c, x).value.metrics, Get(x, Content);
      && m.encrypted == (if v.Arr? then CipherCount(v.elems) else 0) && m.markers == 0
      && m.localImages == (if v.Arr? && !Is(Get(x, Role), Assistant) then UnplayableCount(c, v.elems) else 0)
      && m == Zero.(changed := m.changed, itemIds := m.itemIds, encrypted := m.encrypted, localImages := m.localImages)
  {
    hide InputContent, AssistantText, EmptyPlaceholder;
    var v := Get(x, Content);
    if AssistantText(c, v, false, 0).Ok? {
      SpokenCounts(c, v, false, 0);
    }
    if InputContent(c, v, true, false, 0).Ok? {
      ContentCounts(c, v, false, 0);
    }
  }

  /** So are those of an output, where the root ciphertext counts too and an empty output is counted by itself. */
  lemma OutputMetricsAre(c: Codec, x: Item, w: Word, delivery: bool)
    requires ProjectOutput(c, x, w, delivery).Ok?
    ensures var m, v := ProjectOutput(c, x, w, delivery).value.metrics, Get(x, Output);
      && m.encrypted == Count(EncryptedContent in x) + (if v.Arr? then CipherCount(v.elems) else 0)
      && m.localImages == (if v.Arr? then UnplayableCount(c, v.elems) else 0)
      && m.emptyOutputs == Count(v == JStr(Text("")) && EncryptedContent !in x)
      && m.markers <= 1
      && m == Zero.(changed := m.changed, itemIds := m.itemIds, encrypted := m.encrypted, markers := m.markers,
                    localImages := m.localImages, emptyOutputs := m.emptyOutputs)
  {
    hide InputContent, AssistantText, ValidCaller;
    if InputContent(c, Get(x, Output), true, true, OutputRoot(x)).Ok? {
      ContentCounts(c, Get(x, Output), true, OutputRoot(x));
    }
  }

  lemma MessageCounts(c: Codec, x: Item)
    requires ProjectMessage(c, x).Ok?
    ensures CountsRight(x, ProjectMessage(c, x).value)
  {
    hide AssistantText, InputContent, EmptyPlaceholder;
    if InputContent(c, Get(x, Content), true, false, 0).Ok?
      && InputContent(c, Get(x, Content), true, false, 0).value.changed {
      ContentChanges(c, Get(x, Content), false, 0);
    }
    if AssistantText(c, Get(x, Content), false, 0).Ok? {
      SpokenChanges(c, Get(x, Content));
    }
  }

  lemma SpokenChanges(c: Codec, v: Json)
    requires AssistantText(c, v, false, 0).Ok?
    ensures AssistantText(c, v, false, 0).value.changed ==> v != JStr(AssistantText(c, v, false, 0).value.text)
  {
  }

  lemma AgentCounts(c: Codec, x: Item)
    requires ProjectAgentMessage(c, x).Ok? && Is(Get(x, Type), AgentMessageType)
    ensures CountsRight(x, ProjectAgentMessage(c, x).value)
  {
    hide AssistantText, AgentCiphertext;
  }

  lemma CallCounts(x: Item, w: Word)
    requires (w == FunctionCall || w == CustomToolCall) && ProjectCall(x, w).Ok?
    ensures CountsRight(x, ProjectCall(x, w).value)
  {
    hide ValidCaller, NonEmptyTexts;
  }

  lemma OutputCounts(c: Codec, x: Item, w: Word, delivery: bool)
    requires Is(Get(x, Type), w) && (w == FunctionCallOutput || w == CustomToolCallOutput)
    requires ProjectOutput(c, x, w, delivery).Ok?
    ensures CountsRight(x, ProjectOutput(c, x, w, delivery).value)
  {
    hide ValidCaller, InputContent, AssistantText;
    if InputContent(c, Get(x, Output), true, true, OutputRoot(x)).Ok?
      && InputContent(c, Get(x, Output), true, true, OutputRoot(x)).value.changed {
      ContentChanges(c, Get(x, Output), true, OutputRoot(x));
    }
  }

  lemma OtherCounts(c: Codec, x: Item)
    ensures Is(Get(x, Type), LocalShellCall) && DropLocalCall(x).Ok? ==> CountsRight(x, DropLocalCall(x).value)
    ensures ProjectDetachedDelivery(c, x).Ok? ==> CountsRight(x, ProjectDetachedDelivery(c, x).value)
    ensures ProjectToolCatalog(x).Ok? ==> CountsRight(x, ProjectToolCatalog(x).value)
    ensures Is(Get(x, Type), CompactionTrigger) && ProjectCompactionTrigger(x).Ok? ==>
      CountsRight(x, ProjectCompactionTrigger(x).value)
  {
    hide ValidAction, ToolObjects;
    if x.Keys <= {Type} && Is(Get(x, Type), CompactionTrigger) {
      assert x == map[Type := W(CompactionTrigger)];
    }
    if ProjectDetachedDelivery(c, x).Ok? {
      assert Id in x && Id !in ProjectDetachedDelivery(c, x).value.value.value;
    }
  }

  /** Of an accepted item that is not of a dropped type, one change is counted exactly when it leaves otherwise
      than it came, and one identifier exactly when it had one that is gone. */
  lemma MetricsTell(c: Codec, t: Tracker, x: Item)
    requires ItemStep(c, t, Obj(x)).Ok? && !DroppedType(Get(x, Type))
    ensures CountsRight(x, Projected(ItemStep(c, t, Obj(x)).value.value, ItemStep(c, t, Obj(x)).value.metrics))
  {
    hide Observe, ProjectMessage, ProjectAgentMessage, ProjectCall, ProjectOutput, DropLocalCall,
         ProjectDetachedDelivery, ProjectToolCatalog, ProjectCompactionTrigger, AnswersLocalCall, Delivered,
         CountsRight;
    OtherCounts(c, x);
    var s := Classify(TypeOf(x));
    if s == Some(KeepMessage) {
      MessageCounts(c, x);
    } else if s == Some(KeepAgentMessage) {
      AgentCounts(c, x);
    } else if s == Some(KeepCall) {
      CallCounts(x, TypeOf(x).s.word);
    } else if s == Some(KeepOutput) {
      OutputStepCounts(c, t, x);
    }
  }

  lemma OutputStepCounts(c: Codec, t: Tracker, x: Item)
    requires ItemStep(c, t, Obj(x)).Ok? && Classify(TypeOf(x)) == Some(KeepOutput)
    ensures CountsRight(x, Projected(ItemStep(c, t, Obj(x)).value.value, ItemStep(c, t, Obj(x)).value.metrics))
  {
    hide Observe, ProjectMessage, ProjectAgentMessage, ProjectCall, ProjectOutput, DropLocalCall,
         ProjectDetachedDelivery, ProjectToolCatalog, ProjectCompactionTrigger, AnswersLocalCall, Delivered;
    OtherCounts(c, x);
    var w := TypeOf(x).s.word;
    var delivery := Delivered(Observe(t, See(x)).0, x);
    if ProjectOutput(c, x, w, delivery).Ok? {
      OutputCounts(c, x, w, delivery);
      OutputLosesId(c, x, w, delivery);
    }
  }

  lemma OutputLosesId(c: Codec, x: Item, w: Word, delivery: bool)
    requires ProjectOutput(c, x, w, delivery).Ok?
    ensures ProjectOutput(c, x, w, delivery).value.metrics.itemIds == Count(Id in x)
  {
    hide ValidCaller, InputContent, AssistantText;
  }

  // ---- pairs of calls and outputs

  predicate SameCallId(x: Item, y: Item) {
    CallId in x && CallId in y && x[CallId] == y[CallId]
  }

  predicate OwnOutput(call: Word, output: Word) {
    || (call == FunctionCall && output == FunctionCallOutput)
    || (call == CustomToolCall && output == CustomToolCallOutput)
  }

  predicate OtherOutput(call: Word, output: Word) {
    || (call == FunctionCall && output == CustomToolCallOutput)
    || (call == CustomToolCall && output == FunctionCallOutput)
  }

  /** An output without a call before it is an orphan, and a second one without an identifier a repetition. */
  lemma OutputRefusals(c: Codec, t: Tracker, x: Item, w: Word)
    requires (w == FunctionCallOutput || w == CustomToolCallOutput) && Is(Get(x, Type), w) && x.Keys <= OutputKeys(w)
    ensures !NonEmptyText(Get(x, CallId)) || Get(x, CallId).s !in t.calls ==>
      OutputStep(c, t, x, w) == Rejected(OrphanOutput)
    ensures NonEmptyText(Get(x, CallId)) && Id !in x ==>
      var id := x[CallId].s;
      id in t.calls && PairedOutput(t.calls[id]) == Some(w) && id in t.outputs ==>
      OutputStep(c, t, x, w) == Rejected(RepeatedOutput)
  {
    hide ProjectOutput;
  }

  lemma PairIsSound(x: Item, y: Item, call: Word, output: Word)
    requires Type in x && Type in y && x[Type] == W(call) && y[Type] == W(output) && SameCallId(x, y)
    requires NonEmptyText(x[CallId])
    requires OwnOutput(call, output)
    requires Id !in y
    ensures Sound(SeeAll([Obj(x), Obj(y)]))
  {
    var xs := SeeAll([Obj(x), Obj(y)]);
    assert xs[0] == See(x) && xs[1] == See(y);
    assert Answers(xs, 0, 1);
  }

  /** A portable call followed by its own kind of output is left alone. */
  lemma PairIsKept(c: Codec, x: Item, y: Item, call: Word, output: Word)
    requires PortableCall(x, call) && PortableOutput(c, y, output) && SameCallId(x, y)
    requires OwnOutput(call, output)
    ensures ProjectList(c, [Obj(x), Obj(y)]) == Ok(Replay([Obj(x), Obj(y)], Zero))
  {
    hide PortableContent, NonEmptyTexts, ValidCaller, ProjectList, Sound;
    PairIsSound(x, y, call, output);
    ProjectionFixed(c, [Obj(x), Obj(y)]);
  }

  lemma CrossedIssue(x: Item, y: Item, call: Word, output: Word)
    requires Type in x && Type in y && x[Type] == W(call) && y[Type] == W(output) && SameCallId(x, y)
    requires NonEmptyText(x[CallId])
    requires OtherOutput(call, output)
    ensures var t := Observe(Fresh, See(x)).0; Observe(t, See(y)).1 == MismatchedOutputType
    ensures var t := Observe(Fresh, See(x)).0; !AnswersLocalCall(t, y)
  {
  }

  /** Followed by the other kind it is rejected. */
  lemma CrossedPairIsRejected(c: Codec, x: Item, y: Item, call: Word, output: Word)
    requires PortableCall(x, call) && PortableOutput(c, y, output) && SameCallId(x, y)
    requires OtherOutput(call, output)
    ensures ProjectList(c, [Obj(x), Obj(y)]) == Rejected(MismatchedOutput)
  {
    hide PortableCall, PortableOutput, Observe, ItemStep, Walk;
    var t := Observe(Fresh, See(x)).0;
    CallStands(c, x, call);
    CallKinds(c, x);
    CallKinds(c, y);
    CrossedIssue(x, y, call, output);
    CrossedStep(c, t, y, output);
    StepRejects(c, [Obj(x)], Obj(y), MismatchedOutput);
    assert [Obj(x)] + [Obj(y)] == [Obj(x), Obj(y)];
  }

  lemma CrossedStep(c: Codec, t: Tracker, y: Item, output: Word)
    requires (output == FunctionCallOutput || output == CustomToolCallOutput) && PortableOutput(c, y, output)
    requires Observe(t, See(y)).1 == MismatchedOutputType && !AnswersLocalCall(t, y)
    ensures ItemStep(c, t, Obj(y)) == Rejected(MismatchedOutput)
  {
    hide PortableContent, Observe, AnswersLocalCall, PortableCaller;
  }

  lemma StepRejects(c: Codec, us: seq<Json>, v: Json, reason: Reason)
    requires Walk(c, us).Ok? && ItemStep(c, Walk(c, us).value.tracker, v) == Rejected(reason)
    ensures Walk(c, us + [v]) == Rejected(reason)
  {
    hide ItemStep;
    assert (us + [v])[..|us|] == us;
  }

  lemma FirstCall(x: Item)
    requires Type in x && (x[Type] == W(FunctionCall) || x[Type] == W(CustomToolCall)) && CallId in x
    requires NonEmptyText(x[CallId])
    ensures Observe(Fresh, See(x)).1 == NoIssue
  {
  }

  /** A first portable call stands as it is. */
  lemma CallStands(c: Codec, x: Item, call: Word)
    requires (call == FunctionCall || call == CustomToolCall) && PortableCall(x, call)
    ensures Walk(c, [Obj(x)]) == Ok(Progress(Observe(Fresh, See(x)).0, [Obj(x)], Zero))
    ensures NonEmptyText(x[CallId]) && x[Type] == W(call)
  {
    hide NonEmptyTexts, ValidCaller, Observe, CallStep, Walk;
    FirstCall(x);
    CallFixed(Fresh, x, call);
    NothingProjected(c);
    UnchangedStep(c, [], Obj(x), Fresh, Observe(Fresh, See(x)).0);
    assert [] + [Obj(x)] == [Obj(x)];
  }

  // ---- a later result

  /** A further result of an answered call: the tool's name again, an identifier of its own, a text. */
  ghost predicate LaterResult(x: Item, z: Item, output: Word) {
    && z.Keys == {Type, CallId, Name, Id, Output} && z[Type] == W(output) && z[CallId] == Get(x, CallId)
    && z[Name] == Get(x, Name) && NonEmptyText(z[Id]) && NonEmptyText(z[Output])
  }

  lemma PairSeen(c: Codec, x: Item, y: Item, call: Word, output: Word)
    requires OwnOutput(call, output)
    requires PortableCall(x, call) && PortableOutput(c, y, output) && SameCallId(x, y)
    ensures NonEmptyText(Get(x, CallId)) && NonEmptyText(Get(x, Name))
    ensures var id := x[CallId].s;
      Observe(Observe(Fresh, See(x)).0, See(y)).0 == Tracker(map[id := call], map[id := x[Name].s], {id}, {}, {})
  {
    hide PortableContent, NonEmptyTexts, ValidCaller;
  }

  lemma LaterIsDelivery(c: Codec, x: Item, y: Item, z: Item, call: Word, output: Word)
    requires OwnOutput(call, output)
    requires PortableCall(x, call) && PortableOutput(c, y, output) && SameCallId(x, y) && LaterResult(x, z, output)
    ensures var t := Observe(Observe(Fresh, See(x)).0, See(y)).0;
      Observe(t, See(z)).1 == NoIssue && Delivered(Observe(t, See(z)).0, z) && !AnswersLocalCall(t, z)
  {
    hide PortableCall, PortableOutput;
    PairSeen(c, x, y, call, output);
  }

  lemma LaterProjects(c: Codec, t: Tracker, z: Item, output: Word)
    requires (output == FunctionCallOutput || output == CustomToolCallOutput)
    requires z.Keys == {Type, CallId, Name, Id, Output} && z[Type] == W(output) && NonEmptyText(z[Output])
    requires Observe(t, See(z)).1 == NoIssue && Delivered(Observe(t, See(z)).0, z) && !AnswersLocalCall(t, z)
    ensures ItemStep(c, t, Obj(z)).Ok?
    ensures ItemStep(c, t, Obj(z)).value ==
      Effect(Observe(t, See(z)).0, Some(DeliveryMessage(c, DeliveryHead(z), z[Output].s)),
             Zero.(changed := 1, itemIds := 1))
  {
    hide Observe, Delivered, AnswersLocalCall;
    assert Get(z, Caller) == Null && Get(z, EncryptedContent) == Null;
  }

  /** Call, output, later result: the first two are left alone, and the third becomes a message that
      names the call and the tool before its text. */
  lemma LaterResultIsDelivered(c: Codec, x: Item, y: Item, z: Item, call: Word, output: Word)
    requires OwnOutput(call, output)
    requires PortableCall(x, call) && PortableOutput(c, y, output) && SameCallId(x, y) && LaterResult(x, z, output)
    ensures ProjectList(c, [Obj(x), Obj(y), Obj(z)]).Ok?
    ensures ProjectList(c, [Obj(x), Obj(y), Obj(z)]).value ==
      Replay([Obj(x), Obj(y), Obj(DeliveryMessage(c, DeliveryHead(z), z[Output].s))], Zero.(changed := 1, itemIds := 1))
  {
    hide PortableCall, PortableOutput, Observe, ItemStep, Walk, LaterResult, DeliveryMessage, DeliveryHead;
    var u := Observe(Observe(Fresh, See(x)).0, See(y)).0;
    LaterIs(x, z, output);
    LaterWalks(c, x, y, z, call, output);
    CallKinds(c, y);
    NothingPends(x, y, z, call, output, u);
  }

  lemma LaterWalks(c: Codec, x: Item, y: Item, z: Item, call: Word, output: Word)
    requires OwnOutput(call, output)
    requires PortableCall(x, call) && PortableOutput(c, y, output) && SameCallId(x, y) && LaterResult(x, z, output)
    ensures var u := Observe(Observe(Fresh, See(x)).0, See(y)).0;
      Walk(c, [Obj(x), Obj(y), Obj(z)]) ==
      Ok(Progress(Observe(u, See(z)).0, [Obj(x), Obj(y), Obj(DeliveryMessage(c, DeliveryHead(z), z[Output].s))],
                  Zero.(changed := 1, itemIds := 1)))
  {
    hide PortableCall, PortableOutput, Observe, ItemStep, Walk, LaterResult, DeliveryMessage, DeliveryHead,
         AnswersLocalCall, Delivered;
    var u := Observe(Observe(Fresh, See(x)).0, See(y)).0;
    PairWalks(c, x, y, call, output);
    LaterIsDelivery(c, x, y, z, call, output);
    LaterIs(x, z, output);
    LaterProjects(c, u, z, output);
    WalkAppend(c, [Obj(x), Obj(y)], Obj(z));
    assert [Obj(x), Obj(y)] + [Obj(z)] == [Obj(x), Obj(y), Obj(z)];
    var m := Obj(DeliveryMessage(c, DeliveryHead(z), z[Output].s));
    assert [Obj(x), Obj(y)] + [m] == [Obj(x), Obj(y), m];
  }

  lemma LaterIs(x: Item, z: Item, output: Word)
    requires LaterResult(x, z, output)
    ensures z.Keys == {Type, CallId, Name, Id, Output} && z[Type] == W(output) && NonEmptyText(z[Output])
  {
  }

  lemma PairWalks(c: Codec, x: Item, y: Item, call: Word, output: Word)
    requires OwnOutput(call, output)
    requires PortableCall(x, call) && PortableOutput(c, y, output) && SameCallId(x, y)
    ensures CallId in x && Name in x
    ensures Walk(c, [Obj(x), Obj(y)]) ==
      Ok(Progress(Observe(Observe(Fresh, See(x)).0, See(y)).0, [Obj(x), Obj(y)], Zero))
  {
    hide PortableContent, NonEmptyTexts, ValidCaller, Observe, Walk, Sound, Run;
    PairIsSound(x, y, call, output);
    TrackerAgrees(SeeAll([Obj(x), Obj(y)]));
    WalkFixed(c, [Obj(x), Obj(y)]);
    RunOfTwo(x, y);
  }

  lemma RunOfTwo(x: Item, y: Item)
    requires Run(SeeAll([Obj(x), Obj(y)])).Some?
    ensures Run(SeeAll([Obj(x), Obj(y)])).value == Observe(Observe(Fresh, See(x)).0, See(y)).0
  {
    hide Observe, Run;
    NothingWalked();
    var xs := SeeAll([Obj(x), Obj(y)]);
    assert xs == [See(x)] + [See(y)] && [See(x)] == [] + [See(x)];
    RunPrefix([See(x)], See(y));
    RunPrefix([], See(x));
  }

  lemma OutputAddsNoCall(t: Tracker, x: Sighting)
    requires IsOutput(x)
    ensures Observe(t, x).0.calls == t.calls
  {
  }

  lemma FirstCallKind(x: Item, call: Word)
    requires (call == FunctionCall || call == CustomToolCall) && PortableCall(x, call)
    ensures var t := Observe(Fresh, See(x)).0; forall id :: id in t.calls ==> t.calls[id] == call
  {
    hide NonEmptyTexts, ValidCaller;
  }

  lemma NothingPends(x: Item, y: Item, z: Item, call: Word, output: Word, u: Tracker)
    requires (call == FunctionCall || call == CustomToolCall) && PortableCall(x, call)
    requires IsOutput(See(y)) && IsOutput(See(z))
    requires u == Observe(Observe(Fresh, See(x)).0, See(y)).0
    ensures !Pending(Observe(u, See(z)).0, LocalShellCall)
  {
    hide Observe, PortableCall, IsOutput;
    FirstCallKind(x, call);
    OutputAddsNoCall(Observe(Fresh, See(x)).0, See(y));
    OutputAddsNoCall(u, See(z));
  }

  /** A time limit is accepted exactly within 64 bits. */
  lemma TimeoutBound(a: Item, n: int)
    requires ValidAction(a)
    ensures ValidAction(a[TimeoutMs := Int(n)]) <==> 0 <= n < 0x1_0000_0000_0000_0000
  {
    var b := a[TimeoutMs := Int(n)];
    assert forall f :: f != TimeoutMs ==> Get(b, f) == Get(a, f);
  }

  /** A completed local shell call that runs one command. */
  const ShellCallItem: Item :=
    map[Type := W(LocalShellCall), CallId := JStr(Text("c1")), Status := W(Completed),
        Action := Obj(map[Type := W(Exec), Command := Arr([JStr(Text("ls"))])])]

  const ShellOutput: Item :=
    map[Type := W(FunctionCallOutput), CallId := JStr(Text("c1")), Output := JStr(Text("done"))]

  lemma ShellCallStands(t: Tracker)
    requires t == Observe(Fresh, See(ShellCallItem)).0
    ensures LocalCallStep(Fresh, ShellCallItem) == Ok(Effect(t, None, Zero.(changed := 1)))
  {
    assert Get(ShellCallItem, Name) == Null && Get(ShellCallItem, Id) == Null;
    var action := Get(ShellCallItem, Action).fields;
    assert Get(action, Command).elems[0] == JStr(Text("ls"));
  }

  lemma ShellCallObserved(t: Tracker)
    requires t == Observe(Fresh, See(ShellCallItem)).0
    ensures LocalCallStep(Fresh, ShellCallItem) == Ok(Effect(t, None, Zero.(changed := 1)))
    ensures AnswersLocalCall(t, ShellOutput) && Observe(t, See(ShellOutput)).1 == NoIssue
    ensures !Pending(Observe(t, See(ShellOutput)).0, LocalShellCall) && Pending(t, LocalShellCall)
    ensures !Delivered(Observe(t, See(ShellOutput)).0, ShellOutput)
  {
    hide LocalCallStep;
    ShellCallStands(t);
    assert JStr(Text("c1")).s in t.calls;
  }
}
