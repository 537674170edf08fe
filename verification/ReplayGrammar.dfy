/** The provider-portable grammar, stated without the projector, and the theorems that tie the two:
    whatever is accepted is projected into the grammar, and the grammar is exactly what the
    projector leaves alone. */
module ReplayGrammar {
  import opened Wrappers
  import opened Json
  import opened ToolRelationships
  import opened ReplayContent
  import opened ReplayProjection

  predicate PortableMessage(c: Codec, x: Item) {
    && {Type, Role, Content} <= x.Keys && Is(x[Type], MessageType)
    && if Is(x[Role], Assistant)
       then NonEmptyText(x[Content]) && x.Keys <= {Type, Role, Content, Phase} && (Phase in x ==> ValidPhase(x[Phase]))
       else ValidRole(x[Role]) && PortableContent(c, x[Content]) && x.Keys == {Type, Role, Content}
  }

  predicate AgentBlock(v: Json) {
    AssistantBlock(v).Ok? && (CipherBlock(v) ==> ExactCipher(v))
  }

  predicate Ciphered(x: Item) {
    EncryptedContent in x
    || (Get(x, Content).Arr? && exists i :: 0 <= i < |x[Content].elems| && CipherBlock(x[Content].elems[i]))
  }

  /** An agent message is portable as it stands only while it carries ciphertext. */
  predicate PortableAgentMessage(x: Item) {
    && x.Keys <= {Type, Id, Author, Recipient, Phase, Content, EncryptedContent}
    && Type in x && Is(x[Type], AgentMessageType)
    && NonEmptyText(Get(x, Author)) && NonEmptyText(Get(x, Recipient)) && (Phase in x ==> ValidPhase(x[Phase]))
    && (EncryptedContent in x ==> NonEmptyText(x[EncryptedContent])) && Ciphered(x)
    && (Get(x, Content).JStr? || Get(x, Content).Null?
        || (Get(x, Content).Arr? && forall i :: 0 <= i < |x[Content].elems| ==> AgentBlock(x[Content].elems[i])))
  }

  predicate PortableCaller(x: Item) {
    Caller in x ==> x[Caller] != Null && ValidCaller(x[Caller])
  }

  predicate PortableCall(x: Item, w: Word) {
    && {Type, CallId, Name, ArgumentField(w)} <= x.Keys && x[Type] == W(w)
    && x.Keys <= {Type, CallId, Name, ArgumentField(w), Namespace, Caller, EncryptedFunctionArgs}
    && (EncryptedFunctionArgs in x ==> w == FunctionCall)
    && NonEmptyText(x[CallId]) && NonEmptyText(x[Name]) && x[ArgumentField(w)].JStr?
    && (Namespace in x ==> NonEmptyText(x[Namespace])) && PortableCaller(x)
    && (EncryptedFunctionArgs in x ==> NonEmptyTexts(x[EncryptedFunctionArgs]))
  }

  predicate PortableOutput(c: Codec, x: Item, w: Word) {
    && {Type, CallId, Output} <= x.Keys <= {Type, CallId, Output, Caller} && x[Type] == W(w)
    && NonEmptyText(x[CallId]) && PortableContent(c, x[Output]) && PortableCaller(x)
  }

  predicate PortableToolCatalog(x: Item) {
    && x.Keys <= {Type, Id, Role, Tools} && Type in x && Is(x[Type], AdditionalToolsType)
    && NonEmptyText(Get(x, Role)) && ToolObjects(Get(x, Tools)) && (Id in x ==> NonEmptyText(x[Id]))
  }

  predicate PortableItem(c: Codec, x: Item) {
    || PortableMessage(c, x)
    || PortableAgentMessage(x)
    || PortableCall(x, FunctionCall) || PortableCall(x, CustomToolCall)
    || PortableOutput(c, x, FunctionCallOutput) || PortableOutput(c, x, CustomToolCallOutput)
    || PortableToolCatalog(x)
    || x == map[Type := W(CompactionTrigger)]
  }

  function SeeJson(v: Json): Sighting {
    if v.Obj? then See(v.fields) else Sighting(Null, Null, Null, Null)
  }

  function SeeAll(vs: seq<Json>): seq<Sighting> {
    seq(|vs|, i requires 0 <= i < |vs| => SeeJson(vs[i]))
  }

  predicate AllPortable(c: Codec, vs: seq<Json>) {
    forall i :: 0 <= i < |vs| ==> vs[i].Obj? && PortableItem(c, vs[i].fields)
  }

  /** Portable items with sound tool relationships. */
  ghost predicate PortableList(c: Codec, vs: seq<Json>) {
    AllPortable(c, vs) && Sound(SeeAll(vs))
  }

  ghost predicate PortableBody(c: Codec, o: Item) {
    && Get(o, Store) == Bool(false) && o.Keys !! Bindings
    && ValidInclude(Get(o, Include))
    && (Get(o, Include).Arr? ==> W(ReasoningEncryptedContent) !in o[Include].elems)
    && (NonEmptyText(Get(o, Input)) || (Get(o, Input).Arr? && PortableList(c, o[Input].elems)))
  }

  // ---- items with no call identity

  predicate Bystander(x: Sighting) {
    !IsCall(x) && !IsOutput(x)
  }

  lemma MessageSound(c: Codec, x: Item)
    requires ProjectMessage(c, x).Ok? && ProjectMessage(c, x).value.value.Some?
    ensures var y := ProjectMessage(c, x).value.value.value; PortableMessage(c, y) && Bystander(See(y))
  {
    hide AssistantText, InputContent, PortableContent, EmptyPlaceholder;
    if Is(Get(x, Role), Assistant) {
      AssistantTextKeeps(c, Get(x, Content), false, 0);
    } else {
      InputContentSound(c, Get(x, Content), true, false, 0);
    }
  }

  lemma MessageFixed(c: Codec, x: Item)
    requires PortableMessage(c, x)
    ensures ProjectMessage(c, x) == Ok(Projected(Some(x), Zero))
  {
    hide InputContent, PortableContent;
    if !Is(x[Role], Assistant) {
      InputContentFixed(c, x[Content], false);
    }
    assert Message(x[Role], x[Content], Get(x, Phase)) == x;
  }

  lemma {:induction false} PartsAccepted(vs: seq<Json>, root: nat)
    ensures GatherParts(vs, root).Ok? <==> forall i :: 0 <= i < |vs| ==> AssistantBlock(vs[i]).Ok?
    ensures GatherParts(vs, root).Ok? ==> GatherParts(vs, root).value.encrypted == root + CipherCount(vs)
  {
    hide AssistantBlock;
    if vs != [] {
      var n := |vs| - 1;
      PartsAccepted(vs[..n], root);
      CipherIsSilent(vs[n]);
      assert forall i :: 0 <= i < n ==> vs[..n][i] == vs[i];
      assert (forall i :: 0 <= i < |vs| ==> AssistantBlock(vs[i]).Ok?) <==>
             (forall i :: 0 <= i < n ==> AssistantBlock(vs[i]).Ok?) && AssistantBlock(vs[n]).Ok?;
    }
  }

  lemma CipherIsSilent(v: Json)
    ensures AssistantBlock(v).Ok? ==> (AssistantBlock(v).value.None? <==> CipherBlock(v))
  {
  }

  lemma {:induction false} CipherCounted(vs: seq<Json>)
    ensures CipherCount(vs) > 0 <==> exists i :: 0 <= i < |vs| && CipherBlock(vs[i])
  {
    hide CipherBlock;
    if vs != [] {
      var n := |vs| - 1;
      CipherCounted(vs[..n]);
      assert forall i :: 0 <= i < n ==> vs[..n][i] == vs[i];
      if CipherCount(vs[..n]) > 0 {
        var i :| 0 <= i < n && CipherBlock(vs[..n][i]);
        assert CipherBlock(vs[i]);
      }
      if i :| 0 <= i < |vs| && CipherBlock(vs[i]) {
        assert i < n ==> CipherBlock(vs[..n][i]);
      }
    }
  }

  /** With ciphertext present, agent content is accepted exactly when the grammar has it. */
  lemma AgentContent(c: Codec, x: Item)
    requires AgentCiphertext(x).Ok? && AgentCiphertext(x).value > 0
    ensures Ciphered(x)
    ensures AssistantText(c, Get(x, Content), true, Count(EncryptedContent in x)).Ok? <==>
      (Get(x, Content).JStr? || Get(x, Content).Null?
       || (Get(x, Content).Arr? && forall i :: 0 <= i < |x[Content].elems| ==> AgentBlock(x[Content].elems[i])))
  {
    hide AssistantBlock, CipherBlock, ExactCipher;
    var v := Get(x, Content);
    if v.Arr? {
      PartsAccepted(v.elems, Count(EncryptedContent in x));
      CipherCounted(v.elems);
    }
  }

  lemma AgentSound(c: Codec, x: Item)
    requires CodecOk(c) && Type in x && Is(x[Type], AgentMessageType)
    requires ProjectAgentMessage(c, x).Ok?
    ensures var r := ProjectAgentMessage(c, x).value;
      && r.value.Some? && Bystander(See(r.value.value))
      && (PortableAgentMessage(r.value.value) || PortableMessage(c, r.value.value))
  {
    hide AssistantText, AgentCiphertext, PortableAgentMessage, PortableMessage, Message, Ciphered, AgentBlock;
    if AgentCiphertext(x).value > 0 {
      AgentContent(c, x);
      NativePortable(x);
    } else {
      AgentSpoken(c, x);
    }
  }

  lemma NativePortable(x: Item)
    requires x.Keys <= AgentKeys && Type in x && Is(x[Type], AgentMessageType)
    requires NonEmptyText(Get(x, Author)) && NonEmptyText(Get(x, Recipient)) && ValidPhase(AgentPhase(x))
    requires AgentCiphertext(x).Ok? && Ciphered(x)
    requires Get(x, Content).JStr? || Get(x, Content).Null?
      || (Get(x, Content).Arr? && forall i :: 0 <= i < |x[Content].elems| ==> AgentBlock(x[Content].elems[i]))
    ensures PortableAgentMessage(x - {Passthrough, Status}) && Bystander(See(x - {Passthrough, Status}))
  {
    hide AgentBlock, CipherBlock, ExactCipher;
    var y := x - {Passthrough, Status};
    assert forall f :: f in y ==> y[f] == x[f];
  }

  lemma AgentSpoken(c: Codec, x: Item)
    requires CodecOk(c) && ValidPhase(AgentPhase(x))
    ensures forall header: Str, text: Str ::
      var y := Message(W(Assistant), JStr(c.headed(header, text)), AgentPhase(x));
      PortableMessage(c, y) && Bystander(See(y))
  {
    hide PortableContent;
  }

  lemma AgentFixed(c: Codec, x: Item)
    requires PortableAgentMessage(x)
    ensures ProjectAgentMessage(c, x) == Ok(Projected(Some(x), Zero))
  {
    hide AssistantText, CipherBlock, ExactCipher, AssistantBlock;
    var v := Get(x, Content);
    if v.Arr? {
      CipherCounted(v.elems);
      assert forall i :: 0 <= i < |v.elems| && CipherBlock(v.elems[i]) ==>
        AgentBlock(v.elems[i]) && ExactCipher(v.elems[i]);
    }
    AgentContent(c, x);
    assert x - {Passthrough, Status} == x;
  }

  // ---- calls and outputs

  /** What a tracker over the projected list knows, against the tracker over the original: local
      shell calls are gone, and no output carries an identifier of its own. */
  ghost predicate Mirrors(t: Tracker, u: Tracker) {
    && t.outputs <= t.calls.Keys
    && (forall id :: id in u.calls <==> id in t.calls && t.calls[id] != LocalShellCall)
    && (forall id :: id in u.calls ==> u.calls[id] == t.calls[id])
    && (forall id :: id in u.outputs <==> id in t.outputs && t.calls[id] != LocalShellCall)
    && u.outputIds == {}
    && t.deliveries <= t.outputIds
  }

  lemma CallSound(t: Tracker, u: Tracker, x: Item, w: Word)
    requires Mirrors(t, u) && (w == FunctionCall || w == CustomToolCall)
    requires Type in x && x[Type] == W(w) && CallStep(t, x, w).Ok?
    ensures var e := CallStep(t, x, w).value;
      && e.value.Some? && PortableCall(e.value.value, w)
      && Observe(u, See(e.value.value)).1 == NoIssue && Mirrors(e.tracker, Observe(u, See(e.value.value)).0)
  {
    var e := CallStep(t, x, w).value;
    CallShape(x, w);
    CallSeen(t, u, See(x).(id := Null), See(e.value.value));
  }

  lemma CallShape(x: Item, w: Word)
    requires (w == FunctionCall || w == CustomToolCall) && x.Keys <= CallKeys(w)
    requires NonEmptyText(Get(x, CallId)) && ProjectCall(x, w).Ok?
    ensures var y := ProjectCall(x, w).value.value;
      y.Some? && PortableCall(y.value, w) && See(y.value).callId == Get(x, CallId) && See(y.value).itemType == W(w)
  {
    hide NonEmptyText, NonEmptyTexts, ValidCaller;
    NullHasNoText();
  }

  lemma NullHasNoText()
    ensures !NonEmptyText(Null)
  {
  }

  lemma CallSeen(t: Tracker, u: Tracker, x: Sighting, y: Sighting)
    requires Mirrors(t, u) && IsCall(x) && x.itemType != W(LocalShellCall)
    requires x.itemType == y.itemType && x.callId == y.callId && Observe(t, x).1 == NoIssue
    ensures Observe(u, y).1 == NoIssue && Mirrors(Observe(t, x).0, Observe(u, y).0)
  {
  }

  lemma CallFixed(t: Tracker, x: Item, w: Word)
    requires (w == FunctionCall || w == CustomToolCall) && PortableCall(x, w)
    requires Observe(t, See(x)).1 == NoIssue
    ensures CallStep(t, x, w) == Ok(Effect(Observe(t, See(x)).0, Some(x), Zero))
  {
    hide NonEmptyTexts, ValidCaller;
    NullCaller();
    assert Id !in x;
    var y := map[Type := W(w), CallId := Get(x, CallId), Name := Get(x, Name),
                 ArgumentField(w) := Get(x, ArgumentField(w))];
    var z := With(With(y, Namespace, Get(x, Namespace)), Caller, Get(x, Caller));
    var call := if EncryptedFunctionArgs in x then z[EncryptedFunctionArgs := x[EncryptedFunctionArgs]] else z;
    assert call == x;
  }

  lemma LocalCallSound(t: Tracker, u: Tracker, x: Item)
    requires Mirrors(t, u) && Type in x && x[Type] == W(LocalShellCall) && LocalCallStep(t, x).Ok?
    ensures LocalCallStep(t, x).value.value.None? && Mirrors(LocalCallStep(t, x).value.tracker, u)
  {
    hide ValidAction;
  }

  lemma OutputSeen(t: Tracker, u: Tracker, x: Sighting, y: Sighting)
    requires Mirrors(t, u) && IsOutput(x) && Observe(t, x).1 == NoIssue
    requires y == Sighting(x.itemType, x.callId, Null, Null)
    ensures var v := Observe(t, x).0;
      && x.callId.JStr? && x.callId.s in t.calls && NonEmptyText(x.callId)
      && var delivered := x.id.JStr? && x.id.s in v.deliveries;
      && (delivered ==> t.calls[x.callId.s] != LocalShellCall)
      && (t.calls[x.callId.s] == LocalShellCall || delivered ==> Mirrors(v, u))
      && (t.calls[x.callId.s] != LocalShellCall && !delivered ==>
          Observe(u, y).1 == NoIssue && Mirrors(v, Observe(u, y).0))
  {
  }

  lemma OutputShape(c: Codec, x: Item, w: Word, delivery: bool)
    requires CodecOk(c) && (w == FunctionCallOutput || w == CustomToolCallOutput)
    requires NonEmptyText(Get(x, CallId)) && ProjectOutput(c, x, w, delivery).Ok?
    ensures var y := ProjectOutput(c, x, w, delivery).value.value;
      && y.Some?
      && (delivery ==> PortableMessage(c, y.value) && Bystander(See(y.value)))
      && (!delivery ==> PortableOutput(c, y.value, w) && See(y.value) == Sighting(W(w), Get(x, CallId), Null, Null))
  {
    hide CodecOk, AssistantText, OutputContent, PortableContent, ValidCaller, DeliveryMessage, PortableMessage,
         Bystander;
    OutputContentPortable(c, x);
    if delivery {
      DeliveryPortable(c, DeliveryHeader(x), AssistantText(c, OutputContent(c, x).value.value, false, 0).value.text);
    }
  }

  lemma OutputContentPortable(c: Codec, x: Item)
    requires OutputContent(c, x).Ok?
    ensures PortableContent(c, OutputContent(c, x).value.value)
  {
    hide InputContent, PortableContent;
    if !EmptyOutput(x) {
      InputContentSound(c, Get(x, Output), true, true, OutputRoot(x));
    } else {
      TextIsPortable(c, W(EmptyToolOutputMarker));
    }
  }

  lemma DeliveryPortable(c: Codec, header: Item, text: Str)
    requires CodecOk(c)
    ensures PortableMessage(c, DeliveryMessage(c, header, text)) && Bystander(See(DeliveryMessage(c, header, text)))
  {
    hide PortableContent;
  }

  lemma TextIsPortable(c: Codec, v: Json)
    requires NonEmptyText(v)
    ensures PortableContent(c, v)
  {
  }

  /** An output step leaves a portable output, a message for a later result, or nothing where the
      call was dropped. */
  lemma OutputSound(c: Codec, t: Tracker, u: Tracker, x: Item, w: Word)
    requires CodecOk(c) && Mirrors(t, u) && (w == FunctionCallOutput || w == CustomToolCallOutput)
    requires Type in x && x[Type] == W(w) && OutputStep(c, t, x, w).Ok?
    ensures var e := OutputStep(c, t, x, w).value;
      && e.value.Some?
      && (AnswersLocalCall(t, x) ==> Mirrors(e.tracker, u))
      && (!AnswersLocalCall(t, x) ==>
          && PortableItem(c, e.value.value)
          && Observe(u, See(e.value.value)).1 == NoIssue && Mirrors(e.tracker, Observe(u, See(e.value.value)).0))
  {
    hide PortableMessage, PortableOutput, ProjectOutput, Mirrors, PortableAgentMessage, PortableCall,
         PortableToolCatalog, Bystander;
    var (v, issue) := Observe(t, See(x));
    OutputSeen(t, u, See(x), See(x).(name := Null, id := Null));
    OutputShape(c, x, w, Delivered(v, x));
    var y := ProjectOutput(c, x, w, Delivered(v, x)).value.value.value;
    if Delivered(v, x) {
      BystanderUnseen(u, See(y));
    }
  }

  lemma BystanderUnseen(u: Tracker, x: Sighting)
    requires Bystander(x)
    ensures Observe(u, x) == (u, NoIssue)
  {
  }

  lemma OutputFixed(c: Codec, t: Tracker, x: Item, w: Word)
    requires (w == FunctionCallOutput || w == CustomToolCallOutput) && PortableOutput(c, x, w)
    requires Observe(t, See(x)).1 == NoIssue
    ensures OutputStep(c, t, x, w) == Ok(Effect(Observe(t, See(x)).0, Some(x), Zero))
  {
    hide InputContent, PortableContent, ValidCaller;
    assert Get(x, EncryptedContent) == Null && Id !in x;
    PortableIsNotEmpty(c, x[Output]);
    InputContentFixed(c, x[Output], true);
    NullCaller();
    assert With(map[Type := W(w), CallId := Get(x, CallId), Output := x[Output]], Caller, Get(x, Caller)) == x;
  }

  lemma NullCaller()
    ensures ValidCaller(Null)
  {
  }

  lemma PortableIsNotEmpty(c: Codec, v: Json)
    requires PortableContent(c, v)
    ensures v != JStr(Text(""))
  {
  }

  // ---- one item

  /** One accepted item leaves in the grammar, and the tracker over the projected list follows. */
  lemma ItemSound(c: Codec, t: Tracker, u: Tracker, v: Json)
    requires CodecOk(c) && Mirrors(t, u) && ItemStep(c, t, v).Ok?
    ensures var e := ItemStep(c, t, v).value;
      && (e.value.None? ==> Mirrors(e.tracker, u))
      && (e.value.Some? ==>
          && PortableItem(c, e.value.value)
          && Observe(u, See(e.value.value)).1 == NoIssue && Mirrors(e.tracker, Observe(u, See(e.value.value)).0))
  {
    hide CodecOk, Mirrors, Observe, OutputStep, CallStep, LocalCallStep, ProjectMessage, ProjectAgentMessage,
         PortableMessage,
      PortableAgentMessage, PortableCall, PortableOutput, PortableToolCatalog, Bystander, ProjectDetachedDelivery,
      ProjectToolCatalog,
      ProjectCompactionTrigger;
    var x := v.fields;
    var e := ItemStep(c, t, v).value;
    match Classify(TypeOf(x)).value {
      case KeepMessage =>
        if e.value.Some? {
          MessageSound(c, x);
          BystanderUnseen(u, See(e.value.value));
        }
      case KeepAgentMessage =>
        AgentSound(c, x);
        BystanderUnseen(u, See(e.value.value));
      case KeepCall => CallSound(t, u, x, x[Type].s.word);
      case DropLocalTool => LocalCallSound(t, u, x);
      case KeepOutput =>
        if AnswersLocalCall(t, x) || CallId in x {
          OutputSound(c, t, u, x, x[Type].s.word);
        } else {
          DetachedSound(c, x);
          BystanderUnseen(u, See(e.value.value));
        }
      case KeepCompactionTrigger | KeepToolCatalog =>
        ControlSound(c, t, v);
        BystanderUnseen(u, See(e.value.value));
      case _ =>
    }
  }

  lemma DetachedSound(c: Codec, x: Item)
    requires CodecOk(c) && ProjectDetachedDelivery(c, x).Ok?
    ensures var y := ProjectDetachedDelivery(c, x).value.value;
      y.Some? && PortableMessage(c, y.value) && Bystander(See(y.value))
  {
    hide PortableContent;
  }

  lemma ControlSound(c: Codec, t: Tracker, v: Json)
    requires IsControl(v) && ItemStep(c, t, v).Ok?
    ensures ItemStep(c, t, v) == Ok(Effect(t, Some(v.fields), Zero))
    ensures PortableItem(c, v.fields) && Bystander(See(v.fields))
  {
    hide ProjectMessage, ProjectAgentMessage, PortableMessage, PortableAgentMessage, PortableCall, PortableOutput,
         OutputStep, CallStep, LocalCallStep;
    if Classify(TypeOf(v.fields)) == Some(KeepCompactionTrigger) {
      assert v.fields == map[Type := W(CompactionTrigger)];
    }
  }

  ghost predicate NoLocalCalls(t: Tracker) {
    forall id :: id in t.calls ==> t.calls[id] != LocalShellCall
  }

  /** A portable item whose relationships hold is left exactly as it is. */
  lemma ItemFixed(c: Codec, t: Tracker, x: Item)
    requires PortableItem(c, x) && Observe(t, See(x)).1 == NoIssue && NoLocalCalls(t)
    ensures ItemStep(c, t, Obj(x)) == Ok(Effect(Observe(t, See(x)).0, Some(x), Zero))
    ensures NoLocalCalls(Observe(t, See(x)).0)
  {
    hide Observe, OutputStep, CallStep, LocalCallStep, ProjectMessage, ProjectAgentMessage, ProjectToolCatalog,
         ProjectCompactionTrigger,
      PortableMessage, PortableAgentMessage, PortableCall, PortableOutput, PortableToolCatalog, Bystander;
    Kinds(c, x);
    NoLocalCall(t, See(x));
    if PortableMessage(c, x) {
      MessageFixed(c, x);
      BystanderUnseen(t, See(x));
    } else if PortableAgentMessage(x) {
      AgentFixed(c, x);
      BystanderUnseen(t, See(x));
    } else if PortableToolCatalog(x) || x == map[Type := W(CompactionTrigger)] {
      ControlFixed(x);
      BystanderUnseen(t, See(x));
    } else {
      ToolItemFixed(c, t, x);
    }
  }

  lemma ToolItemFixed(c: Codec, t: Tracker, x: Item)
    requires Observe(t, See(x)).1 == NoIssue && NoLocalCalls(t)
    requires || PortableCall(x, FunctionCall) || PortableCall(x, CustomToolCall)
             || PortableOutput(c, x, FunctionCallOutput) || PortableOutput(c, x, CustomToolCallOutput)
    ensures ItemStep(c, t, Obj(x)) == Ok(Effect(Observe(t, See(x)).0, Some(x), Zero))
  {
    hide Observe, OutputStep, CallStep, LocalCallStep, ProjectMessage, ProjectAgentMessage, ProjectToolCatalog,
         ProjectCompactionTrigger,
      PortableMessage, PortableAgentMessage, PortableCall, PortableOutput, PortableToolCatalog, Bystander;
    CallKinds(c, x);
    if PortableCall(x, FunctionCall) {
      CallFixed(t, x, FunctionCall);
    } else if PortableCall(x, CustomToolCall) {
      CallFixed(t, x, CustomToolCall);
    } else if PortableOutput(c, x, FunctionCallOutput) {
      OutputFixed(c, t, x, FunctionCallOutput);
    } else {
      OutputFixed(c, t, x, CustomToolCallOutput);
    }
  }

  lemma MessageKinds(c: Codec, x: Item)
    ensures PortableMessage(c, x) ==> Type in x && TypeOf(x) == W(MessageType) && Bystander(See(x))
    ensures PortableAgentMessage(x) ==> Type in x && TypeOf(x) == W(AgentMessageType) && Bystander(See(x))
  {
    hide PortableContent, Ciphered, AgentBlock, NonEmptyText, ValidPhase;
  }

  lemma CallKinds(c: Codec, x: Item)
    ensures PortableCall(x, FunctionCall) ==> Type in x && TypeOf(x) == W(FunctionCall)
    ensures PortableCall(x, CustomToolCall) ==> Type in x && TypeOf(x) == W(CustomToolCall)
    ensures PortableOutput(c, x, FunctionCallOutput) ==> Type in x && TypeOf(x) == W(FunctionCallOutput) && CallId in x
    ensures PortableOutput(c, x, CustomToolCallOutput) ==>
      Type in x && TypeOf(x) == W(CustomToolCallOutput) && CallId in x
  {
    hide PortableContent, NonEmptyText, NonEmptyTexts, PortableCaller;
  }

  lemma ControlKinds(x: Item)
    ensures PortableToolCatalog(x) ==> Type in x && TypeOf(x) == W(AdditionalToolsType) && Bystander(See(x))
    ensures x == map[Type := W(CompactionTrigger)] ==> Type in x && Bystander(See(x))
  {
    hide ToolObjects, NonEmptyText;
  }

  /** The grammar tells its kinds of items apart by their type. */
  lemma Kinds(c: Codec, x: Item)
    ensures PortableMessage(c, x) ==> TypeOf(x) == W(MessageType) && Bystander(See(x))
    ensures PortableAgentMessage(x) ==> TypeOf(x) == W(AgentMessageType) && Bystander(See(x))
    ensures PortableCall(x, FunctionCall) ==> TypeOf(x) == W(FunctionCall)
    ensures PortableCall(x, CustomToolCall) ==> TypeOf(x) == W(CustomToolCall)
    ensures PortableOutput(c, x, FunctionCallOutput) ==> TypeOf(x) == W(FunctionCallOutput) && CallId in x
    ensures PortableOutput(c, x, CustomToolCallOutput) ==> TypeOf(x) == W(CustomToolCallOutput) && CallId in x
    ensures PortableToolCatalog(x) ==> TypeOf(x) == W(AdditionalToolsType) && Bystander(See(x))
    ensures x == map[Type := W(CompactionTrigger)] ==> Bystander(See(x))
    ensures PortableItem(c, x) ==> Type in x && x[Type] == TypeOf(x)
  {
    hide PortableMessage, PortableAgentMessage, PortableCall, PortableOutput, PortableToolCatalog, Bystander;
    MessageKinds(c, x);
    CallKinds(c, x);
    ControlKinds(x);
  }

  lemma ControlFixed(x: Item)
    ensures PortableToolCatalog(x) ==> ProjectToolCatalog(x) == Ok(Projected(Some(x), Zero))
    ensures x == map[Type := W(CompactionTrigger)] ==> ProjectCompactionTrigger(x) == Ok(Projected(Some(x), Zero))
  {
    hide ToolObjects;
  }

  lemma NoLocalCall(t: Tracker, x: Sighting)
    requires NoLocalCalls(t) && x.itemType != W(LocalShellCall)
    ensures NoLocalCalls(Observe(t, x).0)
  {
  }

  // ---- lists

  lemma SeeAllSplits(vs: seq<Json>, v: Json)
    ensures SeeAll(vs + [v]) == SeeAll(vs) + [SeeJson(v)]
  {
  }

  lemma RunExtends(xs: seq<Sighting>, x: Sighting)
    requires Run(xs).Some?
    ensures var (t, issue) := Observe(Run(xs).value, x); Run(xs + [x]) == if issue == NoIssue then Some(t) else None
  {
    assert (xs + [x])[..|xs|] == xs;
  }

  lemma {:induction false} WalkSound(c: Codec, vs: seq<Json>)
    requires CodecOk(c) && Walk(c, vs).Ok?
    ensures var p := Walk(c, vs).value;
      AllPortable(c, p.items) && Run(SeeAll(p.items)).Some? && Mirrors(p.tracker, Run(SeeAll(p.items)).value)
  {
    hide ItemStep, PortableItem, CodecOk, Observe, Mirrors, Run, SeeAll;
    if vs == [] {
      NothingWalked();
    } else {
      var n := |vs| - 1;
      WalkSound(c, vs[..n]);
      var p := Walk(c, vs[..n]).value;
      var u := Run(SeeAll(p.items)).value;
      var e := ItemStep(c, p.tracker, vs[n]).value;
      ItemSound(c, p.tracker, u, vs[n]);
      if e.value.Some? {
        var y := Obj(e.value.value);
        SeeAllSplits(p.items, y);
        RunExtends(SeeAll(p.items), SeeJson(y));
      }
    }
  }

  lemma NothingWalked()
    ensures SeeAll([]) == [] && Run([]) == Some(Fresh) && Mirrors(Fresh, Fresh)
  {
  }

  /** Every accepted input list leaves in the grammar. */
  lemma ProjectionSound(c: Codec, vs: seq<Json>)
    requires CodecOk(c) && ProjectList(c, vs).Ok?
    ensures PortableList(c, ProjectList(c, vs).value.items)
  {
    hide CodecOk, AllPortable, Sound, Walk;
    WalkSound(c, vs);
    TrackerAgrees(SeeAll(Walk(c, vs).value.items));
  }

  lemma {:induction false} WalkFixed(c: Codec, vs: seq<Json>)
    requires AllPortable(c, vs) && Run(SeeAll(vs)).Some?
    ensures Walk(c, vs) == Ok(Progress(Run(SeeAll(vs)).value, vs, Zero))
    ensures NoLocalCalls(Run(SeeAll(vs)).value)
  {
    hide ItemStep, AllPortable, Observe, Run, SeeAll, SeeJson, NoLocalCalls, Walk;
    if vs == [] {
      NothingProjected(c);
      NothingWalked();
      NoCallsAtAll();
    } else {
      var n := |vs| - 1;
      var us := vs[..n];
      assert us + [vs[n]] == vs;
      AllPortablePrefix(c, vs);
      SeeAllSplits(us, vs[n]);
      RunPrefix(SeeAll(us), SeeJson(vs[n]));
      WalkFixed(c, us);
      ItemFixed(c, Run(SeeAll(us)).value, vs[n].fields);
      UnchangedStep(c, us, vs[n], Run(SeeAll(us)).value, Run(SeeAll(vs)).value);
    }
  }

  lemma NothingProjected(c: Codec)
    ensures Walk(c, []) == Ok(Progress(Fresh, [], Zero))
  {
  }

  lemma UnchangedStep(c: Codec, us: seq<Json>, v: Json, t: Tracker, u: Tracker)
    requires v.Obj? && Walk(c, us) == Ok(Progress(t, us, Zero))
    requires ItemStep(c, t, v) == Ok(Effect(u, Some(v.fields), Zero))
    ensures Walk(c, us + [v]) == Ok(Progress(u, us + [v], Zero))
  {
    hide ItemStep, Walk;
    WalkAppend(c, us, v);
  }

  lemma WalkAppend(c: Codec, us: seq<Json>, v: Json)
    requires Walk(c, us).Ok? && ItemStep(c, Walk(c, us).value.tracker, v).Ok?
    ensures Walk(c, us + [v]) == Ok(Advance(Walk(c, us).value, ItemStep(c, Walk(c, us).value.tracker, v).value))
  {
    hide ItemStep, Advance;
    assert (us + [v])[..|us|] == us;
  }

  lemma NoCallsAtAll()
    ensures NoLocalCalls(Fresh)
  {
  }

  lemma AllPortablePrefix(c: Codec, vs: seq<Json>)
    requires AllPortable(c, vs) && vs != []
    ensures AllPortable(c, vs[..|vs| - 1])
    ensures var v := vs[|vs| - 1]; v.Obj? && PortableItem(c, v.fields) && SeeJson(v) == See(v.fields)
  {
    hide PortableItem;
  }

  lemma RunPrefix(xs: seq<Sighting>, x: Sighting)
    requires Run(xs + [x]).Some?
    ensures Run(xs).Some? && Observe(Run(xs).value, x) == (Run(xs + [x]).value, NoIssue)
  {
    assert (xs + [x])[..|xs|] == xs;
  }

  /** A list in the grammar is projected to itself, and nothing is counted as changed. */
  lemma ProjectionFixed(c: Codec, vs: seq<Json>)
    requires PortableList(c, vs)
    ensures ProjectList(c, vs) == Ok(Replay(vs, Zero))
  {
    hide AllPortable, Sound, Walk;
    TrackerAgrees(SeeAll(vs));
    WalkFixed(c, vs);
    assert !Pending(Run(SeeAll(vs)).value, LocalShellCall);
  }

  // ---- requests

  lemma {:induction false} TrimmedTexts(vs: seq<Json>)
    ensures W(ReasoningEncryptedContent) !in Trimmed(vs)
    ensures forall v :: v in Trimmed(vs) <==> v in vs && v != W(ReasoningEncryptedContent)
    ensures |Trimmed(vs)| <= |vs| && (|Trimmed(vs)| == |vs| ==> Trimmed(vs) == vs)
    ensures W(ReasoningEncryptedContent) !in vs ==> Trimmed(vs) == vs
  {
    if vs != [] {
      var n := |vs| - 1;
      TrimmedTexts(vs[..n]);
      assert vs[..n] + [vs[n]] == vs;
    }
  }

  lemma UnboundShape(o: Item)
    requires ValidInclude(Get(o, Include))
    ensures var u := Unbound(o);
      && Get(u, Store) == Bool(false) && u.Keys !! Bindings && ValidInclude(Get(u, Include))
      && (Get(u, Include).Arr? ==> W(ReasoningEncryptedContent) !in u[Include].elems)
  {
    if Get(o, Include).Arr? {
      TrimmedTexts(o[Include].elems);
      var t := Trimmed(o[Include].elems);
      assert forall i :: 0 <= i < |t| ==> t[i] in t;
    }
  }

  /** An accepted request leaves in the grammar. */
  lemma SanitizeSound(c: Codec, o: Item)
    requires CodecOk(c) && Sanitize(c, Some(Obj(o))).Changed?
    ensures PortableBody(c, Sanitize(c, Some(Obj(o))).body)
  {
    hide CodecOk, ProjectList, PortableList, Unbound, ValidInclude, BindingCount, Trimmed;
    UnboundShape(o);
    if Get(o, Input).Arr? {
      ProjectionSound(c, o[Input].elems);
    }
  }

  lemma UnboundFixed(o: Item)
    requires Get(o, Store) == Bool(false) && o.Keys !! Bindings
    requires Get(o, Include).Arr? ==> W(ReasoningEncryptedContent) !in o[Include].elems
    ensures Unbound(o) == o
  {
    if Get(o, Include).Arr? {
      TrimmedTexts(o[Include].elems);
    }
    assert o[Store := Bool(false)] - Bindings == o;
  }

  /** The requests left alone are exactly those in the grammar. */
  lemma CleanIffPortable(c: Codec, o: Item)
    requires CodecOk(c)
    ensures Sanitize(c, Some(Obj(o))) == Clean <==> PortableBody(c, o)
  {
    hide CodecOk, ProjectList, PortableList, Unbound;
    if PortableBody(c, o) {
      if Get(o, Input).Arr? {
        ProjectionFixed(c, o[Input].elems);
      }
      UnboundFixed(o);
      if Get(o, Include).Arr? {
        TrimmedTexts(o[Include].elems);
      }
      assert o[Input := o[Input]] == o;
    } else if Sanitize(c, Some(Obj(o))) == Clean {
      CleanIsPortable(c, o);
    }
  }

  lemma CleanIsPortable(c: Codec, o: Item)
    requires CodecOk(c) && Sanitize(c, Some(Obj(o))) == Clean
    ensures PortableBody(c, o)
  {
    hide CodecOk, ProjectList, PortableList;
    if Get(o, Include).Arr? {
      TrimmedTexts(o[Include].elems);
    }
    if Get(o, Input).Arr? {
      ProjectionSound(c, o[Input].elems);
    }
  }

  /** Sanitizing is idempotent: a projected body, sanitized again, is accepted as it stands. */
  lemma SanitizeIdempotent(c: Codec, payload: Option<Json>)
    requires CodecOk(c) && Sanitize(c, payload).Changed?
    ensures Sanitize(c, Some(Obj(Sanitize(c, payload).body))) == Clean
  {
    hide CodecOk, PortableBody;
    SanitizeSound(c, payload.value.fields);
    CleanIffPortable(c, Sanitize(c, payload).body);
  }

  // ---- what must survive a projection

  /** What a call asks for, and a control of the turn, read off the raw item. */
  datatype Record =
    | Called(itemType: Json, callId: Json, name: Json, argument: Json, namespace: Json, caller: Json, encrypted: Json)
    | Control(item: Item)

  function Recorded(v: Json): seq<Record> {
    if !v.Obj? then []
    else if IsControl(v) then [Control(v.fields)]
    else if Is(Get(v.fields, Type), FunctionCall) || Is(Get(v.fields, Type), CustomToolCall) then
      var x := v.fields;
      [Called(x[Type], Get(x, CallId), Get(x, Name), Get(x, ArgumentField(x[Type].s.word)), Get(x, Namespace),
              Get(x, Caller),
              Get(x, EncryptedFunctionArgs))]
    else []
  }

  function Records(vs: seq<Json>): seq<Record> {
    if vs == [] then [] else Records(vs[..|vs| - 1]) + Recorded(vs[|vs| - 1])
  }

  lemma CallFields(x: Item, w: Word, f: Field)
    requires (w == FunctionCall || w == CustomToolCall) && x.Keys <= CallKeys(w) && ProjectCall(x, w).Ok?
    requires f in {CallId, Name, ArgumentField(w), Namespace, Caller, EncryptedFunctionArgs}
    ensures var y := ProjectCall(x, w).value.value;
      y.Some? && Get(y.value, f) == Get(x, f) && Type in y.value && y.value[Type] == W(w)
  {
    hide NonEmptyText, NonEmptyTexts, ValidCaller;
  }

  lemma CallRecorded(t: Tracker, x: Item, w: Word)
    requires (w == FunctionCall || w == CustomToolCall) && Type in x && x[Type] == W(w) && CallStep(t, x, w).Ok?
    ensures var e := CallStep(t, x, w).value; e.value.Some? && Recorded(Obj(e.value.value)) == Recorded(Obj(x))
  {
    hide Observe, ProjectCall;
    CallFields(x, w, CallId);
    CallFields(x, w, Name);
    CallFields(x, w, ArgumentField(w));
    CallFields(x, w, Namespace);
    CallFields(x, w, Caller);
    CallFields(x, w, EncryptedFunctionArgs);
  }

  lemma MessageUnrecorded(c: Codec, x: Item)
    requires ProjectMessage(c, x).Ok? && ProjectMessage(c, x).value.value.Some?
    ensures Recorded(Obj(ProjectMessage(c, x).value.value.value)) == []
  {
    hide AssistantText, InputContent, EmptyPlaceholder;
  }

  lemma AgentUnrecorded(c: Codec, x: Item)
    requires ProjectAgentMessage(c, x).Ok? && Type in x && x[Type] == W(AgentMessageType)
    ensures var y := ProjectAgentMessage(c, x).value.value; y.Some? && Recorded(Obj(y.value)) == []
  {
    hide AssistantText, AgentCiphertext;
  }

  lemma OutputUnrecorded(c: Codec, x: Item, w: Word, delivery: bool)
    requires ProjectOutput(c, x, w, delivery).Ok? && (w == FunctionCallOutput || w == CustomToolCallOutput)
    ensures var y := ProjectOutput(c, x, w, delivery).value.value; y.Some? && Recorded(Obj(y.value)) == []
  {
    hide AssistantText, OutputContent, ValidCaller;
  }

  lemma DetachedUnrecorded(c: Codec, x: Item)
    requires ProjectDetachedDelivery(c, x).Ok?
    ensures var y := ProjectDetachedDelivery(c, x).value.value; y.Some? && Recorded(Obj(y.value)) == []
  {
  }

  lemma ItemRecorded(c: Codec, t: Tracker, v: Json)
    requires ItemStep(c, t, v).Ok?
    ensures var e := ItemStep(c, t, v).value; Recorded(v) == if e.value.Some? then Recorded(Obj(e.value.value)) else []
  {
    hide Observe, CallStep, LocalCallStep, ProjectMessage, ProjectAgentMessage, ProjectOutput, ProjectDetachedDelivery,
      ProjectToolCatalog, ProjectCompactionTrigger, PortableItem, Bystander;
    var x := v.fields;
    var e := ItemStep(c, t, v).value;
    match Classify(TypeOf(x)).value {
      case KeepCall => CallRecorded(t, x, x[Type].s.word);
      case KeepCompactionTrigger | KeepToolCatalog => ControlSound(c, t, v);
      case KeepMessage =>
        if e.value.Some? {
          MessageUnrecorded(c, x);
        }
      case KeepAgentMessage => AgentUnrecorded(c, x);
      case KeepOutput =>
        if AnswersLocalCall(t, x) || CallId in x {
          OutputUnrecorded(c, x, x[Type].s.word, Delivered(Observe(t, See(x)).0, x));
        } else {
          DetachedUnrecorded(c, x);
        }
      case DropLocalTool => LocalCallDropped(t, x);
      case _ =>
    }
  }

  lemma LocalCallDropped(t: Tracker, x: Item)
    requires LocalCallStep(t, x).Ok?
    ensures LocalCallStep(t, x).value.value.None?
  {
    hide ValidAction;
  }

  lemma RecordsAppend(vs: seq<Json>, v: Json)
    ensures Records(vs + [v]) == Records(vs) + Recorded(v)
  {
    assert (vs + [v])[..|vs|] == vs;
  }

  lemma {:induction false} WalkKeeps(c: Codec, vs: seq<Json>)
    requires Walk(c, vs).Ok?
    ensures Records(Walk(c, vs).value.items) == Records(vs)
  {
    hide ItemStep, Recorded;
    if vs != [] {
      var n := |vs| - 1;
      WalkKeeps(c, vs[..n]);
      var p := Walk(c, vs[..n]).value;
      ItemRecorded(c, p.tracker, vs[n]);
      var e := ItemStep(c, p.tracker, vs[n]).value;
      if e.value.Some? {
        RecordsAppend(p.items, Obj(e.value.value));
      }
    }
  }

  /** No call and no control of an accepted list is lost, altered or reordered, and in the projected
      list every call has at most one output, which follows it. */
  lemma ProjectionKeepsCalls(c: Codec, vs: seq<Json>)
    requires CodecOk(c) && ProjectList(c, vs).Ok?
    ensures var ys := ProjectList(c, vs).value.items;
      && Records(ys) == Records(vs)
      && (forall i, j :: 0 <= i < j < |ys| && IsOutput(SeeJson(ys[i])) && IsOutput(SeeJson(ys[j])) ==>
            SeeJson(ys[i]).callId != SeeJson(ys[j]).callId)
      && (forall j :: 0 <= j < |ys| && IsOutput(SeeJson(ys[j])) ==> exists k :: Answers(SeeAll(ys), k, j))
  {
    hide CodecOk, Walk, Records, IsOutput, PortableItem, Sound;
    WalkKeeps(c, vs);
    ProjectionSound(c, vs);
    var ys := ProjectList(c, vs).value.items;
    var xs := SeeAll(ys);
    forall i, j | 0 <= i < j < |ys| && IsOutput(SeeJson(ys[i])) && IsOutput(SeeJson(ys[j]))
      ensures SeeJson(ys[i]).callId != SeeJson(ys[j]).callId
    {
      OutputHasNoId(c, ys[j].fields);
      assert xs[i] == SeeJson(ys[i]) && xs[j] == SeeJson(ys[j]);
      OneOutputEach(xs, i, j);
    }
    forall j | 0 <= j < |ys| && IsOutput(SeeJson(ys[j])) ensures exists k :: Answers(xs, k, j) {
      assert xs[j] == SeeJson(ys[j]);
      OutputAnswers(xs, j);
    }
  }

  lemma OutputAnswers(xs: seq<Sighting>, j: nat)
    requires Sound(xs) && j < |xs| && IsOutput(xs[j])
    ensures exists k :: Answers(xs, k, j)
  {
    assert SoundAt(xs, j);
  }

  lemma OutputHasNoId(c: Codec, x: Item)
    requires PortableItem(c, x) && IsOutput(See(x))
    ensures See(x).id == Null
  {
    hide PortableContent, Ciphered, AgentBlock, NonEmptyTexts, ValidCaller, ToolObjects;
  }

  /** A projected message keeps its speaker, its phase and everything it shows. */
  lemma MessageKeeps(c: Codec, x: Item)
    requires ProjectMessage(c, x).Ok? && ProjectMessage(c, x).value.value.Some?
    ensures var y := ProjectMessage(c, x).value.value.value;
      && y[Role] == Get(x, Role) && Get(y, Phase) == Get(x, Phase)
      && (Get(x, Content).JStr? ==> y[Content] == x[Content])
      && (Get(x, Content).Arr? && Is(y[Role], Assistant) ==> y[Content] == JStr(c.join(AllSaid(x[Content].elems))))
      && (Get(x, Content).Arr? && !Is(y[Role], Assistant) ==>
          y[Content].Arr? && AllShown(c, y[Content].elems) == AllShown(c, x[Content].elems))
  {
    hide AssistantText, InputContent, EmptyPlaceholder;
    if Is(Get(x, Role), Assistant) {
      AssistantTextKeeps(c, Get(x, Content), false, 0);
    } else if Get(x, Content).Arr? {
      InputContentKeeps(c, Get(x, Content), true, false, 0);
    } else {
      TextContentKept(c, Get(x, Content), false, 0);
    }
  }

  lemma TextContentKept(c: Codec, v: Json, marker: bool, root: nat)
    requires InputContent(c, v, true, marker, root).Ok? && !v.Arr?
    ensures InputContent(c, v, true, marker, root).value.markers == 0 ==>
      InputContent(c, v, true, marker, root).value.value == v
    ensures InputContent(c, v, true, marker, root).value.markers > 0 ==> marker && root > 0
  {
  }

  /** A first output keeps its type, its call and, unless a marker stands in for ciphertext or for
      an empty text, everything it shows. */
  lemma OutputKeeps(c: Codec, x: Item, w: Word)
    requires ProjectOutput(c, x, w, false).Ok?
    ensures var r := ProjectOutput(c, x, w, false).value;
      && r.value.Some? && var y := r.value.value;
      && y[Type] == W(w) && y[CallId] == Get(x, CallId) && Get(y, Caller) == Get(x, Caller)
      && (r.metrics.markers == 0 && !EmptyOutput(x) && Get(x, Output).Arr? ==>
          y[Output].Arr? && AllShown(c, y[Output].elems) == AllShown(c, x[Output].elems))
      && (r.metrics.markers == 0 && !EmptyOutput(x) && !Get(x, Output).Arr? ==> y[Output] == Get(x, Output))
      && (r.metrics.markers > 0 ==> y[Output] == Marker && r.metrics.encrypted > 0)
  {
    hide InputContent, ValidCaller;
    var v := Get(x, Output);
    if !EmptyOutput(x) {
      if v.Arr? {
        InputContentKeeps(c, v, true, true, OutputRoot(x));
      } else {
        TextContentKept(c, v, true, OutputRoot(x));
        MarkedText(c, v, OutputRoot(x));
      }
    }
  }

  lemma MarkedText(c: Codec, v: Json, root: nat)
    requires InputContent(c, v, true, true, root).Ok? && !v.Arr?
    ensures var r := InputContent(c, v, true, true, root).value;
      r.encrypted == root && (r.markers > 0 ==> r.value == Marker)
  {
  }
}
