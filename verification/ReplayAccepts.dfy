/** Exactly which requests the sanitizer accepts, told by their raw fields: the counterpart of what it turns
    them into. */
module ReplayAccepts {
  import opened Wrappers
  import opened Json
  import opened ToolRelationships
  import opened ReplayContent
  import opened ReplayProjection
  import opened ReplayGrammar
  import opened ReplayMeaning

  // ---- blocks of content

  /** An input or output text with no field but its own, each well formed. */
  predicate RawText(b: Item) {
    && Type in b && TextField in b && b[TextField].JStr?
    && ((&& b[Type] == JStr(Known(InputText)) && b.Keys <= {Type, TextField, PromptCacheBreakpoint}
         && (PromptCacheBreakpoint in b ==>
               b[PromptCacheBreakpoint] in [Null, Obj(map[Mode := JStr(Known(Explicit))])]))
        || (&& b[Type] == JStr(Known(OutputText)) && b.Keys <= {Type, TextField, Annotations, Logprobs}
            && (Annotations in b ==> b[Annotations].Arr?)
            && (Logprobs in b ==> b[Logprobs].Arr? || b[Logprobs].Null?)))
  }

  predicate RawCipher(b: Item) {
    Type in b && b[Type] == JStr(Known(EncryptedContentBlock))
  }

  predicate RawRefusal(b: Item) {
    b.Keys == {Type, Refusal} && b[Type] == JStr(Known(RefusalBlock)) && b[Refusal].JStr?
  }

  /** An image; its detail is looked at only where its reference can be replayed. */
  predicate RawImage(c: Codec, b: Item) {
    && Type in b && b[Type] == JStr(Known(InputImage)) && b.Keys <= {Type, ImageUrl, Detail}
    && (c.replayable(Get(b, ImageUrl)) && Detail in b ==>
          b[Detail] in [Null, JStr(Known(Low)), JStr(Known(High)), JStr(Known(Auto)), JStr(Known(Original))])
  }

  predicate ShownImage(c: Codec, b: Item) {
    Type in b && b[Type] == JStr(Known(InputImage)) && c.replayable(Get(b, ImageUrl))
  }

  predicate RawInputBlock(c: Codec, v: Json) {
    v.Obj? && (RawText(v.fields) || RawCipher(v.fields) || RawImage(c, v.fields))
  }

  predicate RawAssistantBlock(v: Json) {
    v.Obj? && (RawText(v.fields) || RawCipher(v.fields) || RawRefusal(v.fields))
  }

  lemma TextBlockIff(b: Item)
    ensures IsTextBlock(b) && TextBlock(b, Get(b, Type).s.word).Ok? <==> RawText(b)
    ensures RawText(b) ==> TextBlock(b, Get(b, Type).s.word) == Ok(b[TextField].s)
  {
  }

  lemma InputBlockIff(c: Codec, v: Json)
    ensures InputBlock(c, v, true).Ok? <==> RawInputBlock(c, v)
    ensures InputBlock(c, v, true).Ok? ==>
      && (InputBlock(c, v, true).value.Kept? <==> RawText(v.fields) || ShownImage(c, v.fields))
      && (InputBlock(c, v, true).value.Cipher? <==> RawCipher(v.fields))
  {
    if v.Obj? {
      TextBlockIff(v.fields);
    }
  }

  /** Where images are not allowed they are rejected, and nothing else changes. */
  lemma NoImagesIff(c: Codec, v: Json)
    ensures InputBlock(c, v, false).Ok? <==> v.Obj? && (RawText(v.fields) || RawCipher(v.fields))
    ensures InputBlock(c, v, false).Ok? ==> InputBlock(c, v, false) == InputBlock(c, v, true)
  {
    if v.Obj? {
      TextBlockIff(v.fields);
    }
  }

  lemma AssistantBlockIff(v: Json)
    ensures AssistantBlock(v).Ok? <==> RawAssistantBlock(v)
    ensures AssistantBlock(v).Ok? ==>
      && (AssistantBlock(v).value.None? <==> RawCipher(v.fields))
      && (AssistantBlock(v).value.Some? ==> Said(v) == [AssistantBlock(v).value.value])
      && (AssistantBlock(v).value.None? ==> Said(v) == [])
  {
    if v.Obj? {
      TextBlockIff(v.fields);
    }
  }

  // ---- content

  predicate ShownBlock(c: Codec, v: Json) {
    v.Obj? && (RawText(v.fields) || ShownImage(c, v.fields))
  }

  predicate CipheredBlock(v: Json) {
    v.Obj? && RawCipher(v.fields)
  }

  lemma {:induction false} GatherIff(c: Codec, vs: seq<Json>, root: nat)
    ensures GatherInput(c, vs, true, root).Ok? <==> forall v :: v in vs ==> RawInputBlock(c, v)
    ensures GatherInput(c, vs, true, root).Ok? ==>
      && (GatherInput(c, vs, true, root).value.blocks != [] <==> exists v :: v in vs && ShownBlock(c, v))
      && (GatherInput(c, vs, true, root).value.encrypted > 0 <==> root > 0 || exists v :: v in vs && CipheredBlock(v))
  {
    hide RawInputBlock, ShownBlock, CipheredBlock, InputBlock;
    if vs != [] {
      var n := |vs| - 1;
      var us, w := vs[..n], vs[n];
      assert vs == us + [w];
      GatherIff(c, us, root);
      BlockCounts(c, w);
      assert forall v :: v in vs <==> v in us || v == w;
    }
  }

  lemma BlockCounts(c: Codec, v: Json)
    ensures InputBlock(c, v, true).Ok? <==> RawInputBlock(c, v)
    ensures InputBlock(c, v, true).Ok? ==>
      && (InputBlock(c, v, true).value.Kept? <==> ShownBlock(c, v))
      && (InputBlock(c, v, true).value.Cipher? <==> CipheredBlock(v))
  {
    InputBlockIff(c, v);
  }

  /** Input content that is accepted: a text that says something, blocks of which one can be shown, or, where
      a marker may stand in, nothing to show but ciphertext. */
  ghost predicate RawInput(c: Codec, v: Json, marker: bool, root: nat) {
    || NonEmptyText(v)
    || (&& v.Arr? && (forall b :: b in v.elems ==> RawInputBlock(c, b))
        && ((exists b :: b in v.elems && ShownBlock(c, b))
            || (marker && (root > 0 || exists b :: b in v.elems && CipheredBlock(b)))))
    || ((v.Null? || v.JStr?) && marker && root > 0)
  }

  lemma InputContentIff(c: Codec, v: Json, marker: bool, root: nat)
    ensures InputContent(c, v, true, marker, root).Ok? <==> RawInput(c, v, marker, root)
  {
    hide RawInputBlock, ShownBlock, CipheredBlock, GatherInput;
    if v.Arr? {
      GatherIff(c, v.elems, root);
    }
  }

  lemma {:induction false} PartsIff(vs: seq<Json>, root: nat)
    ensures GatherParts(vs, root).Ok? <==> forall v :: v in vs ==> RawAssistantBlock(v)
    ensures GatherParts(vs, root).Ok? ==>
      && (GatherParts(vs, root).value.encrypted > 0 <==> root > 0 || exists v :: v in vs && CipheredBlock(v))
      && (forall s :: s in GatherParts(vs, root).value.texts <==> exists v :: v in vs && Said(v) == [s])
  {
    hide RawAssistantBlock, AssistantBlock, CipheredBlock, Said;
    if vs != [] {
      var n := |vs| - 1;
      var us, w := vs[..n], vs[n];
      assert vs == us + [w];
      PartsIff(us, root);
      PartCounts(w);
      assert forall v :: v in vs <==> v in us || v == w;
    }
  }

  lemma PartCounts(v: Json)
    ensures AssistantBlock(v).Ok? <==> RawAssistantBlock(v)
    ensures AssistantBlock(v).Ok? ==>
      && (AssistantBlock(v).value.None? <==> CipheredBlock(v))
      && Said(v) == if AssistantBlock(v).value.Some? then [AssistantBlock(v).value.value] else []
  {
    AssistantBlockIff(v);
  }

  predicate Speaks(v: Json) {
    Said(v) != [] && !Empty(Said(v)[0])
  }

  /** Assistant content that is accepted. */
  ghost predicate RawSpoken(v: Json, marker: bool, root: nat) {
    || NonEmptyText(v)
    || (&& v.Arr? && (forall b :: b in v.elems ==> RawAssistantBlock(b))
        && ((exists b :: b in v.elems && Speaks(b))
            || (marker && (root > 0 || exists b :: b in v.elems && CipheredBlock(b)))))
    || ((v.Null? || v.JStr?) && marker && root > 0)
  }

  lemma SaidIsOne(v: Json)
    ensures |Said(v)| <= 1
  {
  }

  lemma AssistantTextIff(c: Codec, v: Json, marker: bool, root: nat)
    requires CodecOk(c)
    ensures AssistantText(c, v, marker, root).Ok? <==> RawSpoken(v, marker, root)
  {
    hide RawAssistantBlock, CipheredBlock, GatherParts, Said;
    if v.Arr? {
      PartsIff(v.elems, root);
      if GatherParts(v.elems, root).Ok? {
        var texts := GatherParts(v.elems, root).value.texts;
        forall b | b in v.elems && Speaks(b) ensures !Empty(c.join(texts)) {
          SaidIsOne(b);
          assert Said(b) == [Said(b)[0]];
          assert Said(b)[0] in texts;
        }
        if !Empty(c.join(texts)) {
          var i :| 0 <= i < |texts| && !Empty(texts[i]);
          assert texts[i] in texts;
          var b :| b in v.elems && Said(b) == [texts[i]];
          assert Speaks(b);
        }
      }
    }
  }

  // ---- items

  predicate Placeholder(v: Json) {
    && v.Arr? && |v.elems| == 1 && v.elems[0].Obj? && RawText(v.elems[0].fields)
    && v.elems[0].fields[Type] == JStr(Known(OutputText)) && v.elems[0].fields[TextField] == JStr(Text(""))
  }

  predicate OneOf(v: Json, words: seq<Word>) {
    v.JStr? && v.s.Known? && v.s.word in words
  }

  ghost predicate RawMessage(c: Codec, x: Item) {
    && x.Keys <= {Type, Id, Status, Role, Content, Phase, Name, Passthrough}
    && OneOf(Get(x, Role), [User, Assistant, Developer, System])
    && (Get(x, Phase).Null? || (Is(Get(x, Role), Assistant) && OneOf(Get(x, Phase), [Commentary, FinalAnswer])))
    && (if Is(Get(x, Role), Assistant) then Placeholder(Get(x, Content)) || RawSpoken(Get(x, Content), false, 0)
        else RawInput(c, Get(x, Content), false, 0))
  }

  lemma PlaceholderIff(v: Json)
    ensures EmptyPlaceholder(v) <==> Placeholder(v)
  {
    if v.Arr? && |v.elems| == 1 && v.elems[0].Obj? {
      TextBlockIff(v.elems[0].fields);
    }
  }

  lemma MessageIff(c: Codec, x: Item)
    requires CodecOk(c)
    ensures ProjectMessage(c, x).Ok? <==> RawMessage(c, x)
  {
    hide CodecOk, RawSpoken, RawInput, AssistantText, InputContent, EmptyPlaceholder, Placeholder;
    PlaceholderIff(Get(x, Content));
    AssistantTextIff(c, Get(x, Content), false, 0);
    InputContentIff(c, Get(x, Content), false, 0);
  }

  predicate CipherIsExact(v: Json) {
    CipheredBlock(v) ==> v.fields.Keys == {Type, EncryptedContent} && NonEmptyText(v.fields[EncryptedContent])
  }

  ghost predicate RawAgentMessage(x: Item) {
    && x.Keys <= {Type, Id, Status, Author, Recipient, Phase, Content, EncryptedContent, Passthrough}
    && NonEmptyText(Get(x, Author)) && NonEmptyText(Get(x, Recipient))
    && (Phase in x ==> OneOf(x[Phase], [Commentary, FinalAnswer]))
    && (EncryptedContent in x ==> NonEmptyText(x[EncryptedContent]))
    && (Get(x, Content).Arr? ==> forall v :: v in x[Content].elems ==> CipherIsExact(v))
    && RawSpoken(Get(x, Content), true, if EncryptedContent in x then 1 else 0)
  }

  lemma CiphertextIff(x: Item)
    ensures AgentCiphertext(x).Ok? <==>
      && (EncryptedContent in x ==> NonEmptyText(x[EncryptedContent]))
      && (Get(x, Content).Arr? ==> forall v :: v in x[Content].elems ==> CipherIsExact(v))
  {
    if Get(x, Content).Arr? {
      var vs := x[Content].elems;
      assert forall i :: 0 <= i < |vs| ==> (CipherIsExact(vs[i]) <==> (CipherBlock(vs[i]) ==> ExactCipher(vs[i])));
      assert forall v :: v in vs <==> exists i :: 0 <= i < |vs| && vs[i] == v;
    }
  }

  lemma AgentMessageIff(c: Codec, x: Item)
    requires CodecOk(c)
    ensures ProjectAgentMessage(c, x).Ok? <==> RawAgentMessage(x)
  {
    hide CodecOk, RawSpoken, AssistantText, AgentCiphertext, CipherIsExact;
    CiphertextIff(x);
    AssistantTextIff(c, Get(x, Content), true, Count(EncryptedContent in x));
  }

  predicate RawCaller(v: Json) {
    || v.Null?
    || (v.Obj? && v.fields == map[Type := JStr(Known(Direct))])
    || (&& v.Obj? && v.fields.Keys == {Type, CallerId} && v.fields[Type] == JStr(Known(Program))
        && NonEmptyText(v.fields[CallerId]))
  }

  lemma CallerIff(v: Json)
    ensures ValidCaller(v) <==> RawCaller(v)
  {
    if v.Obj? && v.fields.Keys == {Type} {
      assert v.fields == map[Type := v.fields[Type]];
    }
  }

  predicate Texts(v: Json) {
    v.Arr? && forall e :: e in v.elems ==> NonEmptyText(e)
  }

  lemma TextsIff(v: Json)
    ensures NonEmptyTexts(v) <==> Texts(v)
  {
    if v.Arr? {
      assert forall e :: e in v.elems <==> exists i :: 0 <= i < |v.elems| && v.elems[i] == e;
    }
  }

  predicate RawCall(x: Item, w: Word) {
    && x.Keys <= {Type, Id, Status, CallId, Name, Namespace, Caller, Passthrough}
                 + (if w == FunctionCall then {Arguments, EncryptedFunctionArgs} else {Input})
    && NonEmptyText(Get(x, Name)) && Get(x, if w == FunctionCall then Arguments else Input).JStr?
    && (Get(x, Namespace).Null? || NonEmptyText(x[Namespace])) && RawCaller(Get(x, Caller))
    && (EncryptedFunctionArgs in x ==> Texts(x[EncryptedFunctionArgs]))
  }

  lemma CallIff(t: Tracker, x: Item, w: Word)
    requires w == FunctionCall || w == CustomToolCall
    ensures CallStep(t, x, w).Ok? <==> RawCall(x, w) && Observe(t, See(x).(id := Null)).1 == NoIssue
    ensures CallStep(t, x, w).Ok? ==> CallStep(t, x, w).value.tracker == Observe(t, See(x).(id := Null)).0
  {
    hide Observe, ValidCaller, RawCaller, NonEmptyTexts, Texts;
    CallerIff(Get(x, Caller));
    TextsIff(Get(x, EncryptedFunctionArgs));
  }

  predicate RawAction(a: Item) {
    && a.Keys <= {Type, Command, TimeoutMs, WorkingDirectory, Env, UserField}
    && Type in a && a[Type] == JStr(Known(Exec))
    && Command in a && Texts(a[Command]) && a[Command].elems != []
    && (Get(a, TimeoutMs).Null? || (Get(a, TimeoutMs).Int? && 0 <= a[TimeoutMs].n < 0x1_0000_0000_0000_0000))
    && (Get(a, WorkingDirectory).Null? || Get(a, WorkingDirectory).JStr?)
    && (Get(a, UserField).Null? || Get(a, UserField).JStr?)
    && (Get(a, Env).Null? || (Get(a, Env).Obj? && forall k :: k in a[Env].fields ==> a[Env].fields[k].JStr?))
  }

  predicate RawLocalCall(x: Item) {
    && x.Keys <= {Type, Id, CallId, Status, Action, Passthrough}
    && OneOf(Get(x, Status), [Completed, InProgress, Incomplete])
    && Action in x && x[Action].Obj? && RawAction(x[Action].fields)
  }

  lemma ActionIff(a: Item)
    ensures ValidAction(a) <==> RawAction(a)
  {
    hide NonEmptyTexts, Texts;
    TextsIff(Get(a, Command));
    TextsAreList(Get(a, Command));
  }

  lemma TextsAreList(v: Json)
    ensures Texts(v) ==> v.Arr?
  {
  }

  lemma LocalCallIff(t: Tracker, x: Item)
    ensures LocalCallStep(t, x).Ok? <==> RawLocalCall(x) && Observe(t, See(x).(name := Null, id := Null)).1 == NoIssue
    ensures LocalCallStep(t, x).Ok? ==>
      LocalCallStep(t, x).value.tracker == Observe(t, See(x).(name := Null, id := Null)).0
  {
    hide Observe, ValidAction, RawAction;
    if Get(x, Action).Obj? {
      ActionIff(Get(x, Action).fields);
    }
  }

  ghost predicate RawResult(c: Codec, x: Item) {
    && RawCaller(Get(x, Caller)) && (EncryptedContent in x ==> x[EncryptedContent].JStr?)
    && (Get(x, Output) == JStr(Text("")) || RawInput(c, Get(x, Output), true, if EncryptedContent in x then 1 else 0))
  }

  ghost predicate RawOutput(c: Codec, x: Item, w: Word) {
    && x.Keys <= {Type, Id, Status, CallId, Name, Output, Caller, EncryptedContent, Passthrough}
                 + (if w == FunctionCallOutput then {Namespace} else {})
    && RawResult(c, x)
  }

  predicate ImageBlockShown(c: Codec, v: Json) {
    v.Obj? && ShownImage(c, v.fields)
  }

  predicate TextSpeaks(v: Json) {
    v.Obj? && RawText(v.fields) && !Empty(v.fields[TextField].s)
  }

  /** A later result is told as a text: a list must show no image, and say something or hold ciphertext. */
  ghost predicate Tellable(c: Codec, x: Item) {
    Get(x, Output).Arr? ==>
      && (forall b :: b in x[Output].elems ==> !ImageBlockShown(c, b))
      && (EncryptedContent in x || exists b :: b in x[Output].elems && (TextSpeaks(b) || CipheredBlock(b)))
  }

  lemma TextItemIs(text: Str)
    ensures var y := Obj(TextItem(text));
      && RawAssistantBlock(y) && !CipheredBlock(y) && Said(y) == [text]
      && (y == Obj(TextItem(Text(""))) <==> text == Text(""))
  {
    if text != Text("") {
      assert TextItem(text)[TextField] != TextItem(Text(""))[TextField];
    }
  }

  lemma ImageIs(c: Codec, v: Json)
    requires InputBlock(c, v, true).Ok? && InputBlock(c, v, true).value.Kept? && !RawText(v.fields)
    ensures var y := Obj(InputBlock(c, v, true).value.item);
      !RawAssistantBlock(y) && !CipheredBlock(y) && Said(y) == [] && y != Obj(TextItem(Text("")))
  {
    hide RawImage;
    InputBlockIff(c, v);
    var y := InputBlock(c, v, true).value.item;
    assert Is(y[Type], InputImage);
    assert TextItem(Text(""))[Type] != y[Type];
  }

  lemma KeptKinds(c: Codec, v: Json)
    requires InputBlock(c, v, true).Ok? && InputBlock(c, v, true).value.Kept?
    ensures v.Obj? && (ImageBlockShown(c, v) <==> !RawText(v.fields))
    ensures RawText(v.fields) ==> InputBlock(c, v, true).value.item == TextItem(v.fields[TextField].s)
  {
    hide RawImage;
    InputBlockIff(c, v);
    TextBlockIff(v.fields);
  }

  /** What is kept of a block is an image or a text as it was. */
  lemma KeptIs(c: Codec, v: Json)
    requires InputBlock(c, v, true).Ok? && InputBlock(c, v, true).value.Kept?
    ensures var y := Obj(InputBlock(c, v, true).value.item);
      && (RawAssistantBlock(y) <==> !ImageBlockShown(c, v)) && !CipheredBlock(y)
      && (Speaks(y) <==> TextSpeaks(v))
      && (y == Obj(TextItem(Text(""))) <==> !ImageBlockShown(c, v) && !TextSpeaks(v))
  {
    hide InputBlock, RawAssistantBlock, CipheredBlock, ImageBlockShown, RawText, Said, TextItem;
    KeptKinds(c, v);
    if RawText(v.fields) {
      RawTextHasText(v.fields);
      TextItemIs(v.fields[TextField].s);
    } else {
      ImageIs(c, v);
    }
  }

  lemma RawTextHasText(b: Item)
    requires RawText(b)
    ensures TextField in b && b[TextField].JStr?
  {
  }

  lemma NotKept(c: Codec, v: Json)
    requires InputBlock(c, v, true).Ok? && !InputBlock(c, v, true).value.Kept?
    ensures !ImageBlockShown(c, v) && !TextSpeaks(v)
  {
    InputBlockIff(c, v);
  }

  lemma {:induction false} GatherTells(c: Codec, vs: seq<Json>, root: nat)
    requires GatherInput(c, vs, true, root).Ok?
    ensures var blocks := GatherInput(c, vs, true, root).value.blocks;
      && ((forall y :: y in blocks ==> RawAssistantBlock(y)) <==> forall v :: v in vs ==> !ImageBlockShown(c, v))
      && ((exists y :: y in blocks && Speaks(y)) <==> exists v :: v in vs && TextSpeaks(v))
      && (OnlyEmptyText(blocks) <==> forall v :: v in vs ==> !ImageBlockShown(c, v) && !TextSpeaks(v))
      && (forall y :: y in blocks ==> !CipheredBlock(y))
  {
    hide RawAssistantBlock, InputBlock, CipheredBlock, ImageBlockShown, TextSpeaks, Speaks;
    if vs != [] {
      var n := |vs| - 1;
      var us, w := vs[..n], vs[n];
      assert vs == us + [w];
      GatherTells(c, us, root);
      assert forall v :: v in vs <==> v in us || v == w;
      var before := GatherInput(c, us, true, root).value.blocks;
      if InputBlock(c, w, true).value.Kept? {
        KeptIs(c, w);
        var y := Obj(InputBlock(c, w, true).value.item);
        assert forall b :: b in before + [y] <==> b in before || b == y;
        EmptyTextSplits(before, y);
      } else {
        NotKept(c, w);
      }
    }
  }

  lemma EmptyTextSplits(blocks: seq<Json>, y: Json)
    ensures OnlyEmptyText(blocks + [y]) <==> OnlyEmptyText(blocks) && y == Obj(TextItem(Text("")))
  {
    if OnlyEmptyText(blocks + [y]) {
      assert (blocks + [y])[|blocks|] == y;
      assert forall i :: 0 <= i < |blocks| ==> (blocks + [y])[i] == blocks[i];
    }
  }

  lemma TellableIff(c: Codec, x: Item)
    requires CodecOk(c) && (EncryptedContent in x ==> x[EncryptedContent].JStr?) && OutputContent(c, x).Ok?
    ensures AssistantText(c, OutputContent(c, x).value.value, false, 0).Ok? <==> Tellable(c, x)
  {
    hide CodecOk, RawAssistantBlock, CipheredBlock, Speaks, GatherInput, AssistantText, ImageBlockShown, TextSpeaks,
         OnlyEmptyText;
    var v := Get(x, Output);
    AssistantTextIff(c, OutputContent(c, x).value.value, false, 0);
    MarkerSpeaks();
    if v.Arr? {
      GatherTells(c, v.elems, OutputRoot(x));
      GatherIff(c, v.elems, OutputRoot(x));
    }
  }

  lemma MarkerSpeaks()
    ensures RawSpoken(Marker, false, 0)
  {
    var y := Obj(TextItem(Known(OpaqueContentMarker)));
    assert y in Marker.elems && RawAssistantBlock(y) && Speaks(y);
  }

  lemma OutputContentIff(c: Codec, x: Item)
    requires EncryptedContent in x ==> x[EncryptedContent].JStr?
    ensures OutputContent(c, x).Ok? <==>
      Get(x, Output) == JStr(Text("")) || RawInput(c, Get(x, Output), true, if EncryptedContent in x then 1 else 0)
  {
    hide InputContent;
    InputContentIff(c, Get(x, Output), true, OutputRoot(x));
  }

  lemma ResultIff(c: Codec, x: Item, w: Word, delivery: bool)
    requires CodecOk(c)
    ensures ProjectOutput(c, x, w, delivery).Ok? <==> RawResult(c, x) && (delivery ==> Tellable(c, x))
  {
    hide CodecOk, ValidCaller, RawCaller, OutputContent, RawInput, AssistantText, Tellable, EmptyOutput;
    CallerIff(Get(x, Caller));
    if EncryptedContent in x ==> x[EncryptedContent].JStr? {
      OutputContentIff(c, x);
      if OutputContent(c, x).Ok? {
        TellableIff(c, x);
      }
    }
  }

  lemma OutputIff(c: Codec, t: Tracker, x: Item, w: Word)
    requires CodecOk(c)
    ensures var u := Observe(t, See(x)).0;
      OutputStep(c, t, x, w).Ok? <==>
      RawOutput(c, x, w) && Observe(t, See(x)).1 == NoIssue && (Delivered(u, x) ==> Tellable(c, x))
    ensures OutputStep(c, t, x, w).Ok? ==> OutputStep(c, t, x, w).value.tracker == Observe(t, See(x)).0
  {
    hide CodecOk, Observe, RawResult, Delivered, Tellable, ProjectOutput;
    ResultIff(c, x, w, Delivered(Observe(t, See(x)).0, x));
  }

  predicate RawDetached(x: Item) {
    && x.Keys <= {Type, Id, Name, Namespace, Output, Passthrough}
    && NonEmptyText(Get(x, Id)) && NonEmptyText(Get(x, Name)) && NonEmptyText(Get(x, Namespace))
    && NonEmptyText(Get(x, Output))
  }

  predicate RawCatalog(x: Item) {
    && x.Keys <= {Type, Id, Role, Tools} && NonEmptyText(Get(x, Role)) && (Id in x ==> NonEmptyText(x[Id]))
    && Tools in x && x[Tools].Arr? && forall v :: v in x[Tools].elems ==> v.Obj? && v.fields != map[]
  }

  lemma CatalogIff(x: Item)
    ensures ProjectToolCatalog(x).Ok? <==> RawCatalog(x)
  {
    if Get(x, Tools).Arr? {
      var vs := x[Tools].elems;
      assert forall v :: v in vs <==> exists i :: 0 <= i < |vs| && vs[i] == v;
    }
  }

  predicate Outputs(x: Item) {
    OneOf(Get(x, Type), [FunctionCallOutput, CustomToolCallOutput])
  }

  /** An item whose own fields are in order. */
  ghost predicate RawItem(c: Codec, x: Item) {
    || DroppedType(Get(x, Type))
    || ((Type in x ==> Is(x[Type], MessageType)) && RawMessage(c, x))
    || (Is(Get(x, Type), AgentMessageType) && RawAgentMessage(x))
    || (OneOf(Get(x, Type), [FunctionCall, CustomToolCall]) && RawCall(x, x[Type].s.word))
    || (Is(Get(x, Type), LocalShellCall) && RawLocalCall(x))
    || (Outputs(x) && CallId in x && RawOutput(c, x, x[Type].s.word))
    || (Outputs(x) && CallId !in x && RawDetached(x))
    || (Is(Get(x, Type), AdditionalToolsType) && RawCatalog(x))
    || x == map[Type := W(CompactionTrigger)]
  }

  /** What the tracker is told of an item: of calls no identifier of their own, of local ones no name. */
  function Told(v: Json): Sighting {
    if !v.Obj? then Sighting(Null, Null, Null, Null)
    else
      var x := v.fields;
      if OneOf(Get(x, Type), [FunctionCall, CustomToolCall]) then See(x).(id := Null)
      else if Is(Get(x, Type), LocalShellCall) then See(x).(name := Null, id := Null)
      else if Outputs(x) && CallId in x then See(x)
      else Sighting(Null, Null, Null, Null)
  }

  predicate IsTool(x: Item) {
    || OneOf(Get(x, Type), [FunctionCall, CustomToolCall]) || Is(Get(x, Type), LocalShellCall) || Outputs(x)
  }

  lemma PlainItemIff(c: Codec, t: Tracker, x: Item)
    requires CodecOk(c) && !IsTool(x)
    ensures ItemStep(c, t, Obj(x)).Ok? <==> RawItem(c, x)
    ensures ItemStep(c, t, Obj(x)).Ok? ==> ItemStep(c, t, Obj(x)).value.tracker == t
  {
    hide CodecOk, RawMessage, RawAgentMessage, RawCall, RawLocalCall, RawOutput, RawDetached, RawCatalog,
         ProjectMessage, ProjectAgentMessage, CallStep, LocalCallStep, OutputStep, ProjectDetachedDelivery,
         ProjectToolCatalog, AnswersLocalCall;
    MessageIff(c, x);
    AgentMessageIff(c, x);
    CatalogIff(x);
    if x.Keys <= {Type} && Is(Get(x, Type), CompactionTrigger) {
      assert x == map[Type := W(CompactionTrigger)];
    }
  }

  lemma CallItemIff(c: Codec, t: Tracker, x: Item)
    requires OneOf(Get(x, Type), [FunctionCall, CustomToolCall]) || Is(Get(x, Type), LocalShellCall)
    ensures ItemStep(c, t, Obj(x)).Ok? <==> RawItem(c, x) && Observe(t, Told(Obj(x))).1 == NoIssue
    ensures ItemStep(c, t, Obj(x)).Ok? ==> ItemStep(c, t, Obj(x)).value.tracker == Observe(t, Told(Obj(x))).0
  {
    hide Observe, RawMessage, RawAgentMessage, RawCall, RawLocalCall, RawOutput, RawDetached, RawCatalog,
         ProjectMessage, ProjectAgentMessage, CallStep, LocalCallStep, OutputStep, ProjectDetachedDelivery,
         ProjectToolCatalog, AnswersLocalCall;
    LocalCallIff(t, x);
    if OneOf(Get(x, Type), [FunctionCall, CustomToolCall]) {
      CallIff(t, x, x[Type].s.word);
    }
  }

  lemma OutputItemIff(c: Codec, t: Tracker, x: Item)
    requires CodecOk(c) && Outputs(x)
    ensures var u := Observe(t, Told(Obj(x))).0;
      ItemStep(c, t, Obj(x)).Ok? <==>
      && RawItem(c, x) && Observe(t, Told(Obj(x))).1 == NoIssue
      && (CallId in x && Delivered(u, x) ==> Tellable(c, x))
    ensures ItemStep(c, t, Obj(x)).Ok? ==> ItemStep(c, t, Obj(x)).value.tracker == Observe(t, Told(Obj(x))).0
  {
    hide CodecOk, Observe, RawMessage, RawAgentMessage, RawCall, RawLocalCall, RawOutput, RawDetached, RawCatalog,
         ProjectMessage, ProjectAgentMessage, CallStep, LocalCallStep, OutputStep, ProjectDetachedDelivery,
         ProjectToolCatalog, AnswersLocalCall, Tellable, Delivered;
    UntoldIsUnseen(t);
    DetachedIff(c, x);
    OutputIff(c, t, x, x[Type].s.word);
    LocalNeedsId(t, x);
  }

  /** An item is accepted exactly when its fields are in order, the tracker has no issue with it, and, if it is
      a later result, it has something to say. */
  lemma ItemAcceptedIff(c: Codec, t: Tracker, x: Item)
    requires CodecOk(c)
    ensures var u := Observe(t, Told(Obj(x))).0;
      ItemStep(c, t, Obj(x)).Ok? <==>
      && RawItem(c, x) && Observe(t, Told(Obj(x))).1 == NoIssue
      && (Outputs(x) && CallId in x && Delivered(u, x) ==> Tellable(c, x))
    ensures ItemStep(c, t, Obj(x)).Ok? ==> ItemStep(c, t, Obj(x)).value.tracker == Observe(t, Told(Obj(x))).0
  {
    hide CodecOk, Observe, RawItem, ItemStep, Tellable, Delivered;
    if Outputs(x) {
      OutputItemIff(c, t, x);
    } else if IsTool(x) {
      CallItemIff(c, t, x);
    } else {
      UntoldIsUnseen(t);
      PlainItemIff(c, t, x);
    }
  }

  // ---- the whole list

  function ToldAll(vs: seq<Json>): seq<Sighting> {
    seq(|vs|, i requires 0 <= i < |vs| => Told(vs[i]))
  }

  lemma ToldSplits(vs: seq<Json>, v: Json)
    ensures ToldAll(vs + [v]) == ToldAll(vs) + [Told(v)]
  {
  }

  /** A delivery is known by an identifier of its own. */
  predicate DeliveriesKnown(t: Tracker) {
    t.deliveries <= t.outputIds && Text("") !in t.deliveries
  }

  lemma DeliveredIff(xs: seq<Sighting>, t: Tracker, x: Sighting)
    requires Tracks(xs, t) && DeliveriesKnown(t) && Observe(t, x).1 == NoIssue
    ensures DeliveriesKnown(Observe(t, x).0)
    ensures IsOutput(x) ==>
      (x.id.JStr? && x.id.s in Observe(t, x).0.deliveries <==> Repeats(xs + [x], |xs|))
  {
    hide TracksCalls, TracksIds;
    var ys := xs + [x];
    assert ys[|xs|] == x && forall j :: 0 <= j < |xs| ==> ys[j] == xs[j];
    if IsOutput(x) {
      if x.callId.s in t.outputs {
        var j :| OutputAt(xs, j, x.callId.s);
        assert IsOutput(ys[j]) && ys[j].callId == x.callId;
      }
      if Repeats(ys, |xs|) {
        var j :| 0 <= j < |xs| && IsOutput(ys[j]) && ys[j].callId == ys[|xs|].callId;
        assert OutputAt(xs, j, x.callId.s);
      }
    }
  }

  /** Every item is in order by itself, the calls and outputs are sound together, and every later result of a
      call has something to say. */
  ghost predicate RawList(c: Codec, vs: seq<Json>) {
    && (forall i :: 0 <= i < |vs| ==> vs[i].Obj? && RawItem(c, vs[i].fields))
    && Sound(ToldAll(vs))
    && (forall i :: 0 <= i < |vs| && IsOutput(ToldAll(vs)[i]) && Repeats(ToldAll(vs), i) ==>
          vs[i].Obj? && Tellable(c, vs[i].fields))
  }

  lemma TellsPrefix(c: Codec, us: seq<Json>, v: Json)
    ensures RawList(c, us + [v]) <==>
      && RawList(c, us) && v.Obj? && RawItem(c, v.fields) && SoundAt(ToldAll(us + [v]), |us|)
      && (IsOutput(Told(v)) && Repeats(ToldAll(us + [v]), |us|) ==> Tellable(c, v.fields))
  {
    hide RawItem, Tellable, Sound, SoundAt, Told;
    var vs := us + [v];
    ToldSplits(us, v);
    SoundSplits(ToldAll(vs));
    assert ToldAll(vs)[..|us|] == ToldAll(us);
    forall i | 0 <= i < |us| ensures IsOutput(ToldAll(vs)[i]) ==> (Repeats(ToldAll(vs), i) <==>
                                                                     Repeats(ToldAll(us), i)) {
      RepeatsPrefix(ToldAll(us), Told(v), i);
    }
    assert forall i :: 0 <= i < |us| ==> vs[i] == us[i] && ToldAll(vs)[i] == ToldAll(us)[i];
    assert vs[|us|] == v && ToldAll(vs)[|us|] == Told(v);
  }

  lemma RepeatsPrefix(xs: seq<Sighting>, x: Sighting, i: nat)
    requires i < |xs|
    ensures Repeats(xs + [x], i) <==> Repeats(xs, i)
  {
    assert forall j :: 0 <= j < |xs| ==> (xs + [x])[j] == xs[j];
  }

  lemma ToldOutput(c: Codec, v: Json)
    ensures IsOutput(Told(v)) <==> v.Obj? && Outputs(v.fields) && CallId in v.fields
    ensures IsOutput(Told(v)) ==> Told(v) == See(v.fields)
  {
  }

  /** The walk accepts a list exactly when it is in order, and its tracker is that of what it was told. */
  lemma {:induction false} WalkAcceptsIff(c: Codec, vs: seq<Json>)
    requires CodecOk(c)
    ensures Walk(c, vs).Ok? <==> RawList(c, vs)
    ensures Walk(c, vs).Ok? ==>
      && Run(ToldAll(vs)) == Some(Walk(c, vs).value.tracker)
      && DeliveriesKnown(Walk(c, vs).value.tracker)
  {
    hide CodecOk, ItemStep, RawList, Observe, Told, Tracks, SoundAt, Sound, Run, RawItem, Tellable, DeliveriesKnown;
    if vs == [] {
      NothingIsTold(c);
    } else {
      var n := |vs| - 1;
      var us, v := vs[..n], vs[n];
      assert vs == us + [v];
      WalkAcceptsIff(c, us);
      TellsPrefix(c, us, v);
      if Walk(c, us).Ok? && !v.Obj? {
        OnlyObjects(c, Walk(c, us).value.tracker, v);
      } else if Walk(c, us).Ok? {
        WalkStepIff(c, us, v, Walk(c, us).value.tracker);
      }
    }
  }

  lemma NothingIsTold(c: Codec)
    ensures RawList(c, []) && Walk(c, []) == Ok(Progress(Fresh, [], Zero))
    ensures Run(ToldAll([])) == Some(Fresh) && DeliveriesKnown(Fresh)
  {
  }

  lemma WalkStepIff(c: Codec, us: seq<Json>, v: Json, t: Tracker)
    requires CodecOk(c) && v.Obj? && Run(ToldAll(us)) == Some(t) && DeliveriesKnown(t)
    ensures ItemStep(c, t, v).Ok? <==>
      && RawItem(c, v.fields) && SoundAt(ToldAll(us + [v]), |us|)
      && (IsOutput(Told(v)) && Repeats(ToldAll(us + [v]), |us|) ==> Tellable(c, v.fields))
    ensures ItemStep(c, t, v).Ok? ==>
      Run(ToldAll(us + [v])) == Some(ItemStep(c, t, v).value.tracker)
      && DeliveriesKnown(ItemStep(c, t, v).value.tracker)
  {
    hide CodecOk, ItemStep, Observe, Told, Tracks, SoundAt, Sound, Run, RawItem, Tellable, DeliveriesKnown, Repeats;
    var xs, x := ToldAll(us), Told(v);
    ItemAcceptedIff(c, t, v.fields);
    ToldSplits(us, v);
    RunExtends(xs, x);
    TrackerAgrees(xs);
    StepAgrees(xs, t, x);
    ToldOutput(c, v);
    if Observe(t, x).1 == NoIssue {
      DeliveredIff(xs, t, x);
    }
  }

  lemma OnlyObjects(c: Codec, t: Tracker, v: Json)
    ensures !v.Obj? ==> ItemStep(c, t, v).Rejected?
  {
  }

  /** Something is left of an item, given what was told before it. */
  ghost predicate Survives(vs: seq<Json>, i: int)
    requires 0 <= i < |vs| && vs[i].Obj?
  {
    var x := vs[i].fields;
    && !DroppedType(Get(x, Type)) && !Is(Get(x, Type), LocalShellCall)
    && !(Is(TypeOf(x), MessageType) && Is(Get(x, Role), Assistant) && Placeholder(Get(x, Content)))
    && !(Outputs(x) && exists k :: 0 <= k < i && AnswersShell(vs[k], x))
  }

  predicate AnswersShell(v: Json, x: Item) {
    && v.Obj? && Is(Get(v.fields, Type), LocalShellCall) && CallId in v.fields && CallId in x
    && v.fields[CallId] == x[CallId]
  }

  lemma AnswersLocalIff(us: seq<Json>, t: Tracker, x: Item)
    requires Sound(ToldAll(us)) && Tracks(ToldAll(us), t)
    ensures AnswersLocalCall(t, x) <==> exists k :: 0 <= k < |us| && AnswersShell(us[k], x)
  {
    hide Sound, TracksOutputs, TracksIds;
    var xs := ToldAll(us);
    if AnswersLocalCall(t, x) {
      var k :| Remembers(xs, t, k, x[CallId].s);
      assert AnswersShell(us[k], x);
    }
    if k :| 0 <= k < |us| && AnswersShell(us[k], x) {
      CallHasId(xs, k);
      var id := xs[k].callId.s;
      assert CallAt(xs, k, id);
      var m :| Remembers(xs, t, m, id);
      OneCall(xs, t, m, k, id);
    }
  }

  lemma SurvivesIff(c: Codec, us: seq<Json>, v: Json, t: Tracker)
    requires v.Obj? && Sound(ToldAll(us)) && Tracks(ToldAll(us), t) && ItemStep(c, t, v).Ok?
    ensures ItemStep(c, t, v).value.value.Some? <==> Survives(us + [v], |us|)
  {
    hide ItemStep, Sound, Tracks, AnswersLocalCall, EmptyPlaceholder, Placeholder, DroppedType;
    var x, vs := v.fields, us + [v];
    DropsExactly(c, t, x);
    AnswersLocalIff(us, t, x);
    PlaceholderIff(Get(x, Content));
    assert vs[|us|] == v && forall k :: 0 <= k < |us| ==> vs[k] == us[k];
  }

  lemma SurvivesPrefix(us: seq<Json>, v: Json, i: nat)
    requires i < |us| && us[i].Obj?
    ensures Survives(us + [v], i) <==> Survives(us, i)
  {
    hide DroppedType, Placeholder;
    assert forall k :: 0 <= k < |us| ==> (us + [v])[k] == us[k];
  }

  ghost predicate AnySurvives(vs: seq<Json>) {
    exists i :: 0 <= i < |vs| && vs[i].Obj? && Survives(vs, i)
  }

  lemma {:induction false} WalkLeaves(c: Codec, vs: seq<Json>)
    requires CodecOk(c) && Walk(c, vs).Ok?
    ensures Walk(c, vs).value.items != [] <==> AnySurvives(vs)
  {
    hide CodecOk, ItemStep, Survives, Sound, Tracks, Run, RawList, ToldAll;
    if vs != [] {
      var n := |vs| - 1;
      var us, v := vs[..n], vs[n];
      assert vs == us + [v];
      WalkLeaves(c, us);
      WalkAcceptsIff(c, us);
      TrackerAgrees(ToldAll(us));
      OnlyObjects(c, Walk(c, us).value.tracker, v);
      SurvivesIff(c, us, v, Walk(c, us).value.tracker);
      forall i | 0 <= i < n && us[i].Obj? ensures Survives(vs, i) <==> Survives(us, i) {
        SurvivesPrefix(us, v, i);
      }
      if AnySurvives(us) {
        var i :| 0 <= i < n && us[i].Obj? && Survives(us, i);
        assert vs[i].Obj? && Survives(vs, i);
      }
      if AnySurvives(vs) && !Survives(vs, n) {
        var i :| 0 <= i < |vs| && vs[i].Obj? && Survives(vs, i);
        assert us[i].Obj? && Survives(us, i);
      }
    }
  }

  /** A local shell call is followed by its output. */
  ghost predicate ShellCallsAnswered(vs: seq<Json>) {
    forall k :: 0 <= k < |vs| && Is(ToldAll(vs)[k].itemType, LocalShellCall) ==> !Unanswered(ToldAll(vs), k)
  }

  /** The input lists that are accepted: in order, every local shell call answered, and something left. */
  lemma ListAcceptedIff(c: Codec, vs: seq<Json>)
    requires CodecOk(c)
    ensures ProjectList(c, vs).Ok? <==>
      RawList(c, vs) && ShellCallsAnswered(vs) && (vs == [] || AnySurvives(vs))
  {
    hide CodecOk, Walk, Survives, Sound, Run, Told, Unanswered, AnySurvives, RawItem, Tellable;
    WalkAcceptsIff(c, vs);
    if Walk(c, vs).Ok? {
      WalkLeaves(c, vs);
      PendingIff(ToldAll(vs), LocalShellCall);
      ShellCallIsCall();
      if vs == [] {
        NothingIsTold(c);
      }
    }
  }

  lemma ShellCallIsCall()
    ensures forall x: Sighting :: Is(x.itemType, LocalShellCall) ==> IsCall(x)
  {
  }

  /** A list of texts, or no list. */
  predicate RawInclude(v: Json) {
    v.Null? || (v.Arr? && forall e :: e in v.elems ==> e.JStr?)
  }

  lemma IncludeIff(v: Json)
    ensures ValidInclude(v) <==> RawInclude(v)
  {
    if v.Arr? {
      assert forall e :: e in v.elems <==> exists i :: 0 <= i < |v.elems| && v.elems[i] == e;
    }
  }

  /** The requests that are accepted: a well-formed include list, an input text or an accepted input list, and
      a body that is portable already or can be encoded. */
  lemma RequestAcceptedIff(c: Codec, o: Item)
    requires CodecOk(c)
    ensures !Sanitize(c, Some(Obj(o))).Refused? <==>
      && RawInclude(Get(o, Include))
      && (NonEmptyText(Get(o, Input))
          || (&& Get(o, Input).Arr? && RawList(c, o[Input].elems) && ShellCallsAnswered(o[Input].elems)
              && (o[Input].elems == [] || AnySurvives(o[Input].elems))))
      && (PortableBody(c, o) || Encodes(c, o))
  {
    hide CodecOk, RawList, ShellCallsAnswered, AnySurvives, ValidInclude, RawInclude, PortableBody, Sanitize,
         ProjectedInput, Encodes;
    IncludeIff(Get(o, Include));
    CleanIffPortable(c, o);
    InputAcceptedIff(c, Get(o, Input));
    RefusedIff(c, o);
  }

  /** The projected body, if there is one, can be encoded. */
  predicate Encodes(c: Codec, o: Item) {
    var input := ProjectedInput(c, Get(o, Input));
    input.Ok? ==> c.encodes(Obj(Unbound(o)[Input := input.value.0]))
  }

  lemma RefusedIff(c: Codec, o: Item)
    ensures !Sanitize(c, Some(Obj(o))).Refused? <==>
      && ValidInclude(Get(o, Include)) && ProjectedInput(c, Get(o, Input)).Ok?
      && (Sanitize(c, Some(Obj(o))) == Clean || Encodes(c, o))
  {
    hide ValidInclude, ProjectedInput, Unbound, Trimmed;
  }

  lemma InputAcceptedIff(c: Codec, v: Json)
    requires CodecOk(c)
    ensures ProjectedInput(c, v).Ok? <==>
      || NonEmptyText(v)
      || (v.Arr? && RawList(c, v.elems) && ShellCallsAnswered(v.elems) && (v.elems == [] || AnySurvives(v.elems)))
  {
    hide CodecOk, RawList, ShellCallsAnswered, AnySurvives, ProjectList;
    if v.Arr? {
      ListAcceptedIff(c, v.elems);
    }
  }

  lemma DetachedIff(c: Codec, x: Item)
    ensures ProjectDetachedDelivery(c, x).Ok? <==> RawDetached(x)
  {
  }

  lemma LocalNeedsId(t: Tracker, x: Item)
    ensures AnswersLocalCall(t, x) ==> CallId in x
  {
  }

  lemma UntoldIsUnseen(t: Tracker)
    ensures Observe(t, Sighting(Null, Null, Null, Null)) == (t, NoIssue)
  {
  }
}
