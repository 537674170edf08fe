/** Provider-portable message content: text and image blocks of messages and tool outputs. */
module ReplayContent {
  import opened Wrappers
  import opened Json

  datatype Reason =
    | InvalidTextBlock | EmptyTextContent | InvalidContent | InvalidContentBlock | InvalidRefusalBlock
    | InvalidRefusalRole
    | InvalidImageBlock | InvalidImageDetail | UnknownContentType | EmptyPortableContent | UnsupportedAssistantImage
    | InvalidItem | UnknownItemType | SchemaDrift
    | UnknownMessageField | InvalidMessageRole | InvalidMessagePhase
    | UnknownAgentMessageField | InvalidAgentMessage | InvalidAgentPhase | InvalidEncryptedContent
    | UnknownCallField | InvalidCallId | InvalidCall | InvalidNamespace | InvalidCaller | InvalidEncryptedFunctionArgs
    | UnknownLocalShellCallField | InvalidLocalShellCall | IncompleteLocalShellPair
    | UnknownOutputField | OrphanOutput | MismatchedOutput | RepeatedOutput
    | UnknownDetachedDeliveryField | InvalidDetachedDelivery
    | UnknownCompactionTriggerField | UnknownAdditionalToolsField | InvalidAdditionalTools
    | EmptyPortableInput | InvalidJson | RequestNotObject | InvalidInclude | EmptyInput | InvalidInput
    | SerializationFailed
    | UnhashableValue // not a reason of the source: an uncaught TypeError

  datatype Result<+T> = Ok(value: T) | Rejected(reason: Reason)

  /** Projected content with what was changed, dropped and marked on the way. */
  datatype Carried = Carried(value: Json, changed: bool, encrypted: nat, markers: nat, localImages: nat)

  const InputTextKeys: set<Field> := {Type, TextField, PromptCacheBreakpoint}
  const OutputTextKeys: set<Field> := {Type, TextField, Annotations, Logprobs}
  const ExplicitBreakpoint := Obj(map[Mode := W(Explicit)])

  /** The text of a text block, if the block has no unknown field and every known one is well formed. */
  function TextBlock(b: Item, blockType: Word): Result<Str> {
    if blockType == InputText
       && (!(b.Keys <= InputTextKeys)
           || (Get(b, PromptCacheBreakpoint) != Null && Get(b, PromptCacheBreakpoint) != ExplicitBreakpoint))
    then Rejected(InvalidTextBlock)
    else if blockType != InputText
            && (!(b.Keys <= OutputTextKeys)
                || (Annotations in b && !b[Annotations].Arr?)
                || (Logprobs in b && b[Logprobs] != Null && !b[Logprobs].Arr?))
    then Rejected(InvalidTextBlock)
    else if !Get(b, TextField).JStr? then Rejected(InvalidTextBlock)
    else Ok(b[TextField].s)
  }

  predicate IsTextBlock(b: Item) {
    Is(Get(b, Type), InputText) || Is(Get(b, Type), OutputText)
  }

  predicate ValidRefusal(b: Item) {
    b.Keys == {Type, Refusal} && b[Refusal].JStr?
  }

  predicate ImageDetail(v: Json) {
    Is(v, Low) || Is(v, High) || Is(v, Auto) || Is(v, Original)
  }

  function TextItem(s: Str): Item {
    map[Type := W(InputText), TextField := JStr(s)]
  }

  /** What becomes of one block of input content. */
  datatype Block = Kept(item: Item, changed: bool) | Cipher | Unreplayable

  function ImageBlock(c: Codec, b: Item): Result<Block> {
    if !(b.Keys <= {Type, ImageUrl, Detail}) then Rejected(InvalidImageBlock)
    else if !c.replayable(Get(b, ImageUrl)) then Ok(Unreplayable)
    else
      var image := map[Type := W(InputImage), ImageUrl := Get(b, ImageUrl)];
      var detail := Get(b, Detail);
      if detail == Null then Ok(Kept(image, false))
      else if !ImageDetail(detail) then Rejected(InvalidImageDetail)
      else Ok(Kept(image[Detail := detail], false))
  }

  function InputBlock(c: Codec, v: Json, images: bool): Result<Block> {
    if !v.Obj? then Rejected(InvalidContentBlock)
    else
      var b := v.fields;
      var kind := Get(b, Type);
      if IsTextBlock(b) then
        var text := TextBlock(b, kind.s.word);
        if text.Rejected? then Rejected(text.reason)
        else Ok(Kept(TextItem(text.value), b.Keys != {Type, TextField} || kind != W(InputText)))
      else if Is(kind, RefusalBlock) then Rejected(if ValidRefusal(b) then InvalidRefusalRole else InvalidRefusalBlock)
      else if Is(kind, EncryptedContentBlock) then Ok(Cipher)
      else if Is(kind, InputImage) && images then ImageBlock(c, b)
      else Rejected(UnknownContentType)
  }

  datatype Gathered = Gathered(blocks: seq<Json>, changed: bool, encrypted: nat, localImages: nat)

  function Gather(g: Gathered, b: Block): Gathered {
    match b
    case Kept(item, changed) => g.(blocks := g.blocks + [Obj(item)], changed := g.changed || changed)
    case Cipher => g.(changed := true, encrypted := g.encrypted + 1)
    case Unreplayable => g.(changed := true, localImages := g.localImages + 1)
  }

  /** The blocks of a list in order, up to the first one that is rejected. */
  function GatherInput(c: Codec, vs: seq<Json>, images: bool, root: nat): Result<Gathered> {
    if vs == [] then Ok(Gathered([], false, root, 0))
    else
      var before := GatherInput(c, vs[..|vs| - 1], images, root);
      if before.Rejected? then before
      else
        var block := InputBlock(c, vs[|vs| - 1], images);
        if block.Rejected? then Rejected(block.reason) else Ok(Gather(before.value, block.value))
  }

  const Marker: Json := Arr([Obj(TextItem(Known(OpaqueContentMarker)))])

  predicate OnlyEmptyText(blocks: seq<Json>) {
    forall i :: 0 <= i < |blocks| ==> blocks[i] == Obj(TextItem(Text("")))
  }

  function FinishInput(g: Gathered, marker: bool): Result<Carried> {
    if g.encrypted > 0 && marker && OnlyEmptyText(g.blocks)
    then Ok(Carried(Marker, true, g.encrypted, 1, g.localImages))
    else if g.blocks == [] then Rejected(EmptyPortableContent)
    else Ok(Carried(Arr(g.blocks), g.changed, g.encrypted, 0, g.localImages))
  }

  /** Provider-neutral input content of a message or tool output. */
  function InputContent(c: Codec, v: Json, images: bool, marker: bool, root: nat): Result<Carried> {
    if NonEmptyText(v) then Ok(Carried(v, root > 0, root, 0, 0))
    else if v.Arr? then
      var g := GatherInput(c, v.elems, images, root);
      if g.Rejected? then Rejected(g.reason) else FinishInput(g.value, marker)
    else if root > 0 && marker && (v.JStr? || v.Null?) then Ok(Carried(Marker, true, root, 1, 0))
    else Rejected(if v.JStr? then EmptyTextContent else InvalidContent)
  }

  method ProjectInputContent(c: Codec, v: Json, images: bool, marker: bool, root: nat) returns (r: Result<Carried>)
    ensures r == InputContent(c, v, images, marker, root)
  {
    hide InputBlock;
    if v.JStr? {
      if !Empty(v.s) {
        return Ok(Carried(v, root > 0, root, 0, 0));
      }
      if root > 0 && marker {
        return Ok(Carried(Marker, true, root, 1, 0));
      }
      return Rejected(EmptyTextContent);
    }
    if !v.Arr? {
      if root > 0 && v.Null? && marker {
        return Ok(Carried(Marker, true, root, 1, 0));
      }
      return Rejected(InvalidContent);
    }
    var projected: seq<Json>, changed, encrypted, localImages := [], false, root, 0;
    for n := 0 to |v.elems|
      invariant GatherInput(c, v.elems[..n], images, root) == Ok(Gathered(projected, changed, encrypted, localImages))
    {
      assert v.elems[..n + 1][..n] == v.elems[..n];
      var block := InputBlock(c, v.elems[n], images);
      if block.Rejected? {
        RejectionStays(c, v.elems, n + 1, images, root);
        return Rejected(block.reason);
      }
      match block.value {
        case Kept(item, altered) =>
          projected := projected + [Obj(item)];
          changed := changed || altered;
        case Cipher =>
          encrypted := encrypted + 1;
          changed := true;
        case Unreplayable =>
          localImages := localImages + 1;
          changed := true;
      }
    }
    assert v.elems[..|v.elems|] == v.elems;
    var markers := 0;
    if encrypted > 0 && marker && (projected == [] || OnlyEmptyText(projected)) {
      projected := [Obj(TextItem(Known(OpaqueContentMarker)))];
      markers := 1;
      changed := true;
    }
    if projected == [] {
      return Rejected(EmptyPortableContent);
    }
    return Ok(Carried(Arr(projected), changed, encrypted, markers, localImages));
  }

  lemma {:induction false} RejectionStays(c: Codec, vs: seq<Json>, n: nat, images: bool, root: nat)
    requires n <= |vs| && GatherInput(c, vs[..n], images, root).Rejected?
    ensures GatherInput(c, vs, images, root) == GatherInput(c, vs[..n], images, root)
    decreases |vs| - n
  {
    if n == |vs| {
      assert vs[..n] == vs;
    } else {
      assert vs[..n + 1][..n] == vs[..n];
      RejectionStays(c, vs, n + 1, images, root);
    }
  }

  // ---- assistant history

  datatype Spoken = Spoken(text: Str, changed: bool, encrypted: nat, markers: nat)

  /** What one block of assistant content says, or nothing for ciphertext. */
  function AssistantBlock(v: Json): Result<Option<Str>> {
    if !v.Obj? then Rejected(InvalidContentBlock)
    else
      var b := v.fields;
      var kind := Get(b, Type);
      if IsTextBlock(b) then
        var text := TextBlock(b, kind.s.word);
        if text.Rejected? then Rejected(text.reason) else Ok(Some(text.value))
      else if Is(kind, RefusalBlock) then
        if ValidRefusal(b) then Ok(Some(b[Refusal].s)) else Rejected(InvalidRefusalBlock)
      else if Is(kind, EncryptedContentBlock) then Ok(None)
      else if Is(kind, InputImage) then Rejected(UnsupportedAssistantImage)
      else Rejected(UnknownContentType)
  }

  datatype Parts = Parts(texts: seq<Str>, encrypted: nat)

  function GatherParts(vs: seq<Json>, root: nat): Result<Parts> {
    if vs == [] then Ok(Parts([], root))
    else
      var before := GatherParts(vs[..|vs| - 1], root);
      if before.Rejected? then before
      else
        match AssistantBlock(vs[|vs| - 1])
        case Rejected(reason) => Rejected(reason)
        case Ok(Some(text)) => Ok(before.value.(texts := before.value.texts + [text]))
        case Ok(None) => Ok(before.value.(encrypted := before.value.encrypted + 1))
  }

  /** Assistant history as the one text of an easy message. */
  function AssistantText(c: Codec, v: Json, marker: bool, root: nat): Result<Spoken> {
    if NonEmptyText(v) then Ok(Spoken(v.s, false, root, 0))
    else if v.Arr? then
      var parts := GatherParts(v.elems, root);
      if parts.Rejected? then Rejected(parts.reason)
      else
        var text := c.join(parts.value.texts);
        var changed := root > 0 || v.elems != [];
        if !Empty(text) then Ok(Spoken(text, changed, parts.value.encrypted, 0))
        else if parts.value.encrypted > 0 && marker
        then Ok(Spoken(Known(OpaqueContentMarker), changed, parts.value.encrypted, 1))
        else Rejected(EmptyPortableContent)
    else if root > 0 && marker && (v.JStr? || v.Null?) then Ok(Spoken(Known(OpaqueContentMarker), true, root, 1))
    else Rejected(if v.JStr? then EmptyTextContent else InvalidContent)
  }

  method ProjectAssistantText(c: Codec, v: Json, marker: bool, root: nat) returns (r: Result<Spoken>)
    ensures r == AssistantText(c, v, marker, root)
  {
    hide AssistantBlock;
    if v.JStr? {
      if !Empty(v.s) {
        return Ok(Spoken(v.s, false, root, 0));
      }
      if root > 0 && marker {
        return Ok(Spoken(Known(OpaqueContentMarker), true, root, 1));
      }
      return Rejected(EmptyTextContent);
    }
    if !v.Arr? {
      if root > 0 && v.Null? && marker {
        return Ok(Spoken(Known(OpaqueContentMarker), true, root, 1));
      }
      return Rejected(InvalidContent);
    }
    var texts: seq<Str>, encrypted, changed := [], root, root > 0;
    for n := 0 to |v.elems|
      invariant GatherParts(v.elems[..n], root) == Ok(Parts(texts, encrypted))
      invariant changed == (root > 0 || n > 0)
    {
      assert v.elems[..n + 1][..n] == v.elems[..n];
      match AssistantBlock(v.elems[n]) {
        case Rejected(reason) =>
          PartsRejectionStays(v.elems, n + 1, root);
          return Rejected(reason);
        case Ok(Some(text)) =>
          texts := texts + [text];
          changed := true;
        case Ok(None) =>
          encrypted := encrypted + 1;
          changed := true;
      }
    }
    assert v.elems[..|v.elems|] == v.elems;
    var text, markers := c.join(texts), 0;
    if Empty(text) && encrypted > 0 && marker {
      text, markers := Known(OpaqueContentMarker), 1;
    }
    if Empty(text) {
      return Rejected(EmptyPortableContent);
    }
    return Ok(Spoken(text, changed, encrypted, markers));
  }

  lemma {:induction false} PartsRejectionStays(vs: seq<Json>, n: nat, root: nat)
    requires n <= |vs| && GatherParts(vs[..n], root).Rejected?
    ensures GatherParts(vs, root) == GatherParts(vs[..n], root)
    decreases |vs| - n
  {
    if n == |vs| {
      assert vs[..n] == vs;
    } else {
      assert vs[..n + 1][..n] == vs[..n];
      PartsRejectionStays(vs, n + 1, root);
    }
  }

  /** One well-formed, empty output block. */
  predicate EmptyPlaceholder(v: Json) {
    && v.Arr? && |v.elems| == 1 && v.elems[0].Obj?
    && Is(Get(v.elems[0].fields, Type), OutputText)
    && TextBlock(v.elems[0].fields, OutputText) == Ok(Text(""))
  }

  // ---- the portable grammar of content

  predicate PortableText(b: Item) {
    b.Keys == {Type, TextField} && Is(b[Type], InputText) && b[TextField].JStr?
  }

  predicate PortableImage(c: Codec, b: Item) {
    && (b.Keys == {Type, ImageUrl} || (b.Keys == {Type, ImageUrl, Detail} && ImageDetail(b[Detail])))
    && Is(b[Type], InputImage) && c.replayable(b[ImageUrl])
  }

  predicate PortableBlock(c: Codec, v: Json) {
    v.Obj? && (PortableText(v.fields) || PortableImage(c, v.fields))
  }

  /** A non-empty text, or at least one block, every block exact. */
  predicate PortableContent(c: Codec, v: Json) {
    NonEmptyText(v) || (v.Arr? && v.elems != [] && forall i :: 0 <= i < |v.elems| ==> PortableBlock(c, v.elems[i]))
  }

  lemma BlockSound(c: Codec, v: Json, images: bool)
    requires InputBlock(c, v, images).Ok? && InputBlock(c, v, images).value.Kept?
    ensures PortableBlock(c, Obj(InputBlock(c, v, images).value.item))
  {
  }

  lemma BlockFixed(c: Codec, v: Json)
    requires PortableBlock(c, v)
    ensures InputBlock(c, v, true) == Ok(Kept(v.fields, false))
  {
    var b := v.fields;
    if PortableText(b) {
      assert TextItem(b[TextField].s) == b;
    } else {
      var image := map[Type := W(InputImage), ImageUrl := Get(b, ImageUrl)];
      if Detail in b {
        assert image[Detail := b[Detail]] == b;
      } else {
        assert image == b;
      }
    }
  }

  lemma {:induction false} GatherSound(c: Codec, vs: seq<Json>, images: bool, root: nat)
    requires GatherInput(c, vs, images, root).Ok?
    ensures forall i :: 0 <= i < |GatherInput(c, vs, images, root).value.blocks| ==>
      PortableBlock(c, GatherInput(c, vs, images, root).value.blocks[i])
  {
    hide InputBlock, PortableBlock;
    if vs != [] {
      GatherSound(c, vs[..|vs| - 1], images, root);
      if InputBlock(c, vs[|vs| - 1], images).value.Kept? {
        BlockSound(c, vs[|vs| - 1], images);
      }
    }
  }

  /** Whatever is accepted leaves as portable content. */
  lemma InputContentSound(c: Codec, v: Json, images: bool, marker: bool, root: nat)
    requires InputContent(c, v, images, marker, root).Ok?
    ensures PortableContent(c, InputContent(c, v, images, marker, root).value.value)
  {
    if v.Arr? {
      GatherSound(c, v.elems, images, root);
    }
  }

  lemma {:induction false} GatherFixed(c: Codec, vs: seq<Json>)
    requires forall i :: 0 <= i < |vs| ==> PortableBlock(c, vs[i])
    ensures GatherInput(c, vs, true, 0) == Ok(Gathered(vs, false, 0, 0))
  {
    hide InputBlock, PortableBlock;
    if vs != [] {
      GatherFixed(c, vs[..|vs| - 1]);
      BlockFixed(c, vs[|vs| - 1]);
      BlockIsObject(c, vs[|vs| - 1]);
      assert vs[..|vs| - 1] + [vs[|vs| - 1]] == vs;
    }
  }

  lemma BlockIsObject(c: Codec, v: Json)
    requires PortableBlock(c, v)
    ensures v.Obj?
  {
  }

  /** Portable content is left exactly as it is. */
  lemma InputContentFixed(c: Codec, v: Json, marker: bool)
    requires PortableContent(c, v)
    ensures InputContent(c, v, true, marker, 0) == Ok(Carried(v, false, 0, 0, 0))
  {
    if v.Arr? {
      GatherFixed(c, v.elems);
    }
  }

  // ---- nothing that can be said is lost

  /** What a block shows the reader, read off the raw block. */
  function Shown(c: Codec, v: Json): seq<Json> {
    if v.Obj? && IsTextBlock(v.fields) then [Get(v.fields, TextField)]
    else if v.Obj? && Is(Get(v.fields, Type), InputImage) && c.replayable(Get(v.fields, ImageUrl))
    then [Get(v.fields, ImageUrl)]
    else []
  }

  function AllShown(c: Codec, vs: seq<Json>): seq<Json> {
    if vs == [] then [] else AllShown(c, vs[..|vs| - 1]) + Shown(c, vs[|vs| - 1])
  }

  lemma {:induction false} GatherKeeps(c: Codec, vs: seq<Json>, images: bool, root: nat)
    requires GatherInput(c, vs, images, root).Ok?
    ensures var g := GatherInput(c, vs, images, root).value;
      && AllShown(c, g.blocks) == AllShown(c, vs)
      && |g.blocks| + (g.encrypted - root) + g.localImages == |vs|
      && g.encrypted >= root
  {
    hide InputBlock, Shown;
    if vs != [] {
      var last := vs[|vs| - 1];
      GatherKeeps(c, vs[..|vs| - 1], images, root);
      BlockKeeps(c, last, images);
      var before := GatherInput(c, vs[..|vs| - 1], images, root).value;
      var block := InputBlock(c, last, images).value;
      if block.Kept? {
        assert (before.blocks + [Obj(block.item)])[..|before.blocks|] == before.blocks;
      }
    }
  }

  lemma BlockKeeps(c: Codec, v: Json, images: bool)
    requires InputBlock(c, v, images).Ok?
    ensures match InputBlock(c, v, images).value
            case Kept(item, _) => Shown(c, Obj(item)) == Shown(c, v)
            case _ => Shown(c, v) == []
  {
  }

  /** Accepted input content shows exactly what it showed before, in order, and every block that is
      gone was counted; a marker stands only where there was ciphertext and no text. */
  lemma InputContentKeeps(c: Codec, v: Json, images: bool, marker: bool, root: nat)
    requires InputContent(c, v, images, marker, root).Ok? && v.Arr?
    ensures var r := InputContent(c, v, images, marker, root).value;
      && r.value.Arr?
      && (r.markers == 0 ==> AllShown(c, r.value.elems) == AllShown(c, v.elems))
      && (r.markers == 0 ==> |r.value.elems| + (r.encrypted - root) + r.localImages == |v.elems|)
      && (r.markers > 0 ==> r.value == Marker && r.encrypted > 0 && marker)
      && (r.markers > 0 ==> forall i :: 0 <= i < |AllShown(c, v.elems)| ==> AllShown(c, v.elems)[i] == JStr(Text("")))
  {
    GatherKeeps(c, v.elems, images, root);
    var g := GatherInput(c, v.elems, images, root).value;
    if OnlyEmptyText(g.blocks) {
      EmptyShowsEmpty(c, g.blocks);
    }
  }

  lemma {:induction false} EmptyShowsEmpty(c: Codec, blocks: seq<Json>)
    requires OnlyEmptyText(blocks)
    ensures forall i :: 0 <= i < |AllShown(c, blocks)| ==> AllShown(c, blocks)[i] == JStr(Text(""))
  {
    if blocks != [] {
      EmptyShowsEmpty(c, blocks[..|blocks| - 1]);
    }
  }

  /** What an assistant block says, read off the raw block. */
  function Said(v: Json): seq<Str> {
    if v.Obj? && IsTextBlock(v.fields) && Get(v.fields, TextField).JStr? then [Get(v.fields, TextField).s]
    else if v.Obj? && Is(Get(v.fields, Type), RefusalBlock) && Get(v.fields, Refusal).JStr?
    then [Get(v.fields, Refusal).s]
    else []
  }

  function AllSaid(vs: seq<Json>): seq<Str> {
    if vs == [] then [] else AllSaid(vs[..|vs| - 1]) + Said(vs[|vs| - 1])
  }

  lemma {:induction false} PartsKeep(vs: seq<Json>, root: nat)
    requires GatherParts(vs, root).Ok?
    ensures var p := GatherParts(vs, root).value;
      p.texts == AllSaid(vs) && p.encrypted >= root && |p.texts| + (p.encrypted - root) == |vs|
  {
    if vs != [] {
      PartsKeep(vs[..|vs| - 1], root);
    }
  }

  /** An accepted assistant message is never empty; it is the given text, all its texts and
      refusals joined in order, or a marker where ciphertext left nothing to say. */
  lemma AssistantTextKeeps(c: Codec, v: Json, marker: bool, root: nat)
    requires AssistantText(c, v, marker, root).Ok?
    ensures var r := AssistantText(c, v, marker, root).value;
      && !Empty(r.text)
      && (r.markers == 0 && v.JStr? ==> v == JStr(r.text))
      && (r.markers == 0 && v.Arr? ==> r.text == c.join(AllSaid(v.elems)))
      && (r.markers > 0 ==> marker && r.encrypted > 0 && r.text == Known(OpaqueContentMarker))
      && (r.markers > 0 && v.Arr? ==> Empty(c.join(AllSaid(v.elems))))
  {
    if v.Arr? {
      PartsKeep(v.elems, root);
    }
  }
}
