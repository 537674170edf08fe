/** Projection of one request onto the provider-portable replay grammar. */
module ReplayProjection {
  import opened Wrappers
  import opened Json
  import opened ToolRelationships
  import opened ReplayContent

  /** What a projection changed, counted. */
  datatype Metrics = Metrics(
    reasoning: nat, references: nat, searches: nat, itemIds: nat, encrypted: nat, markers: nat, localImages: nat,
    emptyOutputs: nat, changed: nat)

  const Zero := Metrics(0, 0, 0, 0, 0, 0, 0, 0, 0)

  function Add(m: Metrics, n: Metrics): Metrics {
    Metrics(m.reasoning + n.reasoning, m.references + n.references, m.searches + n.searches, m.itemIds + n.itemIds,
            m.encrypted + n.encrypted, m.markers + n.markers, m.localImages + n.localImages,
            m.emptyOutputs + n.emptyOutputs, m.changed + n.changed)
  }

  function Count(b: bool): nat {
    if b then 1 else 0
  }

  datatype Strategy =
    | KeepMessage | KeepAgentMessage | KeepCall | KeepOutput | KeepToolCatalog | KeepCompactionTrigger
    | DropReasoning | DropReference | DropSearch | DropAuxiliary | DropLocalTool | Drift

  /** The disposition of a recognized item type. */
  function Policy(w: Word): Option<Strategy> {
    match w
    case MessageType => Some(KeepMessage)
    case AgentMessageType => Some(KeepAgentMessage)
    case AdditionalToolsType => Some(KeepToolCatalog)
    case ReasoningType => Some(DropReasoning)
    case ItemReferenceType | CompactionType | ContextCompactionType => Some(DropReference)
    case WebSearchCall | ToolSearchCall | ToolSearchOutput => Some(DropSearch)
    case ImageGenerationCall => Some(DropAuxiliary)
    case LocalShellCall => Some(DropLocalTool)
    case FunctionCall | CustomToolCall => Some(KeepCall)
    case FunctionCallOutput | CustomToolCallOutput => Some(KeepOutput)
    case CompactionTrigger => Some(KeepCompactionTrigger)
    case ApplyPatchCall | ApplyPatchCallOutput | CodeInterpreterCall | ComputerCall | ComputerCallOutput
       | FileSearchCall
       | LocalShellCallOutput | McpApprovalRequest | McpApprovalResponse | McpCall | McpListTools | Program
       | ProgramOutput
       | ShellCall | ShellCallOutput => Some(Drift)
    case _ => None
  }

  function Classify(itemType: Json): Option<Strategy> {
    if itemType.JStr? && itemType.s.Known? then Policy(itemType.s.word) else None
  }

  predicate IsControl(v: Json) {
    v.Obj?
    && (Classify(Get(v.fields, Type)) == Some(KeepToolCatalog)
        || Classify(Get(v.fields, Type)) == Some(KeepCompactionTrigger))
  }

  const MessageKeys: set<Field> := {Type, Id, Status, Role, Content, Phase, Name, Passthrough}
  const AgentKeys: set<Field> := {Type, Id, Status, Author, Recipient, Phase, Content, EncryptedContent, Passthrough}
  const DetachedKeys: set<Field> := {Type, Id, Name, Namespace, Output, Passthrough}
  const LocalShellKeys: set<Field> := {Type, Id, CallId, Status, Action, Passthrough}
  const ActionKeys: set<Field> := {Type, Command, TimeoutMs, WorkingDirectory, Env, UserField}

  function ArgumentField(w: Word): Field {
    if w == FunctionCall then Arguments else Input
  }

  function CallKeys(w: Word): set<Field> {
    {Type, Id, Status, CallId, Name, ArgumentField(w), Namespace, Caller, Passthrough}
    + if w == FunctionCall then {EncryptedFunctionArgs} else {}
  }

  function OutputKeys(w: Word): set<Field> {
    {Type, Id, Status, CallId, Name, Output, Caller, EncryptedContent, Passthrough}
    + if w == FunctionCallOutput then {Namespace} else {}
  }

  predicate ValidRole(v: Json) {
    Is(v, User) || Is(v, Assistant) || Is(v, Developer) || Is(v, System)
  }

  predicate ValidPhase(v: Json) {
    Is(v, Commentary) || Is(v, FinalAnswer)
  }

  predicate ProgramCaller(x: Item) {
    Is(Get(x, Type), Program) && x.Keys == {Type, CallerId} && NonEmptyText(x[CallerId])
  }

  predicate ValidCaller(v: Json) {
    || v.Null?
    || (v.Obj? && (if Is(Get(v.fields, Type), Direct) then v.fields.Keys == {Type}
                   else ProgramCaller(v.fields)))
  }

  /** One item projected: what replaces it, if anything. */
  datatype Projected = Projected(value: Option<Item>, metrics: Metrics)

  // ---- messages

  function Message(role: Json, content: Json, phase: Json): Item {
    var m := map[Type := W(MessageType), Role := role, Content := content];
    if phase == Null then m else m[Phase := phase]
  }

  function ProjectMessage(c: Codec, x: Item): Result<Projected> {
    var role, phase, ids := Get(x, Role), Get(x, Phase), Count(Id in x);
    if !(x.Keys <= MessageKeys) then Rejected(UnknownMessageField)
    else if Unhashable(role) then Rejected(UnhashableValue)
    else if !ValidRole(role) then Rejected(InvalidMessageRole)
    else if phase != Null && !Is(role, Assistant) then Rejected(InvalidMessagePhase)
    else if Unhashable(phase) then Rejected(UnhashableValue)
    else if phase != Null && !ValidPhase(phase) then Rejected(InvalidMessagePhase)
    else if Is(role, Assistant) then
      if EmptyPlaceholder(Get(x, Content)) then Ok(Projected(None, Zero.(changed := 1, itemIds := ids)))
      else
        var text := AssistantText(c, Get(x, Content), false, 0);
        if text.Rejected? then Rejected(text.reason)
        else
          var y := Message(role, JStr(text.value.text), phase);
          Ok(Projected(Some(y), Zero.(changed := Count(text.value.changed || y != x), itemIds := ids,
                                      encrypted := text.value.encrypted, markers := text.value.markers)))
    else
      var content := InputContent(c, Get(x, Content), true, false, 0);
      if content.Rejected? then Rejected(content.reason)
      else
        var y := Message(role, content.value.value, phase);
        Ok(Projected(Some(y), Zero.(changed := Count(content.value.changed || y != x), itemIds := ids,
                                    encrypted := content.value.encrypted, markers := content.value.markers,
                                    localImages := content.value.localImages)))
  }

  predicate CipherBlock(v: Json) {
    v.Obj? && Is(Get(v.fields, Type), EncryptedContentBlock)
  }

  predicate ExactCipher(v: Json) {
    v.Obj? && v.fields.Keys == {Type, EncryptedContent} && NonEmptyText(v.fields[EncryptedContent])
  }

  function CipherCount(vs: seq<Json>): nat {
    if vs == [] then 0 else CipherCount(vs[..|vs| - 1]) + Count(CipherBlock(vs[|vs| - 1]))
  }

  /** How many ciphertexts an agent message carries. */
  function AgentCiphertext(x: Item): Result<nat> {
    var v := Get(x, Content);
    if EncryptedContent in x && !NonEmptyText(x[EncryptedContent]) then Rejected(InvalidEncryptedContent)
    else if v.Arr? && (exists i :: 0 <= i < |v.elems| && CipherBlock(v.elems[i]) && !ExactCipher(v.elems[i]))
    then Rejected(InvalidEncryptedContent)
    else Ok(Count(EncryptedContent in x) + if v.Arr? then CipherCount(v.elems) else 0)
  }

  function AgentPhase(x: Item): Json {
    if Phase in x then x[Phase] else W(Commentary)
  }

  function ProjectAgentMessage(c: Codec, x: Item): Result<Projected> {
    var author, recipient := Get(x, Author), Get(x, Recipient);
    if !(x.Keys <= AgentKeys) then Rejected(UnknownAgentMessageField)
    else if !NonEmptyText(author) || !NonEmptyText(recipient) then Rejected(InvalidAgentMessage)
    else if Unhashable(AgentPhase(x)) then Rejected(UnhashableValue)
    else if !ValidPhase(AgentPhase(x)) then Rejected(InvalidAgentPhase)
    else
      var ciphertext := AgentCiphertext(x);
      if ciphertext.Rejected? then Rejected(ciphertext.reason)
      else
        var text := AssistantText(c, Get(x, Content), true, Count(EncryptedContent in x));
        if text.Rejected? then Rejected(text.reason)
        else if ciphertext.value > 0 then
          var native := x - {Passthrough, Status};
          Ok(Projected(Some(native), Zero.(changed := Count(native != x))))
        else
          var header := c.dumps(map[Type := W(AgentMessageType), Author := author, Recipient := recipient]);
          Ok(Projected(Some(Message(W(Assistant), JStr(c.headed(header, text.value.text)), AgentPhase(x))),
                       Zero.(changed := 1, itemIds := Count(Id in x), encrypted := text.value.encrypted,
                             markers := text.value.markers)))
  }

  // ---- tool calls and outputs

  predicate NonEmptyTexts(v: Json) {
    v.Arr? && forall i :: 0 <= i < |v.elems| ==> NonEmptyText(v.elems[i])
  }

  function With(x: Item, f: Field, v: Json): Item {
    if v == Null then x else x[f := v]
  }

  function ProjectCall(x: Item, w: Word): Result<Projected>
    requires w == FunctionCall || w == CustomToolCall
  {
    var argument, namespace, caller := Get(x, ArgumentField(w)), Get(x, Namespace), Get(x, Caller);
    if !NonEmptyText(Get(x, Name)) || !argument.JStr? then Rejected(InvalidCall)
    else if namespace != Null && !NonEmptyText(namespace) then Rejected(InvalidNamespace)
    else if !ValidCaller(caller) then Rejected(InvalidCaller)
    else if EncryptedFunctionArgs in x && !NonEmptyTexts(x[EncryptedFunctionArgs])
    then Rejected(InvalidEncryptedFunctionArgs)
    else
      var y := map[Type := W(w), CallId := Get(x, CallId), Name := Get(x, Name), ArgumentField(w) := argument];
      var z := With(With(y, Namespace, namespace), Caller, caller);
      var call := if EncryptedFunctionArgs in x then z[EncryptedFunctionArgs := x[EncryptedFunctionArgs]] else z;
      Ok(Projected(Some(call), Zero.(changed := Count(call != x), itemIds := Count(Id in x))))
  }

  predicate TextOrAbsent(v: Json) {
    v.Null? || v.JStr?
  }

  predicate ValidAction(a: Item) {
    && a.Keys <= ActionKeys && Is(Get(a, Type), Exec)
    && NonEmptyTexts(Get(a, Command)) && Get(a, Command).elems != []
    && (Get(a, TimeoutMs).Null? || (Get(a, TimeoutMs).Int? && 0 <= Get(a, TimeoutMs).n <= 0xFFFF_FFFF_FFFF_FFFF))
    && TextOrAbsent(Get(a, WorkingDirectory)) && TextOrAbsent(Get(a, UserField))
    && (Get(a, Env).Null? || (Get(a, Env).Obj? && forall k :: k in Get(a, Env).fields ==> Get(a, Env).fields[k].JStr?))
  }

  function DropLocalCall(x: Item): Result<Projected> {
    if Unhashable(Get(x, Status)) then Rejected(UnhashableValue)
    else if !(Is(Get(x, Status), Completed) || Is(Get(x, Status), InProgress) || Is(Get(x, Status), Incomplete))
         || !Get(x, Action).Obj? || !ValidAction(Get(x, Action).fields) then Rejected(InvalidLocalShellCall)
    else Ok(Projected(None, Zero.(changed := 1, itemIds := Count(Id in x))))
  }

  function DeliveryMessage(c: Codec, header: Item, text: Str): Item {
    Message(W(Assistant), JStr(c.headed(c.dumps(header), text)), W(Commentary))
  }

  function OutputRoot(x: Item): nat {
    Count(Get(x, EncryptedContent).JStr?)
  }

  predicate EmptyOutput(x: Item) {
    Get(x, Output) == JStr(Text("")) && OutputRoot(x) == 0
  }

  function OutputContent(c: Codec, x: Item): Result<Carried> {
    if EmptyOutput(x) then Ok(Carried(W(EmptyToolOutputMarker), true, 0, 0, 0))
    else InputContent(c, Get(x, Output), true, true, OutputRoot(x))
  }

  function OutputMetrics(x: Item, y: Item, content: Carried): Metrics {
    Zero.(changed := Count(content.changed || y != x), itemIds := Count(Id in x), encrypted := content.encrypted,
          markers := content.markers, localImages := content.localImages, emptyOutputs := Count(EmptyOutput(x)))
  }

  function DeliveryHeader(x: Item): Item {
    With(map[Type := W(ToolDelivery), CallId := Get(x, CallId), Name := Get(x, Name)], Caller, Get(x, Caller))
  }

  /** The output of a call that the tracker admitted, as it stands or, for a later result, as a message. */
  function ProjectOutput(c: Codec, x: Item, w: Word, delivery: bool): Result<Projected> {
    if !ValidCaller(Get(x, Caller)) then Rejected(InvalidCaller)
    else if EncryptedContent in x && !x[EncryptedContent].JStr? then Rejected(InvalidEncryptedContent)
    else
      var content := OutputContent(c, x);
      if content.Rejected? then Rejected(content.reason)
      else if delivery then
        var text := AssistantText(c, content.value.value, false, 0);
        if text.Rejected? then Rejected(text.reason)
        else
          var y := DeliveryMessage(c, DeliveryHeader(x), text.value.text);
          Ok(Projected(Some(y), OutputMetrics(x, y, content.value)))
      else
        var y := With(map[Type := W(w), CallId := Get(x, CallId), Output := content.value.value], Caller,
                      Get(x, Caller));
        Ok(Projected(Some(y), OutputMetrics(x, y, content.value)))
  }

  function ProjectDetachedDelivery(c: Codec, x: Item): Result<Projected> {
    if !(x.Keys <= DetachedKeys) then Rejected(UnknownDetachedDeliveryField)
    else if !(NonEmptyText(Get(x, Id)) && NonEmptyText(Get(x, Name)) && NonEmptyText(Get(x, Namespace))
              && NonEmptyText(Get(x, Output)))
    then Rejected(InvalidDetachedDelivery)
    else
      Ok(Projected(Some(DeliveryMessage(c, map[Type := W(ToolDelivery), Name := x[Name], Namespace := x[Namespace]],
                                        x[Output].s)),
                   Zero.(changed := 1, itemIds := 1)))
  }

  // ---- controls of the current turn

  predicate ToolObjects(v: Json) {
    v.Arr? && forall i :: 0 <= i < |v.elems| ==> v.elems[i].Obj? && v.elems[i].fields != map[]
  }

  function ProjectToolCatalog(x: Item): Result<Projected> {
    if !(x.Keys <= {Type, Id, Role, Tools}) then Rejected(UnknownAdditionalToolsField)
    else if !NonEmptyText(Get(x, Role)) || !ToolObjects(Get(x, Tools)) || (Id in x && !NonEmptyText(x[Id]))
    then Rejected(InvalidAdditionalTools)
    else Ok(Projected(Some(x), Zero))
  }

  function ProjectCompactionTrigger(x: Item): Result<Projected> {
    if x.Keys <= {Type} then Ok(Projected(Some(map[Type := W(CompactionTrigger)]), Zero))
    else Rejected(UnknownCompactionTriggerField)
  }

  // ---- one item against the tracker

  datatype Effect = Effect(tracker: Tracker, value: Option<Item>, metrics: Metrics)

  function Lift(t: Tracker, r: Result<Projected>): Result<Effect> {
    if r.Ok? then Ok(Effect(t, r.value.value, r.value.metrics)) else Rejected(r.reason)
  }

  function TypeOf(x: Item): Json {
    if Type in x then x[Type] else W(MessageType)
  }

  /** What the tracker is told about an item. */
  function See(x: Item): Sighting {
    Sighting(Get(x, Type), Get(x, CallId), Get(x, Name), Get(x, Id))
  }

  function CallStep(t: Tracker, x: Item, w: Word): Result<Effect>
    requires w == FunctionCall || w == CustomToolCall
  {
    if !(x.Keys <= CallKeys(w)) then Rejected(UnknownCallField)
    else
      var (u, issue) := Observe(t, See(x).(id := Null));
      if issue != NoIssue then Rejected(InvalidCallId) else Lift(u, ProjectCall(x, w))
  }

  function LocalCallStep(t: Tracker, x: Item): Result<Effect> {
    if !(x.Keys <= LocalShellKeys) then Rejected(UnknownLocalShellCallField)
    else
      var (u, issue) := Observe(t, See(x).(name := Null, id := Null));
      if issue != NoIssue then Rejected(InvalidCallId) else Lift(u, DropLocalCall(x))
  }

  predicate AnswersLocalCall(t: Tracker, x: Item) {
    var id := Get(x, CallId);
    id.JStr? && id.s in t.calls && t.calls[id.s] == LocalShellCall
  }

  function OutputIssue(issue: Issue): Reason {
    match issue
    case MissingCallId | OutputBeforeCall => OrphanOutput
    case MismatchedOutputType => MismatchedOutput
    case _ => RepeatedOutput
  }

  predicate Delivered(t: Tracker, x: Item) {
    Get(x, Id).JStr? && Get(x, Id).s in t.deliveries
  }

  function OutputStep(c: Codec, t: Tracker, x: Item, w: Word): Result<Effect> {
    if !(x.Keys <= OutputKeys(w)) then Rejected(UnknownOutputField)
    else
      var (u, issue) := Observe(t, See(x));
      if issue != NoIssue then Rejected(OutputIssue(issue)) else Lift(u, ProjectOutput(c, x, w, Delivered(u, x)))
  }

  /** An output of a local shell call is checked like any other and leaves with its call. */
  function LocalOutputStep(c: Codec, t: Tracker, x: Item, w: Word): Result<Effect> {
    var r := OutputStep(c, t, x, w);
    if r.Rejected? then r else Ok(Effect(r.value.tracker, None, r.value.metrics.(changed := 1)))
  }

  function ItemStep(c: Codec, t: Tracker, v: Json): Result<Effect> {
    if !v.Obj? then Rejected(InvalidItem)
    else
      var x := v.fields;
      var strategy := Classify(TypeOf(x));
      if strategy.None? then Rejected(UnknownItemType)
      else
        var ids := Count(Id in x);
        match strategy.value
        case DropReasoning => Ok(Effect(t, None, Zero.(reasoning := 1, itemIds := ids)))
        case DropReference => Ok(Effect(t, None, Zero.(references := 1, itemIds := ids)))
        case DropSearch => Ok(Effect(t, None, Zero.(searches := 1, itemIds := ids)))
        case DropAuxiliary => Ok(Effect(t, None, Zero.(itemIds := ids)))
        case DropLocalTool => LocalCallStep(t, x)
        case KeepMessage => Lift(t, ProjectMessage(c, x))
        case KeepAgentMessage => Lift(t, ProjectAgentMessage(c, x))
        case KeepCall => CallStep(t, x, TypeOf(x).s.word)
        case KeepOutput =>
          var w := TypeOf(x).s.word;
          if AnswersLocalCall(t, x) then LocalOutputStep(c, t, x, w)
          else if CallId !in x then Lift(t, ProjectDetachedDelivery(c, x))
          else OutputStep(c, t, x, w)
        case KeepCompactionTrigger => Lift(t, ProjectCompactionTrigger(x))
        case KeepToolCatalog => Lift(t, ProjectToolCatalog(x))
        case Drift => Rejected(SchemaDrift)
  }

  // ---- the whole list

  datatype Progress = Progress(tracker: Tracker, items: seq<Json>, metrics: Metrics)

  function Advance(p: Progress, e: Effect): Progress {
    Progress(e.tracker, if e.value.Some? then p.items + [Obj(e.value.value)] else p.items, Add(p.metrics, e.metrics))
  }

  function Walk(c: Codec, vs: seq<Json>): Result<Progress> {
    if vs == [] then Ok(Progress(Fresh, [], Zero))
    else
      var before := Walk(c, vs[..|vs| - 1]);
      if before.Rejected? then before
      else
        var e := ItemStep(c, before.value.tracker, vs[|vs| - 1]);
        if e.Rejected? then Rejected(e.reason) else Ok(Advance(before.value, e.value))
  }

  datatype Replay = Replay(items: seq<Json>, metrics: Metrics)

  function ProjectList(c: Codec, vs: seq<Json>): Result<Replay> {
    var p := Walk(c, vs);
    if p.Rejected? then Rejected(p.reason)
    else if Pending(p.value.tracker, LocalShellCall) then Rejected(IncompleteLocalShellPair)
    else if p.value.items == [] && vs != [] then Rejected(EmptyPortableInput)
    else Ok(Replay(p.value.items, p.value.metrics))
  }

  method ProjectInput(c: Codec, vs: seq<Json>) returns (r: Result<Replay>)
    ensures r == ProjectList(c, vs)
  {
    hide ItemStep;
    var relationships, projected: seq<Json>, metrics := Fresh, [], Zero;
    for n := 0 to |vs|
      invariant Walk(c, vs[..n]) == Ok(Progress(relationships, projected, metrics))
    {
      assert vs[..n + 1][..n] == vs[..n];
      var e := ItemStep(c, relationships, vs[n]);
      if e.Rejected? {
        WalkRejectionStays(c, vs, n + 1);
        return Rejected(e.reason);
      }
      relationships := e.value.tracker;
      if e.value.value.Some? {
        projected := projected + [Obj(e.value.value.value)];
      }
      metrics := Add(metrics, e.value.metrics);
    }
    assert vs[..|vs|] == vs;
    if Pending(relationships, LocalShellCall) {
      return Rejected(IncompleteLocalShellPair);
    }
    if projected == [] && vs != [] {
      return Rejected(EmptyPortableInput);
    }
    return Ok(Replay(projected, metrics));
  }

  lemma {:induction false} WalkRejectionStays(c: Codec, vs: seq<Json>, n: nat)
    requires n <= |vs| && Walk(c, vs[..n]).Rejected?
    ensures Walk(c, vs) == Walk(c, vs[..n])
    decreases |vs| - n
  {
    hide ItemStep;
    if n == |vs| {
      assert vs[..n] == vs;
    } else {
      assert vs[..n + 1][..n] == vs[..n];
      WalkRejectionStays(c, vs, n + 1);
    }
  }

  // ---- the whole request

  const Bindings: set<Field> := {PreviousResponseId, Conversation, PromptCacheKey}

  function BindingCount(o: Item): nat {
    Count(PreviousResponseId in o) + Count(Conversation in o) + Count(PromptCacheKey in o)
  }

  /** A list of texts without the request for encrypted reasoning. */
  function Trimmed(vs: seq<Json>): seq<Json> {
    if vs == [] then []
    else Trimmed(vs[..|vs| - 1]) + if Is(vs[|vs| - 1], ReasoningEncryptedContent) then [] else [vs[|vs| - 1]]
  }

  predicate ValidInclude(v: Json) {
    v.Null? || (v.Arr? && forall i :: 0 <= i < |v.elems| ==> v.elems[i].JStr?)
  }

  /** The request without provider bindings, with storage off and its include list trimmed. */
  function Unbound(o: Item): Item {
    var base := o[Store := Bool(false)] - Bindings;
    if Get(o, Include).Arr? then base[Include := Arr(Trimmed(o[Include].elems))] else base
  }

  datatype Outcome =
    | Clean
    | Changed(body: Item, metrics: Metrics, bindings: nat, storeNormalized: bool, includeTrimmed: bool)
    | Refused(reason: Reason)

  function ProjectedInput(c: Codec, v: Json): Result<(Json, Metrics)> {
    if v.JStr? then
      if Empty(v.s) then Rejected(EmptyInput) else Ok((v, Zero))
    else if v.Arr? then
      var r := ProjectList(c, v.elems);
      if r.Rejected? then Rejected(r.reason) else Ok((Arr(r.value.items), r.value.metrics))
    else Rejected(InvalidInput)
  }

  /** The decoded request, or nothing where it is not JSON, projected. */
  function Sanitize(c: Codec, payload: Option<Json>): Outcome {
    if payload.None? then Refused(InvalidJson)
    else if !payload.value.Obj? then Refused(RequestNotObject)
    else
      var o := payload.value.fields;
      if !ValidInclude(Get(o, Include)) then Refused(InvalidInclude)
      else
        var input := ProjectedInput(c, Get(o, Input));
        if input.Rejected? then Refused(input.reason)
        else
          var body := Unbound(o)[Input := input.value.0];
          var store := Get(o, Store) != Bool(false);
          var trimmed := Get(o, Include).Arr? && |Trimmed(o[Include].elems)| != |o[Include].elems|;
          if !store && BindingCount(o) == 0 && !trimmed && input.value.1 == Zero && body == o then Clean
          else if !c.encodes(Obj(body)) then Refused(SerializationFailed)
          else Changed(body, input.value.1, BindingCount(o), store, trimmed)
  }
}
