/** JSON values as the replay code sees them. Object keys and the words that the protocol gives a
    meaning are enumerated; every other key or text is kept as it is. A word is always represented
    by its own constructor, never as a text. */
module Json {


  datatype Word =
    // item types
    | MessageType | AgentMessageType | AdditionalToolsType | ReasoningType | ItemReferenceType | CompactionType
    | ContextCompactionType | WebSearchCall | ToolSearchCall | ToolSearchOutput | ImageGenerationCall | LocalShellCall
    | FunctionCall | FunctionCallOutput | CustomToolCall | CustomToolCallOutput | CompactionTrigger
    // recognized item types without a portable form
    | ApplyPatchCall | ApplyPatchCallOutput | CodeInterpreterCall | ComputerCall | ComputerCallOutput | FileSearchCall
    | LocalShellCallOutput | McpApprovalRequest | McpApprovalResponse | McpCall | McpListTools | Program | ProgramOutput
    | ShellCall | ShellCallOutput
    // content block types
    | InputText | OutputText | RefusalBlock | EncryptedContentBlock | InputImage
    // roles, phases, statuses and other values
    | User | Assistant | Developer | System
    | Commentary | FinalAnswer
    | Completed | InProgress | Incomplete
    | Exec | Explicit | Direct | Low | High | Auto | Original
    | ReasoningEncryptedContent | ToolDelivery
    | OpaqueContentMarker | EmptyToolOutputMarker

  datatype Str = Known(word: Word) | Text(text: string)

  datatype Field =
    | Type | Id | Status | Role | Content | Phase | Name | Passthrough | Author | Recipient | EncryptedContent
    | CallId | Arguments | Input | Namespace | Caller | EncryptedFunctionArgs | Output | Tools | Action
    | Command | TimeoutMs | WorkingDirectory | Env | UserField
    | TextField | Annotations | Logprobs | PromptCacheBreakpoint | Mode | Refusal | ImageUrl | Detail | CallerId
    | Store | PreviousResponseId | Conversation | PromptCacheKey | Include
    | OtherField(name: string)

  type Item = map<Field, Json>

  datatype Json =
    | Null
    | Bool(b: bool)
    | Int(n: int)
    | Float(r: real)
    | JStr(s: Str)
    | Arr(elems: seq<Json>)
    | Obj(fields: Item)

  /** The value of a key, where a missing key reads as null. */
  function Get(item: Item, f: Field): Json {
    if f in item then item[f] else Null
  }

  predicate Empty(s: Str) {
    s == Text("")
  }

  predicate NonEmptyText(v: Json) {
    v.JStr? && !Empty(v.s)
  }

  predicate Is(v: Json, w: Word) {
    v == JStr(Known(w))
  }

  function W(w: Word): Json {
    JStr(Known(w))
  }

  /** A value that a Python set membership test cannot hash. */
  predicate Unhashable(v: Json) {
    v.Arr? || v.Obj?
  }

  /** What the replay code takes from libraries: whether an image reference can be replayed, the
      compact text of an object, joining texts, putting a header line before a text, whether a body
      can be encoded, and its encoded length with and without escaping. */
  datatype Codec = Codec(
    replayable: Json -> bool,
    dumps: Item -> Str,
    join: seq<Str> -> Str,
    headed: (Str, Str) -> Str,
    encodes: Json -> bool,
    size: Json -> nat,
    asciiSize: Json -> nat)

  /** Joining texts gives the empty text exactly when every part is empty; a header line is never
      empty; an encoded object has at least its braces. */
  ghost predicate CodecOk(c: Codec) {
    && (forall parts: seq<Str> :: Empty(c.join(parts)) <==> forall i :: 0 <= i < |parts| ==> Empty(parts[i]))
    && (forall h: Str, t: Str :: !Empty(c.headed(h, t)))
    && (forall o: Item :: c.asciiSize(Obj(o)) >= 2)
  }
}
