/**
 * The `session/update` events of the Agent Client Protocol as the bridge reads them, the codex items they
 * become, and the rendering of one tool call (daemon/crates/acp-bridge/src/translator.rs).
 *
 * A JSON field read with `get(..).and_then(as_str)` is an `Option<string>`: absent and ill-typed are one case,
 * as they are in the code.
 */
module AcpItems {
  import opened Prelude

  // ----- Item identifiers --------------------------------------------------------------------------------

  datatype ItemId =
    | AgentId(n: nat)
    | ReasoningId(n: nat)
    | UserId(n: nat)
    | ToolId(callId: string)
    | ImageId(uuid: string)

  /** The identifier as the wire carries it. */
  function IdText(id: ItemId): string {
    match id
    case AgentId(n) => "acp-agent-" + Decimal(n)
    case ReasoningId(n) => "acp-reasoning-" + Decimal(n)
    case UserId(n) => "acp-user-" + Decimal(n)
    case ToolId(callId) => "acp-tool-" + callId
    case ImageId(uuid) => "acp-image-" + uuid
  }

  /** The five prefixes never collide, so two items share a wire id only when they share an identifier. */
  lemma IdTextInjective(a: ItemId, b: ItemId)
    requires IdText(a) == IdText(b)
    ensures a == b
  {
    assert IdText(a)[4] == IdText(b)[4];
    match (a, b)
    case (AgentId(m), AgentId(n)) => PrefixCancels("acp-agent-", Decimal(m), Decimal(n)); DecimalInjective(m, n);
    case (ReasoningId(m), ReasoningId(n)) =>
      PrefixCancels("acp-reasoning-", Decimal(m), Decimal(n)); DecimalInjective(m, n);
    case (UserId(m), UserId(n)) => PrefixCancels("acp-user-", Decimal(m), Decimal(n)); DecimalInjective(m, n);
    case (ToolId(s), ToolId(t)) => PrefixCancels("acp-tool-", s, t);
    case (ImageId(s), ImageId(t)) => PrefixCancels("acp-image-", s, t);
    case (AgentId(_), _) =>
    case (ReasoningId(_), _) =>
    case (UserId(_), _) =>
    case (ToolId(_), _) =>
    case (ImageId(_), _) =>
  }

  // ----- Inbound events ----------------------------------------------------------------------------------

  datatype TextKind = AgentMessage | Reasoning

  /** A nested `resource` object of a content block. */
  datatype Resource = Resource(text: Option<string>, uri: Option<string>)

  /** The `content` of a text chunk. `imageFile` is what writing the decoded image would return. */
  datatype Content =
    | NoContent
    | StringContent(s: string)
    | BlockContent(blockType: Option<string>, text: Option<string>, uri: Option<string>, mime: Option<string>,
                   data: Option<string>, resource: Option<Resource>, imageFile: Option<string>, uuid: string)

  /** The `content` object inside one block of a tool call. */
  datatype Inner = Inner(innerType: Option<string>, text: Option<string>, uri: Option<string>,
                         data: Option<string>, mime: Option<string>, resource: Option<Resource>)

  /** One block of a tool call's `content` array. */
  datatype Block = Block(blockType: Option<string>, inner: Option<Inner>, terminalId: Option<string>,
                         path: Option<string>, oldText: Option<string>, newText: Option<string>)

  /** `rawInput`: its two readable keys and the rest of the value. */
  datatype RawInput = NullInput | RawInput(command: Option<string>, cwd: Option<string>, json: string)

  datatype IntField = Missing | NotInteger | Integer(n: int)

  /** `rawOutput`: the two spellings of the exit code. */
  datatype RawOutput = RawOutput(exitCode: IntField, exit_code: IntField)

  /** The fields of a `tool_call` or `tool_call_update`; every one may be absent. */
  datatype ToolFields = ToolFields(
    toolCallId: Option<string>, kind: Option<string>, title: Option<string>, status: Option<string>,
    content: Option<seq<Block>>, locations: Option<seq<Option<string>>>,
    rawInput: Option<RawInput>, rawOutput: Option<RawOutput>)

  datatype Update =
    | AgentChunk(content: Content)
    | ThoughtChunk(content: Content)
    | UserChunk(content: Content)
    | ToolCall(fields: ToolFields)
    | ToolCallUpdate(fields: ToolFields)
    | Plan(entries: Option<seq<string>>)
    | Commands(commands: Option<seq<string>>)
    | Mode(modeId: Option<string>)
    | OtherUpdate

  /** One inbound frame with the clock reading at which it is processed. */
  datatype Note = Note(sessionUpdate: bool, update: Option<Update>, now: int)

  /** The frame's update, when the bridge looks at it at all. */
  function Relevant(note: Note): Option<Update> {
    if note.sessionUpdate then note.update else None
  }

  /** A frame of plain words. */
  function Chunk(kind: TextKind, text: string, now: int): Note {
    Note(true, Some(match kind
                    case AgentMessage => AgentChunk(StringContent(text))
                    case Reasoning => ThoughtChunk(StringContent(text))), now)
  }

  /** The tool call a frame names; an empty or absent id is ignored. */
  function CallId(fields: ToolFields): Option<string> {
    if fields.toolCallId.Some? && fields.toolCallId.value != "" then fields.toolCallId else None
  }

  /** The frame announces or updates the call `id`. */
  predicate Names(note: Note, id: string) {
    match Relevant(note)
    case Some(ToolCall(fields)) => CallId(fields) == Some(id)
    case Some(ToolCallUpdate(fields)) => CallId(fields) == Some(id)
    case _ => false
  }

  /** Some event names the call. */
  predicate Mentions(notes: seq<Note>, id: string) {
    exists i | 0 <= i < |notes| :: Names(notes[i], id)
  }

  lemma MentionsAppend(notes: seq<Note>, note: Note, id: string)
    ensures Mentions(notes + [note], id) <==> Mentions(notes, id) || Names(note, id)
  {
    var all := notes + [note];
    if Mentions(notes, id) {
      var i :| 0 <= i < |notes| && Names(notes[i], id);
      assert Names(all[i], id);
    }
    if Names(note, id) {
      assert Names(all[|notes|], id);
    }
  }

  // ----- Outbound items ----------------------------------------------------------------------------------

  datatype ChangeKind = Added | Deleted | Updated

  /** One file change; the unified diff is a function of the three texts. */
  datatype Change = Change(path: string, kind: ChangeKind, oldText: string, newText: string)

  datatype OutputItem = InputText(text: string) | InputImage(url: string)

  datatype CallStatus = InProgress | Completed | Failed

  datatype Item =
    | AgentItem(id: ItemId, text: string)
    | ReasoningItem(id: ItemId, content: seq<string>)
    | UserItem(id: ItemId, text: string)
    | ImageItem(id: ItemId, path: string)
    | FileChangeItem(id: ItemId, changes: seq<Change>, status: CallStatus)
    | CommandItem(id: ItemId, command: string, cwd: string, status: CallStatus,
                  aggregatedOutput: Option<string>, exitCode: Option<int>, durationMs: Option<int>)
    | DynamicToolItem(id: ItemId, tool: string, arguments: RawInput, status: CallStatus,
                      contentItems: seq<OutputItem>, success: Option<bool>, durationMs: Option<int>)

  /** The item of a finished text run. */
  function TextItem(kind: TextKind, id: ItemId, text: string): Item {
    match kind
    case AgentMessage => AgentItem(id, text)
    case Reasoning => ReasoningItem(id, [text])
  }

  function TextId(kind: TextKind, n: nat): ItemId {
    match kind
    case AgentMessage => AgentId(n)
    case Reasoning => ReasoningId(n)
  }

  // ----- Tool call state ---------------------------------------------------------------------------------

  datatype ToolCallState = ToolCallState(
    itemId: ItemId, kind: string, title: string, status: string, content: seq<Block>,
    locations: seq<Option<string>>, rawInput: RawInput, rawOutput: Option<RawOutput>,
    startedAtMs: int, completedAtMs: Option<int>)

  predicate Terminal(status: string) {
    status == "completed" || status == "failed"
  }

  function FromAnnounce(callId: string, fields: ToolFields, now: int): ToolCallState {
    ToolCallState(ToolId(callId), Or(fields.kind, "other"), Or(fields.title, ""), Or(fields.status, "pending"),
                  Or(fields.content, []), Or(fields.locations, []), Or(fields.rawInput, NullInput),
                  fields.rawOutput, now, None)
  }

  /** Only fields that are set change; content and locations accumulate. */
  function MergeUpdate(state: ToolCallState, fields: ToolFields, now: int): ToolCallState {
    state.(kind := Or(fields.kind, state.kind),
           title := Or(fields.title, state.title),
           status := Or(fields.status, state.status),
           completedAtMs := if fields.status.Some? && Terminal(fields.status.value) && state.completedAtMs.None?
                            then Some(now) else state.completedAtMs,
           content := state.content + Or(fields.content, []),
           locations := state.locations + Or(fields.locations, []),
           rawInput := Or(fields.rawInput, state.rawInput),
           rawOutput := if fields.rawOutput.Some? then fields.rawOutput else state.rawOutput)
  }

  // ----- Rendering ---------------------------------------------------------------------------------------

  const I64_MIN: int := -0x8000_0000_0000_0000
  const I64_MAX: int := 0x7fff_ffff_ffff_ffff

  function SaturatingSub(a: int, b: int): int {
    if a - b < I64_MIN then I64_MIN else if a - b > I64_MAX then I64_MAX else a - b
  }

  /** `v as i32`: the low 32 bits, read as a signed number. */
  function AsI32(v: int): int {
    (v + 0x8000_0000) % 0x1_0000_0000 - 0x8000_0000
  }

  function MapStatus(status: string): CallStatus {
    if status == "completed" then Completed else if status == "failed" then Failed else InProgress
  }

  function DiffBlocks(content: seq<Block>): seq<Block> {
    if content == [] then []
    else (if content[0].blockType == Some("diff") then [content[0]] else []) + DiffBlocks(content[1..])
  }

  function ChangeOf(block: Block): Change {
    var oldText, newText := Or(block.oldText, ""), Or(block.newText, "");
    Change(Or(block.path, ""), if oldText == "" then Added else if newText == "" then Deleted else Updated,
           oldText, newText)
  }

  /** The text one block adds to a command's aggregated output. */
  function OutputPiece(block: Block): string {
    if block.blockType == Some("content") then
      if block.inner.Some? then Or(block.inner.value.text, "") else ""
    else if block.blockType == Some("terminal") then
      if block.terminalId.Some? then "[terminal:" + block.terminalId.value + "]" else ""
    else ""
  }

  function OutputText(content: seq<Block>): string {
    if content == [] then "" else OutputPiece(content[0]) + OutputText(content[1..])
  }

  function AggregateTextOutput(content: seq<Block>): Option<string> {
    if OutputText(content) == "" then None else Some(OutputText(content))
  }

  function NonEmpty(text: Option<string>): Option<string> {
    if text == Some("") then None else text
  }

  function CommandFromContent(content: seq<Block>): Option<string> {
    if content == [] then None
    else if content[0].inner.None? then CommandFromContent(content[1..])
    else
      var inner := content[0].inner.value;
      if NonEmpty(inner.text).Some? then inner.text
      else if inner.resource.Some? && NonEmpty(inner.resource.value.text).Some? then inner.resource.value.text
      else CommandFromContent(content[1..])
  }

  function InnerItems(inner: Inner): seq<OutputItem> {
    if inner.innerType == Some("text") then
      if inner.text.Some? then [InputText(inner.text.value)] else []
    else if inner.innerType == Some("image") then
      if inner.uri.Some? then [InputImage(inner.uri.value)]
      else if inner.data.Some? then
        [InputImage("data:" + Or(inner.mime, "image/png") + ";base64," + inner.data.value)]
      else []
    else if inner.innerType == Some("resource") then
      if inner.resource.Some? && inner.resource.value.text.Some? then [InputText(inner.resource.value.text.value)]
      else []
    else []
  }

  function OutputItems(content: seq<Block>): seq<OutputItem> {
    if content == [] then []
    else
      var block := content[0];
      (if block.blockType == Some("content") then
         if block.inner.Some? then InnerItems(block.inner.value) else []
       else if block.blockType == Some("terminal") then
         if block.terminalId.Some? then [InputText("[terminal:" + block.terminalId.value + "]")] else []
       else []) + OutputItems(content[1..])
  }

  function ExitCode(rawOutput: Option<RawOutput>): Option<int> {
    if rawOutput.None? then None
    else
      var field := if rawOutput.value.exitCode != Missing then rawOutput.value.exitCode else rawOutput.value.exit_code;
      if field.Integer? then Some(AsI32(field.n)) else None
  }

  function Command(state: ToolCallState): string {
    if state.rawInput.RawInput? && state.rawInput.command.Some? then state.rawInput.command.value
    else Or(CommandFromContent(state.content), state.title)
  }

  function Cwd(state: ToolCallState): string {
    if state.rawInput.RawInput? && state.rawInput.cwd.Some? then state.rawInput.cwd.value
    else if state.locations != [] then Or(state.locations[0], "")
    else ""
  }

  /** A tool call as a codex item: a file change, a command execution, or the generic tool item. */
  function RenderToolCall(state: ToolCallState): Item {
    var status := MapStatus(state.status);
    var durationMs :=
      if state.completedAtMs.Some? then Some(SaturatingSub(state.completedAtMs.value, state.startedAtMs)) else None;
    var diffs := DiffBlocks(state.content);
    if state.kind == "edit" || diffs != [] then
      FileChangeItem(state.itemId, seq(|diffs|, i requires 0 <= i < |diffs| => ChangeOf(diffs[i])), status)
    else if state.kind == "execute" then
      CommandItem(state.itemId, Command(state), Cwd(state), status, AggregateTextOutput(state.content),
                  ExitCode(state.rawOutput), durationMs)
    else
      DynamicToolItem(state.itemId, if state.title != "" then state.title else state.kind, state.rawInput, status,
                      OutputItems(state.content),
                      match status case Completed => Some(true) case Failed => Some(false) case InProgress => None,
                      durationMs)
  }

  predicate CallItem(item: Item) {
    item.FileChangeItem? || item.CommandItem? || item.DynamicToolItem?
  }

  /** A rendered call keeps its identifier, is never a text item and shows exactly a terminal status. */
  lemma RenderedCall(state: ToolCallState)
    ensures var item := RenderToolCall(state);
            && item.id == state.itemId
            && CallItem(item)
            && (item.status != InProgress <==> Terminal(state.status))
  {
  }

  lemma {:induction false} OutputTextAppend(a: seq<Block>, b: seq<Block>)
    ensures OutputText(a + b) == OutputText(a) + OutputText(b)
  {
    if a == [] {
      assert a + b == b;
    } else {
      assert (a + b)[1..] == a[1..] + b;
      OutputTextAppend(a[1..], b);
    }
  }

  /** A command's output only grows: an update may extend what was shown, never retract it. */
  lemma OutputOnlyGrows(state: ToolCallState, fields: ToolFields, now: int)
    ensures OutputText(state.content) <= OutputText(MergeUpdate(state, fields, now).content)
  {
    OutputTextAppend(state.content, Or(fields.content, []));
  }

  // ----- Text chunks -------------------------------------------------------------------------------------

  /** The streaming emitter's reading of a chunk: a plain string, else the block's own text. */
  function PluckText(content: Content): string {
    match content
    case NoContent => ""
    case StringContent(s) => s
    case BlockContent(_, text, _, _, _, _, _, _) => Or(text, "")
  }

  datatype Contribution = NoContribution | Words(text: string) | Standalone(item: Item)

  /** The translator's reading of a chunk, by block type. */
  function ClassifyContent(content: Content): Contribution {
    match content
    case NoContent => NoContribution
    case StringContent(s) => Words(s)
    case BlockContent(blockType, text, uri, mime, data, resource, imageFile, uuid) =>
      var kind := Or(blockType, "text");
      if kind == "image" then
        if uri.Some? then Standalone(ImageItem(ImageId(uuid), uri.value))
        else if Or(data, "") == "" then NoContribution
        else if imageFile.Some? then Standalone(ImageItem(ImageId(uuid), imageFile.value))
        else NoContribution
      else if kind == "audio" then Words("[audio: " + Or(mime, "audio") + "]")
      else if kind == "resource" then
        if resource.Some? && resource.value.text.Some? then Words(resource.value.text.value)
        else if resource.Some? && resource.value.uri.Some? then Words(resource.value.uri.value)
        else NoContribution
      else if kind == "resource_link" then
        if uri.Some? then Words(uri.value) else NoContribution
      else if text.Some? then Words(text.value)
      else NoContribution
  }
}
