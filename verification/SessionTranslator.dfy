/**
 * The batch translator of a drained `session/update` stream (daemon/crates/acp-bridge/src/translator.rs): the second
 * state machine over the same events, used when a conversation is replayed.
 */
module SessionTranslator {
  import opened Prelude
  import opened AcpItems

  datatype TranslatorState = TranslatorState(
    items: seq<Item>, index: map<ItemId, nat>, tools: map<string, ToolCallState>,
    kind: Option<TextKind>, buf: string, plan: Option<seq<string>>, commands: Option<seq<string>>, seqNo: nat)

  datatype TranslatedStream = TranslatedStream(items: seq<Item>, plan: Option<seq<string>>, commands: Option<seq<string>>)

  const EMPTY: TranslatorState := TranslatorState([], map[], map[], None, "", None, None, 0)

  // ----- The steps, on values ----------------------------------------------------------------------------

  function Pushed(s: TranslatorState, item: Item): TranslatorState {
    s.(items := s.items + [item], index := s.index[item.id := |s.items|])
  }

  function Replaced(s: TranslatorState, id: ItemId, item: Item): TranslatorState {
    if id in s.index && s.index[id] < |s.items| then s.(items := s.items[s.index[id] := item]) else Pushed(s, item)
  }

  function Flushed(s: TranslatorState): TranslatorState {
    if s.kind.None? then s
    else
      var cleared := s.(kind := None, buf := "");
      if s.buf == "" then cleared
      else Pushed(cleared, TextItem(s.kind.value, TextId(s.kind.value, s.seqNo), s.buf)).(seqNo := s.seqNo + 1)
  }

  function Appended(s: TranslatorState, kind: TextKind, content: Content): TranslatorState {
    match ClassifyContent(content)
    case NoContribution => s
    case Words(text) =>
      var run := if s.kind != Some(kind) then Flushed(s).(kind := Some(kind)) else s;
      run.(buf := run.buf + text)
    case Standalone(item) => Pushed(Flushed(s), item)
  }

  function UserAdded(s: TranslatorState, content: Content): TranslatorState {
    match ClassifyContent(content)
    case Words(text) =>
      if text == "" then s else Pushed(s, UserItem(UserId(s.seqNo), text)).(seqNo := s.seqNo + 1)
    case _ => s
  }

  function Announced(s: TranslatorState, fields: ToolFields, now: int): TranslatorState {
    var id := CallId(fields);
    if id.None? then s
    else
      var state := FromAnnounce(id.value, fields, now);
      Pushed(s, RenderToolCall(state)).(tools := s.tools[id.value := state])
  }

  function Merged(s: TranslatorState, id: string, fields: ToolFields, now: int): TranslatorState
    requires id in s.tools
  {
    var state := MergeUpdate(s.tools[id], fields, now);
    Replaced(s.(tools := s.tools[id := state]), state.itemId, RenderToolCall(state))
  }

  function CallUpdated(s: TranslatorState, fields: ToolFields, now: int): TranslatorState {
    var id := CallId(fields);
    if id.None? then s
    else Merged(if id.value in s.tools then s else Announced(s, fields, now), id.value, fields, now)
  }

  function Ingested(s: TranslatorState, note: Note): TranslatorState {
    match Relevant(note)
    case None => s
    case Some(UserChunk(content)) => UserAdded(Flushed(s), content)
    case Some(AgentChunk(content)) => Appended(s, AgentMessage, content)
    case Some(ThoughtChunk(content)) => Appended(s, Reasoning, content)
    case Some(ToolCall(fields)) => Announced(Flushed(s), fields, note.now)
    case Some(ToolCallUpdate(fields)) => CallUpdated(Flushed(s), fields, note.now)
    case Some(Plan(entries)) => if entries.Some? then Flushed(s).(plan := entries) else Flushed(s)
    case Some(Commands(commands)) => if commands.Some? then s.(commands := commands) else s
    case Some(Mode(_)) => s
    case Some(OtherUpdate) => s
  }

  function IngestedAll(s: TranslatorState, notes: seq<Note>): TranslatorState {
    if notes == [] then s else Ingested(IngestedAll(s, notes[..|notes| - 1]), notes[|notes| - 1])
  }

  function Result(s: TranslatorState): TranslatedStream {
    var f := Flushed(s);
    TranslatedStream(f.items, f.plan, f.commands)
  }

  /** A whole stream through a new translator. */
  function Translate(notes: seq<Note>): TranslatedStream {
    Result(IngestedAll(EMPTY, notes))
  }

  lemma IngestedAllStep(s: TranslatorState, notes: seq<Note>, note: Note)
    ensures IngestedAll(s, notes + [note]) == Ingested(IngestedAll(s, notes), note)
  {
    assert (notes + [note])[..|notes|] == notes;
  }

  lemma {:induction false} IngestedAllAppend(s: TranslatorState, a: seq<Note>, b: seq<Note>)
    ensures IngestedAll(s, a + b) == IngestedAll(IngestedAll(s, a), b)
  {
    if b == [] {
      assert a + b == a;
    } else {
      assert (a + b)[..|a + b| - 1] == a + b[..|b| - 1];
      IngestedAllAppend(s, a, b[..|b| - 1]);
    }
  }

  // ----- What every run keeps ----------------------------------------------------------------------------

  /** Calls are filed under their own ids, their items are indexed, and nothing is buffered outside a run. */
  ghost predicate Sound(s: TranslatorState) {
    && (forall id | id in s.index :: s.index[id] < |s.items|)
    && (forall k | k in s.tools :: s.tools[k].itemId == ToolId(k) && ToolId(k) in s.index)
    && (s.kind.None? ==> s.buf == "")
  }

  lemma FlushKeepsSound(s: TranslatorState)
    requires Sound(s)
    ensures Sound(Flushed(s)) && Flushed(s).kind.None?
  {
  }

  lemma PushKeepsSound(s: TranslatorState, item: Item)
    requires Sound(s)
    ensures Sound(Pushed(s, item))
  {
  }

  lemma IngestKeepsSound(s: TranslatorState, note: Note)
    requires Sound(s)
    ensures Sound(Ingested(s, note))
  {
    hide ClassifyContent, Flushed, Pushed, Announced, CallUpdated;
    FlushKeepsSound(s);
    match Relevant(note)
    case Some(AgentChunk(content)) => AppendKeepsSound(s, AgentMessage, content);
    case Some(ThoughtChunk(content)) => AppendKeepsSound(s, Reasoning, content);
    case Some(UserChunk(content)) =>
      if ClassifyContent(content).Words? {
        PushKeepsSound(Flushed(s), UserItem(UserId(Flushed(s).seqNo), ClassifyContent(content).text));
      }
    case Some(ToolCall(fields)) => AnnounceKeepsSound(Flushed(s), fields, note.now);
    case Some(ToolCallUpdate(fields)) => UpdateKeepsSound(Flushed(s), fields, note.now);
    case _ =>
  }

  lemma AppendKeepsSound(s: TranslatorState, kind: TextKind, content: Content)
    requires Sound(s)
    ensures Sound(Appended(s, kind, content))
  {
    hide ClassifyContent, Flushed, Pushed;
    FlushKeepsSound(s);
    if ClassifyContent(content).Standalone? {
      PushKeepsSound(Flushed(s), ClassifyContent(content).item);
    }
  }

  lemma AnnounceKeepsSound(s: TranslatorState, fields: ToolFields, now: int)
    requires Sound(s)
    ensures Sound(Announced(s, fields, now))
  {
    hide RenderToolCall;
    if CallId(fields).Some? {
      RenderedCall(FromAnnounce(CallId(fields).value, fields, now));
    }
  }

  lemma UpdateKeepsSound(s: TranslatorState, fields: ToolFields, now: int)
    requires Sound(s)
    ensures Sound(CallUpdated(s, fields, now))
  {
    hide RenderToolCall;
    AnnounceKeepsSound(s, fields, now);
  }

  lemma {:induction false} RunSound(notes: seq<Note>)
    ensures Sound(IngestedAll(EMPTY, notes))
  {
    if notes != [] {
      RunSound(notes[..|notes| - 1]);
      IngestKeepsSound(IngestedAll(EMPTY, notes[..|notes| - 1]), notes[|notes| - 1]);
    }
  }

  /** The translator knows exactly the calls that some event named. */
  lemma {:induction false} KnownCallsAreNamed(notes: seq<Note>, id: string)
    ensures id in IngestedAll(EMPTY, notes).tools <==> Mentions(notes, id)
  {
    if notes != [] {
      hide Ingested, Mentions;
      var before, note := notes[..|notes| - 1], notes[|notes| - 1];
      assert notes == before + [note];
      KnownCallsAreNamed(before, id);
      MentionsAppend(before, note, id);
      IngestLearns(IngestedAll(EMPTY, before), note, id);
    }
  }

  lemma FlushKeepsTools(s: TranslatorState)
    ensures Flushed(s).tools == s.tools
  {
  }

  lemma AppendKeepsTools(s: TranslatorState, kind: TextKind, content: Content)
    ensures Appended(s, kind, content).tools == s.tools
  {
    hide ClassifyContent, Flushed;
    FlushKeepsTools(s);
  }

  lemma CallLearned(s: TranslatorState, fields: ToolFields, now: int, id: string)
    ensures id in Announced(s, fields, now).tools <==> id in s.tools || CallId(fields) == Some(id)
    ensures id in CallUpdated(s, fields, now).tools <==> id in s.tools || CallId(fields) == Some(id)
  {
    hide RenderToolCall;
  }

  lemma IngestLearns(s: TranslatorState, note: Note, id: string)
    ensures id in Ingested(s, note).tools <==> id in s.tools || Names(note, id)
  {
    hide ClassifyContent, Flushed, Appended, Announced, CallUpdated;
    FlushKeepsTools(s);
    match Relevant(note)
    case Some(AgentChunk(content)) => AppendKeepsTools(s, AgentMessage, content);
    case Some(ThoughtChunk(content)) => AppendKeepsTools(s, Reasoning, content);
    case Some(ToolCall(fields)) => CallLearned(Flushed(s), fields, note.now, id);
    case Some(ToolCallUpdate(fields)) => CallLearned(Flushed(s), fields, note.now, id);
    case _ =>
  }

  // ----- What the index finds ----------------------------------------------------------------------------

  /** The index finds the last item of each id, every item is indexed, and a call's item is its current rendering. */
  ghost predicate Indexed(s: TranslatorState) {
    && (forall id | id in s.index :: s.index[id] < |s.items| && s.items[s.index[id]].id == id)
    && (forall i | 0 <= i < |s.items| :: s.items[i].id in s.index && i <= s.index[s.items[i].id])
    && (forall k | k in s.tools :: ToolId(k) in s.index && s.items[s.index[ToolId(k)]] == RenderToolCall(s.tools[k]))
    && (forall k | k in s.tools :: s.tools[k].itemId == ToolId(k))
    && (forall k | ToolId(k) in s.index :: k in s.tools)
  }

  lemma PushKeepsIndexed(s: TranslatorState, item: Item)
    requires Indexed(s) && !item.id.ToolId?
    ensures Indexed(Pushed(s, item))
  {
    hide RenderToolCall;
  }

  lemma FlushKeepsIndexed(s: TranslatorState)
    requires Indexed(s)
    ensures Indexed(Flushed(s))
  {
    hide RenderToolCall, Indexed;
    if s.kind.Some? && s.buf != "" {
      ShowsTheSame(s, s.(kind := None, buf := ""));
      PushKeepsIndexed(s.(kind := None, buf := ""), TextItem(s.kind.value, TextId(s.kind.value, s.seqNo), s.buf));
    }
    ShowsTheSame(s, s.(kind := None, buf := ""));
    if s.kind.Some? && s.buf != "" {
      var f := Flushed(s);
      ShowsTheSame(f.(seqNo := s.seqNo), f);
    }
  }

  lemma ShowsTheSame(s: TranslatorState, t: TranslatorState)
    requires Indexed(s) && s.items == t.items && s.index == t.index && s.tools == t.tools
    ensures Indexed(t)
  {
    hide RenderToolCall;
  }

  lemma AppendKeepsIndexed(s: TranslatorState, kind: TextKind, content: Content)
    requires Indexed(s)
    ensures Indexed(Appended(s, kind, content))
  {
    hide Flushed, Indexed, Pushed;
    FlushKeepsIndexed(s);
    if ClassifyContent(content).Standalone? {
      PushKeepsIndexed(Flushed(s), ClassifyContent(content).item);
    } else if ClassifyContent(content).Words? {
      ShowsTheSame(if s.kind != Some(kind) then Flushed(s) else s, Appended(s, kind, content));
    }
  }

  lemma UserKeepsIndexed(s: TranslatorState, content: Content)
    requires Indexed(s)
    ensures Indexed(UserAdded(s, content))
  {
    hide ClassifyContent, Indexed, Pushed;
    if ClassifyContent(content).Words? && ClassifyContent(content).text != "" {
      var pushed := Pushed(s, UserItem(UserId(s.seqNo), ClassifyContent(content).text));
      PushKeepsIndexed(s, UserItem(UserId(s.seqNo), ClassifyContent(content).text));
      ShowsTheSame(pushed, pushed.(seqNo := s.seqNo + 1));
    }
  }

  lemma AnnounceKeepsIndexed(s: TranslatorState, fields: ToolFields, now: int)
    requires Indexed(s)
    ensures Indexed(Announced(s, fields, now))
  {
    hide RenderToolCall;
    if CallId(fields).Some? {
      RenderedCall(FromAnnounce(CallId(fields).value, fields, now));
    }
  }

  lemma MergeKeepsIndexed(s: TranslatorState, id: string, fields: ToolFields, now: int)
    requires Indexed(s) && id in s.tools
    ensures Indexed(Merged(s, id, fields, now))
  {
    hide RenderToolCall;
    RenderedCall(MergeUpdate(s.tools[id], fields, now));
  }

  lemma IngestKeepsIndexed(s: TranslatorState, note: Note)
    requires Indexed(s)
    ensures Indexed(Ingested(s, note))
  {
    hide Indexed, Flushed, Appended, UserAdded, Announced, Merged;
    FlushKeepsIndexed(s);
    var f := Flushed(s);
    match Relevant(note)
    case Some(UserChunk(content)) => UserKeepsIndexed(f, content);
    case Some(AgentChunk(content)) => AppendKeepsIndexed(s, AgentMessage, content);
    case Some(ThoughtChunk(content)) => AppendKeepsIndexed(s, Reasoning, content);
    case Some(ToolCall(fields)) => AnnounceKeepsIndexed(f, fields, note.now);
    case Some(ToolCallUpdate(fields)) =>
      if id :| CallId(fields) == Some(id) {
        AnnounceKeepsIndexed(f, fields, note.now);
        AnnouncedIsKnown(f, fields, note.now);
        MergeKeepsIndexed(if id in f.tools then f else Announced(f, fields, note.now), id, fields, note.now);
      }
    case Some(Plan(entries)) =>
      if entries.Some? {
        ShowsTheSame(f, f.(plan := entries));
      }
    case Some(Commands(commands)) =>
      if commands.Some? {
        ShowsTheSame(s, s.(commands := commands));
      }
    case _ =>
  }

  lemma AnnouncedIsKnown(s: TranslatorState, fields: ToolFields, now: int)
    requires CallId(fields).Some?
    ensures CallId(fields).value in Announced(s, fields, now).tools
  {
  }

  lemma NothingIndexed()
    ensures Indexed(EMPTY)
  {
  }

  /** In every reachable state the index, the items and the calls agree. */
  lemma {:induction false} RunIndexed(notes: seq<Note>)
    ensures Sound(IngestedAll(EMPTY, notes)) && Indexed(IngestedAll(EMPTY, notes))
  {
    hide Indexed, Ingested;
    RunSound(notes);
    if notes == [] {
      NothingIndexed();
    } else {
      RunIndexed(notes[..|notes| - 1]);
      IngestKeepsIndexed(IngestedAll(EMPTY, notes[..|notes| - 1]), notes[|notes| - 1]);
    }
  }

  // ----- When anything is stored ---------------------------------------------------------------------------

  /** An event that leaves an item: words, an image, or a call with an id. */
  predicate Stores(note: Note) {
    match Relevant(note)
    case Some(UserChunk(content)) => ClassifyContent(content).Words? && ClassifyContent(content).text != ""
    case Some(AgentChunk(content)) => ClassifyContent(content) !in {NoContribution, Words("")}
    case Some(ThoughtChunk(content)) => ClassifyContent(content) !in {NoContribution, Words("")}
    case Some(ToolCall(fields)) => CallId(fields).Some?
    case Some(ToolCallUpdate(fields)) => CallId(fields).Some?
    case _ => false
  }

  lemma AppendStores(s: TranslatorState, kind: TextKind, content: Content)
    requires Sound(s)
    ensures Flushed(Appended(s, kind, content)).items != []
       <==> Flushed(s).items != [] || ClassifyContent(content) !in {NoContribution, Words("")}
  {
    hide ClassifyContent, TextItem;
    match ClassifyContent(content)
    case NoContribution =>
    case Words(text) => assert text == "" || s.buf + text != "";
    case Standalone(item) =>
      hide Flushed;
      FlushKeepsSound(s);
      NothingToFlush(Pushed(Flushed(s), item));
  }

  lemma CallStores(s: TranslatorState, fields: ToolFields, now: int)
    ensures Announced(s, fields, now).kind == s.kind && CallUpdated(s, fields, now).kind == s.kind
    ensures Announced(s, fields, now).items != [] <==> s.items != [] || CallId(fields).Some?
    ensures CallUpdated(s, fields, now).items != [] <==> s.items != [] || CallId(fields).Some?
  {
    hide RenderToolCall;
  }

  lemma NothingToFlush(s: TranslatorState)
    requires s.kind.None?
    ensures Flushed(s) == s
  {
  }

  lemma IngestStores(s: TranslatorState, note: Note)
    requires Sound(s)
    ensures Flushed(Ingested(s, note)).items != [] <==> Flushed(s).items != [] || Stores(note)
  {
    hide ClassifyContent, Flushed, Appended, Announced, CallUpdated;
    var f := Flushed(s);
    FlushKeepsSound(s);
    NothingToFlush(f);
    match Relevant(note)
    case Some(UserChunk(content)) => NothingToFlush(UserAdded(f, content));
    case Some(AgentChunk(content)) => AppendStores(s, AgentMessage, content);
    case Some(ThoughtChunk(content)) => AppendStores(s, Reasoning, content);
    case Some(ToolCall(fields)) =>
      CallStores(f, fields, note.now);
      NothingToFlush(Announced(f, fields, note.now));
    case Some(ToolCallUpdate(fields)) =>
      CallStores(f, fields, note.now);
      NothingToFlush(CallUpdated(f, fields, note.now));
    case Some(Plan(entries)) => NothingToFlush(Ingested(s, note));
    case Some(Commands(_)) => FlushIgnores(s, Ingested(s, note));
    case _ =>
  }

  lemma FlushIgnores(s: TranslatorState, t: TranslatorState)
    requires s.items == t.items && s.kind == t.kind && s.buf == t.buf
    ensures Flushed(s).items == [] <==> Flushed(t).items == []
  {
  }

  /** A stream translates to nothing exactly when none of its events leaves an item. */
  lemma {:induction false} TranslatesToSomething(notes: seq<Note>)
    ensures Translate(notes).items != [] <==> exists i | 0 <= i < |notes| :: Stores(notes[i])
  {
    hide Ingested, Flushed, Stores, Sound;
    if notes == [] {
      NothingFlushed();
    } else {
      var before, note := notes[..|notes| - 1], notes[|notes| - 1];
      TranslatesToSomething(before);
      RunSound(before);
      IngestStores(IngestedAll(EMPTY, before), note);
      if i :| 0 <= i < |before| && Stores(before[i]) {
        assert Stores(notes[i]);
      }
      if i :| 0 <= i < |notes| && Stores(notes[i]) {
        assert i < |before| ==> Stores(before[i]);
      }
    }
  }

  lemma NothingFlushed()
    ensures Flushed(EMPTY).items == []
  {
  }

  // ----- The object --------------------------------------------------------------------------------------

  class SessionUpdateTranslator {
    var items: seq<Item>
    var itemIndex: map<ItemId, nat>
    var toolCalls: map<string, ToolCallState>
    var textKind: Option<TextKind>
    var textBuf: string
    var planEntries: Option<seq<string>>
    var availableCommands: Option<seq<string>>
    var seqNo: nat

    ghost function State(): TranslatorState
      reads this
    {
      TranslatorState(items, itemIndex, toolCalls, textKind, textBuf, planEntries, availableCommands, seqNo)
    }

    ghost predicate Valid()
      reads this
    {
      forall id | id in itemIndex :: itemIndex[id] < |items|
    }

    constructor ()
      ensures Valid() && State() == EMPTY
    {
      items, itemIndex, toolCalls := [], map[], map[];
      textKind, textBuf, planEntries, availableCommands, seqNo := None, "", None, None, 0;
    }

    method Ingest(note: Note)
      requires Valid()
      modifies this
      ensures Valid() && State() == Ingested(old(State()), note)
    {
      hide ClassifyContent, Flushed, Appended, Announced, Merged, RenderToolCall;
      if !note.sessionUpdate || note.update.None? {
        return;
      }
      match note.update.value {
        case UserChunk(content) =>
          FlushText();
          var contribution := ClassifyContent(content);
          var text := if contribution.Words? then contribution.text else "";
          if text != "" {
            var id := UserId(seqNo);
            seqNo := seqNo + 1;
            PushItem(UserItem(id, text));
          }
        case AgentChunk(content) => AppendText(AgentMessage, content);
        case ThoughtChunk(content) => AppendText(Reasoning, content);
        case ToolCall(fields) =>
          FlushText();
          HandleToolCall(fields, note.now);
        case ToolCallUpdate(fields) =>
          FlushText();
          HandleToolCallUpdate(fields, note.now);
        case Plan(entries) =>
          FlushText();
          if entries.Some? { planEntries := entries; }
        case Commands(commands) =>
          if commands.Some? { availableCommands := commands; }
        case Mode(_) =>
        case OtherUpdate =>
      }
    }

    method Finish() returns (result: TranslatedStream)
      requires Valid()
      modifies this
      ensures Valid() && State() == Flushed(old(State())) && result == Result(old(State()))
    {
      FlushText();
      result := TranslatedStream(items, planEntries, availableCommands);
    }

    method AppendText(kind: TextKind, content: Content)
      requires Valid()
      modifies this
      ensures Valid() && State() == Appended(old(State()), kind, content)
    {
      match ClassifyContent(content) {
        case NoContribution =>
        case Words(text) =>
          if textKind != Some(kind) {
            FlushText();
            textKind := Some(kind);
          }
          if text != "" {
            textBuf := textBuf + text;
          } else {
            assert textBuf + text == textBuf;
          }
        case Standalone(item) =>
          FlushText();
          PushItem(item);
      }
    }

    method FlushText()
      requires Valid()
      modifies this
      ensures Valid() && State() == Flushed(old(State()))
    {
      if textKind.None? {
        return;
      }
      var kind, buf := textKind.value, textBuf;
      textKind, textBuf := None, "";
      if buf == "" {
        return;
      }
      var id := match kind case AgentMessage => AgentId(seqNo) case Reasoning => ReasoningId(seqNo);
      seqNo := seqNo + 1;
      PushItem(match kind case AgentMessage => AgentItem(id, buf) case Reasoning => ReasoningItem(id, [buf]));
    }

    method HandleToolCall(fields: ToolFields, now: int)
      requires Valid()
      modifies this
      ensures Valid() && State() == Announced(old(State()), fields, now)
    {
      var id := CallId(fields);
      if id.None? {
        return;
      }
      var state := FromAnnounce(id.value, fields, now);
      PushItem(RenderToolCall(state));
      toolCalls := toolCalls[id.value := state];
    }

    method HandleToolCallUpdate(fields: ToolFields, now: int)
      requires Valid()
      modifies this
      ensures Valid() && State() == CallUpdated(old(State()), fields, now)
    {
      var id := CallId(fields);
      if id.None? {
        return;
      }
      if id.value !in toolCalls {
        HandleToolCall(fields, now);
      }
      var state := MergeUpdate(toolCalls[id.value], fields, now);
      toolCalls := toolCalls[id.value := state];
      ReplaceItem(state.itemId, RenderToolCall(state));
    }

    method PushItem(item: Item)
      requires Valid()
      modifies `items, `itemIndex
      ensures Valid() && State() == Pushed(old(State()), item)
    {
      itemIndex := itemIndex[item.id := |items|];
      items := items + [item];
    }

    method ReplaceItem(id: ItemId, item: Item)
      requires Valid()
      modifies `items, `itemIndex
      ensures Valid() && State() == Replaced(old(State()), id, item)
    {
      if id in itemIndex {
        items := items[itemIndex[id] := item];
      } else {
        PushItem(item);
      }
    }
  }
}
