/**
 * The live turn emitter (daemon/crates/acp-bridge/src/streaming.rs): it turns `session/update` events into
 * item notifications while it builds the item list that is stored for the turn.
 *
 * `TurnStreamEmitter` is the object the bridge updates in place; `EmitterState` is its abstract value, on which
 * the lemmas of this and the following modules are stated.
 */
module TurnStream {
  import opened Prelude
  import opened AcpItems

  datatype TurnRef = TurnRef(threadId: string, turnId: string)

  datatype Notification =
    | ItemStarted(turn: TurnRef, item: Item, startedAtMs: int)
    | ItemCompleted(turn: TurnRef, item: Item, completedAtMs: int)
    | AgentDelta(turn: TurnRef, itemId: ItemId, delta: string)
    | ReasoningDelta(turn: TurnRef, itemId: ItemId, delta: string, contentIndex: nat)

  datatype TextRun = TextRun(kind: TextKind, itemId: ItemId, text: string)

  datatype Inflight = Inflight(state: ToolCallState, completed: bool)

  datatype EmitterState = EmitterState(
    turn: TurnRef, items: seq<Item>, index: map<ItemId, nat>, text: Option<TextRun>, textSeq: nat,
    tools: map<string, Inflight>, plan: Option<seq<string>>, commands: Option<seq<string>>, mode: Option<string>,
    log: seq<Notification>)

  datatype StreamFinish = StreamFinish(
    items: seq<Item>, plan: Option<seq<string>>, commands: Option<seq<string>>, mode: Option<string>)

  function Fresh(turn: TurnRef): EmitterState {
    EmitterState(turn, [], map[], None, 0, map[], None, None, None, [])
  }

  // ----- The steps, on values ----------------------------------------------------------------------------

  function Emit(s: EmitterState, n: Notification): EmitterState {
    s.(log := s.log + [n])
  }

  function ItemPushed(s: EmitterState, item: Item): EmitterState {
    s.(items := s.items + [item], index := s.index[item.id := |s.items|])
  }

  ghost predicate IndexInRange(s: EmitterState) {
    forall id | id in s.index :: s.index[id] < |s.items|
  }

  function ItemReplaced(s: EmitterState, id: ItemId, item: Item): EmitterState {
    if id in s.index && s.index[id] < |s.items| then s.(items := s.items[s.index[id] := item]) else ItemPushed(s, item)
  }

  function TextFlushed(s: EmitterState, now: int): EmitterState {
    if s.text.None? then s
    else
      var item := TextItem(s.text.value.kind, s.text.value.itemId, s.text.value.text);
      Emit(ItemPushed(s.(text := None), item), ItemCompleted(s.turn, item, now))
  }

  /** The empty item that reserves the run's place in the client. */
  function OpenText(s: EmitterState, kind: TextKind, now: int): EmitterState {
    var id := TextId(kind, s.textSeq);
    Emit(s, ItemStarted(s.turn, TextItem(kind, id, ""), now)).(textSeq := s.textSeq + 1, text := Some(TextRun(kind, id, "")))
  }

  function AppendText(s: EmitterState, words: string): EmitterState
    requires s.text.Some?
  {
    var run := s.text.value;
    Emit(s, match run.kind
            case AgentMessage => AgentDelta(s.turn, run.itemId, words)
            case Reasoning => ReasoningDelta(s.turn, run.itemId, words, 0))
      .(text := Some(run.(text := run.text + words)))
  }

  function TextIngested(s: EmitterState, kind: TextKind, content: Content, now: int): EmitterState {
    var words := PluckText(content);
    if words == "" then s
    else
      var closed := if s.text.Some? && s.text.value.kind != kind then TextFlushed(s, now) else s;
      AppendText(if closed.text.None? then OpenText(closed, kind, now) else closed, words)
  }

  function CallAnnounced(s: EmitterState, fields: ToolFields, now: int): EmitterState {
    var id := CallId(fields);
    if id.None? then s
    else
      var state := FromAnnounce(id.value, fields, now);
      var item := RenderToolCall(state);
      ItemPushed(Emit(s, ItemStarted(s.turn, item, state.startedAtMs)), item)
        .(tools := s.tools[id.value := Inflight(state, false)])
  }

  /** The part of an update after the call is known. */
  function CallMerged(s: EmitterState, id: string, fields: ToolFields, now: int): EmitterState
    requires id in s.tools
  {
    var state := MergeUpdate(s.tools[id].state, fields, now);
    var terminal := Terminal(state.status);
    var item := RenderToolCall(state);
    var replaced := ItemReplaced(s.(tools := s.tools[id := Inflight(state, s.tools[id].completed || terminal)]),
                                state.itemId, item);
    if terminal then Emit(replaced, ItemCompleted(s.turn, item, now)) else replaced
  }

  function CallUpdated(s: EmitterState, fields: ToolFields, now: int): EmitterState {
    var id := CallId(fields);
    if id.None? then s
    else
      var known := if id.value in s.tools then s else CallAnnounced(s, fields, now);
      CallMerged(known, id.value, fields, now)
  }

  function Ingested(s: EmitterState, note: Note): EmitterState {
    match Relevant(note)
    case None => s
    case Some(AgentChunk(content)) => TextIngested(s, AgentMessage, content, note.now)
    case Some(ThoughtChunk(content)) => TextIngested(s, Reasoning, content, note.now)
    case Some(UserChunk(_)) => TextFlushed(s, note.now)
    case Some(ToolCall(fields)) => CallAnnounced(TextFlushed(s, note.now), fields, note.now)
    case Some(ToolCallUpdate(fields)) => CallUpdated(TextFlushed(s, note.now), fields, note.now)
    case Some(Plan(entries)) =>
      var flushed := TextFlushed(s, note.now);
      if entries.Some? then flushed.(plan := entries) else flushed
    case Some(Commands(commands)) => if commands.Some? then s.(commands := commands) else s
    case Some(Mode(modeId)) => if modeId.Some? then s.(mode := modeId) else s
    case Some(OtherUpdate) => s
  }

  /** A whole stream, event by event. */
  function Run(turn: TurnRef, notes: seq<Note>): EmitterState {
    if notes == [] then Fresh(turn) else Ingested(Run(turn, notes[..|notes| - 1]), notes[|notes| - 1])
  }

  lemma RunStep(turn: TurnRef, notes: seq<Note>, note: Note)
    ensures Run(turn, notes + [note]) == Ingested(Run(turn, notes), note)
  {
    assert (notes + [note])[..|notes|] == notes;
  }

  function CloseCall(s: EmitterState, call: Inflight, now: int): EmitterState {
    if call.completed then s
    else
      var item := RenderToolCall(call.state);
      Emit(ItemReplaced(s, call.state.itemId, item), ItemCompleted(s.turn, item, now))
  }

  /** The drained calls, in the order the hash map yields them. */
  function CloseCalls(s: EmitterState, calls: map<string, Inflight>, order: seq<string>, now: int): EmitterState
    requires forall i | 0 <= i < |order| :: order[i] in calls
  {
    if order == [] then s
    else CloseCall(CloseCalls(s, calls, order[..|order| - 1], now), calls[order[|order| - 1]], now)
  }

  /** Everything `finish` does, ending with no call in flight. */
  function Finished(s: EmitterState, order: seq<string>, now: int): EmitterState
    requires Enumerates(order, s.tools.Keys)
  {
    CloseCalls(TextFlushed(s, now).(tools := map[]), s.tools, order, now)
  }

  function Result(s: EmitterState): StreamFinish {
    StreamFinish(s.items, s.plan, s.commands, s.mode)
  }

  // ----- The object --------------------------------------------------------------------------------------

  class TurnStreamEmitter {
    const turn: TurnRef
    var items: seq<Item>
    var itemIndex: map<ItemId, nat>
    var text: Option<TextRun>
    var textSeq: nat
    var toolCalls: map<string, Inflight>
    var planEntries: Option<seq<string>>
    var availableCommands: Option<seq<string>>
    var currentMode: Option<string>
    /** What the emit callback has received. */
    var sent: seq<Notification>

    ghost function State(): EmitterState
      reads this
    {
      EmitterState(turn, items, itemIndex, text, textSeq, toolCalls, planEntries, availableCommands, currentMode, sent)
    }

    /** Every indexed position exists, so replacing in place never goes out of bounds. */
    ghost predicate Valid()
      reads this
    {
      IndexInRange(State())
    }

    constructor (turn: TurnRef)
      ensures Valid() && State() == Fresh(turn)
    {
      this.turn := turn;
      items, itemIndex, text, textSeq, toolCalls := [], map[], None, 0, map[];
      planEntries, availableCommands, currentMode, sent := None, None, None, [];
    }

    method Ingest(note: Note)
      requires Valid()
      modifies this
      ensures Valid() && State() == Ingested(old(State()), note)
    {
      if !note.sessionUpdate || note.update.None? {
        return;
      }
      match note.update.value {
        case AgentChunk(content) => HandleText(AgentMessage, content, note.now);
        case ThoughtChunk(content) => HandleText(Reasoning, content, note.now);
        case UserChunk(_) => FlushText(note.now);
        case ToolCall(fields) =>
          FlushText(note.now);
          HandleToolCall(fields, note.now);
        case ToolCallUpdate(fields) =>
          FlushText(note.now);
          HandleToolCallUpdate(fields, note.now);
        case Plan(entries) =>
          FlushText(note.now);
          if entries.Some? { planEntries := entries; }
        case Commands(commands) =>
          if commands.Some? { availableCommands := commands; }
        case Mode(modeId) =>
          if modeId.Some? { currentMode := modeId; }
        case OtherUpdate =>
      }
    }

    method Finish(order: seq<string>, now: int) returns (result: StreamFinish)
      requires Valid() && Enumerates(order, toolCalls.Keys)
      modifies this
      ensures Valid() && State() == Finished(old(State()), order, now) && result == Result(State())
    {
      FlushText(now);
      var drained := toolCalls;
      toolCalls := map[];
      ghost var s := State();
      for k := 0 to |order|
        invariant Valid() && State() == CloseCalls(s, drained, order[..k], now)
      {
        assert order[..k + 1][..k] == order[..k];
        var call := drained[order[k]];
        if !call.completed {
          var item := RenderToolCall(call.state);
          ReplaceItem(call.state.itemId, item);
          sent := sent + [ItemCompleted(turn, item, now)];
        }
      }
      assert order[..|order|] == order;
      result := StreamFinish(items, planEntries, availableCommands, currentMode);
    }

    method HandleText(kind: TextKind, content: Content, now: int)
      requires Valid()
      modifies this
      ensures Valid() && State() == TextIngested(old(State()), kind, content, now)
    {
      var words := PluckText(content);
      if words == "" {
        return;
      }
      if text.Some? && text.value.kind != kind {
        FlushText(now);
      }
      if text.None? {
        var itemId := match kind case AgentMessage => AgentId(textSeq) case Reasoning => ReasoningId(textSeq);
        textSeq := textSeq + 1;
        var shell := match kind case AgentMessage => AgentItem(itemId, "") case Reasoning => ReasoningItem(itemId, [""]);
        sent := sent + [ItemStarted(turn, shell, now)];
        text := Some(TextRun(kind, itemId, ""));
      }
      text := Some(text.value.(text := text.value.text + words));
      sent := sent + [match kind
                      case AgentMessage => AgentDelta(turn, text.value.itemId, words)
                      case Reasoning => ReasoningDelta(turn, text.value.itemId, words, 0)];
    }

    method FlushText(now: int)
      requires Valid()
      modifies this
      ensures Valid() && State() == TextFlushed(old(State()), now)
    {
      if text.None? {
        return;
      }
      var run := text.value;
      text := None;
      var item := match run.kind
                  case AgentMessage => AgentItem(run.itemId, run.text)
                  case Reasoning => ReasoningItem(run.itemId, [run.text]);
      PushItem(item);
      sent := sent + [ItemCompleted(turn, item, now)];
    }

    method HandleToolCall(fields: ToolFields, now: int)
      requires Valid()
      modifies this
      ensures Valid() && State() == CallAnnounced(old(State()), fields, now)
    {
      var id := CallId(fields);
      if id.None? {
        return;
      }
      var state := FromAnnounce(id.value, fields, now);
      var item := RenderToolCall(state);
      sent := sent + [ItemStarted(turn, item, state.startedAtMs)];
      PushItem(item);
      toolCalls := toolCalls[id.value := Inflight(state, false)];
    }

    method HandleToolCallUpdate(fields: ToolFields, now: int)
      requires Valid()
      modifies this
      ensures Valid() && State() == CallUpdated(old(State()), fields, now)
    {
      var id := CallId(fields);
      if id.None? {
        return;
      }
      if id.value !in toolCalls {
        HandleToolCall(fields, now);
      }
      var state := MergeUpdate(toolCalls[id.value].state, fields, now);
      var item := RenderToolCall(state);
      var terminal := Terminal(state.status);
      toolCalls := toolCalls[id.value := Inflight(state, toolCalls[id.value].completed || terminal)];
      ReplaceItem(state.itemId, item);
      if terminal {
        sent := sent + [ItemCompleted(turn, item, now)];
      }
    }

    method PushItem(item: Item)
      requires Valid()
      modifies `items, `itemIndex
      ensures Valid() && State() == ItemPushed(old(State()), item)
    {
      itemIndex := itemIndex[item.id := |items|];
      items := items + [item];
    }

    method ReplaceItem(id: ItemId, item: Item)
      requires Valid()
      modifies `items, `itemIndex
      ensures Valid() && State() == ItemReplaced(old(State()), id, item)
    {
      if id in itemIndex {
        items := items[itemIndex[id] := item];
      } else {
        PushItem(item);
      }
    }
  }
}
