/**
 * The amp bridge's translation of one turn (daemon/crates/amp-bridge/src/bridge.rs, `AmpTurnTranslator`): envelopes of
 * the amp process become item notifications and a stored item list. Text and thinking items are started, streamed
 * and completed at once; a tool stays pending until its result, or until the turn's result closes it.
 */
module AmpTranslator {
  import opened Prelude
  import StreamingCheck

  // ----- Envelopes, items and notifications ----------------------------------------------------------------

  /** A JSON field that may be missing or hold something that is not a string. */
  datatype Field = Absent | NotText | Words(text: string)

  function WordsOf(field: Field): string {
    if field.Words? then field.text else ""
  }

  /** `uuid` is the fresh id the block draws if it needs one. */
  datatype AssistantBlock =
    | TextBlock(text: Field, uuid: string)
    | ThinkingBlock(thinking: Field, data: Field, uuid: string)
    | ToolUseBlock(id: Field, name: Field, input: Option<string>, uuid: string)
    | OtherBlock

  datatype UserBlock =
    | ToolResult(toolUseId: Field, content: Field, isError: Option<bool>)
    | OtherUserBlock

  datatype Envelope =
    | Assistant(parent: Option<string>, blocks: seq<AssistantBlock>, usage: bool, stopReason: Option<string>)
    | User(parent: Option<string>, results: seq<UserBlock>)
    | Result(usage: bool, error: Option<string>)
    | OtherEnvelope

  datatype ToolStatus = InProgress | Succeeded | Failed

  datatype Item =
    | UserMessage(id: string, input: string)
    | AgentMessage(id: string, text: string)
    | Reasoning(id: string, content: seq<string>)
    | DynamicTool(id: string, name: string, arguments: string, status: ToolStatus, output: Option<string>, success: Option<bool>)

  datatype Notification =
    | ItemStarted(item: Item, parent: Option<string>)
    | AgentDelta(itemId: string, delta: string, parent: Option<string>)
    | ReasoningDelta(itemId: string, delta: string, parent: Option<string>)
    | ItemCompleted(item: Item, parent: Option<string>)
    | TokenUsage

  datatype PendingTool = PendingTool(id: string, name: string, input: string, parent: Option<string>)

  /** The translator's fields, and everything it has told so far. */
  datatype Trace = Trace(items: seq<Item>, pending: map<string, PendingTool>, log: seq<Notification>)

  // ----- What one block does -------------------------------------------------------------------------------

  function Tell(t: Trace, n: Notification): Trace {
    t.(log := t.log + [n])
  }

  function Store(t: Trace, item: Item, parent: Option<string>): Trace {
    Tell(t.(items := t.items + [item]), ItemCompleted(item, parent))
  }

  function Spoken(t: Trace, parent: Option<string>, text: string, uuid: string): Trace {
    if text == "" then t
    else Store(Tell(Tell(t, ItemStarted(AgentMessage(uuid, ""), parent)), AgentDelta(uuid, text, parent)), AgentMessage(uuid, text), parent)
  }

  function Thought(t: Trace, parent: Option<string>, text: string, uuid: string): Trace {
    if text == "" then t
    else Store(Tell(Tell(t, ItemStarted(Reasoning(uuid, []), parent)), ReasoningDelta(uuid, text, parent)), Reasoning(uuid, [text]), parent)
  }

  function ToolIdOf(b: AssistantBlock): string
    requires b.ToolUseBlock?
  {
    if b.id.Words? then b.id.text else b.uuid
  }

  function ToolStart(p: PendingTool): Item {
    DynamicTool(p.id, p.name, p.input, InProgress, None, None)
  }

  function PendingOf(b: AssistantBlock, parent: Option<string>): PendingTool
    requires b.ToolUseBlock?
  {
    PendingTool(ToolIdOf(b), if b.name.Words? then b.name.text else "unknown", Or(b.input, "{}"), parent)
  }

  function Began(t: Trace, p: PendingTool): Trace {
    Tell(t.(pending := t.pending[p.id := p]), ItemStarted(ToolStart(p), p.parent))
  }

  function ToolEnd(p: PendingTool, failed: bool, output: string): Item {
    DynamicTool(p.id, p.name, p.input, if failed then Failed else Succeeded, Some(output), Some(!failed))
  }

  /** The entry under `id` is taken and completed as `p` records it. */
  function Closed(t: Trace, id: string, p: PendingTool, failed: bool, output: string): Trace {
    Store(t.(pending := t.pending - {id}), ToolEnd(p, failed, output), p.parent)
  }

  function OnAssistantBlock(t: Trace, parent: Option<string>, b: AssistantBlock): Trace {
    match b
    case TextBlock(text, uuid) => Spoken(t, parent, WordsOf(text), uuid)
    case ThinkingBlock(thinking, data, uuid) =>
      Thought(t, parent, WordsOf(if thinking.Absent? then data else thinking), uuid)
    case ToolUseBlock(_, _, _, _) => Began(t, PendingOf(b, parent))
    case OtherBlock => t
  }

  /** The record a result closes; a result nobody asked for gets one made up on the spot. */
  function Awaited(t: Trace, id: string, parent: Option<string>): (p: PendingTool)
    ensures id in t.pending ==> p == t.pending[id]
  {
    if id in t.pending then t.pending[id] else PendingTool(id, "unknown", "{}", parent)
  }

  function OnUserBlock(t: Trace, parent: Option<string>, b: UserBlock): Trace {
    if !b.ToolResult? || !b.toolUseId.Words? then t
    else Closed(t, b.toolUseId.text, Awaited(t, b.toolUseId.text, parent), Or(b.isError, false), WordsOf(b.content))
  }

  function NoResult(): string {
    "amp result arrived before tool result"
  }

  function Abandoned(t: Trace, id: string): Trace {
    if id in t.pending then Closed(t, id, t.pending[id], true, NoResult()) else t
  }

  // ----- What one envelope does ----------------------------------------------------------------------------

  function OnAssistantBlocks(t: Trace, parent: Option<string>, blocks: seq<AssistantBlock>): Trace {
    if blocks == [] then t
    else OnAssistantBlock(OnAssistantBlocks(t, parent, blocks[..|blocks| - 1]), parent, blocks[|blocks| - 1])
  }

  function OnUserBlocks(t: Trace, parent: Option<string>, blocks: seq<UserBlock>): Trace {
    if blocks == [] then t
    else OnUserBlock(OnUserBlocks(t, parent, blocks[..|blocks| - 1]), parent, blocks[|blocks| - 1])
  }

  /** The pending tools are drained in the hash map's order. */
  function Drained(t: Trace, order: seq<string>): Trace {
    if order == [] then t else Abandoned(Drained(t, order[..|order| - 1]), order[|order| - 1])
  }

  function WithUsage(t: Trace, usage: bool): Trace {
    if usage then Tell(t, TokenUsage) else t
  }

  function Translated(t: Trace, e: Envelope, order: seq<string>): Trace {
    match e
    case Assistant(parent, blocks, usage, _) => WithUsage(OnAssistantBlocks(t, parent, blocks), usage)
    case User(parent, results) => OnUserBlocks(t, parent, results)
    case Result(usage, _) => Drained(WithUsage(t, usage), order)
    case OtherEnvelope => t
  }

  predicate ClosesStdin(e: Envelope) {
    e.Assistant? && (e.stopReason.None? || e.stopReason.value == "end_turn" || e.stopReason.value == "max_tokens")
  }

  lemma StaysOpen(e: Envelope)
    requires !e.Assistant?
    ensures !ClosesStdin(e)
  {
  }

  datatype Outcome = Outcome(notifications: seq<Notification>, completedItems: seq<Item>, closeStdin: bool,
                             resultSeen: bool, errorMessage: Option<string>)

  function CompletedItems(log: seq<Notification>): seq<Item> {
    if log == [] then []
    else
      var last := log[|log| - 1];
      CompletedItems(log[..|log| - 1]) + if last.ItemCompleted? then [last.item] else []
  }

  /** The outcome holds what has been told since `before`, and its completed items are those completions. */
  ghost predicate Reports(out: Outcome, before: seq<Notification>, told: seq<Notification>) {
    told == before + out.notifications && out.completedItems == CompletedItems(out.notifications)
  }

  lemma ReportsSay(out: Outcome, before: seq<Notification>, told: seq<Notification>, n: Notification)
    requires Reports(out, before, told) && !n.ItemCompleted?
    ensures Reports(out.(notifications := out.notifications + [n]), before, told + [n])
  {
  }

  lemma ReportsKeep(out: Outcome, before: seq<Notification>, told: seq<Notification>, item: Item, parent: Option<string>)
    requires Reports(out, before, told)
    ensures Reports(out.(notifications := out.notifications + [ItemCompleted(item, parent)], completedItems := out.completedItems + [item]),
                    before, told + [ItemCompleted(item, parent)])
  {
  }

  class AmpTurnTranslator {
    var items: seq<Item>
    var pendingTools: map<string, PendingTool>
    /** Everything returned in outcomes so far. */
    ghost var told: seq<Notification>

    ghost function State(): Trace
      reads this
    {
      Trace(items, pendingTools, told)
    }

    constructor (initialItems: seq<Item>)
      ensures State() == Trace(initialItems, map[], [])
    {
      items, pendingTools, told := initialItems, map[], [];
    }

    method Translate(e: Envelope, order: seq<string>) returns (out: Outcome)
      requires e.Result? ==> Enumerates(order, pendingTools.Keys)
      modifies this
      ensures State() == Translated(old(State()), e, order)
      ensures told == old(told) + out.notifications && out.completedItems == CompletedItems(out.notifications)
      ensures out.closeStdin == ClosesStdin(e) && out.resultSeen == e.Result?
      ensures out.errorMessage == if e.Result? then e.error else None
    {
      hide ClosesStdin, OnAssistantBlock, OnUserBlock, Abandoned;
      out := Outcome([], [], false, e.Result?, if e.Result? then e.error else None);
      match e {
        case Assistant(parent, blocks, usage, _) =>
          out := TranslateAssistant(out, parent, blocks, old(told));
          if usage {
            out := Say(out, TokenUsage, old(told));
          }
          out := out.(closeStdin := ClosesStdin(e));
        case User(parent, results) => out := TranslateUser(out, parent, results, old(told));
        case Result(usage, _) =>
          if usage {
            out := Say(out, TokenUsage, old(told));
          }
          out := DrainTools(out, order, old(told));
        case OtherEnvelope =>
      }
      if !e.Assistant? {
        StaysOpen(e);
      }
    }

    method TranslateAssistant(soFar: Outcome, parent: Option<string>, blocks: seq<AssistantBlock>, ghost before: seq<Notification>)
      returns (out: Outcome)
      requires Reports(soFar, before, told)
      modifies this
      ensures State() == OnAssistantBlocks(old(State()), parent, blocks) && Reports(out, before, told)
      ensures out == soFar.(notifications := out.notifications, completedItems := out.completedItems)
    {
      hide Reports, OnAssistantBlock;
      out := soFar;
      for k := 0 to |blocks|
        invariant State() == OnAssistantBlocks(old(State()), parent, blocks[..k]) && Reports(out, before, told)
        invariant out == soFar.(notifications := out.notifications, completedItems := out.completedItems)
      {
        assert blocks[..k + 1][..k] == blocks[..k];
        out := TranslateBlock(out, parent, blocks[k], before);
      }
      assert blocks[..|blocks|] == blocks;
    }

    method TranslateBlock(soFar: Outcome, parent: Option<string>, b: AssistantBlock, ghost before: seq<Notification>) returns (out: Outcome)
      requires Reports(soFar, before, told)
      modifies this
      ensures State() == OnAssistantBlock(old(State()), parent, b) && Reports(out, before, told)
      ensures out == soFar.(notifications := out.notifications, completedItems := out.completedItems)
    {
      hide Reports, PendingOf, ToolStart, Tell, Store, WordsOf;
      out := soFar;
      match b {
        case TextBlock(text, uuid) =>
          var words := WordsOf(text);
          if words != "" {
            out := Stream(out, AgentMessage(uuid, ""), AgentDelta(uuid, words, parent), AgentMessage(uuid, words), parent, before);
          }
        case ThinkingBlock(thinking, data, uuid) =>
          var words := WordsOf(if thinking.Absent? then data else thinking);
          if words != "" {
            out := Stream(out, Reasoning(uuid, []), ReasoningDelta(uuid, words, parent), Reasoning(uuid, [words]), parent, before);
          }
        case ToolUseBlock(_, _, _, _) => out := Begin(out, PendingOf(b, parent), before);
        case OtherBlock =>
      }
    }

    method Begin(soFar: Outcome, p: PendingTool, ghost before: seq<Notification>) returns (out: Outcome)
      requires Reports(soFar, before, told)
      modifies this
      ensures State() == Began(old(State()), p) && Reports(out, before, told)
      ensures out == soFar.(notifications := out.notifications, completedItems := out.completedItems)
    {
      hide Reports, ToolStart;
      pendingTools := pendingTools[p.id := p];
      out := Say(soFar, ItemStarted(ToolStart(p), p.parent), before);
    }

    method TranslateUser(soFar: Outcome, parent: Option<string>, results: seq<UserBlock>, ghost before: seq<Notification>) returns (out: Outcome)
      requires Reports(soFar, before, told)
      modifies this
      ensures State() == OnUserBlocks(old(State()), parent, results) && Reports(out, before, told)
      ensures out == soFar.(notifications := out.notifications, completedItems := out.completedItems)
    {
      hide Reports, Closed, WordsOf;
      out := soFar;
      for k := 0 to |results|
        invariant State() == OnUserBlocks(old(State()), parent, results[..k]) && Reports(out, before, told)
        invariant out == soFar.(notifications := out.notifications, completedItems := out.completedItems)
      {
        assert results[..k + 1][..k] == results[..k];
        if results[k].ToolResult? && results[k].toolUseId.Words? {
          var id := results[k].toolUseId.text;
          var p := if id in pendingTools then pendingTools[id] else PendingTool(id, "unknown", "{}", parent);
          out := Finish(out, id, p, Or(results[k].isError, false), WordsOf(results[k].content), before);
        }
      }
      assert results[..|results|] == results;
    }

    method DrainTools(soFar: Outcome, order: seq<string>, ghost before: seq<Notification>) returns (out: Outcome)
      requires Reports(soFar, before, told)
      modifies this
      ensures State() == Drained(old(State()), order) && Reports(out, before, told)
      ensures out == soFar.(notifications := out.notifications, completedItems := out.completedItems)
    {
      hide Reports, Closed;
      out := soFar;
      for k := 0 to |order|
        invariant State() == Drained(old(State()), order[..k]) && Reports(out, before, told)
        invariant out == soFar.(notifications := out.notifications, completedItems := out.completedItems)
      {
        assert order[..k + 1][..k] == order[..k];
        if order[k] in pendingTools {
          out := Finish(out, order[k], pendingTools[order[k]], true, NoResult(), before);
        }
      }
      assert order[..|order|] == order;
    }

    /** Start, one delta and completion of a text item. */
    method Stream(soFar: Outcome, started: Item, delta: Notification, completed: Item, parent: Option<string>,
                  ghost before: seq<Notification>) returns (out: Outcome)
      requires Reports(soFar, before, told) && !delta.ItemCompleted?
      modifies this
      ensures State() == Store(Tell(Tell(old(State()), ItemStarted(started, parent)), delta), completed, parent)
      ensures Reports(out, before, told)
      ensures out == soFar.(notifications := out.notifications, completedItems := out.completedItems)
    {
      hide Reports, Tell, Store;
      out := Say(soFar, ItemStarted(started, parent), before);
      out := Say(out, delta, before);
      out := Keep(out, completed, parent, before);
    }

    method Say(out: Outcome, n: Notification, ghost before: seq<Notification>) returns (next: Outcome)
      requires Reports(out, before, told) && !n.ItemCompleted?
      modifies this
      ensures State() == Tell(old(State()), n) && Reports(next, before, told)
      ensures next == out.(notifications := next.notifications, completedItems := next.completedItems)
    {
      hide Reports;
      ReportsSay(out, before, told, n);
      next := out.(notifications := out.notifications + [n]);
      told := told + [n];
    }

    /** Stores a completed item and announces it. */
    method Keep(out: Outcome, item: Item, parent: Option<string>, ghost before: seq<Notification>) returns (next: Outcome)
      requires Reports(out, before, told)
      modifies this
      ensures State() == Store(old(State()), item, parent) && Reports(next, before, told)
      ensures next == out.(notifications := next.notifications, completedItems := next.completedItems)
    {
      hide Reports;
      ReportsKeep(out, before, told, item, parent);
      items := items + [item];
      next := out.(notifications := out.notifications + [ItemCompleted(item, parent)], completedItems := out.completedItems + [item]);
      told := told + [ItemCompleted(item, parent)];
    }

    method Finish(out: Outcome, id: string, p: PendingTool, failed: bool, output: string, ghost before: seq<Notification>) returns (next: Outcome)
      requires Reports(out, before, told)
      modifies this
      ensures State() == Closed(old(State()), id, p, failed, output) && Reports(next, before, told)
      ensures next == out.(notifications := next.notifications, completedItems := next.completedItems)
    {
      hide Reports, ToolEnd, Store;
      pendingTools := pendingTools - {id};
      next := Keep(out, ToolEnd(p, failed, output), p.parent, before);
    }
  }

  // ----- Open tools, read off the log ----------------------------------------------------------------------

  predicate StartsTool(n: Notification, id: string) {
    n.ItemStarted? && n.item.DynamicTool? && n.item.id == id
  }

  predicate FinishesTool(n: Notification, id: string) {
    n.ItemCompleted? && n.item.DynamicTool? && n.item.id == id
  }

  /** `log[k]` starts tool `id`, and nothing since starts it again or completes it. */
  ghost predicate OpenAt(log: seq<Notification>, id: string, k: int) {
    0 <= k < |log| && StartsTool(log[k], id) && forall j | k < j < |log| :: !StartsTool(log[j], id) && !FinishesTool(log[j], id)
  }

  function RecordOf(n: Notification, id: string): PendingTool
    requires StartsTool(n, id)
  {
    PendingTool(id, n.item.name, n.item.arguments, n.parent)
  }

  /** `id` is pending exactly when it is open in the log, and its record is what its start said. */
  ghost predicate Tracks(t: Trace, id: string) {
    && (id in t.pending ==> exists k :: OpenAt(t.log, id, k))
    && (forall k | OpenAt(t.log, id, k) :: id in t.pending && t.pending[id] == RecordOf(t.log[k], id))
  }

  /** The completion at `k` repeats the name, the arguments and the parent of the start it closes. */
  ghost predicate RepeatsStart(log: seq<Notification>, k: int)
    requires 0 <= k < |log|
  {
    log[k].ItemCompleted? && log[k].item.DynamicTool? ==>
      forall j | OpenAt(log[..k], log[k].item.id, j) ::
        && log[k].item.name == log[j].item.name && log[k].item.arguments == log[j].item.arguments
        && log[k].parent == log[j].parent
  }

  ghost predicate ItemsFollow(initial: seq<Item>, t: Trace) {
    t.items == initial + CompletedItems(t.log)
  }

  lemma ItemsAppend(initial: seq<Item>, t: Trace, u: Trace, n: Notification)
    requires ItemsFollow(initial, t) && u.log == t.log + [n]
    requires u.items == t.items + if n.ItemCompleted? then [n.item] else []
    ensures ItemsFollow(initial, u)
  {
    assert (initial + CompletedItems(t.log)) + [] == initial + CompletedItems(t.log);
  }

  ghost predicate Kept(initial: seq<Item>, t: Trace) {
    && ItemsFollow(initial, t)
    && (forall id :: Tracks(t, id))
    && (forall k | 0 <= k < |t.log| :: RepeatsStart(t.log, k))
  }

  lemma OpenAppend(log: seq<Notification>, n: Notification, id: string, k: int)
    ensures OpenAt(log + [n], id, k)
       <==> if StartsTool(n, id) then k == |log| else !FinishesTool(n, id) && OpenAt(log, id, k)
  {
    var all := log + [n];
    assert all[|log|] == n;
    assert forall j | 0 <= j < |log| :: all[j] == log[j];
  }

  lemma TracksAppend(t: Trace, u: Trace, n: Notification, id: string)
    requires Tracks(t, id) && u.log == t.log + [n]
    requires StartsTool(n, id) ==> id in u.pending && u.pending[id] == RecordOf(n, id)
    requires FinishesTool(n, id) ==> id !in u.pending
    requires !StartsTool(n, id) && !FinishesTool(n, id) ==>
               (id in u.pending <==> id in t.pending) && (id in t.pending ==> u.pending[id] == t.pending[id])
    ensures Tracks(u, id)
  {
    forall k ensures OpenAt(u.log, id, k) <==> if StartsTool(n, id) then k == |t.log| else !FinishesTool(n, id) && OpenAt(t.log, id, k) {
      OpenAppend(t.log, n, id, k);
    }
    if StartsTool(n, id) {
      assert OpenAt(u.log, id, |t.log|);
    } else if id in u.pending {
      var k :| OpenAt(t.log, id, k);
      assert OpenAt(u.log, id, k);
    }
  }

  lemma RepeatsAppend(log: seq<Notification>, n: Notification)
    requires forall k | 0 <= k < |log| :: RepeatsStart(log, k)
    requires n.ItemCompleted? && n.item.DynamicTool? ==> forall j | OpenAt(log, n.item.id, j) ::
               n.item.name == log[j].item.name && n.item.arguments == log[j].item.arguments && n.parent == log[j].parent
    ensures forall k | 0 <= k < |log + [n]| :: RepeatsStart(log + [n], k)
  {
    forall k | 0 <= k < |log + [n]| ensures RepeatsStart(log + [n], k) {
      if k < |log| {
        assert (log + [n])[..k] == log[..k] && RepeatsStart(log, k);
      } else {
        assert (log + [n])[..k] == log;
      }
    }
  }

  predicate TouchesNoTool(n: Notification) {
    n.ItemStarted? || n.ItemCompleted? ==> !n.item.DynamicTool?
  }

  lemma TellKeeps(initial: seq<Item>, t: Trace, n: Notification)
    requires Kept(initial, t) && TouchesNoTool(n) && !n.ItemCompleted?
    ensures Kept(initial, Tell(t, n))
  {
    hide Tracks, RepeatsStart, ItemsFollow;
    ItemsAppend(initial, t, Tell(t, n), n);
    RepeatsAppend(t.log, n);
    forall id ensures Tracks(Tell(t, n), id) {
      TracksAppend(t, Tell(t, n), n, id);
    }
  }

  lemma StoreKeeps(initial: seq<Item>, t: Trace, item: Item, parent: Option<string>)
    requires Kept(initial, t) && !item.DynamicTool?
    ensures Kept(initial, Store(t, item, parent))
  {
    hide Tracks, RepeatsStart, ItemsFollow;
    var n := ItemCompleted(item, parent);
    ItemsAppend(initial, t, Store(t, item, parent), n);
    RepeatsAppend(t.log, n);
    forall id ensures Tracks(Store(t, item, parent), id) {
      TracksAppend(t, Store(t, item, parent), n, id);
    }
  }

  lemma BeganKeeps(initial: seq<Item>, t: Trace, p: PendingTool)
    requires Kept(initial, t)
    ensures Kept(initial, Began(t, p))
  {
    hide Tracks, RepeatsStart, ItemsFollow;
    var n := ItemStarted(ToolStart(p), p.parent);
    ItemsAppend(initial, t, Began(t, p), n);
    RepeatsAppend(t.log, n);
    forall id ensures Tracks(Began(t, p), id) {
      TracksAppend(t, Began(t, p), n, id);
    }
  }

  lemma PendingHasItsId(t: Trace, id: string)
    requires Tracks(t, id) && id in t.pending
    ensures t.pending[id].id == id
  {
  }

  lemma ClosedKeeps(initial: seq<Item>, t: Trace, id: string, p: PendingTool, failed: bool, output: string)
    requires Kept(initial, t) && p.id == id && (id in t.pending ==> p == t.pending[id])
    ensures Kept(initial, Closed(t, id, p, failed, output))
  {
    hide RepeatsStart, ItemsFollow;
    var n := ItemCompleted(ToolEnd(p, failed, output), p.parent);
    ItemsAppend(initial, t, Closed(t, id, p, failed, output), n);
    assert Tracks(t, id);
    RepeatsAppend(t.log, n);
    forall other ensures Tracks(Closed(t, id, p, failed, output), other) {
      TracksAppend(t, Closed(t, id, p, failed, output), n, other);
    }
  }

  lemma AssistantBlockKeeps(initial: seq<Item>, t: Trace, parent: Option<string>, b: AssistantBlock)
    requires Kept(initial, t)
    ensures Kept(initial, OnAssistantBlock(t, parent, b))
  {
    hide Kept;
    match b
    case TextBlock(text, uuid) =>
      var words := WordsOf(text);
      if words != "" {
        var started, delta := ItemStarted(AgentMessage(uuid, ""), parent), AgentDelta(uuid, words, parent);
        TellKeeps(initial, t, started);
        TellKeeps(initial, Tell(t, started), delta);
        StoreKeeps(initial, Tell(Tell(t, started), delta), AgentMessage(uuid, words), parent);
      }
    case ThinkingBlock(thinking, data, uuid) =>
      var words := WordsOf(if thinking.Absent? then data else thinking);
      if words != "" {
        var started, delta := ItemStarted(Reasoning(uuid, []), parent), ReasoningDelta(uuid, words, parent);
        TellKeeps(initial, t, started);
        TellKeeps(initial, Tell(t, started), delta);
        StoreKeeps(initial, Tell(Tell(t, started), delta), Reasoning(uuid, [words]), parent);
      }
    case ToolUseBlock(_, _, _, _) => BeganKeeps(initial, t, PendingOf(b, parent));
    case OtherBlock =>
  }

  lemma {:induction false} AssistantKeeps(initial: seq<Item>, t: Trace, parent: Option<string>, blocks: seq<AssistantBlock>)
    requires Kept(initial, t)
    ensures Kept(initial, OnAssistantBlocks(t, parent, blocks))
  {
    hide Kept, OnAssistantBlock;
    if blocks != [] {
      AssistantKeeps(initial, t, parent, blocks[..|blocks| - 1]);
      AssistantBlockKeeps(initial, OnAssistantBlocks(t, parent, blocks[..|blocks| - 1]), parent, blocks[|blocks| - 1]);
    }
  }

  lemma {:induction false} UserKeeps(initial: seq<Item>, t: Trace, parent: Option<string>, blocks: seq<UserBlock>)
    requires Kept(initial, t)
    ensures Kept(initial, OnUserBlocks(t, parent, blocks))
  {
    hide RepeatsStart, Closed, Tracks;
    if blocks != [] {
      var before, b := OnUserBlocks(t, parent, blocks[..|blocks| - 1]), blocks[|blocks| - 1];
      UserKeeps(initial, t, parent, blocks[..|blocks| - 1]);
      if b.ToolResult? && b.toolUseId.Words? {
        var id := b.toolUseId.text;
        assert Tracks(before, id);
        if id in before.pending {
          PendingHasItsId(before, id);
        }
        ClosedKeeps(initial, before, id, Awaited(before, id, parent), Or(b.isError, false), WordsOf(b.content));
      }
    }
  }

  lemma {:induction false} DrainKeeps(initial: seq<Item>, t: Trace, order: seq<string>)
    requires Kept(initial, t)
    ensures Kept(initial, Drained(t, order))
    ensures Drained(t, order).pending.Keys == t.pending.Keys - set id | id in order
  {
    hide RepeatsStart, Tracks, ItemsFollow;
    if order != [] {
      var earlier, id := order[..|order| - 1], order[|order| - 1];
      var before := Drained(t, earlier);
      DrainKeeps(initial, t, earlier);
      assert order == earlier + [id];
      if id in before.pending {
        assert Tracks(before, id);
        PendingHasItsId(before, id);
        ClosedKeeps(initial, before, id, before.pending[id], true, NoResult());
      }
    }
  }

  // ----- Whole turns ---------------------------------------------------------------------------------------

  /** One envelope, and the hash map's order if it drains the pending tools. */
  datatype Input = Input(envelope: Envelope, order: seq<string>)

  ghost predicate Feasible(t: Trace, input: Input) {
    input.envelope.Result? ==> Enumerates(input.order, t.pending.Keys)
  }

  function Run(initial: seq<Item>, inputs: seq<Input>): Trace {
    if inputs == [] then Trace(initial, map[], [])
    else
      var last := inputs[|inputs| - 1];
      Translated(Run(initial, inputs[..|inputs| - 1]), last.envelope, last.order)
  }

  ghost predicate AllFeasible(initial: seq<Item>, inputs: seq<Input>) {
    forall n | 0 <= n < |inputs| :: Feasible(Run(initial, inputs[..n]), inputs[n])
  }

  lemma TranslatedKeeps(initial: seq<Item>, t: Trace, e: Envelope, order: seq<string>)
    requires Kept(initial, t)
    ensures Kept(initial, Translated(t, e, order))
  {
    hide Kept;
    match e
    case Assistant(parent, blocks, usage, _) =>
      AssistantKeeps(initial, t, parent, blocks);
      if usage {
        TellKeeps(initial, OnAssistantBlocks(t, parent, blocks), TokenUsage);
      }
    case User(parent, results) => UserKeeps(initial, t, parent, results);
    case Result(usage, _) =>
      if usage {
        TellKeeps(initial, t, TokenUsage);
      }
      DrainKeeps(initial, WithUsage(t, usage), order);
    case OtherEnvelope =>
  }

  lemma {:induction false} RunKeeps(initial: seq<Item>, inputs: seq<Input>)
    ensures Kept(initial, Run(initial, inputs))
  {
    hide Translated, Tracks;
    if inputs == [] {
      forall id ensures Tracks(Trace(initial, map[], []), id) { NothingOpen(initial, id); }
    } else {
      RunKeeps(initial, inputs[..|inputs| - 1]);
      var last := inputs[|inputs| - 1];
      TranslatedKeeps(initial, Run(initial, inputs[..|inputs| - 1]), last.envelope, last.order);
    }
  }

  lemma NothingOpen(initial: seq<Item>, id: string)
    ensures Tracks(Trace(initial, map[], []), id)
  {
  }

  /** Over any envelopes, the pending tools are the tools started and not completed since. */
  lemma PendingToolsAreTheOpenOnes(initial: seq<Item>, inputs: seq<Input>, id: string)
    ensures id in Run(initial, inputs).pending <==> exists k :: OpenAt(Run(initial, inputs).log, id, k)
  {
    RunKeeps(initial, inputs);
    assert Tracks(Run(initial, inputs), id);
  }

  /** The stored items are the initial ones and every completed item, in the order the completions were sent. */
  lemma ItemsAreTheCompletions(initial: seq<Item>, inputs: seq<Input>)
    ensures Run(initial, inputs).items == initial + CompletedItems(Run(initial, inputs).log)
  {
    RunKeeps(initial, inputs);
  }

  /** Every completion of an open tool repeats what its start said of name, arguments and parent. */
  lemma CompletionsRepeatTheirStart(initial: seq<Item>, inputs: seq<Input>, k: nat)
    requires k < |Run(initial, inputs).log|
    ensures RepeatsStart(Run(initial, inputs).log, k)
  {
    RunKeeps(initial, inputs);
  }

  /** After a result no tool is open, whatever came before and in whatever order the map was drained. */
  lemma ResultClosesEveryTool(initial: seq<Item>, inputs: seq<Input>, id: string, k: int)
    requires inputs != [] && inputs[|inputs| - 1].envelope.Result? && AllFeasible(initial, inputs)
    ensures Run(initial, inputs).pending == map[]
    ensures !OpenAt(Run(initial, inputs).log, id, k)
  {
    var n := |inputs| - 1;
    var before, last := Run(initial, inputs[..n]), inputs[n];
    assert Feasible(before, last);
    RunKeeps(initial, inputs[..n]);
    if last.envelope.usage {
      TellKeeps(initial, before, TokenUsage);
    }
    DrainKeeps(initial, WithUsage(before, last.envelope.usage), last.order);
    assert Run(initial, inputs).pending.Keys == {};
    RunKeeps(initial, inputs);
    assert Tracks(Run(initial, inputs), id);
  }

  // ----- What the completions say --------------------------------------------------------------------------

  /** The blocks that are results of a named tool. */
  function Results(blocks: seq<UserBlock>): seq<UserBlock> {
    if blocks == [] then []
    else
      var last := blocks[|blocks| - 1];
      Results(blocks[..|blocks| - 1]) + if last.ToolResult? && last.toolUseId.Words? then [last] else []
  }

  /** `n` completes the tool that `b` is the result of, failed exactly when the result is an error. */
  predicate Answers(n: Notification, b: UserBlock) {
    && b.ToolResult? && b.toolUseId.Words? && FinishesTool(n, b.toolUseId.text)
    && n.item.output == Some(WordsOf(b.content))
    && n.item.success == Some(b.isError != Some(true))
    && n.item.status == if b.isError == Some(true) then Failed else Succeeded
  }

  /** Each tool result completes its tool, one completion per result, in order, with its output and its outcome. */
  lemma {:induction false} EachResultCompletesItsTool(initial: seq<Item>, t: Trace, parent: Option<string>, blocks: seq<UserBlock>)
    requires Kept(initial, t)
    ensures var log, results := OnUserBlocks(t, parent, blocks).log, Results(blocks);
            && t.log <= log && |log| == |t.log| + |results|
            && forall k | 0 <= k < |results| :: Answers(log[|t.log| + k], results[k])
  {
    hide Kept;
    if blocks != [] {
      var earlier, b := blocks[..|blocks| - 1], blocks[|blocks| - 1];
      var before := OnUserBlocks(t, parent, earlier);
      EachResultCompletesItsTool(initial, t, parent, earlier);
      if b.ToolResult? && b.toolUseId.Words? {
        var id := b.toolUseId.text;
        UserKeeps(initial, t, parent, earlier);
        AwaitedHasItsId(initial, before, id, parent);
      }
    }
  }

  lemma AwaitedHasItsId(initial: seq<Item>, t: Trace, id: string, parent: Option<string>)
    requires Kept(initial, t)
    ensures Awaited(t, id, parent).id == id
  {
    assert Tracks(t, id);
    if id in t.pending {
      PendingHasItsId(t, id);
    }
  }

  /** Whatever a result closes itself is closed as failed. */
  lemma {:induction false} DrainedToolsFail(t: Trace, order: seq<string>)
    ensures var log := Drained(t, order).log;
            && t.log <= log
            && forall k | |t.log| <= k < |log| :: log[k].ItemCompleted? && log[k].item.DynamicTool?
                                                && log[k].item.status == Failed && log[k].item.success == Some(false)
  {
    hide NoResult;
    if order != [] {
      DrainedToolsFail(t, order[..|order| - 1]);
    }
  }

  // ----- The lifecycle check -------------------------------------------------------------------------------

  type Walk = StreamingCheck.Walk<string>
  type Frame = StreamingCheck.Frame<string>

  /** The fields of an item the check reads. A user item's content array holds objects, so no strings. */
  function View(item: Item): StreamingCheck.ItemView<string> {
    match item
    case UserMessage(id, _) => StreamingCheck.ItemView(Some(id), None, None, Some([]))
    case AgentMessage(id, text) => StreamingCheck.ItemView(Some(id), Some(StreamingCheck.AgentMessage), Some(text), None)
    case Reasoning(id, content) => StreamingCheck.ItemView(Some(id), Some(StreamingCheck.Reasoning), None, Some(content))
    case DynamicTool(id, _, _, _, _, _) => StreamingCheck.ItemView(Some(id), None, None, None)
  }

  function FrameOf(step: string, n: Notification): Frame {
    StreamingCheck.Frame(step, true,
      match n
      case ItemStarted(item, _) => StreamingCheck.Started(Some(View(item)))
      case ItemCompleted(item, _) => StreamingCheck.Completed(Some(View(item)))
      case AgentDelta(id, delta, _) => StreamingCheck.Delta(StreamingCheck.AgentMessage, Some(id), Some(delta))
      case ReasoningDelta(id, delta, _) => StreamingCheck.Delta(StreamingCheck.Reasoning, Some(id), Some(delta))
      case TokenUsage => StreamingCheck.Other)
  }

  function Frames(step: string, log: seq<Notification>): seq<Frame> {
    seq(|log|, i requires 0 <= i < |log| => FrameOf(step, log[i]))
  }

  /** Nothing reported, nothing left open. */
  ghost predicate Clean(w: Walk) {
    w.findings == [] && forall id | id in w.items :: w.items[id].completed
  }

  /** Any item that is not streamed passes a clean walk, even under an id that an earlier text item had. */
  lemma ToolIsInvisible(w: Walk, step: string, n: Notification)
    requires Clean(w) && (n.TokenUsage? || ((n.ItemStarted? || n.ItemCompleted?) && n.item.DynamicTool?))
    ensures Clean(StreamingCheck.Visit(w, FrameOf(step, n)))
  {
  }

  ghost predicate CleanLog(step: string, log: seq<Notification>) {
    Clean(StreamingCheck.WalkFrom(StreamingCheck.Walk(map[], []), Frames(step, log)))
  }

  lemma WalkTell(step: string, log: seq<Notification>, n: Notification)
    ensures StreamingCheck.WalkFrom(StreamingCheck.Walk(map[], []), Frames(step, log + [n]))
         == StreamingCheck.Visit(StreamingCheck.WalkFrom(StreamingCheck.Walk(map[], []), Frames(step, log)), FrameOf(step, n))
  {
    assert Frames(step, log + [n])[..|log|] == Frames(step, log);
  }

  lemma InvisibleKeepsClean(step: string, log: seq<Notification>, n: Notification)
    requires CleanLog(step, log) && (n.TokenUsage? || ((n.ItemStarted? || n.ItemCompleted?) && n.item.DynamicTool?))
    ensures CleanLog(step, log + [n])
  {
    hide StreamingCheck.WalkFrom, Clean;
    WalkTell(step, log, n);
    ToolIsInvisible(StreamingCheck.WalkFrom(StreamingCheck.Walk(map[], []), Frames(step, log)), step, n);
  }

  lemma TripleOnCleanWalk(w: Walk, step: string, started: Item, delta: Notification, completed: Item, parent: Option<string>, text: string)
    requires Clean(w) && text != ""
    requires || (started == AgentMessage(completed.id, "") && delta == AgentDelta(completed.id, text, parent) && completed == AgentMessage(completed.id, text))
             || (started == Reasoning(completed.id, []) && delta == ReasoningDelta(completed.id, text, parent) && completed == Reasoning(completed.id, [text]))
    ensures Clean(StreamingCheck.Visit(StreamingCheck.Visit(StreamingCheck.Visit(w,
              FrameOf(step, ItemStarted(started, parent))), FrameOf(step, delta)), FrameOf(step, ItemCompleted(completed, parent))))
  {
    assert Join([text]) == text;
  }

  lemma TripleKeepsClean(step: string, t: Trace, started: Item, delta: Notification, completed: Item, parent: Option<string>, text: string)
    requires CleanLog(step, t.log) && text != ""
    requires || (started == AgentMessage(completed.id, "") && delta == AgentDelta(completed.id, text, parent) && completed == AgentMessage(completed.id, text))
             || (started == Reasoning(completed.id, []) && delta == ReasoningDelta(completed.id, text, parent) && completed == Reasoning(completed.id, [text]))
    ensures CleanLog(step, Store(Tell(Tell(t, ItemStarted(started, parent)), delta), completed, parent).log)
  {
    hide StreamingCheck.WalkFrom, StreamingCheck.Visit, FrameOf, Clean;
    var first := t.log + [ItemStarted(started, parent)];
    WalkTell(step, t.log, ItemStarted(started, parent));
    WalkTell(step, first, delta);
    WalkTell(step, first + [delta], ItemCompleted(completed, parent));
    TripleOnCleanWalk(StreamingCheck.WalkFrom(StreamingCheck.Walk(map[], []), Frames(step, t.log)), step, started, delta, completed, parent, text);
  }

  lemma AssistantBlockKeepsClean(step: string, t: Trace, parent: Option<string>, b: AssistantBlock)
    requires CleanLog(step, t.log)
    ensures CleanLog(step, OnAssistantBlock(t, parent, b).log)
  {
    hide CleanLog;
    match b
    case TextBlock(text, uuid) =>
      var words := WordsOf(text);
      if words != "" {
        TripleKeepsClean(step, t, AgentMessage(uuid, ""), AgentDelta(uuid, words, parent), AgentMessage(uuid, words), parent, words);
      }
    case ThinkingBlock(thinking, data, uuid) =>
      var words := WordsOf(if thinking.Absent? then data else thinking);
      if words != "" {
        TripleKeepsClean(step, t, Reasoning(uuid, []), ReasoningDelta(uuid, words, parent), Reasoning(uuid, [words]), parent, words);
      }
    case ToolUseBlock(_, _, _, _) =>
      var p := PendingOf(b, parent);
      InvisibleKeepsClean(step, t.log, ItemStarted(ToolStart(p), p.parent));
    case OtherBlock =>
  }

  lemma {:induction false} AssistantKeepsClean(step: string, t: Trace, parent: Option<string>, blocks: seq<AssistantBlock>)
    requires CleanLog(step, t.log)
    ensures CleanLog(step, OnAssistantBlocks(t, parent, blocks).log)
  {
    hide CleanLog, OnAssistantBlock;
    if blocks != [] {
      AssistantKeepsClean(step, t, parent, blocks[..|blocks| - 1]);
      AssistantBlockKeepsClean(step, OnAssistantBlocks(t, parent, blocks[..|blocks| - 1]), parent, blocks[|blocks| - 1]);
    }
  }

  lemma {:induction false} UserKeepsClean(step: string, t: Trace, parent: Option<string>, blocks: seq<UserBlock>)
    requires CleanLog(step, t.log)
    ensures CleanLog(step, OnUserBlocks(t, parent, blocks).log)
  {
    hide CleanLog;
    if blocks != [] {
      var before, b := OnUserBlocks(t, parent, blocks[..|blocks| - 1]), blocks[|blocks| - 1];
      UserKeepsClean(step, t, parent, blocks[..|blocks| - 1]);
      if b.ToolResult? && b.toolUseId.Words? {
        var p := Awaited(before, b.toolUseId.text, parent);
        InvisibleKeepsClean(step, before.log, ItemCompleted(ToolEnd(p, Or(b.isError, false), WordsOf(b.content)), p.parent));
      }
    }
  }

  lemma {:induction false} DrainKeepsClean(step: string, t: Trace, order: seq<string>)
    requires CleanLog(step, t.log)
    ensures CleanLog(step, Drained(t, order).log)
  {
    hide CleanLog;
    if order != [] {
      var before, id := Drained(t, order[..|order| - 1]), order[|order| - 1];
      DrainKeepsClean(step, t, order[..|order| - 1]);
      if id in before.pending {
        var p := before.pending[id];
        InvisibleKeepsClean(step, before.log, ItemCompleted(ToolEnd(p, true, NoResult()), p.parent));
      }
    }
  }

  lemma {:induction false} RunKeepsClean(step: string, initial: seq<Item>, inputs: seq<Input>)
    ensures CleanLog(step, Run(initial, inputs).log)
  {
    if inputs == [] {
      assert Frames(step, []) == [];
    } else {
      hide CleanLog;
      var before, last := Run(initial, inputs[..|inputs| - 1]), inputs[|inputs| - 1];
      RunKeepsClean(step, initial, inputs[..|inputs| - 1]);
      match last.envelope
      case Assistant(parent, blocks, usage, _) =>
        AssistantKeepsClean(step, before, parent, blocks);
        InvisibleKeepsClean(step, OnAssistantBlocks(before, parent, blocks).log, TokenUsage);
      case User(parent, results) => UserKeepsClean(step, before, parent, results);
      case Result(usage, _) =>
        InvisibleKeepsClean(step, before.log, TokenUsage);
        DrainKeepsClean(step, WithUsage(before, usage), last.order);
      case OtherEnvelope =>
    }
  }

  /**
   * The lifecycle check has nothing to report on any turn's log and the log is well bracketed; not even fresh
   * ids are needed, because text items open and close at once and tools are not streamed.
   */
  lemma EveryTurnAccepted(step: string, initial: seq<Item>, inputs: seq<Input>)
    ensures StreamingCheck.Accepted(Frames(step, Run(initial, inputs).log))
    ensures StreamingCheck.WellBracketed(Frames(step, Run(initial, inputs).log))
  {
    RunKeepsClean(step, initial, inputs);
    StreamingCheck.AcceptedMeansWellBracketed(Frames(step, Run(initial, inputs).log));
  }
}
