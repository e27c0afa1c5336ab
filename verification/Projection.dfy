/**
 * The client's thread projection (web/projection.js): a keyed, ordered list of messages folded from thread items and
 * streaming notifications.
 */
module Projection {
  import opened Prelude
  import opened AcpItems

  datatype Role = User | Assistant | Tool

  datatype Kind = TextKind | ReasoningKind | PlanKind | CommandKind | FileChangeKind | ToolKind | OtherKind

  datatype Message = Message(id: string, role: Role, kind: Kind, text: string, command: Option<string>,
                             status: Option<string>, files: seq<string>, streamed: bool, isLocal: bool)

  /** A codex item as the projection reads it; a user message carries the text of its content. */
  datatype ThreadItem =
    | UserMessage(id: string, text: string)
    | AgentMessageItem(id: string, agentText: Option<string>)
    | ReasoningText(id: string, summary: Option<seq<string>>, content: Option<seq<string>>)
    | PlanText(id: string, planText: Option<string>)
    | CommandExecution(id: string, command: Option<string>, status: Option<string>, aggregatedOutput: Option<string>)
    | FileChange(id: string, paths: seq<string>)
    | McpToolCall(id: string, server: Option<string>, tool: Option<string>)
    | WebSearch(id: string, query: Option<string>)
    | OtherItem(id: string, itemType: string)

  datatype Notification =
    | ItemStarted(item: ThreadItem)
    | ItemCompleted(item: ThreadItem)
    | AgentDelta(itemId: string, delta: Option<string>)
    | ReasoningDelta(itemId: string, delta: Option<string>)
    | OutputDelta(itemId: string, delta: Option<string>, decodedChunk: string)
    | OtherNotification

  /** `a || b` on strings. */
  function Truthy(text: Option<string>, default: string): string {
    if text.Some? && text.value != "" then text.value else default
  }

  /** `parts.join('\n')`. */
  function JoinLines(parts: seq<string>): string {
    if parts == [] then "" else if |parts| == 1 then parts[0] else parts[0] + "\n" + JoinLines(parts[1..])
  }

  function NonEmptyPaths(paths: seq<string>): seq<string> {
    if paths == [] then [] else (if paths[0] == "" then [] else [paths[0]]) + NonEmptyPaths(paths[1..])
  }

  /** What an item sets on its message: the fields absent here keep their prior values. */
  datatype Patch = Patch(role: Role, kind: Kind, text: string, command: Option<Option<string>>,
                         status: Option<Option<string>>, files: Option<seq<string>>, streamed: Option<bool>, isLocal: Option<bool>)

  function Plain(role: Role, kind: Kind, text: string): Patch {
    Patch(role, kind, text, None, None, None, None, None)
  }

  /** An absent summary falls back to the content; an empty one does not. */
  function FromItem(item: ThreadItem): Patch {
    match item
    case UserMessage(_, text) => Plain(User, TextKind, text)
    case AgentMessageItem(_, text) => Plain(Assistant, TextKind, Or(text, ""))
    case ReasoningText(_, summary, content) =>
      Plain(Assistant, ReasoningKind, JoinLines(if summary.Some? then summary.value else Or(content, [])))
    case PlanText(_, text) => Plain(Assistant, PlanKind, Or(text, ""))
    case CommandExecution(_, command, status, output) =>
      Plain(Tool, CommandKind, Or(output, "")).(command := Some(command), status := Some(Some(Truthy(status, "running"))))
    case FileChange(_, paths) =>
      Plain(Tool, FileChangeKind, if paths == [] then "file change" else "edited " + Decimal(|paths|) + " file(s)")
        .(files := Some(NonEmptyPaths(paths)))
    case McpToolCall(_, server, tool) => Plain(Tool, ToolKind, Or(server, "") + "·" + Truthy(tool, "tool"))
    case WebSearch(_, query) => Plain(Tool, ToolKind, "search: " + Or(query, ""))
    case OtherItem(_, itemType) => Plain(Tool, OtherKind, itemType)
  }

  function Patched(prior: Option<Message>, id: string, patch: Patch): Message {
    Message(id, patch.role, patch.kind, patch.text,
            if patch.command.Some? then patch.command.value else if prior.Some? then prior.value.command else None,
            if patch.status.Some? then patch.status.value else if prior.Some? then prior.value.status else None,
            if patch.files.Some? then patch.files.value else if prior.Some? then prior.value.files else [],
            if patch.streamed.Some? then patch.streamed.value else prior.Some? && prior.value.streamed,
            if patch.isLocal.Some? then patch.isLocal.value else prior.Some? && prior.value.isLocal)
  }

  // ----- The steps, on values ----------------------------------------------------------------------------

  datatype State = State(items: map<string, Message>, order: seq<string>, nextLocalId: nat)

  const EMPTY: State := State(map[], [], 1)

  function Lookup(s: State, id: string): Option<Message> {
    if id in s.items then Some(s.items[id]) else None
  }

  function Upserted(s: State, id: string, patch: Patch): State {
    s.(items := s.items[id := Patched(Lookup(s, id), id, patch)],
       order := if id in s.items then s.order else s.order + [id])
  }

  function Without(order: seq<string>, id: string): seq<string> {
    if order == [] then []
    else Without(order[..|order| - 1], id) + (if order[|order| - 1] == id then [] else [order[|order| - 1]])
  }

  function Removed(s: State, id: string): State {
    if id in s.items then s.(items := s.items - {id}, order := Without(s.order, id)) else s
  }

  function IsLocalUser(s: State, id: string, text: string): bool {
    id in s.items && s.items[id].isLocal && s.items[id].role == User && s.items[id].text == text
  }

  /** The loop over a snapshot of the order, removing as it goes. */
  function LocalUserRemoved(s: State, ids: seq<string>, text: string): State {
    if ids == [] then s
    else
      var before, id := LocalUserRemoved(s, ids[..|ids| - 1], text), ids[|ids| - 1];
      if IsLocalUser(before, id, text) then Removed(before, id) else before
  }

  /** Whether a lifecycle frame is stale, so that the text already shown stays. */
  predicate KeepsShownText(prior: Option<Message>, patch: Patch, collapses: (string, string) -> bool) {
    && prior.Some? && prior.value.text != "" && patch.role == prior.value.role && patch.kind == prior.value.kind
    && (patch.text == "" || (prior.value.streamed && collapses(patch.text, prior.value.text)))
  }

  /** `collapses` compares a candidate text, its adjacent repetitions dropped, with the one shown. */
  function ItemApplied(s: State, item: ThreadItem, lifecycle: bool, collapses: (string, string) -> bool): State {
    var prior, patch := Lookup(s, item.id), FromItem(item);
    var cleared := if patch.role == User then LocalUserRemoved(s, s.order, patch.text) else s;
    Upserted(cleared, item.id,
             if lifecycle && KeepsShownText(prior, patch, collapses)
             then patch.(text := prior.value.text, streamed := Some(prior.value.streamed)) else patch)
  }

  function ItemsApplied(s: State, items: seq<ThreadItem>, collapses: (string, string) -> bool): State {
    if items == [] then s
    else ItemApplied(ItemsApplied(s, items[..|items| - 1], collapses), items[|items| - 1], false, collapses)
  }

  function TurnsApplied(s: State, turns: seq<seq<ThreadItem>>, collapses: (string, string) -> bool): State {
    if turns == [] then s
    else ItemsApplied(TurnsApplied(s, turns[..|turns| - 1], collapses), turns[|turns| - 1], collapses)
  }

  function Seeded(s: State, turns: seq<seq<ThreadItem>>, collapses: (string, string) -> bool): State {
    TurnsApplied(s.(items := map[], order := []), turns, collapses)
  }

  function TextShown(s: State, id: string): string {
    if id in s.items then s.items[id].text else ""
  }

  function NotificationApplied(s: State, n: Notification, collapses: (string, string) -> bool): State {
    match n
    case ItemStarted(item) => ItemApplied(s, item, true, collapses)
    case ItemCompleted(item) => ItemApplied(s, item, true, collapses)
    case AgentDelta(id, delta) =>
      Upserted(s, id, Plain(Assistant, TextKind, TextShown(s, id) + Or(delta, "")).(streamed := Some(true)))
    case ReasoningDelta(id, delta) =>
      Upserted(s, id, Plain(Assistant, ReasoningKind, TextShown(s, id) + Or(delta, "")).(streamed := Some(true)))
    case OutputDelta(id, delta, chunk) =>
      Upserted(s, id, Plain(Tool, CommandKind, TextShown(s, id) + Or(delta, chunk)).(streamed := Some(true)))
    case OtherNotification => s
  }

  function LocalId(n: nat): string {
    "local-user-" + Decimal(n)
  }

  function LocalAdded(s: State, text: string): State {
    Upserted(s.(nextLocalId := s.nextLocalId + 1), LocalId(s.nextLocalId), Plain(User, TextKind, text).(isLocal := Some(true)))
  }

  function LocalRemoved(s: State, id: string): State {
    if id in s.items && s.items[id].isLocal then Removed(s, id) else s
  }

  function RenderList(s: State): seq<Message> {
    Rendered(s, s.order)
  }

  function Rendered(s: State, ids: seq<string>): seq<Message> {
    if ids == [] then []
    else Rendered(s, ids[..|ids| - 1]) + (if ids[|ids| - 1] in s.items then [s.items[ids[|ids| - 1]]] else [])
  }

  // ----- The registry invariant --------------------------------------------------------------------------

  /** The order lists every message exactly once, under its own id. */
  ghost predicate Keyed(s: State) {
    && Enumerates(s.order, s.items.Keys)
    && forall id | id in s.items :: s.items[id].id == id
  }

  lemma UpsertKeepsKeyed(s: State, id: string, patch: Patch)
    requires Keyed(s)
    ensures Keyed(Upserted(s, id, patch))
  {
    hide Patched, Distinct;
    PatchedId(Lookup(s, id), id, patch);
    DistinctAppend(s.order, id);
  }

  lemma PatchedId(prior: Option<Message>, id: string, patch: Patch)
    ensures Patched(prior, id, patch).id == id
  {
  }

  lemma {:induction false} WithoutMeans(order: seq<string>, id: string)
    requires Distinct(order)
    ensures Distinct(Without(order, id))
    ensures forall x :: x in Without(order, id) <==> x in order && x != id
  {
    if order != [] {
      var before, last := order[..|order| - 1], order[|order| - 1];
      assert order == before + [last];
      DistinctAppend(before, last);
      WithoutMeans(before, id);
      DistinctAppend(Without(before, id), last);
    }
  }

  lemma RemoveKeepsKeyed(s: State, id: string)
    requires Keyed(s)
    ensures Keyed(Removed(s, id))
  {
    WithoutMeans(s.order, id);
    var kept := Without(s.order, id);
    forall i | 0 <= i < |kept| ensures kept[i] in s.items && kept[i] != id {
      assert kept[i] in kept;
    }
  }

  lemma {:induction false} LocalUserKeepsKeyed(s: State, ids: seq<string>, text: string)
    requires Keyed(s)
    ensures Keyed(LocalUserRemoved(s, ids, text))
  {
    hide Keyed;
    if ids != [] {
      LocalUserKeepsKeyed(s, ids[..|ids| - 1], text);
      RemoveKeepsKeyed(LocalUserRemoved(s, ids[..|ids| - 1], text), ids[|ids| - 1]);
    }
  }

  lemma ItemKeepsKeyed(s: State, item: ThreadItem, lifecycle: bool, collapses: (string, string) -> bool)
    requires Keyed(s)
    ensures Keyed(ItemApplied(s, item, lifecycle, collapses))
  {
    hide Keyed, FromItem;
    var prior, patch := Lookup(s, item.id), FromItem(item);
    LocalUserKeepsKeyed(s, s.order, patch.text);
    var cleared := if patch.role == User then LocalUserRemoved(s, s.order, patch.text) else s;
    UpsertKeepsKeyed(cleared, item.id, patch);
    if lifecycle && KeepsShownText(prior, patch, collapses) {
      UpsertKeepsKeyed(cleared, item.id, patch.(text := prior.value.text, streamed := Some(prior.value.streamed)));
    }
  }

  /** Every notification, seeding and local edit keeps the registry consistent. */
  lemma NotificationKeepsKeyed(s: State, n: Notification, collapses: (string, string) -> bool)
    requires Keyed(s)
    ensures Keyed(NotificationApplied(s, n, collapses))
  {
    hide Keyed, ItemApplied, Upserted;
    match n
    case ItemStarted(item) => ItemKeepsKeyed(s, item, true, collapses);
    case ItemCompleted(item) => ItemKeepsKeyed(s, item, true, collapses);
    case AgentDelta(id, delta) =>
      UpsertKeepsKeyed(s, id, Plain(Assistant, TextKind, TextShown(s, id) + Or(delta, "")).(streamed := Some(true)));
    case ReasoningDelta(id, delta) =>
      UpsertKeepsKeyed(s, id, Plain(Assistant, ReasoningKind, TextShown(s, id) + Or(delta, "")).(streamed := Some(true)));
    case OutputDelta(id, delta, chunk) =>
      UpsertKeepsKeyed(s, id, Plain(Tool, CommandKind, TextShown(s, id) + Or(delta, chunk)).(streamed := Some(true)));
    case OtherNotification =>
  }

  lemma LocalEditsKeepKeyed(s: State, text: string, id: string)
    requires Keyed(s)
    ensures Keyed(LocalAdded(s, text)) && Keyed(LocalRemoved(s, id))
  {
    UpsertKeepsKeyed(s.(nextLocalId := s.nextLocalId + 1), LocalId(s.nextLocalId), Plain(User, TextKind, text).(isLocal := Some(true)));
    RemoveKeepsKeyed(s, id);
  }

  lemma {:induction false} ItemsKeepKeyed(s: State, items: seq<ThreadItem>, collapses: (string, string) -> bool)
    requires Keyed(s)
    ensures Keyed(ItemsApplied(s, items, collapses))
  {
    hide Keyed, ItemApplied;
    if items != [] {
      ItemsKeepKeyed(s, items[..|items| - 1], collapses);
      ItemKeepsKeyed(ItemsApplied(s, items[..|items| - 1], collapses), items[|items| - 1], false, collapses);
    }
  }

  lemma {:induction false} SeedKeepsKeyed(s: State, turns: seq<seq<ThreadItem>>, collapses: (string, string) -> bool)
    ensures Keyed(Seeded(s, turns, collapses))
  {
    hide ItemsApplied;
    TurnsKeepKeyed(s.(items := map[], order := []), turns, collapses);
  }

  lemma {:induction false} TurnsKeepKeyed(s: State, turns: seq<seq<ThreadItem>>, collapses: (string, string) -> bool)
    requires Keyed(s)
    ensures Keyed(TurnsApplied(s, turns, collapses))
  {
    hide Keyed, ItemsApplied;
    if turns != [] {
      TurnsKeepKeyed(s, turns[..|turns| - 1], collapses);
      ItemsKeepKeyed(TurnsApplied(s, turns[..|turns| - 1], collapses), turns[|turns| - 1], collapses);
    }
  }

  /** On a consistent registry the render list is the messages in order, one per id. */
  lemma RenderListIsOrder(s: State)
    requires Keyed(s)
    ensures |RenderList(s)| == |s.order|
    ensures forall i | 0 <= i < |s.order| :: s.order[i] in s.items && RenderList(s)[i] == s.items[s.order[i]] && RenderList(s)[i].id == s.order[i]
  {
    RenderedPrefix(s, s.order);
  }

  lemma {:induction false} RenderedPrefix(s: State, ids: seq<string>)
    requires forall i | 0 <= i < |ids| :: ids[i] in s.items
    ensures |Rendered(s, ids)| == |ids|
    ensures forall i | 0 <= i < |ids| :: Rendered(s, ids)[i] == s.items[ids[i]]
  {
    if ids != [] {
      RenderedPrefix(s, ids[..|ids| - 1]);
    }
  }

  // ----- Optimistic user messages ------------------------------------------------------------------------

  lemma {:induction false} LocalUserRemovedMeans(s: State, ids: seq<string>, text: string, id: string)
    requires Distinct(ids)
    ensures var t := LocalUserRemoved(s, ids, text);
            && (id in t.items <==> id in s.items && !(id in ids && IsLocalUser(s, id, text)))
            && (id in t.items ==> t.items[id] == s.items[id])
  {
    if ids != [] {
      var before, last := ids[..|ids| - 1], ids[|ids| - 1];
      assert ids == before + [last];
      DistinctAppend(before, last);
      LocalUserRemovedMeans(s, before, text, id);
      LocalUserRemovedMeans(s, before, text, last);
    }
  }

  /** When the server's copy of a user message arrives, every optimistic copy of it goes, and nothing else does. */
  lemma ServerCopyReplacesLocal(s: State, itemId: string, text: string, id: string, lifecycle: bool, collapses: (string, string) -> bool)
    requires Keyed(s) && id != itemId
    ensures var t := ItemApplied(s, UserMessage(itemId, text), lifecycle, collapses);
            && itemId in t.items && t.items[itemId].role == User && t.items[itemId].kind == TextKind
            && (id in t.items <==> id in s.items && !IsLocalUser(s, id, text))
            && (id in t.items ==> t.items[id] == s.items[id])
  {
    LocalUserRemovedMeans(s, s.order, text, id);
  }

  // ----- The object --------------------------------------------------------------------------------------

  class ThreadProjection {
    var items: map<string, Message>
    var order: seq<string>
    var nextLocalId: nat
    const collapses: (string, string) -> bool

    ghost function Model(): State
      reads this
    {
      State(items, order, nextLocalId)
    }

    constructor (collapses: (string, string) -> bool)
      ensures Model() == EMPTY && Keyed(Model()) && this.collapses == collapses
    {
      this.collapses := collapses;
      items, order, nextLocalId := map[], [], 1;
    }

    method Upsert(id: string, patch: Patch)
      modifies this
      ensures Model() == Upserted(old(Model()), id, patch)
    {
      var existing := if id in items then Some(items[id]) else None;
      if id !in items {
        order := order + [id];
      }
      items := items[id := Patched(existing, id, patch)];
    }

    method Remove(id: string) returns (removed: bool)
      modifies this
      ensures Model() == Removed(old(Model()), id) && removed == (id in old(items))
    {
      removed := id in items;
      if !removed {
        return;
      }
      items := items - {id};
      var kept: seq<string> := [];
      for k := 0 to |order|
        invariant kept == Without(order[..k], id)
      {
        assert order[..k + 1][..k] == order[..k];
        if order[k] != id {
          kept := kept + [order[k]];
        }
      }
      assert order[..|order|] == order;
      order := kept;
    }

    method RemoveMatchingLocalUser(text: string)
      modifies this
      ensures Model() == LocalUserRemoved(old(Model()), old(order), text)
    {
      var snapshot := order;
      ghost var s := Model();
      for k := 0 to |snapshot|
        invariant Model() == LocalUserRemoved(s, snapshot[..k], text)
      {
        assert snapshot[..k + 1][..k] == snapshot[..k];
        var id := snapshot[k];
        if id in items && items[id].isLocal && items[id].role == User && items[id].text == text {
          var _ := Remove(id);
        }
      }
      assert snapshot[..|snapshot|] == snapshot;
    }

    method ApplyItem(item: ThreadItem, lifecycle: bool)
      modifies this
      ensures Model() == ItemApplied(old(Model()), item, lifecycle, collapses)
    {
      var existing := if item.id in items then Some(items[item.id]) else None;
      var patch := FromItem(item);
      if patch.role == User {
        RemoveMatchingLocalUser(patch.text);
      }
      if lifecycle && existing.Some? && existing.value.text != "" && patch.role == existing.value.role && patch.kind == existing.value.kind {
        var staleEmpty := patch.text == "";
        var duplicatedStream := existing.value.streamed && collapses(patch.text, existing.value.text);
        if staleEmpty || duplicatedStream {
          patch := patch.(text := existing.value.text, streamed := Some(existing.value.streamed));
        }
      }
      Upsert(item.id, patch);
    }

    method SeedFromThread(turns: seq<seq<ThreadItem>>)
      modifies this
      ensures Model() == Seeded(old(Model()), turns, collapses)
    {
      items, order := map[], [];
      ghost var s := Model();
      for i := 0 to |turns|
        invariant Model() == TurnsApplied(s, turns[..i], collapses)
      {
        ghost var t := Model();
        for j := 0 to |turns[i]|
          invariant Model() == ItemsApplied(t, turns[i][..j], collapses)
        {
          assert turns[i][..j + 1][..j] == turns[i][..j];
          ApplyItem(turns[i][j], false);
        }
        assert turns[i][..|turns[i]|] == turns[i] && turns[..i + 1][..i] == turns[..i];
      }
      assert turns[..|turns|] == turns;
    }

    method ApplyNotification(n: Notification) returns (changed: bool)
      modifies this
      ensures Model() == NotificationApplied(old(Model()), n, collapses) && changed == !n.OtherNotification?
    {
      match n {
        case ItemStarted(item) => ApplyItem(item, true);
        case ItemCompleted(item) => ApplyItem(item, true);
        case AgentDelta(id, delta) =>
          var shown := if id in items then items[id].text else "";
          Upsert(id, Plain(Assistant, TextKind, shown + Or(delta, "")).(streamed := Some(true)));
        case ReasoningDelta(id, delta) =>
          var shown := if id in items then items[id].text else "";
          Upsert(id, Plain(Assistant, ReasoningKind, shown + Or(delta, "")).(streamed := Some(true)));
        case OutputDelta(id, delta, chunk) =>
          var shown := if id in items then items[id].text else "";
          Upsert(id, Plain(Tool, CommandKind, shown + Or(delta, chunk)).(streamed := Some(true)));
        case OtherNotification =>
      }
      changed := !n.OtherNotification?;
    }

    method AddLocalUserMessage(text: string) returns (id: string)
      modifies this
      ensures Model() == LocalAdded(old(Model()), text) && id == LocalId(old(nextLocalId))
    {
      id := "local-user-" + Decimal(nextLocalId);
      nextLocalId := nextLocalId + 1;
      Upsert(id, Plain(User, TextKind, text).(isLocal := Some(true)));
    }

    method RemoveLocalMessage(id: string) returns (removed: bool)
      modifies this
      ensures Model() == LocalRemoved(old(Model()), id)
      ensures removed == (id in old(items) && old(items)[id].isLocal)
    {
      removed := false;
      if id in items && items[id].isLocal {
        removed := Remove(id);
      }
    }
  }
}
