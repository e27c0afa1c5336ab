/**
 * What the client shows while a turn streams, against what it shows after a refresh: folding the emitter's log into
 * the projection and seeding the projection from the stored items give the same messages, exactly when the turn has
 * no reasoning item.
 */
module LiveView {
  import opened Prelude
  import opened AcpItems
  import opened TurnStream
  import opened TurnLifecycle
  import P = Projection

  function StatusText(status: CallStatus): string {
    match status case InProgress => "inProgress" case Completed => "completed" case Failed => "failed"
  }

  function Paths(changes: seq<Change>): seq<string> {
    seq(|changes|, i requires 0 <= i < |changes| => changes[i].path)
  }

  /** The item as the projection reads it. A reasoning item always carries an empty, present summary. */
  function ToThreadItem(item: Item): P.ThreadItem {
    var id := IdText(item.id);
    match item
    case AgentItem(_, text) => P.AgentMessageItem(id, Some(text))
    case ReasoningItem(_, content) => P.ReasoningText(id, Some([]), Some(content))
    case UserItem(_, text) => P.UserMessage(id, text)
    case ImageItem(_, _) => P.OtherItem(id, "imageView")
    case FileChangeItem(_, changes, _) => P.FileChange(id, Paths(changes))
    case CommandItem(_, command, _, status, output, _, _) => P.CommandExecution(id, Some(command), Some(StatusText(status)), output)
    case DynamicToolItem(_, _, _, _, _, _, _) => P.OtherItem(id, "dynamicToolCall")
  }

  function ToNotification(n: Notification): P.Notification {
    match n
    case ItemStarted(_, item, _) => P.ItemStarted(ToThreadItem(item))
    case ItemCompleted(_, item, _) => P.ItemCompleted(ToThreadItem(item))
    case AgentDelta(_, id, delta) => P.AgentDelta(IdText(id), Some(delta))
    case ReasoningDelta(_, id, delta, _) => P.ReasoningDelta(IdText(id), Some(delta))
  }

  /** The fields of a message that decide what is drawn. */
  datatype Face = Face(id: string, role: P.Role, kind: P.Kind, text: string)

  function FaceOf(m: P.Message): Face {
    Face(m.id, m.role, m.kind, m.text)
  }

  function Faces(messages: seq<P.Message>): seq<Face> {
    seq(|messages|, i requires 0 <= i < |messages| => FaceOf(messages[i]))
  }

  function ItemFace(item: Item): Face {
    var patch := P.FromItem(ToThreadItem(item));
    Face(IdText(item.id), patch.role, patch.kind, patch.text)
  }

  function Live(log: seq<Notification>, collapses: (string, string) -> bool): P.State {
    if log == [] then P.EMPTY
    else P.NotificationApplied(Live(log[..|log| - 1], collapses), ToNotification(log[|log| - 1]), collapses)
  }

  function Refreshed(items: seq<Item>, collapses: (string, string) -> bool): P.State {
    P.Seeded(P.EMPTY, [ThreadItems(items)], collapses)
  }

  function ThreadItems(items: seq<Item>): seq<P.ThreadItem> {
    seq(|items|, i requires 0 <= i < |items| => ToThreadItem(items[i]))
  }

  lemma LiveEmit(log: seq<Notification>, n: Notification, collapses: (string, string) -> bool)
    ensures Live(log + [n], collapses) == P.NotificationApplied(Live(log, collapses), ToNotification(n), collapses)
  {
    assert (log + [n])[..|log|] == log;
  }

  // ----- One notification --------------------------------------------------------------------------------

  /** Message `id` is shown with this role, kind and text. */
  ghost predicate Shows(p: P.State, id: ItemId, role: P.Role, kind: P.Kind, text: string) {
    var key := IdText(id);
    key in p.items && p.items[key].role == role && p.items[key].kind == kind && p.items[key].text == text
  }

  /** Only message `key` may differ, and the order grows only by a new key. */
  ghost predicate TouchesOnly(p: P.State, q: P.State, key: string) {
    && q.order == (if key in p.items then p.order else p.order + [key])
    && q.items.Keys == p.items.Keys + {key}
    && forall x | x in p.items && x != key :: q.items[x] == p.items[x]
  }

  lemma ApplyTouches(p: P.State, item: P.ThreadItem, lifecycle: bool, collapses: (string, string) -> bool)
    requires P.FromItem(item).role != P.User
    ensures var q, patch, key := P.ItemApplied(p, item, lifecycle, collapses), P.FromItem(item), item.id;
            && TouchesOnly(p, q, key)
            && q.items[key].role == patch.role && q.items[key].kind == patch.kind
            && q.items[key].text == (if lifecycle && P.KeepsShownText(P.Lookup(p, key), patch, collapses) then p.items[key].text else patch.text)
            && q.items[key].streamed == (key in p.items && p.items[key].streamed)
  {
    hide P.FromItem;
    PatchSetsNoStreamed(item);
  }

  lemma PatchSetsNoStreamed(item: P.ThreadItem)
    ensures P.FromItem(item).streamed.None?
  {
  }

  lemma DeltaTouches(p: P.State, n: Notification, collapses: (string, string) -> bool)
    requires n.AgentDelta? || n.ReasoningDelta?
    requires IdText(n.itemId) in p.items
    ensures var q, key := P.NotificationApplied(p, ToNotification(n), collapses), IdText(n.itemId);
            && TouchesOnly(p, q, key) && q.items[key].role == P.Assistant && q.items[key].streamed
            && q.items[key].kind == (if n.AgentDelta? then P.TextKind else P.ReasoningKind)
            && q.items[key].text == p.items[key].text + n.delta
  {
  }

  // ----- What a tool call shows --------------------------------------------------------------------------

  /** A call shows as a command with its whole output, or under a kind whose text is never empty. */
  lemma CallFace(state: ToolCallState)
    ensures var patch := P.FromItem(ToThreadItem(RenderToolCall(state)));
            && patch.role == P.Tool
            && (if patch.kind == P.CommandKind then patch.text == OutputText(state.content) else patch.text != "")
  {
    var item := RenderToolCall(state);
    if item.FileChangeItem? && item.changes != [] {
      assert |P.FromItem(ToThreadItem(item)).text| > 0;
    }
  }

  // ----- The live view follows the emitter ---------------------------------------------------------------

  function KindOf(kind: TextKind): P.Kind {
    match kind case AgentMessage => P.TextKind case Reasoning => P.ReasoningKind
  }

  function Texts(ids: seq<ItemId>): seq<string> {
    seq(|ids|, i requires 0 <= i < |ids| => IdText(ids[i]))
  }

  ghost predicate TextItemShown(p: P.State, item: Item) {
    match item
    case AgentItem(id, text) => Shows(p, id, P.Assistant, P.TextKind, text)
    case ReasoningItem(id, content) => content != [] && content[0] != "" && |content| == 1 && Shows(p, id, P.Assistant, P.ReasoningKind, content[0])
    case _ => true
  }

  ghost predicate RunShown(p: P.State, text: Option<TextRun>) {
    text.Some? ==> Shows(p, text.value.itemId, P.Assistant, KindOf(text.value.kind), text.value.text)
  }

  /** A call's message never shows more output than the call has, and shows its last completion once it has one. */
  ghost predicate CallShown(p: P.State, log: seq<Notification>, k: string, call: Inflight) {
    var key := IdText(ToolId(k));
    && key in p.items && p.items[key].role == P.Tool && !p.items[key].streamed
    && (p.items[key].kind == P.CommandKind ==> p.items[key].text <= OutputText(call.state.content))
    && (call.completed ==>
          var last := LastCompleted(log, ToolId(k));
          last.Some? && p.items[key].kind == ItemFace(last.value).kind && p.items[key].text == ItemFace(last.value).text)
  }

  ghost predicate Listed(p: P.State, ids: seq<ItemId>) {
    p.order == Texts(ids) && (set key | key in p.order) == p.items.Keys
  }

  ghost predicate Followed(p: P.State, s: EmitterState) {
    && Listed(p, Ids(s.items) + OpenId(s))
    && (forall i | 0 <= i < |s.items| :: TextItemShown(p, s.items[i]))
    && RunShown(p, s.text)
    && (forall k | k in s.tools :: CallShown(p, s.log, k, s.tools[k]))
  }

  lemma NewIdUnlisted(p: P.State, ids: seq<ItemId>, id: ItemId)
    requires Listed(p, ids) && id !in ids
    ensures IdText(id) !in p.items
  {
    hide IdText;
    if IdText(id) in p.items {
      assert IdText(id) in p.order;
      var i :| 0 <= i < |p.order| && p.order[i] == IdText(id);
      IdTextInjective(ids[i], id);
    }
  }

  /** Touching one message leaves what is shown for every other id. */
  lemma OthersUntouched(p: P.State, q: P.State, id: ItemId, other: ItemId)
    requires TouchesOnly(p, q, IdText(id)) && id != other && IdText(other) in p.items
    ensures IdText(other) in q.items && q.items[IdText(other)] == p.items[IdText(other)]
  {
    hide IdText;
    if IdText(id) == IdText(other) {
      IdTextInjective(id, other);
    }
  }

  lemma ListedPush(p: P.State, q: P.State, ids: seq<ItemId>, id: ItemId)
    requires Listed(p, ids) && TouchesOnly(p, q, IdText(id)) && IdText(id) !in p.items
    ensures Listed(q, ids + [id])
  {
    hide IdText;
    assert Texts(ids + [id]) == Texts(ids) + [IdText(id)];
  }

  /** A notification about one id keeps every other item, run and call shown. */
  lemma OthersShown(p: P.State, q: P.State, s: EmitterState, id: ItemId, n: Notification)
    requires Followed(p, s) && TouchesOnly(p, q, IdText(id))
    requires n.ItemCompleted? ==> n.item.id == id
    ensures forall i | 0 <= i < |s.items| && s.items[i].id != id :: TextItemShown(q, s.items[i])
    ensures s.text.Some? && s.text.value.itemId != id ==> RunShown(q, s.text)
    ensures forall k | k in s.tools && ToolId(k) != id :: CallShown(q, s.log + [n], k, s.tools[k])
  {
    hide IdText, ItemFace, LastCompleted, Listed, TouchesOnly;
    forall i | 0 <= i < |s.items| && s.items[i].id != id ensures TextItemShown(q, s.items[i]) {
      assert TextItemShown(p, s.items[i]);
      if s.items[i].AgentItem? || s.items[i].ReasoningItem? {
        OthersUntouched(p, q, id, s.items[i].id);
      }
    }
    if s.text.Some? && s.text.value.itemId != id {
      OthersUntouched(p, q, id, s.text.value.itemId);
    }
    forall k | k in s.tools && ToolId(k) != id ensures CallShown(q, s.log + [n], k, s.tools[k]) {
      assert CallShown(p, s.log, k, s.tools[k]);
      OthersUntouched(p, q, id, ToolId(k));
      LastCompletedEmit(s.log, n, ToolId(k));
    }
  }

  ghost predicate FollowedLog(s: EmitterState, collapses: (string, string) -> bool) {
    Followed(Live(s.log, collapses), s)
  }

  /** The open run's id is a text id under which nothing is stored yet. */
  ghost predicate RunIsNew(s: EmitterState) {
    s.text.Some? ==>
      IsTextId(s.text.value.itemId) && forall i | 0 <= i < |s.items| :: s.items[i].id != s.text.value.itemId
  }

  lemma ConsistentRunIsNew(s: EmitterState)
    requires Consistent(s)
    ensures RunIsNew(s)
  {
  }

  lemma OpenFollowed(s: EmitterState, kind: TextKind, now: int, collapses: (string, string) -> bool)
    requires Consistent(s) && FollowedLog(s, collapses) && s.text.None?
    ensures FollowedLog(OpenText(s, kind, now), collapses) && RunIsNew(OpenText(s, kind, now))
  {
    hide IdText, CallShown, TextItemShown, Consistent, TouchesOnly, Listed, P.ItemApplied, P.FromItem, Live;
    var p, id := Live(s.log, collapses), TextId(kind, s.textSeq);
    var item := TextItem(kind, id, "");
    var n := ItemStarted(s.turn, item, now);
    ShellFace(kind, id);
    LiveEmit(s.log, n, collapses);
    TextIdIsNew(s, kind);
    NewIdUnlisted(p, Ids(s.items) + OpenId(s), id);
    ApplyTouches(p, ToThreadItem(item), true, collapses);
    var q := Live(s.log + [n], collapses);
    OthersShown(p, q, s, id, n);
    assert Ids(s.items) + [] == Ids(s.items);
    ListedPush(p, q, Ids(s.items), id);
    TouchedKeyPresent(p, q, IdText(id));
    forall i | 0 <= i < |s.items| ensures s.items[i].id != id {
      assert Ids(s.items)[i] == s.items[i].id;
    }
    assert FollowedLog(OpenText(s, kind, now), collapses) by {
      assert RunShown(q, Some(TextRun(kind, id, "")));
    }
  }

  /** A text run starts out empty on screen. */
  lemma ShellFace(kind: TextKind, id: ItemId)
    ensures ItemFace(TextItem(kind, id, "")) == Face(IdText(id), P.Assistant, KindOf(kind), "")
  {
  }

  lemma TouchedKeyPresent(p: P.State, q: P.State, key: string)
    requires TouchesOnly(p, q, key)
    ensures key in q.items
  {
  }

  lemma ListedTouch(p: P.State, q: P.State, ids: seq<ItemId>, id: ItemId)
    requires Listed(p, ids) && TouchesOnly(p, q, IdText(id)) && IdText(id) in p.items
    ensures Listed(q, ids)
  {
  }

  lemma AppendFollowed(s: EmitterState, words: string, collapses: (string, string) -> bool)
    requires RunIsNew(s) && FollowedLog(s, collapses) && s.text.Some?
    ensures FollowedLog(AppendText(s, words), collapses)
  {
    hide IdText, CallShown, TextItemShown, Consistent, TouchesOnly, Listed, P.NotificationApplied;
    var p, id := Live(s.log, collapses), s.text.value.itemId;
    var t := AppendText(s, words);
    var n := t.log[|s.log|];
    assert t.log == s.log + [n];
    LiveEmit(s.log, n, collapses);
    DeltaTouches(p, n, collapses);
    var q := Live(t.log, collapses);
    OthersShown(p, q, s, id, n);
    ListedTouch(p, q, Ids(s.items) + OpenId(s), id);
    TouchedKeyPresent(p, q, IdText(id));
  }

  /** Completing the run replaces its message by one with the same text. */
  lemma CompletedRunIsShown(p: P.State, turn: TurnRef, run: TextRun, now: int, collapses: (string, string) -> bool)
    requires RunShown(p, Some(run)) && run.text != ""
    ensures var item := TextItem(run.kind, run.itemId, run.text);
            var q := P.NotificationApplied(p, ToNotification(ItemCompleted(turn, item, now)), collapses);
            TouchesOnly(p, q, IdText(run.itemId)) && TextItemShown(q, item)
  {
    hide IdText, P.ItemApplied, TouchesOnly;
    var item := TextItem(run.kind, run.itemId, run.text);
    ApplyTouches(p, ToThreadItem(item), true, collapses);
    TouchedKeyPresent(p, P.ItemApplied(p, ToThreadItem(item), true, collapses), IdText(run.itemId));
  }

  lemma FlushFollowed(s: EmitterState, now: int, collapses: (string, string) -> bool)
    requires Consistent(s) && FollowedLog(s, collapses)
    ensures FollowedLog(TextFlushed(s, now), collapses)
  {
    hide IdText, CallShown, Consistent, TouchesOnly, Listed, P.NotificationApplied, TextItemShown, RunShown;
    if s.text.Some? {
      var p, run := Live(s.log, collapses), s.text.value;
      var item := TextItem(run.kind, run.itemId, run.text);
      var n := ItemCompleted(s.turn, item, now);
      LiveEmit(s.log, n, collapses);
      OpenRunHasText(s);
      CompletedRunIsShown(p, s.turn, run, now, collapses);
      var q := Live(s.log + [n], collapses);
      ConsistentRunIsNew(s);
      RunIsListed(p, s);
      NoRunIsShown(q);
      OthersShown(p, q, s, run.itemId, n);
      ListedTouch(p, q, Ids(s.items) + OpenId(s), run.itemId);
      IdsPush(s.items, item);
      assert Ids(s.items + [item]) + [] == Ids(s.items) + OpenId(s);
      TouchedKeyPresent(p, q, IdText(run.itemId));
    }
  }

  lemma RunIsListed(p: P.State, s: EmitterState)
    requires Followed(p, s) && s.text.Some?
    ensures IdText(s.text.value.itemId) in p.items
  {
    hide IdText, Listed, CallShown, TextItemShown;
  }

  lemma NoRunIsShown(p: P.State)
    ensures RunShown(p, None)
  {
  }

  lemma OpenRunHasText(s: EmitterState)
    requires Consistent(s) && s.text.Some?
    ensures s.text.value.text != "" && s.text.value.itemId == TextId(s.text.value.kind, s.textSeq - 1)
  {
  }

  lemma TextFollowed(s: EmitterState, kind: TextKind, content: Content, now: int, collapses: (string, string) -> bool)
    requires Consistent(s) && FollowedLog(s, collapses)
    ensures FollowedLog(TextIngested(s, kind, content, now), collapses)
  {
    hide FollowedLog, TextFlushed, AppendText, OpenText, Consistent, RunIsNew;
    var words := PluckText(content);
    if words != "" {
      FlushFollowed(s, now, collapses);
      FlushKeepsConsistent(s, now);
      ConsistentRunIsNew(s);
      OpenTextOpens(s, kind, now);
      OpenTextOpens(TextFlushed(s, now), kind, now);
      var closed := if s.text.Some? && s.text.value.kind != kind then TextFlushed(s, now) else s;
      if closed.text.None? {
        OpenFollowed(closed, kind, now, collapses);
      }
      AppendFollowed(if closed.text.None? then OpenText(closed, kind, now) else closed, words, collapses);
    }
  }

  lemma OpenTextOpens(s: EmitterState, kind: TextKind, now: int)
    ensures OpenText(s, kind, now).text.Some?
  {
  }

  /** A call announced under a new id. */
  lemma AnnouncedCallShown(p: P.State, log: seq<Notification>, k: string, state: ToolCallState, n: Notification, collapses: (string, string) -> bool)
    requires state.itemId == ToolId(k) && n.ItemStarted? && n.item == RenderToolCall(state)
    requires IdText(ToolId(k)) !in p.items
    ensures var q := P.NotificationApplied(p, ToNotification(n), collapses);
            TouchesOnly(p, q, IdText(ToolId(k))) && CallShown(q, log + [n], k, Inflight(state, false))
  {
    hide IdText, P.ItemApplied, RenderToolCall, P.FromItem;
    RenderedCall(state);
    CallFace(state);
    ItemIdKept(n.item);
    ApplyTouches(p, ToThreadItem(n.item), true, collapses);
  }

  lemma ItemIdKept(item: Item)
    ensures ToThreadItem(item).id == IdText(item.id)
  {
  }

  /** A completion of a call whose output has not shrunk replaces what is shown. */
  lemma CompletedCallShown(p: P.State, log: seq<Notification>, k: string, call: Inflight, state: ToolCallState, n: Notification, collapses: (string, string) -> bool)
    requires CallShown(p, log, k, call) && OutputText(call.state.content) <= OutputText(state.content)
    requires state.itemId == ToolId(k) && n.ItemCompleted? && n.item == RenderToolCall(state)
    ensures var q := P.NotificationApplied(p, ToNotification(n), collapses);
            TouchesOnly(p, q, IdText(ToolId(k))) && CallShown(q, log + [n], k, Inflight(state, true))
  {
    hide IdText, P.ItemApplied, RenderToolCall, P.FromItem, OutputText, ToThreadItem, LastCompleted;
    RenderedCall(state);
    CallFace(state);
    ItemIdKept(n.item);
    ApplyTouches(p, ToThreadItem(n.item), true, collapses);
    LastCompletedEmit(log, n, ToolId(k));
  }

  lemma AnnounceFollowed(s: EmitterState, fields: ToolFields, now: int, collapses: (string, string) -> bool)
    requires Consistent(s) && FollowedLog(s, collapses) && s.text.None?
    requires CallId(fields).Some? ==> CallId(fields).value !in s.tools
    ensures FollowedLog(CallAnnounced(s, fields, now), collapses)
  {
    hide IdText, TouchesOnly, Listed, RenderToolCall, CallShown, Live;
    if k :| CallId(fields) == Some(k) {
      var p, state := Live(s.log, collapses), FromAnnounce(k, fields, now);
      var item := RenderToolCall(state);
      var n := ItemStarted(s.turn, item, now);
      RenderedCall(state);
      LiveEmit(s.log, n, collapses);
      UnannouncedIsNew(s, k);
      NewIdUnlisted(p, Ids(s.items) + OpenId(s), ToolId(k));
      AnnouncedCallShown(p, s.log, k, state, n, collapses);
      var q := Live(s.log + [n], collapses);
      OthersShown(p, q, s, ToolId(k), n);
      assert Ids(s.items) + [] == Ids(s.items);
      IdsPush(s.items, item);
      ListedPush(p, q, Ids(s.items), ToolId(k));
      assert Ids(s.items + [item]) + [] == Ids(s.items) + [ToolId(k)];
    }
  }

  lemma UnannouncedIsNew(s: EmitterState, k: string)
    requires Consistent(s) && k !in s.tools && s.text.None?
    ensures ToolId(k) !in Ids(s.items) + OpenId(s)
    ensures forall i | 0 <= i < |s.items| :: s.items[i].id != ToolId(k)
  {
    hide RenderToolCall;
  }

  /** An update that is not reported keeps the call's message within its output. */
  lemma UnreportedCallShown(p: P.State, log: seq<Notification>, k: string, call: Inflight, state: ToolCallState)
    requires CallShown(p, log, k, call) && OutputText(call.state.content) <= OutputText(state.content)
    ensures CallShown(p, log, k, Inflight(state, call.completed))
  {
    hide IdText, OutputText, ItemFace, LastCompleted;
  }

  lemma MergeFollowed(s: EmitterState, k: string, fields: ToolFields, now: int, collapses: (string, string) -> bool)
    requires Consistent(s) && FollowedLog(s, collapses) && s.text.None? && k in s.tools
    ensures FollowedLog(CallMerged(s, k, fields, now), collapses)
  {
    hide IdText, TouchesOnly, Listed, RenderToolCall, CallShown, Live, OutputText, Consistent;
    var p, state := Live(s.log, collapses), MergeUpdate(s.tools[k].state, fields, now);
    var t := CallMerged(s, k, fields, now);
    var item := RenderToolCall(state);
    RenderedCall(state);
    OutputOnlyGrows(s.tools[k].state, fields, now);
    CallItemIsTool(s, k);
    KnownCall(s, k);
    CallItemsShowNoText(s, k);
    assert t.items == s.items[s.index[ToolId(k)] := item];
    assert Ids(t.items) == Ids(s.items);
    assert CallShown(p, s.log, k, s.tools[k]);
    if Terminal(state.status) {
      var n := ItemCompleted(s.turn, item, now);
      LiveEmit(s.log, n, collapses);
      CompletedCallShown(p, s.log, k, s.tools[k], state, n, collapses);
      var q := Live(s.log + [n], collapses);
      OthersShown(p, q, s, ToolId(k), n);
      CallKeyPresent(p, s.log, k, s.tools[k]);
      ListedTouch(p, q, Ids(s.items) + OpenId(s), ToolId(k));
    } else {
      UnreportedCallShown(p, s.log, k, s.tools[k], state);
    }
  }

  lemma CallItemsShowNoText(s: EmitterState, k: string)
    requires Consistent(s)
    ensures forall i | 0 <= i < |s.items| && s.items[i].id == ToolId(k) :: !s.items[i].AgentItem? && !s.items[i].ReasoningItem?
  {
    hide RenderToolCall;
  }

  lemma CallKeyPresent(p: P.State, log: seq<Notification>, k: string, call: Inflight)
    requires CallShown(p, log, k, call)
    ensures IdText(ToolId(k)) in p.items
  {
  }

  lemma SnapshotsFollowed(s: EmitterState, t: EmitterState, collapses: (string, string) -> bool)
    requires FollowedLog(s, collapses)
    requires t == s.(plan := t.plan, commands := t.commands, mode := t.mode)
    ensures FollowedLog(t, collapses)
  {
  }

  lemma IngestFollowed(s: EmitterState, note: Note, collapses: (string, string) -> bool)
    requires Consistent(s) && FollowedLog(s, collapses) && !AnnouncesKnown(s, note)
    ensures FollowedLog(Ingested(s, note), collapses)
  {
    hide FollowedLog, Consistent, TextFlushed, TextIngested, CallAnnounced, CallMerged;
    var now, flushed, t := note.now, TextFlushed(s, note.now), Ingested(s, note);
    FlushKeepsConsistent(s, now);
    FlushFollowed(s, now, collapses);
    match Relevant(note)
    case Some(AgentChunk(content)) => TextFollowed(s, AgentMessage, content, now, collapses);
    case Some(ThoughtChunk(content)) => TextFollowed(s, Reasoning, content, now, collapses);
    case Some(ToolCall(fields)) => AnnounceFollowed(flushed, fields, now, collapses);
    case Some(ToolCallUpdate(fields)) =>
      if id :| CallId(fields) == Some(id) {
        if id !in flushed.tools {
          AnnounceFollowed(flushed, fields, now, collapses);
        }
        AnnounceKeepsConsistent(flushed, fields, now);
        AnnouncedIsKnown(flushed, fields, now);
        MergeFollowed(if id in flushed.tools then flushed else CallAnnounced(flushed, fields, now), id, fields, now, collapses);
      }
    case Some(Plan(_)) => SnapshotsFollowed(flushed, t, collapses);
    case Some(UserChunk(_)) =>
    case _ => SnapshotsFollowed(s, t, collapses);
  }

  lemma FreshFollowed(turn: TurnRef, collapses: (string, string) -> bool)
    ensures FollowedLog(Fresh(turn), collapses)
  {
  }

  lemma {:induction false} RunFollowed(turn: TurnRef, notes: seq<Note>, collapses: (string, string) -> bool)
    requires forall i: nat | i < |notes| :: !AnnouncesAgain(turn, notes, i)
    ensures FollowedLog(Run(turn, notes), collapses)
  {
    hide FollowedLog, Consistent, Ingested;
    if notes == [] {
      FreshFollowed(turn, collapses);
    } else {
      var before, note := notes[..|notes| - 1], notes[|notes| - 1];
      assert notes[..|before|] == before;
      assert !AnnouncesAgain(turn, notes, |before|);
      forall i: nat | i < |before| ensures !AnnouncesAgain(turn, before, i) {
        assert before[..i] == notes[..i];
        assert !AnnouncesAgain(turn, notes, i);
      }
      RunFollowed(turn, before, collapses);
      RunConsistent(turn, before);
      IngestFollowed(Run(turn, before), note, collapses);
    }
  }

  // ----- Finishing ---------------------------------------------------------------------------------------

  function Settled(calls: map<string, Inflight>, order: seq<string>): map<string, Inflight> {
    map k | k in calls :: if k in order then Inflight(calls[k].state, true) else calls[k]
  }

  /** The view after the owed completions, with their calls marked completed. */
  lemma {:induction false} OwedFollowed(s: EmitterState, order: seq<string>, now: int, collapses: (string, string) -> bool)
    requires Consistent(s) && s.text.None? && FollowedLog(s, collapses)
    requires forall i | 0 <= i < |order| :: order[i] in s.tools
    ensures FollowedLog(s.(log := s.log + OwedCompletions(s.turn, s.tools, order, now), tools := Settled(s.tools, order)), collapses)
  {
    hide FollowedLog, RenderToolCall, Consistent;
    if order == [] {
      assert s.log + [] == s.log;
      assert Settled(s.tools, order) == s.tools;
    } else {
      var before, k := order[..|order| - 1], order[|order| - 1];
      assert order == before + [k];
      OwedFollowed(s, before, now, collapses);
      var t := s.(log := s.log + OwedCompletions(s.turn, s.tools, before, now), tools := Settled(s.tools, before));
      var after := s.(log := s.log + OwedCompletions(s.turn, s.tools, order, now), tools := Settled(s.tools, order));
      KnownCall(s, k);
      CallItemsShowNoText(s, k);
      if s.tools[k].completed {
        assert after.log == t.log;
        assert after == t;
      } else {
        assert after.log == t.log + [ItemCompleted(s.turn, RenderToolCall(s.tools[k].state), now)];
        assert after.tools == t.tools[k := Inflight(s.tools[k].state, true)];
        SettleFollowed(t, k, now, collapses);
      }
    }
  }

  lemma SettleFollowed(t: EmitterState, k: string, now: int, collapses: (string, string) -> bool)
    requires FollowedLog(t, collapses) && t.text.None? && k in t.tools && t.tools[k].state.itemId == ToolId(k)
    requires forall i | 0 <= i < |t.items| && t.items[i].id == ToolId(k) :: !t.items[i].AgentItem? && !t.items[i].ReasoningItem?
    ensures var n := ItemCompleted(t.turn, RenderToolCall(t.tools[k].state), now);
            FollowedLog(t.(log := t.log + [n], tools := t.tools[k := Inflight(t.tools[k].state, true)]), collapses)
  {
    hide IdText, TouchesOnly, Listed, RenderToolCall, CallShown, Live, OutputText;
    var p, state := Live(t.log, collapses), t.tools[k].state;
    var n := ItemCompleted(t.turn, RenderToolCall(state), now);
    assert CallShown(p, t.log, k, t.tools[k]);
    RenderedCall(state);
    LiveEmit(t.log, n, collapses);
    CompletedCallShown(p, t.log, k, t.tools[k], state, n, collapses);
    var q := Live(t.log + [n], collapses);
    OthersShown(p, q, t, ToolId(k), n);
    CallKeyPresent(p, t.log, k, t.tools[k]);
    ListedTouch(p, q, Ids(t.items) + OpenId(t), ToolId(k));
  }

  lemma FinishFollowed(turn: TurnRef, notes: seq<Note>, order: seq<string>, now: int, collapses: (string, string) -> bool)
    requires Enumerates(order, Run(turn, notes).tools.Keys)
    requires forall i: nat | i < |notes| :: !AnnouncesAgain(turn, notes, i)
    ensures var s, f := Run(turn, notes), Finished(Run(turn, notes), order, now);
            f.text.None? && FollowedLog(f.(tools := Settled(s.tools, order)), collapses)
  {
    hide FollowedLog, RenderToolCall, Consistent, TextFlushed, CloseCalls, AnnouncesAgain;
    var s := Run(turn, notes);
    RunConsistent(turn, notes);
    RunFollowed(turn, notes, collapses);
    FlushKeepsConsistent(s, now);
    FlushKeepsTurn(s, now);
    FlushFollowed(s, now, collapses);
    FinishChangesNoItem(s, order, now);
    OwedFollowed(TextFlushed(s, now), order, now, collapses);
  }

  /** What the live view shows for a stored item: its own face, but for a reasoning item the text that streamed. */
  ghost predicate LiveFace(item: Item, face: Face) {
    if item.ReasoningItem? then
      face.id == IdText(item.id) && face.role == P.Assistant && face.kind == P.ReasoningKind
      && item.content == [face.text] && face.text != ""
    else face == ItemFace(item)
  }

  lemma {:induction false} LiveShowsItems(turn: TurnRef, notes: seq<Note>, order: seq<string>, now: int, collapses: (string, string) -> bool)
    requires Enumerates(order, Run(turn, notes).tools.Keys)
    requires forall i: nat | i < |notes| :: !AnnouncesAgain(turn, notes, i)
    requires forall k | k in Run(turn, notes).tools :: !Reopened(Run(turn, notes).tools[k])
    ensures var f := Finished(Run(turn, notes), order, now);
            var faces := Faces(P.RenderList(Live(f.log, collapses)));
            |faces| == |f.items| && forall i | 0 <= i < |f.items| :: LiveFace(f.items[i], faces[i])
  {
    hide Live, IdText, AnnouncesAgain, CloseCalls, TextFlushed, ItemFace, P.Keyed;
    var s, f := Run(turn, notes), Finished(Run(turn, notes), order, now);
    var p := Live(f.log, collapses);
    FinishFollowed(turn, notes, order, now, collapses);
    LiveKeyed(f.log, collapses);
    P.RenderListIsOrder(p);
    assert Ids(f.items) + [] == Ids(f.items);
    forall i | 0 <= i < |f.items| ensures LiveFace(f.items[i], FaceOf(P.RenderList(p)[i])) {
      assert p.order[i] == IdText(f.items[i].id);
      ItemShownAsFace(turn, notes, order, now, collapses, i);
    }
  }

  lemma {:induction false} ItemShownAsFace(turn: TurnRef, notes: seq<Note>, order: seq<string>, now: int, collapses: (string, string) -> bool, i: int)
    requires Enumerates(order, Run(turn, notes).tools.Keys)
    requires forall j: nat | j < |notes| :: !AnnouncesAgain(turn, notes, j)
    requires forall k | k in Run(turn, notes).tools :: !Reopened(Run(turn, notes).tools[k])
    requires 0 <= i < |Finished(Run(turn, notes), order, now).items|
    ensures var f := Finished(Run(turn, notes), order, now);
            var p, key := Live(f.log, collapses), IdText(f.items[i].id);
            key in p.items && (p.items[key].id == key ==> LiveFace(f.items[i], FaceOf(p.items[key])))
  {
    hide Live, IdText, AnnouncesAgain, CloseCalls, TextFlushed, RenderToolCall, LastCompleted;
    var s, f := Run(turn, notes), Finished(Run(turn, notes), order, now);
    var p := Live(f.log, collapses);
    FinishFollowed(turn, notes, order, now, collapses);
    RunConsistent(turn, notes);
    FlushKeepsConsistent(s, now);
    FinishChangesNoItem(s, order, now);
    EveryStoredItemIsLastCompleted(turn, notes, order, now, i);
    StoredItemKinds(TextFlushed(s, now), i);
    match f.items[i].id
    case AgentId(_) => assert TextItemShown(p, f.items[i]);
    case ReasoningId(_) => assert TextItemShown(p, f.items[i]);
    case ToolId(k) =>
      assert CallShown(p, f.log, k, Settled(s.tools, order)[k]);
      CallItemFace(f.items[i]);
    case _ =>
  }

  lemma StoredItemKinds(s: EmitterState, i: int)
    requires Consistent(s) && 0 <= i < |s.items|
    ensures match s.items[i].id
            case AgentId(_) => s.items[i].AgentItem?
            case ReasoningId(_) => s.items[i].ReasoningItem?
            case ToolId(k) => k in s.tools && CallItem(s.items[i])
            case _ => false
  {
    hide RenderToolCall;
  }

  lemma CallItemFace(item: Item)
    requires CallItem(item)
    ensures ItemFace(item).role == P.Tool && ItemFace(item).id == IdText(item.id)
  {
  }

  lemma {:induction false} LiveKeyed(log: seq<Notification>, collapses: (string, string) -> bool)
    ensures P.Keyed(Live(log, collapses))
  {
    hide P.NotificationApplied;
    if log != [] {
      LiveKeyed(log[..|log| - 1], collapses);
      P.NotificationKeepsKeyed(Live(log[..|log| - 1], collapses), ToNotification(log[|log| - 1]), collapses);
    }
  }

  // ----- Refreshing --------------------------------------------------------------------------------------

  lemma {:induction false} SeedShows(items: seq<Item>, collapses: (string, string) -> bool)
    requires Distinct(Ids(items)) && forall i | 0 <= i < |items| :: ItemFace(items[i]).role != P.User
    ensures var p := P.ItemsApplied(P.EMPTY, ThreadItems(items), collapses);
            Listed(p, Ids(items)) && forall i | 0 <= i < |items| :: Shows(p, items[i].id, ItemFace(items[i]).role, ItemFace(items[i]).kind, ItemFace(items[i]).text)
  {
    hide IdText, P.FromItem, P.ItemApplied, TouchesOnly, Listed;
    if items == [] {
      assert Listed(P.EMPTY, []) by { EmptyListed(); }
      assert Ids(items) == [];
    } else {
      var before, last := items[..|items| - 1], items[|items| - 1];
      assert items == before + [last];
      IdsPush(before, last);
      DistinctAppend(Ids(before), last.id);
      assert forall i | 0 <= i < |before| :: items[i] == before[i] && Ids(before)[i] == items[i].id;
      SeedShows(before, collapses);
      var p := P.ItemsApplied(P.EMPTY, ThreadItems(before), collapses);
      assert ThreadItems(items)[..|before|] == ThreadItems(before);
      ItemIdKept(last);
      NewIdUnlisted(p, Ids(before), last.id);
      ApplyTouches(p, ToThreadItem(last), false, collapses);
      var q := P.ItemApplied(p, ToThreadItem(last), false, collapses);
      ListedPush(p, q, Ids(before), last.id);
      TouchedKeyPresent(p, q, IdText(last.id));
      forall i | 0 <= i < |before| ensures Shows(q, items[i].id, ItemFace(items[i]).role, ItemFace(items[i]).kind, ItemFace(items[i]).text) {
        OthersUntouched(p, q, last.id, items[i].id);
      }
    }
  }

  lemma EmptyListed()
    ensures Listed(P.EMPTY, [])
  {
  }

  lemma RefreshedShowsItems(items: seq<Item>, collapses: (string, string) -> bool)
    requires Distinct(Ids(items)) && forall i | 0 <= i < |items| :: ItemFace(items[i]).role != P.User
    ensures var faces := Faces(P.RenderList(Refreshed(items, collapses)));
            |faces| == |items| && forall i | 0 <= i < |items| :: faces[i] == ItemFace(items[i])
  {
    hide IdText, P.FromItem, P.ItemsApplied, P.Keyed, Distinct;
    var p := Refreshed(items, collapses);
    var turns := [ThreadItems(items)];
    assert turns[..0] == [] && P.TurnsApplied(P.EMPTY, turns[..0], collapses) == P.EMPTY;
    assert p == P.ItemsApplied(P.EMPTY, ThreadItems(items), collapses);
    P.SeedKeepsKeyed(P.EMPTY, [ThreadItems(items)], collapses);
    P.RenderListIsOrder(p);
    SeedShows(items, collapses);
    forall i | 0 <= i < |items| ensures FaceOf(P.RenderList(p)[i]) == ItemFace(items[i]) {
      assert p.order[i] == IdText(items[i].id);
    }
  }

  /**
   * When every call is announced once and none is left reopened, the list shown live and the list shown after a
   * refresh have the same ids, roles, kinds and texts in the same order exactly when the turn stored no reasoning
   * item; a reasoning item loses its text on refresh.
   */
  lemma LiveEqualsRefreshed(turn: TurnRef, notes: seq<Note>, order: seq<string>, now: int, collapses: (string, string) -> bool)
    requires Enumerates(order, Run(turn, notes).tools.Keys)
    requires forall i: nat | i < |notes| :: !AnnouncesAgain(turn, notes, i)
    requires forall k | k in Run(turn, notes).tools :: !Reopened(Run(turn, notes).tools[k])
    ensures var f := Finished(Run(turn, notes), order, now);
            Faces(P.RenderList(Live(f.log, collapses))) == Faces(P.RenderList(Refreshed(f.items, collapses)))
            <==> forall i | 0 <= i < |f.items| :: !f.items[i].ReasoningItem?
  {
    hide Live, Refreshed, IdText, AnnouncesAgain, Finished, Run, ItemFace, Distinct, P.RenderList;
    var f := Finished(Run(turn, notes), order, now);
    StoredIdsDistinct(turn, notes, order, now);
    LiveShowsItems(turn, notes, order, now, collapses);
    forall i | 0 <= i < |f.items| ensures ItemFace(f.items[i]).role != P.User {
      StoredItemNotUser(turn, notes, order, now, i);
    }
    RefreshedShowsItems(f.items, collapses);
    forall i | 0 <= i < |f.items| && f.items[i].ReasoningItem? ensures ItemFace(f.items[i]).text == "" {
      ReasoningLosesText(f.items[i]);
    }
  }

  lemma ReasoningLosesText(item: Item)
    requires item.ReasoningItem?
    ensures ItemFace(item).text == ""
  {
  }

  lemma OnlyUserItemsAreUsers(item: Item)
    ensures ItemFace(item).role == P.User <==> item.UserItem?
  {
  }

  lemma {:induction false} StoredItemNotUser(turn: TurnRef, notes: seq<Note>, order: seq<string>, now: int, i: int)
    requires Enumerates(order, Run(turn, notes).tools.Keys)
    requires 0 <= i < |Finished(Run(turn, notes), order, now).items|
    ensures ItemFace(Finished(Run(turn, notes), order, now).items[i]).role != P.User
  {
    hide CloseCalls, TextFlushed, IdText, ItemFace, RenderToolCall, IndexFindsLast, IdsAccountedFor;
    var s := Run(turn, notes);
    RunConsistent(turn, notes);
    FlushKeepsConsistent(s, now);
    FinishChangesNoItem(s, order, now);
    StoredItemKinds(TextFlushed(s, now), i);
    OnlyUserItemsAreUsers(TextFlushed(s, now).items[i]);
  }

  // ----- Turns of one chunk ----------------------------------------------------------------------------------

  function ChunkLog(turn: TurnRef, kind: TextKind, text: string): seq<Notification> {
    var id := TextId(kind, 0);
    [ItemStarted(turn, TextItem(kind, id, ""), 0),
     match kind case AgentMessage => AgentDelta(turn, id, text) case Reasoning => ReasoningDelta(turn, id, text, 0),
     ItemCompleted(turn, TextItem(kind, id, text), 0)]
  }

  lemma ChunkTurn(turn: TurnRef, kind: TextKind, text: string)
    requires text != ""
    ensures var s := Run(turn, [Chunk(kind, text, 0)]);
            && s.tools == map[] && Enumerates([], s.tools.Keys)
            && Finished(s, [], 0).log == ChunkLog(turn, kind, text)
            && Finished(s, [], 0).items == [TextItem(kind, TextId(kind, 0), text)]
  {
    RunStep(turn, [], Chunk(kind, text, 0));
    assert [] + [Chunk(kind, text, 0)] == [Chunk(kind, text, 0)] && "" + text == text;
  }

  /** The three frames of a chunk, over whatever is shown: a row of the same kind gets the new words at its end. */
  lemma ChunkShown(log: seq<Notification>, turn: TurnRef, kind: TextKind, text: string, collapses: (string, string) -> bool)
    requires text != ""
    requires var p, key := Live(log, collapses), IdText(TextId(kind, 0));
             key in p.items ==> p.items[key].role == P.Assistant && p.items[key].kind == KindOf(kind)
    ensures var p, q, key := Live(log, collapses), Live(log + ChunkLog(turn, kind, text), collapses), IdText(TextId(kind, 0));
            var shown := P.TextShown(p, key) + text;
            && q.order == (if key in p.items then p.order else p.order + [key]) && key in q.items
            && q.items[key].id == key && q.items[key].role == P.Assistant && q.items[key].kind == KindOf(kind)
            && q.items[key].text == if kind == Reasoning || collapses(text, shown) then shown else text
  {
    hide IdText, Live;
    var l := ChunkLog(turn, kind, text);
    LiveEmit(log, l[0], collapses);
    LiveEmit(log + [l[0]], l[1], collapses);
    LiveEmit(log + [l[0]] + [l[1]], l[2], collapses);
    assert log + [l[0]] + [l[1]] + [l[2]] == log + l;
  }

  /** The smallest turn on which the two lists differ: one thought, shown while it streams and empty after a refresh. */
  lemma ThoughtIsLostOnRefresh(turn: TurnRef, text: string, collapses: (string, string) -> bool)
    requires text != ""
    ensures var s := Run(turn, [Chunk(Reasoning, text, 0)]);
            var id := IdText(ReasoningId(0));
            && Enumerates([], s.tools.Keys)
            && Faces(P.RenderList(Live(Finished(s, [], 0).log, collapses))) == [Face(id, P.Assistant, P.ReasoningKind, text)]
            && Faces(P.RenderList(Refreshed(Finished(s, [], 0).items, collapses))) == [Face(id, P.Assistant, P.ReasoningKind, "")]
  {
    hide IdText, Live, Run, Finished, Refreshed, P.RenderList;
    ChunkTurn(turn, Reasoning, text);
    var log, items := ChunkLog(turn, Reasoning, text), [TextItem(Reasoning, ReasoningId(0), text)];
    var none: seq<Notification> := [];
    assert none + log == log;
    NothingLive(collapses);
    ChunkShown(none, turn, Reasoning, text, collapses);
    LiveKeyed(log, collapses);
    P.RenderListIsOrder(Live(log, collapses));
    assert "" + text == text;
    RefreshedShowsItems(items, collapses);
    assert Faces(P.RenderList(Refreshed(items, collapses)))[0] == ItemFace(items[0]);
  }

  lemma NothingLive(collapses: (string, string) -> bool)
    ensures Live([], collapses) == P.EMPTY
  {
  }
}
