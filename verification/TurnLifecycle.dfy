/**
 * What every run of the live turn emitter keeps: the order of its notifications and stored items, that whatever
 * starts is completed, and that the repository's own lifecycle check accepts the log of any session.
 */
module TurnLifecycle {
  import opened Prelude
  import opened AcpItems
  import opened TurnStream
  import StreamingCheck

  // ----- The state invariant -----------------------------------------------------------------------------

  predicate IsTextId(id: ItemId) {
    id.AgentId? || id.ReasoningId?
  }

  /** How many text runs have been closed. */
  function ClosedRuns(s: EmitterState): int {
    if s.text.Some? then s.textSeq - 1 else s.textSeq
  }

  /** The index finds, for every id, the last item carrying it. */
  ghost predicate IndexFindsLast(items: seq<Item>, index: map<ItemId, nat>) {
    && (forall id | id in index :: index[id] < |items| && items[index[id]].id == id)
    && (forall i | 0 <= i < |items| :: items[i].id in index && i <= index[items[i].id])
  }

  /** Each call in flight is filed under its own id, and the list holds its current rendering. */
  ghost predicate CallsShown(s: EmitterState) {
    forall k | k in s.tools ::
      && s.tools[k].state.itemId == ToolId(k)
      && ToolId(k) in s.index && s.index[ToolId(k)] < |s.items|
      && s.items[s.index[ToolId(k)]] == RenderToolCall(s.tools[k].state)
  }

  ghost predicate AccountedFor(s: EmitterState, item: Item) {
    match item.id
    case AgentId(n) => n < ClosedRuns(s) && item.AgentItem?
    case ReasoningId(n) => n < ClosedRuns(s) && item.ReasoningItem?
    case ToolId(k) => k in s.tools && CallItem(item)
    case _ => false
  }

  /** Stored ids come from closed text runs and announced calls. */
  ghost predicate IdsAccountedFor(s: EmitterState) {
    forall i | 0 <= i < |s.items| :: AccountedFor(s, s.items[i])
  }

  ghost predicate OpenRunIsLatest(s: EmitterState) {
    s.text.Some? ==>
      s.textSeq > 0 && s.text.value.text != "" && s.text.value.itemId == TextId(s.text.value.kind, s.textSeq - 1)
  }

  ghost predicate Consistent(s: EmitterState) {
    IndexFindsLast(s.items, s.index) && CallsShown(s) && IdsAccountedFor(s) && OpenRunIsLatest(s)
  }

  lemma FlushKeepsConsistent(s: EmitterState, now: int)
    requires Consistent(s)
    ensures Consistent(TextFlushed(s, now)) && TextFlushed(s, now).text.None?
    ensures TextFlushed(s, now).tools == s.tools
  {
    hide RenderToolCall, IndexFindsLast;
    var f := TextFlushed(s, now);
    if s.text.Some? {
      PushKeepsIndex(s.items, s.index, TextItem(s.text.value.kind, s.text.value.itemId, s.text.value.text));
      assert forall i | 0 <= i < |s.items| :: f.items[i] == s.items[i];
    }
  }

  lemma TextKeepsConsistent(s: EmitterState, kind: TextKind, content: Content, now: int)
    requires Consistent(s)
    ensures Consistent(TextIngested(s, kind, content, now))
  {
    hide Consistent, PluckText, TextFlushed, OpenText, AppendText;
    FlushKeepsConsistent(s, now);
    var closed := if s.text.Some? && s.text.value.kind != kind then TextFlushed(s, now) else s;
    if PluckText(content) != "" {
      if closed.text.None? {
        OpenKeepsConsistent(closed, kind, PluckText(content), now);
      } else {
        AppendKeepsConsistent(closed, PluckText(content));
      }
    }
  }

  lemma AppendKeepsConsistent(s: EmitterState, words: string)
    requires Consistent(s) && s.text.Some?
    ensures Consistent(AppendText(s, words))
  {
    hide IndexFindsLast, RenderToolCall;
    assert |s.text.value.text + words| > 0;
  }

  /** Opening a run and giving it its first words. */
  lemma OpenKeepsConsistent(s: EmitterState, kind: TextKind, words: string, now: int)
    requires Consistent(s) && s.text.None? && words != ""
    ensures OpenText(s, kind, now).text.Some? && Consistent(AppendText(OpenText(s, kind, now), words))
  {
    hide IndexFindsLast, RenderToolCall;
    assert "" + words == words;
  }

  lemma PushKeepsIndex(items: seq<Item>, index: map<ItemId, nat>, item: Item)
    requires IndexFindsLast(items, index)
    ensures IndexFindsLast(items + [item], index[item.id := |items|])
  {
  }

  lemma AnnouncedIsKnown(s: EmitterState, fields: ToolFields, now: int)
    requires CallId(fields).Some?
    ensures CallId(fields).value in CallAnnounced(s, fields, now).tools
  {
    hide RenderToolCall;
  }

  lemma AnnounceKeepsConsistent(s: EmitterState, fields: ToolFields, now: int)
    requires Consistent(s) && s.text.None?
    ensures Consistent(CallAnnounced(s, fields, now)) && CallAnnounced(s, fields, now).text.None?
  {
    hide RenderToolCall, FromAnnounce, IndexFindsLast, IdsAccountedFor, CallsShown;
    if CallId(fields).Some? {
      var state := FromAnnounce(CallId(fields).value, fields, now);
      RenderedCall(state);
      PushKeepsIndex(s.items, s.index, RenderToolCall(state));
      AnnouncedId(CallId(fields).value, fields, now);
      AnnounceKeepsCallsShown(s, CallId(fields).value, state, CallAnnounced(s, fields, now));
      AnnounceKeepsIds(s, CallId(fields).value, state, CallAnnounced(s, fields, now));
    }
  }

  lemma AnnouncedId(callId: string, fields: ToolFields, now: int)
    ensures FromAnnounce(callId, fields, now).itemId == ToolId(callId)
  {
  }

  lemma AnnounceKeepsCallsShown(s: EmitterState, id: string, state: ToolCallState, t: EmitterState)
    requires CallsShown(s) && state.itemId == ToolId(id) && RenderToolCall(state).id == ToolId(id)
    requires t.items == s.items + [RenderToolCall(state)] && t.index == s.index[ToolId(id) := |s.items|]
    requires t.tools == s.tools[id := Inflight(state, false)]
    ensures CallsShown(t)
  {
    hide RenderToolCall;
  }

  lemma AnnounceKeepsIds(s: EmitterState, id: string, state: ToolCallState, t: EmitterState)
    requires IdsAccountedFor(s) && RenderToolCall(state).id == ToolId(id) && CallItem(RenderToolCall(state))
    requires t.items == s.items + [RenderToolCall(state)] && t.tools.Keys == s.tools.Keys + {id}
    requires t.textSeq == s.textSeq && t.text == s.text
    ensures IdsAccountedFor(t)
  {
    hide RenderToolCall;
    forall i | 0 <= i < |t.items| ensures AccountedFor(t, t.items[i]) {
      assert i < |s.items| ==> AccountedFor(s, s.items[i]);
    }
  }

  lemma ReplaceKeepsIndex(items: seq<Item>, index: map<ItemId, nat>, item: Item)
    requires IndexFindsLast(items, index) && item.id in index
    ensures IndexFindsLast(items[index[item.id] := item], index)
  {
  }

  lemma MergeKeepsCallsShown(s: EmitterState, id: string, fields: ToolFields, now: int)
    requires Consistent(s) && id in s.tools
    ensures CallsShown(CallMerged(s, id, fields, now))
  {
    hide RenderToolCall, IndexFindsLast, IdsAccountedFor;
    RenderedCall(MergeUpdate(s.tools[id].state, fields, now));
    CallsFiledApart(s, id);
  }

  /** A merge replaces the call's item and keeps every other item, the runs and the known calls. */
  lemma MergedItems(s: EmitterState, id: string, fields: ToolFields, now: int)
    requires CallsShown(s) && id in s.tools
    ensures var t := CallMerged(s, id, fields, now);
            && ToolId(id) in s.index && s.index[ToolId(id)] < |s.items|
            && t.textSeq == s.textSeq && t.text == s.text && t.tools.Keys == s.tools.Keys && |t.items| == |s.items|
            && t.items[s.index[ToolId(id)]].id == ToolId(id) && CallItem(t.items[s.index[ToolId(id)]])
            && forall i | 0 <= i < |s.items| && i != s.index[ToolId(id)] :: t.items[i] == s.items[i]
  {
    hide RenderToolCall, MergeUpdate;
    RenderedCall(MergeUpdate(s.tools[id].state, fields, now));
    MergeKeepsItemId(s.tools[id].state, fields, now);
  }

  lemma MergeKeepsItemId(state: ToolCallState, fields: ToolFields, now: int)
    ensures MergeUpdate(state, fields, now).itemId == state.itemId
  {
  }

  lemma MergeKeepsIds(s: EmitterState, id: string, fields: ToolFields, now: int)
    requires Consistent(s) && s.text.None? && id in s.tools
    ensures IdsAccountedFor(CallMerged(s, id, fields, now))
  {
    hide IndexFindsLast, RenderToolCall, CallMerged, MergeUpdate;
    MergedItems(s, id, fields, now);
    hide CallsShown;
    var at, t := s.index[ToolId(id)], CallMerged(s, id, fields, now);
    forall i | 0 <= i < |t.items| ensures AccountedFor(t, t.items[i]) {
      if i != at {
        assert t.items[i] == s.items[i] && AccountedFor(s, s.items[i]);
      }
    }
  }

  lemma MergeKeepsConsistent(s: EmitterState, id: string, fields: ToolFields, now: int)
    requires Consistent(s) && s.text.None? && id in s.tools
    ensures Consistent(CallMerged(s, id, fields, now)) && CallMerged(s, id, fields, now).text.None?
  {
    hide RenderToolCall, IndexFindsLast, IdsAccountedFor;
    var state := MergeUpdate(s.tools[id].state, fields, now);
    RenderedCall(state);
    ReplaceKeepsIndex(s.items, s.index, RenderToolCall(state));
    MergeKeepsCallsShown(s, id, fields, now);
    MergeKeepsIds(s, id, fields, now);
  }

  lemma CallsFiledApart(s: EmitterState, id: string)
    requires Consistent(s) && id in s.tools
    ensures forall k | k in s.tools && k != id :: ToolId(k) in s.index && s.index[ToolId(k)] != s.index[ToolId(id)]
  {
    hide RenderToolCall;
  }

  lemma SnapshotsKeepConsistent(s: EmitterState, plan: Option<seq<string>>, commands: Option<seq<string>>, mode: Option<string>)
    requires Consistent(s)
    ensures Consistent(s.(plan := plan, commands := commands, mode := mode))
  {
    hide RenderToolCall;
  }

  lemma IngestKeepsConsistent(s: EmitterState, note: Note)
    requires Consistent(s)
    ensures Consistent(Ingested(s, note))
  {
    hide Consistent, TextFlushed, TextIngested, CallAnnounced, CallMerged;
    var now, flushed, t := note.now, TextFlushed(s, note.now), Ingested(s, note);
    FlushKeepsConsistent(s, now);
    match Relevant(note)
    case Some(AgentChunk(content)) => TextKeepsConsistent(s, AgentMessage, content, now);
    case Some(ThoughtChunk(content)) => TextKeepsConsistent(s, Reasoning, content, now);
    case Some(ToolCall(fields)) => AnnounceKeepsConsistent(flushed, fields, now);
    case Some(ToolCallUpdate(fields)) =>
      var id := CallId(fields);
      if id.Some? {
        AnnounceKeepsConsistent(flushed, fields, now);
        AnnouncedIsKnown(flushed, fields, now);
        MergeKeepsConsistent(if id.value in flushed.tools then flushed else CallAnnounced(flushed, fields, now),
                             id.value, fields, now);
      }
    case Some(Plan(_)) => SnapshotsKeepConsistent(flushed, t.plan, flushed.commands, flushed.mode);
    case Some(_) => SnapshotsKeepConsistent(s, s.plan, t.commands, t.mode);
    case None =>
  }

  lemma {:induction false} RunConsistent(turn: TurnRef, notes: seq<Note>)
    ensures Consistent(Run(turn, notes))
  {
    if notes != [] {
      RunConsistent(turn, notes[..|notes| - 1]);
      IngestKeepsConsistent(Run(turn, notes[..|notes| - 1]), notes[|notes| - 1]);
    }
  }

  // ----- Finishing changes no stored item ----------------------------------------------------------------

  /** The completions `finish` still owes, in the order the calls are drained. */
  function OwedCompletions(turn: TurnRef, calls: map<string, Inflight>, order: seq<string>, now: int): seq<Notification>
    requires forall i | 0 <= i < |order| :: order[i] in calls
  {
    if order == [] then []
    else
      var last := calls[order[|order| - 1]];
      OwedCompletions(turn, calls, order[..|order| - 1], now)
      + (if last.completed then [] else [ItemCompleted(turn, RenderToolCall(last.state), now)])
  }

  lemma {:induction false} ClosingOnlyEmits(s: EmitterState, calls: map<string, Inflight>, order: seq<string>, now: int)
    requires forall i | 0 <= i < |order| :: order[i] in calls
    requires CallsShown(s.(tools := calls))
    ensures CloseCalls(s, calls, order, now) == s.(log := s.log + OwedCompletions(s.turn, calls, order, now))
  {
    hide RenderToolCall, CloseCall;
    if order == [] {
      assert s.log + [] == s.log;
    } else {
      var last, earlier := calls[order[|order| - 1]], OwedCompletions(s.turn, calls, order[..|order| - 1], now);
      ClosingOnlyEmits(s, calls, order[..|order| - 1], now);
      ClosingEmits(s.(tools := calls), s.tools, order[|order| - 1], s.log + earlier, now);
      var owed := if last.completed then [] else [ItemCompleted(s.turn, RenderToolCall(last.state), now)];
      assert (s.log + earlier) + owed == s.log + (earlier + owed);
    }
  }

  /** Closing one call rewrites its item with itself and sends what it owes. */
  lemma ClosingEmits(s: EmitterState, tools: map<string, Inflight>, id: string, log: seq<Notification>, now: int)
    requires CallsShown(s) && id in s.tools
    ensures var call, at := s.tools[id], s.(tools := tools, log := log);
            var owed := if call.completed then [] else [ItemCompleted(s.turn, RenderToolCall(call.state), now)];
            CloseCall(at, call, now) == at.(log := log + owed)
  {
    hide RenderToolCall;
    RenderedCall(s.tools[id].state);
    assert s.items[s.index[ToolId(id)] := s.items[s.index[ToolId(id)]]] == s.items;
    assert log + [] == log;
  }

  /**
   * Whatever order the calls are drained in, `finish` stores exactly the flushed item list: its rewriting of
   * pending calls never changes an item, and only the owed completions are sent.
   */
  lemma FinishChangesNoItem(s: EmitterState, order: seq<string>, now: int)
    requires Consistent(s) && Enumerates(order, s.tools.Keys)
    ensures var f := TextFlushed(s, now);
            Finished(s, order, now) == f.(tools := map[], log := f.log + OwedCompletions(s.turn, s.tools, order, now))
  {
    FlushKeepsConsistent(s, now);
    ClosingOnlyEmits(TextFlushed(s, now).(tools := map[]), s.tools, order, now);
  }

  // ----- Starts are announced in the order items are stored ------------------------------------------------

  function StartedIds(log: seq<Notification>): seq<ItemId> {
    if log == [] then []
    else StartedIds(log[..|log| - 1])
         + (if log[|log| - 1].ItemStarted? then [log[|log| - 1].item.id] else [])
  }

  function Ids(items: seq<Item>): seq<ItemId> {
    seq(|items|, i requires 0 <= i < |items| => items[i].id)
  }

  function OpenId(s: EmitterState): seq<ItemId> {
    if s.text.Some? then [s.text.value.itemId] else []
  }

  ghost predicate StartsInOrder(s: EmitterState) {
    StartedIds(s.log) == Ids(s.items) + OpenId(s)
  }

  lemma StartedIdsEmit(log: seq<Notification>, n: Notification)
    ensures StartedIds(log + [n]) == StartedIds(log) + (if n.ItemStarted? then [n.item.id] else [])
  {
    assert (log + [n])[..|log|] == log;
  }

  lemma IdsPush(items: seq<Item>, item: Item)
    ensures Ids(items + [item]) == Ids(items) + [item.id]
  {
  }

  lemma FlushKeepsOrder(s: EmitterState, now: int)
    requires StartsInOrder(s)
    ensures StartsInOrder(TextFlushed(s, now))
  {
    if s.text.Some? {
      var item := TextItem(s.text.value.kind, s.text.value.itemId, s.text.value.text);
      StartedIdsEmit(s.log, ItemCompleted(s.turn, item, now));
      IdsPush(s.items, item);
    }
  }

  lemma OpenKeepsOrder(s: EmitterState, kind: TextKind, now: int)
    requires StartsInOrder(s) && s.text.None?
    ensures StartsInOrder(OpenText(s, kind, now))
  {
    hide Ids;
    StartedIdsEmit(s.log, ItemStarted(s.turn, TextItem(kind, TextId(kind, s.textSeq), ""), now));
  }

  lemma AppendKeepsOrder(s: EmitterState, words: string)
    requires StartsInOrder(s) && s.text.Some?
    ensures StartsInOrder(AppendText(s, words))
  {
    hide Ids;
    var t := AppendText(s, words);
    StartedIdsEmit(s.log, t.log[|s.log|]);
    assert t.log == s.log + [t.log[|s.log|]];
  }

  lemma TextKeepsOrder(s: EmitterState, kind: TextKind, content: Content, now: int)
    requires StartsInOrder(s)
    ensures StartsInOrder(TextIngested(s, kind, content, now))
  {
    hide StartsInOrder, AppendText;
    var words := PluckText(content);
    if words != "" {
      FlushKeepsOrder(s, now);
      var closed := if s.text.Some? && s.text.value.kind != kind then TextFlushed(s, now) else s;
      if closed.text.None? {
        OpenKeepsOrder(closed, kind, now);
      }
      AppendKeepsOrder(if closed.text.None? then OpenText(closed, kind, now) else closed, words);
    }
  }

  lemma AnnounceKeepsOrder(s: EmitterState, fields: ToolFields, now: int)
    requires StartsInOrder(s) && s.text.None?
    ensures StartsInOrder(CallAnnounced(s, fields, now))
  {
    hide RenderToolCall, FromAnnounce, StartedIds;
    if CallId(fields).Some? {
      var state := FromAnnounce(CallId(fields).value, fields, now);
      StartedIdsEmit(s.log, ItemStarted(s.turn, RenderToolCall(state), state.startedAtMs));
      IdsPush(s.items, RenderToolCall(state));
    }
  }

  lemma ReplacedIds(s: EmitterState, t: EmitterState, id: string)
    requires ToolId(id) in s.index && s.index[ToolId(id)] < |s.items| == |t.items|
    requires CallsShown(s) && id in s.tools
    requires t.items[s.index[ToolId(id)]].id == ToolId(id)
    requires forall i | 0 <= i < |s.items| && i != s.index[ToolId(id)] :: t.items[i] == s.items[i]
    ensures Ids(t.items) == Ids(s.items)
  {
    hide RenderToolCall;
    RenderedCall(s.tools[id].state);
  }

  lemma MergeKeepsOrder(s: EmitterState, id: string, fields: ToolFields, now: int)
    requires Consistent(s) && StartsInOrder(s) && id in s.tools
    ensures StartsInOrder(CallMerged(s, id, fields, now))
  {
    hide RenderToolCall, MergeUpdate, IndexFindsLast, CallsShown, IdsAccountedFor, StartedIds;
    var state := MergeUpdate(s.tools[id].state, fields, now);
    var t := CallMerged(s, id, fields, now);
    MergedItems(s, id, fields, now);
    assert Ids(t.items) == Ids(s.items) by {
      ReplacedIds(s, t, id);
    }
    StartedIdsEmit(s.log, ItemCompleted(s.turn, RenderToolCall(state), now));
  }

  lemma IngestKeepsOrder(s: EmitterState, note: Note)
    requires Consistent(s) && StartsInOrder(s)
    ensures StartsInOrder(Ingested(s, note))
  {
    hide Consistent, TextFlushed, TextIngested, CallAnnounced, CallMerged, RenderToolCall;
    var now, flushed := note.now, TextFlushed(s, note.now);
    FlushKeepsConsistent(s, now);
    FlushKeepsOrder(s, now);
    match Relevant(note)
    case Some(AgentChunk(content)) => TextKeepsOrder(s, AgentMessage, content, now);
    case Some(ThoughtChunk(content)) => TextKeepsOrder(s, Reasoning, content, now);
    case Some(ToolCall(fields)) => AnnounceKeepsOrder(flushed, fields, now);
    case Some(ToolCallUpdate(fields)) =>
      var id := CallId(fields);
      if id.Some? {
        AnnounceKeepsConsistent(flushed, fields, now);
        AnnounceKeepsOrder(flushed, fields, now);
        AnnouncedIsKnown(flushed, fields, now);
        MergeKeepsOrder(if id.value in flushed.tools then flushed else CallAnnounced(flushed, fields, now),
                        id.value, fields, now);
      }
    case _ =>
  }

  /** In every reachable state the stored ids, then the open run's, are the started ids in the order sent. */
  lemma {:induction false} RunStartsInOrder(turn: TurnRef, notes: seq<Note>)
    ensures StartsInOrder(Run(turn, notes))
  {
    if notes != [] {
      var before := Run(turn, notes[..|notes| - 1]);
      RunConsistent(turn, notes[..|notes| - 1]);
      RunStartsInOrder(turn, notes[..|notes| - 1]);
      IngestKeepsOrder(before, notes[|notes| - 1]);
    }
  }

  // ----- Whatever starts is completed ----------------------------------------------------------------------

  /** The start at position `i` is followed by a completion for its id. */
  ghost predicate Answered(log: seq<Notification>, i: int) {
    0 <= i < |log| && log[i].ItemStarted?
    && exists j :: i < j < |log| && log[j].ItemCompleted? && log[j].item.id == log[i].item.id
  }

  /** The emitter still has to complete `id`: it is the open run's, or a call's not yet reported completed. */
  predicate Owes(s: EmitterState, id: ItemId) {
    || (s.text.Some? && s.text.value.itemId == id)
    || (id.ToolId? && id.callId in s.tools && !s.tools[id.callId].completed)
  }

  ghost predicate StartsAccountedFor(s: EmitterState) {
    forall i | 0 <= i < |s.log| && s.log[i].ItemStarted? :: Answered(s.log, i) || Owes(s, s.log[i].item.id)
  }

  /** Sending one more notification settles the starts it completes and keeps the others. */
  lemma EmitAccounts(s: EmitterState, t: EmitterState, n: Notification)
    requires StartsAccountedFor(s) && t.log == s.log + [n]
    requires n.ItemStarted? ==> Owes(t, n.item.id)
    requires forall id | Owes(s, id) :: Owes(t, id) || (n.ItemCompleted? && n.item.id == id)
    ensures StartsAccountedFor(t)
  {
    forall i | 0 <= i < |t.log| && t.log[i].ItemStarted? ensures Answered(t.log, i) || Owes(t, t.log[i].item.id) {
      if i < |s.log| {
        if Answered(s.log, i) {
          var j :| i < j < |s.log| && s.log[j].ItemCompleted? && s.log[j].item.id == s.log[i].item.id;
          assert t.log[j] == s.log[j];
        } else if !Owes(t, t.log[i].item.id) {
          assert t.log[|s.log|] == n;
        }
      }
    }
  }

  lemma SameLogAccounts(s: EmitterState, t: EmitterState)
    requires StartsAccountedFor(s) && t.log == s.log && forall id | Owes(s, id) :: Owes(t, id)
    ensures StartsAccountedFor(t)
  {
  }

  lemma FlushAccounts(s: EmitterState, now: int)
    requires StartsAccountedFor(s)
    ensures StartsAccountedFor(TextFlushed(s, now))
  {
    hide StartsAccountedFor;
    if s.text.Some? {
      var run := s.text.value;
      EmitAccounts(s, TextFlushed(s, now), ItemCompleted(s.turn, TextItem(run.kind, run.itemId, run.text), now));
    }
  }

  lemma TextAccounts(s: EmitterState, kind: TextKind, content: Content, now: int)
    requires StartsAccountedFor(s)
    ensures StartsAccountedFor(TextIngested(s, kind, content, now))
  {
    hide StartsAccountedFor;
    var words := PluckText(content);
    if words != "" {
      FlushAccounts(s, now);
      var closed := if s.text.Some? && s.text.value.kind != kind then TextFlushed(s, now) else s;
      var open := if closed.text.None? then OpenText(closed, kind, now) else closed;
      if closed.text.None? {
        EmitAccounts(closed, open, ItemStarted(s.turn, TextItem(kind, TextId(kind, closed.textSeq), ""), now));
      }
      var n := AppendText(open, words).log[|open.log|];
      EmitAccounts(open, AppendText(open, words), n);
    }
  }

  lemma AnnounceAccounts(s: EmitterState, fields: ToolFields, now: int)
    requires StartsAccountedFor(s)
    ensures StartsAccountedFor(CallAnnounced(s, fields, now))
  {
    hide StartsAccountedFor, RenderToolCall;
    if CallId(fields).Some? {
      var state := FromAnnounce(CallId(fields).value, fields, now);
      RenderedCall(state);
      EmitAccounts(s, CallAnnounced(s, fields, now), ItemStarted(s.turn, RenderToolCall(state), now));
    }
  }

  lemma MergeAccounts(s: EmitterState, id: string, fields: ToolFields, now: int)
    requires StartsAccountedFor(s) && id in s.tools && s.tools[id].state.itemId == ToolId(id)
    ensures StartsAccountedFor(CallMerged(s, id, fields, now))
  {
    hide StartsAccountedFor, RenderToolCall;
    var state := MergeUpdate(s.tools[id].state, fields, now);
    RenderedCall(state);
    if Terminal(state.status) {
      EmitAccounts(s, CallMerged(s, id, fields, now), ItemCompleted(s.turn, RenderToolCall(state), now));
    } else {
      SameLogAccounts(s, CallMerged(s, id, fields, now));
    }
  }

  lemma KnownCall(s: EmitterState, id: string)
    requires Consistent(s) && id in s.tools
    ensures s.tools[id].state.itemId == ToolId(id)
  {
  }

  lemma IngestAccounts(s: EmitterState, note: Note)
    requires Consistent(s) && StartsAccountedFor(s)
    ensures StartsAccountedFor(Ingested(s, note))
  {
    hide StartsAccountedFor, Consistent, TextFlushed, TextIngested, CallAnnounced, CallMerged;
    var now, flushed := note.now, TextFlushed(s, note.now);
    FlushKeepsConsistent(s, now);
    FlushAccounts(s, now);
    match Relevant(note)
    case Some(AgentChunk(content)) => TextAccounts(s, AgentMessage, content, now);
    case Some(ThoughtChunk(content)) => TextAccounts(s, Reasoning, content, now);
    case Some(ToolCall(fields)) => AnnounceAccounts(flushed, fields, now);
    case Some(ToolCallUpdate(fields)) =>
      if id :| CallId(fields) == Some(id) {
        AnnounceAccounts(flushed, fields, now);
        AnnounceKeepsConsistent(flushed, fields, now);
        AnnouncedIsKnown(flushed, fields, now);
        var known := if id in flushed.tools then flushed else CallAnnounced(flushed, fields, now);
        KnownCall(known, id);
        MergeAccounts(known, id, fields, now);
      }
    case Some(Plan(_)) => SameLogAccounts(flushed, Ingested(s, note));
    case Some(UserChunk(_)) =>
    case _ => SameLogAccounts(s, Ingested(s, note));
  }

  lemma {:induction false} RunAccounts(turn: TurnRef, notes: seq<Note>)
    ensures StartsAccountedFor(Run(turn, notes))
  {
    if notes != [] {
      RunConsistent(turn, notes[..|notes| - 1]);
      RunAccounts(turn, notes[..|notes| - 1]);
      IngestAccounts(Run(turn, notes[..|notes| - 1]), notes[|notes| - 1]);
    }
  }

  lemma {:induction false} OwedCompletionsSettle(turn: TurnRef, calls: map<string, Inflight>, order: seq<string>, now: int, k: string)
    requires forall i | 0 <= i < |order| :: order[i] in calls
    requires k in order && !calls[k].completed
    ensures ItemCompleted(turn, RenderToolCall(calls[k].state), now) in OwedCompletions(turn, calls, order, now)
  {
    hide RenderToolCall;
    if order[|order| - 1] != k {
      OwedCompletionsSettle(turn, calls, order[..|order| - 1], now, k);
    }
  }

  /** After `finish`, every start is followed by a completion for its id. */
  lemma {:induction false} EveryStartCompleted(turn: TurnRef, notes: seq<Note>, order: seq<string>, now: int, i: int)
    requires Enumerates(order, Run(turn, notes).tools.Keys)
    requires var log := Finished(Run(turn, notes), order, now).log; 0 <= i < |log| && log[i].ItemStarted?
    ensures Answered(Finished(Run(turn, notes), order, now).log, i)
  {
    hide RenderToolCall, CloseCalls, CallsShown;
    var s := Run(turn, notes);
    RunConsistent(turn, notes);
    RunAccounts(turn, notes);
    FlushKeepsConsistent(s, now);
    FlushAccounts(s, now);
    FinishChangesNoItem(s, order, now);
    var f := TextFlushed(s, now);
    var owed := OwedCompletions(s.turn, s.tools, order, now);
    OwedHasNoStart(s.turn, s.tools, order, now);
    assert i < |f.log|;
    if Answered(f.log, i) {
      var j :| i < j < |f.log| && f.log[j].ItemCompleted? && f.log[j].item.id == f.log[i].item.id;
      assert (f.log + owed)[j] == f.log[j];
    } else {
      var k := f.log[i].item.id.callId;
      KnownCall(f, k);
      RenderedCall(s.tools[k].state);
      OwedCompletionsSettle(s.turn, s.tools, order, now, k);
      var j :| 0 <= j < |owed| && owed[j] == ItemCompleted(s.turn, RenderToolCall(s.tools[k].state), now);
      assert (f.log + owed)[|f.log| + j] == owed[j];
    }
  }

  lemma {:induction false} OwedHasNoStart(turn: TurnRef, calls: map<string, Inflight>, order: seq<string>, now: int)
    requires forall i | 0 <= i < |order| :: order[i] in calls
    ensures forall i | 0 <= i < |OwedCompletions(turn, calls, order, now)| :: OwedCompletions(turn, calls, order, now)[i].ItemCompleted?
  {
    hide RenderToolCall;
    if order != [] {
      OwedHasNoStart(turn, calls, order[..|order| - 1], now);
    }
  }

  // ----- The stored item is the last one announced as completed --------------------------------------------

  function LastCompleted(log: seq<Notification>, id: ItemId): Option<Item> {
    if log == [] then None
    else
      var n := log[|log| - 1];
      if n.ItemCompleted? && n.item.id == id then Some(n.item) else LastCompleted(log[..|log| - 1], id)
  }

  lemma LastCompletedEmit(log: seq<Notification>, n: Notification, id: ItemId)
    ensures LastCompleted(log + [n], id)
         == if n.ItemCompleted? && n.item.id == id then Some(n.item) else LastCompleted(log, id)
  {
    assert (log + [n])[..|log|] == log;
  }

  /** A call reported completed whose status has since left `completed` and `failed`. */
  predicate Reopened(call: Inflight) {
    call.completed && !Terminal(call.state.status)
  }

  predicate InProgressItem(item: Item) {
    CallItem(item) && item.status == InProgress
  }

  /** What the log last reported for a call that is marked completed. */
  ghost predicate ReportCurrent(log: seq<Notification>, k: string, call: Inflight) {
    call.completed ==>
      var last := LastCompleted(log, ToolId(k));
      && last.Some? && !InProgressItem(last.value)
      && (Terminal(call.state.status) ==> last.value == RenderToolCall(call.state))
  }

  ghost predicate TextReported(s: EmitterState) {
    forall i | 0 <= i < |s.items| && IsTextId(s.items[i].id) :: LastCompleted(s.log, s.items[i].id) == Some(s.items[i])
  }

  ghost predicate ReportsCurrent(s: EmitterState) {
    TextReported(s) && forall k | k in s.tools :: ReportCurrent(s.log, k, s.tools[k])
  }

  /** Sending something other than a completion of a listed item changes no report. */
  lemma ReportsAfter(s: EmitterState, t: EmitterState, n: Notification)
    requires ReportsCurrent(s) && t.log == s.log + [n] && t.items == s.items
    requires forall k | k in t.tools :: k in s.tools && t.tools[k] == s.tools[k]
    requires n.ItemCompleted? ==> IsTextId(n.item.id) && forall i | 0 <= i < |s.items| :: s.items[i].id != n.item.id
    ensures ReportsCurrent(t)
  {
    hide RenderToolCall;
    forall id ensures LastCompleted(t.log, id) == if n.ItemCompleted? && n.item.id == id then Some(n.item) else LastCompleted(s.log, id) {
      LastCompletedEmit(s.log, n, id);
    }
  }

  lemma FlushReports(s: EmitterState, now: int)
    requires Consistent(s) && ReportsCurrent(s)
    ensures ReportsCurrent(TextFlushed(s, now))
  {
    hide RenderToolCall, ReportCurrent, LastCompleted, IndexFindsLast, CallsShown;
    if s.text.Some? {
      var run, t := s.text.value, TextFlushed(s, now);
      var n := ItemCompleted(s.turn, TextItem(run.kind, run.itemId, run.text), now);
      ReportsAfter(s, s.(log := s.log + [n]), n);
      LastCompletedEmit(s.log, n, run.itemId);
    }
  }

  lemma TextReports(s: EmitterState, kind: TextKind, content: Content, now: int)
    requires Consistent(s) && ReportsCurrent(s)
    ensures ReportsCurrent(TextIngested(s, kind, content, now))
  {
    hide RenderToolCall, ReportsCurrent, Consistent;
    var words := PluckText(content);
    if words != "" {
      FlushReports(s, now);
      var closed := if s.text.Some? && s.text.value.kind != kind then TextFlushed(s, now) else s;
      var open := if closed.text.None? then OpenText(closed, kind, now) else closed;
      if closed.text.None? {
        ReportsAfter(closed, open, ItemStarted(s.turn, TextItem(kind, TextId(kind, closed.textSeq), ""), now));
      }
      var t := AppendText(open, words);
      ReportsAfter(open, t, t.log[|open.log|]);
    }
  }

  lemma AnnounceReports(s: EmitterState, fields: ToolFields, now: int)
    requires ReportsCurrent(s)
    ensures ReportsCurrent(CallAnnounced(s, fields, now))
  {
    hide RenderToolCall, LastCompleted;
    if CallId(fields).Some? {
      var state := FromAnnounce(CallId(fields).value, fields, now);
      RenderedCall(state);
      var n := ItemStarted(s.turn, RenderToolCall(state), now);
      forall id ensures LastCompleted(s.log + [n], id) == LastCompleted(s.log, id) {
        LastCompletedEmit(s.log, n, id);
      }
    }
  }

  lemma MergeReports(s: EmitterState, id: string, fields: ToolFields, now: int)
    requires Consistent(s) && ReportsCurrent(s) && id in s.tools
    ensures ReportsCurrent(CallMerged(s, id, fields, now))
  {
    hide RenderToolCall, LastCompleted, IndexFindsLast, IdsAccountedFor;
    var state := MergeUpdate(s.tools[id].state, fields, now);
    RenderedCall(state);
    CallItemIsTool(s, id);
    var n := ItemCompleted(s.turn, RenderToolCall(state), now);
    forall i ensures LastCompleted(s.log + [n], i) == if i == ToolId(id) then Some(n.item) else LastCompleted(s.log, i) {
      LastCompletedEmit(s.log, n, i);
    }
  }

  lemma CallItemIsTool(s: EmitterState, id: string)
    requires Consistent(s) && id in s.tools
    ensures ToolId(id) in s.index && s.index[ToolId(id)] < |s.items| && s.items[s.index[ToolId(id)]].id == ToolId(id)
  {
  }

  lemma IngestReports(s: EmitterState, note: Note)
    requires Consistent(s) && ReportsCurrent(s)
    ensures ReportsCurrent(Ingested(s, note))
  {
    hide Consistent, ReportCurrent, LastCompleted, TextFlushed, TextIngested, CallAnnounced, CallMerged;
    var now, flushed := note.now, TextFlushed(s, note.now);
    FlushKeepsConsistent(s, now);
    FlushReports(s, now);
    match Relevant(note)
    case Some(AgentChunk(content)) => TextReports(s, AgentMessage, content, now);
    case Some(ThoughtChunk(content)) => TextReports(s, Reasoning, content, now);
    case Some(ToolCall(fields)) => AnnounceReports(flushed, fields, now);
    case Some(ToolCallUpdate(fields)) =>
      if id :| CallId(fields) == Some(id) {
        AnnounceReports(flushed, fields, now);
        AnnounceKeepsConsistent(flushed, fields, now);
        AnnouncedIsKnown(flushed, fields, now);
        var known := if id in flushed.tools then flushed else CallAnnounced(flushed, fields, now);
        MergeReports(known, id, fields, now);
      }
    case _ =>
  }

  lemma {:induction false} RunReports(turn: TurnRef, notes: seq<Note>)
    ensures ReportsCurrent(Run(turn, notes))
  {
    if notes != [] {
      RunConsistent(turn, notes[..|notes| - 1]);
      RunReports(turn, notes[..|notes| - 1]);
      IngestReports(Run(turn, notes[..|notes| - 1]), notes[|notes| - 1]);
    }
  }

  /** The last completion for `id` once the owed ones are sent. */
  lemma {:induction false} OwedReports(log: seq<Notification>, turn: TurnRef, calls: map<string, Inflight>, order: seq<string>, now: int, id: ItemId)
    requires forall i | 0 <= i < |order| :: order[i] in calls && calls[order[i]].state.itemId == ToolId(order[i])
    ensures LastCompleted(log + OwedCompletions(turn, calls, order, now), id)
         == if id.ToolId? && id.callId in order && !calls[id.callId].completed then Some(RenderToolCall(calls[id.callId].state))
            else LastCompleted(log, id)
  {
    hide RenderToolCall;
    if order == [] {
      assert log + [] == log;
    } else {
      var last, before := order[|order| - 1], order[..|order| - 1];
      OwedReports(log, turn, calls, before, now, id);
      RenderedCall(calls[last].state);
      var n := ItemCompleted(turn, RenderToolCall(calls[last].state), now);
      var sent := OwedCompletions(turn, calls, before, now);
      LastCompletedEmit(log + sent, n, id);
      assert log + (sent + [n]) == log + sent + [n];
      assert log + (sent + []) == log + sent;
    }
  }

  /**
   * After `finish`, the item stored last under an id is the last payload completed for that id, except exactly for
   * a call that was reported completed and then left its terminal status without being announced again.
   */
  lemma {:induction false} StoredItemIsLastCompleted(turn: TurnRef, notes: seq<Note>, order: seq<string>, now: int, id: ItemId)
    requires Enumerates(order, Run(turn, notes).tools.Keys)
    requires id in Finished(Run(turn, notes), order, now).index
    ensures var s := Run(turn, notes);
            var f := Finished(s, order, now);
            f.index[id] < |f.items|
            && (LastCompleted(f.log, id) == Some(f.items[f.index[id]])
                <==> !(id.ToolId? && id.callId in s.tools && Reopened(s.tools[id.callId])))
  {
    hide RenderToolCall, CloseCalls, LastCompleted, TextFlushed;
    var s := Run(turn, notes);
    RunConsistent(turn, notes);
    RunReports(turn, notes);
    FlushKeepsConsistent(s, now);
    FlushReports(s, now);
    FinishChangesNoItem(s, order, now);
    var f := TextFlushed(s, now);
    OwedReports(f.log, f.turn, s.tools, order, now, id);
    FlushKeepsTurn(s, now);
    if id.ToolId? && id.callId in s.tools {
      RenderedCall(s.tools[id.callId].state);
    }
  }

  lemma FlushKeepsTurn(s: EmitterState, now: int)
    ensures TextFlushed(s, now).turn == s.turn
  {
  }

  /** When every call is announced once and none is left reopened, every stored item is its last completed payload. */
  lemma {:induction false} EveryStoredItemIsLastCompleted(turn: TurnRef, notes: seq<Note>, order: seq<string>, now: int, i: int)
    requires Enumerates(order, Run(turn, notes).tools.Keys)
    requires var s := Run(turn, notes); forall k | k in s.tools :: !Reopened(s.tools[k])
    requires forall j: nat | j < |notes| :: !AnnouncesAgain(turn, notes, j)
    requires 0 <= i < |Finished(Run(turn, notes), order, now).items|
    ensures var f := Finished(Run(turn, notes), order, now); LastCompleted(f.log, f.items[i].id) == Some(f.items[i])
  {
    hide RenderToolCall, CloseCalls, LastCompleted, TextFlushed;
    var s := Run(turn, notes);
    var f := Finished(s, order, now);
    RunConsistent(turn, notes);
    FlushKeepsConsistent(s, now);
    FinishChangesNoItem(s, order, now);
    StoredItemIsLastCompleted(turn, notes, order, now, f.items[i].id);
    StoredIdsDistinct(turn, notes, order, now);
    var last := f.index[f.items[i].id];
    assert Ids(f.items)[last] == Ids(f.items)[i];
  }

  // ----- When an id is stored twice ------------------------------------------------------------------------

  /** Event `i` announces a call that is already known. */
  predicate AnnouncesAgain(turn: TurnRef, notes: seq<Note>, i: nat)
    requires i < |notes|
  {
    match Relevant(notes[i])
    case Some(ToolCall(fields)) => CallId(fields).Some? && CallId(fields).value in Run(turn, notes[..i]).tools
    case _ => false
  }

  /** The emitter knows exactly the calls that some event named. */
  lemma {:induction false} KnownCallsAreNamed(turn: TurnRef, notes: seq<Note>, id: string)
    ensures id in Run(turn, notes).tools <==> Mentions(notes, id)
  {
    if notes != [] {
      hide Ingested, Mentions;
      var before, note := notes[..|notes| - 1], notes[|notes| - 1];
      assert notes == before + [note];
      KnownCallsAreNamed(turn, before, id);
      MentionsAppend(before, note, id);
      IngestLearns(Run(turn, before), note, id);
    }
  }

  lemma FlushKeepsCalls(s: EmitterState, now: int)
    ensures TextFlushed(s, now).tools == s.tools
  {
  }

  lemma CallLearned(s: EmitterState, fields: ToolFields, now: int, id: string)
    ensures id in CallAnnounced(s, fields, now).tools <==> id in s.tools || CallId(fields) == Some(id)
    ensures id in CallUpdated(s, fields, now).tools <==> id in s.tools || CallId(fields) == Some(id)
  {
    hide RenderToolCall;
  }

  lemma IngestLearns(s: EmitterState, note: Note, id: string)
    ensures id in Ingested(s, note).tools <==> id in s.tools || Names(note, id)
  {
    hide TextFlushed, TextIngested, CallAnnounced, CallUpdated;
    FlushKeepsCalls(s, note.now);
    match Relevant(note)
    case Some(AgentChunk(content)) => TextKeepsCalls(s, AgentMessage, content, note.now);
    case Some(ThoughtChunk(content)) => TextKeepsCalls(s, Reasoning, content, note.now);
    case Some(ToolCall(fields)) => CallLearned(TextFlushed(s, note.now), fields, note.now, id);
    case Some(ToolCallUpdate(fields)) => CallLearned(TextFlushed(s, note.now), fields, note.now, id);
    case _ =>
  }

  lemma TextKeepsCalls(s: EmitterState, kind: TextKind, content: Content, now: int)
    ensures TextIngested(s, kind, content, now).tools == s.tools
  {
  }

  /** Over the events alone: an announcement repeats exactly when an earlier event named its call. */
  lemma AnnouncesAgainMeans(turn: TurnRef, notes: seq<Note>, i: nat)
    requires i < |notes|
    ensures AnnouncesAgain(turn, notes, i) <==>
            exists id :: Relevant(notes[i]).Some? && Relevant(notes[i]).value.ToolCall? && Names(notes[i], id) && Mentions(notes[..i], id)
  {
    hide Mentions;
    match Relevant(notes[i])
    case Some(ToolCall(fields)) =>
      if id :| CallId(fields) == Some(id) {
        KnownCallsAreNamed(turn, notes[..i], id);
        assert Names(notes[i], id);
      }
    case _ =>
  }

  ghost predicate IdsDistinct(s: EmitterState) {
    Distinct(Ids(s.items) + OpenId(s))
  }

  lemma FlushKeepsDistinct(s: EmitterState, now: int)
    ensures IdsDistinct(TextFlushed(s, now)) <==> IdsDistinct(s)
  {
    if s.text.Some? {
      IdsPush(s.items, TextItem(s.text.value.kind, s.text.value.itemId, s.text.value.text));
      assert Ids(TextFlushed(s, now).items) + [] == Ids(s.items) + OpenId(s);
    }
  }

  lemma TextKeepsDistinct(s: EmitterState, kind: TextKind, content: Content, now: int)
    requires Consistent(s)
    ensures IdsDistinct(TextIngested(s, kind, content, now)) <==> IdsDistinct(s)
  {
    hide Distinct, TextFlushed;
    FlushKeepsDistinct(s, now);
    FlushKeepsConsistent(s, now);
    if PluckText(content) != "" {
      var closed := if s.text.Some? && s.text.value.kind != kind then TextFlushed(s, now) else s;
      if closed.text.None? {
        TextIdIsNew(closed, kind);
        DistinctAppend(Ids(closed.items), TextId(kind, closed.textSeq));
        assert Ids(closed.items) + [] == Ids(closed.items);
      }
    }
  }

  lemma TextIdIsNew(s: EmitterState, kind: TextKind)
    requires Consistent(s) && s.text.None?
    ensures TextId(kind, s.textSeq) !in Ids(s.items)
  {
    hide RenderToolCall;
  }

  lemma CallStoredIfKnown(s: EmitterState, k: string)
    requires Consistent(s)
    ensures ToolId(k) in Ids(s.items) <==> k in s.tools
  {
    hide RenderToolCall;
    if k in s.tools {
      CallItemIsTool(s, k);
      assert Ids(s.items)[s.index[ToolId(k)]] == ToolId(k);
    }
  }

  lemma AnnounceDistinct(s: EmitterState, fields: ToolFields, now: int)
    requires Consistent(s) && s.text.None?
    ensures IdsDistinct(CallAnnounced(s, fields, now))
       <==> IdsDistinct(s) && !(CallId(fields).Some? && CallId(fields).value in s.tools)
  {
    hide Distinct, RenderToolCall, Consistent;
    if CallId(fields).Some? {
      var state := FromAnnounce(CallId(fields).value, fields, now);
      RenderedCall(state);
      CallStoredIfKnown(s, CallId(fields).value);
      IdsPush(s.items, RenderToolCall(state));
      DistinctAppend(Ids(s.items), state.itemId);
      assert Ids(s.items) + [] == Ids(s.items);
      assert Ids(s.items + [RenderToolCall(state)]) + [] == Ids(s.items) + [state.itemId];
    }
  }

  lemma MergeKeepsDistinct(s: EmitterState, id: string, fields: ToolFields, now: int)
    requires Consistent(s) && id in s.tools
    ensures IdsDistinct(CallMerged(s, id, fields, now)) <==> IdsDistinct(s)
  {
    hide RenderToolCall, Distinct;
    RenderedCall(MergeUpdate(s.tools[id].state, fields, now));
    assert Ids(CallMerged(s, id, fields, now).items) == Ids(s.items);
  }

  lemma {:induction false} RunIdsDistinct(turn: TurnRef, notes: seq<Note>)
    ensures IdsDistinct(Run(turn, notes)) <==> forall i: nat | i < |notes| :: !AnnouncesAgain(turn, notes, i)
  {
    hide IdsDistinct, Consistent, TextFlushed, TextIngested, CallAnnounced, CallMerged;
    if notes == [] {
      assert IdsDistinct(Run(turn, notes)) by { FreshDistinct(turn); }
    } else {
      var before, note := notes[..|notes| - 1], notes[|notes| - 1];
      var s := Run(turn, before);
      RunConsistent(turn, before);
      RunIdsDistinct(turn, before);
      forall i: nat | i < |before| ensures AnnouncesAgain(turn, before, i) <==> AnnouncesAgain(turn, notes, i) {
        assert before[..i] == notes[..i];
      }
      assert notes[..|before|] == before;
      IngestDistinct(s, note);
      assert AnnouncesAgain(turn, notes, |before|) <==> AnnouncesKnown(s, note);
    }
  }

  lemma FreshDistinct(turn: TurnRef)
    ensures IdsDistinct(Fresh(turn))
  {
  }

  predicate AnnouncesKnown(s: EmitterState, note: Note) {
    match Relevant(note)
    case Some(ToolCall(fields)) => CallId(fields).Some? && CallId(fields).value in s.tools
    case _ => false
  }

  lemma IngestDistinct(s: EmitterState, note: Note)
    requires Consistent(s)
    ensures IdsDistinct(Ingested(s, note)) <==> IdsDistinct(s) && !AnnouncesKnown(s, note)
  {
    hide Distinct, Consistent, TextFlushed, TextIngested, CallAnnounced, CallMerged;
    var now, flushed := note.now, TextFlushed(s, note.now);
    FlushKeepsConsistent(s, now);
    FlushKeepsDistinct(s, now);
    match Relevant(note)
    case Some(AgentChunk(content)) => TextKeepsDistinct(s, AgentMessage, content, now);
    case Some(ThoughtChunk(content)) => TextKeepsDistinct(s, Reasoning, content, now);
    case Some(ToolCall(fields)) => AnnounceDistinct(flushed, fields, now);
    case Some(ToolCallUpdate(fields)) =>
      if id :| CallId(fields) == Some(id) {
        AnnounceDistinct(flushed, fields, now);
        AnnounceKeepsConsistent(flushed, fields, now);
        AnnouncedIsKnown(flushed, fields, now);
        MergeKeepsDistinct(if id in flushed.tools then flushed else CallAnnounced(flushed, fields, now), id, fields, now);
      }
    case _ =>
  }

  /** The stored ids are distinct exactly when no event announces a call that is already known. */
  lemma StoredIdsDistinct(turn: TurnRef, notes: seq<Note>, order: seq<string>, now: int)
    requires Enumerates(order, Run(turn, notes).tools.Keys)
    ensures Distinct(Ids(Finished(Run(turn, notes), order, now).items))
       <==> forall i: nat | i < |notes| :: !AnnouncesAgain(turn, notes, i)
  {
    hide CloseCalls, TextFlushed, Distinct, AnnouncesAgain;
    var s := Run(turn, notes);
    RunConsistent(turn, notes);
    RunIdsDistinct(turn, notes);
    FlushKeepsConsistent(s, now);
    FlushKeepsDistinct(s, now);
    FinishChangesNoItem(s, order, now);
    assert Ids(TextFlushed(s, now).items) + [] == Ids(TextFlushed(s, now).items);
  }
}
