/**
 * The chat over a whole session: any number of turns streamed into one projection, against the same turns seeded
 * after a refresh. Text ids restart in every turn, so a later turn can take over a row of an earlier one.
 */
module SessionView {
  import opened Prelude
  import opened AcpItems
  import opened TurnStream
  import opened TurnLifecycle
  import opened TurnConformance
  import opened LiveView
  import P = Projection

  // ----- Rows ----------------------------------------------------------------------------------------------

  /** The ids without their repetitions, each where it first occurs. */
  function Rows(ids: seq<ItemId>): seq<ItemId> {
    if ids == [] then []
    else
      var before, last := ids[..|ids| - 1], ids[|ids| - 1];
      Rows(before) + if last in before then [] else [last]
  }

  lemma RowsPush(ids: seq<ItemId>, id: ItemId)
    ensures Rows(ids + [id]) == Rows(ids) + if id in ids then [] else [id]
  {
    assert (ids + [id])[..|ids|] == ids;
  }

  lemma {:induction false} RowsHold(ids: seq<ItemId>, id: ItemId)
    ensures id in Rows(ids) <==> id in ids
  {
    if ids != [] {
      RowsHold(ids[..|ids| - 1], id);
      assert ids == ids[..|ids| - 1] + [ids[|ids| - 1]];
    }
  }

  lemma {:induction false} RowsCount(ids: seq<ItemId>)
    ensures |Rows(ids)| <= |ids| && (|Rows(ids)| == |ids| <==> Distinct(ids))
  {
    hide Distinct;
    if ids == [] {
      NoneDistinct();
    } else {
      var before, last := ids[..|ids| - 1], ids[|ids| - 1];
      RowsCount(before);
      assert ids == before + [last];
      DistinctAppend(before, last);
    }
  }

  lemma NoneDistinct()
    ensures Distinct<ItemId>([])
  {
  }

  /** Lists with the same rows keep them whatever is put before both. */
  lemma {:induction false} RowsAfter(first: seq<ItemId>, a: seq<ItemId>, b: seq<ItemId>)
    requires Rows(a) == Rows(b)
    ensures Rows(first + a) == Rows(first + b)
  {
    RowsOfRows(first, a);
    RowsOfRows(first, b);
  }

  lemma {:induction false} RowsOfRows(first: seq<ItemId>, ids: seq<ItemId>)
    ensures Rows(first + ids) == Rows(first + Rows(ids))
  {
    hide Rows;
    if ids == [] {
      NoIds();
    } else {
      var before, last := ids[..|ids| - 1], ids[|ids| - 1];
      RowsOfRows(first, before);
      OneMoreRow(first, before, last);
      assert ids == before + [last];
    }
  }

  lemma NoIds()
    ensures Rows([]) == []
  {
  }

  lemma OneMoreRow(first: seq<ItemId>, before: seq<ItemId>, last: ItemId)
    requires Rows(first + before) == Rows(first + Rows(before))
    ensures Rows(first + (before + [last])) == Rows(first + Rows(before + [last]))
  {
    hide Rows;
    RowsPush(before, last);
    RowsHold(before, last);
    RowsPush(first + before, last);
    RowsPush(first + Rows(before), last);
    assert first + (before + [last]) == (first + before) + [last];
    if last in before {
      assert last in first + before;
      assert Rows(before + [last]) == Rows(before);
      assert Rows((first + before) + [last]) == Rows(first + before);
    } else {
      assert last in first + before <==> last in first + Rows(before);
      assert first + (Rows(before) + [last]) == (first + Rows(before)) + [last];
    }
  }

  // ----- Every notification is about a started item -----------------------------------------------------------

  function Key(n: Notification): ItemId {
    match n
    case ItemStarted(_, item, _) => item.id
    case ItemCompleted(_, item, _) => item.id
    case AgentDelta(_, id, _) => id
    case ReasoningDelta(_, id, _, _) => id
  }

  function Keys(log: seq<Notification>): seq<ItemId> {
    seq(|log|, i requires 0 <= i < |log| => Key(log[i]))
  }

  predicate UserFrame(n: Notification) {
    (n.ItemStarted? || n.ItemCompleted?) && n.item.UserItem?
  }

  /** Keys first occur in the order of the starts, and no frame carries a user's message. */
  ghost predicate Addressed(log: seq<Notification>) {
    Rows(Keys(log)) == Rows(StartedIds(log)) && forall i | 0 <= i < |log| :: !UserFrame(log[i])
  }

  lemma EmitAddressed(log: seq<Notification>, n: Notification)
    requires Addressed(log) && !UserFrame(n) && (n.ItemStarted? || Key(n) in StartedIds(log))
    ensures Addressed(log + [n])
  {
    hide Rows, StartedIds;
    StartedIdsEmit(log, n);
    assert Keys(log + [n]) == Keys(log) + [Key(n)];
    RowsPush(Keys(log), Key(n));
    RowsPush(StartedIds(log), Key(n));
    RowsHold(Keys(log), Key(n));
    RowsHold(StartedIds(log), Key(n));
    assert StartedIds(log) + [] == StartedIds(log);
  }

  lemma FlushAddressed(s: EmitterState, now: int)
    requires Addressed(s.log) && StartsInOrder(s)
    ensures Addressed(TextFlushed(s, now).log)
  {
    hide Addressed, Ids;
    if s.text.Some? {
      EmitAddressed(s.log, ItemCompleted(s.turn, TextItem(s.text.value.kind, s.text.value.itemId, s.text.value.text), now));
    }
  }

  lemma TextAddressed(s: EmitterState, kind: TextKind, content: Content, now: int)
    requires Addressed(s.log) && StartsInOrder(s)
    ensures Addressed(TextIngested(s, kind, content, now).log)
  {
    hide Addressed, StartsInOrder, TextFlushed, PluckText, StartedIds;
    var words := PluckText(content);
    if words != "" {
      FlushKeepsOrder(s, now);
      FlushAddressed(s, now);
      var closed := if s.text.Some? && s.text.value.kind != kind then TextFlushed(s, now) else s;
      if closed.text.None? {
        EmitAddressed(closed.log, ItemStarted(closed.turn, TextItem(kind, TextId(kind, closed.textSeq), ""), now));
        OpenKeepsOrder(closed, kind, now);
      }
      AppendAddressed(if closed.text.None? then OpenText(closed, kind, now) else closed, words);
    }
  }

  lemma AppendAddressed(s: EmitterState, words: string)
    requires Addressed(s.log) && StartsInOrder(s) && s.text.Some?
    ensures Addressed(AppendText(s, words).log)
  {
    hide Addressed, Ids;
    var t := AppendText(s, words);
    EmitAddressed(s.log, t.log[|s.log|]);
    assert t.log == s.log + [t.log[|s.log|]];
  }

  lemma CallFrame(state: ToolCallState)
    ensures !RenderToolCall(state).UserItem? && RenderToolCall(state).id == state.itemId
  {
  }

  lemma AnnounceAddressed(s: EmitterState, fields: ToolFields, now: int)
    requires Addressed(s.log)
    ensures Addressed(CallAnnounced(s, fields, now).log)
  {
    hide Addressed, RenderToolCall;
    if CallId(fields).Some? {
      var state := FromAnnounce(CallId(fields).value, fields, now);
      CallFrame(state);
      EmitAddressed(s.log, ItemStarted(s.turn, RenderToolCall(state), state.startedAtMs));
    }
  }

  lemma CallWasStarted(s: EmitterState, id: string)
    requires Consistent(s) && StartsInOrder(s) && id in s.tools
    ensures ToolId(id) in StartedIds(s.log)
  {
    hide Consistent, StartedIds;
    CallItemIsTool(s, id);
    assert Ids(s.items)[s.index[ToolId(id)]] == ToolId(id);
  }

  lemma MergeAddressed(s: EmitterState, id: string, fields: ToolFields, now: int)
    requires Consistent(s) && StartsInOrder(s) && Addressed(s.log) && id in s.tools
    ensures Addressed(CallMerged(s, id, fields, now).log)
  {
    hide Addressed, RenderToolCall, Consistent, StartsInOrder;
    KnownCall(s, id);
    CallWasStarted(s, id);
    var state := MergeUpdate(s.tools[id].state, fields, now);
    CallFrame(state);
    EmitAddressed(s.log, ItemCompleted(s.turn, RenderToolCall(state), now));
  }

  lemma IngestAddressed(s: EmitterState, note: Note)
    requires Consistent(s) && StartsInOrder(s) && Addressed(s.log)
    ensures Addressed(Ingested(s, note).log)
  {
    hide Addressed, Consistent, StartsInOrder, TextFlushed, TextIngested, CallAnnounced, CallMerged;
    var now, flushed := note.now, TextFlushed(s, note.now);
    FlushKeepsConsistent(s, now);
    FlushKeepsOrder(s, now);
    FlushAddressed(s, now);
    match Relevant(note)
    case Some(AgentChunk(content)) => TextAddressed(s, AgentMessage, content, now);
    case Some(ThoughtChunk(content)) => TextAddressed(s, Reasoning, content, now);
    case Some(ToolCall(fields)) => AnnounceAddressed(flushed, fields, now);
    case Some(ToolCallUpdate(fields)) =>
      if id :| CallId(fields) == Some(id) {
        AnnounceKeepsConsistent(flushed, fields, now);
        AnnounceKeepsOrder(flushed, fields, now);
        AnnounceAddressed(flushed, fields, now);
        AnnouncedIsKnown(flushed, fields, now);
        MergeAddressed(if id in flushed.tools then flushed else CallAnnounced(flushed, fields, now), id, fields, now);
      }
    case _ =>
  }

  lemma {:induction false} RunAddressed(turn: TurnRef, notes: seq<Note>)
    ensures Addressed(Run(turn, notes).log)
  {
    hide Addressed, Ingested, Consistent, StartsInOrder;
    if notes == [] {
      NothingAddressed();
    } else {
      var before := notes[..|notes| - 1];
      RunAddressed(turn, before);
      RunConsistent(turn, before);
      RunStartsInOrder(turn, before);
      IngestAddressed(Run(turn, before), notes[|notes| - 1]);
    }
  }

  lemma NothingAddressed()
    ensures Addressed([])
  {
  }

  lemma {:induction false} OwedAddressed(s: EmitterState, order: seq<string>, now: int)
    requires forall i | 0 <= i < |order| :: order[i] in s.tools
    requires Consistent(s) && StartsInOrder(s) && Addressed(s.log)
    ensures var log := s.log + OwedCompletions(s.turn, s.tools, order, now);
            Addressed(log) && StartedIds(log) == StartedIds(s.log)
  {
    hide Addressed, Consistent, StartsInOrder, RenderToolCall, StartedIds;
    if order == [] {
      assert s.log + [] == s.log;
    } else {
      var before, last := order[..|order| - 1], order[|order| - 1];
      OwedAddressed(s, before, now);
      var log := s.log + OwedCompletions(s.turn, s.tools, before, now);
      var n := ItemCompleted(s.turn, RenderToolCall(s.tools[last].state), now);
      KnownCall(s, last);
      CallWasStarted(s, last);
      CallFrame(s.tools[last].state);
      EmitAddressed(log, n);
      StartedIdsEmit(log, n);
      assert StartedIds(log) + [] == StartedIds(log);
      assert s.log + OwedCompletions(s.turn, s.tools, order, now) == if s.tools[last].completed then log else log + [n];
    }
  }

  /** The rows of a turn's frames are the rows of its stored items. */
  lemma {:induction false} TurnAddressed(t: TurnInput)
    requires Feasible(t)
    ensures Addressed(TurnEnd(t).log) && Rows(Keys(TurnEnd(t).log)) == Rows(Ids(TurnEnd(t).items))
  {
    hide Consistent, TextFlushed, CloseCalls, Rows, Ids, StartedIds;
    var s, now := Run(t.turn, t.notes), t.finishedAt;
    RunConsistent(t.turn, t.notes);
    RunStartsInOrder(t.turn, t.notes);
    RunAddressed(t.turn, t.notes);
    FlushKeepsConsistent(s, now);
    FlushKeepsOrder(s, now);
    FlushAddressed(s, now);
    FlushKeepsTurn(s, now);
    FinishChangesNoItem(s, t.order, now);
    OwedAddressed(TextFlushed(s, now), t.order, now);
    assert Ids(TextFlushed(s, now).items) + [] == Ids(TextFlushed(s, now).items);
  }

  // ----- The two views -------------------------------------------------------------------------------------

  /** The ids the session stored, turn after turn. */
  ghost function StoredIds(turns: seq<TurnInput>): seq<ItemId>
    requires forall t | t in turns :: Feasible(t)
  {
    if turns == [] then [] else StoredIds(turns[..|turns| - 1]) + Ids(TurnEnd(turns[|turns| - 1]).items)
  }

  ghost function StoredTurns(turns: seq<TurnInput>): seq<seq<P.ThreadItem>>
    requires forall t | t in turns :: Feasible(t)
  {
    if turns == [] then [] else StoredTurns(turns[..|turns| - 1]) + [ThreadItems(TurnEnd(turns[|turns| - 1]).items)]
  }

  /** A frame touches the row of its key. */
  lemma FrameTouches(p: P.State, n: Notification, collapses: (string, string) -> bool)
    requires !UserFrame(n)
    ensures var q, key := P.NotificationApplied(p, ToNotification(n), collapses), IdText(Key(n));
            q.order == (if key in p.items then p.order else p.order + [key]) && q.items.Keys == p.items.Keys + {key}
  {
    hide IdText, P.ItemApplied;
    if n.ItemStarted? || n.ItemCompleted? {
      ItemIdKept(n.item);
      OnlyUserItemsAreUsers(n.item);
      ApplyTouches(p, ToThreadItem(n.item), true, collapses);
    }
  }

  /** Touching a row adds it exactly when it is new. */
  lemma ListedRows(p: P.State, q: P.State, ids: seq<ItemId>, id: ItemId)
    requires Listed(p, Rows(ids))
    requires var key := IdText(id);
             q.order == (if key in p.items then p.order else p.order + [key]) && q.items.Keys == p.items.Keys + {key}
    ensures Listed(q, Rows(ids + [id]))
  {
    hide IdText, Rows;
    RowsPush(ids, id);
    RowsHold(ids, id);
    if id in ids {
      var i :| 0 <= i < |Rows(ids)| && Rows(ids)[i] == id;
      assert p.order[i] == IdText(id);
      assert Rows(ids) + [] == Rows(ids);
    } else {
      NewIdUnlisted(p, Rows(ids), id);
      assert Texts(Rows(ids) + [id]) == Texts(Rows(ids)) + [IdText(id)];
    }
  }

  lemma {:induction false} LiveListsRows(log: seq<Notification>, collapses: (string, string) -> bool)
    requires forall i | 0 <= i < |log| :: !UserFrame(log[i])
    ensures Listed(Live(log, collapses), Rows(Keys(log)))
  {
    hide P.NotificationApplied, Listed, Rows, IdText;
    if log == [] {
      NoRows();
      assert Keys(log) == [];
    } else {
      var before, n := log[..|log| - 1], log[|log| - 1];
      LiveListsRows(before, collapses);
      FrameTouches(Live(before, collapses), n, collapses);
      assert Keys(log) == Keys(before) + [Key(n)];
      ListedRows(Live(before, collapses), Live(log, collapses), Keys(before), Key(n));
    }
  }

  lemma NoRows()
    ensures Listed(P.EMPTY, Rows([]))
  {
  }

  lemma {:induction false} SeedingLists(p: P.State, ids: seq<ItemId>, items: seq<Item>, collapses: (string, string) -> bool)
    requires Listed(p, Rows(ids)) && forall i | 0 <= i < |items| :: !items[i].UserItem?
    ensures Listed(P.ItemsApplied(p, ThreadItems(items), collapses), Rows(ids + Ids(items)))
  {
    hide P.ItemApplied, P.FromItem, Listed, Rows, IdText;
    if items == [] {
      assert ids + Ids(items) == ids;
    } else {
      var before, last := items[..|items| - 1], items[|items| - 1];
      SeedingLists(p, ids, before, collapses);
      var q := P.ItemsApplied(p, ThreadItems(before), collapses);
      assert ThreadItems(items)[..|before|] == ThreadItems(before);
      ItemIdKept(last);
      OnlyUserItemsAreUsers(last);
      ApplyTouches(q, ToThreadItem(last), false, collapses);
      ListedRows(q, P.ItemApplied(q, ToThreadItem(last), false, collapses), ids + Ids(before), last.id);
      assert (ids + Ids(before)) + [last.id] == ids + Ids(items);
    }
  }

  lemma {:induction false} StoredItemIsNoUser(t: TurnInput, i: int)
    requires Feasible(t) && 0 <= i < |TurnEnd(t).items|
    ensures !TurnEnd(t).items[i].UserItem?
  {
    hide Finished;
    StoredItemNotUser(t.turn, t.notes, t.order, t.finishedAt, i);
    OnlyUserItemsAreUsers(TurnEnd(t).items[i]);
  }

  lemma {:induction false} SessionRefreshLists(turns: seq<TurnInput>, collapses: (string, string) -> bool)
    requires forall t | t in turns :: Feasible(t)
    ensures Listed(P.TurnsApplied(P.EMPTY, StoredTurns(turns), collapses), Rows(StoredIds(turns)))
  {
    hide P.ItemsApplied, Listed, Rows, TurnEnd;
    if turns == [] {
      NoRows();
    } else {
      var before, last := turns[..|turns| - 1], turns[|turns| - 1];
      SessionRefreshLists(before, collapses);
      assert StoredTurns(turns)[..|StoredTurns(before)|] == StoredTurns(before);
      forall i | 0 <= i < |TurnEnd(last).items| ensures !TurnEnd(last).items[i].UserItem? {
        StoredItemIsNoUser(last, i);
      }
      SeedingLists(P.TurnsApplied(P.EMPTY, StoredTurns(before), collapses), StoredIds(before), TurnEnd(last).items, collapses);
    }
  }

  lemma {:induction false} SessionKeys(turns: seq<TurnInput>)
    requires forall t | t in turns :: Feasible(t)
    ensures Rows(Keys(SessionLog(turns))) == Rows(StoredIds(turns))
    ensures forall i | 0 <= i < |SessionLog(turns)| :: !UserFrame(SessionLog(turns)[i])
  {
    hide Rows, TurnEnd;
    if turns == [] {
      assert Keys(SessionLog(turns)) == [];
    } else {
      var before, last := turns[..|turns| - 1], turns[|turns| - 1];
      SessionKeys(before);
      TurnAddressed(last);
      var log, more := SessionLog(before), TurnEnd(last).log;
      assert Keys(log + more) == Keys(log) + Keys(more);
      RowsAfter(Keys(log), Keys(more), Ids(TurnEnd(last).items));
      RowsBefore(Keys(log), StoredIds(before), Ids(TurnEnd(last).items));
    }
  }

  /** Lists with the same rows keep them whatever follows both. */
  lemma {:induction false} RowsBefore(a: seq<ItemId>, b: seq<ItemId>, more: seq<ItemId>)
    requires Rows(a) == Rows(b)
    ensures Rows(a + more) == Rows(b + more)
  {
    hide Rows;
    if more == [] {
      assert a + more == a && b + more == b;
    } else {
      var before, last := more[..|more| - 1], more[|more| - 1];
      RowsBefore(a, b, before);
      RowsHold(a, last);
      RowsHold(b, last);
      assert last in a + before <==> last in b + before;
      assert a + more == (a + before) + [last] && b + more == (b + before) + [last];
      RowsPush(a + before, last);
      RowsPush(b + before, last);
    }
  }

  /** What the client shows after the turns streamed by, and after a refresh. */
  ghost function Streamed(turns: seq<TurnInput>, collapses: (string, string) -> bool): seq<P.Message>
    requires forall t | t in turns :: Feasible(t)
  {
    P.RenderList(Live(SessionLog(turns), collapses))
  }

  ghost function Reloaded(turns: seq<TurnInput>, collapses: (string, string) -> bool): seq<P.Message>
    requires forall t | t in turns :: Feasible(t)
  {
    P.RenderList(P.Seeded(P.EMPTY, StoredTurns(turns), collapses))
  }

  function MessageIds(messages: seq<P.Message>): seq<string> {
    seq(|messages|, i requires 0 <= i < |messages| => messages[i].id)
  }

  /**
   * Over any number of turns, whatever their events, the two views list the same ids in the same order: those
   * stored, each where it first occurred. There is one row per stored item exactly when no id is stored twice.
   */
  lemma {:induction false} SessionRowsAgree(turns: seq<TurnInput>, collapses: (string, string) -> bool)
    requires forall t | t in turns :: Feasible(t)
    ensures MessageIds(Streamed(turns, collapses)) == MessageIds(Reloaded(turns, collapses)) == Texts(Rows(StoredIds(turns)))
    ensures |Streamed(turns, collapses)| == |StoredIds(turns)| <==> Distinct(StoredIds(turns))
  {
    hide Rows, P.TurnsApplied, Live, P.RenderList, Distinct;
    var live, again := Live(SessionLog(turns), collapses), P.Seeded(P.EMPTY, StoredTurns(turns), collapses);
    SessionKeys(turns);
    LiveListsRows(SessionLog(turns), collapses);
    SessionRefreshLists(turns, collapses);
    LiveKeyed(SessionLog(turns), collapses);
    P.RenderListIsOrder(live);
    P.SeedKeepsKeyed(P.EMPTY, StoredTurns(turns), collapses);
    P.RenderListIsOrder(again);
    RowsCount(StoredIds(turns));
    assert MessageIds(P.RenderList(live)) == live.order;
    assert MessageIds(P.RenderList(again)) == again.order;
  }

  // ----- Sessions in which no row is taken over ----------------------------------------------------------------

  /** The two states show the same under the key, or both nothing. */
  predicate SameRow(p: P.State, q: P.State, key: string) {
    (key in p.items <==> key in q.items) && (key in p.items ==> p.items[key] == q.items[key])
  }

  /** Applying an item reads and writes its own row only. */
  lemma ItemIsLocal(p: P.State, q: P.State, item: P.ThreadItem, lifecycle: bool, collapses: (string, string) -> bool, key: string)
    requires P.FromItem(item).role != P.User && SameRow(p, q, item.id)
    ensures var a, b := P.ItemApplied(p, item, lifecycle, collapses), P.ItemApplied(q, item, lifecycle, collapses);
            && SameRow(a, b, item.id)
            && (key != item.id ==> SameRow(a, p, key) && SameRow(b, q, key))
  {
    hide P.FromItem;
  }

  lemma FrameIsLocal(p: P.State, q: P.State, n: Notification, collapses: (string, string) -> bool, key: string)
    requires !UserFrame(n) && SameRow(p, q, IdText(Key(n)))
    ensures var a, b := P.NotificationApplied(p, ToNotification(n), collapses), P.NotificationApplied(q, ToNotification(n), collapses);
            && SameRow(a, b, IdText(Key(n)))
            && (key != IdText(Key(n)) ==> SameRow(a, p, key) && SameRow(b, q, key))
  {
    hide IdText, P.ItemApplied;
    if n.ItemStarted? || n.ItemCompleted? {
      ItemIdKept(n.item);
      OnlyUserItemsAreUsers(n.item);
      ItemIsLocal(p, q, ToThreadItem(n.item), true, collapses, key);
    }
  }

  /** `q` is `p` with the rows of `l` after its own. */
  ghost predicate Stacked(p: P.State, l: P.State, q: P.State) {
    && q.order == p.order + l.order && p.items.Keys !! l.items.Keys && q.items.Keys == p.items.Keys + l.items.Keys
    && (forall key | key in p.items :: q.items[key] == p.items[key])
    && (forall key | key in l.items :: q.items[key] == l.items[key])
  }

  /** A row update that does the same to `l` and `q` keeps them stacked on `p`, which has no such row. */
  lemma StackedTouch(p: P.State, l: P.State, q: P.State, l1: P.State, q1: P.State, key: string)
    requires Stacked(p, l, q) && key !in p.items && SameRow(l1, q1, key)
    requires l1.order == (if key in l.items then l.order else l.order + [key]) && l1.items.Keys == l.items.Keys + {key}
    requires q1.order == (if key in q.items then q.order else q.order + [key]) && q1.items.Keys == q.items.Keys + {key}
    requires forall x: string | x != key :: SameRow(l1, l, x) && SameRow(q1, q, x)
    ensures Stacked(p, l1, q1)
  {
    assert q.order + [key] == p.order + (l.order + [key]);
    forall x | x in p.items ensures q1.items[x] == p.items[x] {
      assert SameRow(q1, q, x);
    }
    forall x | x in l1.items ensures q1.items[x] == l1.items[x] {
      if x != key {
        assert SameRow(l1, l, x) && SameRow(q1, q, x);
      }
    }
  }

  lemma StackedRow(p: P.State, l: P.State, q: P.State, key: string)
    requires Stacked(p, l, q) && key !in p.items
    ensures SameRow(l, q, key)
  {
  }

  lemma StackedNothing(p: P.State)
    ensures Stacked(p, P.EMPTY, p)
  {
    assert p.order + [] == p.order;
  }

  /** A turn whose keys are new adds its own live list. */
  lemma {:induction false} LiveStacks(earlier: seq<Notification>, log: seq<Notification>, collapses: (string, string) -> bool)
    requires forall i | 0 <= i < |log| :: !UserFrame(log[i]) && IdText(Key(log[i])) !in Live(earlier, collapses).items
    ensures Stacked(Live(earlier, collapses), Live(log, collapses), Live(earlier + log, collapses))
  {
    hide IdText, P.NotificationApplied, Stacked, SameRow;
    var p := Live(earlier, collapses);
    if log == [] {
      assert earlier + log == earlier;
      StackedNothing(p);
    } else {
      var before, n := log[..|log| - 1], log[|log| - 1];
      LiveStacks(earlier, before, collapses);
      assert (earlier + log)[..|earlier + log| - 1] == earlier + before;
      var l, q := Live(before, collapses), Live(earlier + before, collapses);
      var key := IdText(Key(n));
      StackedRow(p, l, q, key);
      FrameTouches(l, n, collapses);
      FrameTouches(q, n, collapses);
      FrameIsLocal(l, q, n, collapses, key);
      forall x: string | x != key ensures SameRow(Live(log, collapses), l, x) && SameRow(Live(earlier + log, collapses), q, x) {
        FrameIsLocal(l, q, n, collapses, x);
      }
      StackedTouch(p, l, q, Live(log, collapses), Live(earlier + log, collapses), key);
    }
  }

  /** So does a seeded turn. */
  lemma {:induction false} SeedStacks(p: P.State, items: seq<Item>, collapses: (string, string) -> bool)
    requires forall i | 0 <= i < |items| :: !items[i].UserItem? && IdText(items[i].id) !in p.items
    ensures Stacked(p, P.ItemsApplied(P.EMPTY, ThreadItems(items), collapses), P.ItemsApplied(p, ThreadItems(items), collapses))
  {
    hide IdText, P.ItemApplied, P.FromItem, Stacked, SameRow;
    if items == [] {
      StackedNothing(p);
    } else {
      var before, last := items[..|items| - 1], items[|items| - 1];
      SeedStacks(p, before, collapses);
      assert ThreadItems(items)[..|before|] == ThreadItems(before);
      var l, q := P.ItemsApplied(P.EMPTY, ThreadItems(before), collapses), P.ItemsApplied(p, ThreadItems(before), collapses);
      var item := ToThreadItem(last);
      ItemIdKept(last);
      OnlyUserItemsAreUsers(last);
      var l1, q1 := P.ItemApplied(l, item, false, collapses), P.ItemApplied(q, item, false, collapses);
      StackedRow(p, l, q, item.id);
      ApplyTouches(l, item, false, collapses);
      ApplyTouches(q, item, false, collapses);
      ItemIsLocal(l, q, item, false, collapses, item.id);
      forall x: string | x != item.id ensures SameRow(l1, l, x) && SameRow(q1, q, x) {
        ItemIsLocal(l, q, item, false, collapses, x);
      }
      StackedTouch(p, l, q, l1, q1, item.id);
    }
  }

  lemma StackedFaces(p: P.State, l: P.State, q: P.State)
    requires Stacked(p, l, q) && P.Keyed(p) && P.Keyed(l) && P.Keyed(q)
    ensures Faces(P.RenderList(q)) == Faces(P.RenderList(p)) + Faces(P.RenderList(l))
  {
    hide P.RenderList, P.Keyed;
    P.RenderListIsOrder(p);
    P.RenderListIsOrder(l);
    P.RenderListIsOrder(q);
    forall i | 0 <= i < |q.order| ensures P.RenderList(q)[i] == if i < |p.order| then P.RenderList(p)[i] else P.RenderList(l)[i - |p.order|] {
      assert q.order[i] == if i < |p.order| then p.order[i] else l.order[i - |p.order|];
    }
  }

  /** The faces of the turns' own lists, one turn after another. */
  ghost function StreamedApart(turns: seq<TurnInput>, collapses: (string, string) -> bool): seq<Face>
    requires forall t | t in turns :: Feasible(t)
  {
    if turns == [] then []
    else StreamedApart(turns[..|turns| - 1], collapses) + Faces(P.RenderList(Live(TurnEnd(turns[|turns| - 1]).log, collapses)))
  }

  ghost function ReloadedApart(turns: seq<TurnInput>, collapses: (string, string) -> bool): seq<Face>
    requires forall t | t in turns :: Feasible(t)
  {
    if turns == [] then []
    else ReloadedApart(turns[..|turns| - 1], collapses) + Faces(P.RenderList(Refreshed(TurnEnd(turns[|turns| - 1]).items, collapses)))
  }

  /** The last turn of a session without shared ids finds none of its rows. */
  lemma LastTurnIsNew(turns: seq<TurnInput>, p: P.State, id: ItemId)
    requires turns != [] && (forall t | t in turns :: Feasible(t)) && Distinct(StoredIds(turns))
    requires Listed(p, Rows(StoredIds(turns[..|turns| - 1]))) && id in Ids(TurnEnd(turns[|turns| - 1]).items)
    ensures IdText(id) !in p.items
  {
    hide IdText, TurnEnd, Rows, Listed, Ids;
    var before, ids := StoredIds(turns[..|turns| - 1]), Ids(TurnEnd(turns[|turns| - 1]).items);
    RowsHold(before, id);
    DistinctApart(before, ids, id);
    NewIdUnlisted(p, Rows(before), id);
  }

  lemma DistinctApart(a: seq<ItemId>, b: seq<ItemId>, x: ItemId)
    requires Distinct(a + b) && x in b
    ensures x !in a
  {
    var j :| 0 <= j < |b| && b[j] == x;
    forall i | 0 <= i < |a| ensures a[i] != x {
      assert (a + b)[i] == a[i] && (a + b)[|a| + j] == x;
    }
  }

  lemma PrefixDistinct(a: seq<ItemId>, b: seq<ItemId>)
    requires Distinct(a + b)
    ensures Distinct(a) && Distinct(b)
  {
    assert forall i | 0 <= i < |a| :: (a + b)[i] == a[i];
    assert forall i | 0 <= i < |b| :: (a + b)[|a| + i] == b[i];
  }

  lemma {:induction false} StreamedPerTurn(turns: seq<TurnInput>, collapses: (string, string) -> bool)
    requires (forall t | t in turns :: Feasible(t)) && Distinct(StoredIds(turns))
    ensures Faces(Streamed(turns, collapses)) == StreamedApart(turns, collapses)
  {
    hide TurnEnd, Live, P.RenderList, Distinct, Rows, Ids, IdText, Listed;
    if turns == [] {
      NothingLive(collapses);
      NothingRendered();
    } else {
      var before, last := turns[..|turns| - 1], turns[|turns| - 1];
      PrefixDistinct(StoredIds(before), Ids(TurnEnd(last).items));
      StreamedPerTurn(before, collapses);
      var earlier, log := SessionLog(before), TurnEnd(last).log;
      SessionKeys(before);
      LiveListsRows(earlier, collapses);
      TurnAddressed(last);
      forall i | 0 <= i < |log| ensures !UserFrame(log[i]) && IdText(Key(log[i])) !in Live(earlier, collapses).items {
        assert Keys(log)[i] == Key(log[i]);
        RowsHold(Keys(log), Key(log[i]));
        RowsHold(Ids(TurnEnd(last).items), Key(log[i]));
        LastTurnIsNew(turns, Live(earlier, collapses), Key(log[i]));
      }
      LiveStacks(earlier, log, collapses);
      LiveKeyed(earlier, collapses);
      LiveKeyed(log, collapses);
      LiveKeyed(earlier + log, collapses);
      StackedFaces(Live(earlier, collapses), Live(log, collapses), Live(earlier + log, collapses));
    }
  }

  lemma NothingRendered()
    ensures Faces(P.RenderList(P.EMPTY)) == []
  {
  }

  lemma SeededOnce(items: seq<Item>, collapses: (string, string) -> bool)
    ensures Refreshed(items, collapses) == P.ItemsApplied(P.EMPTY, ThreadItems(items), collapses)
  {
    hide P.ItemsApplied;
    var turns := [ThreadItems(items)];
    assert turns[..0] == [] && P.TurnsApplied(P.EMPTY, turns[..0], collapses) == P.EMPTY;
  }

  lemma {:induction false} ReloadedPerTurn(turns: seq<TurnInput>, collapses: (string, string) -> bool)
    requires (forall t | t in turns :: Feasible(t)) && Distinct(StoredIds(turns))
    ensures Faces(Reloaded(turns, collapses)) == ReloadedApart(turns, collapses)
  {
    hide TurnEnd, P.ItemsApplied, P.RenderList, Distinct, Rows, Ids, IdText, Listed, Refreshed, ThreadItems;
    if turns == [] {
      NothingRendered();
    } else {
      var before, last := turns[..|turns| - 1], turns[|turns| - 1];
      var items := TurnEnd(last).items;
      PrefixDistinct(StoredIds(before), Ids(items));
      ReloadedPerTurn(before, collapses);
      SessionRefreshLists(before, collapses);
      var p := P.TurnsApplied(P.EMPTY, StoredTurns(before), collapses);
      forall i | 0 <= i < |items| ensures !items[i].UserItem? && IdText(items[i].id) !in p.items {
        StoredItemIsNoUser(last, i);
        ItemIdIn(items, i);
        LastTurnIsNew(turns, p, items[i].id);
      }
      SeedStacks(p, items, collapses);
      SeededOnce(items, collapses);
      assert StoredTurns(turns)[..|StoredTurns(before)|] == StoredTurns(before);
      P.SeedKeepsKeyed(P.EMPTY, StoredTurns(before), collapses);
      P.SeedKeepsKeyed(P.EMPTY, StoredTurns(turns), collapses);
      RefreshedKeyed(items, collapses);
      StackedFaces(p, Refreshed(items, collapses), P.ItemsApplied(p, ThreadItems(items), collapses));
    }
  }

  lemma ItemIdIn(items: seq<Item>, i: int)
    requires 0 <= i < |items|
    ensures items[i].id in Ids(items)
  {
    assert Ids(items)[i] == items[i].id;
  }

  lemma RefreshedKeyed(items: seq<Item>, collapses: (string, string) -> bool)
    ensures P.Keyed(Refreshed(items, collapses))
  {
    hide P.Keyed;
    P.SeedKeepsKeyed(P.EMPTY, [ThreadItems(items)], collapses);
  }

  predicate Thoughtless(items: seq<Item>) {
    forall i | 0 <= i < |items| :: !items[i].ReasoningItem?
  }

  lemma TurnViews(t: TurnInput, collapses: (string, string) -> bool)
    requires Feasible(t) && Distinct(Ids(TurnEnd(t).items))
    requires var s := Run(t.turn, t.notes); forall k | k in s.tools :: !Reopened(s.tools[k])
    ensures var live, again := Faces(P.RenderList(Live(TurnEnd(t).log, collapses))), Faces(P.RenderList(Refreshed(TurnEnd(t).items, collapses)));
            |live| == |again| && (live == again <==> Thoughtless(TurnEnd(t).items))
  {
    hide Finished, Run, Live, Refreshed, P.RenderList, Distinct, AnnouncesAgain, Ids, Reopened, LiveFace;
    StoredIdsDistinct(t.turn, t.notes, t.order, t.finishedAt);
    LiveEqualsRefreshed(t.turn, t.notes, t.order, t.finishedAt, collapses);
    LiveShowsItems(t.turn, t.notes, t.order, t.finishedAt, collapses);
    forall i | 0 <= i < |TurnEnd(t).items| ensures ItemFace(TurnEnd(t).items[i]).role != P.User {
      StoredItemNotUser(t.turn, t.notes, t.order, t.finishedAt, i);
    }
    RefreshedShowsItems(TurnEnd(t).items, collapses);
  }

  lemma {:induction false} ApartAgree(turns: seq<TurnInput>, collapses: (string, string) -> bool)
    requires (forall t | t in turns :: Feasible(t)) && Distinct(StoredIds(turns))
    requires forall t | t in turns :: forall k | k in Run(t.turn, t.notes).tools :: !Reopened(Run(t.turn, t.notes).tools[k])
    ensures |StreamedApart(turns, collapses)| == |ReloadedApart(turns, collapses)|
    ensures StreamedApart(turns, collapses) == ReloadedApart(turns, collapses) <==> forall t | t in turns :: Thoughtless(TurnEnd(t).items)
  {
    hide TurnEnd, Live, Refreshed, P.RenderList, Distinct, Ids, Faces, Thoughtless, Run, Reopened;
    if turns != [] {
      var before, last := turns[..|turns| - 1], turns[|turns| - 1];
      PrefixDistinct(StoredIds(before), Ids(TurnEnd(last).items));
      ApartAgree(before, collapses);
      TurnViews(last, collapses);
      SplitEqual(StreamedApart(before, collapses), Faces(P.RenderList(Live(TurnEnd(last).log, collapses))),
                 ReloadedApart(before, collapses), Faces(P.RenderList(Refreshed(TurnEnd(last).items, collapses))));
      assert forall t :: t in turns <==> t in before || t == last by {
        assert turns == before + [last];
      }
    }
  }

  lemma SplitEqual(a: seq<Face>, b: seq<Face>, c: seq<Face>, d: seq<Face>)
    requires |a| == |c| && |b| == |d|
    ensures a + b == c + d <==> a == c && b == d
  {
    if a + b == c + d {
      assert a == (a + b)[..|a|] && c == (c + d)[..|a|];
      assert b == (a + b)[|a|..] && d == (c + d)[|a|..];
    }
  }

  /**
   * Over any number of turns that share no stored id and leave no call reopened, the streamed and the reloaded list
   * are the same, ids, roles, kinds and texts in order, exactly when no turn stored a reasoning item.
   */
  lemma {:induction false} SessionEqualsReloaded(turns: seq<TurnInput>, collapses: (string, string) -> bool)
    requires (forall t | t in turns :: Feasible(t)) && Distinct(StoredIds(turns))
    requires forall t | t in turns :: forall k | k in Run(t.turn, t.notes).tools :: !Reopened(Run(t.turn, t.notes).tools[k])
    ensures Faces(Streamed(turns, collapses)) == Faces(Reloaded(turns, collapses))
       <==> forall t | t in turns :: Thoughtless(TurnEnd(t).items)
  {
    hide *;
    StreamedPerTurn(turns, collapses);
    ReloadedPerTurn(turns, collapses);
    ApartAgree(turns, collapses);
  }

  // ----- A row that is taken over ----------------------------------------------------------------------------

  function Answer(turn: TurnRef, text: string): TurnInput {
    TurnInput(turn, [Chunk(AgentMessage, text, 0)], [], 0)
  }

  lemma AnswerEnds(turn: TurnRef, text: string)
    requires text != ""
    ensures Feasible(Answer(turn, text))
    ensures TurnEnd(Answer(turn, text)).log == ChunkLog(turn, AgentMessage, text)
    ensures TurnEnd(Answer(turn, text)).items == [AgentItem(AgentId(0), text)]
  {
    ChunkTurn(turn, AgentMessage, text);
  }

  /**
   * Two turns that each answer with one chunk share one row: the second answer replaces the first in both views,
   * and the live one keeps both texts when they read like one text streamed twice.
   */
  lemma SecondAnswerTakesTheRow(first: TurnRef, a: string, second: TurnRef, b: string, collapses: (string, string) -> bool)
    requires a != "" && b != ""
    ensures var turns := [Answer(first, a), Answer(second, b)];
            var id := IdText(AgentId(0));
            && (forall t | t in turns :: Feasible(t))
            && Faces(Streamed(turns, collapses)) == [Face(id, P.Assistant, P.TextKind, if collapses(b, a + b) then a + b else b)]
            && Faces(Reloaded(turns, collapses)) == [Face(id, P.Assistant, P.TextKind, b)]
  {
    hide IdText, TurnEnd, Live, P.RenderList, P.TurnsApplied, Feasible;
    var s, t := Answer(first, a), Answer(second, b);
    var turns := [s, t];
    AnswerEnds(first, a);
    AnswerEnds(second, b);
    assert turns[..1] == [s] && turns[..1][..0] == [];
    assert SessionLog([]) == [] && SessionLog(turns[..1]) == [] + ChunkLog(first, AgentMessage, a);
    var log := ChunkLog(first, AgentMessage, a);
    assert SessionLog(turns) == log + ChunkLog(second, AgentMessage, b);
    NothingLive(collapses);
    var none: seq<Notification> := [];
    assert none + log == log && "" + a == a;
    ChunkShown(none, first, AgentMessage, a, collapses);
    ChunkShown(log, second, AgentMessage, b, collapses);
    LiveKeyed(SessionLog(turns), collapses);
    P.RenderListIsOrder(Live(SessionLog(turns), collapses));
    ReloadedAnswers(a, b, collapses);
    assert StoredTurns([]) == [];
    assert StoredTurns(turns[..1]) == [ThreadItems([AgentItem(AgentId(0), a)])];
    assert StoredTurns(turns) == [ThreadItems([AgentItem(AgentId(0), a)]), ThreadItems([AgentItem(AgentId(0), b)])];
  }

  lemma ReloadedAnswers(a: string, b: string, collapses: (string, string) -> bool)
    ensures var stored := [ThreadItems([AgentItem(AgentId(0), a)]), ThreadItems([AgentItem(AgentId(0), b)])];
            Faces(P.RenderList(P.Seeded(P.EMPTY, stored, collapses))) == [Face(IdText(AgentId(0)), P.Assistant, P.TextKind, b)]
  {
    hide IdText, P.TurnsApplied, P.ItemsApplied;
    var one, two := ThreadItems([AgentItem(AgentId(0), a)]), ThreadItems([AgentItem(AgentId(0), b)]);
    var stored := [one, two];
    var p := P.Seeded(P.EMPTY, stored, collapses);
    var first := P.ItemApplied(P.EMPTY, one[0], false, collapses);
    TwoTurns(one, two, collapses);
    OneItem(P.EMPTY, one, collapses);
    OneItem(first, two, collapses);
    assert first.order == [IdText(AgentId(0))];
    assert p == P.ItemApplied(first, two[0], false, collapses);
    P.SeedKeepsKeyed(P.EMPTY, stored, collapses);
    P.RenderListIsOrder(p);
  }

  lemma TwoTurns(one: seq<P.ThreadItem>, two: seq<P.ThreadItem>, collapses: (string, string) -> bool)
    ensures P.TurnsApplied(P.EMPTY, [one, two], collapses) == P.ItemsApplied(P.ItemsApplied(P.EMPTY, one, collapses), two, collapses)
  {
    hide P.ItemsApplied;
    assert [one, two][..1] == [one] && [one][..0] == [];
    assert P.TurnsApplied(P.EMPTY, [], collapses) == P.EMPTY;
    assert P.TurnsApplied(P.EMPTY, [one], collapses) == P.ItemsApplied(P.EMPTY, one, collapses);
  }

  lemma OneItem(p: P.State, items: seq<P.ThreadItem>, collapses: (string, string) -> bool)
    requires |items| == 1
    ensures P.ItemsApplied(p, items, collapses) == P.ItemApplied(p, items[0], false, collapses)
  {
    hide P.ItemApplied;
    assert items[..0] == [] && P.ItemsApplied(p, items[..0], collapses) == p;
  }
}
