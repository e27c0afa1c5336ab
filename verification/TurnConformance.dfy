/**
 * Every session the live emitter can produce passes the repository's own lifecycle check: any number of turns,
 * each an arbitrary event stream fed to a new emitter and finished, with text ids restarting in every turn.
 */
module TurnConformance {
  import opened Prelude
  import opened AcpItems
  import opened TurnStream
  import opened TurnLifecycle
  import StreamingCheck

  type Walk = StreamingCheck.Walk<string>
  type Frame = StreamingCheck.Frame<string>

  function KindOf(kind: TextKind): StreamingCheck.Kind {
    match kind case AgentMessage => StreamingCheck.AgentMessage case Reasoning => StreamingCheck.Reasoning
  }

  /** The fields of an item the check reads. A user item's content array holds objects, so no strings. */
  function View(item: Item): StreamingCheck.ItemView<string> {
    var id := Some(IdText(item.id));
    match item
    case AgentItem(_, text) => StreamingCheck.ItemView(id, Some(StreamingCheck.AgentMessage), Some(text), None)
    case ReasoningItem(_, content) => StreamingCheck.ItemView(id, Some(StreamingCheck.Reasoning), None, Some(content))
    case UserItem(_, _) => StreamingCheck.ItemView(id, None, None, Some([]))
    case _ => StreamingCheck.ItemView(id, None, None, None)
  }

  function FrameOf(step: string, n: Notification): Frame {
    StreamingCheck.Frame(step, true,
      match n
      case ItemStarted(_, item, _) => StreamingCheck.Started(Some(View(item)))
      case ItemCompleted(_, item, _) => StreamingCheck.Completed(Some(View(item)))
      case AgentDelta(_, id, delta) => StreamingCheck.Delta(StreamingCheck.AgentMessage, Some(IdText(id)), Some(delta))
      case ReasoningDelta(_, id, delta, _) => StreamingCheck.Delta(StreamingCheck.Reasoning, Some(IdText(id)), Some(delta)))
  }

  function Frames(step: string, log: seq<Notification>): seq<Frame> {
    seq(|log|, i requires 0 <= i < |log| => FrameOf(step, log[i]))
  }

  /** The check's walk over a log. */
  function WalkLog(w: Walk, step: string, log: seq<Notification>): Walk {
    StreamingCheck.WalkFrom(w, Frames(step, log))
  }

  lemma WalkEmit(w: Walk, step: string, log: seq<Notification>, n: Notification)
    ensures WalkLog(w, step, log + [n]) == StreamingCheck.Visit(WalkLog(w, step, log), FrameOf(step, n))
  {
    assert Frames(step, log + [n])[..|log|] == Frames(step, log);
  }

  /** Wire ids of streamed items start `acp-a` or `acp-r`. */
  predicate TextKey(key: string) {
    |key| > 4 && (key[4] == 'a' || key[4] == 'r')
  }

  /** The walk has reported nothing and has exactly the emitter's open run open, with the same text. */
  ghost predicate Follows(w: Walk, text: Option<TextRun>) {
    && w.findings == []
    && (forall key | key in w.items :: TextKey(key))
    && (forall key | key in w.items && !w.items[key].completed :: text.Some? && key == IdText(text.value.itemId))
    && (text.Some? ==>
          var key := IdText(text.value.itemId);
          key in w.items && !w.items[key].completed
          && w.items[key].kind == KindOf(text.value.kind) && w.items[key].text == text.value.text)
  }

  lemma OpenFollows(w: Walk, step: string, turn: TurnRef, kind: TextKind, n: nat, now: int)
    requires Follows(w, None)
    ensures var id := TextId(kind, n);
            Follows(StreamingCheck.Visit(w, FrameOf(step, ItemStarted(turn, TextItem(kind, id, ""), now))),
                    Some(TextRun(kind, id, "")))
  {
  }

  lemma DeltaFollows(w: Walk, step: string, run: TextRun, n: Notification, words: string)
    requires Follows(w, Some(run))
    requires match run.kind
             case AgentMessage => n.AgentDelta? && n.itemId == run.itemId && n.delta == words
             case Reasoning => n.ReasoningDelta? && n.itemId == run.itemId && n.delta == words
    ensures Follows(StreamingCheck.Visit(w, FrameOf(step, n)), Some(run.(text := run.text + words)))
  {
  }

  lemma CloseFollows(w: Walk, step: string, turn: TurnRef, run: TextRun, now: int)
    requires Follows(w, Some(run)) && run.text != ""
    ensures Follows(StreamingCheck.Visit(w, FrameOf(step, ItemCompleted(turn, TextItem(run.kind, run.itemId, run.text), now))), None)
  {
    assert Join([run.text]) == run.text;
  }

  /** A tool item's frames are invisible to the check: its id is never a tracked one. */
  lemma ToolFollows(w: Walk, step: string, turn: TurnRef, state: ToolCallState, callId: string, at: int)
    requires Follows(w, None) && state.itemId == ToolId(callId)
    ensures StreamingCheck.Visit(w, FrameOf(step, ItemStarted(turn, RenderToolCall(state), at))) == w
    ensures StreamingCheck.Visit(w, FrameOf(step, ItemCompleted(turn, RenderToolCall(state), at))) == w
  {
    hide RenderToolCall;
    RenderedCall(state);
    assert IdText(ToolId(callId))[4] == 't';
  }

  ghost predicate InStep(w0: Walk, step: string, s: EmitterState) {
    Follows(WalkLog(w0, step, s.log), s.text)
  }

  lemma FlushInStep(w0: Walk, step: string, s: EmitterState, now: int)
    requires InStep(w0, step, s) && OpenRunIsLatest(s)
    ensures InStep(w0, step, TextFlushed(s, now))
  {
    hide WalkLog, Follows;
    if s.text.Some? {
      var run := s.text.value;
      WalkEmit(w0, step, s.log, ItemCompleted(s.turn, TextItem(run.kind, run.itemId, run.text), now));
      CloseFollows(WalkLog(w0, step, s.log), step, s.turn, run, now);
    }
  }

  lemma TextInStep(w0: Walk, step: string, s: EmitterState, kind: TextKind, content: Content, now: int)
    requires InStep(w0, step, s) && OpenRunIsLatest(s)
    ensures InStep(w0, step, TextIngested(s, kind, content, now))
  {
    hide WalkLog, Follows, FrameOf, PluckText, OpenRunIsLatest;
    var words := PluckText(content);
    if words != "" {
      var closed := if s.text.Some? && s.text.value.kind != kind then TextFlushed(s, now) else s;
      FlushInStep(w0, step, s, now);
      var open := if closed.text.None? then OpenText(closed, kind, now) else closed;
      if closed.text.None? {
        WalkEmit(w0, step, closed.log, ItemStarted(s.turn, TextItem(kind, TextId(kind, closed.textSeq), ""), now));
        OpenFollows(WalkLog(w0, step, closed.log), step, s.turn, kind, closed.textSeq, now);
      }
      var n := AppendText(open, words).log[|open.log|];
      assert AppendText(open, words).log == open.log + [n];
      WalkEmit(w0, step, open.log, n);
      DeltaFollows(WalkLog(w0, step, open.log), step, open.text.value, n, words);
    }
  }

  lemma AnnounceInStep(w0: Walk, step: string, s: EmitterState, fields: ToolFields, now: int)
    requires InStep(w0, step, s) && s.text.None?
    ensures InStep(w0, step, CallAnnounced(s, fields, now))
  {
    hide WalkLog, Follows, RenderToolCall;
    if CallId(fields).Some? {
      var state := FromAnnounce(CallId(fields).value, fields, now);
      WalkEmit(w0, step, s.log, ItemStarted(s.turn, RenderToolCall(state), now));
      ToolFollows(WalkLog(w0, step, s.log), step, s.turn, state, CallId(fields).value, now);
    }
  }

  lemma MergeInStep(w0: Walk, step: string, s: EmitterState, id: string, fields: ToolFields, now: int)
    requires InStep(w0, step, s) && s.text.None? && id in s.tools && s.tools[id].state.itemId == ToolId(id)
    ensures InStep(w0, step, CallMerged(s, id, fields, now))
  {
    hide WalkLog, Follows, RenderToolCall;
    var state := MergeUpdate(s.tools[id].state, fields, now);
    WalkEmit(w0, step, s.log, ItemCompleted(s.turn, RenderToolCall(state), now));
    ToolFollows(WalkLog(w0, step, s.log), step, s.turn, state, id, now);
  }

  lemma IngestInStep(w0: Walk, step: string, s: EmitterState, note: Note)
    requires InStep(w0, step, s) && Consistent(s)
    ensures InStep(w0, step, Ingested(s, note))
  {
    hide WalkLog, Follows, RenderToolCall, TextIngested, TextFlushed, CallAnnounced, CallMerged, CallsShown,
      IndexFindsLast, IdsAccountedFor;
    var now, flushed := note.now, TextFlushed(s, note.now);
    FlushKeepsConsistent(s, now);
    FlushInStep(w0, step, s, now);
    match Relevant(note)
    case Some(AgentChunk(content)) => TextInStep(w0, step, s, AgentMessage, content, now);
    case Some(ThoughtChunk(content)) => TextInStep(w0, step, s, Reasoning, content, now);
    case Some(ToolCall(fields)) => AnnounceInStep(w0, step, flushed, fields, now);
    case Some(ToolCallUpdate(fields)) =>
      if id :| CallId(fields) == Some(id) {
        AnnounceInStep(w0, step, flushed, fields, now);
        AnnounceKeepsConsistent(flushed, fields, now);
        AnnouncedIsKnown(flushed, fields, now);
        var known := if id in flushed.tools then flushed else CallAnnounced(flushed, fields, now);
        KnownCall(known, id);
        MergeInStep(w0, step, known, id, fields, now);
      }
    case _ =>
  }

  lemma {:induction false} RunInStep(w0: Walk, step: string, turn: TurnRef, notes: seq<Note>)
    requires Follows(w0, None)
    ensures InStep(w0, step, Run(turn, notes))
  {
    if notes == [] {
      assert Frames(step, []) == [];
    } else {
      var before := notes[..|notes| - 1];
      RunInStep(w0, step, turn, before);
      RunConsistent(turn, before);
      IngestInStep(w0, step, Run(turn, before), notes[|notes| - 1]);
    }
  }

  lemma {:induction false} OwedInStep(w0: Walk, step: string, s: EmitterState, order: seq<string>, now: int)
    requires forall i | 0 <= i < |order| :: order[i] in s.tools
    requires Consistent(s) && s.text.None? && InStep(w0, step, s)
    ensures InStep(w0, step, s.(log := s.log + OwedCompletions(s.turn, s.tools, order, now)))
  {
    hide RenderToolCall, Follows, WalkLog;
    if order == [] {
      assert s.log + [] == s.log;
    } else {
      var last := order[|order| - 1];
      OwedInStep(w0, step, s, order[..|order| - 1], now);
      KnownCall(s, last);
      var log := s.log + OwedCompletions(s.turn, s.tools, order[..|order| - 1], now);
      var item := RenderToolCall(s.tools[last].state);
      WalkEmit(w0, step, log, ItemCompleted(s.turn, item, now));
      ToolFollows(WalkLog(w0, step, log), step, s.turn, s.tools[last].state, last, now);
      if s.tools[last].completed {
        assert s.log + OwedCompletions(s.turn, s.tools, order, now) == log;
      } else {
        assert s.log + OwedCompletions(s.turn, s.tools, order, now) == log + [ItemCompleted(s.turn, item, now)];
      }
    }
  }

  // ----- Sessions ----------------------------------------------------------------------------------------

  /** One turn: its events, the order in which the unfinished calls are drained, and the clock at the end. */
  datatype TurnInput = TurnInput(turn: TurnRef, notes: seq<Note>, order: seq<string>, finishedAt: int)

  ghost predicate Feasible(t: TurnInput) {
    Enumerates(t.order, Run(t.turn, t.notes).tools.Keys)
  }

  ghost function TurnEnd(t: TurnInput): EmitterState
    requires Feasible(t)
  {
    Finished(Run(t.turn, t.notes), t.order, t.finishedAt)
  }

  ghost function SessionLog(turns: seq<TurnInput>): seq<Notification>
    requires forall t | t in turns :: Feasible(t)
  {
    if turns == [] then [] else SessionLog(turns[..|turns| - 1]) + TurnEnd(turns[|turns| - 1]).log
  }

  lemma TurnInStep(w0: Walk, step: string, t: TurnInput)
    requires Follows(w0, None) && Feasible(t)
    ensures Follows(WalkLog(w0, step, TurnEnd(t).log), None)
  {
    hide WalkLog, Follows, CloseCalls, TextFlushed;
    var s := Run(t.turn, t.notes);
    RunInStep(w0, step, t.turn, t.notes);
    RunConsistent(t.turn, t.notes);
    FlushKeepsConsistent(s, t.finishedAt);
    FlushInStep(w0, step, s, t.finishedAt);
    FinishChangesNoItem(s, t.order, t.finishedAt);
    FlushKeepsTurn(s, t.finishedAt);
    OwedInStep(w0, step, TextFlushed(s, t.finishedAt), t.order, t.finishedAt);
  }

  lemma {:induction false} SessionInStep(step: string, turns: seq<TurnInput>)
    requires forall t | t in turns :: Feasible(t)
    ensures Follows(WalkLog(StreamingCheck.Walk(map[], []), step, SessionLog(turns)), None)
  {
    var w0: Walk := StreamingCheck.Walk(map[], []);
    if turns == [] {
      assert Frames(step, []) == [];
    } else {
      var before, last := turns[..|turns| - 1], turns[|turns| - 1];
      SessionInStep(step, before);
      TurnInStep(WalkLog(w0, step, SessionLog(before)), step, last);
      assert Frames(step, SessionLog(before) + TurnEnd(last).log)
          == Frames(step, SessionLog(before)) + Frames(step, TurnEnd(last).log);
      StreamingCheck.WalkAppend(w0, Frames(step, SessionLog(before)), Frames(step, TurnEnd(last).log));
    }
  }

  /** The lifecycle check has nothing to report on any session, and the session is well bracketed. */
  lemma EverySessionAccepted(step: string, turns: seq<TurnInput>)
    requires forall t | t in turns :: Feasible(t)
    ensures StreamingCheck.Accepted(Frames(step, SessionLog(turns)))
    ensures StreamingCheck.WellBracketed(Frames(step, SessionLog(turns)))
  {
    SessionInStep(step, turns);
    StreamingCheck.AcceptedMeansWellBracketed(Frames(step, SessionLog(turns)));
  }
}
