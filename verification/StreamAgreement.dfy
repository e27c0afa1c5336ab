/**
 * The live emitter and the batch translator build the same items from the same events, and the class of events on
 * which they do is exact.
 */
module StreamAgreement {
  import opened Prelude
  import opened AcpItems
  import E = TurnStream
  import L = TurnLifecycle
  import T = SessionTranslator

  /** Both machines read the same words from a chunk, and an empty chunk is nothing to either. */
  predicate PlainText(content: Content) {
    match ClassifyContent(content)
    case Words(text) => text != "" && PluckText(content) == text
    case NoContribution => PluckText(content) == ""
    case Standalone(_) => false
  }

  /** A user chunk neither machine stores. */
  predicate SilentUser(content: Content) {
    match ClassifyContent(content)
    case Words(text) => text == ""
    case _ => true
  }

  predicate Plain(note: Note) {
    match Relevant(note)
    case Some(AgentChunk(content)) => PlainText(content)
    case Some(ThoughtChunk(content)) => PlainText(content)
    case Some(UserChunk(content)) => SilentUser(content)
    case _ => true
  }

  /** The two states after the same events. */
  ghost predicate Alike(e: E.EmitterState, t: T.TranslatorState) {
    && e.items == t.items && e.index == t.index && e.plan == t.plan && e.commands == t.commands
    && e.tools.Keys == t.tools.Keys && (forall k | k in e.tools :: e.tools[k].state == t.tools[k])
    && match e.text
       case None => t.kind.None? && t.buf == "" && e.textSeq == t.seqNo
       case Some(run) => t.kind == Some(run.kind) && t.buf == run.text && run.text != ""
                         && e.textSeq == t.seqNo + 1 && run.itemId == TextId(run.kind, t.seqNo)
  }

  lemma FlushAlike(e: E.EmitterState, t: T.TranslatorState, now: int)
    requires Alike(e, t)
    ensures Alike(E.TextFlushed(e, now), T.Flushed(t)) && E.TextFlushed(e, now).text.None?
  {
  }

  lemma TextAlike(e: E.EmitterState, t: T.TranslatorState, kind: TextKind, content: Content, now: int)
    requires Alike(e, t) && PlainText(content)
    ensures Alike(E.TextIngested(e, kind, content, now), T.Appended(t, kind, content))
  {
    hide ClassifyContent, PluckText, E.TextFlushed, T.Flushed, E.OpenText, E.AppendText;
    FlushAlike(e, t, now);
    var words := PluckText(content);
    if words != "" {
      var switches := e.text.Some? && e.text.value.kind != kind;
      var closed, run := if switches then E.TextFlushed(e, now) else e, if t.kind != Some(kind) then T.Flushed(t) else t;
      if e.text.None? {
        NothingFlushed(e, t, now);
      }
      if closed.text.None? {
        OpenAlike(closed, run, kind, words, now);
      } else {
        AppendAlike(closed, run, words);
      }
    }
  }

  lemma NothingFlushed(e: E.EmitterState, t: T.TranslatorState, now: int)
    requires Alike(e, t) && e.text.None?
    ensures T.Flushed(t) == t
  {
  }

  /** A first chunk opens the run here and only buffers there. */
  lemma OpenAlike(e: E.EmitterState, t: T.TranslatorState, kind: TextKind, words: string, now: int)
    requires Alike(e, t) && e.text.None? && words != ""
    ensures E.OpenText(e, kind, now).text.Some?
    ensures Alike(E.AppendText(E.OpenText(e, kind, now), words), t.(kind := Some(kind), buf := t.buf + words))
  {
    assert "" + words == words;
  }

  lemma AppendAlike(e: E.EmitterState, t: T.TranslatorState, words: string)
    requires Alike(e, t) && e.text.Some?
    ensures Alike(E.AppendText(e, words), t.(buf := t.buf + words))
  {
    assert |e.text.value.text + words| > 0;
  }

  lemma AnnounceAlike(e: E.EmitterState, t: T.TranslatorState, fields: ToolFields, now: int)
    requires Alike(e, t) && e.text.None?
    ensures Alike(E.CallAnnounced(e, fields, now), T.Announced(t, fields, now)) && E.CallAnnounced(e, fields, now).text.None?
  {
    hide RenderToolCall;
  }

  lemma MergeAlike(e: E.EmitterState, t: T.TranslatorState, id: string, fields: ToolFields, now: int)
    requires Alike(e, t) && e.text.None? && id in e.tools
    ensures Alike(E.CallMerged(e, id, fields, now), T.Merged(t, id, fields, now))
  {
    hide RenderToolCall;
  }

  lemma IngestAlike(e: E.EmitterState, t: T.TranslatorState, note: Note)
    requires Alike(e, t) && Plain(note)
    ensures Alike(E.Ingested(e, note), T.Ingested(t, note))
  {
    hide RenderToolCall, PlainText, ClassifyContent, E.TextFlushed, T.Flushed, E.CallAnnounced, T.Announced, E.CallMerged, T.Merged,
      E.TextIngested, T.Appended;
    var now, fe, ft := note.now, E.TextFlushed(e, note.now), T.Flushed(t);
    FlushAlike(e, t, now);
    match Relevant(note)
    case Some(AgentChunk(content)) => TextAlike(e, t, AgentMessage, content, now);
    case Some(ThoughtChunk(content)) => TextAlike(e, t, Reasoning, content, now);
    case Some(ToolCall(fields)) => AnnounceAlike(fe, ft, fields, now);
    case Some(ToolCallUpdate(fields)) =>
      if id :| CallId(fields) == Some(id) {
        AnnounceAlike(fe, ft, fields, now);
        L.AnnouncedIsKnown(fe, fields, now);
        MergeAlike(if id in fe.tools then fe else E.CallAnnounced(fe, fields, now),
                   if id in ft.tools then ft else T.Announced(ft, fields, now), id, fields, now);
      }
    case _ =>
  }

  lemma {:induction false} RunsAlike(turn: E.TurnRef, notes: seq<Note>)
    requires forall n | n in notes :: Plain(n)
    ensures Alike(E.Run(turn, notes), T.IngestedAll(T.EMPTY, notes))
  {
    if notes != [] {
      RunsAlike(turn, notes[..|notes| - 1]);
      IngestAlike(E.Run(turn, notes[..|notes| - 1]), T.IngestedAll(T.EMPTY, notes[..|notes| - 1]), notes[|notes| - 1]);
    }
  }

  /**
   * On plain events, orphan updates and repeated announcements included, the two machines finish with the same
   * items in the same order under the same ids, and with the same plan and commands.
   */
  lemma {:induction false} EmitterAgreesWithTranslator(turn: E.TurnRef, notes: seq<Note>, order: seq<string>, now: int)
    requires forall n | n in notes :: Plain(n)
    requires Enumerates(order, E.Run(turn, notes).tools.Keys)
    ensures var live := E.Result(E.Finished(E.Run(turn, notes), order, now));
            T.TranslatedStream(live.items, live.plan, live.commands) == T.Translate(notes)
  {
    hide E.CloseCalls, E.TextFlushed, T.Flushed;
    RunsAlike(turn, notes);
    L.RunConsistent(turn, notes);
    L.FinishChangesNoItem(E.Run(turn, notes), order, now);
    FlushAlike(E.Run(turn, notes), T.IngestedAll(T.EMPTY, notes), now);
  }

  // ----- The class of events is exact --------------------------------------------------------------------

  function LiveItems(turn: E.TurnRef, notes: seq<Note>): seq<Item> {
    E.TextFlushed(E.Run(turn, notes), 0).items
  }

  lemma OneOrThreeEvents(turn: E.TurnRef, a: Note, b: Note, c: Note)
    ensures E.Run(turn, [b]) == E.Ingested(E.Fresh(turn), b)
    ensures T.IngestedAll(T.EMPTY, [b]) == T.Ingested(T.EMPTY, b)
    ensures E.Run(turn, [a, b, c]) == E.Ingested(E.Ingested(E.Ingested(E.Fresh(turn), a), b), c)
    ensures T.IngestedAll(T.EMPTY, [a, b, c]) == T.Ingested(T.Ingested(T.Ingested(T.EMPTY, a), b), c)
  {
    hide E.Ingested, T.Ingested;
    E.RunStep(turn, [], a); E.RunStep(turn, [], b); E.RunStep(turn, [a], b); E.RunStep(turn, [a, b], c);
    T.IngestedAllStep(T.EMPTY, [], a); T.IngestedAllStep(T.EMPTY, [], b);
    T.IngestedAllStep(T.EMPTY, [a], b); T.IngestedAllStep(T.EMPTY, [a, b], c);
    assert [] + [a] == [a] && [] + [b] == [b] && [a] + [b] == [a, b] && [a, b] + [c] == [a, b, c];
  }

  /** A chunk whose words are empty to both machines. */
  predicate EmptyWords(note: Note) {
    match Relevant(note)
    case Some(AgentChunk(content)) => ClassifyContent(content) == Words("") && PluckText(content) == ""
    case Some(ThoughtChunk(content)) => ClassifyContent(content) == Words("") && PluckText(content) == ""
    case _ => false
  }

  lemma ChunksArePlain(kind: TextKind)
    ensures Plain(Chunk(kind, "a", 0)) && Plain(Chunk(kind, "b", 0))
  {
  }

  /** What one chunk alone leaves in the emitter, and in the translator. */
  lemma ChunkAloneLive(turn: E.TurnRef, note: Note, kind: TextKind, content: Content)
    requires Relevant(note) == Some(match kind case AgentMessage => AgentChunk(content) case Reasoning => ThoughtChunk(content))
    ensures LiveItems(turn, [note])
         == if PluckText(content) == "" then [] else [TextItem(kind, TextId(kind, 0), PluckText(content))]
  {
    hide PluckText;
    OneOrThreeEvents(turn, note, note, note);
    assert "" + PluckText(content) == PluckText(content);
  }

  lemma ChunkAloneTranslated(turn: E.TurnRef, note: Note, kind: TextKind, content: Content)
    requires Relevant(note) == Some(match kind case AgentMessage => AgentChunk(content) case Reasoning => ThoughtChunk(content))
    ensures T.Translate([note]).items
         == match ClassifyContent(content)
            case NoContribution => []
            case Words(text) => if text == "" then [] else [TextItem(kind, TextId(kind, 0), text)]
            case Standalone(item) => [item]
  {
    hide ClassifyContent;
    OneOrThreeEvents(turn, note, note, note);
    if ClassifyContent(content).Words? {
      assert "" + ClassifyContent(content).text == ClassifyContent(content).text;
    }
  }

  lemma StandaloneIsImage(content: Content)
    requires ClassifyContent(content).Standalone?
    ensures ClassifyContent(content).item.ImageItem?
  {
  }

  lemma ChunkAloneDisagrees(turn: E.TurnRef, note: Note, kind: TextKind, content: Content)
    requires Relevant(note) == Some(match kind case AgentMessage => AgentChunk(content) case Reasoning => ThoughtChunk(content))
    requires !Plain(note) && !EmptyWords(note)
    ensures LiveItems(turn, [note]) != T.Translate([note]).items
  {
    hide ClassifyContent, PluckText, LiveItems, T.Translate;
    ChunkAloneLive(turn, note, kind, content);
    ChunkAloneTranslated(turn, note, kind, content);
    if ClassifyContent(content).Standalone? {
      StandaloneIsImage(content);
    }
  }

  /** Any other event outside the class already separates the machines on its own. */
  lemma AloneDisagree(turn: E.TurnRef, note: Note)
    requires !Plain(note) && !EmptyWords(note)
    ensures LiveItems(turn, [note]) != T.Translate([note]).items
  {
    hide ClassifyContent, PluckText;
    OneOrThreeEvents(turn, note, note, note);
    match Relevant(note)
    case Some(UserChunk(_)) =>
    case Some(AgentChunk(content)) => ChunkAloneDisagrees(turn, note, AgentMessage, content);
    case Some(ThoughtChunk(content)) => ChunkAloneDisagrees(turn, note, Reasoning, content);
  }

  /** An empty chunk splits a run of the other kind in the translator and leaves it whole in the emitter. */
  lemma EmptyWordsSplit(turn: E.TurnRef, note: Note, other: TextKind)
    requires EmptyWords(note) && (note.update.value.AgentChunk? <==> other == Reasoning)
    ensures var notes := [Chunk(other, "a", 0), note, Chunk(other, "b", 0)];
            |LiveItems(turn, notes)| == 1 && |T.Translate(notes).items| == 2
  {
    OneOrThreeEvents(turn, Chunk(other, "a", 0), note, Chunk(other, "b", 0));
  }

  /** For every event outside the class there is a stream of it and plain chunks on which the stored items differ. */
  lemma NoWiderClass(turn: E.TurnRef, note: Note)
    requires !Plain(note)
    ensures exists before, after ::
              && (forall n | n in before :: Plain(n)) && (forall n | n in after :: Plain(n))
              && LiveItems(turn, before + [note] + after) != T.Translate(before + [note] + after).items
  {
    hide ClassifyContent, LiveItems, T.Translate, E.Run;
    ChunksArePlain(AgentMessage);
    ChunksArePlain(Reasoning);
    if EmptyWords(note) {
      var other := if note.update.value.AgentChunk? then Reasoning else AgentMessage;
      EmptyWordsSplit(turn, note, other);
      var before, after := [Chunk(other, "a", 0)], [Chunk(other, "b", 0)];
      assert before + [note] + after == [Chunk(other, "a", 0), note, Chunk(other, "b", 0)];
    } else {
      AloneDisagree(turn, note);
      var none: seq<Note> := [];
      assert none + [note] + none == [note];
    }
  }
}
