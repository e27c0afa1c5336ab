/**
 * Rebuilding stored turns from a replayed session (`build_turns_from_replay`,
 * daemon/crates/acp-bridge/src/handlers.rs): the stream is cut at every user chunk and each piece is translated on
 * its own. The lemmas say exactly when that gives what one pass over the whole stream gives, and exactly when the
 * turns' ids are distinct.
 */
module Replay {
  import opened Prelude
  import opened AcpItems
  import opened SessionTranslator

  datatype StoredTurn = StoredTurn(id: string, items: seq<Item>, status: string, startedAtMs: int, completedAtMs: Option<int>)

  function Replayed(id: string, items: seq<Item>): StoredTurn {
    StoredTurn(id, items, "completed", 0, Some(0))
  }

  /** A cut: the frame's method is not looked at here. */
  predicate IsBoundary(note: Note) {
    note.update.Some? && note.update.value.UserChunk?
  }

  function Boundaries(notes: seq<Note>): (bounds: seq<nat>)
    ensures forall i | 0 <= i < |bounds| :: bounds[i] < |notes| && IsBoundary(notes[bounds[i]])
    ensures forall i, j | 0 <= i < j < |bounds| :: bounds[i] < bounds[j]
  {
    if notes == [] then []
    else
      Boundaries(notes[..|notes| - 1]) + (if IsBoundary(notes[|notes| - 1]) then [|notes| - 1] else [])
  }

  function WindowId(n: nat): string {
    "turn-acp-" + Decimal(n)
  }

  /** The one turn of a stream without user chunks. */
  function FirstTurnId(): string {
    "turn-acp-0"
  }

  function PrefaceId(n: nat): string {
    "turn-acp-pre-" + Decimal(n)
  }

  function WithTurn(turns: seq<StoredTurn>, id: string, items: seq<Item>): seq<StoredTurn> {
    if items == [] then turns else turns + [Replayed(id, items)]
  }

  function PrefaceTurns(notes: seq<Note>, first: nat): seq<StoredTurn>
    requires first <= |notes|
  {
    if first > 0 then WithTurn([], PrefaceId(0), Translate(notes[..first]).items) else []
  }

  /** The turns after the preface and the first `k` windows between consecutive boundaries. */
  function WindowTurns(notes: seq<Note>, bounds: seq<nat>, k: nat): seq<StoredTurn>
    requires k < |bounds| && bounds == Boundaries(notes)
  {
    if k == 0 then PrefaceTurns(notes, bounds[0])
    else WithTurn(WindowTurns(notes, bounds, k - 1), WindowId(k - 1),
                  Translate(notes[bounds[k - 1]..bounds[k]]).items)
  }

  function Rebuilt(notes: seq<Note>): seq<StoredTurn> {
    var bounds := Boundaries(notes);
    if bounds == [] then WithTurn([], FirstTurnId(), Translate(notes).items)
    else
      var turns := WindowTurns(notes, bounds, |bounds| - 1);
      WithTurn(turns, WindowId(|turns|), Translate(notes[bounds[|bounds| - 1]..]).items)
  }

  method TranslateSlice(notes: seq<Note>) returns (items: seq<Item>)
    ensures items == Translate(notes).items
  {
    var translator := new SessionUpdateTranslator();
    for k := 0 to |notes|
      invariant translator.Valid() && translator.State() == IngestedAll(EMPTY, notes[..k])
    {
      IngestedAllStep(EMPTY, notes[..k], notes[k]);
      assert notes[..k + 1] == notes[..k] + [notes[k]];
      translator.Ingest(notes[k]);
    }
    assert notes[..|notes|] == notes;
    var result := translator.Finish();
    items := result.items;
  }

  method FindBoundaries(notes: seq<Note>) returns (bounds: seq<nat>)
    ensures bounds == Boundaries(notes)
  {
    bounds := [];
    for k := 0 to |notes|
      invariant bounds == Boundaries(notes[..k])
    {
      assert notes[..k + 1][..k] == notes[..k];
      if notes[k].update.Some? && notes[k].update.value.UserChunk? {
        bounds := bounds + [k];
      }
    }
    assert notes[..|notes|] == notes;
  }

  method BuildTurnsFromReplay(notes: seq<Note>) returns (turns: seq<StoredTurn>)
    ensures turns == Rebuilt(notes)
  {
    hide Translate, Boundaries, IsBoundary, FirstTurnId, PrefaceId, WindowId;
    var bounds := FindBoundaries(notes);
    turns := [];
    if bounds == [] {
      var items := TranslateSlice(notes);
      if items != [] {
        turns := [Replayed(FirstTurnId(), items)];
      }
      return;
    }
    if bounds[0] > 0 {
      var items := TranslateSlice(notes[..bounds[0]]);
      if items != [] {
        turns := turns + [Replayed(PrefaceId(|turns|), items)];
      }
    }
    for k := 1 to |bounds|
      invariant turns == WindowTurns(notes, bounds, k - 1)
    {
      var items := TranslateSlice(notes[bounds[k - 1]..bounds[k]]);
      if items != [] {
        turns := turns + [Replayed(WindowId(k - 1), items)];
      }
    }
    var items := TranslateSlice(notes[bounds[|bounds| - 1]..]);
    if items != [] {
      turns := turns + [Replayed(WindowId(|turns|), items)];
    }
  }

  // ----- Turn ids ----------------------------------------------------------------------------------------

  function TurnIds(turns: seq<StoredTurn>): seq<string> {
    seq(|turns|, i requires 0 <= i < |turns| => turns[i].id)
  }

  /** The window between boundaries `k` and `k + 1` translates to something. */
  predicate WindowStored(notes: seq<Note>, k: nat) {
    var bounds := Boundaries(notes);
    k + 1 < |bounds| && Translate(notes[bounds[k]..bounds[k + 1]]).items != []
  }

  predicate LastStored(notes: seq<Note>) {
    var bounds := Boundaries(notes);
    bounds != [] && Translate(notes[bounds[|bounds| - 1]..]).items != []
  }

  /** How many turns come before the last user segment. */
  function StoredBeforeLast(notes: seq<Note>): nat {
    var bounds := Boundaries(notes);
    if bounds == [] then 0 else |WindowTurns(notes, bounds, |bounds| - 1)|
  }

  lemma WindowIdsDiffer(m: nat, n: nat)
    ensures WindowId(m) == WindowId(n) <==> m == n
    ensures PrefaceId(m) != WindowId(n)
  {
    if WindowId(m) == WindowId(n) {
      PrefixCancels("turn-acp-", Decimal(m), Decimal(n));
      DecimalInjective(m, n);
    }
    DecimalStartsWithDigit(n);
    assert PrefaceId(m)[9] == 'p';
    assert WindowId(n)[9] == Decimal(n)[0];
  }

  lemma {:induction false} DecimalStartsWithDigit(n: nat)
    ensures '0' <= Decimal(n)[0] <= '9'
  {
    if n >= 10 {
      DecimalStartsWithDigit(n / 10);
    }
  }

  /** A window's id is used by exactly the stored windows seen so far, and no id is used twice. */
  lemma {:induction false} WindowIdsUsed(notes: seq<Note>, k: nat, n: nat)
    requires k < |Boundaries(notes)|
    ensures var ids := TurnIds(WindowTurns(notes, Boundaries(notes), k));
            Distinct(ids) && (WindowId(n) in ids <==> n < k && WindowStored(notes, n))
  {
    hide Translate, WindowId, PrefaceId, Boundaries;
    if k == 0 {
      WindowIdsDiffer(0, n);
    } else {
      WindowIdsUsed(notes, k - 1, n);
      WindowIdsUsed(notes, k - 1, k - 1);
      WindowIdsDiffer(k - 1, n);
      var before, after := WindowTurns(notes, Boundaries(notes), k - 1), WindowTurns(notes, Boundaries(notes), k);
      if WindowStored(notes, k - 1) {
        assert TurnIds(after) == TurnIds(before) + [WindowId(k - 1)];
        DistinctAppend(TurnIds(before), WindowId(k - 1));
      }
    }
  }

  /**
   * Turn ids repeat exactly when the last user segment is stored and the number of turns before it is the position
   * of a stored earlier window.
   */
  lemma TurnIdsDistinct(notes: seq<Note>)
    ensures Distinct(TurnIds(Rebuilt(notes))) <==> !(LastStored(notes) && WindowStored(notes, StoredBeforeLast(notes)))
  {
    hide Translate, FirstTurnId, WindowId, PrefaceId, Distinct, WindowTurns, Boundaries, IsBoundary;
    var bounds := Boundaries(notes);
    if bounds == [] {
      assert |TurnIds(Rebuilt(notes))| <= 1;
      SingletonDistinct(TurnIds(Rebuilt(notes)));
    } else {
      var turns := WindowTurns(notes, bounds, |bounds| - 1);
      WindowIdsUsed(notes, |bounds| - 1, |turns|);
      if LastStored(notes) {
        assert TurnIds(Rebuilt(notes)) == TurnIds(turns) + [WindowId(|turns|)];
        DistinctAppend(TurnIds(turns), WindowId(|turns|));
      }
    }
  }

  function UserNote(text: string): Note {
    Note(true, Some(UserChunk(StringContent(text))), 0)
  }

  function SecondTurnId(): string {
    "turn-acp-1"
  }

  /** Three user chunks, the first without words: the second window and the last segment get one id. */
  lemma RepeatedTurnId()
    ensures var notes := [UserNote(""), UserNote("a"), UserNote("b")];
            && TurnIds(Rebuilt(notes)) == [SecondTurnId(), SecondTurnId()]
            && !Distinct(TurnIds(Rebuilt(notes)))
  {
    hide WindowId;
    var notes := [UserNote(""), UserNote("a"), UserNote("b")];
    assert notes[..2] == [UserNote(""), UserNote("a")] && notes[..2][..1] == [UserNote("")];
    assert Boundaries(notes[..2][..1]) == [0] && Boundaries(notes[..2]) == [0, 1] && Boundaries(notes) == [0, 1, 2];
    assert notes[0..1] == [UserNote("")] && notes[1..2] == [UserNote("a")] && notes[2..] == [UserNote("b")];
    UserTurn(""); UserTurn("a"); UserTurn("b");
    SecondWindowId();
    assert WindowTurns(notes, [0, 1, 2], 1) == [];
    assert WindowTurns(notes, [0, 1, 2], 2) == [Replayed(WindowId(1), [UserItem(UserId(0), "a")])];
    assert Rebuilt(notes) == [Replayed(WindowId(1), [UserItem(UserId(0), "a")]), Replayed(WindowId(1), [UserItem(UserId(0), "b")])];
    assert TurnIds(Rebuilt(notes))[0] == TurnIds(Rebuilt(notes))[1];
  }

  lemma SecondWindowId()
    ensures WindowId(1) == SecondTurnId()
  {
    assert Decimal(1) == "1";
  }

  lemma UserTurn(text: string)
    ensures Translate([UserNote(text)]).items == if text == "" then [] else [UserItem(UserId(0), text)]
  {
    IngestedAllStep(EMPTY, [], UserNote(text));
    assert [] + [UserNote(text)] == [UserNote(text)];
  }

  /** How many of the first `k` windows are stored. */
  function StoredWindows(notes: seq<Note>, k: nat): nat {
    if k == 0 then 0 else StoredWindows(notes, k - 1) + if WindowStored(notes, k - 1) then 1 else 0
  }

  /** A note at or after `start` and before `end` leaves an item. */
  ghost predicate StoresWithin(notes: seq<Note>, start: nat, end: nat) {
    exists i | start <= i < end && i < |notes| :: Stores(notes[i])
  }

  lemma SliceStores(notes: seq<Note>, start: nat, end: nat)
    requires start <= end <= |notes|
    ensures Translate(notes[start..end]).items != [] <==> StoresWithin(notes, start, end)
  {
    hide Translate, Stores;
    var slice := notes[start..end];
    TranslatesToSomething(slice);
    if i :| 0 <= i < |slice| && Stores(slice[i]) {
      assert Stores(notes[start + i]);
    }
    if i :| start <= i < end && i < |notes| && Stores(notes[i]) {
      assert Stores(slice[i - start]);
    }
  }

  lemma {:induction false} WindowTurnsCount(notes: seq<Note>, k: nat)
    requires k < |Boundaries(notes)|
    ensures |WindowTurns(notes, Boundaries(notes), k)|
         == StoredWindows(notes, k) + if StoresWithin(notes, 0, Boundaries(notes)[0]) then 1 else 0
  {
    hide Translate, WindowId, PrefaceId, StoresWithin, Stores;
    if k == 0 {
      SliceStores(notes, 0, Boundaries(notes)[0]);
      assert notes[0..Boundaries(notes)[0]] == notes[..Boundaries(notes)[0]];
      if Boundaries(notes)[0] == 0 {
        NothingWithin(notes, 0);
      }
    } else {
      WindowTurnsCount(notes, k - 1);
    }
  }

  lemma NothingWithin(notes: seq<Note>, at: nat)
    ensures !StoresWithin(notes, at, at)
  {
  }

  /** The parts of `TurnIdsDistinct`, over the events and their cuts alone. */
  lemma StoredMeans(notes: seq<Note>, k: nat)
    requires Boundaries(notes) != []
    ensures var bounds := Boundaries(notes);
            && (LastStored(notes) <==> StoresWithin(notes, bounds[|bounds| - 1], |notes|))
            && (WindowStored(notes, k) <==> k + 1 < |bounds| && StoresWithin(notes, bounds[k], bounds[k + 1]))
            && StoredBeforeLast(notes) == StoredWindows(notes, |bounds| - 1) + if StoresWithin(notes, 0, bounds[0]) then 1 else 0
  {
    hide Translate, StoresWithin, Boundaries;
    var bounds := Boundaries(notes);
    WindowTurnsCount(notes, |bounds| - 1);
    SliceStores(notes, bounds[|bounds| - 1], |notes|);
    assert notes[bounds[|bounds| - 1]..|notes|] == notes[bounds[|bounds| - 1]..];
    if k + 1 < |bounds| {
      SliceStores(notes, bounds[k], bounds[k + 1]);
    }
  }

  lemma SingletonDistinct<T>(xs: seq<T>)
    requires |xs| <= 1
    ensures Distinct(xs)
  {
  }

  lemma {:induction false} WindowCount(notes: seq<Note>, k: nat)
    requires k < |Boundaries(notes)| && forall i: nat | i < k :: WindowStored(notes, i)
    ensures |WindowTurns(notes, Boundaries(notes), k)| >= k
  {
    hide Translate, WindowId, PrefaceId;
    if k > 0 {
      WindowCount(notes, k - 1);
      assert WindowStored(notes, k - 1);
    }
  }

  lemma StoredWindowsHaveDistinctIds(notes: seq<Note>)
    requires forall i: nat | i + 1 < |Boundaries(notes)| :: WindowStored(notes, i)
    ensures Distinct(TurnIds(Rebuilt(notes)))
  {
    hide Translate, WindowId, PrefaceId;
    if Boundaries(notes) != [] {
      WindowCount(notes, |Boundaries(notes)| - 1);
    }
    TurnIdsDistinct(notes);
  }

  // ----- One pass or piece by piece ------------------------------------------------------------------------

  function Flatten(turns: seq<StoredTurn>): seq<Item> {
    if turns == [] then [] else Flatten(turns[..|turns| - 1]) + turns[|turns| - 1].items
  }

  /** The item up to the counter in a text item's id. */
  function Erase(item: Item): Item {
    match item
    case AgentItem(AgentId(_), text) => AgentItem(AgentId(0), text)
    case ReasoningItem(ReasoningId(_), content) => ReasoningItem(ReasoningId(0), content)
    case UserItem(UserId(_), text) => UserItem(UserId(0), text)
    case _ => item
  }

  function EraseAll(items: seq<Item>): seq<Item> {
    seq(|items|, i requires 0 <= i < |items| => Erase(items[i]))
  }

  /** Translating piece by piece: the items of the finished pieces and the translator of the current one. */
  datatype Split = Split(done: seq<Item>, piece: TranslatorState)

  function SplitAll(notes: seq<Note>): Split {
    if notes == [] then Split([], EMPTY)
    else
      var before, note := SplitAll(notes[..|notes| - 1]), notes[|notes| - 1];
      if IsBoundary(note) then Split(before.done + Flushed(before.piece).items, Ingested(EMPTY, note))
      else before.(piece := Ingested(before.piece, note))
  }

  function SplitItems(notes: seq<Note>): seq<Item> {
    SplitAll(notes).done + Flushed(SplitAll(notes).piece).items
  }

  /** Between two cuts the split translator is the translator of the current piece. */
  lemma {:induction false} SplitPiece(notes: seq<Note>, start: nat)
    requires start <= |notes| && forall i | start < i < |notes| :: !IsBoundary(notes[i])
    requires if start < |notes| then IsBoundary(notes[start]) || start == 0 else start == 0
    ensures SplitAll(notes) == Split(if start == 0 then [] else SplitItems(notes[..start]), IngestedAll(EMPTY, notes[start..]))
    decreases |notes|
  {
    hide Ingested, Flushed;
    if notes != [] {
      var m := |notes| - 1;
      if start == m {
        assert notes[start..] == [] + [notes[m]];
        IngestedAllStep(EMPTY, [], notes[m]);
        assert start == 0 ==> notes[..m] == [];
        FlushedEmpty();
      } else {
        SplitPiece(notes[..m], start);
        assert notes[..m][..start] == notes[..start];
        assert notes[start..] == notes[..m][start..] + [notes[m]];
        IngestedAllStep(EMPTY, notes[..m][start..], notes[m]);
      }
    }
  }

  lemma FlushedEmpty()
    ensures Flushed(EMPTY).items == []
  {
  }

  lemma FlattenWithTurn(turns: seq<StoredTurn>, id: string, items: seq<Item>)
    ensures Flatten(WithTurn(turns, id, items)) == Flatten(turns) + items
  {
    if items != [] {
      assert WithTurn(turns, id, items)[..|turns|] == turns;
    }
  }

  /** Boundaries are exactly the user chunks: no note strictly between two consecutive ones is a user chunk. */
  lemma {:induction false} BoundariesComplete(notes: seq<Note>, i: nat)
    requires i < |notes| && IsBoundary(notes[i])
    ensures i in Boundaries(notes)
  {
    if i < |notes| - 1 {
      BoundariesComplete(notes[..|notes| - 1], i);
    }
  }

  lemma NoBoundaryBetween(notes: seq<Note>, k: nat, i: nat)
    requires var bounds := Boundaries(notes);
             && k <= |bounds| && i < |notes|
             && (if k == 0 then true else bounds[k - 1] < i)
             && (if k == |bounds| then true else i < bounds[k])
    ensures !IsBoundary(notes[i])
  {
    if IsBoundary(notes[i]) {
      BoundariesComplete(notes, i);
    }
  }

  /** Up to the cut `k` the split translation is that up to the cut before, and the piece between them. */
  lemma WindowPiece(notes: seq<Note>, k: nat, start: nat, end: nat)
    requires k < |Boundaries(notes)| && end == Boundaries(notes)[k] && start == if k == 0 then 0 else Boundaries(notes)[k - 1]
    ensures start <= end
    ensures SplitItems(notes[..end]) == (if k == 0 then [] else SplitItems(notes[..start])) + Translate(notes[start..end]).items
  {
    hide Ingested, Flushed, IsBoundary, Boundaries;
    forall i | start < i < end || (k == 0 && i == 0 < end) ensures !IsBoundary(notes[i]) {
      NoBoundaryBetween(notes, k, i);
    }
    FlushedEmpty();
    SplitPiece(notes[..end], start);
    assert notes[..end][..start] == notes[..start] && notes[..end][start..] == notes[start..end];
    assert start == 0 && k > 0 ==> SplitItems(notes[..start]) == [];
  }

  lemma {:induction false} WindowsFlatten(notes: seq<Note>, k: nat)
    requires k < |Boundaries(notes)|
    ensures Flatten(WindowTurns(notes, Boundaries(notes), k)) == SplitItems(notes[..Boundaries(notes)[k]])
  {
    hide Translate, SplitItems, WindowId, PrefaceId, Boundaries, WithTurn, Flatten;
    var bounds := Boundaries(notes);
    if k == 0 {
      WindowPiece(notes, 0, 0, bounds[0]);
      FlattenNothing();
      PrefaceFlattens(notes, bounds[0]);
    } else {
      WindowPiece(notes, k, bounds[k - 1], bounds[k]);
      WindowsFlatten(notes, k - 1);
      FlattenWithTurn(WindowTurns(notes, bounds, k - 1), WindowId(k - 1), Translate(notes[bounds[k - 1]..bounds[k]]).items);
    }
  }

  lemma PrefaceFlattens(notes: seq<Note>, first: nat)
    requires first <= |notes|
    ensures Flatten(PrefaceTurns(notes, first)) == Translate(notes[0..first]).items
  {
    hide PrefaceId, WithTurn, Ingested, Flushed;
    assert notes[0..first] == notes[..first];
    FlushedEmpty();
    if first > 0 {
      FlattenWithTurn([], PrefaceId(0), Translate(notes[..first]).items);
    }
  }

  /** The rebuilt turns hold, in order, the items of translating the stream piece by piece. */
  lemma RebuiltIsSplit(notes: seq<Note>)
    ensures Flatten(Rebuilt(notes)) == SplitItems(notes)
  {
    hide *;
    var bounds := Boundaries(notes);
    LastPiece(notes);
    var start := if bounds == [] then 0 else bounds[|bounds| - 1];
    var items := Translate(notes[start..]).items;
    RebuiltMeans(notes, items);
    if bounds == [] {
      FlattenWithTurn([], FirstTurnId(), items);
      FlattenNothing();
    } else {
      WindowsFlatten(notes, |bounds| - 1);
      FlattenWithTurn(WindowTurns(notes, bounds, |bounds| - 1), WindowId(|WindowTurns(notes, bounds, |bounds| - 1)|), items);
    }
  }

  lemma FlattenNothing()
    ensures Flatten([]) == []
  {
  }

  lemma RebuiltMeans(notes: seq<Note>, items: seq<Item>)
    requires var bounds := Boundaries(notes);
             items == Translate(notes[if bounds == [] then 0 else bounds[|bounds| - 1]..]).items
    ensures var bounds := Boundaries(notes);
            Rebuilt(notes) == if bounds == [] then WithTurn([], FirstTurnId(), items)
                              else WithTurn(WindowTurns(notes, bounds, |bounds| - 1), WindowId(|WindowTurns(notes, bounds, |bounds| - 1)|), items)
  {
    hide WindowTurns, WithTurn, Translate;
    assert notes[0..] == notes;
  }

  /** After the last cut the split translation is that of the last piece. */
  lemma {:induction false} LastPiece(notes: seq<Note>)
    ensures var bounds := Boundaries(notes);
            var start := if bounds == [] then 0 else bounds[|bounds| - 1];
            start <= |notes|
            && SplitItems(notes) == (if bounds == [] then [] else SplitItems(notes[..start])) + Translate(notes[start..]).items
  {
    hide Ingested, Flushed, IsBoundary, Boundaries;
    var bounds := Boundaries(notes);
    var start := if bounds == [] then 0 else bounds[|bounds| - 1];
    forall i | start < i < |notes| ensures !IsBoundary(notes[i]) {
      NoBoundaryBetween(notes, |bounds|, i);
    }
    FlushedEmpty();
    SplitPiece(notes, start);
    assert SplitItems([]) == [];
  }

  /** Note `i` updates a call the whole stream has seen before it and its own piece has not. */
  predicate CrossesCut(notes: seq<Note>, i: nat)
    requires i < |notes|
  {
    match Relevant(notes[i])
    case Some(ToolCallUpdate(fields)) =>
      var id := CallId(fields);
      id.Some? && id.value in IngestedAll(EMPTY, notes[..i]).tools && id.value !in SplitAll(notes[..i]).piece.tools
    case _ => false
  }

  /** Note `j` names the call and no cut follows it. */
  predicate NamedSinceCut(notes: seq<Note>, j: nat, id: string) {
    j < |notes| && Names(notes[j], id) && forall b | j < b < |notes| :: !IsBoundary(notes[b])
  }

  /** The current piece knows exactly the calls named since the last cut. */
  lemma {:induction false} PieceCallsAreNamed(notes: seq<Note>, id: string)
    ensures id in SplitAll(notes).piece.tools <==> exists j :: NamedSinceCut(notes, j, id)
  {
    hide Ingested, Flushed, Names, IsBoundary;
    if notes != [] {
      var before, note, last := notes[..|notes| - 1], notes[|notes| - 1], |notes| - 1;
      PieceCallsAreNamed(before, id);
      IngestLearns(SplitAll(before).piece, note, id);
      IngestLearns(EMPTY, note, id);
      if Names(note, id) {
        assert NamedSinceCut(notes, last, id);
      }
      if !IsBoundary(note) {
        if j :| NamedSinceCut(before, j, id) {
          assert NamedSinceCut(notes, j, id);
        }
      }
      if j :| NamedSinceCut(notes, j, id) {
        assert j == last || (NamedSinceCut(before, j, id) && !IsBoundary(note));
      }
    }
  }

  /** Over the events alone: an update crosses a cut when earlier events name its call and a cut follows each. */
  lemma CrossesCutMeans(notes: seq<Note>, i: nat)
    requires i < |notes|
    ensures CrossesCut(notes, i) <==>
            && Relevant(notes[i]).Some? && Relevant(notes[i]).value.ToolCallUpdate?
            && exists id :: Names(notes[i], id) && Mentions(notes[..i], id) && !exists j :: NamedSinceCut(notes[..i], j, id)
  {
    hide SplitAll, IngestedAll, Mentions, NamedSinceCut;
    match Relevant(notes[i])
    case Some(ToolCallUpdate(fields)) =>
      if id :| CallId(fields) == Some(id) {
        KnownCallsAreNamed(notes[..i], id);
        PieceCallsAreNamed(notes[..i], id);
        assert Names(notes[i], id);
      }
    case _ =>
  }

  function Crossings(notes: seq<Note>): nat {
    if notes == [] then 0
    else Crossings(notes[..|notes| - 1]) + (if CrossesCut(notes, |notes| - 1) then 1 else 0)
  }

  lemma {:induction false} NoCrossing(notes: seq<Note>)
    ensures Crossings(notes) == 0 <==> forall i: nat | i < |notes| :: !CrossesCut(notes, i)
  {
    hide IngestedAll, SplitAll;
    if notes != [] {
      var before := notes[..|notes| - 1];
      NoCrossing(before);
      forall i: nat | i < |before| ensures CrossesCut(before, i) <==> CrossesCut(notes, i) {
        assert before[..i] == notes[..i];
      }
    }
  }

  // ----- Counting: what each way stores --------------------------------------------------------------------

  /** The piece and the whole stream agree on the open text run, and on how much is stored but for the crossings. */
  ghost predicate Counted(base: nat, piece: TranslatorState, full: TranslatorState, crossings: nat) {
    && Sound(piece) && Sound(full)
    && piece.kind == full.kind && piece.buf == full.buf
    && (forall k | k in piece.tools :: k in full.tools)
    && base + |piece.items| == |full.items| + crossings
  }

  lemma FlushCounted(base: nat, piece: TranslatorState, full: TranslatorState, c: nat)
    requires Counted(base, piece, full, c)
    ensures Counted(base, Flushed(piece), Flushed(full), c)
  {
    hide Sound;
    FlushKeepsSound(piece);
    FlushKeepsSound(full);
  }

  lemma AppendCounted(base: nat, piece: TranslatorState, full: TranslatorState, c: nat, kind: TextKind, content: Content)
    requires Counted(base, piece, full, c)
    ensures Counted(base, Appended(piece, kind, content), Appended(full, kind, content), c)
  {
    hide Sound, ClassifyContent, Flushed;
    AppendKeepsSound(piece, kind, content);
    AppendKeepsSound(full, kind, content);
    FlushCounted(base, piece, full, c);
  }

  lemma {:induction false} AnnounceCounted(base: nat, piece: TranslatorState, full: TranslatorState, c: nat, fields: ToolFields, now: int)
    requires Counted(base, piece, full, c)
    ensures Counted(base, Announced(piece, fields, now), Announced(full, fields, now), c)
  {
    hide Sound, RenderToolCall;
    AnnounceKeepsSound(piece, fields, now);
    AnnounceKeepsSound(full, fields, now);
  }

  lemma MergeStoresNothing(s: TranslatorState, id: string, fields: ToolFields, now: int)
    requires Sound(s) && id in s.tools
    ensures var t := Merged(s, id, fields, now);
            |t.items| == |s.items| && t.tools.Keys == s.tools.Keys && t.kind == s.kind && t.buf == s.buf
  {
    hide RenderToolCall;
  }

  lemma UpdateCounted(base: nat, piece: TranslatorState, full: TranslatorState, c: nat, fields: ToolFields, now: int)
    requires Counted(base, piece, full, c)
    ensures var id := CallId(fields);
            Counted(base, CallUpdated(piece, fields, now), CallUpdated(full, fields, now),
                    if id.Some? && id.value in full.tools && id.value !in piece.tools then c + 1 else c)
  {
    hide Sound, RenderToolCall, Merged;
    UpdateKeepsSound(piece, fields, now);
    UpdateKeepsSound(full, fields, now);
    AnnounceKeepsSound(piece, fields, now);
    AnnounceKeepsSound(full, fields, now);
    if id :| CallId(fields) == Some(id) {
      MergeStoresNothing(if id in piece.tools then piece else Announced(piece, fields, now), id, fields, now);
      MergeStoresNothing(if id in full.tools then full else Announced(full, fields, now), id, fields, now);
    }
  }

  predicate UpdatesOnlyWhole(piece: TranslatorState, full: TranslatorState, note: Note) {
    match Relevant(note)
    case Some(ToolCallUpdate(fields)) =>
      CallId(fields).Some? && CallId(fields).value in full.tools && CallId(fields).value !in piece.tools
    case _ => false
  }

  lemma IngestCounted(base: nat, piece: TranslatorState, full: TranslatorState, c: nat, note: Note)
    requires Counted(base, piece, full, c) && !IsBoundary(note)
    ensures Counted(base, Ingested(piece, note), Ingested(full, note),
                    if UpdatesOnlyWhole(piece, full, note) then c + 1 else c)
  {
    hide Sound, Flushed, Appended, Announced, CallUpdated;
    IngestKeepsSound(piece, note);
    IngestKeepsSound(full, note);
    FlushCounted(base, piece, full, c);
    FlushKeepsTools(piece);
    FlushKeepsTools(full);
    match Relevant(note)
    case Some(AgentChunk(content)) => AppendCounted(base, piece, full, c, AgentMessage, content);
    case Some(ThoughtChunk(content)) => AppendCounted(base, piece, full, c, Reasoning, content);
    case Some(ToolCall(fields)) => AnnounceCounted(base, Flushed(piece), Flushed(full), c, fields, note.now);
    case Some(ToolCallUpdate(fields)) => UpdateCounted(base, Flushed(piece), Flushed(full), c, fields, note.now);
    case _ =>
  }

  lemma CutCounted(base: nat, piece: TranslatorState, full: TranslatorState, c: nat, note: Note)
    requires Counted(base, piece, full, c) && IsBoundary(note) && note.sessionUpdate
    ensures Counted(base + |Flushed(piece).items|, Ingested(EMPTY, note), Ingested(full, note), c)
  {
    hide Sound, ClassifyContent;
    IngestKeepsSound(full, note);
    EmptySound();
    IngestKeepsSound(EMPTY, note);
    FlushCounted(base, piece, full, c);
    FlushKeepsSound(full);
  }

  lemma EmptySound()
    ensures Sound(EMPTY)
  {
  }

  lemma {:induction false} StreamCounted(notes: seq<Note>)
    requires forall n | n in notes && IsBoundary(n) :: n.sessionUpdate
    ensures Counted(|SplitAll(notes).done|, SplitAll(notes).piece, IngestedAll(EMPTY, notes), Crossings(notes))
  {
    hide Ingested, Flushed, Counted;
    if notes == [] {
      EmptySound();
      assert Counted(0, EMPTY, EMPTY, 0) by { EmptyCounted(); }
    } else {
      var before, note := notes[..|notes| - 1], notes[|notes| - 1];
      StreamCounted(before);
      if IsBoundary(note) {
        CutCounted(|SplitAll(before).done|, SplitAll(before).piece, IngestedAll(EMPTY, before), Crossings(before), note);
      } else {
        IngestCounted(|SplitAll(before).done|, SplitAll(before).piece, IngestedAll(EMPTY, before), Crossings(before), note);
      }
    }
  }

  lemma EmptyCounted()
    ensures Counted(0, EMPTY, EMPTY, 0)
  {
  }

  /** Piece by piece stores one item more for every update that crosses a cut. */
  lemma {:induction false} EachCrossingStoresOneMore(notes: seq<Note>)
    requires forall n | n in notes && IsBoundary(n) :: n.sessionUpdate
    ensures |SplitItems(notes)| == |Translate(notes).items| + Crossings(notes)
  {
    hide Ingested, Flushed, Sound;
    var split := SplitAll(notes);
    StreamCounted(notes);
    FlushCounted(|split.done|, split.piece, IngestedAll(EMPTY, notes), Crossings(notes));
  }

  // ----- Contents: without crossings the stored items are the same -------------------------------------------

  /** Every call of the piece is the same call in the whole stream, filed at the same place after the finished items. */
  ghost predicate CallsAligned(base: nat, piece: TranslatorState, full: TranslatorState) {
    forall k | k in piece.tools ::
      && k in full.tools && full.tools[k] == piece.tools[k]
      && ToolId(k) in piece.index && ToolId(k) in full.index
      && full.index[ToolId(k)] == base + piece.index[ToolId(k)]
  }

  ghost predicate Parallel(done: seq<Item>, piece: TranslatorState, full: TranslatorState) {
    && Counted(|done|, piece, full, 0)
    && EraseAll(full.items) == EraseAll(done + piece.items)
    && CallsAligned(|done|, piece, full)
  }

  lemma FlushParallel(done: seq<Item>, piece: TranslatorState, full: TranslatorState)
    requires Parallel(done, piece, full)
    ensures Parallel(done, Flushed(piece), Flushed(full))
  {
    hide Sound, Counted;
    FlushCounted(|done|, piece, full, 0);
    CountedParts(|done|, piece, full, 0);
    if piece.kind.Some? && piece.buf != "" {
      PushErased(done, piece, full, TextItem(piece.kind.value, TextId(piece.kind.value, piece.seqNo), piece.buf),
                 TextItem(piece.kind.value, TextId(piece.kind.value, full.seqNo), piece.buf));
    }
  }

  lemma CountedParts(base: nat, piece: TranslatorState, full: TranslatorState, c: nat)
    requires Counted(base, piece, full, c)
    ensures piece.kind == full.kind && piece.buf == full.buf && base + |piece.items| == |full.items| + c
  {
  }

  /** Pushing items that differ at most in their counter keeps the lists equal. */
  lemma PushErased(done: seq<Item>, piece: TranslatorState, full: TranslatorState, a: Item, b: Item)
    requires EraseAll(full.items) == EraseAll(done + piece.items) && Erase(a) == Erase(b)
    ensures EraseAll(full.items + [b]) == EraseAll(done + (piece.items + [a]))
  {
    hide Erase;
    assert EraseAll(full.items + [b]) == EraseAll(full.items) + [Erase(b)];
    assert EraseAll(done + (piece.items + [a])) == EraseAll(done + piece.items) + [Erase(a)];
  }

  lemma ReplaceErased(done: seq<Item>, piece: TranslatorState, full: TranslatorState, at: nat, item: Item)
    requires EraseAll(full.items) == EraseAll(done + piece.items) && at < |piece.items|
    ensures EraseAll(full.items[|done| + at := item]) == EraseAll(done + piece.items[at := item])
  {
    hide Erase;
    assert |EraseAll(full.items)| == |done| + |piece.items|;
    assert EraseAll(full.items[|done| + at := item]) == EraseAll(full.items)[|done| + at := Erase(item)];
    assert EraseAll(done + piece.items[at := item]) == EraseAll(done + piece.items)[|done| + at := Erase(item)];
  }

  lemma StandaloneIsImage(content: Content)
    requires ClassifyContent(content).Standalone?
    ensures ClassifyContent(content).item.id.ImageId?
  {
  }

  lemma AppendParallel(done: seq<Item>, piece: TranslatorState, full: TranslatorState, kind: TextKind, content: Content)
    requires Parallel(done, piece, full)
    ensures Parallel(done, Appended(piece, kind, content), Appended(full, kind, content))
  {
    hide Sound, Counted, ClassifyContent, Flushed, Erase;
    AppendCounted(|done|, piece, full, 0, kind, content);
    CountedParts(|done|, piece, full, 0);
    FlushParallel(done, piece, full);
    if ClassifyContent(content).Standalone? {
      StandaloneIsImage(content);
      var item := ClassifyContent(content).item;
      PushErased(done, Flushed(piece), Flushed(full), item, item);
    }
  }

  lemma AnnounceParallel(done: seq<Item>, piece: TranslatorState, full: TranslatorState, fields: ToolFields, now: int)
    requires Parallel(done, piece, full)
    ensures Parallel(done, Announced(piece, fields, now), Announced(full, fields, now))
  {
    hide Sound, Counted, RenderToolCall, Erase;
    AnnounceCounted(|done|, piece, full, 0, fields, now);
    CountedParts(|done|, piece, full, 0);
    if CallId(fields).Some? {
      var state := FromAnnounce(CallId(fields).value, fields, now);
      RenderedCall(state);
      PushErased(done, piece, full, RenderToolCall(state), RenderToolCall(state));
    }
  }

  lemma MergeParallel(done: seq<Item>, piece: TranslatorState, full: TranslatorState, id: string, fields: ToolFields, now: int)
    requires Parallel(done, piece, full) && id in piece.tools
    ensures var p, f := Merged(piece, id, fields, now), Merged(full, id, fields, now);
            EraseAll(f.items) == EraseAll(done + p.items) && CallsAligned(|done|, p, f)
  {
    hide RenderToolCall, Erase;
    ReplaceErased(done, piece, full, piece.index[ToolId(id)], RenderToolCall(MergeUpdate(piece.tools[id], fields, now)));
  }

  lemma UpdateParallel(done: seq<Item>, piece: TranslatorState, full: TranslatorState, fields: ToolFields, now: int)
    requires Parallel(done, piece, full)
    requires CallId(fields).Some? && CallId(fields).value in full.tools ==> CallId(fields).value in piece.tools
    ensures Parallel(done, CallUpdated(piece, fields, now), CallUpdated(full, fields, now))
  {
    hide Sound, Counted, RenderToolCall, Merged, EraseAll;
    UpdateCounted(|done|, piece, full, 0, fields, now);
    if id :| CallId(fields) == Some(id) {
      AnnounceParallel(done, piece, full, fields, now);
      var p := if id in piece.tools then piece else Announced(piece, fields, now);
      var f := if id in full.tools then full else Announced(full, fields, now);
      MergeParallel(done, p, f, id, fields, now);
    }
  }

  lemma IngestParallel(done: seq<Item>, piece: TranslatorState, full: TranslatorState, note: Note)
    requires Parallel(done, piece, full) && !IsBoundary(note) && !UpdatesOnlyWhole(piece, full, note)
    ensures Parallel(done, Ingested(piece, note), Ingested(full, note))
  {
    hide Sound, Counted, EraseAll, Flushed, Appended, Announced, CallUpdated;
    FlushParallel(done, piece, full);
    FlushKeepsTools(piece);
    FlushKeepsTools(full);
    IngestCounted(|done|, piece, full, 0, note);
    match Relevant(note)
    case Some(AgentChunk(content)) => AppendParallel(done, piece, full, AgentMessage, content);
    case Some(ThoughtChunk(content)) => AppendParallel(done, piece, full, Reasoning, content);
    case Some(ToolCall(fields)) => AnnounceParallel(done, Flushed(piece), Flushed(full), fields, note.now);
    case Some(ToolCallUpdate(fields)) => UpdateParallel(done, Flushed(piece), Flushed(full), fields, note.now);
    case _ =>
  }

  lemma CutParallel(done: seq<Item>, piece: TranslatorState, full: TranslatorState, note: Note)
    requires Parallel(done, piece, full) && IsBoundary(note) && note.sessionUpdate
    ensures Parallel(done + Flushed(piece).items, Ingested(EMPTY, note), Ingested(full, note))
  {
    hide Sound, Counted, ClassifyContent;
    CutCounted(|done|, piece, full, 0, note);
    FlushParallel(done, piece, full);
    var all, f := done + Flushed(piece).items, Flushed(full);
    assert all + [] == all;
    if ClassifyContent(note.update.value.content).Words? {
      var text := ClassifyContent(note.update.value.content).text;
      PushErased(all, EMPTY, f, UserItem(UserId(0), text), UserItem(UserId(f.seqNo), text));
    }
  }

  lemma EmptyParallel()
    ensures Parallel([], EMPTY, EMPTY)
  {
  }

  lemma {:induction false} StreamParallel(notes: seq<Note>)
    requires forall n | n in notes && IsBoundary(n) :: n.sessionUpdate
    requires forall i: nat | i < |notes| :: !CrossesCut(notes, i)
    ensures Parallel(SplitAll(notes).done, SplitAll(notes).piece, IngestedAll(EMPTY, notes))
  {
    hide Ingested, Flushed, Parallel;
    if notes == [] {
      EmptyParallel();
    } else {
      var before, note := notes[..|notes| - 1], notes[|notes| - 1];
      assert !CrossesCut(notes, |notes| - 1);
      NoCrossing(notes);
      NoCrossing(before);
      StreamParallel(before);
      if IsBoundary(note) {
        CutParallel(SplitAll(before).done, SplitAll(before).piece, IngestedAll(EMPTY, before), note);
      } else {
        IngestParallel(SplitAll(before).done, SplitAll(before).piece, IngestedAll(EMPTY, before), note);
      }
    }
  }

  /**
   * The rebuilt turns hold, in order, the items one pass over the whole replay gives, up to the counters in text
   * ids, exactly when no update reaches back over a cut to a call its own piece has not seen.
   */
  lemma RebuiltMeansOnePass(notes: seq<Note>)
    requires forall n | n in notes && IsBoundary(n) :: n.sessionUpdate
    ensures EraseAll(Flatten(Rebuilt(notes))) == EraseAll(Translate(notes).items)
       <==> forall i: nat | i < |notes| :: !CrossesCut(notes, i)
  {
    hide Ingested, Flushed, Sound, CrossesCut, CallsAligned, Counted, Erase, Rebuilt;
    RebuiltIsSplit(notes);
    EachCrossingStoresOneMore(notes);
    NoCrossing(notes);
    if forall i: nat | i < |notes| :: !CrossesCut(notes, i) {
      StreamParallel(notes);
      FlushParallel(SplitAll(notes).done, SplitAll(notes).piece, IngestedAll(EMPTY, notes));
    } else {
      assert |EraseAll(Flatten(Rebuilt(notes)))| != |EraseAll(Translate(notes).items)|;
    }
  }

  function CallNote(update: bool, id: string): Note {
    var fields := ToolFields(Some(id), None, None, None, None, None, None, None);
    Note(true, Some(if update then ToolCallUpdate(fields) else ToolCall(fields)), 0)
  }

  /** A call announced in one turn and updated in the next is one item in one pass and two in the rebuilt turns. */
  lemma CrossingUpdateStoresTwice(id: string, text: string)
    requires id != "" && text != ""
    ensures var notes := [CallNote(false, id), UserNote(text), CallNote(true, id)];
            && CrossesCut(notes, 2)
            && |Translate(notes).items| == 2 && |Flatten(Rebuilt(notes))| == 3
            && EraseAll(Flatten(Rebuilt(notes))) != EraseAll(Translate(notes).items)
  {
    hide IngestedAll, Rebuilt, Crossings, RenderToolCall, Translate, SplitAll, SplitItems, Flatten;
    var notes := [CallNote(false, id), UserNote(text), CallNote(true, id)];
    CrossingAtTheEnd(notes, id);
    OnePassOverThree(id, text);
    RebuiltIsSplit(notes);
    EachCrossingStoresOneMore(notes);
    OneCrossing(notes);
  }

  lemma CrossingAtTheEnd(notes: seq<Note>, id: string)
    requires |notes| == 3 && id != "" && notes[0] == CallNote(false, id) && IsBoundary(notes[1]) && notes[2] == CallNote(true, id)
    ensures CrossesCut(notes, 2)
    ensures !CrossesCut(notes, 0) && !CrossesCut(notes, 1)
  {
    CrossesCutMeans(notes, 2);
    assert Names(notes[..2][0], id) && Names(notes[2], id);
    forall j ensures !NamedSinceCut(notes[..2], j, id) {
      assert IsBoundary(notes[..2][1]);
    }
  }

  lemma OneCrossing(notes: seq<Note>)
    requires |notes| == 3 && CrossesCut(notes, 2) && !CrossesCut(notes, 0) && !CrossesCut(notes, 1)
    ensures Crossings(notes) == 1
  {
    hide CrossesCut;
    NoCrossing(notes[..2]);
    forall i: nat | i < 2 ensures !CrossesCut(notes[..2], i) {
      CrossesCutOfPrefix(notes, i);
    }
  }

  lemma CrossesCutOfPrefix(notes: seq<Note>, i: nat)
    requires |notes| == 3 && i < 2
    ensures CrossesCut(notes[..2], i) <==> CrossesCut(notes, i)
  {
    assert notes[..2][..i] == notes[..i];
  }

  lemma OnePassOverThree(id: string, text: string)
    requires id != "" && text != ""
    ensures |Translate([CallNote(false, id), UserNote(text), CallNote(true, id)]).items| == 2
  {
    hide IngestedAll, RenderToolCall;
    var a, b, c := CallNote(false, id), UserNote(text), CallNote(true, id);
    var none: seq<Note> := [];
    IngestedAllStep(EMPTY, none, a);
    IngestedAllStep(EMPTY, [a], b);
    IngestedAllStep(EMPTY, [a, b], c);
    assert none + [a] == [a] && [a] + [b] == [a, b] && [a, b] + [c] == [a, b, c];
    assert IngestedAll(EMPTY, none) == EMPTY by { NothingIngested(); }
    var fields := a.update.value.fields;
    RenderedCall(FromAnnounce(id, fields, 0));
    RenderedCall(MergeUpdate(FromAnnounce(id, fields, 0), fields, 0));
    assert IngestedAll(EMPTY, [a]).index == map[ToolId(id) := 0];
  }

  lemma NothingIngested()
    ensures IngestedAll(EMPTY, []) == EMPTY
  {
  }
}
