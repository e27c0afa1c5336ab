/**
 * The repository's executable specification of a notification stream's lifecycle
 * (daemon/crates/bridge-conformance/src/streaming.rs), and what it accepts, stated without it.
 */
module StreamingCheck {
  import opened Prelude

  /** The item kinds whose text is streamed. */
  datatype Kind = AgentMessage | Reasoning

  /** The fields of `/params/item` the check reads; `content` holds the strings of the content array. */
  datatype ItemView<Id> = ItemView(id: Option<Id>, kind: Option<Kind>, text: Option<string>, content: Option<seq<string>>)

  datatype Body<Id> =
    | Started(item: Option<ItemView<Id>>)
    | Completed(item: Option<ItemView<Id>>)
    | Delta(kind: Kind, itemId: Option<Id>, delta: Option<string>)
    | Other

  datatype Frame<Id> = Frame(step: string, notification: bool, body: Body<Id>)

  datatype Problem =
    | OrphanDelta
    | WrongKind(expected: Kind, actual: Kind)
    | OrphanCompletion
    | NoDeltas
    | AgentTextMismatch(final: string, joined: string)
    | ReasoningMismatch(final: string, joined: string)
    | NeverCompleted(kind: Kind)

  datatype Finding<Id> = Finding(step: string, id: Id, problem: Problem)

  datatype Tracked = Tracked(step: string, kind: Kind, text: string, completed: bool)

  datatype Walk<Id> = Walk(items: map<Id, Tracked>, findings: seq<Finding<Id>>)

  // ----- One frame ---------------------------------------------------------------------------------------

  function OnStarted<Id>(w: Walk<Id>, step: string, item: Option<ItemView<Id>>): Walk<Id> {
    if item.None? || item.value.id.None? || item.value.kind.None? then w
    else w.(items := w.items[item.value.id.value := Tracked(step, item.value.kind.value, "", false)])
  }

  /** What a completed payload gets reported for, given what was tracked for its id. */
  function CompletionProblems<Id>(tracked: Tracked, item: ItemView<Id>): seq<Problem> {
    if tracked.kind == AgentMessage && item.text.Some? then
      (if tracked.text == "" then [NoDeltas] else [])
      + (if item.text.value != tracked.text then [AgentTextMismatch(item.text.value, tracked.text)] else [])
    else if tracked.kind == Reasoning && item.content.Some? then
      var final := Join(item.content.value);
      if tracked.text != "" && final != tracked.text then [ReasoningMismatch(final, tracked.text)] else []
    else []
  }

  function Report<Id>(step: string, id: Id, problems: seq<Problem>): seq<Finding<Id>> {
    seq(|problems|, i requires 0 <= i < |problems| => Finding(step, id, problems[i]))
  }

  function OnCompleted<Id>(w: Walk<Id>, step: string, item: Option<ItemView<Id>>): Walk<Id> {
    if item.None? || item.value.id.None? then w
    else
      var id := item.value.id.value;
      if id !in w.items then
        if item.value.kind.Some? then w.(findings := w.findings + [Finding(step, id, OrphanCompletion)]) else w
      else
        var tracked := w.items[id];
        Walk(w.items[id := tracked.(completed := true)],
             w.findings + Report(step, id, CompletionProblems(tracked, item.value)))
  }

  function OnDelta<Id>(w: Walk<Id>, step: string, kind: Kind, itemId: Option<Id>, delta: Option<string>): Walk<Id> {
    if itemId.None? then w
    else
      var id := itemId.value;
      if id !in w.items then w.(findings := w.findings + [Finding(step, id, OrphanDelta)])
      else
        var tracked := w.items[id];
        if tracked.kind != kind then w.(findings := w.findings + [Finding(step, id, WrongKind(kind, tracked.kind))])
        else w.(items := w.items[id := tracked.(text := tracked.text + Or(delta, ""))])
  }

  function Visit<Id>(w: Walk<Id>, frame: Frame<Id>): Walk<Id> {
    if !frame.notification then w
    else
      match frame.body
      case Started(item) => OnStarted(w, frame.step, item)
      case Completed(item) => OnCompleted(w, frame.step, item)
      case Delta(kind, itemId, delta) => OnDelta(w, frame.step, kind, itemId, delta)
      case Other => w
  }

  /** The walk over a whole transcript, from state `w`. */
  function WalkFrom<Id>(w: Walk<Id>, frames: seq<Frame<Id>>): Walk<Id> {
    if frames == [] then w else Visit(WalkFrom(w, frames[..|frames| - 1]), frames[|frames| - 1])
  }

  function Open<Id>(w: Walk<Id>): set<Id> {
    set id | id in w.items && !w.items[id].completed
  }

  lemma {:induction false} WalkAppend<Id>(w: Walk<Id>, a: seq<Frame<Id>>, b: seq<Frame<Id>>)
    ensures WalkFrom(w, a + b) == WalkFrom(WalkFrom(w, a), b)
  {
    if b == [] {
      assert a + b == a;
    } else {
      assert (a + b)[..|a + b| - 1] == a + b[..|b| - 1];
      WalkAppend(w, a, b[..|b| - 1]);
    }
  }

  // ----- The check ---------------------------------------------------------------------------------------

  function LeftOpen<Id>(w: Walk<Id>, id: Id): Finding<Id>
    requires id in w.items
  {
    Finding(w.items[id].step, id, NeverCompleted(w.items[id].kind))
  }

  /**
   * The whole check before its per-target relaxation filter: the findings of the walk, then one for every item
   * still open, in the hash map's order.
   */
  method Check<Id(==)>(frames: seq<Frame<Id>>) returns (findings: seq<Finding<Id>>)
    ensures var w := WalkFrom(Walk(map[], []), frames);
            && w.findings <= findings
            && |findings| == |w.findings| + |Open(w)|
            && (forall id | id in Open(w) :: LeftOpen(w, id) in findings[|w.findings|..])
  {
    var items: map<Id, Tracked> := map[];
    findings := [];
    for k := 0 to |frames|
      invariant Walk(items, findings) == WalkFrom(Walk(map[], []), frames[..k])
    {
      var frame := frames[k];
      assert frames[..k + 1][..k] == frames[..k];
      if frame.notification {
        match frame.body {
          case Started(item) =>
            if item.Some? && item.value.id.Some? && item.value.kind.Some? {
              items := items[item.value.id.value := Tracked(frame.step, item.value.kind.value, "", false)];
            }
          case Completed(item) =>
            if item.Some? && item.value.id.Some? {
              var id := item.value.id.value;
              if id in items {
                findings := findings + Report(frame.step, id, CompletionProblems(items[id], item.value));
                items := items[id := items[id].(completed := true)];
              } else if item.value.kind.Some? {
                findings := findings + [Finding(frame.step, id, OrphanCompletion)];
              }
            }
          case Delta(kind, itemId, delta) =>
            if itemId.Some? {
              var id := itemId.value;
              if id !in items {
                findings := findings + [Finding(frame.step, id, OrphanDelta)];
              } else if items[id].kind != kind {
                findings := findings + [Finding(frame.step, id, WrongKind(kind, items[id].kind))];
              } else {
                items := items[id := items[id].(text := items[id].text + Or(delta, ""))];
              }
            }
          case Other =>
        }
      }
    }
    assert frames[..|frames|] == frames;
    ghost var w := Walk(items, findings);
    var rest := set id | id in items && !items[id].completed;
    while rest != {}
      invariant rest <= Open(w)
      invariant w.findings <= findings && |findings| == |w.findings| + |Open(w)| - |rest|
      invariant forall id | id in Open(w) - rest :: LeftOpen(w, id) in findings[|w.findings|..]
      decreases rest
    {
      var id :| id in rest;
      ghost var before := findings[|w.findings|..];
      findings := findings + [Finding(items[id].step, id, NeverCompleted(items[id].kind))];
      assert findings[|w.findings|..] == before + [LeftOpen(w, id)];
      rest := rest - {id};
    }
  }

  /** The check has nothing to report. */
  ghost predicate Accepted<Id>(frames: seq<Frame<Id>>) {
    var w := WalkFrom(Walk(map[], []), frames);
    w.findings == [] && Open(w) == {}
  }

  // ----- What the check accepts, without the check -------------------------------------------------------

  ghost predicate Starts<Id>(frame: Frame<Id>, id: Id) {
    && frame.notification && frame.body.Started? && frame.body.item.Some?
    && frame.body.item.value.id == Some(id) && frame.body.item.value.kind.Some?
  }

  ghost function StartedKind<Id>(frame: Frame<Id>, id: Id): Kind
    requires Starts(frame, id)
  {
    frame.body.item.value.kind.value
  }

  ghost predicate Completes<Id>(frame: Frame<Id>, id: Id) {
    frame.notification && frame.body.Completed? && frame.body.item.Some? && frame.body.item.value.id == Some(id)
  }

  /** A delta of the item's own kind. */
  ghost predicate Streams<Id>(frame: Frame<Id>, id: Id, kind: Kind) {
    frame.notification && frame.body.Delta? && frame.body.itemId == Some(id) && frame.body.kind == kind
  }

  /** Frame `s` is the latest start of `id` before position `n`. */
  ghost predicate LatestStart<Id>(frames: seq<Frame<Id>>, id: Id, s: int, n: int) {
    0 <= s < n <= |frames| && Starts(frames[s], id) && forall k | s < k < n :: !Starts(frames[k], id)
  }

  /** The deltas of that kind for `id` in positions `first` to `last`, joined. */
  ghost function Streamed<Id>(frames: seq<Frame<Id>>, id: Id, kind: Kind, first: int, last: int): string
    requires 0 <= first <= last <= |frames|
    decreases last - first
  {
    if first == last then ""
    else
      Streamed(frames, id, kind, first, last - 1)
      + (if Streams(frames[last - 1], id, kind) then Or(frames[last - 1].body.delta, "") else "")
  }

  /** The completed payload repeats the joined deltas; an agent message also needs at least one. */
  ghost predicate FinalTextAgrees<Id>(kind: Kind, item: ItemView<Id>, joined: string) {
    match kind
    case AgentMessage => item.text.Some? ==> joined != "" && item.text.value == joined
    case Reasoning => item.content.Some? ==> joined == "" || Join(item.content.value) == joined
  }

  /** What frame `n` needs from the frames before it. */
  ghost predicate FrameInOrder<Id>(frames: seq<Frame<Id>>, n: int)
    requires 0 <= n < |frames|
  {
    frames[n].notification ==>
      match frames[n].body
      case Delta(kind, Some(id), _) => exists s :: LatestStart(frames, id, s, n) && StartedKind(frames[s], id) == kind
      case Completed(Some(ItemView(Some(id), kind, text, content))) =>
        && (kind.Some? ==> exists s :: LatestStart(frames, id, s, n))
        && (forall s | LatestStart(frames, id, s, n) ::
              FinalTextAgrees(StartedKind(frames[s], id), frames[n].body.item.value, Streamed(frames, id, StartedKind(frames[s], id), s, n)))
      case _ => true
  }

  /** The item started at `s`, if no later frame starts its id again, is completed after `s`. */
  ghost predicate ClosedLater<Id>(frames: seq<Frame<Id>>, s: int)
    requires 0 <= s < |frames|
  {
    frames[s].notification ==>
      match frames[s].body
      case Started(Some(ItemView(Some(id), Some(_), _, _))) =>
        LatestStart(frames, id, s, |frames|) ==> exists c :: s < c < |frames| && Completes(frames[c], id)
      case _ => true
  }

  ghost predicate WellBracketed<Id>(frames: seq<Frame<Id>>) {
    && (forall n | 0 <= n < |frames| :: FrameInOrder(frames, n))
    && (forall s | 0 <= s < |frames| :: ClosedLater(frames, s))
  }

  /** The walk's record of one id after `n` frames, in terms of the frames. */
  ghost predicate Recorded<Id>(frames: seq<Frame<Id>>, n: int, items: map<Id, Tracked>, id: Id)
    requires 0 <= n <= |frames|
  {
    && (id in items <==> exists s :: LatestStart(frames, id, s, n))
    && forall s | LatestStart(frames, id, s, n) ::
         && id in items && items[id].kind == StartedKind(frames[s], id)
         && items[id].text == Streamed(frames, id, StartedKind(frames[s], id), s, n)
         && (items[id].completed <==> exists c :: s < c < n && Completes(frames[c], id))
  }

  function WalkTo<Id>(frames: seq<Frame<Id>>, n: nat): Walk<Id>
    requires n <= |frames|
  {
    WalkFrom(Walk(map[], []), frames[..n])
  }

  lemma WalkStep<Id>(frames: seq<Frame<Id>>, n: nat)
    requires n < |frames|
    ensures WalkTo(frames, n + 1) == Visit(WalkTo(frames, n), frames[n])
    ensures WalkTo(frames, n).findings <= WalkTo(frames, n + 1).findings
  {
    assert frames[..n + 1][..n] == frames[..n];
  }

  lemma LatestStartUnique<Id>(frames: seq<Frame<Id>>, id: Id, s: int, t: int, n: int)
    requires LatestStart(frames, id, s, n) && LatestStart(frames, id, t, n)
    ensures s == t
  {
  }

  lemma LatestStartStep<Id>(frames: seq<Frame<Id>>, id: Id, s: int, n: int)
    requires 0 <= n < |frames|
    ensures LatestStart(frames, id, s, n + 1) <==> if Starts(frames[n], id) then s == n else LatestStart(frames, id, s, n)
  {
  }

  /** What one frame does to the record of one id. */
  lemma VisitRecord<Id>(w: Walk<Id>, frame: Frame<Id>, id: Id)
    ensures var after := Visit(w, frame).items;
            && (id in after <==> id in w.items || Starts(frame, id))
            && (Starts(frame, id) ==> after[id] == Tracked(frame.step, StartedKind(frame, id), "", false))
            && (id in w.items && !Starts(frame, id) ==>
                  var t := w.items[id];
                  after[id] == t.(text := t.text + (if Streams(frame, id, t.kind) then Or(frame.body.delta, "") else ""),
                                  completed := t.completed || Completes(frame, id)))
  {
    hide CompletionProblems, Report;
    if id in w.items {
      assert w.items[id].text + "" == w.items[id].text;
    }
  }

  lemma RecordContinues<Id>(frames: seq<Frame<Id>>, n: nat, id: Id, s: int)
    requires n < |frames| && Recorded(frames, n, WalkTo(frames, n).items, id)
    requires !Starts(frames[n], id) && LatestStart(frames, id, s, n)
    ensures Recorded(frames, n + 1, WalkTo(frames, n + 1).items, id)
  {
    hide WalkTo, Visit;
    WalkStep(frames, n);
    VisitRecord(WalkTo(frames, n), frames[n], id);
    LatestStartStep(frames, id, s, n);
    var next := n + 1;
    forall t | LatestStart(frames, id, t, next) ensures t == s {
      LatestStartUnique(frames, id, s, t, next);
    }
    if Completes(frames[n], id) {
      assert s < n < n + 1 && Completes(frames[n], id);
    }
  }

  /** The walk's record of every id is what the frames say, whatever was reported. */
  lemma {:induction false} WalkRecords<Id>(frames: seq<Frame<Id>>, n: nat, id: Id)
    requires n <= |frames|
    ensures Recorded(frames, n, WalkTo(frames, n).items, id)
  {
    hide Visit;
    if n == 0 {
      assert WalkTo(frames, n).items == map[];
    } else {
      var m := n - 1;
      WalkStep(frames, m);
      WalkRecords(frames, m, id);
      VisitRecord(WalkTo(frames, m), frames[m], id);
      hide WalkTo;
      if Starts(frames[m], id) {
        LatestStartStep(frames, id, m, m);
        assert Streamed(frames, id, StartedKind(frames[m], id), m, n) == "";
        forall t | LatestStart(frames, id, t, n) ensures t == m {
          LatestStartUnique(frames, id, m, t, n);
        }
      } else if s :| LatestStart(frames, id, s, m) {
        RecordContinues(frames, m, id, s);
      } else {
        forall s ensures !LatestStart(frames, id, s, n) {
          LatestStartStep(frames, id, s, m);
        }
      }
    }
  }

  /** Whatever was reported before, a frame is reported exactly when it is out of order. */
  lemma FrameReported<Id>(frames: seq<Frame<Id>>, n: nat)
    requires n < |frames|
    ensures WalkTo(frames, n).findings <= WalkTo(frames, n + 1).findings
    ensures WalkTo(frames, n + 1).findings == WalkTo(frames, n).findings <==> FrameInOrder(frames, n)
  {
    WalkStep(frames, n);
    match frames[n].body
    case Delta(kind, Some(id), _) => WalkRecords(frames, n, id);
    case Completed(Some(ItemView(Some(id), _, _, _))) =>
      WalkRecords(frames, n, id);
      var items := WalkTo(frames, n).items;
      if s :| LatestStart(frames, id, s, n) {
        forall t | LatestStart(frames, id, t, n) ensures t == s {
          LatestStartUnique(frames, id, s, t, n);
        }
        assert FinalTextAgrees(items[id].kind, frames[n].body.item.value, items[id].text)
          <==> CompletionProblems(items[id], frames[n].body.item.value) == [];
      }
    case _ =>
  }

  lemma {:induction false} NothingReported<Id>(frames: seq<Frame<Id>>, n: nat)
    requires n <= |frames|
    ensures WalkTo(frames, n).findings == [] <==> forall k | 0 <= k < n :: FrameInOrder(frames, k)
  {
    if n > 0 {
      NothingReported(frames, n - 1);
      WalkStep(frames, n - 1);
      if WalkTo(frames, n - 1).findings == [] {
        FrameReported(frames, n - 1);
      }
    }
  }

  lemma TrackedWasStarted<Id>(frames: seq<Frame<Id>>, id: Id)
    requires WalkTo(frames, |frames|).findings == [] && id in WalkTo(frames, |frames|).items
    ensures exists s :: LatestStart(frames, id, s, |frames|)
    ensures id in Open(WalkTo(frames, |frames|)) <==> exists s :: LatestStart(frames, id, s, |frames|) && !ClosedLater(frames, s)
  {
    WalkRecords(frames, |frames|, id);
    var s :| LatestStart(frames, id, s, |frames|);
    forall t | LatestStart(frames, id, t, |frames|) ensures t == s {
      LatestStartUnique(frames, id, s, t, |frames|);
    }
  }

  /**
   * The check accepts a transcript exactly when every delta follows the latest start of its id and has its kind,
   * every completion of a streamed item follows a start and repeats the deltas streamed since, and every started
   * item is completed.
   */
  lemma AcceptedMeansWellBracketed<Id>(frames: seq<Frame<Id>>)
    ensures Accepted(frames) <==> WellBracketed(frames)
  {
    var w := WalkTo(frames, |frames|);
    assert frames[..|frames|] == frames;
    NothingReported(frames, |frames|);
    if w.findings == [] {
      forall id | id in w.items
        ensures id in Open(w) <==> exists s :: LatestStart(frames, id, s, |frames|) && !ClosedLater(frames, s)
      {
        TrackedWasStarted(frames, id);
      }
      forall s | 0 <= s < |frames| && !ClosedLater(frames, s) ensures Open(w) != {} {
        var id := frames[s].body.item.value.id.value;
        WalkRecords(frames, |frames|, id);
        assert LatestStart(frames, id, s, |frames|);
        assert id in Open(w);
      }
      if Open(w) != {} {
        var id :| id in Open(w);
        assert exists s :: LatestStart(frames, id, s, |frames|) && !ClosedLater(frames, s);
      }
    }
  }
}
