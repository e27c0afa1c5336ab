/**
 * The lifecycle of one workspace tab (web/workspace-tabs.js): what notifications, status values and terminals do to the
 * turn, the unread counter and the error a tab shows. `viewed` is the host's answer to "is this tab on screen".
 */
module TabLifecycle {
  import opened Prelude

  /** A field that was never assigned is neither null nor an id. */
  datatype Field = Unassigned | Assigned(id: Option<string>)

  /** `revision` is `lifecycleRevision || 0`; falsy turn ids are `None`. */
  datatype Life = Life(
    lastTurnActive: bool, waitingForUser: bool, turnError: string, activeTurnId: Field,
    lastFinishedTurnId: Option<string>, terminalWithoutId: bool,
    unread: nat, unreadForTurn: bool, turnStartedAt: Option<int>, tail: string, revision: nat)

  const NEW_LIFE: Life := Life(false, false, "", Unassigned, None, false, 0, false, None, "", 0)

  /** The id of the turn under way, when there is one. */
  function ActiveId(field: Field): Option<string> {
    if field.Assigned? then field.id else None
  }

  /** A thread status: missing, a bare string, or an object with its flags and its error text. */
  datatype Value = NoStatus | Bare(kind: string) | Object(kind: string, approval: bool, input: bool, message: string)

  function KindOf(value: Value): string {
    if value.NoStatus? then "" else value.kind
  }

  predicate LiveKind(kind: string) {
    kind == "active" || kind == "busy" || kind == "working" || kind == "needs-you"
  }

  predicate Waiting(value: Value) {
    KindOf(value) == "needs-you" || (value.Object? && (value.approval || value.input))
  }

  function Bumped(unread: nat): nat {
    if unread + 1 < 99 then unread + 1 else 99
  }

  function FirstWords(a: string, b: string, default: string): string {
    if a != "" then a else if b != "" then b else default
  }

  // ----- Status values -------------------------------------------------------------------------------------

  function CountWaiting(t: Life, markUnread: bool, viewed: bool): Life {
    if markUnread && !t.waitingForUser && !t.unreadForTurn && !viewed
    then t.(unread := Bumped(t.unread), unreadForTurn := true) else t
  }

  function Resumed(t: Life, waiting: bool, now: int): Life {
    t.(waitingForUser := waiting, lastTurnActive := true, turnStartedAt := Some(Or(t.turnStartedAt, now)), turnError := "")
  }

  /** The tab after `applyStatus`, and what it returns. */
  function ApplyStatus(t: Life, value: Value, markUnread: bool, detail: string, viewed: bool, now: int): (Life, bool) {
    var kind := KindOf(value);
    if value.NoStatus? then (t, false)
    else if LiveKind(kind) then
      if Waiting(value) then
        var counted := Resumed(CountWaiting(t, markUnread, viewed), true, now);
        (if value.Object? && value.approval then counted.(tail := "Waiting for approval")
         else if !counted.unreadForTurn then counted.(tail := "Waiting for your reply")
         else counted, true)
      else (Resumed(t, false, now), true)
    else if kind == "idle" then (t.(waitingForUser := false, lastTurnActive := false, turnStartedAt := None), true)
    else if kind == "systemError" || kind == "error" then
      (t.(waitingForUser := false, lastTurnActive := false, turnStartedAt := None,
          turnError := FirstWords(detail, if value.Object? then value.message else "", "Thread error")), true)
    else (t, false)
  }

  // ----- Terminals -----------------------------------------------------------------------------------------

  predicate Duplicate(t: Life, effective: Option<string>) {
    t.terminalWithoutId || (effective.Some? && t.lastFinishedTurnId == effective)
  }

  predicate TerminalAccepted(t: Life, turnId: Option<string>) {
    && !(turnId.Some? && ActiveId(t.activeTurnId).Some? && turnId != ActiveId(t.activeTurnId))
    && !Duplicate(t, if turnId.Some? then turnId else ActiveId(t.activeTurnId))
  }

  function FinishTurn(t: Life, failed: bool, detail: string, turnId: Option<string>, viewed: bool): (Life, bool) {
    var active := ActiveId(t.activeTurnId);
    var effective := if turnId.Some? then turnId else active;
    if turnId.Some? && active.Some? && turnId != active then (t, false)
    else if Duplicate(t, effective) then
      var told := if failed && !t.lastTurnActive then t.(turnError := FirstWords(detail, "", "Turn failed")) else t;
      (if effective.Some? && t.terminalWithoutId then told.(lastFinishedTurnId := effective, terminalWithoutId := false) else told, false)
    else
      (t.(lastTurnActive := false, waitingForUser := false, turnStartedAt := None,
          turnError := if failed then FirstWords(detail, "", "Turn failed") else t.turnError,
          unread := if !viewed && !t.unreadForTurn then Bumped(t.unread) else t.unread,
          unreadForTurn := false,
          lastFinishedTurnId := if effective.Some? then effective else t.lastFinishedTurnId,
          terminalWithoutId := effective.None?, activeTurnId := Assigned(None)), true)
  }

  // ----- Notifications -------------------------------------------------------------------------------------

  datatype Message =
    | TurnStarted(turnId: Option<string>)
    | StatusChanged(status: Value, detail: string)
    | TurnCompleted(turnId: Option<string>, failed: bool, detail: string)
    | TurnFailed(turnId: Option<string>, detail: string)
    /** `text` is what the item shows of itself, empty if nothing. */
    | ItemStarted(text: string)
    | ItemCompleted(agentMessage: bool, text: string)
    /** A method ending in `/delta` or `TextDelta`; `shown` if it is one of the three that add to the tail. */
    | Delta(delta: string, shown: bool)
    | OtherMessage

  /** `tidy` collapses white space and keeps the last hundred characters. */
  function RecordActivity(t: Life, m: Message, tidy: string -> string): (Life, bool) {
    if t.waitingForUser && m.Delta? then (t, false)
    else
      var text := match m
        case Delta(delta, shown) => if shown then t.tail + delta else ""
        case ItemStarted(text) => text
        case ItemCompleted(_, text) => text
        case _ => "";
      if text == "" || tidy(text) == "" || tidy(text) == t.tail then (t, false) else (t.(tail := tidy(text)), true)
  }

  /** The ids are compared with `===`: a tab whose field was never assigned has no duplicate starts. */
  predicate StartAccepted(t: Life, turnId: Option<string>) {
    !(t.lastTurnActive && t.activeTurnId == Assigned(turnId) && !t.waitingForUser && t.turnError == "")
  }

  function StartTurn(t: Life, turnId: Option<string>, now: int): (Life, bool) {
    if !StartAccepted(t, turnId) then (t, false)
    else
      (t.(turnStartedAt := if t.lastTurnActive then t.turnStartedAt else Some(now), waitingForUser := false, lastTurnActive := true,
          turnError := "", unreadForTurn := false, activeTurnId := Assigned(turnId), terminalWithoutId := false), true)
  }

  /** What the message itself does, after the activity tail was recorded. */
  function Transition(t: Life, m: Message, viewed: bool, now: int): (Life, bool) {
    match m
    case TurnStarted(turnId) => StartTurn(t, turnId, now)
    case StatusChanged(status, detail) =>
      if status.Object? && status.kind == "idle" && t.lastTurnActive then FinishTurn(t, false, "", None, viewed)
      else ApplyStatus(t, status, true, detail, viewed, now)
    case ItemCompleted(agentMessage, _) =>
      if agentMessage && !viewed && !t.unreadForTurn then (t.(unread := Bumped(t.unread), unreadForTurn := true), true) else (t, false)
    case TurnCompleted(turnId, failed, detail) => FinishTurn(t, failed, if failed then detail else "", turnId, viewed)
    case TurnFailed(turnId, detail) => FinishTurn(t, true, detail, turnId, viewed)
    case _ => (t, false)
  }

  /** One notification for the tab; a change gives the tab the next revision. */
  function Notified(t: Life, m: Message, viewed: bool, now: int, tidy: string -> string, counter: nat): (Life, nat) {
    var (seen, activityChanged) := RecordActivity(t, m, tidy);
    var (next, lifecycleChanged) := Transition(seen, m, viewed, now);
    if lifecycleChanged || activityChanged then (next.(revision := counter + 1), counter + 1) else (next, counter)
  }

  // ----- The local turn ------------------------------------------------------------------------------------

  function BeginLocalTurn(t: Life, now: int, counter: nat): Life {
    t.(lastTurnActive := true, waitingForUser := false, turnStartedAt := Some(now), tail := "Starting turn…", turnError := "",
       unreadForTurn := false, activeTurnId := Assigned(None), terminalWithoutId := false, revision := counter + 1)
  }

  function Acknowledge(t: Life, turnId: Option<string>, counter: nat): (Life, nat) {
    if turnId.None? || !t.lastTurnActive || ActiveId(t.activeTurnId).Some? then (t, counter)
    else (t.(activeTurnId := Assigned(turnId), revision := counter + 1), counter + 1)
  }

  function FailLocalTurn(t: Life, error: string, counter: nat): Life {
    t.(lastTurnActive := false, turnStartedAt := None, turnError := error, revision := counter + 1)
  }

  // ----- Snapshots -----------------------------------------------------------------------------------------

  /** The part of `syncSnapshots` that concerns one tab whose thread is in the list. */
  function Snapshot(t: Life, value: Value, baseline: Option<nat>, viewed: bool, now: int, counter: nat): (Life, nat) {
    var staleIdle := value.Object? && value.kind == "idle" && t.lastTurnActive;
    if baseline != Some(t.revision) || staleIdle then (t, counter)
    else
      var (next, _) := ApplyStatus(t, value, false, "", viewed, now);
      if next.lastTurnActive && value.Object? && LiveKind(value.kind) then (next.(revision := counter + 1), counter + 1) else (next, counter)
  }

  function ReadStatus(t: Life, value: Value, baseline: nat, viewed: bool, now: int, counter: nat): (Life, nat) {
    if t.revision != baseline || (value.Object? && value.kind == "idle" && t.lastTurnActive) then (t, counter)
    else
      var (next, applied) := ApplyStatus(t, value, false, "", viewed, now);
      if applied then (next.(revision := counter + 1), counter + 1) else (next, counter)
  }

  function Viewed(t: Life): Life {
    t.(unread := 0, unreadForTurn := false)
  }

  // ----- The facts snapshots may not touch -------------------------------------------------------------------

  predicate SameFacts(a: Life, b: Life) {
    a.lastTurnActive == b.lastTurnActive && a.waitingForUser == b.waitingForUser && a.turnError == b.turnError && a.activeTurnId == b.activeTurnId
  }

  /** A snapshot whose baseline is not the tab's revision changes nothing at all. */
  lemma StaleSnapshotChangesNothing(t: Life, value: Value, baseline: Option<nat>, viewed: bool, now: int, counter: nat)
    requires baseline != Some(t.revision)
    ensures Snapshot(t, value, baseline, viewed, now, counter) == (t, counter)
    ensures baseline.Some? ==> ReadStatus(t, value, baseline.value, viewed, now, counter) == (t, counter)
  {
  }

  /**
   * An idle snapshot ends a live turn exactly when its status is the bare string: the guard looks for a `type`
   * member, which a string does not have.
   */
  lemma IdleSnapshotEndsATurn(t: Life, value: Value, viewed: bool, now: int, counter: nat)
    requires t.lastTurnActive && KindOf(value) == "idle"
    ensures Snapshot(t, value, Some(t.revision), viewed, now, counter).0.lastTurnActive <==> value.Object?
    ensures ReadStatus(t, value, t.revision, viewed, now, counter).0.lastTurnActive <==> value.Object?
  {
  }

  /** A failed terminal that repeats one already counted. */
  predicate RepeatedFailure(t: Life, m: Message) {
    && !t.lastTurnActive
    && match m
       case TurnCompleted(turnId, failed, _) => failed && !TerminalAccepted(t, turnId)
       case TurnFailed(turnId, _) => !TerminalAccepted(t, turnId)
       case _ => false
  }

  /** A notification that changes one of the four facts gives the tab a new revision, a repeated failure excepted. */
  lemma ChangedFactsAreTouched(t: Life, m: Message, viewed: bool, now: int, tidy: string -> string, counter: nat)
    requires t.revision <= counter
    ensures var (next, after) := Notified(t, m, viewed, now, tidy, counter);
            && (next.revision == after == counter + 1 || (next.revision == t.revision && after == counter))
            && (next.revision == t.revision ==> SameFacts(t, next) || RepeatedFailure(t, m))
            && (RepeatedFailure(t, m) ==> next.revision == t.revision)
  {
    hide RecordActivity, Transition;
    ActivityTouchesTailOnly(t, m, tidy);
    if m.TurnCompleted? || m.TurnFailed? {
      FailureSaysNothing(t, m, tidy);
    }
    TransitionReports(RecordActivity(t, m, tidy).0, m, viewed, now);
  }

  lemma FailureSaysNothing(t: Life, m: Message, tidy: string -> string)
    requires m.TurnCompleted? || m.TurnFailed?
    ensures RecordActivity(t, m, tidy) == (t, false)
  {
  }

  /** A transition that reports no change changes none of the facts, a repeated failure excepted. */
  lemma FinishReports(t: Life, failed: bool, detail: string, turnId: Option<string>, viewed: bool)
    ensures var (next, changed) := FinishTurn(t, failed, detail, turnId, viewed);
            && next.revision == t.revision && changed == TerminalAccepted(t, turnId)
            && (!changed ==> SameFacts(t, next) || (failed && !t.lastTurnActive))
  {
    hide FirstWords;
  }

  lemma StatusReports(t: Life, value: Value, detail: string, viewed: bool, now: int)
    ensures var (next, changed) := ApplyStatus(t, value, true, detail, viewed, now);
            next.revision == t.revision && (!changed ==> next == t)
  {
    hide FirstWords;
  }

  lemma TransitionReports(t: Life, m: Message, viewed: bool, now: int)
    ensures var (next, changed) := Transition(t, m, viewed, now);
            && next.revision == t.revision
            && (!changed ==> SameFacts(t, next) || RepeatedFailure(t, m))
            && (RepeatedFailure(t, m) ==> !changed)
  {
    hide FinishTurn, ApplyStatus;
    match m
    case StatusChanged(status, detail) =>
      FinishReports(t, false, "", None, viewed);
      StatusReports(t, status, detail, viewed, now);
    case TurnCompleted(turnId, failed, detail) => FinishReports(t, failed, if failed then detail else "", turnId, viewed);
    case TurnFailed(turnId, detail) => FinishReports(t, true, detail, turnId, viewed);
    case _ =>
  }

  // ----- Terminals count once --------------------------------------------------------------------------------

  /** How a turn comes to be the newest one: by the server's word, or from here, named once the reply came. */
  datatype Start = Announced(turnId: Option<string>) | Local | LocalNamed(name: string)

  function NameOf(start: Start): Option<string> {
    match start
    case Announced(turnId) => turnId
    case Local => None
    case LocalNamed(name) => Some(name)
  }

  predicate Possible(t: Life, start: Start) {
    start.Announced? ==> StartAccepted(t, start.turnId)
  }

  function Started(t: Life, start: Start, now: int, counter: nat): (Life, nat) {
    match start
    case Announced(turnId) => (StartTurn(t, turnId, now).0.(revision := counter + 1), counter + 1)
    case Local => (BeginLocalTurn(t, now, counter), counter + 1)
    case LocalNamed(name) => Acknowledge(BeginLocalTurn(t, now, counter), Some(name), counter + 1)
  }

  datatype Arrival = Arrival(m: Message, viewed: bool, now: int)

  function Arrived(t: Life, arrivals: seq<Arrival>, tidy: string -> string, counter: nat): (Life, nat) {
    if arrivals == [] then (t, counter)
    else
      var (before, n) := Arrived(t, arrivals[..|arrivals| - 1], tidy, counter);
      var last := arrivals[|arrivals| - 1];
      Notified(before, last.m, last.viewed, last.now, tidy, n)
  }

  /** None of the messages is taken as a start or as a terminal when it comes. */
  predicate NoEdge(t: Life, arrivals: seq<Arrival>, tidy: string -> string, counter: nat) {
    if arrivals == [] then true
    else
      var before, last := Arrived(t, arrivals[..|arrivals| - 1], tidy, counter).0, arrivals[|arrivals| - 1];
      NoEdge(t, arrivals[..|arrivals| - 1], tidy, counter) && !StartsTurn(before, last.m) && !EndsTurn(before, last.m)
  }

  /** The three fields that decide which terminals are taken. */
  predicate SameNames(a: Life, b: Life) {
    a.activeTurnId == b.activeTurnId && a.lastFinishedTurnId == b.lastFinishedTurnId && a.terminalWithoutId == b.terminalWithoutId
  }

  lemma StatusKeepsNames(t: Life, value: Value, detail: string, viewed: bool, now: int)
    ensures SameNames(t, ApplyStatus(t, value, true, detail, viewed, now).0)
  {
  }

  lemma NoEdgeKeepsNames(t: Life, m: Message, viewed: bool, now: int, tidy: string -> string, counter: nat)
    requires !t.terminalWithoutId && !StartsTurn(t, m) && !EndsTurn(t, m)
    ensures SameNames(t, Notified(t, m, viewed, now, tidy, counter).0)
  {
    hide RecordActivity, ApplyStatus, FirstWords;
    var seen := RecordActivity(t, m, tidy).0;
    ActivityTouchesTailOnly(t, m, tidy);
    if m.StatusChanged? {
      StatusKeepsNames(seen, m.status, m.detail, viewed, now);
    }
  }

  lemma {:induction false} ArrivalsKeepNames(t: Life, arrivals: seq<Arrival>, tidy: string -> string, counter: nat)
    requires !t.terminalWithoutId && NoEdge(t, arrivals, tidy, counter)
    ensures SameNames(t, Arrived(t, arrivals, tidy, counter).0)
  {
    hide Notified, StartsTurn, EndsTurn;
    if arrivals != [] {
      var (before, n) := Arrived(t, arrivals[..|arrivals| - 1], tidy, counter);
      var last := arrivals[|arrivals| - 1];
      ArrivalsKeepNames(t, arrivals[..|arrivals| - 1], tidy, counter);
      NoEdgeKeepsNames(before, last.m, last.viewed, last.now, tidy, n);
    }
  }

  /** The terminal ends a turn called `named` that began when `finished` was the last turn known to have ended. */
  predicate Reaches(terminal: Option<string>, named: Option<string>, finished: Option<string>) {
    && (terminal.Some? && named.Some? ==> terminal == named)
    && (terminal.Some? || named.Some? ==> finished != if terminal.Some? then terminal else named)
  }

  /**
   * Whatever was before, and whatever items, statuses and refused terminals come between: a terminal ends the newest
   * turn exactly when no known id says that it is another's and the id that counts is not the one recorded as the
   * last to have ended before this turn began.
   */
  lemma {:induction false} TerminalEndsTheNewestTurn(t: Life, start: Start, arrivals: seq<Arrival>, tidy: string -> string, now: int, counter: nat,
                                                     failed: bool, detail: string, terminal: Option<string>, viewed: bool)
    requires Possible(t, start)
    requires var (begun, n) := Started(t, start, now, counter); NoEdge(begun, arrivals, tidy, n)
    ensures var (begun, n) := Started(t, start, now, counter);
            var (next, accepted) := FinishTurn(Arrived(begun, arrivals, tidy, n).0, failed, detail, terminal, viewed);
            && (accepted <==> Reaches(terminal, NameOf(start), t.lastFinishedTurnId))
            && (accepted ==> !next.lastTurnActive && next.activeTurnId == Assigned(None))
            && (!accepted ==> SameNames(next, begun))
  {
    hide FirstWords, NoEdge, Arrived;
    var (begun, n) := Started(t, start, now, counter);
    ArrivalsKeepNames(begun, arrivals, tidy, n);
  }

  /**
   * So a late terminal of an older turn spares the newest one exactly when that one has its id by then, or the
   * older turn's end was the last one recorded.
   */
  lemma {:induction false} LateTerminalIsIgnored(t: Life, start: Start, arrivals: seq<Arrival>, tidy: string -> string, now: int, counter: nat,
                                                 failed: bool, detail: string, older: string, viewed: bool)
    requires Possible(t, start) && NameOf(start) != Some(older)
    requires var (begun, n) := Started(t, start, now, counter); NoEdge(begun, arrivals, tidy, n)
    ensures var (begun, n) := Started(t, start, now, counter);
            !FinishTurn(Arrived(begun, arrivals, tidy, n).0, failed, detail, Some(older), viewed).1
            <==> NameOf(start).Some? || t.lastFinishedTurnId == Some(older)
  {
    TerminalEndsTheNewestTurn(t, start, arrivals, tidy, now, counter, failed, detail, Some(older), viewed);
  }

  function Broken(): string {
    "systemError"
  }

  /** An older turn broke off without a terminal; its late one ends the turn begun since, and counts it as unread. */
  lemma LateTerminalEndsNewerTurn(older: string, words: string, tidy: string -> string)
    ensures var t1 := Notified(NEW_LIFE, TurnStarted(Some(older)), false, 0, tidy, 0).0;
            var t2 := Notified(t1, StatusChanged(Object(Broken(), false, false, words), ""), false, 1, tidy, 1).0;
            var t3 := BeginLocalTurn(t2, 2, 2);
            var t4 := Notified(t3, TurnCompleted(Some(older), false, ""), false, 3, tidy, 3).0;
            && !t2.lastTurnActive && t2.lastFinishedTurnId == None
            && t3.lastTurnActive && t3.unread == 0
            && !t4.lastTurnActive && t4.unread == 1 && t4.lastFinishedTurnId == Some(older)
  {
  }

  /** A terminal without an id ends the newest turn even when that one has its id. */
  lemma NamelessTerminalEndsNamedTurn(newer: string, tidy: string -> string)
    ensures var t1 := BeginLocalTurn(NEW_LIFE, 0, 0);
            var t2 := Acknowledge(t1, Some(newer), 1).0;
            var t3 := Notified(t2, TurnCompleted(None, false, ""), false, 1, tidy, 2).0;
            && t2.lastTurnActive && ActiveId(t2.activeTurnId) == Some(newer)
            && !t3.lastTurnActive && t3.unread == 1
  {
  }

  /** A live tab whose turn id was never assigned takes a start without an id; one whose id is null does not. */
  lemma NamelessStart(t: Life)
    requires t.lastTurnActive && !t.waitingForUser && t.turnError == "" && ActiveId(t.activeTurnId) == None
    ensures StartAccepted(t, None) <==> t.activeTurnId == Unassigned
  {
  }

  /**
   * Two terminals in a row: the second is counted again exactly when the first ended a turn with an id and the
   * second does not name that id. So a repeat with the same id, or any repeat after a terminal without id, is not.
   */
  lemma SecondTerminal(t: Life, failed: bool, detail: string, first: Option<string>, viewed: bool,
                       again: bool, words: string, second: Option<string>, stillViewed: bool)
    requires TerminalAccepted(t, first)
    ensures var t1 := FinishTurn(t, failed, detail, first, viewed).0;
            var ended := if first.Some? then first else ActiveId(t.activeTurnId);
            var (t2, accepted) := FinishTurn(t1, again, words, second, stillViewed);
            && (accepted <==> ended.Some? && second != ended)
            && (!accepted ==> t2.unread == t1.unread && !t2.lastTurnActive)
            && (accepted && !stillViewed ==> t2.unread == Bumped(t1.unread))
  {
  }

  // ----- Unread ----------------------------------------------------------------------------------------------

  /** No view, no accepted start and no accepted terminal: the count rises with the flag or not at all. */
  predicate Spends(before: Life, after: Life) {
    && after.unread <= 99 && (before.unreadForTurn ==> after.unreadForTurn)
    && after.unread == if after.unreadForTurn && !before.unreadForTurn then Bumped(before.unread) else before.unread
  }

  /** An accepted terminal counts a turn nobody looked at, unless it was counted before, and clears the flag. */
  predicate Settles(before: Life, after: Life, viewed: bool) {
    && !after.unreadForTurn
    && after.unread == if !viewed && !before.unreadForTurn then Bumped(before.unread) else before.unread
  }

  predicate EndsTurn(t: Life, m: Message) {
    match m
    case StatusChanged(status, _) => status.Object? && status.kind == "idle" && t.lastTurnActive && TerminalAccepted(t, None)
    case TurnCompleted(turnId, _, _) => TerminalAccepted(t, turnId)
    case TurnFailed(turnId, _) => TerminalAccepted(t, turnId)
    case _ => false
  }

  predicate StartsTurn(t: Life, m: Message) {
    m.TurnStarted? && StartAccepted(t, m.turnId)
  }

  lemma ActivityTouchesTailOnly(t: Life, m: Message, tidy: string -> string)
    ensures var seen := RecordActivity(t, m, tidy).0; seen == t.(tail := seen.tail)
  {
  }

  lemma StatusSpends(t: Life, value: Value, markUnread: bool, detail: string, viewed: bool, now: int)
    requires t.unread <= 99
    ensures Spends(t, ApplyStatus(t, value, markUnread, detail, viewed, now).0)
  {
  }

  lemma TransitionSpends(t: Life, m: Message, viewed: bool, now: int)
    requires t.unread <= 99
    ensures var next := Transition(t, m, viewed, now).0;
            && next.unread <= 99
            && (EndsTurn(t, m) ==> Settles(t, next, viewed))
            && (!StartsTurn(t, m) && !EndsTurn(t, m) ==> Spends(t, next))
  {
    hide ApplyStatus, FirstWords;
    if m.StatusChanged? {
      StatusSpends(t, m.status, true, m.detail, viewed, now);
    }
  }

  lemma NotificationSpends(t: Life, m: Message, viewed: bool, now: int, tidy: string -> string, counter: nat)
    requires t.unread <= 99
    ensures var next := Notified(t, m, viewed, now, tidy, counter).0;
            && next.unread <= 99
            && (EndsTurn(t, m) ==> Settles(t, next, viewed))
            && (!StartsTurn(t, m) && !EndsTurn(t, m) ==> Spends(t, next))
  {
    hide RecordActivity, Transition;
    var seen := RecordActivity(t, m, tidy).0;
    ActivityTouchesTailOnly(t, m, tidy);
    TransitionSpends(seen, m, viewed, now);
  }

  lemma SnapshotSpends(t: Life, value: Value, baseline: Option<nat>, viewed: bool, now: int, counter: nat)
    requires t.unread <= 99
    ensures Spends(t, Snapshot(t, value, baseline, viewed, now, counter).0)
    ensures baseline.Some? ==> Spends(t, ReadStatus(t, value, baseline.value, viewed, now, counter).0)
  {
  }

  /** An accepted start, from the server or from here, keeps the count and lets the turn be counted. */
  lemma StartOpensCount(t: Life, m: Message, viewed: bool, now: int, tidy: string -> string, counter: nat)
    requires StartsTurn(t, m)
    ensures var next := Notified(t, m, viewed, now, tidy, counter).0;
            next.lastTurnActive && next.unread == t.unread && !next.unreadForTurn
    ensures var next := BeginLocalTurn(t, now, counter);
            next.lastTurnActive && next.unread == t.unread && !next.unreadForTurn
  {
  }
}
