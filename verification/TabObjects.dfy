/**
 * The tab object of web/workspace-tabs.js, whose lifecycle fields `applyStatus`, `finishTurn` and `notify` assign one by
 * one; each method is proved to compute the value of its namesake in TabLifecycle, and `notify` to keep what the
 * snapshots and the unread counter rely on.
 */
module TabObjects {
  import opened Prelude
  import opened L = TabLifecycle

  class TabObject {
    var lastTurnActive: bool
    var waitingForUser: bool
    var turnError: string
    var activeTurnId: Field
    var lastFinishedTurnId: Option<string>
    var terminalWithoutId: bool
    var unread: nat
    var unreadForTurn: bool
    var turnStartedAt: Option<int>
    var tail: string
    var revision: nat

    ghost function Model(): Life
      reads this
    {
      Life(lastTurnActive, waitingForUser, turnError, activeTurnId, lastFinishedTurnId, terminalWithoutId,
           unread, unreadForTurn, turnStartedAt, tail, revision)
    }

    constructor ()
      ensures Model() == NEW_LIFE
    {
      lastTurnActive, waitingForUser, turnError, activeTurnId := false, false, "", Unassigned;
      lastFinishedTurnId, terminalWithoutId, unread, unreadForTurn := None, false, 0, false;
      turnStartedAt, tail, revision := None, "", 0;
    }

    method ApplyStatus(value: Value, markUnread: bool, detail: string, viewed: bool, now: int) returns (applied: bool)
      modifies this
      ensures (Model(), applied) == L.ApplyStatus(old(Model()), value, markUnread, detail, viewed, now)
    {
      hide FirstWords, L.CountWaiting, Waiting;
      if value.NoStatus? { return false; }
      var kind := value.kind;
      if LiveKind(kind) {
        if Waiting(value) {
          CountWaiting(markUnread, viewed);
          waitingForUser := true;
          MarkLive(now);
          if value.Object? && value.approval {
            tail := "Waiting for approval";
          } else if !unreadForTurn {
            tail := "Waiting for your reply";
          }
        } else {
          waitingForUser := false;
          MarkLive(now);
        }
        return true;
      }
      if kind == "idle" {
        MarkStopped();
        return true;
      }
      if kind == "systemError" || kind == "error" {
        MarkStopped();
        turnError := FirstWords(detail, if value.Object? then value.message else "", "Thread error");
        return true;
      }
      return false;
    }

    /** The first waiting status of a turn nobody looks at counts as one unread. */
    method CountWaiting(markUnread: bool, viewed: bool)
      modifies `unread, `unreadForTurn
      ensures Model() == L.CountWaiting(old(Model()), markUnread, viewed)
    {
      if markUnread && !waitingForUser && !unreadForTurn && !viewed {
        unread := Bumped(unread);
        unreadForTurn := true;
      }
    }

    method MarkLive(now: int)
      modifies `lastTurnActive, `turnStartedAt, `turnError
      ensures lastTurnActive && turnStartedAt == Some(Or(old(turnStartedAt), now)) && turnError == ""
    {
      lastTurnActive := true;
      if turnStartedAt.None? {
        turnStartedAt := Some(now);
      }
      turnError := "";
    }

    method MarkStopped()
      modifies `waitingForUser, `lastTurnActive, `turnStartedAt
      ensures !waitingForUser && !lastTurnActive && turnStartedAt == None
    {
      waitingForUser := false;
      lastTurnActive := false;
      turnStartedAt := None;
    }

    method FinishTurn(failed: bool, detail: string, turnId: Option<string>, viewed: bool) returns (accepted: bool)
      modifies this
      ensures (Model(), accepted) == L.FinishTurn(old(Model()), failed, detail, turnId, viewed)
    {
      hide FirstWords;
      var active := ActiveId(activeTurnId);
      var effective := if turnId.Some? then turnId else active;
      if turnId.Some? && active.Some? && turnId != active { return false; }
      var duplicate := if effective.Some? then lastFinishedTurnId == effective || terminalWithoutId else terminalWithoutId;
      if duplicate {
        if failed && !lastTurnActive {
          turnError := FirstWords(detail, "", "Turn failed");
        }
        if effective.Some? && terminalWithoutId {
          lastFinishedTurnId := effective;
          terminalWithoutId := false;
        }
        return false;
      }
      MarkStopped();
      if failed {
        turnError := FirstWords(detail, "", "Turn failed");
      }
      if !viewed && !unreadForTurn {
        unread := Bumped(unread);
      }
      unreadForTurn := false;
      if effective.Some? {
        lastFinishedTurnId := effective;
      }
      terminalWithoutId := effective.None?;
      activeTurnId := Assigned(None);
      accepted := true;
    }

    method StartTurn(turnId: Option<string>, now: int) returns (accepted: bool)
      modifies this
      ensures (Model(), accepted) == L.StartTurn(old(Model()), turnId, now)
    {
      var duplicate := lastTurnActive && activeTurnId == Assigned(turnId) && !waitingForUser && turnError == "";
      if duplicate { return false; }
      if !lastTurnActive {
        turnStartedAt := Some(now);
      }
      waitingForUser := false;
      lastTurnActive := true;
      turnError := "";
      unreadForTurn := false;
      activeTurnId := Assigned(turnId);
      terminalWithoutId := false;
      accepted := true;
    }

    method Transit(m: Message, viewed: bool, now: int) returns (changed: bool)
      modifies this
      ensures (Model(), changed) == L.Transition(old(Model()), m, viewed, now)
    {
      hide L.FinishTurn, L.ApplyStatus, L.StartTurn;
      changed := false;
      match m {
        case TurnStarted(turnId) => changed := StartTurn(turnId, now);
        case StatusChanged(status, detail) =>
          if status.Object? && status.kind == "idle" && lastTurnActive {
            changed := FinishTurn(false, "", None, viewed);
          } else {
            changed := ApplyStatus(status, true, detail, viewed, now);
          }
        case ItemCompleted(agentMessage, _) =>
          if agentMessage && !viewed && !unreadForTurn {
            unread := Bumped(unread);
            unreadForTurn := true;
            changed := true;
          }
        case TurnCompleted(turnId, failed, detail) => changed := FinishTurn(failed, if failed then detail else "", turnId, viewed);
        case TurnFailed(turnId, detail) => changed := FinishTurn(true, detail, turnId, viewed);
        case _ =>
      }
    }

    /** `notify` for the tab it found; `counter` is the module's revision counter before and after. */
    method Notify(m: Message, viewed: bool, now: int, tidy: string -> string, counter: nat) returns (later: nat)
      modifies this
      ensures (Model(), later) == Notified(old(Model()), m, viewed, now, tidy, counter)
      ensures old(revision) <= counter && revision == old(revision) ==>
                SameFacts(old(Model()), Model()) || RepeatedFailure(old(Model()), m)
      ensures old(unread) <= 99 ==>
                && unread <= 99
                && (EndsTurn(old(Model()), m) ==> Settles(old(Model()), Model(), viewed))
                && (!StartsTurn(old(Model()), m) && !EndsTurn(old(Model()), m) ==> Spends(old(Model()), Model()))
    {
      hide L.Transition, L.RecordActivity, Notified, RepeatedFailure, Settles, Spends, EndsTurn, StartsTurn;
      ghost var before := Model();
      var activityChanged := RecordActivity(m, tidy);
      ghost var seen := Model();
      var lifecycleChanged := Transit(m, viewed, now);
      ghost var next := Model();
      later := counter;
      if lifecycleChanged || activityChanged {
        later := counter + 1;
        revision := later;
      }
      NotifiedInParts(before, seen, activityChanged, next, lifecycleChanged, m, viewed, now, tidy, counter);
      if before.revision <= counter {
        ChangedFactsAreTouched(before, m, viewed, now, tidy, counter);
      }
      if before.unread <= 99 {
        NotificationSpends(before, m, viewed, now, tidy, counter);
      }
    }

    method RecordActivity(m: Message, tidy: string -> string) returns (changed: bool)
      modifies `tail
      ensures (Model(), changed) == L.RecordActivity(old(Model()), m, tidy)
    {
      if waitingForUser && m.Delta? { return false; }
      var text := "";
      match m {
        case Delta(delta, shown) =>
          if shown { text := tail + delta; }
        case ItemStarted(words) => text := words;
        case ItemCompleted(_, words) => text := words;
        case _ =>
      }
      if text == "" { return false; }
      var next := tidy(text);
      if next == "" || next == tail { return false; }
      tail := next;
      changed := true;
    }
  }

  lemma NotifiedInParts(before: Life, seen: Life, activityChanged: bool, next: Life, lifecycleChanged: bool,
                        m: Message, viewed: bool, now: int, tidy: string -> string, counter: nat)
    requires L.RecordActivity(before, m, tidy) == (seen, activityChanged)
    requires L.Transition(seen, m, viewed, now) == (next, lifecycleChanged)
    ensures Notified(before, m, viewed, now, tidy, counter)
         == if lifecycleChanged || activityChanged then (next.(revision := counter + 1), counter + 1) else (next, counter)
  {
    hide L.Transition, L.RecordActivity;
  }
}
