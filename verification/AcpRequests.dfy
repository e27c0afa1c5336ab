/**
 * Requests to an ACP agent (daemon/crates/acp-bridge/src/acp_client.rs): any number of callers share one pipe and one
 * reader. Each lock acquisition, pipe write and wake-up is one atomic step of a caller or of the reader, and every
 * interleaving is a run. Notifications carry no request id, so who receives them depends on the order alone.
 */
module AcpRequests {
  import opened Prelude

  // ----- The state shared with the reader ------------------------------------------------------------------

  /** A JSON-RPC id is the decimal text of a process-wide counter; a caller is known by its number. */
  class Inner {
    var pending: map<nat, nat>
    var notificationTx: Option<nat>
    var pendingNotifications: seq<string>

    constructor ()
      ensures pending == map[] && notificationTx == None && pendingNotifications == []
    {
      pending, notificationTx, pendingNotifications := map[], None, [];
    }

    /** The object holds what the callers and the reader of `s` share. */
    ghost predicate Holds(s: State)
      reads this
    {
      s.pending == pending && s.subscriber == notificationTx && s.buffer == pendingNotifications
    }

    /** A frame with an id: the caller whose waiter it wakes. */
    method DispatchResponse(id: nat) returns (woken: Option<nat>)
      modifies this`pending
      ensures woken == Waiter(old(pending), id) && pending == old(pending) - {id}
      ensures forall s: State, body | old(Holds(s)) && AllPlaced(s) && s.reader.Idle? :: Holds(Next(s, Respond(id, body)))
    {
      woken := if id in pending then Some(pending[id]) else None;
      pending := pending - {id};
    }

    /** The first half of routing a notification: the live subscriber. */
    method ForwardNotification() returns (subscriber: Option<nat>)
      ensures subscriber == notificationTx
      ensures forall s: State, note | Holds(s) && s.reader.Idle? :: Holds(Next(s, Notify(note)))
    {
      subscriber := notificationTx;
    }

    method BufferNotification(note: string)
      modifies this`pendingNotifications
      ensures pendingNotifications == old(pendingNotifications) + [note]
      ensures forall s: State | old(Holds(s)) && s.reader == Buffering(note) :: Holds(Next(s, Buffer))
    {
      pendingNotifications := pendingNotifications + [note];
    }

    method TakePendingNotifications() returns (taken: seq<string>)
      modifies this`pendingNotifications
      ensures taken == old(pendingNotifications) && pendingNotifications == []
      ensures forall s: State | old(Holds(s)) :: Holds(Next(s, Take))
    {
      taken := pendingNotifications;
      pendingNotifications := [];
    }

    /** The reader's last act: wakes every waiter, in the hash map's order. */
    method Drain(order: seq<nat>) returns (woken: seq<nat>)
      requires Enumerates(order, pending.Keys)
      modifies this`pending
      ensures pending == map[] && |woken| == |order|
      ensures forall k | 0 <= k < |order| :: order[k] in old(pending) && woken[k] == old(pending)[order[k]]
      ensures forall id | id in old(pending) :: old(pending)[id] in woken
      ensures forall s: State | old(Holds(s)) && s.reader.Idle? :: Holds(Next(s, Stop))
    {
      woken := [];
      for k := 0 to |order|
        invariant pending == old(pending) && |woken| == k
        invariant forall j | 0 <= j < k :: woken[j] == pending[order[j]]
      {
        woken := woken + [pending[order[k]]];
      }
      forall id | id in pending ensures pending[id] in woken {
        var k :| 0 <= k < |order| && order[k] == id;
        assert woken[k] == pending[id];
      }
      pending := map[];
    }
  }

  function Waiter(pending: map<nat, nat>, id: nat): Option<nat> {
    if id in pending then Some(pending[id]) else None
  }

  // ----- Callers, reader and history -----------------------------------------------------------------------

  datatype Reply = Response(id: nat, body: string) | ConnectionClosed

  /** The step of `send_request_inner` the caller finished last. */
  datatype Phase =
    | Queued | Locked | Numbered | Registered | Subscribed | Emptied | Waiting
    | WriteFailed | Deregistered | Replied
    | Unsubscribed | Done

  /** `id` means something from `Numbered` on; `slot` is the oneshot; `received` is what the subscriber was sent. */
  datatype Call = Call(streaming: bool, phase: Phase, id: nat, slot: Option<Reply>, received: seq<string>)

  datatype Reader = Idle | Buffering(note: string) | Stopped

  datatype Event =
    | Installed(c: nat)
    | Forwarded(note: string)
    | Answered(c: nat)
    | Removed(c: nat)
    /** The buffer was emptied, by a new request or by `take_pending_notifications`. */
    | Reset

  datatype State = State(
    calls: seq<Call>, lock: Option<nat>, counter: nat,
    pending: map<nat, nat>, subscriber: Option<nat>, buffer: seq<string>,
    reader: Reader, log: seq<Event>)

  const INITIAL: State := State([], None, 0, map[], None, [], Idle, [])

  datatype Step =
    | Begin(streaming: bool)
    /** Caller `c` does its next step; `ok` is how the write went. */
    | Go(c: nat, ok: bool)
    | Respond(id: nat, body: string)
    | Notify(note: string)
    | Buffer
    | Take
    | Stop
    /** Another client draws a number. */
    | OtherClient

  function SetCall(s: State, c: nat, call: Call): State
    requires c < |s.calls|
  {
    s.(calls := s.calls[c := call])
  }

  function Went(s: State, c: nat, ok: bool): State
    requires c < |s.calls|
  {
    var call := s.calls[c];
    match call.phase
    case Queued => if s.lock.Some? then s else SetCall(s, c, call.(phase := Locked)).(lock := Some(c))
    case Locked => SetCall(s, c, call.(phase := Numbered, id := s.counter)).(counter := s.counter + 1)
    case Numbered => SetCall(s, c, call.(phase := Registered)).(pending := s.pending[call.id := c])
    case Registered =>
      var next := SetCall(s, c, call.(phase := Subscribed));
      if call.streaming then next.(subscriber := Some(c), log := s.log + [Installed(c)]) else next
    case Subscribed => SetCall(s, c, call.(phase := Emptied)).(buffer := [], log := s.log + [Reset])
    case Emptied => SetCall(s, c, call.(phase := if ok then Waiting else WriteFailed))
    case WriteFailed => SetCall(s, c, call.(phase := Deregistered)).(pending := s.pending - {call.id})
    case Waiting => if call.slot.Some? then SetCall(s, c, call.(phase := Replied)) else s
    case Deregistered => SetCall(s, c, call.(phase := Unsubscribed)).(subscriber := None, log := s.log + [Removed(c)])
    case Replied => SetCall(s, c, call.(phase := Unsubscribed)).(subscriber := None, log := s.log + [Removed(c)])
    case Unsubscribed => SetCall(s, c, call.(phase := Done)).(lock := None)
    case Done => s
  }

  /** The waiter of `id`, if there is one, gets the reply. */
  function Woken(calls: seq<Call>, pending: map<nat, nat>): seq<Call> {
    seq(|calls|, c requires 0 <= c < |calls| =>
      if calls[c].id in pending && pending[calls[c].id] == c then calls[c].(slot := Some(ConnectionClosed)) else calls[c])
  }

  function Responded(s: State, id: nat, body: string): State {
    var woken := Waiter(s.pending, id);
    if woken.Some? && woken.value < |s.calls| then
      var c := woken.value;
      SetCall(s, c, s.calls[c].(slot := Some(Response(id, body)))).(pending := s.pending - {id}, log := s.log + [Answered(c)])
    else s
  }

  function Notified(s: State, note: string): State {
    var next := s.(reader := Buffering(note), log := s.log + [Forwarded(note)]);
    if s.subscriber.Some? && s.subscriber.value < |s.calls| then
      var c := s.subscriber.value;
      SetCall(next, c, s.calls[c].(received := s.calls[c].received + [note]))
    else next
  }

  function Next(s: State, step: Step): State {
    match step
    case Begin(streaming) => s.(calls := s.calls + [Call(streaming, Queued, 0, None, [])])
    case Go(c, ok) => if c < |s.calls| then Went(s, c, ok) else s
    case Respond(id, body) => if s.reader.Idle? then Responded(s, id, body) else s
    case Notify(note) => if s.reader.Idle? then Notified(s, note) else s
    case Buffer => if s.reader.Buffering? then s.(reader := Idle, buffer := s.buffer + [s.reader.note]) else s
    case Take => s.(buffer := [], log := s.log + [Reset])
    case Stop => if s.reader.Idle? then s.(calls := Woken(s.calls, s.pending), pending := map[], reader := Stopped) else s
    case OtherClient => s.(counter := s.counter + 1)
  }

  function Execute(steps: seq<Step>): State {
    if steps == [] then INITIAL else Next(Execute(steps[..|steps| - 1]), steps[|steps| - 1])
  }

  // ----- What a subscriber should hear, from the history alone -----------------------------------------------

  /** Caller `c` has installed its subscriber and not removed it. */
  predicate Listening(log: seq<Event>, c: nat) {
    if log == [] then false
    else
      var last := log[|log| - 1];
      if last == Installed(c) then true else if last == Removed(c) then false else Listening(log[..|log| - 1], c)
  }

  predicate HasAnswer(log: seq<Event>, c: nat) {
    Answered(c) in log
  }

  /** Everything the reader forwarded while `c` was listening. */
  function Heard(log: seq<Event>, c: nat): seq<string> {
    if log == [] then []
    else
      var earlier, last := log[..|log| - 1], log[|log| - 1];
      Heard(earlier, c) + if last.Forwarded? && Listening(earlier, c) then [last.note] else []
  }

  /** The part of it that came before the response. */
  function InTime(log: seq<Event>, c: nat): seq<string> {
    if log == [] then []
    else
      var earlier, last := log[..|log| - 1], log[|log| - 1];
      InTime(earlier, c) + if last.Forwarded? && Listening(earlier, c) && !HasAnswer(earlier, c) then [last.note] else []
  }

  /** The part of it that came after the response. */
  function Late(log: seq<Event>, c: nat): seq<string> {
    if log == [] then []
    else
      var earlier, last := log[..|log| - 1], log[|log| - 1];
      Late(earlier, c) + if last.Forwarded? && Listening(earlier, c) && HasAnswer(earlier, c) then [last.note] else []
  }

  lemma LogAppend(log: seq<Event>, e: Event, c: nat)
    ensures Listening(log + [e], c) == (e == Installed(c) || (e != Removed(c) && Listening(log, c)))
    ensures Heard(log + [e], c) == Heard(log, c) + if e.Forwarded? && Listening(log, c) then [e.note] else []
    ensures HasAnswer(log + [e], c) == (e == Answered(c) || HasAnswer(log, c))
  {
    assert (log + [e])[..|log|] == log;
  }

  lemma {:induction false} HeardIsInTimeThenLate(log: seq<Event>, c: nat)
    ensures Heard(log, c) == InTime(log, c) + Late(log, c)
    ensures Late(log, c) != [] ==> HasAnswer(log, c)
  {
    if log != [] {
      hide Listening, HasAnswer;
      var earlier := log[..|log| - 1];
      HeardIsInTimeThenLate(earlier, c);
      assert log == earlier + [log[|log| - 1]];
      if !HasAnswer(earlier, c) {
        assert Late(log, c) == [] && InTime(log, c) + [] == InTime(log, c);
      }
    }
  }

  // ----- What every interleaving keeps ---------------------------------------------------------------------

  predicate Holding(phase: Phase) {
    phase != Queued && phase != Done
  }

  /** Its id has been put into `pending` and not taken out by the caller itself. */
  predicate Enlisted(phase: Phase) {
    phase.Registered? || phase.Subscribed? || phase.Emptied? || phase.Waiting? || phase.WriteFailed?
  }

  predicate MayListen(phase: Phase) {
    phase.Subscribed? || phase.Emptied? || phase.Waiting? || phase.WriteFailed? || phase.Deregistered? || phase.Replied?
  }

  /** All that the shared state says about one call. */
  datatype View = View(call: Call, holds: bool, awaited: bool, subscribed: bool, numbered: bool, listening: bool, heard: seq<string>, answered: bool)

  function ViewOf(s: State, c: nat): View
    requires c < |s.calls|
  {
    var call := s.calls[c];
    View(call, s.lock == Some(c), call.id in s.pending && s.pending[call.id] == c, s.subscriber == Some(c),
         call.id < s.counter, Listening(s.log, c), Heard(s.log, c), HasAnswer(s.log, c))
  }

  predicate Sound(v: View) {
    && v.holds == Holding(v.call.phase)
    && (v.awaited ==> Enlisted(v.call.phase) && v.call.slot.None?)
    && (v.call.phase.Replied? ==> v.call.slot.Some?)
    && (Enlisted(v.call.phase) && v.call.slot.None? ==> v.awaited)
    && (v.call.slot.Some? ==> Enlisted(v.call.phase) || v.call.phase in {Deregistered, Replied, Unsubscribed, Done})
    && (v.call.slot.Some? && v.call.slot.value.Response? ==> v.call.slot.value.id == v.call.id)
    && (v.call.phase.Queued? || v.call.phase.Locked? || v.numbered)
    && v.subscribed == (v.call.streaming && MayListen(v.call.phase))
    && v.listening == v.subscribed && v.heard == v.call.received
    && (v.answered <==> v.call.slot.Some? && v.call.slot.value.Response?)
  }

  /** The lock, the subscriber and the waiters belong to calls that exist; a waiter has its own id. */
  ghost predicate AllPlaced(s: State) {
    && (s.lock.Some? ==> s.lock.value < |s.calls|)
    && (s.subscriber.Some? ==> s.subscriber.value < |s.calls|)
    && (forall id | id in s.pending :: s.pending[id] < |s.calls| && s.calls[s.pending[id]].id == id && id < s.counter)
    && (forall k | 0 <= k < |s.log| && (s.log[k].Installed? || s.log[k].Answered? || s.log[k].Removed?) :: s.log[k].c < |s.calls|)
  }

  ghost predicate Kept(s: State) {
    && AllPlaced(s)
    && forall c | 0 <= c < |s.calls| :: Sound(ViewOf(s, c))
  }

  lemma NothingSaid(log: seq<Event>, c: nat)
    requires forall k | 0 <= k < |log| && (log[k].Installed? || log[k].Answered? || log[k].Removed?) :: log[k].c != c
    ensures !Listening(log, c) && Heard(log, c) == [] && !HasAnswer(log, c)
  {
  }

  predicate Starting(phase: Phase) {
    phase.Queued? || phase.Locked? || phase.Numbered? || phase.Registered?
  }

  lemma StartingCallerStaysSound(s: State, c: nat, ok: bool)
    requires c < |s.calls| && Sound(ViewOf(s, c)) && s.counter !in s.pending
    requires s.lock.Some? && s.lock.value != c ==> !Holding(s.calls[c].phase)
    requires Starting(s.calls[c].phase)
    ensures |Went(s, c, ok).calls| == |s.calls| && Sound(ViewOf(Went(s, c, ok), c))
  {
    hide Listening, Heard, HasAnswer;
    LogAppend(s.log, Installed(c), c);
    LogAppend(s.log, Removed(c), c);
    LogAppend(s.log, Reset, c);
  }

  lemma OtherCallerStaysSound(s: State, c: nat, ok: bool)
    requires c < |s.calls| && Sound(ViewOf(s, c)) && s.counter !in s.pending
    requires s.lock.Some? && s.lock.value != c ==> !Holding(s.calls[c].phase)
    requires !Starting(s.calls[c].phase)
    ensures |Went(s, c, ok).calls| == |s.calls| && Sound(ViewOf(Went(s, c, ok), c))
  {
    hide Listening, Heard, HasAnswer;
    LogAppend(s.log, Installed(c), c);
    LogAppend(s.log, Removed(c), c);
    LogAppend(s.log, Reset, c);
  }

  lemma CallerStaysSound(s: State, c: nat, ok: bool)
    requires c < |s.calls| && Sound(ViewOf(s, c)) && s.counter !in s.pending
    requires s.lock.Some? && s.lock.value != c ==> !Holding(s.calls[c].phase)
    ensures |Went(s, c, ok).calls| == |s.calls| && Sound(ViewOf(Went(s, c, ok), c))
  {
    hide Went, ViewOf, Sound;
    if Starting(s.calls[c].phase) {
      StartingCallerStaysSound(s, c, ok);
    } else {
      OtherCallerStaysSound(s, c, ok);
    }
  }

  lemma StartingCallerLeavesOthers(s: State, c: nat, ok: bool, other: nat)
    requires c < |s.calls| && other < |s.calls| && c != other && Starting(s.calls[c].phase)
    requires Sound(ViewOf(s, c)) && Sound(ViewOf(s, other))
    ensures |Went(s, c, ok).calls| == |s.calls| && Sound(ViewOf(Went(s, c, ok), other))
  {
    hide Listening, Heard, HasAnswer;
    LogAppend(s.log, Installed(c), other);
    LogAppend(s.log, Removed(c), other);
    LogAppend(s.log, Reset, other);
  }

  lemma OtherCallerLeavesOthers(s: State, c: nat, ok: bool, other: nat)
    requires c < |s.calls| && other < |s.calls| && c != other && !Starting(s.calls[c].phase)
    requires Sound(ViewOf(s, c)) && Sound(ViewOf(s, other))
    ensures |Went(s, c, ok).calls| == |s.calls| && Sound(ViewOf(Went(s, c, ok), other))
  {
    hide Listening, Heard, HasAnswer;
    LogAppend(s.log, Installed(c), other);
    LogAppend(s.log, Removed(c), other);
    LogAppend(s.log, Reset, other);
  }

  /** A step of the lock's holder leaves the others as they were. */
  lemma CallerLeavesOthers(s: State, c: nat, ok: bool, other: nat)
    requires c < |s.calls| && other < |s.calls| && c != other
    requires Sound(ViewOf(s, c)) && Sound(ViewOf(s, other))
    ensures |Went(s, c, ok).calls| == |s.calls| && Sound(ViewOf(Went(s, c, ok), other))
  {
    hide Went, ViewOf, Sound;
    if Starting(s.calls[c].phase) {
      StartingCallerLeavesOthers(s, c, ok, other);
    } else {
      OtherCallerLeavesOthers(s, c, ok, other);
    }
  }

  lemma ResponseStaysSound(s: State, id: nat, body: string, c: nat)
    requires AllPlaced(s) && c < |s.calls| && Sound(ViewOf(s, c))
    ensures |Responded(s, id, body).calls| == |s.calls| && Sound(ViewOf(Responded(s, id, body), c))
  {
    hide Listening, Heard, HasAnswer;
    if id in s.pending {
      LogAppend(s.log, Answered(s.pending[id]), c);
    }
  }

  lemma NoteStaysSound(s: State, note: string, c: nat)
    requires AllPlaced(s) && c < |s.calls| && Sound(ViewOf(s, c))
    ensures |Notified(s, note).calls| == |s.calls| && Sound(ViewOf(Notified(s, note), c))
  {
    hide Listening, Heard, HasAnswer;
    LogAppend(s.log, Forwarded(note), c);
  }

  lemma NextLength(s: State, step: Step)
    ensures |Next(s, step).calls| == |s.calls| + if step.Begin? then 1 else 0
  {
  }

  lemma StepStaysSound(s: State, step: Step, c: nat)
    requires Kept(s) && c < |Next(s, step).calls|
    ensures Sound(ViewOf(Next(s, step), c))
  {
    hide Went, Responded, Notified, Listening, Heard, HasAnswer;
    NextLength(s, step);
    if c < |s.calls| {
      assert Sound(ViewOf(s, c));
    }
    match step
    case Begin(_) =>
      if c == |s.calls| {
        NothingSaid(s.log, c);
      }
    case Go(actor, ok) =>
      if actor < |s.calls| {
        assert Sound(ViewOf(s, actor));
        CallerStaysSound(s, actor, ok);
        if c != actor {
          CallerLeavesOthers(s, actor, ok, c);
        }
      }
    case Respond(id, body) => ResponseStaysSound(s, id, body, c);
    case Notify(note) => NoteStaysSound(s, note, c);
    case Take => LogAppend(s.log, Reset, c);
    case _ =>
  }

  lemma CallerKeepsPlaces(s: State, c: nat, ok: bool)
    requires AllPlaced(s) && c < |s.calls| && Sound(ViewOf(s, c))
    ensures AllPlaced(Went(s, c, ok))
  {
    hide Listening, Heard, HasAnswer;
  }

  lemma StepKeepsPlaces(s: State, step: Step)
    requires Kept(s)
    ensures AllPlaced(Next(s, step))
  {
    hide Went, Sound;
    if step.Go? && step.c < |s.calls| {
      CallerKeepsPlaces(s, step.c, step.ok);
    }
  }

  lemma {:induction false} RunKeeps(steps: seq<Step>)
    ensures Kept(Execute(steps))
  {
    hide Sound, ViewOf, Next;
    if steps != [] {
      var s, step := Execute(steps[..|steps| - 1]), steps[|steps| - 1];
      RunKeeps(steps[..|steps| - 1]);
      StepKeepsPlaces(s, step);
      forall c | 0 <= c < |Next(s, step).calls| ensures Sound(ViewOf(Next(s, step), c)) {
        StepStaysSound(s, step, c);
      }
    }
  }

  // ----- One request at a time, each with its own answer -----------------------------------------------------

  /** At most one id is outstanding, and it is the lock holder's. */
  lemma OneRequestOutstanding(steps: seq<Step>, id: nat, other: nat)
    requires id in Execute(steps).pending && other in Execute(steps).pending
    ensures id == other && Execute(steps).lock == Some(Execute(steps).pending[id])
  {
    var s := Execute(steps);
    RunKeeps(steps);
    assert Sound(ViewOf(s, s.pending[id])) && Sound(ViewOf(s, s.pending[other]));
  }

  predicate HasId(phase: Phase) {
    phase != Queued && phase != Locked
  }

  ghost predicate IdsDistinct(calls: seq<Call>) {
    forall a, b | 0 <= a < b < |calls| && HasId(calls[a].phase) && HasId(calls[b].phase) :: calls[a].id != calls[b].id
  }

  /** The only new id is the counter's, given to the caller that steps. */
  lemma OnlyNumberingGivesIds(s: State, step: Step, c: nat)
    requires c < |Next(s, step).calls| && HasId(Next(s, step).calls[c].phase)
    ensures || (c < |s.calls| && HasId(s.calls[c].phase) && Next(s, step).calls[c].id == s.calls[c].id)
            || (step.Go? && step.c == c && Next(s, step).calls[c].id == s.counter)
  {
  }

  lemma StepKeepsIds(s: State, step: Step)
    requires Kept(s) && IdsDistinct(s.calls)
    ensures IdsDistinct(Next(s, step).calls)
  {
    hide Next;
    forall c | 0 <= c < |s.calls| ensures HasId(s.calls[c].phase) ==> s.calls[c].id < s.counter {
      assert Sound(ViewOf(s, c));
    }
    forall c | 0 <= c < |Next(s, step).calls| && HasId(Next(s, step).calls[c].phase)
      ensures || (c < |s.calls| && HasId(s.calls[c].phase) && Next(s, step).calls[c].id == s.calls[c].id)
              || (step.Go? && step.c == c && Next(s, step).calls[c].id == s.counter)
    {
      OnlyNumberingGivesIds(s, step, c);
    }
  }

  lemma {:induction false} RunKeepsIds(steps: seq<Step>)
    ensures IdsDistinct(Execute(steps).calls)
  {
    hide Kept, IdsDistinct, Next;
    if steps == [] {
      assert IdsDistinct([]) by { NoIds(); }
    } else {
      RunKeepsIds(steps[..|steps| - 1]);
      RunKeeps(steps[..|steps| - 1]);
      StepKeepsIds(Execute(steps[..|steps| - 1]), steps[|steps| - 1]);
    }
  }

  lemma NoIds()
    ensures IdsDistinct([])
  {
  }

  /** A response a caller got bears the caller's id, and no other numbered call has that id. */
  lemma {:induction false} ResponseIsOwn(steps: seq<Step>, c: nat, other: nat)
    requires var calls := Execute(steps).calls;
             && c < |calls| && calls[c].slot.Some? && calls[c].slot.value.Response?
             && other < |calls| && HasId(calls[other].phase) && calls[other].id == calls[c].slot.value.id
    ensures other == c
  {
    var s := Execute(steps);
    RunKeeps(steps);
    RunKeepsIds(steps);
    assert Sound(ViewOf(s, c));
  }

  lemma WaiterHoldsTheLock(s: State, id: nat)
    requires Kept(s) && id in s.pending
    ensures s.lock == Some(s.pending[id])
  {
    assert Sound(ViewOf(s, s.pending[id]));
  }

  lemma SubscriberHoldsTheLock(s: State)
    requires Kept(s) && s.subscriber.Some?
    ensures s.lock == s.subscriber
  {
    assert Sound(ViewOf(s, s.subscriber.value));
  }

  /** Between requests nothing is left behind: no waiter, no subscriber. */
  lemma NothingLeftBehind(steps: seq<Step>)
    requires Execute(steps).lock == None
    ensures Execute(steps).pending == map[] && Execute(steps).subscriber == None
  {
    var s := Execute(steps);
    RunKeeps(steps);
    forall id ensures id !in s.pending {
      if id in s.pending {
        WaiterHoldsTheLock(s, id);
      }
    }
    if s.subscriber.Some? {
      SubscriberHoldsTheLock(s);
    }
  }

  // ----- What subscribers receive ----------------------------------------------------------------------------

  /** Position `k` of the history is a note that `c` was sent. */
  predicate HeardAt(log: seq<Event>, k: int, c: nat) {
    0 <= k < |log| && log[k].Forwarded? && Listening(log[..k], c)
  }

  /** Position `k` is a note forwarded between the response to `c` and the removal of its subscriber. */
  predicate SlipsIn(log: seq<Event>, k: int, c: nat) {
    0 <= k < |log| && log[k].Forwarded? && Installed(c) in log[..k] && Answered(c) in log[..k] && Removed(c) !in log[..k]
  }

  lemma StepAppendsOne(s: State, step: Step)
    ensures var log := Next(s, step).log; log == s.log || (|log| == |s.log| + 1 && log[..|s.log|] == s.log)
  {
  }

  /** Every prefix of a run's history is the history of a prefix of the run. */
  lemma {:induction false} HistoryOfAPrefix(steps: seq<Step>, k: nat) returns (m: nat)
    requires k <= |Execute(steps).log|
    ensures m <= |steps| && Execute(steps[..m]).log == Execute(steps).log[..k]
  {
    hide Next;
    var log := Execute(steps).log;
    if k == |log| {
      m := |steps|;
      assert steps[..m] == steps && log[..k] == log;
    } else {
      var earlier := steps[..|steps| - 1];
      StepAppendsOne(Execute(earlier), steps[|steps| - 1]);
      m := HistoryOfAPrefix(earlier, k);
      assert steps[..m] == earlier[..m] && log[..k] == Execute(earlier).log[..k];
    }
  }

  lemma ListenerSubscribed(steps: seq<Step>, c: nat)
    requires Listening(Execute(steps).log, c)
    ensures Execute(steps).subscriber == Some(c)
  {
    hide Execute;
    var s := Execute(steps);
    RunKeeps(steps);
    if c < |s.calls| {
      assert Sound(ViewOf(s, c));
    } else {
      NothingSaid(s.log, c);
    }
  }

  /** At no point of a history are two calls listening. */
  lemma {:induction false} OneListener(steps: seq<Step>, k: nat, c: nat, d: nat)
    requires k <= |Execute(steps).log| && Listening(Execute(steps).log[..k], c) && Listening(Execute(steps).log[..k], d)
    ensures c == d
  {
    hide Execute, Listening;
    var m := HistoryOfAPrefix(steps, k);
    ListenerSubscribed(steps[..m], c);
    ListenerSubscribed(steps[..m], d);
  }

  predicate Closed(phase: Phase) {
    phase.Unsubscribed? || phase.Done?
  }

  /** The history names a removal exactly for the calls that removed their subscriber. */
  ghost predicate RemovalsAreFinal(s: State) {
    forall c: nat :: Removed(c) in s.log <==> c < |s.calls| && Closed(s.calls[c].phase)
  }

  /** The step closes `c` exactly when it says so, and installs it only if it had not yet. */
  predicate SaysWhatItCloses(s: State, after: State, c: nat) {
    && (c < |after.calls| && Closed(after.calls[c].phase) <==>
          (c < |s.calls| && Closed(s.calls[c].phase)) || (|after.log| > |s.log| && after.log[|s.log|] == Removed(c)))
    && (|after.log| > |s.log| && after.log[|s.log|] == Installed(c) ==> c < |s.calls| && s.calls[c].phase.Registered?)
  }

  lemma CallerSays(s: State, actor: nat, ok: bool, c: nat)
    requires actor < |s.calls|
    ensures SaysWhatItCloses(s, Went(s, actor, ok), c)
  {
    if c == actor {
    } else {
      assert |Went(s, actor, ok).calls| == |s.calls|;
      assert c < |s.calls| ==> Went(s, actor, ok).calls[c] == s.calls[c];
    }
  }

  lemma StepSays(s: State, step: Step, c: nat)
    ensures SaysWhatItCloses(s, Next(s, step), c)
  {
    hide Went;
    if step.Go? && step.c < |s.calls| {
      CallerSays(s, step.c, step.ok, c);
    }
  }

  lemma {:induction false} RemovedOnce(steps: seq<Step>)
    ensures RemovalsAreFinal(Execute(steps))
  {
    hide Next, AllPlaced, Closed;
    if steps != [] {
      var s, step := Execute(steps[..|steps| - 1]), steps[|steps| - 1];
      RemovedOnce(steps[..|steps| - 1]);
      RunKeeps(steps[..|steps| - 1]);
      StepAppendsOne(s, step);
      var log := Execute(steps).log;
      assert log != s.log ==> log == s.log + [log[|s.log|]];
      forall c: nat ensures Removed(c) in log <==> c < |Execute(steps).calls| && Closed(Execute(steps).calls[c].phase) {
        StepSays(s, step, c);
      }
    }
  }

  /** A call listens from its installation to its removal, which come once each. */
  lemma {:induction false} ListeningIsAWindow(steps: seq<Step>, c: nat)
    ensures var log := Execute(steps).log; Listening(log, c) <==> Installed(c) in log && Removed(c) !in log
  {
    hide Next, AllPlaced, Listening;
    if steps == [] {
      NothingSaid([], c);
    } else {
      var s, step := Execute(steps[..|steps| - 1]), steps[|steps| - 1];
      ListeningIsAWindow(steps[..|steps| - 1], c);
      RemovedOnce(steps[..|steps| - 1]);
      RunKeeps(steps[..|steps| - 1]);
      StepAppendsOne(s, step);
      StepSays(s, step, c);
      var log := Execute(steps).log;
      if log != s.log {
        assert log == s.log + [log[|s.log|]];
        LogAppend(s.log, log[|s.log|], c);
      }
    }
  }

  lemma {:induction false} LateIsSomePosition(log: seq<Event>, c: nat)
    ensures Late(log, c) != [] <==> exists k :: HeardAt(log, k, c) && HasAnswer(log[..k], c)
  {
    if log != [] {
      hide Listening, HasAnswer;
      var earlier, last := log[..|log| - 1], |log| - 1;
      LateIsSomePosition(earlier, c);
      forall k | 0 <= k < last ensures earlier[..k] == log[..k] {
      }
      if Late(earlier, c) != [] {
        var k :| HeardAt(earlier, k, c) && HasAnswer(earlier[..k], c);
        assert HeardAt(log, k, c) && HasAnswer(log[..k], c);
      } else if Late(log, c) != [] {
        assert HeardAt(log, last, c) && HasAnswer(log[..last], c);
      } else {
        forall k ensures !(HeardAt(log, k, c) && HasAnswer(log[..k], c)) {
          assert !(HeardAt(earlier, k, c) && k < last && HasAnswer(earlier[..k], c));
        }
      }
    }
  }

  /** What a note was heard by and when, over the history alone. */
  lemma {:induction false} HeardInTheWindow(steps: seq<Step>, k: nat, c: nat)
    requires k <= |Execute(steps).log|
    ensures var before := Execute(steps).log[..k]; Listening(before, c) <==> Installed(c) in before && Removed(c) !in before
  {
    hide Execute, Listening;
    var m := HistoryOfAPrefix(steps, k);
    ListeningIsAWindow(steps[..m], c);
  }

  /**
   * A subscriber receives, in order, exactly what the reader forwarded between its installation and its removal:
   * everything up to its response, and after it exactly what slipped in before the removal. No note reaches two
   * calls, so nothing reaches a later request.
   */
  lemma {:induction false} SubscriberHearsItsWindow(steps: seq<Step>, c: nat)
    requires c < |Execute(steps).calls|
    ensures var s := Execute(steps);
            && s.calls[c].received == InTime(s.log, c) + Late(s.log, c)
            && (Late(s.log, c) == [] <==> forall k :: !SlipsIn(s.log, k, c))
            && (forall k, d: nat | HeardAt(s.log, k, c) && HeardAt(s.log, k, d) :: c == d)
  {
    hide Execute;
    var s := Execute(steps);
    RunKeeps(steps);
    assert Sound(ViewOf(s, c));
    HeardIsInTimeThenLate(s.log, c);
    LateIsSomePosition(s.log, c);
    hide Listening, Late, InTime, Heard;
    forall k ensures SlipsIn(s.log, k, c) <==> HeardAt(s.log, k, c) && HasAnswer(s.log[..k], c) {
      if 0 <= k < |s.log| {
        HeardInTheWindow(steps, k, c);
      }
    }
    forall k, d: nat | HeardAt(s.log, k, c) && HeardAt(s.log, k, d) ensures c == d {
      OneListener(steps, k, c, d);
    }
  }

  lemma Extend(steps: seq<Step>, step: Step)
    ensures Execute(steps + [step]) == Next(Execute(steps), step)
  {
    assert (steps + [step])[..|steps|] == steps;
  }

  function Going(c: nat, n: nat): seq<Step> {
    if n == 0 then [] else Going(c, n - 1) + [Go(c, true)]
  }

  /** A streaming caller alone on the pipe, its request written. */
  lemma WaitingAlone()
    ensures Execute([Begin(true)] + Going(0, 6)) ==
            State([Call(true, Waiting, 0, None, [])], Some(0), 1, map[0 := 0], Some(0), [], Idle, [Installed(0), Reset])
  {
    hide Execute;
    var go := Go(0, true);
    var s0: seq<Step> := [Begin(true)];
    var s1, s2, s3 := s0 + [go], s0 + [go] + [go], s0 + [go] + [go] + [go];
    var s4, s5, s6 := s3 + [go], s3 + [go] + [go], s3 + [go] + [go] + [go];
    EmptyRun();
    assert [] + [Begin(true)] == s0;
    Extend([], Begin(true)); Extend(s0, go); Extend(s1, go); Extend(s2, go);
    assert Execute(s3) == State([Call(true, Registered, 0, None, [])], Some(0), 1, map[0 := 0], None, [], Idle, []);
    Extend(s3, go); Extend(s4, go); Extend(s5, go);
    assert Going(0, 3) == [go, go, go] && s6 == s0 + Going(0, 6);
  }

  /** The smallest run in which a notification that follows the response still reaches the callback. */
  lemma NotificationAfterTheResponse(body: string, note: string)
    ensures var s := Execute([Begin(true)] + Going(0, 6) + [Respond(0, body)] + [Notify(note)]);
            && |s.calls| == 1 && s.calls[0].slot == Some(Response(0, body)) && s.calls[0].received == [note]
            && s.log == [Installed(0), Reset, Answered(0), Forwarded(note)] && Late(s.log, 0) == [note]
  {
    hide Execute, Going;
    var waiting := [Begin(true)] + Going(0, 6);
    WaitingAlone();
    Extend(waiting, Respond(0, body));
    Extend(waiting + [Respond(0, body)], Notify(note));
    LateAfterTheAnswer(note);
  }

  lemma LateAfterTheAnswer(note: string)
    ensures Late([Installed(0), Reset, Answered(0), Forwarded(note)], 0) == [note]
  {
    var log := [Installed(0), Reset, Answered(0), Forwarded(note)];
    assert log[..3][..2][..1] == [Installed(0)] && log[..3][..2] == [Installed(0), Reset];
    assert log[..3] == [Installed(0), Reset, Answered(0)] && Listening(log[..3][..2], 0) && Listening(log[..3], 0);
    assert Late([Installed(0)], 0) == [] && Late([Installed(0), Reset], 0) == [] && Late(log[..3], 0) == [];
  }

  lemma EmptyRun()
    ensures Execute([]) == INITIAL
  {
  }

  // ----- The fallback buffer ---------------------------------------------------------------------------------

  function ForwardedSince(log: seq<Event>): seq<string> {
    if log == [] then []
    else
      var last := log[|log| - 1];
      if last.Reset? then [] else ForwardedSince(log[..|log| - 1]) + if last.Forwarded? then [last.note] else []
  }

  function InFlight(reader: Reader): seq<string> {
    if reader.Buffering? then [reader.note] else []
  }

  /** The buffer holds what was forwarded since it was last emptied, after at most one straggler from before. */
  ghost predicate BufferFollows(s: State) {
    var have, want := s.buffer + InFlight(s.reader), ForwardedSince(s.log);
    have == want || (|have| == |want| + 1 && have[1..] == want)
  }

  lemma SinceAppend(log: seq<Event>, e: Event)
    ensures ForwardedSince(log + [e]) == if e.Reset? then [] else ForwardedSince(log) + if e.Forwarded? then [e.note] else []
  {
    assert (log + [e])[..|log|] == log;
  }

  lemma CallerKeepsBuffer(s: State, c: nat, ok: bool)
    requires c < |s.calls|
    ensures var after := Went(s, c, ok);
            && after.reader == s.reader
            && (   (after.buffer == s.buffer && ForwardedSince(after.log) == ForwardedSince(s.log))
                || (after.buffer == [] && ForwardedSince(after.log) == []))
  {
    hide ForwardedSince;
    SinceAppend(s.log, Installed(c));
    SinceAppend(s.log, Removed(c));
    SinceAppend(s.log, Reset);
  }

  lemma NothingForwarded()
    ensures BufferFollows(INITIAL)
  {
  }

  lemma {:induction false} BufferHoldsTheRest(steps: seq<Step>)
    ensures BufferFollows(Execute(steps))
  {
    hide Went, ForwardedSince;
    if steps == [] {
      assert BufferFollows(INITIAL) by { NothingForwarded(); }
    } else {
      var s, step := Execute(steps[..|steps| - 1]), steps[|steps| - 1];
      BufferHoldsTheRest(steps[..|steps| - 1]);
      match step
      case Go(c, ok) =>
        if c < |s.calls| {
          CallerKeepsBuffer(s, c, ok);
        }
      case Respond(id, _) =>
        if id in s.pending {
          SinceAppend(s.log, Answered(s.pending[id]));
        }
      case Notify(note) => SinceAppend(s.log, Forwarded(note));
      case Take => SinceAppend(s.log, Reset);
      case _ =>
    }
  }

  // ----- When the agent goes away ------------------------------------------------------------------------------

  lemma NoStepAfterStop(s: State, step: Step, c: nat)
    requires s.reader == Stopped && c < |Next(s, step).calls|
    ensures Next(s, step).reader == Stopped
    ensures c < |s.calls| ==> Next(s, step).calls[c].slot == s.calls[c].slot
    ensures c >= |s.calls| ==> Next(s, step).calls[c].slot == None
  {
  }

  predicate Past(phase: Phase) {
    phase.WriteFailed? || phase.Deregistered? || phase.Replied? || phase.Unsubscribed? || phase.Done?
  }

  /** No call is forgotten, none goes back to waiting, and the reader does not start again. */
  ghost predicate Forward(s: State, later: State) {
    && |s.calls| <= |later.calls|
    && (s.reader == Stopped ==> later.reader == Stopped)
    && forall c | 0 <= c < |s.calls| && Past(s.calls[c].phase) :: Past(later.calls[c].phase)
  }

  lemma StepGoesForward(s: State, step: Step)
    ensures Forward(s, Next(s, step))
  {
  }

  lemma {:induction false} RunGoesForward(before: seq<Step>, after: seq<Step>)
    ensures Forward(Execute(before), Execute(before + after))
  {
    hide Next;
    if after == [] {
      assert before + after == before;
    } else {
      assert (before + after)[..|before + after| - 1] == before + after[..|after| - 1];
      RunGoesForward(before, after[..|after| - 1]);
      StepGoesForward(Execute(before + after[..|after| - 1]), after[|after| - 1]);
    }
  }

  /** Once the reader has stopped, no waiter is filled or emptied any more. */
  lemma {:induction false} SlotsAreFinal(before: seq<Step>, after: seq<Step>, c: nat)
    requires Execute(before).reader == Stopped && c < |Execute(before + after).calls|
    ensures Execute(before + after).reader == Stopped
    ensures Execute(before + after).calls[c].slot == if c < |Execute(before).calls| then Execute(before).calls[c].slot else None
  {
    hide Next;
    if after == [] {
      assert before + after == before;
    } else {
      var earlier := after[..|after| - 1];
      assert (before + after)[..|before + after| - 1] == before + earlier;
      var s, step := Execute(before + earlier), after[|after| - 1];
      NextLength(s, step);
      RunGoesForward(before, earlier);
      if c < |s.calls| {
        SlotsAreFinal(before, earlier, c);
      }
      NoStepAfterStop(s, step, c);
    }
  }

  /**
   * The reader stops after `before`; whatever happens then, a caller that ends up waiting is released exactly when
   * it had registered before the reader stopped; `RequestAfterTheEndBlocksThePipe` is the other case.
   */
  lemma RegisteredWaitersAreReleased(before: seq<Step>, after: seq<Step>, c: nat)
    requires Execute(before).reader == Idle
    requires var s := Execute(before + [Stop] + after); c < |s.calls| && s.calls[c].phase == Waiting
    ensures Execute(before + [Stop] + after).calls[c].slot.Some?
       <==> c < |Execute(before).calls| && Enlisted(Execute(before).calls[c].phase)
  {
    hide Execute;
    var s := Execute(before);
    RunKeeps(before);
    Extend(before, Stop);
    var stopped := before + [Stop];
    assert Execute(stopped) == Next(s, Stop);
    SlotsAreFinal(stopped, after, c);
    if c < |s.calls| {
      assert Sound(ViewOf(s, c));
      RunGoesForward(stopped, after);
    }
  }

  /** A caller that waits for nobody. */
  predicate Stuck(s: State, c: nat) {
    s.reader == Stopped && c < |s.calls| && s.calls[c].phase == Waiting && s.calls[c].slot == None && s.lock == Some(c)
  }

  lemma StuckStep(s: State, step: Step, c: nat)
    requires Stuck(s, c) && Kept(s)
    ensures Stuck(Next(s, step), c)
  {
    if step.Go? && step.c < |s.calls| {
      assert Sound(ViewOf(s, step.c));
    }
  }

  lemma {:induction false} StuckForever(before: seq<Step>, after: seq<Step>, c: nat)
    requires Stuck(Execute(before), c)
    ensures Stuck(Execute(before + after), c)
  {
    hide Next, Stuck, Kept;
    if after == [] {
      assert before + after == before;
    } else {
      var earlier := after[..|after| - 1];
      assert (before + after)[..|before + after| - 1] == before + earlier;
      StuckForever(before, earlier, c);
      RunKeeps(before + earlier);
      StuckStep(Execute(before + earlier), after[|after| - 1], c);
    }
  }

  /**
   * A request made after the reader's end writes, waits for ever and keeps the lock, so that every later request
   * waits behind it.
   */
  lemma {:induction false} RequestAfterTheEndBlocksThePipe(after: seq<Step>)
    ensures Stuck(Execute([Stop] + [Begin(false)] + Going(0, 6) + after), 0)
  {
    hide Execute;
    var go := Go(0, true);
    var s0: seq<Step> := [Stop] + [Begin(false)];
    var s1, s2, s3 := s0 + [go], s0 + [go] + [go], s0 + [go] + [go] + [go];
    var s4, s5, s6 := s3 + [go], s3 + [go] + [go], s3 + [go] + [go] + [go];
    EmptyRun();
    assert [] + [Stop] == [Stop];
    Extend([], Stop); Extend([Stop], Begin(false)); Extend(s0, go); Extend(s1, go); Extend(s2, go);
    assert Execute(s3).calls == [Call(false, Registered, 0, None, [])] && Execute(s3).lock == Some(0) && Execute(s3).reader == Stopped;
    Extend(s3, go); Extend(s4, go); Extend(s5, go);
    assert Going(0, 3) == [go, go, go] && s6 == s0 + Going(0, 6);
    StuckForever(s6, after, 0);
  }
}
