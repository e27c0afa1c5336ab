/**
 * Who owns a turn of the amp bridge (daemon/crates/amp-bridge/src/bridge.rs). `turn/start` reserves its thread,
 * launches a process and attaches it; `turn/interrupt` and the turn's event pump then race to take the entry, and
 * the one that takes it announces the completion; `turn/steer` only reads the entry before it writes. Every step
 * between two awaits is one atomic step here, and every interleaving of any number of calls and pumps is a run.
 */
module ActiveTurns {
  import opened Prelude

  // ----- The shared table ----------------------------------------------------------------------------------

  /** Turn ids are fresh UUIDs: here the number of the `turn/start` call. */
  datatype ActiveTurn = ActiveTurn(turnId: nat, attached: bool)

  type Table = map<string, ActiveTurn>

  predicate Holds(table: Table, thread: string, turn: nat) {
    thread in table && table[thread].turnId == turn
  }

  function WithReservation(table: Table, thread: string, turn: nat): Table {
    if thread in table then table else table[thread := ActiveTurn(turn, false)]
  }

  function WithProcess(table: Table, thread: string, turn: nat): Table {
    if Holds(table, thread, turn) then table[thread := ActiveTurn(turn, true)] else table
  }

  function Without(table: Table, thread: string, turn: nat): Table {
    if Holds(table, thread, turn) then table - {thread} else table
  }

  /** How `turn/interrupt` and `turn/steer` check the turn id they are given. */
  datatype Reply = Accepted | NoActiveTurn | OtherTurn | StillLaunching

  function ReplyToTurnId(table: Table, thread: string, turn: nat): Reply {
    if thread !in table then NoActiveTurn
    else if table[thread].turnId != turn then OtherTurn
    else if !table[thread].attached then StillLaunching
    else Accepted
  }

  /** The mutex-guarded map; each method is one critical section. */
  class ActiveTurnTable {
    var turns: Table

    constructor ()
      ensures turns == map[]
    {
      turns := map[];
    }

    method Reserve(thread: string, turn: nat) returns (ok: bool)
      modifies this
      ensures ok <==> thread !in old(turns)
      ensures turns == WithReservation(old(turns), thread, turn)
      ensures ok ==> Holds(turns, thread, turn)
    {
      if thread in turns { return false; }
      turns := turns[thread := ActiveTurn(turn, false)];
      ok := true;
    }

    method Attach(thread: string, turn: nat) returns (ok: bool)
      modifies this
      ensures ok <==> Holds(old(turns), thread, turn)
      ensures turns == WithProcess(old(turns), thread, turn)
    {
      if thread !in turns { return false; }
      if turns[thread].turnId != turn { return false; }
      turns := turns[thread := turns[thread].(attached := true)];
      ok := true;
    }

    method RemoveIfMatches(thread: string, turn: nat) returns (removed: bool)
      modifies this
      ensures removed <==> Holds(old(turns), thread, turn)
      ensures turns == Without(old(turns), thread, turn)
      ensures forall t | t in old(turns) && old(turns)[t].turnId != turn :: t in turns && turns[t] == old(turns)[t]
    {
      removed := thread in turns && turns[thread].turnId == turn;
      if removed {
        turns := turns - {thread};
      }
    }

    method TakeForInterrupt(thread: string, turn: nat) returns (reply: Reply)
      modifies this
      ensures reply == ReplyToTurnId(old(turns), thread, turn)
      ensures turns == if reply == Accepted then Without(old(turns), thread, turn) else old(turns)
    {
      if thread !in turns { return NoActiveTurn; }
      if turns[thread].turnId != turn { return OtherTurn; }
      if !turns[thread].attached { return StillLaunching; }
      turns := turns - {thread};
      reply := Accepted;
    }
  }

  // ----- Calls, pumps and what the client is told ----------------------------------------------------------

  /** Where a `turn/start` call stands: the step it finished last. */
  datatype Phase = Asked | Reserved | Indexed | Launched | Attached | Sent | Published | Noted | Answered(ok: bool)

  datatype Pump = Unspawned | Running | Ended(owns: bool, status: Status) | Gone

  datatype Status = Completed | Failed | Interrupted

  /** Who sends an item: the start call its user message, the pump the process's items, a steer its user message. */
  datatype Speaker = ByStart | ByPump | BySteer

  datatype Event =
    | TurnStarted(thread: string, turn: nat)
    | ItemNotified(thread: string, turn: nat, speaker: Speaker)
    | TurnCompleted(thread: string, turn: nat, status: Status)

  datatype Turn = Turn(thread: string, phase: Phase, pump: Pump)

  /**
   * `interrupting` holds the interrupts that took their turn and have not yet announced it; `steering` the steers that
   * read their turn's entry and have not yet written their input.
   */
  datatype State = State(table: Table, turns: seq<Turn>, interrupting: multiset<(string, nat)>,
                         steering: multiset<(string, nat)>, log: seq<Event>)

  const INITIAL: State := State(map[], [], multiset{}, multiset{}, [])

  datatype Step =
    | Ask(thread: string)
    /** The call does its next step; `ok` is how storing, launching or sending went. */
    | Advance(turn: nat, ok: bool)
    | Interrupt(thread: string, turn: nat)
    | AnnounceInterrupt(thread: string, turn: nat)
    | Steer(thread: string, turn: nat)
    /** The steer's write ended; only a good one speaks, and it does not look at the table again. */
    | AnnounceSteer(thread: string, turn: nat, ok: bool)
    | Note(turn: nat)
    /** The pump saw a result or the end of the stream and gives the turn up. */
    | EndPump(turn: nat, failed: bool)
    | AnnounceEnd(turn: nat)

  function Set(s: State, turn: nat, t: Turn): State
    requires turn < |s.turns|
  {
    s.(turns := s.turns[turn := t])
  }

  function Fail(s: State, turn: nat): State
    requires turn < |s.turns|
  {
    var t := s.turns[turn];
    Set(s, turn, t.(phase := Answered(false))).(table := Without(s.table, t.thread, turn))
  }

  function Advanced(s: State, turn: nat, ok: bool): State
    requires turn < |s.turns|
  {
    var t := s.turns[turn];
    match t.phase
    case Asked =>
      if t.thread in s.table then Set(s, turn, t.(phase := Answered(false)))
      else Set(s, turn, t.(phase := Reserved)).(table := WithReservation(s.table, t.thread, turn))
    case Reserved => if ok then Set(s, turn, t.(phase := Indexed)) else Fail(s, turn)
    case Indexed => if ok then Set(s, turn, t.(phase := Launched)) else Fail(s, turn)
    case Launched =>
      if Holds(s.table, t.thread, turn)
      then Set(s, turn, t.(phase := Attached)).(table := WithProcess(s.table, t.thread, turn))
      else Set(s, turn, t.(phase := Answered(false)))
    case Attached => if ok then Set(s, turn, t.(phase := Sent)) else Fail(s, turn)
    case Sent => Set(s, turn, t.(phase := Published)).(log := s.log + [TurnStarted(t.thread, turn)])
    case Published => Set(s, turn, t.(phase := Noted)).(log := s.log + [ItemNotified(t.thread, turn, ByStart)])
    case Noted => Set(s, turn, t.(phase := Answered(true), pump := Running))
    case Answered(_) => s
  }

  predicate IsRequest(step: Step) {
    step.Interrupt? || step.AnnounceInterrupt? || step.Steer? || step.AnnounceSteer?
  }

  /** A step of an interrupt or a steer. */
  function Requested(s: State, step: Step): State
    requires IsRequest(step)
  {
    match step
    case Interrupt(thread, turn) =>
      if ReplyToTurnId(s.table, thread, turn) != Accepted then s
      else s.(table := Without(s.table, thread, turn), interrupting := s.interrupting + multiset{(thread, turn)})
    case AnnounceInterrupt(thread, turn) =>
      if (thread, turn) !in s.interrupting then s
      else s.(interrupting := s.interrupting - multiset{(thread, turn)},
              log := s.log + [TurnCompleted(thread, turn, Interrupted)])
    case Steer(thread, turn) =>
      if ReplyToTurnId(s.table, thread, turn) != Accepted then s
      else s.(steering := s.steering + multiset{(thread, turn)})
    case AnnounceSteer(thread, turn, ok) =>
      if (thread, turn) !in s.steering then s
      else
        s.(steering := s.steering - multiset{(thread, turn)},
           log := s.log + if ok then [ItemNotified(thread, turn, BySteer)] else [])
  }

  predicate IsPump(step: Step) {
    step.Note? || step.EndPump? || step.AnnounceEnd?
  }

  /** A step of the turn's event pump. */
  function Pumped(s: State, step: Step): State
    requires IsPump(step) && step.turn < |s.turns|
  {
    var turn := step.turn;
    var t := s.turns[turn];
    match step
    case Note(_) => if t.pump.Running? then s.(log := s.log + [ItemNotified(t.thread, turn, ByPump)]) else s
    case EndPump(_, failed) =>
      if t.pump.Running? then
        var owns := Holds(s.table, t.thread, turn);
        Set(s, turn, t.(pump := Ended(owns, if failed then Failed else Completed)))
          .(table := Without(s.table, t.thread, turn))
      else s
    case AnnounceEnd(_) =>
      if t.pump.Ended? then
        Set(s, turn, t.(pump := Gone))
          .(log := s.log + if t.pump.owns then [TurnCompleted(t.thread, turn, t.pump.status)] else [])
      else s
  }

  /** One atomic step; a step that is not possible in `s` changes nothing. */
  function Next(s: State, step: Step): State {
    if step.Ask? then s.(turns := s.turns + [Turn(step.thread, Asked, Unspawned)])
    else if IsRequest(step) then Requested(s, step)
    else if step.turn >= |s.turns| then s
    else if step.Advance? then Advanced(s, step.turn, step.ok)
    else Pumped(s, step)
  }

  function Execute(steps: seq<Step>): State {
    if steps == [] then INITIAL else Next(Execute(steps[..|steps| - 1]), steps[|steps| - 1])
  }

  // ----- One completion to give away per turn --------------------------------------------------------------

  function Starts(log: seq<Event>, turn: nat): nat {
    if log == [] then 0
    else
      var last := log[|log| - 1];
      Starts(log[..|log| - 1], turn) + if last.TurnStarted? && last.turn == turn then 1 else 0
  }

  function Completions(log: seq<Event>, turn: nat): nat {
    if log == [] then 0
    else
      var last := log[|log| - 1];
      Completions(log[..|log| - 1], turn) + if last.TurnCompleted? && last.turn == turn then 1 else 0
  }

  lemma CountsAppend(log: seq<Event>, e: Event, turn: nat)
    ensures Starts(log + [e], turn) == Starts(log, turn) + if e.TurnStarted? && e.turn == turn then 1 else 0
    ensures Completions(log + [e], turn) == Completions(log, turn) + if e.TurnCompleted? && e.turn == turn then 1 else 0
  {
    assert (log + [e])[..|log|] == log;
  }

  /** All that a step can say about one turn. */
  datatype View = View(phase: Phase, pump: Pump, held: bool, attached: bool, pending: nat, steers: nat, starts: nat, completions: nat)

  function ViewOf(s: State, turn: nat): View
    requires turn < |s.turns|
  {
    var t := s.turns[turn];
    var held := Holds(s.table, t.thread, turn);
    View(t.phase, t.pump, held, held && s.table[t.thread].attached, s.interrupting[(t.thread, turn)],
         s.steering[(t.thread, turn)], Starts(s.log, turn), Completions(s.log, turn))
  }

  /** The right to announce the completion: in the table, with an interrupt, with the pump, or already used. */
  function Tokens(v: View): nat {
    (if v.held then 1 else 0) + v.pending + (if v.pump.Ended? && v.pump.owns then 1 else 0) + v.completions
  }

  /** The turn's process is not attached yet, so nobody can interrupt or steer it. */
  predicate Early(phase: Phase) {
    phase.Asked? || phase.Reserved? || phase.Indexed? || phase.Launched?
  }

  predicate Announced(phase: Phase) {
    phase == Published || phase == Noted || phase == Answered(true)
  }

  /** What every interleaving keeps about a turn, whatever its interrupts know. */
  predicate Sound(v: View) {
    && Tokens(v) <= 1
    && (v.phase == Asked ==> Tokens(v) == 0)
    && (v.phase == Answered(false) ==> !v.held)
    && (Early(v.phase) ==> v.pending == 0 && v.steers == 0 && v.completions == 0)
    && (v.pump.Unspawned? <==> v.phase != Answered(true))
    && (v.pump.Ended? || v.pump.Gone? ==> !v.held)
    && v.starts == (if Announced(v.phase) then 1 else 0)
    && (v.held ==> (v.attached <==> v.phase.Attached? || v.phase.Sent? || Announced(v.phase)))
  }

  ghost predicate Placed(turns: seq<Turn>, thread: string, turn: nat) {
    turn < |turns| && turns[turn].thread == thread
  }

  /** Table, interrupts and log speak only of turns that were asked for, on the thread they were asked for. */
  ghost predicate AllPlaced(s: State) {
    && (forall thread | thread in s.table :: Placed(s.turns, thread, s.table[thread].turnId))
    && (forall thread, turn | (thread, turn) in s.interrupting :: Placed(s.turns, thread, turn))
    && (forall thread, turn | (thread, turn) in s.steering :: Placed(s.turns, thread, turn))
    && (forall k | 0 <= k < |s.log| :: Placed(s.turns, s.log[k].thread, s.log[k].turn))
  }

  ghost predicate Kept(s: State) {
    && AllPlaced(s)
    && forall turn | 0 <= turn < |s.turns| :: Sound(ViewOf(s, turn))
  }

  ghost predicate SameThreads(before: seq<Turn>, after: seq<Turn>) {
    |before| <= |after| && forall i | 0 <= i < |before| :: after[i].thread == before[i].thread
  }

  lemma AdvanceKeepsThreads(s: State, turn: nat, ok: bool)
    requires turn < |s.turns|
    ensures SameThreads(s.turns, Advanced(s, turn, ok).turns)
  {
  }

  lemma StepKeepsThreads(s: State, step: Step)
    ensures SameThreads(s.turns, Next(s, step).turns)
  {
    hide Advanced;
    if step.Advance? && step.turn < |s.turns| {
      AdvanceKeepsThreads(s, step.turn, step.ok);
    }
  }

  lemma PlacedInLonger(s: State, after: State)
    requires AllPlaced(s) && SameThreads(s.turns, after.turns)
    ensures forall thread | thread in s.table :: Placed(after.turns, thread, s.table[thread].turnId)
    ensures forall thread, turn | (thread, turn) in s.interrupting :: Placed(after.turns, thread, turn)
    ensures forall thread, turn | (thread, turn) in s.steering :: Placed(after.turns, thread, turn)
    ensures forall k | 0 <= k < |s.log| :: Placed(after.turns, s.log[k].thread, s.log[k].turn)
  {
  }

  /** What `before` says about turns is placed in the longer list of `after`, and `after` says one thing more at most. */
  ghost predicate Extends(s: State, after: State, thread: string, turn: nat) {
    && (forall at | at in after.table ::
          (at == thread && after.table[at].turnId == turn) || (at in s.table && after.table[at].turnId == s.table[at].turnId))
    && (forall pair | pair in after.interrupting :: pair == (thread, turn) || pair in s.interrupting)
    && (forall pair | pair in after.steering :: pair == (thread, turn) || pair in s.steering)
    && (forall k | |s.log| <= k < |after.log| :: after.log[k].thread == thread && after.log[k].turn == turn)
    && s.log <= after.log && |after.log| <= |s.log| + 1
  }

  lemma AdvanceExtends(s: State, turn: nat, ok: bool)
    requires turn < |s.turns|
    ensures Extends(s, Advanced(s, turn, ok), s.turns[turn].thread, turn)
  {
  }

  lemma PumpExtends(s: State, step: Step)
    requires IsPump(step) && step.turn < |s.turns|
    ensures Extends(s, Pumped(s, step), s.turns[step.turn].thread, step.turn)
  {
  }

  lemma RequestExtends(s: State, step: Step)
    requires IsRequest(step)
    ensures Extends(s, Requested(s, step), step.thread, step.turn)
  {
  }

  /** A request that changes anything names a turn on its own thread. */
  lemma RequestIsPlaced(s: State, step: Step)
    requires AllPlaced(s) && IsRequest(step)
    ensures Requested(s, step) == s || Placed(s.turns, step.thread, step.turn)
  {
  }

  lemma ExtensionIsPlaced(s: State, after: State, thread: string, turn: nat)
    requires AllPlaced(s) && SameThreads(s.turns, after.turns) && Extends(s, after, thread, turn) && Placed(s.turns, thread, turn)
    ensures AllPlaced(after)
  {
    PlacedInLonger(s, after);
    forall k | 0 <= k < |after.log| ensures Placed(after.turns, after.log[k].thread, after.log[k].turn) {
      assert k < |s.log| ==> after.log[k] == s.log[k];
    }
  }

  lemma StepKeepsPlaces(s: State, step: Step)
    requires AllPlaced(s)
    ensures AllPlaced(Next(s, step))
  {
    StepKeepsThreads(s, step);
    hide Advanced, Pumped, Requested, AllPlaced, Extends;
    if step.Ask? {
      PlacedInLonger(s, Next(s, step));
      NothingSaid(s, Next(s, step));
    } else if IsRequest(step) {
      RequestExtends(s, step);
      RequestIsPlaced(s, step);
      if Requested(s, step) != s {
        ExtensionIsPlaced(s, Requested(s, step), step.thread, step.turn);
      }
    } else if step.turn < |s.turns| {
      if step.Advance? {
        AdvanceExtends(s, step.turn, step.ok);
      } else {
        PumpExtends(s, step);
      }
      ExtensionIsPlaced(s, Next(s, step), s.turns[step.turn].thread, step.turn);
    }
  }

  lemma NothingSaid(s: State, after: State)
    requires AllPlaced(s) && SameThreads(s.turns, after.turns)
    requires after.table == s.table && after.interrupting == s.interrupting && after.steering == s.steering && after.log == s.log
    ensures AllPlaced(after)
  {
    PlacedInLonger(s, after);
  }

  lemma NoEventsYet(log: seq<Event>, turn: nat)
    requires forall k | 0 <= k < |log| :: log[k].turn != turn
    ensures Starts(log, turn) == 0 && Completions(log, turn) == 0
  {
  }

  lemma AdvanceLeavesOthers(s: State, turn: nat, ok: bool, other: nat)
    requires turn < |s.turns| && other < |s.turns| && turn != other
    ensures |Advanced(s, turn, ok).turns| == |s.turns|
    ensures ViewOf(Advanced(s, turn, ok), other) == ViewOf(s, other)
  {
    hide Starts, Completions;
    CountsAppend(s.log, TurnStarted(s.turns[turn].thread, turn), other);
    CountsAppend(s.log, ItemNotified(s.turns[turn].thread, turn, ByStart), other);
  }

  predicate Acts(step: Step, turn: nat) {
    !step.Ask? && step.turn == turn
  }

  lemma PumpLeavesOthers(s: State, step: Step, other: nat)
    requires IsPump(step) && step.turn < |s.turns| && other < |s.turns| && step.turn != other
    ensures |Pumped(s, step).turns| == |s.turns|
    ensures ViewOf(Pumped(s, step), other) == ViewOf(s, other)
  {
    hide Starts, Completions;
    var t := s.turns[step.turn];
    CountsAppend(s.log, ItemNotified(t.thread, step.turn, ByPump), other);
    if t.pump.Ended? {
      CountsAppend(s.log, TurnCompleted(t.thread, step.turn, t.pump.status), other);
    }
    assert s.log + [] == s.log;
  }

  lemma RequestLeavesOthers(s: State, step: Step, other: nat)
    requires IsRequest(step) && other < |s.turns| && step.turn != other
    ensures |Requested(s, step).turns| == |s.turns|
    ensures ViewOf(Requested(s, step), other) == ViewOf(s, other)
  {
    hide Starts, Completions;
    CountsAppend(s.log, TurnCompleted(step.thread, step.turn, Interrupted), other);
    CountsAppend(s.log, ItemNotified(step.thread, step.turn, BySteer), other);
    assert s.log + [] == s.log;
  }

  /** A step about one turn leaves every other turn as it was. */
  lemma OthersUntouched(s: State, step: Step, other: nat)
    requires other < |s.turns| && !Acts(step, other)
    ensures other < |Next(s, step).turns| && ViewOf(Next(s, step), other) == ViewOf(s, other)
  {
    hide Advanced, Pumped, Requested, Starts, Completions;
    if IsRequest(step) {
      RequestLeavesOthers(s, step, other);
    } else if !step.Ask? && step.turn < |s.turns| {
      if step.Advance? {
        AdvanceLeavesOthers(s, step.turn, step.ok, other);
      } else {
        PumpLeavesOthers(s, step, other);
      }
    }
  }

  lemma AdvanceStaysSound(s: State, turn: nat, ok: bool)
    requires turn < |s.turns| && Sound(ViewOf(s, turn))
    ensures |Advanced(s, turn, ok).turns| == |s.turns| && Sound(ViewOf(Advanced(s, turn, ok), turn))
  {
    hide Starts, Completions;
    CountsAppend(s.log, TurnStarted(s.turns[turn].thread, turn), turn);
    CountsAppend(s.log, ItemNotified(s.turns[turn].thread, turn, ByStart), turn);
  }

  lemma PumpStaysSound(s: State, step: Step)
    requires IsPump(step) && step.turn < |s.turns| && Sound(ViewOf(s, step.turn))
    ensures |Pumped(s, step).turns| == |s.turns| && Sound(ViewOf(Pumped(s, step), step.turn))
  {
    hide Starts, Completions;
    var turn, t := step.turn, s.turns[step.turn];
    CountsAppend(s.log, ItemNotified(t.thread, turn, ByPump), turn);
    if t.pump.Ended? {
      CountsAppend(s.log, TurnCompleted(t.thread, turn, t.pump.status), turn);
    }
    assert s.log + [] == s.log;
  }

  lemma RequestStaysSound(s: State, step: Step)
    requires IsRequest(step) && Placed(s.turns, step.thread, step.turn) && Sound(ViewOf(s, step.turn))
    ensures |Requested(s, step).turns| == |s.turns| && Sound(ViewOf(Requested(s, step), step.turn))
  {
    hide Starts, Completions;
    CountsAppend(s.log, TurnCompleted(step.thread, step.turn, Interrupted), step.turn);
    CountsAppend(s.log, ItemNotified(step.thread, step.turn, BySteer), step.turn);
    assert s.log + [] == s.log;
  }

  lemma OwnStepStaysSound(s: State, step: Step, turn: nat)
    requires AllPlaced(s) && turn < |s.turns| && Acts(step, turn) && Sound(ViewOf(s, turn))
    ensures turn < |Next(s, step).turns| && Sound(ViewOf(Next(s, step), turn))
  {
    hide Advanced, Pumped, Requested, ViewOf, Sound, Owned, AllPlaced;
    if IsRequest(step) {
      RequestIsPlaced(s, step);
      if Requested(s, step) != s {
        RequestStaysSound(s, step);
      }
    } else if step.Advance? {
      AdvanceStaysSound(s, turn, step.ok);
    } else {
      PumpStaysSound(s, step);
    }
  }

  lemma NewTurnIsSound(s: State, thread: string)
    requires AllPlaced(s)
    ensures Sound(ViewOf(Next(s, Ask(thread)), |s.turns|))
  {
    NoEventsYet(s.log, |s.turns|);
  }

  lemma StepStaysSound(s: State, step: Step, turn: nat)
    requires Kept(s) && turn < |Next(s, step).turns|
    ensures Sound(ViewOf(Next(s, step), turn))
  {
    hide Sound, ViewOf, AllPlaced, Advanced;
    if turn < |s.turns| {
      if Acts(step, turn) {
        OwnStepStaysSound(s, step, turn);
      } else {
        OthersUntouched(s, step, turn);
      }
    } else {
      OnlyAskingAdds(s, step);
      NewTurnIsSound(s, step.thread);
    }
  }

  lemma OnlyAskingAdds(s: State, step: Step)
    ensures |Next(s, step).turns| == |s.turns| + if step.Ask? then 1 else 0
  {
  }

  lemma {:induction false} RunKeeps(steps: seq<Step>)
    ensures Kept(Execute(steps))
  {
    hide Sound, ViewOf, Next;
    if steps != [] {
      var s, step := Execute(steps[..|steps| - 1]), steps[|steps| - 1];
      RunKeeps(steps[..|steps| - 1]);
      StepKeepsPlaces(s, step);
      forall turn | 0 <= turn < |Next(s, step).turns| ensures Sound(ViewOf(Next(s, step), turn)) {
        StepStaysSound(s, step, turn);
      }
    }
  }

  // ----- Safety in every run -------------------------------------------------------------------------------

  /** However starts, failures, interrupts and pumps interleave, a turn is announced at most once each way. */
  lemma {:induction false} AtMostOneCompletion(steps: seq<Step>, turn: nat)
    ensures Starts(Execute(steps).log, turn) <= 1 && Completions(Execute(steps).log, turn) <= 1
  {
    var s := Execute(steps);
    RunKeeps(steps);
    if turn < |s.turns| {
      assert Sound(ViewOf(s, turn));
    } else {
      NoEventsYet(s.log, turn);
    }
  }

  /**
   * An entry of the table leaves it only by a step of its own turn: its failing start, an interrupt naming it, or
   * its own pump. The pump of an older turn of the same thread changes nothing.
   */
  lemma OnlyItsOwnStepTakesATurn(s: State, step: Step, thread: string)
    requires AllPlaced(s) && thread in s.table
    requires !(thread in Next(s, step).table && Next(s, step).table[thread].turnId == s.table[thread].turnId)
    ensures Acts(step, s.table[thread].turnId)
    ensures thread !in Next(s, step).table
  {
  }

  lemma CompletionNamesItsOwner(s: State, step: Step)
    requires AllPlaced(s) && |Next(s, step).log| > |s.log| && Next(s, step).log[|s.log|].TurnCompleted?
    ensures var e := Next(s, step).log[|s.log|];
            && Acts(step, e.turn) && Placed(s.turns, e.thread, e.turn)
            && (if step.AnnounceInterrupt? then e.status == Interrupted && (e.thread, e.turn) in s.interrupting
                else step.AnnounceEnd? && s.turns[e.turn].pump == Ended(true, e.status))
  {
  }

  // ----- Runs whose clients name published turns ----------------------------------------------------------

  predicate NamesTurn(step: Step) {
    step.Interrupt? || step.Steer?
  }

  /** A client learns a turn id from the turn's `TurnStarted`; no interrupt and no steer guesses one. */
  ghost predicate Informed(steps: seq<Step>) {
    steps != [] ==>
      var earlier, last := steps[..|steps| - 1], steps[|steps| - 1];
      Informed(earlier) && (NamesTurn(last) ==> Starts(Execute(earlier).log, last.turn) > 0)
  }

  predicate Launching(phase: Phase) {
    phase.Reserved? || phase.Indexed? || phase.Launched? || phase.Attached? || phase.Sent?
  }

  /** A reserved turn has its right to complete until that is used; a failed one has none. */
  predicate Owned(v: View) {
    && (v.phase == Asked || v.phase == Answered(false) ==> Tokens(v) == 0)
    && (Launching(v.phase) ==> v.held)
    && (Announced(v.phase) ==> Tokens(v) == 1)
    && (v.steers > 0 ==> v.starts == 1)
  }

  lemma AdvanceStaysOwned(s: State, turn: nat, ok: bool)
    requires turn < |s.turns| && Sound(ViewOf(s, turn)) && Owned(ViewOf(s, turn))
    ensures |Advanced(s, turn, ok).turns| == |s.turns| && Owned(ViewOf(Advanced(s, turn, ok), turn))
  {
    hide Starts, Completions;
    CountsAppend(s.log, TurnStarted(s.turns[turn].thread, turn), turn);
    CountsAppend(s.log, ItemNotified(s.turns[turn].thread, turn, ByStart), turn);
  }

  lemma PumpStaysOwned(s: State, step: Step)
    requires IsPump(step) && step.turn < |s.turns| && Sound(ViewOf(s, step.turn)) && Owned(ViewOf(s, step.turn))
    ensures |Pumped(s, step).turns| == |s.turns| && Owned(ViewOf(Pumped(s, step), step.turn))
  {
    hide Starts, Completions;
    var turn, t := step.turn, s.turns[step.turn];
    CountsAppend(s.log, ItemNotified(t.thread, turn, ByPump), turn);
    if t.pump.Ended? {
      CountsAppend(s.log, TurnCompleted(t.thread, turn, t.pump.status), turn);
    }
    assert s.log + [] == s.log;
  }

  lemma RequestStaysOwned(s: State, step: Step)
    requires IsRequest(step) && Placed(s.turns, step.thread, step.turn) && Sound(ViewOf(s, step.turn)) && Owned(ViewOf(s, step.turn))
    requires NamesTurn(step) ==> Starts(s.log, step.turn) > 0
    ensures |Requested(s, step).turns| == |s.turns| && Owned(ViewOf(Requested(s, step), step.turn))
  {
    hide Starts, Completions;
    CountsAppend(s.log, TurnCompleted(step.thread, step.turn, Interrupted), step.turn);
    CountsAppend(s.log, ItemNotified(step.thread, step.turn, BySteer), step.turn);
    assert s.log + [] == s.log;
  }

  lemma OwnStepStaysOwned(s: State, step: Step, turn: nat)
    requires AllPlaced(s) && turn < |s.turns| && Acts(step, turn) && Sound(ViewOf(s, turn)) && Owned(ViewOf(s, turn))
    requires NamesTurn(step) ==> Starts(s.log, turn) > 0
    ensures turn < |Next(s, step).turns| && Owned(ViewOf(Next(s, step), turn))
  {
    hide Advanced, Pumped, Requested, ViewOf, Sound, Owned, AllPlaced;
    if IsRequest(step) {
      RequestIsPlaced(s, step);
      if Requested(s, step) != s {
        RequestStaysOwned(s, step);
      }
    } else if step.Advance? {
      AdvanceStaysOwned(s, turn, step.ok);
    } else {
      PumpStaysOwned(s, step);
    }
  }

  lemma NewTurnIsOwned(s: State, thread: string)
    requires AllPlaced(s)
    ensures Owned(ViewOf(Next(s, Ask(thread)), |s.turns|))
  {
    NoEventsYet(s.log, |s.turns|);
  }

  lemma {:induction false} InformedRunOwns(steps: seq<Step>, turn: nat)
    requires Informed(steps) && turn < |Execute(steps).turns|
    ensures Owned(ViewOf(Execute(steps), turn))
  {
    hide Sound, Owned, ViewOf, Next, AllPlaced;
    if steps != [] {
      var earlier, step := steps[..|steps| - 1], steps[|steps| - 1];
      var s := Execute(earlier);
      RunKeeps(earlier);
      OnlyAskingAdds(s, step);
      if turn == |s.turns| {
        NewTurnIsOwned(s, step.thread);
      } else {
        InformedRunOwns(earlier, turn);
        if Acts(step, turn) {
          OwnStepStaysOwned(s, step, turn);
        } else {
          OthersUntouched(s, step, turn);
        }
      }
    }
  }

  /** The reservation never disappears before the launch: the attach step cannot fail. */
  lemma {:induction false} AttachCannotFail(steps: seq<Step>, turn: nat, ok: bool)
    requires Informed(steps) && turn < |Execute(steps).turns| && Execute(steps).turns[turn].phase == Launched
    ensures turn < |Next(Execute(steps), Advance(turn, ok)).turns|
    ensures Next(Execute(steps), Advance(turn, ok)).turns[turn].phase == Attached
  {
    InformedRunOwns(steps, turn);
  }

  /** Between its reservation and its `TurnStarted`, a turn has the thread for itself. */
  lemma {:induction false} OneLaunchPerThread(steps: seq<Step>, a: nat, b: nat)
    requires Informed(steps) && a < |Execute(steps).turns| && b < |Execute(steps).turns|
    requires Execute(steps).turns[a].thread == Execute(steps).turns[b].thread
    requires Launching(Execute(steps).turns[a].phase) && Launching(Execute(steps).turns[b].phase)
    ensures a == b
  {
    InformedRunOwns(steps, a);
    InformedRunOwns(steps, b);
  }

  predicate AtRest(t: Turn) {
    t.phase.Answered? && (t.pump.Unspawned? || t.pump.Gone?)
  }

  lemma HeldTurnIsBusy(s: State, thread: string)
    requires Kept(s) && thread in s.table
    ensures s.table[thread].turnId < |s.turns| && !AtRest(s.turns[s.table[thread].turnId])
  {
    var turn := s.table[thread].turnId;
    assert Placed(s.turns, thread, turn);
    assert Sound(ViewOf(s, turn));
  }

  /** Every call has answered, every pump is gone and every interrupt has announced. */
  ghost predicate Quiescent(s: State) {
    && s.interrupting == multiset{}
    && forall turn | 0 <= turn < |s.turns| :: AtRest(s.turns[turn])
  }

  /** When everything has come to rest, every turn that started completed exactly once and every thread is free. */
  lemma {:induction false} QuiescenceIsBalanced(steps: seq<Step>)
    requires Informed(steps) && Quiescent(Execute(steps))
    ensures forall turn: nat :: Completions(Execute(steps).log, turn) == Starts(Execute(steps).log, turn) <= 1
    ensures Execute(steps).table == map[]
  {
    var s := Execute(steps);
    RunKeeps(steps);
    forall turn: nat ensures Completions(s.log, turn) == Starts(s.log, turn) <= 1 {
      if turn < |s.turns| {
        assert AtRest(s.turns[turn]) && Sound(ViewOf(s, turn));
        InformedRunOwns(steps, turn);
      } else {
        NoEventsYet(s.log, turn);
      }
    }
    forall thread ensures thread !in s.table {
      if thread in s.table {
        HeldTurnIsBusy(s, thread);
      }
    }
  }

  // ----- The order of the log --------------------------------------------------------------------------------

  /** Everything said about a turn follows its `TurnStarted`. */
  ghost predicate StartsFirst(log: seq<Event>) {
    forall k | 0 <= k < |log| && !log[k].TurnStarted? :: Starts(log[..k], log[k].turn) == 1
  }

  lemma StartsFirstAppend(log: seq<Event>, e: Event)
    requires StartsFirst(log) && (!e.TurnStarted? ==> Starts(log, e.turn) == 1)
    ensures StartsFirst(log + [e])
  {
    var all := log + [e];
    forall k | 0 <= k < |all| && !all[k].TurnStarted? ensures Starts(all[..k], all[k].turn) == 1 {
      assert all[..k] == if k < |log| then log[..k] else log;
    }
  }

  /** A step appends one event at most, and the event is about the step's turn. */
  lemma StepAppendsOne(s: State, step: Step)
    requires AllPlaced(s)
    ensures var log := Next(s, step).log;
            log == s.log || (|log| == |s.log| + 1 && log == s.log + [log[|s.log|]]
                             && Acts(step, log[|s.log|].turn) && step.turn < |s.turns|)
  {
    hide Advanced, Pumped, Requested, AllPlaced;
    if IsRequest(step) {
      RequestExtends(s, step);
      RequestIsPlaced(s, step);
    } else if !step.Ask? && step.turn < |s.turns| {
      if step.Advance? {
        AdvanceExtends(s, step.turn, step.ok);
      } else {
        PumpExtends(s, step);
      }
    }
  }

  /** A step that says something about a turn that is not its start knows that the turn was announced. */
  lemma SpeakerWasAnnounced(s: State, step: Step, turn: nat)
    requires AllPlaced(s) && turn < |s.turns| && Acts(step, turn) && Sound(ViewOf(s, turn)) && Owned(ViewOf(s, turn))
    requires |Next(s, step).log| > |s.log| && !Next(s, step).log[|s.log|].TurnStarted?
    ensures Starts(s.log, turn) == 1
  {
    var v := ViewOf(s, turn);
    assert step.AnnounceInterrupt? ==> v.pending > 0;
    assert step.AnnounceSteer? ==> v.steers > 0;
  }

  lemma {:induction false} TurnStartedComesFirst(steps: seq<Step>)
    requires Informed(steps)
    ensures StartsFirst(Execute(steps).log)
  {
    hide Sound, Owned, ViewOf, Next, AllPlaced, StartsFirst;
    if steps == [] {
      assert StartsFirst([]) by { NothingIsFirst(); }
    } else {
      var earlier, step := steps[..|steps| - 1], steps[|steps| - 1];
      var s := Execute(earlier);
      TurnStartedComesFirst(earlier);
      RunKeeps(earlier);
      StepAppendsOne(s, step);
      if Next(s, step).log != s.log {
        var e := Next(s, step).log[|s.log|];
        InformedRunOwns(earlier, e.turn);
        if !e.TurnStarted? {
          SpeakerWasAnnounced(s, step, e.turn);
        }
        StartsFirstAppend(s.log, e);
      }
    }
  }

  lemma NothingIsFirst()
    ensures StartsFirst([])
  {
  }

  // ----- What may follow a completion ------------------------------------------------------------------------

  /** Whatever the start call or the pump has still to say of the turn, it was at most interrupted. */
  ghost predicate OnlyInterrupted(log: seq<Event>, turn: nat) {
    forall k | 0 <= k < |log| && log[k].TurnCompleted? && log[k].turn == turn :: log[k].status == Interrupted
  }

  predicate PumpToCome(t: Turn) {
    t.pump.Unspawned? || t.pump.Running?
  }

  ghost predicate PumpLast(s: State) {
    forall turn | 0 <= turn < |s.turns| && PumpToCome(s.turns[turn]) :: OnlyInterrupted(s.log, turn)
  }

  /** Items that follow a completion follow an interrupt's, or are a steer's. */
  ghost predicate LateItemsExplained(log: seq<Event>) {
    forall j, k | 0 <= j < k < |log| && log[j].TurnCompleted? && log[k].ItemNotified? && log[j].turn == log[k].turn ::
      log[j].status == Interrupted || log[k].speaker == BySteer
  }

  lemma PumpStaysToCome(s: State, step: Step, turn: nat)
    requires turn < |s.turns| && Sound(ViewOf(s, turn))
    requires turn < |Next(s, step).turns| && PumpToCome(Next(s, step).turns[turn])
    ensures PumpToCome(s.turns[turn])
  {
  }

  /** An item by the start call or the pump is sent before the pump ends; a completion by the pump when it is gone. */
  lemma SpeakerState(s: State, step: Step)
    requires AllPlaced(s) && |Next(s, step).log| > |s.log|
    ensures var e := Next(s, step).log[|s.log|];
            && e.turn < |s.turns| <= |Next(s, step).turns|
            && (e.ItemNotified? && e.speaker != BySteer ==> PumpToCome(s.turns[e.turn]) || s.turns[e.turn].phase.Published?)
            && (e.TurnCompleted? && e.status != Interrupted ==> Next(s, step).turns[e.turn].pump.Gone?)
  {
    StepAppendsOne(s, step);
    hide AllPlaced;
  }

  lemma StepKeepsPumpLast(s: State, step: Step)
    requires Kept(s) && PumpLast(s)
    ensures PumpLast(Next(s, step))
  {
    hide Next, AllPlaced, Sound, ViewOf, PumpToCome;
    var after := Next(s, step);
    StepAppendsOne(s, step);
    OnlyAskingAdds(s, step);
    forall turn | 0 <= turn < |after.turns| && PumpToCome(after.turns[turn]) ensures OnlyInterrupted(after.log, turn) {
      if turn < |s.turns| {
        PumpStaysToCome(s, step, turn);
        assert OnlyInterrupted(s.log, turn);
        if after.log != s.log {
          SpeakerState(s, step);
          GoneIsGone(after, turn);
        }
      } else {
        NewTurnIsSilent(s, step);
      }
    }
  }

  lemma GoneIsGone(s: State, turn: nat)
    requires turn < |s.turns| && PumpToCome(s.turns[turn])
    ensures !s.turns[turn].pump.Gone?
  {
  }

  lemma NewTurnIsSilent(s: State, step: Step)
    requires AllPlaced(s) && step.Ask?
    ensures OnlyInterrupted(Next(s, step).log, |s.turns|)
  {
  }

  lemma PublishedIsToCome(s: State, turn: nat)
    requires turn < |s.turns| && Sound(ViewOf(s, turn)) && s.turns[turn].phase.Published?
    ensures PumpToCome(s.turns[turn])
  {
  }

  /** In every run, an item that follows a turn's completion follows an interrupt's, or a steer sent it. */
  lemma {:induction false} OnlyInterruptedOrSteeredTurnsSpeakLate(steps: seq<Step>)
    ensures LateItemsExplained(Execute(steps).log)
    ensures PumpLast(Execute(steps))
  {
    hide Next, AllPlaced, Sound, ViewOf, PumpToCome;
    if steps != [] {
      var earlier, step := steps[..|steps| - 1], steps[|steps| - 1];
      var s := Execute(earlier);
      OnlyInterruptedOrSteeredTurnsSpeakLate(earlier);
      RunKeeps(earlier);
      StepKeepsPumpLast(s, step);
      StepAppendsOne(s, step);
      if Next(s, step).log != s.log {
        SpeakerState(s, step);
        var e := Next(s, step).log[|s.log|];
        if s.turns[e.turn].phase.Published? {
          PublishedIsToCome(s, e.turn);
        }
        if e.ItemNotified? && e.speaker != BySteer {
          assert OnlyInterrupted(s.log, e.turn);
        }
      }
    }
  }

  /** The start call is past its attach and has not answered, the pump runs, or a steer that read the entry has still to write. */
  predicate CanSpeak(s: State, turn: nat) {
    && turn < |s.turns|
    && (   s.turns[turn].phase.Attached? || s.turns[turn].phase.Sent? || s.turns[turn].phase.Published? || s.turns[turn].phase.Noted?
        || s.turns[turn].pump.Running? || (s.turns[turn].thread, turn) in s.steering)
  }

  /** Position `k` is an item of the turn said after the first `n` events. */
  predicate ItemSince(log: seq<Event>, n: nat, turn: nat, k: int) {
    n <= k < |log| && log[k].ItemNotified? && log[k].turn == turn
  }

  /** The turn's call has answered, its pump has ended, nothing holds it and no steer of it is under way. */
  predicate Silent(s: State, turn: nat) {
    && turn < |s.turns| && s.turns[turn].phase.Answered? && !s.turns[turn].pump.Running?
    && (s.turns[turn].thread, turn) !in s.steering && !Holds(s.table, s.turns[turn].thread, turn)
  }

  /** The step sends no item of the turn, and the turn still cannot speak. */
  predicate SaysNothingOf(s: State, after: State, turn: nat) {
    && turn < |after.turns| && !CanSpeak(after, turn)
    && (|after.log| > |s.log| && after.log[|s.log|].turn == turn ==> !after.log[|s.log|].ItemNotified?)
  }

  lemma SilentAdvance(s: State, step: Step, turn: nat)
    requires Silent(s, turn) && step.Advance? && step.turn < |s.turns|
    ensures SaysNothingOf(s, Advanced(s, step.turn, step.ok), turn)
  {
  }

  lemma SilentPump(s: State, step: Step, turn: nat)
    requires Silent(s, turn) && IsPump(step) && step.turn < |s.turns|
    ensures SaysNothingOf(s, Pumped(s, step), turn)
  {
  }

  lemma SilentInterrupt(s: State, step: Step, turn: nat)
    requires Silent(s, turn) && (step.Interrupt? || step.AnnounceInterrupt?)
    ensures SaysNothingOf(s, Requested(s, step), turn)
  {
  }

  lemma SilentSteer(s: State, thread: string, other: nat, turn: nat)
    requires Silent(s, turn)
    ensures SaysNothingOf(s, Requested(s, Steer(thread, other)), turn)
  {
  }

  lemma SilentAnnounceSteer(s: State, step: Step, turn: nat)
    requires Silent(s, turn) && step.AnnounceSteer? && Placed(s.turns, step.thread, step.turn)
    ensures SaysNothingOf(s, Requested(s, step), turn)
  {
    if turn == step.turn {
      assert Requested(s, step) == s;
    } else {
      assert (s.turns[turn].thread, turn) !in Requested(s, step).steering;
    }
  }

  lemma SilentRequest(s: State, step: Step, turn: nat)
    requires Silent(s, turn) && IsRequest(step) && Placed(s.turns, step.thread, step.turn)
    ensures SaysNothingOf(s, Requested(s, step), turn)
  {
    hide Silent, SaysNothingOf, Requested;
    match step
    case Interrupt(_, _) => SilentInterrupt(s, step, turn);
    case AnnounceInterrupt(_, _) => SilentInterrupt(s, step, turn);
    case Steer(thread, other) => SilentSteer(s, thread, other, turn);
    case AnnounceSteer(_, _, _) => SilentAnnounceSteer(s, step, turn);
  }

  lemma SilentStep(s: State, step: Step, turn: nat)
    requires AllPlaced(s) && Silent(s, turn)
    ensures SaysNothingOf(s, Next(s, step), turn)
  {
    hide Advanced, Pumped, Requested, AllPlaced;
    if IsRequest(step) {
      RequestIsPlaced(s, step);
      if Requested(s, step) != s {
        SilentRequest(s, step, turn);
      }
    } else if !step.Ask? && step.turn < |s.turns| {
      if step.Advance? {
        SilentAdvance(s, step, turn);
      } else {
        SilentPump(s, step, turn);
      }
    }
  }

  lemma CompletedIsSilent(s: State, turn: nat)
    requires turn < |s.turns| && Sound(ViewOf(s, turn)) && Completions(s.log, turn) > 0 && !CanSpeak(s, turn)
    ensures Silent(s, turn)
  {
  }

  lemma NoItemYet(log: seq<Event>, turn: nat)
    ensures forall k :: !ItemSince(log, |log|, turn, k)
  {
  }

  lemma NoItemAppended(log: seq<Event>, e: Event, n: nat, turn: nat)
    requires forall k :: !ItemSince(log, n, turn, k)
    requires e.turn == turn ==> !e.ItemNotified?
    ensures forall k :: !ItemSince(log + [e], n, turn, k)
  {
    forall k ensures !ItemSince(log + [e], n, turn, k) {
      assert !ItemSince(log, n, turn, k);
    }
  }

  /** A completed turn that cannot speak never can again. */
  lemma {:induction false} SilenceLasts(steps: seq<Step>, more: seq<Step>, turn: nat)
    requires turn < |Execute(steps).turns| && Completions(Execute(steps).log, turn) > 0 && !CanSpeak(Execute(steps), turn)
    ensures var s, t := Execute(steps), Execute(steps + more);
            && s.log <= t.log && turn < |t.turns| && Completions(t.log, turn) > 0 && !CanSpeak(t, turn)
            && forall k :: !ItemSince(t.log, |s.log|, turn, k)
  {
    hide Next, CanSpeak, Completions, AllPlaced, Sound, ViewOf, Silent, ItemSince, Acts;
    var s := Execute(steps);
    if more == [] {
      assert steps + more == steps;
      NoItemYet(s.log, turn);
    } else {
      var earlier, step := more[..|more| - 1], more[|more| - 1];
      assert (steps + more)[..|steps + more| - 1] == steps + earlier;
      SilenceLasts(steps, earlier, turn);
      RunKeeps(steps + earlier);
      var t := Execute(steps + earlier);
      CompletedIsSilent(t, turn);
      SilentStep(t, step, turn);
      StepAppendsOne(t, step);
      var after := Execute(steps + more);
      if after.log != t.log {
        CountsAppend(t.log, after.log[|t.log|], turn);
        NoItemAppended(t.log, after.log[|t.log|], |s.log|, turn);
      }
    }
  }

  /** How many steps the start call needs before its turn's next item. */
  function StepsBefore(t: Turn): nat {
    if t.phase.Attached? then 2 else if t.phase.Sent? || t.phase.Noted? then 1 else 0
  }

  /** Each of the ways to speak is open: a continuation in which the turn gets an item. */
  lemma {:induction false} SpeakersSpeak(steps: seq<Step>, turn: nat) returns (more: seq<Step>, k: nat)
    requires CanSpeak(Execute(steps), turn)
    ensures ItemSince(Execute(steps + more).log, |Execute(steps).log|, turn, k)
    decreases StepsBefore(Execute(steps).turns[turn])
  {
    hide Execute;
    var s := Execute(steps);
    var t := s.turns[turn];
    if (t.thread, turn) in s.steering {
      more, k := [AnnounceSteer(t.thread, turn, true)], |s.log|;
    } else if t.phase.Published? {
      more, k := [Advance(turn, true)], |s.log|;
    } else if StepsBefore(t) == 0 {
      more, k := [Note(turn)], |s.log|;
    } else {
      Extend(steps, Advance(turn, true));
      var rest;
      rest, k := SpeakersSpeak(steps + [Advance(turn, true)], turn);
      more := [Advance(turn, true)] + rest;
      assert steps + more == (steps + [Advance(turn, true)]) + rest;
      return;
    }
    Extend(steps, more[0]);
  }

  /** Some continuation brings an item of the turn. */
  ghost predicate WillHear(steps: seq<Step>, turn: nat) {
    exists more, k :: ItemSince(Execute(steps + more).log, |Execute(steps).log|, turn, k)
  }

  /**
   * After its completion a turn may still get items exactly when its start call or its pump has not finished, and
   * then the completion was an interrupt's, or when a steer that read the entry has not yet written.
   */
  lemma {:induction false} LateItemsExactly(steps: seq<Step>, turn: nat)
    requires Completions(Execute(steps).log, turn) > 0
    ensures WillHear(steps, turn) <==> CanSpeak(Execute(steps), turn)
    ensures CanSpeak(Execute(steps), turn) ==>
              var s := Execute(steps);
              OnlyInterrupted(s.log, turn) || (s.turns[turn].thread, turn) in s.steering
  {
    hide Next, Completions, AllPlaced;
    var s := Execute(steps);
    RunKeeps(steps);
    OnlyInterruptedOrSteeredTurnsSpeakLate(steps);
    if turn >= |s.turns| {
      NoEventsAtAll(s, turn);
    }
    assert Sound(ViewOf(s, turn));
    if CanSpeak(s, turn) {
      var more, k := SpeakersSpeak(steps, turn);
    } else {
      forall more, k ensures !ItemSince(Execute(steps + more).log, |s.log|, turn, k) {
        SilenceLasts(steps, more, turn);
      }
    }
  }

  lemma NoEventsAtAll(s: State, turn: nat)
    requires AllPlaced(s) && turn >= |s.turns|
    ensures Completions(s.log, turn) == 0
  {
    NoEventsYet(s.log, turn);
  }

  // ----- Where completions and steers come from --------------------------------------------------------------

  /** At step `m` the turn was in the table, attached, and `step` was done on it. */
  ghost predicate DoneWhileHeld(steps: seq<Step>, m: int, step: Step, thread: string, turn: nat) {
    0 <= m < |steps| && steps[m] == step && ReplyToTurnId(Execute(steps[..m]).table, thread, turn) == Accepted
  }

  lemma DoneEarlier(steps: seq<Step>, last: Step, m: int, step: Step, thread: string, turn: nat)
    requires DoneWhileHeld(steps, m, step, thread, turn)
    ensures DoneWhileHeld(steps + [last], m, step, thread, turn)
  {
    assert (steps + [last])[..m] == steps[..m];
  }

  /** An interrupt that owes its announcement took the turn, and a steer that owes its item read it, while it was held. */
  lemma {:induction false} RequestsReadTheTable(steps: seq<Step>, thread: string, turn: nat)
    ensures (thread, turn) in Execute(steps).interrupting ==> exists m :: DoneWhileHeld(steps, m, Interrupt(thread, turn), thread, turn)
    ensures (thread, turn) in Execute(steps).steering ==> exists m :: DoneWhileHeld(steps, m, Steer(thread, turn), thread, turn)
  {
    hide Advanced, Pumped, ReplyToTurnId;
    if steps != [] {
      var earlier, step := steps[..|steps| - 1], steps[|steps| - 1];
      var s := Execute(earlier);
      RequestsReadTheTable(earlier, thread, turn);
      RequestsOnly(s, step);
      assert earlier + [step] == steps;
      if (thread, turn) in Execute(steps).interrupting {
        if (thread, turn) in s.interrupting {
          var m :| DoneWhileHeld(earlier, m, Interrupt(thread, turn), thread, turn);
          DoneEarlier(earlier, step, m, Interrupt(thread, turn), thread, turn);
        } else {
          assert DoneWhileHeld(steps, |earlier|, Interrupt(thread, turn), thread, turn);
        }
      }
      if (thread, turn) in Execute(steps).steering {
        if (thread, turn) in s.steering {
          var m :| DoneWhileHeld(earlier, m, Steer(thread, turn), thread, turn);
          DoneEarlier(earlier, step, m, Steer(thread, turn), thread, turn);
        } else {
          assert DoneWhileHeld(steps, |earlier|, Steer(thread, turn), thread, turn);
        }
      }
    }
  }

  lemma RequestsOnly(s: State, step: Step)
    ensures !IsRequest(step) ==> Next(s, step).interrupting == s.interrupting && Next(s, step).steering == s.steering
  {
  }

  /** A pump that owns its turn's completion ended while the turn was in the table, and took it out. */
  ghost predicate PumpTook(steps: seq<Step>, m: int, thread: string, turn: nat, failed: bool) {
    && 0 <= m < |steps| && steps[m] == EndPump(turn, failed)
    && Holds(Execute(steps[..m]).table, thread, turn) && !Holds(Execute(steps[..m + 1]).table, thread, turn)
  }

  lemma TookEarlier(steps: seq<Step>, last: Step, m: int, thread: string, turn: nat, failed: bool)
    requires PumpTook(steps, m, thread, turn, failed)
    ensures PumpTook(steps + [last], m, thread, turn, failed)
  {
    assert (steps + [last])[..m] == steps[..m] && (steps + [last])[..m + 1] == steps[..m + 1];
  }

  lemma TookLast(steps: seq<Step>, thread: string, turn: nat, failed: bool)
    requires Holds(Execute(steps).table, thread, turn)
    requires !Holds(Execute(steps + [EndPump(turn, failed)]).table, thread, turn)
    ensures PumpTook(steps + [EndPump(turn, failed)], |steps|, thread, turn, failed)
  {
    hide Execute, Holds;
    var all := steps + [EndPump(turn, failed)];
    assert all[..|steps|] == steps && all[..|steps| + 1] == all;
  }

  lemma {:induction false} PumpsTookTheirTurn(steps: seq<Step>, turn: nat)
    requires turn < |Execute(steps).turns| && Execute(steps).turns[turn].pump.Ended? && Execute(steps).turns[turn].pump.owns
    ensures var t := Execute(steps).turns[turn];
            exists m, failed :: PumpTook(steps, m, t.thread, turn, failed) && t.pump.status == if failed then Failed else Completed
  {
    var earlier, step := steps[..|steps| - 1], steps[|steps| - 1];
    var s, t := Execute(earlier), Execute(steps).turns[turn];
    assert Execute(steps) == Next(s, step) && earlier + [step] == steps;
    PumpKept(s, step, turn);
    hide Next, Execute, Holds, PumpTook;
    if s.turns[turn].pump == t.pump {
      PumpsTookTheirTurn(earlier, turn);
      var m, failed :| PumpTook(earlier, m, t.thread, turn, failed) && t.pump.status == if failed then Failed else Completed;
      TookEarlier(earlier, step, m, t.thread, turn, failed);
    } else {
      TookLast(earlier, t.thread, turn, step.failed);
    }
  }

  lemma PumpKept(s: State, step: Step, turn: nat)
    requires turn < |Next(s, step).turns| && Next(s, step).turns[turn].pump.Ended? && Next(s, step).turns[turn].pump.owns
    ensures turn < |s.turns| && Next(s, step).turns[turn].thread == s.turns[turn].thread
    ensures || s.turns[turn].pump == Next(s, step).turns[turn].pump
            || (step.EndPump? && step.turn == turn && Holds(s.table, s.turns[turn].thread, turn)
                && !Holds(Next(s, step).table, s.turns[turn].thread, turn)
                && Next(s, step).turns[turn].pump.status == if step.failed then Failed else Completed)
  {
  }

  /**
   * Every completion announced in a run comes from whoever took the turn out of the table: an interrupt that found
   * it attached, or the turn's own pump, and then the status says how the pump ended.
   */
  lemma {:induction false} CompletionTookItsTurn(steps: seq<Step>, step: Step)
    requires var s := Execute(steps); |Next(s, step).log| > |s.log| && Next(s, step).log[|s.log|].TurnCompleted?
    ensures var s := Execute(steps);
            var e := Next(s, step).log[|s.log|];
            if e.status == Interrupted then exists m :: DoneWhileHeld(steps, m, Interrupt(e.thread, e.turn), e.thread, e.turn)
            else exists m, failed :: PumpTook(steps, m, e.thread, e.turn, failed) && e.status == if failed then Failed else Completed
  {
    var s := Execute(steps);
    RunKeeps(steps);
    CompletionNamesItsOwner(s, step);
    var e := Next(s, step).log[|s.log|];
    hide Next, AllPlaced;
    if step.AnnounceInterrupt? {
      RequestsReadTheTable(steps, e.thread, e.turn);
    } else {
      PumpsTookTheirTurn(steps, e.turn);
    }
  }

  // ----- What the assumption and the races allow -------------------------------------------------------------

  lemma Extend(steps: seq<Step>, step: Step)
    ensures Execute(steps + [step]) == Next(Execute(steps), step)
  {
    assert (steps + [step])[..|steps|] == steps;
  }

  function ToAttached(thread: string, turn: nat): seq<Step> {
    [Ask(thread), Advance(turn, true), Advance(turn, true), Advance(turn, true), Advance(turn, true)]
  }

  lemma AttachedAfter(thread: string)
    ensures Execute(ToAttached(thread, 0)) ==
            State(map[thread := ActiveTurn(0, true)], [Turn(thread, Attached, Unspawned)], multiset{}, multiset{}, [])
  {
    hide Execute;
    EmptyRun();
    var go := Advance(0, true);
    var s1 := [] + [Ask(thread)];
    var s2 := s1 + [go];
    var s3 := s2 + [go];
    var s4 := s3 + [go];
    Extend([], Ask(thread)); Extend(s1, go); Extend(s2, go); Extend(s3, go); Extend(s4, go);
    assert Execute(s3) == State(map[thread := ActiveTurn(0, false)], [Turn(thread, Indexed, Unspawned)], multiset{}, multiset{}, []);
    assert s4 + [go] == ToAttached(thread, 0);
  }

  lemma EmptyRun()
    ensures Execute([]) == INITIAL
  {
  }

  /** An interrupt that guessed the id would complete a turn before it started. */
  lemma GuessedInterruptCompletesTooEarly(thread: string) returns (steps: seq<Step>)
    ensures Execute(steps).log == [TurnCompleted(thread, 0, Interrupted), TurnStarted(thread, 0)]
    ensures !Informed(steps)
  {
    hide Execute;
    var s0 := ToAttached(thread, 0);
    var s1 := s0 + [Interrupt(thread, 0)];
    var s2 := s1 + [AnnounceInterrupt(thread, 0)];
    var s3 := s2 + [Advance(0, true)];
    steps := s3 + [Advance(0, true)];
    AttachedAfter(thread);
    Extend(s0, Interrupt(thread, 0));
    assert Execute(s1) == State(map[], [Turn(thread, Attached, Unspawned)], multiset{(thread, 0)}, multiset{}, []);
    Extend(s1, AnnounceInterrupt(thread, 0));
    assert Execute(s2) == State(map[], [Turn(thread, Attached, Unspawned)], multiset{}, multiset{}, [TurnCompleted(thread, 0, Interrupted)]);
    Extend(s2, Advance(0, true));
    Extend(s3, Advance(0, true));
    NotStartedFirst(Execute(steps).log);
    if Informed(steps) {
      TurnStartedComesFirst(steps);
    }
  }

  lemma NotStartedFirst(log: seq<Event>)
    requires log != [] && !log[0].TurnStarted?
    ensures !StartsFirst(log)
  {
    assert log[..0] == [];
  }

  function ToRunning(thread: string): seq<Step> {
    var go := Advance(0, true);
    ToAttached(thread, 0) + [go] + [go] + [go] + [go]
  }

  lemma RunningAfter(thread: string)
    ensures Execute(ToRunning(thread)) ==
            State(map[thread := ActiveTurn(0, true)], [Turn(thread, Answered(true), Running)], multiset{}, multiset{},
                  [TurnStarted(thread, 0), ItemNotified(thread, 0, ByStart)])
    ensures Informed(ToRunning(thread))
  {
    hide Execute, Informed;
    var go := Advance(0, true);
    var s0 := ToAttached(thread, 0);
    var s1 := s0 + [go];
    var s2 := s1 + [go];
    var s3 := s2 + [go];
    AttachedAfter(thread);
    Extend(s0, go); Extend(s1, go); Extend(s2, go); Extend(s3, go);
    AttachedIsInformed(thread);
    InformedExtend(s0, go); InformedExtend(s1, go); InformedExtend(s2, go); InformedExtend(s3, go);
  }

  /** A steer that read the entry before the pump's own completion speaks after it, in a run where nobody guesses. */
  lemma SteerSpeaksAfterTheTurn(thread: string) returns (steps: seq<Step>)
    ensures Execute(steps).log == [TurnStarted(thread, 0), ItemNotified(thread, 0, ByStart),
                                   TurnCompleted(thread, 0, Completed), ItemNotified(thread, 0, BySteer)]
    ensures Informed(steps)
  {
    hide Execute, Informed;
    var s4 := ToRunning(thread);
    var s5 := s4 + [Steer(thread, 0)];
    var s6 := s5 + [EndPump(0, false)];
    var s7 := s6 + [AnnounceEnd(0)];
    steps := s7 + [AnnounceSteer(thread, 0, true)];
    RunningAfter(thread);
    var log := [TurnStarted(thread, 0), ItemNotified(thread, 0, ByStart)];
    var end := log + [TurnCompleted(thread, 0, Completed)];
    Extend(s4, Steer(thread, 0));
    Extend(s5, EndPump(0, false));
    assert Execute(s6) == State(map[], [Turn(thread, Answered(true), Ended(true, Completed))], multiset{}, multiset{(thread, 0)}, log);
    Extend(s6, AnnounceEnd(0));
    assert Execute(s7) == State(map[], [Turn(thread, Answered(true), Gone)], multiset{}, multiset{(thread, 0)}, end);
    Extend(s7, AnnounceSteer(thread, 0, true));
    assert Execute(steps).log == end + [ItemNotified(thread, 0, BySteer)];
    hide Next;
    StartedOnce(thread);
    InformedExtend(s4, Steer(thread, 0));
    InformedExtend(s5, EndPump(0, false)); InformedExtend(s6, AnnounceEnd(0)); InformedExtend(s7, AnnounceSteer(thread, 0, true));
  }

  lemma StartedOnce(thread: string)
    ensures Starts([TurnStarted(thread, 0), ItemNotified(thread, 0, ByStart)], 0) == 1
  {
    var log := [TurnStarted(thread, 0), ItemNotified(thread, 0, ByStart)];
    assert log[..1] == [TurnStarted(thread, 0)] && Starts(log[..1], 0) == 1;
  }

  lemma InformedExtend(steps: seq<Step>, step: Step)
    requires Informed(steps) && (NamesTurn(step) ==> Starts(Execute(steps).log, step.turn) > 0)
    ensures Informed(steps + [step])
  {
    assert (steps + [step])[..|steps|] == steps;
  }

  lemma AttachedIsInformed(thread: string)
    ensures Informed(ToAttached(thread, 0))
  {
    UnnamedIsInformed(ToAttached(thread, 0));
  }

  lemma {:induction false} UnnamedIsInformed(steps: seq<Step>)
    requires forall k | 0 <= k < |steps| :: !NamesTurn(steps[k])
    ensures Informed(steps)
  {
    if steps != [] {
      UnnamedIsInformed(steps[..|steps| - 1]);
    }
  }
}
