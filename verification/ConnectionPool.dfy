/**
 * The pool of device connections (web/connections.js): dialing with attempt guards, a soft and a retry timer per record,
 * backoff, reconnect, drop and destroy. Every stretch of code between two awaits is one step, and every interleaving
 * of dials, failures, closes, timers and calls is a run. A dial and the transport it yields share one number.
 */
module ConnectionPool {
  import opened Prelude

  const BACKOFF_BASE_MS: nat := 1000
  const BACKOFF_MAX_MS: nat := 30000

  datatype Status = Connecting | Connected | Offline | Expired | NoAgent

  datatype Record = Record(dev: string, status: Status, attempt: nat, backoffMs: nat, transport: Option<nat>,
                           rpc: Option<nat>, retryTimer: Option<nat>, softTimer: Option<nat>)

  datatype Phase = Dialing | Initializing | Over

  /** What became of the transport: not there yet, open, closed by the pool, closed by the peer. */
  datatype Link = NotYet | Open | ClosedHere | ClosedThere

  datatype Dial = Dial(record: nat, attempt: nat, phase: Phase, link: Link)

  datatype Timer = Retry(record: nat) | Soft(record: nat, attempt: nat)

  datatype State = State(disposed: bool, conns: map<string, nat>, records: seq<Record>, dials: seq<Dial>,
                         timers: seq<Timer>, armed: set<nat>)

  const INITIAL: State := State(false, map[], [], [], [], {})

  datatype Failure = PairingExpired | NoSupportedAgent | OtherFailure

  // ----- What each piece of code does ----------------------------------------------------------------------

  predicate Registered(s: State, r: nat) {
    r < |s.records| && s.records[r].dev in s.conns && s.conns[s.records[r].dev] == r
  }

  /** The guard every callback of a dial checks. */
  predicate Current(s: State, d: nat) {
    && d < |s.dials| && !s.disposed && Registered(s, s.dials[d].record)
    && s.records[s.dials[d].record].attempt == s.dials[d].attempt
  }

  function SetRecord(s: State, r: nat, record: Record): State
    requires r < |s.records|
  {
    s.(records := s.records[r := record])
  }

  function SetDial(s: State, d: nat, phase: Phase, link: Link): State
    requires d < |s.dials|
  {
    s.(dials := s.dials[d := s.dials[d].(phase := phase, link := link)])
  }

  function Mark(s: State, r: nat, status: Status): State
    requires r < |s.records|
  {
    SetRecord(s, r, s.records[r].(status := status))
  }

  function Cleared(armed: set<nat>, timer: Option<nat>): set<nat> {
    if timer.Some? then armed - {timer.value} else armed
  }

  /** `dial` up to its first await. */
  function Dialed(s: State, r: nat): State
    requires r < |s.records|
  {
    if s.disposed || !Registered(s, r) then s
    else
      var was, timer := s.records[r], |s.timers|;
      SetRecord(s, r, was.(attempt := was.attempt + 1, status := Connecting, softTimer := Some(timer)))
        .(timers := s.timers + [Soft(r, was.attempt + 1)], armed := Cleared(s.armed, was.softTimer) + {timer},
          dials := s.dials + [Dial(r, was.attempt + 1, Dialing, NotYet)])
  }

  function Scheduled(s: State, r: nat): State
    requires r < |s.records|
  {
    if s.disposed || s.records[r].retryTimer.Some? || !Registered(s, r) then s
    else
      var was, timer := s.records[r], |s.timers|;
      var doubled := if was.backoffMs * 2 < BACKOFF_MAX_MS then was.backoffMs * 2 else BACKOFF_MAX_MS;
      SetRecord(s, r, was.(backoffMs := doubled, retryTimer := Some(timer)))
        .(timers := s.timers + [Retry(r)], armed := s.armed + {timer})
  }

  function NewRecord(id: string): Record {
    Record(id, Connecting, 0, BACKOFF_BASE_MS, None, None, None, None)
  }

  function WithRecord(s: State, id: string): State {
    if id in s.conns then s else s.(conns := s.conns[id := |s.records|], records := s.records + [NewRecord(id)])
  }

  function WithoutRetry(s: State, r: nat, resetBackoff: bool): State
    requires r < |s.records|
  {
    var was := s.records[r];
    SetRecord(s, r, was.(backoffMs := if resetBackoff then BACKOFF_BASE_MS else was.backoffMs, retryTimer := None))
      .(armed := Cleared(s.armed, was.retryTimer))
  }

  function DeviceConnected(s: State, id: string, resetBackoff: bool): State {
    if s.disposed then s
    else
      var t := WithRecord(s, id);
      if t.conns[id] < |t.records| then Dialed(WithoutRetry(t, t.conns[id], resetBackoff), t.conns[id]) else t
  }

  /** Closing a transport from here; the peer's close callback stays silent afterwards. */
  function ClosedTransport(dials: seq<Dial>, transport: Option<nat>): seq<Dial> {
    if transport.Some? && transport.value < |dials| && dials[transport.value].link.Open?
    then dials[transport.value := dials[transport.value].(link := ClosedHere)] else dials
  }

  /** What `reconnect` and `dropConnection` share: both timers, the transport and the attempt are given up. */
  function Released(s: State, r: nat): State
    requires r < |s.records|
  {
    var was := s.records[r];
    SetRecord(s, r, was.(attempt := was.attempt + 1, retryTimer := None, softTimer := None, transport := None, rpc := None))
      .(armed := Cleared(Cleared(s.armed, was.retryTimer), was.softTimer), dials := ClosedTransport(s.dials, was.transport))
  }

  function Reconnected(s: State, r: nat, resetBackoff: bool): State {
    if s.disposed || !Registered(s, r) then s
    else
      var released := Released(s, r);
      var t := if resetBackoff then SetRecord(released, r, released.records[r].(backoffMs := BACKOFF_BASE_MS)) else released;
      Dialed(t, r)
  }

  function Dropped(s: State, id: string): State {
    if id !in s.conns || s.conns[id] >= |s.records| then s
    else Released(s, s.conns[id]).(conns := s.conns - {id})
  }

  function AllDropped(s: State, ids: seq<string>): State {
    if ids == [] then s else Dropped(AllDropped(s, ids[..|ids| - 1]), ids[|ids| - 1])
  }

  function Destroyed(s: State, ids: seq<string>): State {
    if s.disposed then s else AllDropped(s.(disposed := true), ids)
  }

  /** `connect` resolves with an open transport, unless that was closed before the dial could look. */
  function TransportArrived(s: State, d: nat): State
    requires d < |s.dials|
  {
    var arrived := if s.dials[d].link.NotYet? then Open else s.dials[d].link;
    if !Current(s, d) then SetDial(s, d, Over, if arrived.Open? then ClosedHere else arrived)
    else
      var r := s.dials[d].record;
      SetRecord(SetDial(s, d, Initializing, arrived), r, s.records[r].(transport := Some(d), rpc := Some(d)))
  }

  function Ready(s: State, d: nat): State
    requires d < |s.dials|
  {
    var t := SetDial(s, d, Over, s.dials[d].link);
    if !Current(s, d) then t
    else
      var r := s.dials[d].record;
      SetRecord(t, r, s.records[r].(backoffMs := BACKOFF_BASE_MS, status := Connected))
        .(armed := Cleared(s.armed, s.records[r].softTimer))
  }

  function Failed(s: State, d: nat, failure: Failure): State
    requires d < |s.dials|
  {
    var t := SetDial(s, d, Over, s.dials[d].link);
    if !Current(s, d) then t
    else
      var r := s.dials[d].record;
      var cleared := t.(armed := Cleared(s.armed, s.records[r].softTimer));
      match failure
      case PairingExpired => Mark(cleared, r, Expired)
      case NoSupportedAgent => Mark(cleared, r, NoAgent)
      case OtherFailure => Scheduled(Mark(cleared, r, Offline), r)
  }

  function PeerClosed(s: State, d: nat): State
    requires d < |s.dials|
  {
    var t := SetDial(s, d, s.dials[d].phase, ClosedThere);
    if !Current(s, d) then t
    else Scheduled(Mark(t, s.dials[d].record, Offline), s.dials[d].record)
  }

  function Fired(s: State, timer: nat): State
    requires timer < |s.timers|
  {
    var t := s.(armed := s.armed - {timer});
    match s.timers[timer]
    case Retry(r) =>
      if r < |s.records| then Dialed(SetRecord(t, r, s.records[r].(retryTimer := None)), r) else t
    case Soft(r, attempt) =>
      if r < |s.records| && s.records[r].attempt == attempt && s.records[r].status.Connecting? then Mark(t, r, Offline) else t
  }

  // ----- The pool, updating its records in place -----------------------------------------------------------

  class Pool {
    var disposed: bool
    var conns: map<string, nat>
    var records: seq<Record>
    var dials: seq<Dial>
    var timers: seq<Timer>
    var armed: set<nat>

    ghost function View(): State
      reads this
    {
      State(disposed, conns, records, dials, timers, armed)
    }

    constructor ()
      ensures View() == INITIAL
    {
      disposed, conns, records, dials, timers, armed := false, map[], [], [], [], {};
    }

    method ClearTimeout(timer: Option<nat>)
      modifies this`armed
      ensures armed == Cleared(old(armed), timer)
    {
      if timer.Some? {
        armed := armed - {timer.value};
      }
    }

    method SetTimeout(timer: Timer) returns (handle: nat)
      modifies this`timers, this`armed
      ensures handle == old(|timers|) && timers == old(timers) + [timer] && armed == old(armed) + {handle}
    {
      handle := |timers|;
      timers := timers + [timer];
      armed := armed + {handle};
    }

    method DialDevice(r: nat)
      requires r < |records|
      modifies this
      ensures View() == Dialed(old(View()), r)
    {
      if disposed || records[r].dev !in conns || conns[records[r].dev] != r { return; }
      var attempt := records[r].attempt + 1;
      records := records[r := records[r].(attempt := attempt)];
      records := records[r := records[r].(status := Connecting)];
      ClearTimeout(records[r].softTimer);
      var timer := SetTimeout(Soft(r, attempt));
      records := records[r := records[r].(softTimer := Some(timer))];
      dials := dials + [Dial(r, attempt, Dialing, NotYet)];
    }

    method ScheduleReconnect(r: nat)
      requires r < |records|
      modifies this
      ensures View() == Scheduled(old(View()), r)
    {
      if disposed || records[r].retryTimer.Some? || records[r].dev !in conns || conns[records[r].dev] != r { return; }
      var doubled := records[r].backoffMs * 2;
      if doubled > BACKOFF_MAX_MS {
        doubled := BACKOFF_MAX_MS;
      }
      records := records[r := records[r].(backoffMs := doubled)];
      var timer := SetTimeout(Retry(r));
      records := records[r := records[r].(retryTimer := Some(timer))];
    }

    method ConnectDevice(id: string, resetBackoff: bool) returns (r: Option<nat>)
      requires id in conns ==> conns[id] < |records|
      modifies this
      ensures View() == DeviceConnected(old(View()), id, resetBackoff)
      ensures r == if old(disposed) then None else Some(conns[id])
    {
      if disposed { return None; }
      if id !in conns {
        conns := conns[id := |records|];
        records := records + [NewRecord(id)];
      }
      var c := conns[id];
      if resetBackoff {
        records := records[c := records[c].(backoffMs := BACKOFF_BASE_MS)];
      }
      ClearTimeout(records[c].retryTimer);
      records := records[c := records[c].(retryTimer := None)];
      DialDevice(c);
      r := Some(c);
    }

    /** Gives up attempt, timers and transport of a record. */
    method Release(r: nat)
      requires r < |records|
      modifies this
      ensures View() == Released(old(View()), r)
    {
      records := records[r := records[r].(attempt := records[r].attempt + 1)];
      ClearTimeout(records[r].retryTimer);
      ClearTimeout(records[r].softTimer);
      records := records[r := records[r].(retryTimer := None, softTimer := None)];
      var transport := records[r].transport;
      records := records[r := records[r].(transport := None, rpc := None)];
      if transport.Some? && transport.value < |dials| && dials[transport.value].link.Open? {
        dials := dials[transport.value := dials[transport.value].(link := ClosedHere)];
      }
    }

    method ReconnectDevice(r: nat, resetBackoff: bool)
      modifies this
      ensures View() == Reconnected(old(View()), r, resetBackoff)
    {
      if disposed || r >= |records| || records[r].dev !in conns || conns[records[r].dev] != r { return; }
      Release(r);
      if resetBackoff {
        records := records[r := records[r].(backoffMs := BACKOFF_BASE_MS)];
      }
      DialDevice(r);
    }

    method DropConnection(id: string)
      modifies this
      ensures View() == Dropped(old(View()), id)
    {
      if id !in conns || conns[id] >= |records| { return; }
      Release(conns[id]);
      conns := conns - {id};
    }

    method DestroyAll(ids: seq<string>)
      requires Enumerates(ids, conns.Keys)
      modifies this
      ensures View() == Destroyed(old(View()), ids)
    {
      if disposed { return; }
      disposed := true;
      ghost var start := View();
      for k := 0 to |ids|
        invariant View() == AllDropped(start, ids[..k])
      {
        assert ids[..k + 1][..k] == ids[..k];
        DropConnection(ids[k]);
      }
      assert ids[..|ids|] == ids;
    }

    predicate IsCurrent(d: nat)
      requires d < |dials|
      reads this
      ensures IsCurrent(d) == Current(View(), d)
    {
      var r := dials[d].record;
      !disposed && r < |records| && records[r].attempt == dials[d].attempt && records[r].dev in conns && conns[records[r].dev] == r
    }

    /** The continuation of `await connect(..)`. */
    method OnTransport(d: nat)
      requires d < |dials|
      modifies this
      ensures View() == TransportArrived(old(View()), d)
    {
      var arrived := if dials[d].link.NotYet? then Open else dials[d].link;
      if !IsCurrent(d) {
        dials := dials[d := dials[d].(phase := Over, link := if arrived.Open? then ClosedHere else arrived)];
        return;
      }
      var r := dials[d].record;
      records := records[r := records[r].(transport := Some(d))];
      records := records[r := records[r].(rpc := Some(d))];
      dials := dials[d := dials[d].(phase := Initializing, link := arrived)];
    }

    /** The continuation of `await rpc.initialize()`. */
    method OnInitialized(d: nat)
      requires d < |dials|
      modifies this
      ensures View() == Ready(old(View()), d)
    {
      var current, r := IsCurrent(d), dials[d].record;
      dials := dials[d := dials[d].(phase := Over)];
      if !current { return; }
      ClearTimeout(records[r].softTimer);
      records := records[r := records[r].(backoffMs := BACKOFF_BASE_MS)];
      records := records[r := records[r].(status := Connected)];
    }

    /** The dial's catch block. */
    method OnFailure(d: nat, failure: Failure)
      requires d < |dials|
      modifies this
      ensures View() == Failed(old(View()), d, failure)
    {
      var current, r := IsCurrent(d), dials[d].record;
      dials := dials[d := dials[d].(phase := Over)];
      if !current { return; }
      ClearTimeout(records[r].softTimer);
      if failure.PairingExpired? {
        records := records[r := records[r].(status := Expired)];
        return;
      }
      if failure.NoSupportedAgent? {
        records := records[r := records[r].(status := NoAgent)];
        return;
      }
      records := records[r := records[r].(status := Offline)];
      ScheduleReconnect(r);
    }

    method OnClose(d: nat)
      requires d < |dials|
      modifies this
      ensures View() == PeerClosed(old(View()), d)
    {
      var current, r := IsCurrent(d), dials[d].record;
      dials := dials[d := dials[d].(link := ClosedThere)];
      if !current { return; }
      records := records[r := records[r].(status := Offline)];
      ScheduleReconnect(r);
    }

    method OnTimer(timer: nat)
      requires timer < |timers|
      modifies this
      ensures View() == Fired(old(View()), timer)
    {
      armed := armed - {timer};
      match timers[timer]
      case Retry(r) =>
        if r < |records| {
          records := records[r := records[r].(retryTimer := None)];
          DialDevice(r);
        }
      case Soft(r, attempt) =>
        if r < |records| && records[r].attempt == attempt && records[r].status.Connecting? {
          records := records[r := records[r].(status := Offline)];
        }
    }
  }

  // ----- Runs ------------------------------------------------------------------------------------------------

  datatype Step =
    | ConnectDevice(id: string, resetBackoff: bool)
    | Arrive(d: nat)
    | FailConnect(d: nat, failure: Failure)
    | Initialize(d: nat)
    | FailInitialize(d: nat, failure: Failure)
    | ClosePeer(d: nat)
    | Fire(timer: nat)
    | Schedule(r: nat)
    | Reconnect(r: nat, resetBackoff: bool)
    | Drop(id: string)
    | Destroy(ids: seq<string>)

  /** What the environment can make happen in `s`. */
  ghost predicate Possible(s: State, step: Step) {
    match step
    case Arrive(d) => d < |s.dials| && s.dials[d].phase.Dialing?
    case FailConnect(d, _) => d < |s.dials| && s.dials[d].phase.Dialing?
    case Initialize(d) => d < |s.dials| && s.dials[d].phase.Initializing?
    case FailInitialize(d, _) => d < |s.dials| && s.dials[d].phase.Initializing?
    case ClosePeer(d) =>
      d < |s.dials| && (s.dials[d].link.Open? || (s.dials[d].link.NotYet? && s.dials[d].phase.Dialing?))
    case Fire(timer) => timer < |s.timers| && timer in s.armed
    case Schedule(r) => r < |s.records|
    case Reconnect(r, _) => r < |s.records|
    case Destroy(ids) => Enumerates(ids, s.conns.Keys)
    case _ => true
  }

  function Next(s: State, step: Step): State
    requires Possible(s, step)
  {
    match step
    case ConnectDevice(id, resetBackoff) => DeviceConnected(s, id, resetBackoff)
    case Arrive(d) => TransportArrived(s, d)
    case FailConnect(d, failure) => Failed(s, d, failure)
    case Initialize(d) => Ready(s, d)
    case FailInitialize(d, failure) => Failed(s, d, failure)
    case ClosePeer(d) => PeerClosed(s, d)
    case Fire(timer) => Fired(s, timer)
    case Schedule(r) => Scheduled(s, r)
    case Reconnect(r, resetBackoff) => Reconnected(s, r, resetBackoff)
    case Drop(id) => Dropped(s, id)
    case Destroy(ids) => Destroyed(s, ids)
  }

  /** A run: every state follows from the one before by a possible step. */
  ghost predicate Run(states: seq<State>, steps: seq<Step>) {
    && |states| == |steps| + 1 && states[0] == INITIAL
    && forall n | 0 <= n < |steps| :: Possible(states[n], steps[n]) && states[n + 1] == Next(states[n], steps[n])
  }

  // ----- What every step keeps -----------------------------------------------------------------------------

  /** An armed timer is the one its registered record holds; a soft timer belongs to the current attempt. */
  ghost predicate TimerSound(s: State, timer: nat) {
    timer in s.armed ==>
      && timer < |s.timers| && Registered(s, s.timers[timer].record)
      && match s.timers[timer]
         case Retry(r) => s.records[r].retryTimer == Some(timer)
         case Soft(r, attempt) => s.records[r].softTimer == Some(timer) && s.records[r].attempt == attempt
  }

  ghost predicate RecordSound(s: State, r: nat)
    requires r < |s.records|
  {
    var record := s.records[r];
    && BACKOFF_BASE_MS <= record.backoffMs <= BACKOFF_MAX_MS
    && record.rpc == record.transport
    && (record.retryTimer.Some? ==> record.retryTimer.value in s.armed && record.retryTimer.value < |s.timers|
                                    && s.timers[record.retryTimer.value] == Retry(r))
    && (record.softTimer.Some? ==> record.softTimer.value < |s.timers| && s.timers[record.softTimer.value].Soft?
                                   && s.timers[record.softTimer.value].record == r)
    && (record.transport.Some? ==> record.transport.value < |s.dials| && s.dials[record.transport.value].record == r
                                   && !s.dials[record.transport.value].phase.Dialing?)
    && (!Registered(s, r) ==> record.transport.None? && record.retryTimer.None?)
  }

  /** Attempts of a record are numbered in the order of its dials. */
  ghost predicate DialSound(s: State, d: nat)
    requires d < |s.dials|
  {
    && s.dials[d].record < |s.records| && s.dials[d].attempt <= s.records[s.dials[d].record].attempt
    && (s.dials[d].phase.Dialing? ==> !s.dials[d].link.Open?)
  }

  ghost predicate DialsOrdered(s: State) {
    forall a, b | 0 <= a < b < |s.dials| && s.dials[a].record == s.dials[b].record :: s.dials[a].attempt < s.dials[b].attempt
  }

  ghost predicate ConnsSound(s: State) {
    forall id | id in s.conns :: s.conns[id] < |s.records| && s.records[s.conns[id]].dev == id
  }

  ghost predicate Sound(s: State) {
    && ConnsSound(s) && DialsOrdered(s)
    && (forall timer | 0 <= timer < |s.timers| || timer in s.armed :: TimerSound(s, timer))
    && (forall r | 0 <= r < |s.records| :: RecordSound(s, r))
    && (forall d | 0 <= d < |s.dials| :: DialSound(s, d))
  }

  lemma MarkKeeps(s: State, r: nat, status: Status)
    requires Sound(s) && r < |s.records|
    ensures Sound(Mark(s, r, status))
  {
    var t := Mark(s, r, status);
    forall timer | 0 <= timer < |t.timers| || timer in t.armed ensures TimerSound(t, timer) { assert TimerSound(s, timer); }
    forall q | 0 <= q < |t.records| ensures RecordSound(t, q) { assert RecordSound(s, q); }
    forall d | 0 <= d < |t.dials| ensures DialSound(t, d) { assert DialSound(s, d); }
  }

  lemma SetDialKeeps(s: State, d: nat, phase: Phase, link: Link)
    requires Sound(s) && d < |s.dials| && (phase.Dialing? ==> s.dials[d].phase.Dialing? && !link.Open?)
    ensures Sound(SetDial(s, d, phase, link))
  {
    var t := SetDial(s, d, phase, link);
    forall timer | 0 <= timer < |t.timers| || timer in t.armed ensures TimerSound(t, timer) { assert TimerSound(s, timer); }
    forall q | 0 <= q < |t.records| ensures RecordSound(t, q) { assert RecordSound(s, q); }
    forall e | 0 <= e < |t.dials| ensures DialSound(t, e) { assert DialSound(s, e); }
  }

  lemma DialedKeeps(s: State, r: nat)
    requires Sound(s) && r < |s.records|
    ensures Sound(Dialed(s, r))
  {
    var t := Dialed(s, r);
    assert RecordSound(s, r);
    forall timer | 0 <= timer < |t.timers| || timer in t.armed ensures TimerSound(t, timer) { assert TimerSound(s, timer); }
    forall q | 0 <= q < |t.records| ensures RecordSound(t, q) { assert RecordSound(s, q); }
    forall e | 0 <= e < |t.dials| ensures DialSound(t, e) { assert e < |s.dials| ==> DialSound(s, e); }
    forall a, b | 0 <= a < b < |t.dials| && t.dials[a].record == t.dials[b].record ensures t.dials[a].attempt < t.dials[b].attempt {
      assert a < |s.dials| ==> DialSound(s, a);
    }
  }

  lemma ScheduledKeeps(s: State, r: nat)
    requires Sound(s) && r < |s.records|
    ensures Sound(Scheduled(s, r))
  {
    var t := Scheduled(s, r);
    assert RecordSound(s, r);
    forall timer | 0 <= timer < |t.timers| || timer in t.armed ensures TimerSound(t, timer) { assert TimerSound(s, timer); }
    forall q | 0 <= q < |t.records| ensures RecordSound(t, q) { assert RecordSound(s, q); }
    forall e | 0 <= e < |t.dials| ensures DialSound(t, e) { assert DialSound(s, e); }
  }

  lemma WithRecordKeeps(s: State, id: string)
    requires Sound(s)
    ensures Sound(WithRecord(s, id)) && id in WithRecord(s, id).conns
  {
    var t := WithRecord(s, id);
    forall timer | 0 <= timer < |t.timers| || timer in t.armed ensures TimerSound(t, timer) { assert TimerSound(s, timer); }
    forall q | 0 <= q < |t.records| ensures RecordSound(t, q) { assert q < |s.records| ==> RecordSound(s, q); }
    forall e | 0 <= e < |t.dials| ensures DialSound(t, e) { assert DialSound(s, e); }
  }

  lemma WithoutRetryKeeps(s: State, r: nat, resetBackoff: bool)
    requires Sound(s) && r < |s.records|
    ensures Sound(WithoutRetry(s, r, resetBackoff))
  {
    var t := WithoutRetry(s, r, resetBackoff);
    assert RecordSound(s, r);
    forall timer | 0 <= timer < |t.timers| || timer in t.armed ensures TimerSound(t, timer) { assert TimerSound(s, timer); }
    forall q | 0 <= q < |t.records| ensures RecordSound(t, q) { assert RecordSound(s, q); }
    forall e | 0 <= e < |t.dials| ensures DialSound(t, e) { assert DialSound(s, e); }
  }

  lemma ResetBackoffKeeps(s: State, r: nat)
    requires Sound(s) && r < |s.records|
    ensures Sound(SetRecord(s, r, s.records[r].(backoffMs := BACKOFF_BASE_MS)))
  {
    var t := SetRecord(s, r, s.records[r].(backoffMs := BACKOFF_BASE_MS));
    forall timer | 0 <= timer < |t.timers| || timer in t.armed ensures TimerSound(t, timer) { assert TimerSound(s, timer); }
    forall q | 0 <= q < |t.records| ensures RecordSound(t, q) { assert RecordSound(s, q); }
    forall e | 0 <= e < |t.dials| ensures DialSound(t, e) { assert DialSound(s, e); }
  }

  lemma ReleasedKeeps(s: State, r: nat)
    requires Sound(s) && r < |s.records|
    ensures Sound(Released(s, r))
  {
    var t := Released(s, r);
    assert RecordSound(s, r);
    forall timer | 0 <= timer < |t.timers| || timer in t.armed ensures TimerSound(t, timer) { assert TimerSound(s, timer); }
    forall q | 0 <= q < |t.records| ensures RecordSound(t, q) { assert RecordSound(s, q); }
    forall e | 0 <= e < |t.dials| ensures DialSound(t, e) { assert DialSound(s, e); }
  }

  lemma DroppedKeeps(s: State, id: string)
    requires Sound(s)
    ensures Sound(Dropped(s, id)) && Dropped(s, id).conns == s.conns - {id}
    ensures Dropped(s, id).disposed == s.disposed && |Dropped(s, id).dials| == |s.dials|
  {
    if id in s.conns {
      var r := s.conns[id];
      ReleasedKeeps(s, r);
      var u, t := Released(s, r), Dropped(s, id);
      forall timer | 0 <= timer < |t.timers| || timer in t.armed ensures TimerSound(t, timer) { assert TimerSound(u, timer); }
      forall q | 0 <= q < |t.records| ensures RecordSound(t, q) { assert RecordSound(u, q); }
      forall e | 0 <= e < |t.dials| ensures DialSound(t, e) { assert DialSound(u, e); }
    } else {
      assert s.conns - {id} == s.conns;
    }
  }

  lemma {:induction false} AllDroppedKeeps(s: State, ids: seq<string>)
    requires Sound(s)
    ensures Sound(AllDropped(s, ids)) && AllDropped(s, ids).disposed == s.disposed
    ensures AllDropped(s, ids).conns == s.conns - set i | 0 <= i < |ids| :: ids[i]
    ensures |AllDropped(s, ids).dials| == |s.dials|
  {
    hide Sound, Dropped;
    if ids != [] {
      AllDroppedKeeps(s, ids[..|ids| - 1]);
      DroppedKeeps(AllDropped(s, ids[..|ids| - 1]), ids[|ids| - 1]);
    }
  }

  lemma ArrivedKeeps(s: State, d: nat)
    requires Sound(s) && d < |s.dials| && s.dials[d].phase.Dialing?
    ensures Sound(TransportArrived(s, d))
  {
    var t := TransportArrived(s, d);
    assert DialSound(s, d);
    forall timer | 0 <= timer < |t.timers| || timer in t.armed ensures TimerSound(t, timer) { assert TimerSound(s, timer); }
    forall q | 0 <= q < |t.records| ensures RecordSound(t, q) { assert RecordSound(s, q); }
    forall e | 0 <= e < |t.dials| ensures DialSound(t, e) { assert DialSound(s, e); }
  }

  lemma ReadyKeeps(s: State, d: nat)
    requires Sound(s) && d < |s.dials|
    ensures Sound(Ready(s, d))
  {
    SetDialKeeps(s, d, Over, s.dials[d].link);
    if Current(s, d) {
      ConnectedKeeps(SetDial(s, d, Over, s.dials[d].link), s.dials[d].record);
    }
  }

  lemma ConnectedKeeps(s: State, r: nat)
    requires Sound(s) && r < |s.records|
    ensures Sound(SetRecord(s, r, s.records[r].(backoffMs := BACKOFF_BASE_MS, status := Connected))
                    .(armed := Cleared(s.armed, s.records[r].softTimer)))
  {
    var t := SetRecord(s, r, s.records[r].(backoffMs := BACKOFF_BASE_MS, status := Connected))
               .(armed := Cleared(s.armed, s.records[r].softTimer));
    assert RecordSound(s, r);
    forall timer | 0 <= timer < |t.timers| || timer in t.armed ensures TimerSound(t, timer) { assert TimerSound(s, timer); }
    forall q | 0 <= q < |t.records| ensures RecordSound(t, q) { assert RecordSound(s, q); }
    forall e | 0 <= e < |t.dials| ensures DialSound(t, e) { assert DialSound(s, e); }
  }

  lemma DisarmSoftKeeps(s: State, r: nat)
    requires Sound(s) && r < |s.records|
    ensures Sound(s.(armed := Cleared(s.armed, s.records[r].softTimer)))
  {
    var t := s.(armed := Cleared(s.armed, s.records[r].softTimer));
    assert RecordSound(s, r);
    forall timer | 0 <= timer < |t.timers| || timer in t.armed ensures TimerSound(t, timer) { assert TimerSound(s, timer); }
    forall q | 0 <= q < |t.records| ensures RecordSound(t, q) { assert RecordSound(s, q); }
    forall e | 0 <= e < |t.dials| ensures DialSound(t, e) { assert DialSound(s, e); }
  }

  lemma FailedKeeps(s: State, d: nat, failure: Failure)
    requires Sound(s) && d < |s.dials|
    ensures Sound(Failed(s, d, failure))
  {
    hide Sound, Scheduled;
    var t := SetDial(s, d, Over, s.dials[d].link);
    SetDialKeeps(s, d, Over, s.dials[d].link);
    if Current(s, d) {
      var r := s.dials[d].record;
      DisarmSoftKeeps(t, r);
      var cleared := t.(armed := Cleared(t.armed, t.records[r].softTimer));
      MarkKeeps(cleared, r, Expired);
      MarkKeeps(cleared, r, NoAgent);
      MarkKeeps(cleared, r, Offline);
      ScheduledKeeps(Mark(cleared, r, Offline), r);
    }
  }

  lemma PeerClosedKeeps(s: State, d: nat)
    requires Sound(s) && d < |s.dials|
    ensures Sound(PeerClosed(s, d))
  {
    hide Sound, Scheduled;
    var t := SetDial(s, d, s.dials[d].phase, ClosedThere);
    SetDialKeeps(s, d, s.dials[d].phase, ClosedThere);
    if Current(s, d) {
      MarkKeeps(t, s.dials[d].record, Offline);
      ScheduledKeeps(Mark(t, s.dials[d].record, Offline), s.dials[d].record);
    }
  }

  lemma RetryFiredKeeps(s: State, timer: nat, r: nat)
    requires Sound(s) && timer < |s.timers| && s.timers[timer] == Retry(r) && timer in s.armed && r < |s.records|
    ensures Sound(SetRecord(s.(armed := s.armed - {timer}), r, s.records[r].(retryTimer := None)))
  {
    var t := SetRecord(s.(armed := s.armed - {timer}), r, s.records[r].(retryTimer := None));
    assert TimerSound(s, timer);
    forall u | 0 <= u < |t.timers| || u in t.armed ensures TimerSound(t, u) { assert TimerSound(s, u); }
    forall q | 0 <= q < |t.records| ensures RecordSound(t, q) { assert RecordSound(s, q); }
    forall e | 0 <= e < |t.dials| ensures DialSound(t, e) { assert DialSound(s, e); }
  }

  lemma SoftFiredKeeps(s: State, timer: nat)
    requires Sound(s) && timer < |s.timers| && s.timers[timer].Soft?
    ensures Sound(s.(armed := s.armed - {timer}))
  {
    var t := s.(armed := s.armed - {timer});
    forall u | 0 <= u < |t.timers| || u in t.armed ensures TimerSound(t, u) { assert TimerSound(s, u); }
    forall q | 0 <= q < |t.records| ensures RecordSound(t, q) { assert RecordSound(s, q); }
    forall e | 0 <= e < |t.dials| ensures DialSound(t, e) { assert DialSound(s, e); }
  }

  lemma FiredKeeps(s: State, timer: nat)
    requires Sound(s) && timer < |s.timers| && timer in s.armed
    ensures Sound(Fired(s, timer))
  {
    hide Dialed;
    assert TimerSound(s, timer);
    hide Sound, TimerSound;
    match s.timers[timer]
    case Retry(r) =>
      RetryFiredKeeps(s, timer, r);
      DialedKeeps(SetRecord(s.(armed := s.armed - {timer}), r, s.records[r].(retryTimer := None)), r);
    case Soft(r, _) =>
      SoftFiredKeeps(s, timer);
      MarkKeeps(s.(armed := s.armed - {timer}), r, Offline);
  }

  lemma DeviceConnectedKeeps(s: State, id: string, resetBackoff: bool)
    requires Sound(s)
    ensures Sound(DeviceConnected(s, id, resetBackoff))
  {
    WithRecordKeeps(s, id);
    var t := WithRecord(s, id);
    hide Sound, Dialed, WithoutRetry;
    if t.conns[id] < |t.records| {
      WithoutRetryKeeps(t, t.conns[id], resetBackoff);
      KeepsLength(t, t.conns[id], resetBackoff);
      DialedKeeps(WithoutRetry(t, t.conns[id], resetBackoff), t.conns[id]);
    }
  }

  lemma KeepsLength(s: State, r: nat, resetBackoff: bool)
    requires r < |s.records|
    ensures |WithoutRetry(s, r, resetBackoff).records| == |s.records|
  {
  }

  lemma ReconnectedKeeps(s: State, r: nat, resetBackoff: bool)
    requires Sound(s) && r < |s.records|
    ensures Sound(Reconnected(s, r, resetBackoff))
  {
    hide Sound, Dialed;
    ReleasedKeeps(s, r);
    ResetBackoffKeeps(Released(s, r), r);
    DialedKeeps(Released(s, r), r);
    DialedKeeps(SetRecord(Released(s, r), r, Released(s, r).records[r].(backoffMs := BACKOFF_BASE_MS)), r);
  }

  lemma DestroyedKeeps(s: State, ids: seq<string>)
    requires Sound(s) && Enumerates(ids, s.conns.Keys)
    ensures Sound(Destroyed(s, ids)) && (s.disposed || Destroyed(s, ids).conns == map[])
    ensures |Destroyed(s, ids).dials| == |s.dials|
  {
    if !s.disposed {
      DisposedKeeps(s);
      AllDroppedKeeps(s.(disposed := true), ids);
      assert s.conns.Keys - (set i | 0 <= i < |ids| :: ids[i]) == {};
    }
  }

  lemma DisposedKeeps(s: State)
    requires Sound(s)
    ensures Sound(s.(disposed := true))
  {
    var t := s.(disposed := true);
    forall u | 0 <= u < |t.timers| || u in t.armed ensures TimerSound(t, u) { assert TimerSound(s, u); }
    forall q | 0 <= q < |t.records| ensures RecordSound(t, q) { assert RecordSound(s, q); }
    forall e | 0 <= e < |t.dials| ensures DialSound(t, e) { assert DialSound(s, e); }
  }

  lemma StepKeeps(s: State, step: Step)
    requires Sound(s) && Possible(s, step)
    ensures Sound(Next(s, step))
  {
    hide Sound, DeviceConnected, TransportArrived, Failed, Ready, PeerClosed, Fired, Scheduled, Reconnected, Dropped, Destroyed;
    match step
    case ConnectDevice(id, resetBackoff) => DeviceConnectedKeeps(s, id, resetBackoff);
    case Arrive(d) => ArrivedKeeps(s, d);
    case FailConnect(d, failure) => FailedKeeps(s, d, failure);
    case Initialize(d) => ReadyKeeps(s, d);
    case FailInitialize(d, failure) => FailedKeeps(s, d, failure);
    case ClosePeer(d) => PeerClosedKeeps(s, d);
    case Fire(timer) => FiredKeeps(s, timer);
    case Schedule(r) => ScheduledKeeps(s, r);
    case Reconnect(r, resetBackoff) => ReconnectedKeeps(s, r, resetBackoff);
    case Drop(id) => DroppedKeeps(s, id);
    case Destroy(ids) => DestroyedKeeps(s, ids);
  }

  lemma {:induction false} RunSound(states: seq<State>, steps: seq<Step>, n: nat)
    requires Run(states, steps) && n < |states|
    ensures Sound(states[n]) && (states[n].disposed ==> states[n].conns == map[])
  {
    hide Next, Possible, Sound;
    if n == 0 {
      assert Sound(INITIAL) by { InitialSound(); }
    } else {
      RunSound(states, steps, n - 1);
      StepKeeps(states[n - 1], steps[n - 1]);
      StepShuts(states[n - 1], steps[n - 1]);
    }
  }

  lemma InitialSound()
    ensures Sound(INITIAL)
  {
  }

  lemma StepShuts(s: State, step: Step)
    requires Sound(s) && Possible(s, step) && (s.disposed ==> s.conns == map[])
    ensures Next(s, step).disposed ==> Next(s, step).conns == map[]
  {
    if step.Destroy? {
      hide Next, Destroyed, Sound;
      DestroyedKeeps(s, step.ids);
      assert Next(s, step) == Destroyed(s, step.ids) by { DestroyIsNext(s, step); }
    } else if step.Drop? {
      hide Sound;
      DroppedKeeps(s, step.id);
    }
  }

  lemma DestroyIsNext(s: State, step: Step)
    requires Possible(s, step) && step.Destroy?
    ensures Next(s, step) == Destroyed(s, step.ids)
  {
  }

  // ----- Timers ----------------------------------------------------------------------------------------------

  /** In every state of every run a record has at most one retry timer and at most one soft timer armed. */
  lemma OneTimerOfAKind(states: seq<State>, steps: seq<Step>, n: nat, a: nat, b: nat)
    requires Run(states, steps) && n < |states|
    requires var s := states[n];
             && a in s.armed && b in s.armed && a < |s.timers| && b < |s.timers|
             && s.timers[a].record == s.timers[b].record && s.timers[a].Retry? == s.timers[b].Retry?
    ensures a == b
  {
    RunSound(states, steps, n);
    assert TimerSound(states[n], a) && TimerSound(states[n], b);
  }

  /** Only registered records have timers armed: none outlives `dropConnection`, and none at all outlives `destroy`. */
  lemma TimersDieWithTheirRecord(states: seq<State>, steps: seq<Step>, n: nat, timer: nat)
    requires Run(states, steps) && n < |states| && timer in states[n].armed
    ensures timer < |states[n].timers| && Registered(states[n], states[n].timers[timer].record)
    ensures !states[n].disposed
  {
    RunSound(states, steps, n);
    assert TimerSound(states[n], timer);
  }

  /** A record that remembers a retry timer really has one armed, so `scheduleReconnect` never skips a dead one. */
  lemma RememberedRetryIsArmed(states: seq<State>, steps: seq<Step>, n: nat, r: nat)
    requires Run(states, steps) && n < |states| && r < |states[n].records|
    ensures var s := states[n];
            s.records[r].retryTimer.Some? <==> exists timer :: timer in s.armed && timer < |s.timers| && s.timers[timer] == Retry(r)
  {
    var s := states[n];
    RunSound(states, steps, n);
    assert RecordSound(s, r);
    forall timer | timer in s.armed && timer < |s.timers| && s.timers[timer] == Retry(r) ensures s.records[r].retryTimer == Some(timer) {
      assert TimerSound(s, timer);
    }
  }

  // ----- Stale dials -----------------------------------------------------------------------------------------

  predicate IsCallbackOf(step: Step, d: nat) {
    match step
    case Arrive(e) => e == d
    case FailConnect(e, _) => e == d
    case Initialize(e) => e == d
    case FailInitialize(e, _) => e == d
    case ClosePeer(e) => e == d
    case _ => false
  }

  /** A dial that is no longer current: its completion, failure and close touch no record and no timer, and a
      transport it still delivers is closed. */
  lemma StaleDialIsInert(s: State, step: Step, d: nat)
    requires Possible(s, step) && IsCallbackOf(step, d) && !Current(s, d)
    ensures var t := Next(s, step);
            && t.records == s.records && t.conns == s.conns && t.timers == s.timers && t.armed == s.armed
            && t.disposed == s.disposed && |t.dials| == |s.dials|
            && (step.Arrive? ==> !t.dials[d].link.Open?)
            && forall e | 0 <= e < |s.dials| && e != d :: t.dials[e] == s.dials[e]
  {
  }

  /** Attempts never go back, and a record that left the table never returns. */
  ghost predicate Later(s: State, t: State) {
    && |s.records| <= |t.records| && |s.dials| <= |t.dials| && (s.disposed ==> t.disposed)
    && (forall r | 0 <= r < |s.records| :: t.records[r].dev == s.records[r].dev && t.records[r].attempt >= s.records[r].attempt)
    && (forall r | 0 <= r < |s.records| && Registered(t, r) :: Registered(s, r))
    && (forall d | 0 <= d < |s.dials| :: t.dials[d].record == s.dials[d].record && t.dials[d].attempt == s.dials[d].attempt)
  }

  lemma LaterIsTransitive(s: State, t: State, u: State)
    requires Later(s, t) && Later(t, u)
    ensures Later(s, u)
  {
  }

  lemma DialedIsLater(s: State, r: nat)
    requires r < |s.records|
    ensures Later(s, Dialed(s, r))
  {
  }

  lemma ScheduledIsLater(s: State, r: nat)
    requires r < |s.records|
    ensures Later(s, Scheduled(s, r))
  {
  }

  lemma DeviceConnectedIsLater(s: State, id: string, resetBackoff: bool)
    requires ConnsSound(s)
    ensures Later(s, DeviceConnected(s, id, resetBackoff))
  {
    if !s.disposed {
      var t := WithRecord(s, id);
      assert Later(s, t);
      var u := WithoutRetry(t, t.conns[id], resetBackoff);
      assert Later(t, u);
      DialedIsLater(u, t.conns[id]);
      LaterIsTransitive(s, t, u);
      LaterIsTransitive(s, u, Dialed(u, t.conns[id]));
    }
  }

  lemma ReconnectedIsLater(s: State, r: nat, resetBackoff: bool)
    requires r < |s.records|
    ensures Later(s, Reconnected(s, r, resetBackoff))
  {
    if !s.disposed && Registered(s, r) {
      var released := Released(s, r);
      var t := if resetBackoff then SetRecord(released, r, released.records[r].(backoffMs := BACKOFF_BASE_MS)) else released;
      assert Later(s, t);
      DialedIsLater(t, r);
      LaterIsTransitive(s, t, Dialed(t, r));
    }
  }

  lemma DroppedIsLater(s: State, id: string)
    ensures Later(s, Dropped(s, id))
  {
  }

  lemma {:induction false} AllDroppedIsLater(s: State, ids: seq<string>)
    ensures Later(s, AllDropped(s, ids))
  {
    hide Dropped;
    if ids != [] {
      var t := AllDropped(s, ids[..|ids| - 1]);
      AllDroppedIsLater(s, ids[..|ids| - 1]);
      DroppedIsLater(t, ids[|ids| - 1]);
      LaterIsTransitive(s, t, Dropped(t, ids[|ids| - 1]));
    }
  }

  lemma FiredIsLater(s: State, timer: nat)
    requires timer < |s.timers|
    ensures Later(s, Fired(s, timer))
  {
    hide Dialed;
    var t := s.(armed := s.armed - {timer});
    match s.timers[timer]
    case Retry(r) =>
      if r < |s.records| {
        var u := SetRecord(t, r, s.records[r].(retryTimer := None));
        assert Later(s, u);
        DialedIsLater(u, r);
        LaterIsTransitive(s, u, Dialed(u, r));
      }
    case Soft(_, _) =>
  }

  lemma CallbackIsLater(s: State, step: Step, d: nat)
    requires Possible(s, step) && IsCallbackOf(step, d)
    ensures Later(s, Next(s, step))
  {
    hide Scheduled;
    if Current(s, d) {
      var r := s.dials[d].record;
      match step
      case FailConnect(_, failure) => FailureIsLater(s, d, failure);
      case FailInitialize(_, failure) => FailureIsLater(s, d, failure);
      case ClosePeer(_) =>
        var t := Mark(SetDial(s, d, s.dials[d].phase, ClosedThere), r, Offline);
        ScheduledIsLater(t, r);
        LaterIsTransitive(s, t, Scheduled(t, r));
      case _ =>
    } else {
      StaleDialIsInert(s, step, d);
      StaleChangesOnlyItsDial(s, step, d);
    }
  }

  lemma StaleChangesOnlyItsDial(s: State, step: Step, d: nat)
    requires Possible(s, step) && IsCallbackOf(step, d) && !Current(s, d)
    ensures Next(s, step).dials[d].record == s.dials[d].record && Next(s, step).dials[d].attempt == s.dials[d].attempt
  {
  }

  lemma FailureIsLater(s: State, d: nat, failure: Failure)
    requires d < |s.dials| && Current(s, d)
    ensures Later(s, Failed(s, d, failure))
  {
    hide Scheduled;
    var r := s.dials[d].record;
    var t := Mark(SetDial(s, d, Over, s.dials[d].link).(armed := Cleared(s.armed, s.records[r].softTimer)), r, Offline);
    ScheduledIsLater(t, r);
    LaterIsTransitive(s, t, Scheduled(t, r));
  }

  lemma StepIsLater(s: State, step: Step)
    requires ConnsSound(s) && Possible(s, step)
    ensures Later(s, Next(s, step))
  {
    hide DeviceConnected, TransportArrived, Failed, Ready, PeerClosed, Fired, Scheduled, Reconnected, Dropped, Later;
    match step
    case ConnectDevice(id, resetBackoff) => DeviceConnectedIsLater(s, id, resetBackoff);
    case Arrive(d) => CallbackIsLater(s, step, d);
    case FailConnect(d, _) => CallbackIsLater(s, step, d);
    case Initialize(d) => CallbackIsLater(s, step, d);
    case FailInitialize(d, _) => CallbackIsLater(s, step, d);
    case ClosePeer(d) => CallbackIsLater(s, step, d);
    case Fire(timer) => FiredIsLater(s, timer);
    case Schedule(r) => ScheduledIsLater(s, r);
    case Reconnect(r, resetBackoff) => ReconnectedIsLater(s, r, resetBackoff);
    case Drop(id) => DroppedIsLater(s, id);
    case Destroy(ids) =>
      SelfIsLater(s);
      if !s.disposed {
        DisposedIsLater(s);
        AllDroppedIsLater(s.(disposed := true), ids);
        LaterIsTransitive(s, s.(disposed := true), AllDropped(s.(disposed := true), ids));
      }
  }

  lemma SelfIsLater(s: State)
    ensures Later(s, s)
  {
  }

  lemma DisposedIsLater(s: State)
    ensures Later(s, s.(disposed := true))
  {
  }

  lemma {:induction false} RunIsLater(states: seq<State>, steps: seq<Step>, m: nat, n: nat)
    requires Run(states, steps) && m <= n < |states|
    ensures Later(states[m], states[n])
    decreases n - m
  {
    hide Next, Possible, Later;
    if m == n {
      SelfIsLater(states[m]);
    } else {
      RunIsLater(states, steps, m, n - 1);
      RunSound(states, steps, n - 1);
      StepIsLater(states[n - 1], steps[n - 1]);
      LaterIsTransitive(states[m], states[n - 1], states[n]);
    }
  }

  /**
   * Over every run: a dial that was stale once (newer attempt, drop or destroy) can do nothing for ever after; its
   * callbacks leave every record, timer and other dial alone and its transport is not kept.
   */
  lemma StaleDialStaysInert(states: seq<State>, steps: seq<Step>, m: nat, n: nat, d: nat)
    requires Run(states, steps) && m <= n < |steps|
    requires d < |states[m].dials| && !Current(states[m], d) && IsCallbackOf(steps[n], d)
    ensures states[n + 1].records == states[n].records && states[n + 1].conns == states[n].conns
    ensures states[n + 1].timers == states[n].timers && states[n + 1].armed == states[n].armed
    ensures steps[n].Arrive? ==> d < |states[n + 1].dials| && !states[n + 1].dials[d].link.Open?
  {
    hide Next;
    RunSound(states, steps, m);
    RunSound(states, steps, n);
    RunIsLater(states, steps, m, n);
    assert DialSound(states[m], d) && DialSound(states[n], d);
    assert Possible(states[n], steps[n]) && states[n + 1] == Next(states[n], steps[n]);
    StaleDialIsInert(states[n], steps[n], d);
  }

  /** No record ever has two current dials. */
  lemma OneCurrentDial(states: seq<State>, steps: seq<Step>, n: nat, a: nat, b: nat)
    requires Run(states, steps) && n < |states| && Current(states[n], a) && Current(states[n], b)
    requires states[n].dials[a].record == states[n].dials[b].record
    ensures a == b
  {
    RunSound(states, steps, n);
  }

  // ----- No record is forgotten --------------------------------------------------------------------------------

  ghost predicate InProgress(s: State, d: nat, r: nat) {
    d < |s.dials| && r < |s.records| && s.dials[d].record == r && s.dials[d].attempt == s.records[r].attempt && !s.dials[d].phase.Over?
  }

  /** Somebody will still do something about record `r`: a retry is armed or its current dial is under way. */
  ghost predicate Attended(s: State, r: nat)
    requires r < |s.records|
  {
    s.records[r].retryTimer.Some? || exists d :: InProgress(s, d, r)
  }

  /** A record of a live pool that is neither connected nor given up is being attended to. */
  ghost predicate NotStranded(s: State, r: nat)
    requires r < |s.records|
  {
    !s.disposed && Registered(s, r) && (s.records[r].status.Connecting? || s.records[r].status.Offline?) ==> Attended(s, r)
  }

  ghost predicate NoneStranded(s: State) {
    forall r | 0 <= r < |s.records| :: NotStranded(s, r)
  }

  /** The ops below change record `r` alone; the others are as attended as before. */
  lemma DialedAttends(s: State, r: nat)
    requires r < |s.records| && forall q | 0 <= q < |s.records| && q != r :: NotStranded(s, q)
    ensures NoneStranded(Dialed(s, r))
  {
    var t := Dialed(s, r);
    forall q | 0 <= q < |t.records| ensures NotStranded(t, q) {
      if q == r {
        assert !s.disposed && Registered(s, r) ==> InProgress(t, |s.dials|, r);
      } else {
        assert NotStranded(s, q);
        if d :| InProgress(s, d, q) {
          assert InProgress(t, d, q);
        }
      }
    }
  }

  lemma ScheduledAttends(s: State, r: nat)
    requires r < |s.records| && forall q | 0 <= q < |s.records| && q != r :: NotStranded(s, q)
    ensures NoneStranded(Scheduled(s, r))
  {
    var t := Scheduled(s, r);
    forall q | 0 <= q < |t.records| ensures NotStranded(t, q) {
      if q != r {
        assert NotStranded(s, q);
        if d :| InProgress(s, d, q) {
          assert InProgress(t, d, q);
        }
      }
    }
  }

  /** Changing one record, and dials of that record only, strands no other. */
  lemma OthersStayAttended(s: State, t: State, r: nat)
    requires r < |s.records| && |s.records| == |t.records| && |s.dials| == |t.dials| && s.disposed == t.disposed
    requires forall q | 0 <= q < |s.records| && q != r :: NotStranded(s, q)
    requires forall q | 0 <= q < |s.records| && q != r :: t.records[q] == s.records[q] && (Registered(t, q) ==> Registered(s, q))
    requires forall d | 0 <= d < |s.dials| :: t.dials[d] == s.dials[d] ||
               (s.dials[d].record == r == t.dials[d].record) || (t.dials[d] == s.dials[d].(link := t.dials[d].link))
    ensures forall q | 0 <= q < |t.records| && q != r :: NotStranded(t, q)
  {
    forall q | 0 <= q < |t.records| && q != r ensures NotStranded(t, q) {
      assert NotStranded(s, q);
      if d :| InProgress(s, d, q) {
        assert InProgress(t, d, q);
      }
    }
  }

  lemma DeviceConnectedAttends(s: State, id: string, resetBackoff: bool)
    requires ConnsSound(s) && NoneStranded(s)
    ensures NoneStranded(DeviceConnected(s, id, resetBackoff))
  {
    hide Dialed;
    if !s.disposed {
      var t := WithRecord(s, id);
      var r := t.conns[id];
      forall q | 0 <= q < |t.records| && q != r ensures NotStranded(t, q) {
        assert NotStranded(s, q);
        if d :| InProgress(s, d, q) {
          assert InProgress(t, d, q);
        }
      }
      var u := WithoutRetry(t, r, resetBackoff);
      OthersStayAttended(t, u, r);
      DialedAttends(u, r);
    }
  }

  lemma ReconnectedAttends(s: State, r: nat, resetBackoff: bool)
    requires r < |s.records| && NoneStranded(s)
    ensures NoneStranded(Reconnected(s, r, resetBackoff))
  {
    hide Dialed;
    if !s.disposed && Registered(s, r) {
      var released := Released(s, r);
      OthersStayAttended(s, released, r);
      var t := if resetBackoff then SetRecord(released, r, released.records[r].(backoffMs := BACKOFF_BASE_MS)) else released;
      OthersStayAttended(released, t, r);
      DialedAttends(t, r);
    }
  }

  lemma DroppedAttends(s: State, id: string)
    requires ConnsSound(s) && NoneStranded(s)
    ensures NoneStranded(Dropped(s, id))
  {
    if id in s.conns {
      OthersStayAttended(s, Dropped(s, id), s.conns[id]);
    }
  }

  lemma {:induction false} AllDroppedAttends(s: State, ids: seq<string>)
    requires s.disposed && Sound(s)
    ensures NoneStranded(AllDropped(s, ids))
  {
    AllDroppedKeeps(s, ids);
  }

  lemma FiredAttends(s: State, timer: nat)
    requires Sound(s) && timer < |s.timers| && timer in s.armed && NoneStranded(s)
    ensures NoneStranded(Fired(s, timer))
  {
    hide Dialed;
    assert TimerSound(s, timer);
    var t := s.(armed := s.armed - {timer});
    match s.timers[timer]
    case Retry(r) =>
      var u := SetRecord(t, r, s.records[r].(retryTimer := None));
      OthersStayAttended(s, u, r);
      DialedAttends(u, r);
    case Soft(r, _) =>
      OthersStayAttended(s, Fired(s, timer), r);
      assert NotStranded(s, r);
      if d :| InProgress(s, d, r) {
        assert InProgress(Fired(s, timer), d, r);
      }
  }

  /** A callback of a current dial either goes on, settles the status, or schedules a retry. */
  lemma CurrentCallbackAttends(s: State, step: Step, d: nat)
    requires Sound(s) && NoneStranded(s) && Possible(s, step) && IsCallbackOf(step, d) && Current(s, d)
    ensures NoneStranded(Next(s, step))
  {
    var r := s.dials[d].record;
    match step
    case Arrive(_) =>
      var t := TransportArrived(s, d);
      OthersStayAttended(s, t, r);
      assert InProgress(t, d, r);
    case FailConnect(_, failure) => FailureAttends(s, d, failure);
    case FailInitialize(_, failure) => FailureAttends(s, d, failure);
    case Initialize(_) => OthersStayAttended(s, Ready(s, d), r);
    case ClosePeer(_) =>
      var t := Mark(SetDial(s, d, s.dials[d].phase, ClosedThere), r, Offline);
      OthersStayAttended(s, t, r);
      ScheduledAttends(t, r);
  }

  lemma FailureAttends(s: State, d: nat, failure: Failure)
    requires NoneStranded(s) && d < |s.dials| && Current(s, d)
    ensures NoneStranded(Failed(s, d, failure))
  {
    hide Scheduled;
    var r := s.dials[d].record;
    var cleared := SetDial(s, d, Over, s.dials[d].link).(armed := Cleared(s.armed, s.records[r].softTimer));
    match failure
    case PairingExpired => OthersStayAttended(s, Mark(cleared, r, Expired), r);
    case NoSupportedAgent => OthersStayAttended(s, Mark(cleared, r, NoAgent), r);
    case OtherFailure =>
      OthersStayAttended(s, Mark(cleared, r, Offline), r);
      ScheduledAttends(Mark(cleared, r, Offline), r);
  }

  /** A stale dial attends to nothing, so its end strands nothing. */
  lemma StaleCallbackAttends(s: State, step: Step, d: nat)
    requires Sound(s) && NoneStranded(s) && Possible(s, step) && IsCallbackOf(step, d) && !Current(s, d)
    ensures NoneStranded(Next(s, step))
  {
    var t := Next(s, step);
    StaleDialIsInert(s, step, d);
    hide Next;
    forall r | 0 <= r < |t.records| ensures NotStranded(t, r) {
      assert NotStranded(s, r);
      if e :| InProgress(s, e, r) {
        if !s.disposed && Registered(s, r) {
          assert InProgress(t, e, r);
        }
      }
    }
  }

  lemma StepStrandsNone(s: State, step: Step)
    requires Sound(s) && NoneStranded(s) && Possible(s, step)
    ensures NoneStranded(Next(s, step))
  {
    hide DeviceConnected, TransportArrived, Failed, Ready, PeerClosed, Fired, Scheduled, Reconnected, Dropped, NotStranded;
    match step
    case ConnectDevice(id, resetBackoff) => DeviceConnectedAttends(s, id, resetBackoff);
    case Arrive(d) => if Current(s, d) { CurrentCallbackAttends(s, step, d); } else { StaleCallbackAttends(s, step, d); }
    case FailConnect(d, _) => if Current(s, d) { CurrentCallbackAttends(s, step, d); } else { StaleCallbackAttends(s, step, d); }
    case Initialize(d) => if Current(s, d) { CurrentCallbackAttends(s, step, d); } else { StaleCallbackAttends(s, step, d); }
    case FailInitialize(d, _) => if Current(s, d) { CurrentCallbackAttends(s, step, d); } else { StaleCallbackAttends(s, step, d); }
    case ClosePeer(d) => if Current(s, d) { CurrentCallbackAttends(s, step, d); } else { StaleCallbackAttends(s, step, d); }
    case Fire(timer) => FiredAttends(s, timer);
    case Schedule(r) => ScheduledAttends(s, r);
    case Reconnect(r, resetBackoff) => ReconnectedAttends(s, r, resetBackoff);
    case Drop(id) => DroppedAttends(s, id);
    case Destroy(ids) =>
      if !s.disposed {
        DisposedKeeps(s);
        AllDroppedAttends(s.(disposed := true), ids);
      }
  }

  /** In no run is a connecting or offline record left with neither a dial under way nor a retry armed. */
  lemma {:induction false} NoRecordIsStranded(states: seq<State>, steps: seq<Step>, n: nat)
    requires Run(states, steps) && n < |states|
    ensures NoneStranded(states[n])
  {
    hide Next, Possible, NotStranded;
    if n > 0 {
      NoRecordIsStranded(states, steps, n - 1);
      RunSound(states, steps, n - 1);
      StepStrandsNone(states[n - 1], steps[n - 1]);
    }
  }

  // ----- Transports ------------------------------------------------------------------------------------------

  /** An open transport that its record no longer knows: nothing here will ever close it. */
  ghost predicate Orphan(s: State, d: nat) {
    d < |s.dials| && s.dials[d].link.Open? && !(s.dials[d].record < |s.records| && s.records[s.dials[d].record].transport == Some(d))
  }

  /** A new transport takes the place of one that is still open: the code closes the old one only on `reconnect`. */
  ghost predicate Replaces(s: State, step: Step, d: nat) {
    && step.Arrive? && Current(s, step.d) && d < |s.dials| && d != step.d && s.dials[d].link.Open?
    && s.records[s.dials[step.d].record].transport == Some(d)
  }

  lemma ReleasedOrphans(s: State, r: nat, d: nat)
    requires Sound(s) && r < |s.records|
    ensures Orphan(Released(s, r), d) <==> Orphan(s, d)
  {
    assert RecordSound(s, r);
  }

  lemma DialedOrphans(s: State, r: nat, d: nat)
    requires r < |s.records| && (forall e | 0 <= e < |s.dials| :: s.dials[e].record < |s.records|)
    ensures Orphan(Dialed(s, r), d) <==> Orphan(s, d)
  {
  }

  lemma DroppedOrphans(s: State, id: string, d: nat)
    requires Sound(s)
    ensures Orphan(Dropped(s, id), d) <==> Orphan(s, d)
  {
    if id in s.conns {
      ReleasedOrphans(s, s.conns[id], d);
    }
  }

  lemma {:induction false} AllDroppedOrphans(s: State, ids: seq<string>, d: nat)
    requires Sound(s)
    ensures Orphan(AllDropped(s, ids), d) <==> Orphan(s, d)
  {
    hide Sound, Dropped, Orphan;
    if ids != [] {
      AllDroppedOrphans(s, ids[..|ids| - 1], d);
      AllDroppedKeeps(s, ids[..|ids| - 1]);
      DroppedOrphans(AllDropped(s, ids[..|ids| - 1]), ids[|ids| - 1], d);
    }
  }

  lemma DeviceConnectedOrphans(s: State, id: string, resetBackoff: bool, d: nat)
    requires Sound(s)
    ensures Orphan(DeviceConnected(s, id, resetBackoff), d) <==> Orphan(s, d)
  {
    if !s.disposed {
      var t := WithRecord(s, id);
      forall e | 0 <= e < |t.dials| ensures t.dials[e].record < |s.records| { assert DialSound(s, e); }
      DialedOrphans(WithoutRetry(t, t.conns[id], resetBackoff), t.conns[id], d);
    }
  }

  lemma ReconnectedOrphans(s: State, r: nat, resetBackoff: bool, d: nat)
    requires Sound(s) && r < |s.records|
    ensures Orphan(Reconnected(s, r, resetBackoff), d) <==> Orphan(s, d)
  {
    if !s.disposed && Registered(s, r) {
      ReleasedOrphans(s, r, d);
      var released := Released(s, r);
      forall e | 0 <= e < |released.dials| ensures released.dials[e].record < |s.records| { assert DialSound(s, e); }
      var t := if resetBackoff then SetRecord(released, r, released.records[r].(backoffMs := BACKOFF_BASE_MS)) else released;
      DialedOrphans(t, r, d);
    }
  }

  lemma FiredOrphans(s: State, timer: nat, d: nat)
    requires Sound(s) && timer < |s.timers| && timer in s.armed
    ensures Orphan(Fired(s, timer), d) <==> Orphan(s, d)
  {
    assert TimerSound(s, timer);
    forall e | 0 <= e < |s.dials| ensures s.dials[e].record < |s.records| { assert DialSound(s, e); }
    if s.timers[timer].Retry? {
      var r := s.timers[timer].record;
      DialedOrphans(SetRecord(s.(armed := s.armed - {timer}), r, s.records[r].(retryTimer := None)), r, d);
    }
  }

  /** Whether a transport is an orphan depends on its link and on its record's transport alone. */
  lemma OrphanDependsOn(s: State, t: State, d: nat)
    requires |s.dials| == |t.dials| && |s.records| == |t.records|
    requires forall e | 0 <= e < |s.dials| :: t.dials[e].record == s.dials[e].record
    requires forall r | 0 <= r < |s.records| :: t.records[r].transport == s.records[r].transport
    requires d < |s.dials| ==> t.dials[d].link == s.dials[d].link
    ensures Orphan(t, d) <==> Orphan(s, d)
  {
  }

  lemma ScheduledKeepsTransports(s: State, r: nat)
    requires r < |s.records|
    ensures var t := Scheduled(s, r);
            && t.dials == s.dials && |t.records| == |s.records|
            && forall q | 0 <= q < |s.records| :: t.records[q].transport == s.records[q].transport
  {
  }

  lemma SettlingKeepsTransports(s: State, step: Step, of: nat)
    requires Possible(s, step) && IsCallbackOf(step, of) && !step.Arrive?
    ensures var t := Next(s, step);
            && |t.dials| == |s.dials| && |t.records| == |s.records|
            && (forall e | 0 <= e < |s.dials| :: t.dials[e].record == s.dials[e].record
                  && t.dials[e].link == if step == ClosePeer(e) then ClosedThere else s.dials[e].link)
            && forall q | 0 <= q < |s.records| :: t.records[q].transport == s.records[q].transport
  {
    hide Scheduled;
    if Current(s, of) {
      var r := s.dials[of].record;
      if step.ClosePeer? {
        ScheduledKeepsTransports(Mark(SetDial(s, of, s.dials[of].phase, ClosedThere), r, Offline), r);
      } else if step.FailConnect? || step.FailInitialize? {
        var cleared := SetDial(s, of, Over, s.dials[of].link).(armed := Cleared(s.armed, s.records[r].softTimer));
        ScheduledKeepsTransports(Mark(cleared, r, Offline), r);
      }
    }
  }

  lemma ArrivalOrphans(s: State, d: nat, of: nat)
    requires Sound(s) && of < |s.dials| && s.dials[of].phase.Dialing?
    ensures Orphan(TransportArrived(s, of), d) <==> Orphan(s, d) || Replaces(s, Arrive(of), d)
  {
    assert DialSound(s, of);
    if d < |s.dials| {
      assert DialSound(s, d);
    }
    if Current(s, of) {
      assert RecordSound(s, s.dials[of].record);
    }
  }

  lemma CallbackOrphans(s: State, step: Step, d: nat, of: nat)
    requires Sound(s) && Possible(s, step) && IsCallbackOf(step, of)
    ensures Orphan(Next(s, step), d) <==> (Orphan(s, d) && step != ClosePeer(d)) || Replaces(s, step, d)
  {
    if step.Arrive? {
      ArrivalOrphans(s, d, of);
    } else {
      SettlingKeepsTransports(s, step, of);
      hide Next, Sound;
      if step != ClosePeer(d) {
        OrphanDependsOn(s, Next(s, step), d);
      }
    }
  }

  /** A step makes an orphan exactly when it replaces an open transport, and only the peer ends one. */
  lemma OrphansComeFromReplacement(s: State, step: Step, d: nat)
    requires Sound(s) && Possible(s, step)
    ensures Orphan(Next(s, step), d) <==> (Orphan(s, d) && step != ClosePeer(d)) || Replaces(s, step, d)
  {
    hide Sound, Orphan, DeviceConnected, TransportArrived, Failed, Ready, PeerClosed, Fired, Reconnected, Dropped;
    match step
    case ConnectDevice(id, resetBackoff) => DeviceConnectedOrphans(s, id, resetBackoff, d);
    case Arrive(e) => CallbackOrphans(s, step, d, e);
    case FailConnect(e, _) => CallbackOrphans(s, step, d, e);
    case Initialize(e) => CallbackOrphans(s, step, d, e);
    case FailInitialize(e, _) => CallbackOrphans(s, step, d, e);
    case ClosePeer(e) => CallbackOrphans(s, step, d, e);
    case Fire(timer) => FiredOrphans(s, timer, d);
    case Schedule(r) => ScheduledOrphans(s, r, d);
    case Reconnect(r, resetBackoff) => ReconnectedOrphans(s, r, resetBackoff, d);
    case Drop(id) => DroppedOrphans(s, id, d);
    case Destroy(ids) =>
      if !s.disposed {
        DisposedKeeps(s);
        AllDroppedOrphans(s.(disposed := true), ids, d);
        DisposedOrphans(s, d);
      }
  }

  lemma ScheduledOrphans(s: State, r: nat, d: nat)
    requires r < |s.records|
    ensures Orphan(Scheduled(s, r), d) <==> Orphan(s, d)
  {
  }

  lemma DisposedOrphans(s: State, d: nat)
    ensures Orphan(s.(disposed := true), d) <==> Orphan(s, d)
  {
  }

  /** No step of the run puts a transport in the place of one that is open. */
  ghost predicate ReplacesNone(states: seq<State>, steps: seq<Step>)
    requires Run(states, steps)
  {
    forall n, d | 0 <= n < |steps| :: !Replaces(states[n], steps[n], d)
  }

  /** Then every open transport is the one a registered record holds, so drop and destroy leave none open. */
  lemma {:induction false} NoTransportLeaks(states: seq<State>, steps: seq<Step>, n: nat, d: nat)
    requires Run(states, steps) && ReplacesNone(states, steps) && n < |states|
    requires d < |states[n].dials| && states[n].dials[d].link.Open?
    ensures var s := states[n];
            var r := s.dials[d].record;
            Registered(s, r) && s.records[r].transport == Some(d) && !s.disposed
  {
    hide Next, Possible, Replaces;
    NoOrphans(states, steps, n, d);
    RunSound(states, steps, n);
    assert DialSound(states[n], d) && RecordSound(states[n], states[n].dials[d].record);
  }

  lemma {:induction false} NoOrphans(states: seq<State>, steps: seq<Step>, n: nat, d: nat)
    requires Run(states, steps) && ReplacesNone(states, steps) && n < |states|
    ensures !Orphan(states[n], d)
  {
    hide Next, Possible, Replaces, Sound;
    if n > 0 {
      NoOrphans(states, steps, n - 1, d);
      RunSound(states, steps, n - 1);
      OrphansComeFromReplacement(states[n - 1], steps[n - 1], d);
    }
  }

  lemma AppendState(states: seq<State>, steps: seq<Step>, step: Step)
    requires Run(states, steps) && Possible(states[|steps|], step)
    ensures Run(states + [Next(states[|steps|], step)], steps + [step])
  {
    hide Next, Possible;
    var all, more := states + [Next(states[|steps|], step)], steps + [step];
    forall n | 0 <= n < |more| ensures Possible(all[n], more[n]) && all[n + 1] == Next(all[n], more[n]) {
      if n < |steps| {
        assert all[n] == states[n] && all[n + 1] == states[n + 1] && more[n] == steps[n];
      }
    }
  }

  function AfterFailedInitialize(id: string): State {
    var r := Record(id, Offline, 1, 2000, Some(0), Some(0), Some(1), Some(0));
    State(false, map[id := 0], [r], [Dial(0, 1, Over, Open)], [Soft(0, 1), Retry(0)], {1})
  }

  lemma FailedInitializeRun(id: string) returns (states: seq<State>, steps: seq<Step>)
    ensures Run(states, steps) && |steps| == 3 && states[3] == AfterFailedInitialize(id)
    ensures steps == [ConnectDevice(id, false), Arrive(0), FailInitialize(0, OtherFailure)]
  {
    var r0 := NewRecord(id).(attempt := 1, softTimer := Some(0));
    var s1 := State(false, map[id := 0], [r0], [Dial(0, 1, Dialing, NotYet)], [Soft(0, 1)], {0});
    var r1 := r0.(transport := Some(0), rpc := Some(0));
    var s2 := State(false, map[id := 0], [r1], [Dial(0, 1, Initializing, Open)], [Soft(0, 1)], {0});
    assert Next(INITIAL, ConnectDevice(id, false)) == s1;
    assert Next(s1, Arrive(0)) == s2;
    assert Next(s2, FailInitialize(0, OtherFailure)) == AfterFailedInitialize(id);
    hide Next;
    AppendState([INITIAL], [], ConnectDevice(id, false));
    AppendState([INITIAL, s1], [ConnectDevice(id, false)], Arrive(0));
    AppendState([INITIAL, s1, s2], [ConnectDevice(id, false), Arrive(0)], FailInitialize(0, OtherFailure));
    states := [INITIAL, s1, s2, AfterFailedInitialize(id)];
    steps := [ConnectDevice(id, false), Arrive(0), FailInitialize(0, OtherFailure)];
    assert [INITIAL] + [s1] == [INITIAL, s1];
    assert [INITIAL, s1] + [s2] == [INITIAL, s1, s2];
    assert [INITIAL, s1, s2] + [AfterFailedInitialize(id)] == states;
  }

  /** When `initialize` fails the transport stays open, the retry replaces it, and even `dropConnection` leaves it open. */
  lemma FailedInitializeLeaks(id: string) returns (states: seq<State>, steps: seq<Step>)
    ensures Run(states, steps) && |steps| == 6
    ensures steps[2..] == [FailInitialize(0, OtherFailure), Fire(1), Arrive(1), Drop(id)]
    ensures states[6].conns == map[] && Orphan(states[6], 0)
  {
    var first, done := FailedInitializeRun(id);
    var s3 := AfterFailedInitialize(id);
    var r3 := s3.records[0].(status := Connecting, attempt := 2, retryTimer := None, softTimer := Some(2));
    var s4 := State(false, map[id := 0], [r3], [Dial(0, 1, Over, Open), Dial(0, 2, Dialing, NotYet)],
                    [Soft(0, 1), Retry(0), Soft(0, 2)], {2});
    var s5 := State(false, map[id := 0], [r3.(transport := Some(1), rpc := Some(1))],
                    [Dial(0, 1, Over, Open), Dial(0, 2, Initializing, Open)], [Soft(0, 1), Retry(0), Soft(0, 2)], {2});
    assert Next(s3, Fire(1)) == s4;
    assert Next(s4, Arrive(1)) == s5;
    var s6 := Next(s5, Drop(id));
    assert s6.conns == map[] && Orphan(s6, 0);
    hide Next, Orphan;
    AppendState(first, done, Fire(1));
    AppendState(first + [s4], done + [Fire(1)], Arrive(1));
    AppendState(first + [s4] + [s5], done + [Fire(1)] + [Arrive(1)], Drop(id));
    states, steps := first + [s4] + [s5] + [s6], done + [Fire(1)] + [Arrive(1)] + [Drop(id)];
  }
}
