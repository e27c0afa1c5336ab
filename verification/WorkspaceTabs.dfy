/**
 * The registry of workspace tabs (web/workspace-tabs.js): selecting, opening, creating, closing, materializing and
 * forgetting tabs, and the snapshots that may only touch a tab nothing has touched since they were asked for.
 */
module WorkspaceTabs {
  import opened Prelude
  import opened TabLifecycle

  /** `uid` is the identity of the tab object. An ephemeral tab has no thread and perhaps no device yet. */
  datatype Tab = Tab(uid: nat, key: string, deviceId: Option<string>, threadId: Option<string>, title: string,
                     ephemeral: bool, life: Life)

  /** `counter` is the module's `lifecycleRevision`; `made` numbers the tab objects. */
  datatype State = State(tabs: seq<Tab>, active: Option<string>, newN: nat, counter: nat, made: nat)

  datatype Thread = Thread(id: string, name: string, preview: string, status: Value)

  function TabKey(deviceId: string, threadId: string): string {
    deviceId + ":" + threadId
  }

  function NewKey(n: nat): string {
    "new-" + Decimal(n)
  }

  // ----- Looking tabs up -----------------------------------------------------------------------------------

  datatype Query = ByKey(key: string) | ByThread(deviceId: string, threadId: string) | ByUid(uid: nat) | Ephemeral

  predicate Matches(tab: Tab, q: Query) {
    match q
    case ByKey(key) => tab.key == key
    case ByThread(deviceId, threadId) => tab.deviceId == Some(deviceId) && tab.threadId == Some(threadId)
    case ByUid(uid) => tab.uid == uid
    case Ephemeral => tab.ephemeral
  }

  /** `tabs.find(..)`: the position of the first match, `|tabs|` if there is none. */
  function Find(tabs: seq<Tab>, q: Query): (i: nat)
    ensures i <= |tabs|
    ensures i < |tabs| ==> Matches(tabs[i], q)
    ensures forall j | 0 <= j < i :: !Matches(tabs[j], q)
  {
    if tabs == [] then 0
    else
      var i := Find(tabs[..|tabs| - 1], q);
      if i < |tabs| - 1 then i else if Matches(tabs[|tabs| - 1], q) then |tabs| - 1 else |tabs|
  }

  function FindThread(threads: seq<Thread>, id: string): (i: nat)
    ensures i <= |threads|
    ensures i < |threads| ==> threads[i].id == id
  {
    if threads == [] then 0
    else
      var i := FindThread(threads[..|threads| - 1], id);
      if i < |threads| - 1 then i else if threads[|threads| - 1].id == id then |threads| - 1 else |threads|
  }

  // ----- The operations --------------------------------------------------------------------------------------

  function SetLife(s: State, i: nat, life: Life): State
    requires i < |s.tabs|
  {
    s.(tabs := s.tabs[i := s.tabs[i].(life := life)])
  }

  function Selected(s: State, key: string): State {
    var i := Find(s.tabs, ByKey(key));
    if i == |s.tabs| then s else SetLife(s, i, Viewed(s.tabs[i].life)).(active := Some(key))
  }

  function NotificationArrived(s: State, deviceId: string, threadId: string, m: Message, viewed: bool, now: int,
                               tidy: string -> string): State
  {
    var i := Find(s.tabs, ByThread(deviceId, threadId));
    if i == |s.tabs| then s
    else
      var (life, counter) := Notified(s.tabs[i].life, m, viewed, now, tidy, s.counter);
      SetLife(s, i, life).(counter := counter)
  }

  /** A durable tab as `openThreadTab` makes it, with the thread's status if the list already has the thread. */
  function MadeTab(s: State, deviceId: string, threadId: string, title: string, known: Option<Thread>, now: int): Tab {
    var life := if known.None? then NEW_LIFE
                else
                  var applied := ApplyStatus(NEW_LIFE, known.value.status, false, "", false, now).0;
                  if known.value.preview != "" then applied.(tail := known.value.preview) else applied;
    Tab(s.made, TabKey(deviceId, threadId), Some(deviceId), Some(threadId), if title != "" then title else "Session", false, life)
  }

  function Opened(s: State, deviceId: string, threadId: string, title: string, known: Option<Thread>, now: int): State {
    var key := TabKey(deviceId, threadId);
    var i := Find(s.tabs, ByKey(key));
    var t := if i == |s.tabs| then s.(tabs := s.tabs + [MadeTab(s, deviceId, threadId, title, known, now)], made := s.made + 1)
             else if title != "" then s.(tabs := s.tabs[i := s.tabs[i].(title := title)])
             else s;
    Selected(t, key)
  }

  /** `allowed`: the mode is normal and a device is paired. */
  function Created(s: State, allowed: bool, deviceId: Option<string>): State {
    var i := Find(s.tabs, Ephemeral);
    if !allowed then s
    else if i < |s.tabs| then Selected(s, s.tabs[i].key)
    else
      var tab := Tab(s.made, NewKey(s.newN + 1), deviceId, None, "New session", true, NEW_LIFE);
      Selected(s.(tabs := s.tabs + [tab], newN := s.newN + 1, made := s.made + 1), tab.key)
  }

  function RemoveAt(tabs: seq<Tab>, i: nat): seq<Tab>
    requires i < |tabs|
  {
    tabs[..i] + tabs[i + 1..]
  }

  function NeighbourKey(tabs: seq<Tab>, i: nat): Option<string> {
    if tabs == [] then None else Some(tabs[if i < |tabs| then i else |tabs| - 1].key)
  }

  function Closed(s: State, key: string, inSession: bool): State {
    var i := Find(s.tabs, ByKey(key));
    if i == |s.tabs| then s
    else
      var left := s.(tabs := RemoveAt(s.tabs, i));
      if s.active != Some(key) then left
      else if !inSession then left.(active := NeighbourKey(left.tabs, i))
      else if left.tabs == [] then left.(active := None)
      else Selected(left.(active := None), NeighbourKey(left.tabs, i).value)
  }

  function LocalTurnBegan(s: State, uid: nat, now: int): State {
    var i := Find(s.tabs, ByUid(uid));
    (if i < |s.tabs| then SetLife(s, i, BeginLocalTurn(s.tabs[i].life, now, s.counter)) else s).(counter := s.counter + 1)
  }

  function LocalTurnAcknowledged(s: State, uid: nat, turnId: Option<string>): State {
    var i := Find(s.tabs, ByUid(uid));
    if i == |s.tabs| then s
    else
      var (life, counter) := Acknowledge(s.tabs[i].life, turnId, s.counter);
      SetLife(s, i, life).(counter := counter)
  }

  function LocalTurnFailed(s: State, uid: nat, error: string): State {
    var i := Find(s.tabs, ByUid(uid));
    (if i < |s.tabs| then SetLife(s, i, FailLocalTurn(s.tabs[i].life, error, s.counter)) else s).(counter := s.counter + 1)
  }

  /** The new thread's tab becomes the active one, whether or not it is still registered. */
  function Materialized(s: State, uid: nat, deviceId: string, threadId: string, title: string): State {
    var i := Find(s.tabs, ByUid(uid));
    var key := TabKey(deviceId, threadId);
    var t := if i == |s.tabs| then s
             else s.(tabs := s.tabs[i := s.tabs[i].(deviceId := Some(deviceId), threadId := Some(threadId), ephemeral := false,
                                                    title := if title != "" then title else "New session", key := key)]);
    t.(active := Some(key))
  }

  function StatusRead(s: State, uid: nat, value: Value, baseline: nat, now: int): State {
    var i := Find(s.tabs, ByUid(uid));
    if i == |s.tabs| then s
    else
      var (life, counter) := ReadStatus(s.tabs[i].life, value, baseline, false, now, s.counter);
      SetLife(s, i, life).(counter := counter)
  }

  /** The baseline map callers capture before they ask: each key's revision. */
  function Baseline(tabs: seq<Tab>): map<string, nat> {
    if tabs == [] then map[] else Baseline(tabs[..|tabs| - 1])[tabs[|tabs| - 1].key := tabs[|tabs| - 1].life.revision]
  }

  function Lookup(m: map<string, nat>, key: string): Option<nat> {
    if key in m then Some(m[key]) else None
  }

  function Retitled(title: string, thread: Thread): string {
    if thread.name != "" then thread.name
    else if thread.preview != "" && (title == "" || title == "Session") then thread.preview
    else title
  }

  /** One round of the loop of `syncSnapshots`. */
  function TabSynced(s: State, i: nat, deviceId: string, threads: seq<Thread>, baseline: map<string, nat>, now: int): State
    requires i < |s.tabs|
  {
    var tab := s.tabs[i];
    if tab.deviceId != Some(deviceId) || tab.threadId.None? then s
    else
      var k := FindThread(threads, tab.threadId.value);
      if k == |threads| then s
      else
        var (life, counter) := Snapshot(tab.life, threads[k].status, Lookup(baseline, tab.key), false, now, s.counter);
        s.(tabs := s.tabs[i := tab.(title := Retitled(tab.title, threads[k]), life := life)], counter := counter)
  }

  function SyncedTo(s: State, n: nat, deviceId: string, threads: seq<Thread>, baseline: map<string, nat>, now: int): (t: State)
    requires n <= |s.tabs|
    ensures |t.tabs| == |s.tabs|
  {
    if n == 0 then s else TabSynced(SyncedTo(s, n - 1, deviceId, threads, baseline, now), n - 1, deviceId, threads, baseline, now)
  }

  function Synced(s: State, deviceId: string, threads: seq<Thread>, baseline: Option<map<string, nat>>, now: int): State {
    SyncedTo(s, |s.tabs|, deviceId, threads, if baseline.Some? then baseline.value else Baseline(s.tabs), now)
  }

  function WithoutDevice(tabs: seq<Tab>, deviceId: string): seq<Tab> {
    if tabs == [] then []
    else WithoutDevice(tabs[..|tabs| - 1], deviceId) + if tabs[|tabs| - 1].deviceId == Some(deviceId) then [] else [tabs[|tabs| - 1]]
  }

  function Forgotten(s: State, deviceId: string): State {
    var i := if s.active.Some? then Find(s.tabs, ByKey(s.active.value)) else |s.tabs|;
    var activeGone := i < |s.tabs| && s.tabs[i].deviceId == Some(deviceId);
    s.(tabs := WithoutDevice(s.tabs, deviceId), active := if activeGone then None else s.active)
  }

  function LookedAt(s: State, uid: nat): State {
    var i := Find(s.tabs, ByUid(uid));
    if i == |s.tabs| then s else SetLife(s, i, Viewed(s.tabs[i].life))
  }

  // ----- The module, updating its registry in place ------------------------------------------------------------

  class Workspace {
    var tabs: seq<Tab>
    var active: Option<string>
    var newN: nat
    var lifecycleRevision: nat
    var made: nat

    ghost function View(): State
      reads this
    {
      State(tabs, active, newN, lifecycleRevision, made)
    }

    constructor ()
      ensures View() == State([], None, 0, 0, 0)
    {
      tabs, active, newN, lifecycleRevision, made := [], None, 0, 0, 0;
    }

    method Touch(i: nat)
      requires i < |tabs|
      modifies this`tabs, this`lifecycleRevision
      ensures lifecycleRevision == old(lifecycleRevision) + 1
      ensures tabs == old(tabs)[i := old(tabs)[i].(life := old(tabs)[i].life.(revision := lifecycleRevision))]
    {
      lifecycleRevision := lifecycleRevision + 1;
      tabs := tabs[i := tabs[i].(life := tabs[i].life.(revision := lifecycleRevision))];
    }

    method Select(key: string)
      modifies this
      ensures View() == Selected(old(View()), key)
    {
      var i := Find(tabs, ByKey(key));
      if i == |tabs| { return; }
      tabs := tabs[i := tabs[i].(life := tabs[i].life.(unread := 0))];
      tabs := tabs[i := tabs[i].(life := tabs[i].life.(unreadForTurn := false))];
      active := Some(key);
    }

    method Notify(deviceId: string, threadId: string, m: Message, viewed: bool, now: int, tidy: string -> string)
      modifies this
      ensures View() == NotificationArrived(old(View()), deviceId, threadId, m, viewed, now, tidy)
    {
      var i := Find(tabs, ByThread(deviceId, threadId));
      if i == |tabs| { return; }
      var (seen, activityChanged) := RecordActivity(tabs[i].life, m, tidy);
      var (next, lifecycleChanged) := Transition(seen, m, viewed, now);
      tabs := tabs[i := tabs[i].(life := next)];
      if lifecycleChanged || activityChanged {
        Touch(i);
      }
    }

    method Close(key: string, inSession: bool) returns (found: bool)
      modifies this
      ensures View() == Closed(old(View()), key, inSession)
      ensures found <==> exists i :: 0 <= i < |old(tabs)| && old(tabs)[i].key == key
    {
      var i := Find(tabs, ByKey(key));
      if i == |tabs| { return false; }
      found := true;
      var wasActive := active == Some(key);
      tabs := tabs[..i] + tabs[i + 1..];
      if wasActive {
        active := None;
        if inSession {
          if |tabs| > 0 {
            Select(tabs[if i < |tabs| then i else |tabs| - 1].key);
          }
          return;
        }
        active := NeighbourKey(tabs, i);
      }
    }

    method OpenThreadTab(deviceId: string, threadId: string, title: string, known: Option<Thread>, now: int)
      modifies this
      ensures View() == Opened(old(View()), deviceId, threadId, title, known, now)
    {
      hide Selected;
      var key := TabKey(deviceId, threadId);
      var i := Find(tabs, ByKey(key));
      if i == |tabs| {
        var life := NEW_LIFE;
        if known.Some? {
          life := ApplyStatus(life, known.value.status, false, "", false, now).0;
          if known.value.preview != "" {
            life := life.(tail := known.value.preview);
          }
        }
        var tab := MakeTab(key, Some(deviceId), Some(threadId), if title != "" then title else "Session", false, life);
        tabs := tabs + [tab];
      } else if title != "" {
        tabs := tabs[i := tabs[i].(title := title)];
      }
      Select(key);
    }

    /** A new tab object: its identity is fresh. */
    method MakeTab(key: string, deviceId: Option<string>, threadId: Option<string>, title: string, ephemeral: bool, life: Life)
      returns (tab: Tab)
      modifies `made
      ensures tab == Tab(old(made), key, deviceId, threadId, title, ephemeral, life) && made == old(made) + 1
    {
      tab := Tab(made, key, deviceId, threadId, title, ephemeral, life);
      made := made + 1;
    }

    method NewTab(allowed: bool, deviceId: Option<string>)
      modifies this
      ensures View() == Created(old(View()), allowed, deviceId)
    {
      hide Selected, NewKey;
      if !allowed { return; }
      var i := Find(tabs, Ephemeral);
      if i < |tabs| {
        Select(tabs[i].key);
        return;
      }
      newN := newN + 1;
      var tab := MakeTab(NewKey(newN), deviceId, None, "New session", true, NEW_LIFE);
      tabs := tabs + [tab];
      Select(tab.key);
    }

    method MaterializeTab(uid: nat, deviceId: string, threadId: string, title: string)
      modifies this
      ensures View() == Materialized(old(View()), uid, deviceId, threadId, title)
    {
      hide TabKey;
      var i := Find(tabs, ByUid(uid));
      if i < |tabs| {
        tabs := tabs[i := tabs[i].(deviceId := Some(deviceId), threadId := Some(threadId), ephemeral := false)];
        tabs := tabs[i := tabs[i].(title := if title != "" then title else "New session")];
        tabs := tabs[i := tabs[i].(key := TabKey(deviceId, threadId))];
      }
      active := Some(TabKey(deviceId, threadId));
    }

    method ReconcileReadStatus(uid: nat, value: Value, baseline: nat, now: int)
      modifies this
      ensures View() == StatusRead(old(View()), uid, value, baseline, now)
    {
      hide ApplyStatus;
      var i := Find(tabs, ByUid(uid));
      if i == |tabs| || tabs[i].life.revision != baseline { return; }
      if value.Object? && value.kind == "idle" && tabs[i].life.lastTurnActive { return; }
      var (life, applied) := ApplyStatus(tabs[i].life, value, false, "", false, now);
      tabs := tabs[i := tabs[i].(life := life)];
      if applied {
        Touch(i);
      }
    }

    method ForgetDevice(deviceId: string) returns (activeGone: bool)
      modifies this
      ensures View() == Forgotten(old(View()), deviceId)
    {
      var i := if active.Some? then Find(tabs, ByKey(active.value)) else |tabs|;
      activeGone := i < |tabs| && tabs[i].deviceId == Some(deviceId);
      tabs := WithoutDevice(tabs, deviceId);
      if activeGone {
        active := None;
      }
    }

    /** The loop over all tabs; a tab touched since the baseline keeps its lifecycle. */
    method SyncSnapshots(deviceId: string, threads: seq<Thread>, baseline: Option<map<string, nat>>, now: int)
      modifies this
      ensures View() == Synced(old(View()), deviceId, threads, baseline, now)
    {
      hide Snapshot, Retitled;
      var base := if baseline.Some? then baseline.value else Baseline(tabs);
      ghost var before := View();
      for i := 0 to |tabs|
        invariant |tabs| == |before.tabs| && View() == SyncedTo(before, i, deviceId, threads, base, now)
      {
        var tab := tabs[i];
        if tab.deviceId == Some(deviceId) && tab.threadId.Some? {
          var k := FindThread(threads, tab.threadId.value);
          if k < |threads| {
            var (life, counter) := Snapshot(tab.life, threads[k].status, Lookup(base, tab.key), false, now, lifecycleRevision);
            tabs := tabs[i := tab.(title := Retitled(tab.title, threads[k]), life := life)];
            lifecycleRevision := counter;
          }
        }
      }
    }
  }

  // ----- Runs ------------------------------------------------------------------------------------------------

  datatype Step =
    | Notify(deviceId: string, threadId: string, m: Message, viewed: bool, now: int)
    | Select(key: string)
    | Open(deviceId: string, threadId: string, title: string, known: Option<Thread>, now: int)
    | Create(allowed: bool, device: Option<string>)
    | Close(key: string, inSession: bool)
    | BeginTurn(uid: nat, now: int)
    | AcknowledgeTurn(uid: nat, turnId: Option<string>)
    | FailTurn(uid: nat, error: string)
    | Materialize(uid: nat, deviceId: string, threadId: string, title: string)
    | Read(uid: nat, value: Value, baselineRevision: nat, now: int)
    | Sync(deviceId: string, threads: seq<Thread>, baseline: Option<map<string, nat>>, now: int)
    | Forget(deviceId: string)
    | LookAt(uid: nat)

  function Next(s: State, step: Step, tidy: string -> string): State {
    match step
    case Notify(deviceId, threadId, m, viewed, now) => NotificationArrived(s, deviceId, threadId, m, viewed, now, tidy)
    case Select(key) => Selected(s, key)
    case Open(deviceId, threadId, title, known, now) => Opened(s, deviceId, threadId, title, known, now)
    case Create(allowed, device) => Created(s, allowed, device)
    case Close(key, inSession) => Closed(s, key, inSession)
    case BeginTurn(uid, now) => LocalTurnBegan(s, uid, now)
    case AcknowledgeTurn(uid, turnId) => LocalTurnAcknowledged(s, uid, turnId)
    case FailTurn(uid, error) => LocalTurnFailed(s, uid, error)
    case Materialize(uid, deviceId, threadId, title) => Materialized(s, uid, deviceId, threadId, title)
    case Read(uid, value, baselineRevision, now) => StatusRead(s, uid, value, baselineRevision, now)
    case Sync(deviceId, threads, baseline, now) => Synced(s, deviceId, threads, baseline, now)
    case Forget(deviceId) => Forgotten(s, deviceId)
    case LookAt(uid) => LookedAt(s, uid)
  }

  // ----- The registry ----------------------------------------------------------------------------------------

  ghost predicate IsNewKey(key: string, newN: nat) {
    exists n: nat :: n <= newN && key == NewKey(n)
  }

  ghost predicate WellKeyed(tab: Tab, newN: nat) {
    if tab.ephemeral then tab.threadId.None? && IsNewKey(tab.key, newN)
    else tab.deviceId.Some? && tab.threadId.Some? && tab.key == TabKey(tab.deviceId.value, tab.threadId.value)
  }

  ghost predicate KeyIn(tabs: seq<Tab>, key: string) {
    exists i :: 0 <= i < |tabs| && tabs[i].key == key
  }

  /** Keys and identities are unique, and so is the ephemeral tab. */
  ghost predicate Apart(tabs: seq<Tab>) {
    forall i, j | 0 <= i < j < |tabs| ::
      tabs[i].key != tabs[j].key && tabs[i].uid != tabs[j].uid && !(tabs[i].ephemeral && tabs[j].ephemeral)
  }

  ghost predicate EachKeyed(tabs: seq<Tab>, newN: nat, made: nat) {
    forall i | 0 <= i < |tabs| :: WellKeyed(tabs[i], newN) && tabs[i].uid < made
  }

  ghost predicate Registry(s: State) {
    && Apart(s.tabs) && EachKeyed(s.tabs, s.newN, s.made)
    && (s.active.Some? ==> KeyIn(s.tabs, s.active.value))
  }

  /** No device and thread has two durable tabs: their key would be the same. */
  lemma OneTabPerThread(s: State, a: Tab, b: Tab)
    requires Registry(s) && a in s.tabs && b in s.tabs && !a.ephemeral && !b.ephemeral
    requires a.deviceId == b.deviceId && a.threadId == b.threadId
    ensures a == b
  {
  }

  /** Same tabs up to titles and lifecycles. */
  ghost predicate SameShape(a: seq<Tab>, b: seq<Tab>) {
    && |a| == |b|
    && forall i | 0 <= i < |a| :: b[i] == a[i].(title := b[i].title, life := b[i].life)
  }

  lemma SameShapeKeeps(s: State, t: State)
    requires Registry(s) && SameShape(s.tabs, t.tabs) && t.newN == s.newN && t.made == s.made
    requires t.active == s.active || (t.active.Some? && KeyIn(s.tabs, t.active.value))
    ensures Registry(t)
  {
    if t.active.Some? {
      var i :| 0 <= i < |s.tabs| && s.tabs[i].key == t.active.value;
      assert t.tabs[i].key == t.active.value;
    }
    assert forall i | 0 <= i < |t.tabs| :: WellKeyed(s.tabs[i], s.newN) ==> WellKeyed(t.tabs[i], t.newN);
  }

  lemma SelectedKeeps(s: State, key: string)
    requires Apart(s.tabs) && EachKeyed(s.tabs, s.newN, s.made)
    requires (s.active.Some? ==> KeyIn(s.tabs, s.active.value)) || KeyIn(s.tabs, key)
    ensures Registry(Selected(s, key)) && (KeyIn(s.tabs, key) ==> Selected(s, key).active == Some(key))
    ensures SameShape(s.tabs, Selected(s, key).tabs)
  {
    var t := Selected(s, key);
    if KeyIn(s.tabs, key) {
      SameShapeKeeps(s.(active := Some(key)), t);
    }
  }

  lemma {:induction false} DecimalDigits(n: nat)
    ensures ':' !in Decimal(n)
  {
    if n >= 10 {
      DecimalDigits(n / 10);
    }
  }

  /** The keys of new tabs never collide with a thread's key, nor with one another. */
  lemma NewKeysAreApart(n: nat, m: nat, deviceId: string, threadId: string)
    ensures NewKey(n) != TabKey(deviceId, threadId)
    ensures NewKey(n) == NewKey(m) ==> n == m
  {
    DecimalDigits(n);
    assert TabKey(deviceId, threadId)[|deviceId|] == ':';
    assert ':' !in "new-";
    if NewKey(n) == NewKey(m) {
      PrefixCancels("new-", Decimal(n), Decimal(m));
      DecimalInjective(n, m);
    }
  }

  lemma AppendKeeps(s: State, t: State, tab: Tab)
    requires Registry(s) && t.tabs == s.tabs + [tab] && t.made == s.made + 1 && t.newN >= s.newN && tab.uid == s.made
    requires !KeyIn(s.tabs, tab.key) && WellKeyed(tab, t.newN)
    requires tab.ephemeral ==> forall i | 0 <= i < |s.tabs| :: !s.tabs[i].ephemeral
    ensures Apart(t.tabs) && EachKeyed(t.tabs, t.newN, t.made) && KeyIn(t.tabs, tab.key)
  {
    assert t.tabs[|s.tabs|].key == tab.key;
    forall i | 0 <= i < |t.tabs| ensures WellKeyed(t.tabs[i], t.newN) && t.tabs[i].uid < t.made {
      if i < |s.tabs| {
        assert WellKeyed(s.tabs[i], s.newN);
      }
    }
  }

  lemma OpenedKeeps(s: State, deviceId: string, threadId: string, title: string, known: Option<Thread>, now: int)
    requires Registry(s)
    ensures var t := Opened(s, deviceId, threadId, title, known, now);
            Registry(t) && t.active == Some(TabKey(deviceId, threadId))
  {
    var key := TabKey(deviceId, threadId);
    var i := Find(s.tabs, ByKey(key));
    if i == |s.tabs| {
      var tab := MadeTab(s, deviceId, threadId, title, known, now);
      var t := s.(tabs := s.tabs + [tab], made := s.made + 1);
      AppendKeeps(s, t, tab);
      SelectedKeeps(t, key);
    } else {
      assert KeyIn(s.tabs, key);
      var t := if title != "" then s.(tabs := s.tabs[i := s.tabs[i].(title := title)]) else s;
      SameShapeKeeps(s, t);
      assert t.tabs[i].key == key;
      SelectedKeeps(t, key);
    }
  }

  lemma NewKeyIsFresh(s: State)
    requires Registry(s) && forall i | 0 <= i < |s.tabs| :: !s.tabs[i].ephemeral
    ensures !KeyIn(s.tabs, NewKey(s.newN + 1))
  {
    hide NewKey, TabKey;
    forall i | 0 <= i < |s.tabs| ensures s.tabs[i].key != NewKey(s.newN + 1) {
      assert WellKeyed(s.tabs[i], s.newN);
      NewKeysAreApart(s.newN + 1, 0, s.tabs[i].deviceId.value, s.tabs[i].threadId.value);
    }
  }

  lemma CreatedKeeps(s: State, allowed: bool, deviceId: Option<string>)
    requires Registry(s)
    ensures Registry(Created(s, allowed, deviceId))
  {
    hide NewKey, Apart, EachKeyed, Selected;
    if allowed {
      var i := Find(s.tabs, Ephemeral);
      if i < |s.tabs| {
        assert KeyIn(s.tabs, s.tabs[i].key);
        SelectedKeeps(s, s.tabs[i].key);
      } else {
        var tab := Tab(s.made, NewKey(s.newN + 1), deviceId, None, "New session", true, NEW_LIFE);
        var t := s.(tabs := s.tabs + [tab], newN := s.newN + 1, made := s.made + 1);
        assert forall j | 0 <= j < |s.tabs| :: !Matches(s.tabs[j], Ephemeral);
        NewKeyIsFresh(s);
        assert IsNewKey(tab.key, t.newN);
        AppendKeeps(s, t, tab);
        SelectedKeeps(t, tab.key);
      }
    }
  }

  lemma RemoveKeeps(s: State, i: nat)
    requires Registry(s) && i < |s.tabs|
    ensures var tabs := RemoveAt(s.tabs, i);
            && Apart(tabs) && EachKeyed(tabs, s.newN, s.made)
            && (forall key | KeyIn(s.tabs, key) && key != s.tabs[i].key :: KeyIn(tabs, key))
  {
    hide WellKeyed, KeyIn;
    var tabs := RemoveAt(s.tabs, i);
    assert forall j | 0 <= j < |tabs| :: tabs[j] == if j < i then s.tabs[j] else s.tabs[j + 1];
    forall key | KeyIn(s.tabs, key) && key != s.tabs[i].key ensures KeyIn(tabs, key) {
      OtherKeyStays(s.tabs, i, key);
    }
  }

  lemma OtherKeyStays(tabs: seq<Tab>, i: nat, key: string)
    requires i < |tabs| && KeyIn(tabs, key) && key != tabs[i].key
    ensures KeyIn(RemoveAt(tabs, i), key)
  {
    var j :| 0 <= j < |tabs| && tabs[j].key == key;
    assert RemoveAt(tabs, i)[if j < i then j else j - 1] == tabs[j];
  }

  lemma ClosedKeeps(s: State, key: string, inSession: bool)
    requires Registry(s)
    ensures Registry(Closed(s, key, inSession))
  {
    hide Apart, EachKeyed;
    var i := Find(s.tabs, ByKey(key));
    if i < |s.tabs| {
      RemoveKeeps(s, i);
      var left := s.(tabs := RemoveAt(s.tabs, i));
      if s.active == Some(key) && left.tabs != [] {
        var at := if i < |left.tabs| then i else |left.tabs| - 1;
        assert KeyIn(left.tabs, left.tabs[at].key);
        if inSession {
          SelectedKeeps(left.(active := None), left.tabs[at].key);
        }
      }
    }
  }

  lemma {:induction false} WithoutDeviceKeeps(tabs: seq<Tab>, deviceId: string, newN: nat, made: nat)
    requires Apart(tabs) && EachKeyed(tabs, newN, made)
    ensures Apart(WithoutDevice(tabs, deviceId)) && EachKeyed(WithoutDevice(tabs, deviceId), newN, made)
    ensures forall tab :: tab in WithoutDevice(tabs, deviceId) <==> tab in tabs && tab.deviceId != Some(deviceId)
  {
    if tabs != [] {
      var earlier, last := tabs[..|tabs| - 1], tabs[|tabs| - 1];
      WithoutDeviceKeeps(earlier, deviceId, newN, made);
      var kept := WithoutDevice(earlier, deviceId);
      assert tabs == earlier + [last];
      forall i | 0 <= i < |kept|
        ensures kept[i].key != last.key && kept[i].uid != last.uid && !(kept[i].ephemeral && last.ephemeral)
      {
        assert kept[i] in earlier;
      }
      assert last.deviceId != Some(deviceId) ==> WithoutDevice(tabs, deviceId) == kept + [last];
    }
  }

  lemma ForgottenKeeps(s: State, deviceId: string)
    requires Registry(s)
    ensures Registry(Forgotten(s, deviceId))
  {
    WithoutDeviceKeeps(s.tabs, deviceId, s.newN, s.made);
    var t := Forgotten(s, deviceId);
    if t.active.Some? {
      var i := Find(s.tabs, ByKey(s.active.value));
      var j :| 0 <= j < |s.tabs| && s.tabs[j].key == s.active.value;
      assert Matches(s.tabs[j], ByKey(s.active.value));
      assert s.tabs[i] in t.tabs;
      var k :| 0 <= k < |t.tabs| && t.tabs[k] == s.tabs[i];
      assert t.tabs[k].key == t.active.value;
    }
  }

  lemma {:induction false} SyncedShape(s: State, n: nat, deviceId: string, threads: seq<Thread>, baseline: map<string, nat>, now: int)
    requires n <= |s.tabs|
    ensures var t := SyncedTo(s, n, deviceId, threads, baseline, now);
            SameShape(s.tabs, t.tabs) && t.active == s.active && t.newN == s.newN && t.made == s.made
  {
    hide Snapshot, Retitled;
    if n > 0 {
      SyncedShape(s, n - 1, deviceId, threads, baseline, now);
    }
  }

  /** A thread that some other tab than `uid` has open. */
  ghost predicate OpenElsewhere(s: State, uid: nat, key: string) {
    exists i :: 0 <= i < |s.tabs| && s.tabs[i].uid != uid && s.tabs[i].key == key
  }

  ghost predicate Registered(s: State, uid: nat) {
    Find(s.tabs, ByUid(uid)) < |s.tabs|
  }

  /**
   * `materialized` keeps the registry sound exactly when its tab is registered and no other tab has the thread, or
   * the tab is gone and another one has it. `ClosedTabMaterializes` is a run without either.
   */
  lemma MaterializeKeepsExactlyWhen(s: State, uid: nat, deviceId: string, threadId: string, title: string)
    requires Registry(s)
    ensures Registry(Materialized(s, uid, deviceId, threadId, title))
       <==> Registered(s, uid) != OpenElsewhere(s, uid, TabKey(deviceId, threadId))
  {
    var t, key, i := Materialized(s, uid, deviceId, threadId, title), TabKey(deviceId, threadId), Find(s.tabs, ByUid(uid));
    if i < |s.tabs| {
      assert t.tabs[i].key == key;
      if OpenElsewhere(s, uid, key) {
        var j :| 0 <= j < |s.tabs| && s.tabs[j].uid != uid && s.tabs[j].key == key;
        assert t.tabs[j].key == key && i != j;
      } else {
        forall j | 0 <= j < |t.tabs| ensures WellKeyed(t.tabs[j], t.newN) && t.tabs[j].uid < t.made {
          assert WellKeyed(s.tabs[j], s.newN);
        }
      }
    } else {
      assert forall j | 0 <= j < |s.tabs| :: !Matches(s.tabs[j], ByUid(uid));
    }
  }

  /** A tab is created, closed while its thread is being made, and materialized: `active` names no registered tab. */
  lemma ClosedTabMaterializes(deviceId: string, threadId: string, tidy: string -> string)
    ensures var s0 := State([], None, 0, 0, 0);
            var s1 := Next(s0, Create(true, Some(deviceId)), tidy);
            var s2 := Next(s1, BeginTurn(0, 0), tidy);
            var s3 := Next(s2, Close(NewKey(1), true), tidy);
            var s4 := Next(s3, Materialize(0, deviceId, threadId, ""), tidy);
            && Registry(s2) && Registered(s2, 0) && s2.active == Some(NewKey(1))
            && s3 == State([], None, 1, 1, 1) && Registry(s3)
            && s4.tabs == [] && s4.active == Some(TabKey(deviceId, threadId)) && !Registry(s4)
  {
    hide NewKey, TabKey;
    var s0 := State([], None, 0, 0, 0);
    var tab := Tab(0, NewKey(1), Some(deviceId), None, "New session", true, NEW_LIFE);
    OnlyTab(tab);
    var s1 := Next(s0, Create(true, Some(deviceId)), tidy);
    var shown := tab.(life := Viewed(tab.life));
    assert s1 == State([shown], Some(NewKey(1)), 1, 0, 1);
    OnlyTab(shown);
    var begun := shown.(life := BeginLocalTurn(shown.life, 0, 0));
    var s2 := Next(s1, BeginTurn(0, 0), tidy);
    assert s2 == State([begun], Some(NewKey(1)), 1, 1, 1);
    OnlyTab(begun);
    assert IsNewKey(NewKey(1), 1) && s2.tabs[0].key == NewKey(1);
    var s3 := Next(s2, Close(NewKey(1), true), tidy);
    assert RemoveAt([begun], 0) == [];
    var s4 := Next(s3, Materialize(0, deviceId, threadId, ""), tidy);
    assert !KeyIn(s4.tabs, TabKey(deviceId, threadId));
  }

  lemma OnlyTab(tab: Tab)
    ensures Find([tab], ByKey(tab.key)) == 0 && Find([tab], ByUid(tab.uid)) == 0
    ensures Find([], Ephemeral) == 0
  {
    assert Matches([tab][0], ByKey(tab.key)) && Matches([tab][0], ByUid(tab.uid));
  }

  ghost predicate Sensible(s: State, step: Step) {
    step.Materialize? ==> Registered(s, step.uid) != OpenElsewhere(s, step.uid, TabKey(step.deviceId, step.threadId))
  }

  /** Every step keeps the registry sound; `materialized` under its condition. */
  lemma StepKeepsRegistry(s: State, step: Step, tidy: string -> string)
    requires Registry(s) && Sensible(s, step)
    ensures Registry(Next(s, step, tidy))
  {
    hide Apart, EachKeyed, KeyIn, Opened, Created, Closed, Materialized, Forgotten, Selected, Registered, OpenElsewhere;
    match step
    case Select(key) => SelectedKeeps(s, key);
    case Open(deviceId, threadId, title, known, now) => OpenedKeeps(s, deviceId, threadId, title, known, now);
    case Create(allowed, device) => CreatedKeeps(s, allowed, device);
    case Close(key, inSession) => ClosedKeeps(s, key, inSession);
    case Materialize(uid, deviceId, threadId, title) => MaterializeKeepsExactlyWhen(s, uid, deviceId, threadId, title);
    case Sync(deviceId, threads, baseline, now) =>
      SyncedShape(s, |s.tabs|, deviceId, threads, if baseline.Some? then baseline.value else Baseline(s.tabs), now);
      SameShapeKeeps(s, Next(s, step, tidy));
    case Forget(deviceId) => ForgottenKeeps(s, deviceId);
    case _ => SameShapeKeeps(s, Next(s, step, tidy));
  }

  // ----- Threads and keys --------------------------------------------------------------------------------------

  /** With a colon-free device id the key determines device and thread, so opening a thread lands on it. */
  lemma TabKeyInjective(deviceId: string, threadId: string, otherDevice: string, otherThread: string)
    requires ':' !in deviceId && ':' !in otherDevice
    requires TabKey(deviceId, threadId) == TabKey(otherDevice, otherThread)
    ensures deviceId == otherDevice && threadId == otherThread
  {
    var key := TabKey(deviceId, threadId);
    assert key[|deviceId|] == ':' && key[|otherDevice|] == ':';
    forall i | 0 <= i < |deviceId| ensures key[i] != ':' { assert key[i] == deviceId[i]; }
    forall i | 0 <= i < |otherDevice| ensures key[i] != ':' { assert key[i] == otherDevice[i]; }
    assert |deviceId| == |otherDevice|;
    assert deviceId == key[..|deviceId|] && otherDevice == key[..|otherDevice|];
    assert threadId == key[|deviceId| + 1..] && otherThread == key[|otherDevice| + 1..];
  }

  lemma OpenLandsOnItsThread(s: State, deviceId: string, threadId: string, title: string, known: Option<Thread>, now: int, tab: Tab)
    requires Registry(s) && ':' !in deviceId
    requires var t := Opened(s, deviceId, threadId, title, known, now);
             tab in t.tabs && t.active == Some(tab.key) && (tab.deviceId.Some? ==> ':' !in tab.deviceId.value)
    ensures !tab.ephemeral && tab.deviceId == Some(deviceId) && tab.threadId == Some(threadId)
  {
    hide Opened, TabKey, NewKey;
    OpenedKeeps(s, deviceId, threadId, title, known, now);
    var t := Opened(s, deviceId, threadId, title, known, now);
    assert WellKeyed(tab, t.newN);
    if tab.ephemeral {
      var n: nat :| n <= t.newN && tab.key == NewKey(n);
      NewKeysAreApart(n, n, deviceId, threadId);
    } else {
      TabKeyInjective(tab.deviceId.value, tab.threadId.value, deviceId, threadId);
    }
  }

  // ----- Revisions and unread over runs --------------------------------------------------------------------------

  /** Every revision was handed out by the counter, and every unread count is in range. */
  ghost predicate LivesBounded(s: State) {
    forall i | 0 <= i < |s.tabs| :: s.tabs[i].life.revision <= s.counter && s.tabs[i].life.unread <= 99
  }

  /** The key a step selects, and so shows. */
  function SelectedBy(s: State, step: Step): Option<string> {
    match step
    case Select(key) => Some(key)
    case Open(deviceId, threadId, _, _, _) => Some(TabKey(deviceId, threadId))
    case Create(allowed, _) =>
      var i := Find(s.tabs, Ephemeral);
      if allowed && i < |s.tabs| then Some(s.tabs[i].key) else None
    case Close(key, inSession) =>
      var i := Find(s.tabs, ByKey(key));
      if i < |s.tabs| && s.active == Some(key) && inSession then NeighbourKey(RemoveAt(s.tabs, i), i) else None
    case _ => None
  }

  /** The step neither shows the tab nor starts or ends its turn. */
  predicate Quiet(s: State, step: Step, tab: Tab) {
    && SelectedBy(s, step) != Some(tab.key)
    && match step
       case Notify(deviceId, threadId, m, _, _) =>
         Matches(tab, ByThread(deviceId, threadId)) ==> !StartsTurn(tab.life, m) && !EndsTurn(tab.life, m)
       case BeginTurn(uid, _) => uid != tab.uid
       case LookAt(uid) => uid != tab.uid
       case _ => true
  }

  /** The step is an accepted terminal of the tab's turn. */
  predicate Ends(step: Step, tab: Tab) {
    step.Notify? && Matches(tab, ByThread(step.deviceId, step.threadId)) && EndsTurn(tab.life, step.m)
  }

  /** What any step may do to a tab's lifecycle. */
  predicate Moves(before: Life, counter: nat, after: Life, later: nat) {
    && counter <= later
    && (after.revision == before.revision || counter < after.revision <= later)
    && after.unread <= 99 && (before.revision <= counter ==> after.revision <= later)
  }

  lemma SelectedTab(s: State, key: string, after: Tab) returns (before: Tab)
    requires after in Selected(s, key).tabs
    ensures before in s.tabs && before.uid == after.uid && before.key == after.key
    ensures after.life == before.life || (after.life == Viewed(before.life) && before.key == key)
  {
    var t := Selected(s, key);
    var i :| 0 <= i < |t.tabs| && t.tabs[i] == after;
    before := s.tabs[i];
  }

  lemma {:induction false} SyncedLives(s: State, n: nat, deviceId: string, threads: seq<Thread>, baseline: map<string, nat>, now: int, i: nat)
    requires n <= |s.tabs| && i < |s.tabs| && s.tabs[i].life.unread <= 99
    ensures var t := SyncedTo(s, n, deviceId, threads, baseline, now);
            && Moves(s.tabs[i].life, s.counter, t.tabs[i].life, t.counter) && Spends(s.tabs[i].life, t.tabs[i].life)
            && (i >= n ==> t.tabs[i] == s.tabs[i])
            && (Lookup(baseline, s.tabs[i].key) != Some(s.tabs[i].life.revision) ==> t.tabs[i].life == s.tabs[i].life)
  {
    hide Retitled, Snapshot, Spends;
    if n > 0 {
      var u := SyncedTo(s, n - 1, deviceId, threads, baseline, now);
      SyncedLives(s, n - 1, deviceId, threads, baseline, now, i);
      SyncedShape(s, n - 1, deviceId, threads, baseline, now);
      RoundMoves(u, n - 1, deviceId, threads, baseline, now);
    } else {
      assert Spends(s.tabs[i].life, s.tabs[i].life) by { SpendsNothing(s.tabs[i].life); }
    }
  }

  lemma SpendsNothing(t: Life)
    requires t.unread <= 99
    ensures Spends(t, t)
  {
  }

  /** One round changes one tab, and that only when its revision is the baseline's. */
  lemma RoundMoves(u: State, i: nat, deviceId: string, threads: seq<Thread>, baseline: map<string, nat>, now: int)
    requires i < |u.tabs|
    ensures var t := TabSynced(u, i, deviceId, threads, baseline, now);
            && |t.tabs| == |u.tabs| && (forall j | 0 <= j < |u.tabs| && j != i :: t.tabs[j] == u.tabs[j])
            && u.counter <= t.counter
            && (u.tabs[i].life.unread <= 99 ==> Moves(u.tabs[i].life, u.counter, t.tabs[i].life, t.counter) && Spends(u.tabs[i].life, t.tabs[i].life))
            && (Lookup(baseline, u.tabs[i].key) != Some(u.tabs[i].life.revision) ==> t.tabs[i].life == u.tabs[i].life)
  {
    hide Retitled;
    var tab := u.tabs[i];
    if tab.deviceId == Some(deviceId) && tab.threadId.Some? {
      var k := FindThread(threads, tab.threadId.value);
      if k < |threads| && tab.life.unread <= 99 {
        SnapshotSpends(tab.life, threads[k].status, Lookup(baseline, tab.key), false, now, u.counter);
      }
    }
  }

  lemma {:induction false} WithoutDeviceIn(tabs: seq<Tab>, deviceId: string, tab: Tab)
    requires tab in WithoutDevice(tabs, deviceId)
    ensures tab in tabs
  {
    if tabs != [] {
      assert tabs == tabs[..|tabs| - 1] + [tabs[|tabs| - 1]];
      if tab in WithoutDevice(tabs[..|tabs| - 1], deviceId) {
        WithoutDeviceIn(tabs[..|tabs| - 1], deviceId, tab);
      }
    }
  }

  /** Where a tab of the next state comes from, for the operations that only move or show tabs. */
  lemma ShownTab(s: State, step: Step, tidy: string -> string, after: Tab) returns (before: Tab)
    requires Registry(s) && (step.Select? || step.Open? || step.Create? || step.Close?)
    requires after in Next(s, step, tidy).tabs && after.uid != s.made
    ensures before in s.tabs && before.uid == after.uid
    ensures after.life == before.life || (after.life == Viewed(before.life) && SelectedBy(s, step) == Some(before.key))
  {
    hide Selected, Registry;
    match step
    case Select(key) => before := SelectedTab(s, key, after);
    case Open(deviceId, threadId, title, known, now) =>
      var key := TabKey(deviceId, threadId);
      var i := Find(s.tabs, ByKey(key));
      if i == |s.tabs| {
        before := SelectedTab(s.(tabs := s.tabs + [MadeTab(s, deviceId, threadId, title, known, now)], made := s.made + 1), key, after);
        assert before.uid != s.made;
      } else {
        var t := if title != "" then s.(tabs := s.tabs[i := s.tabs[i].(title := title)]) else s;
        var shown := SelectedTab(t, key, after);
        var j :| 0 <= j < |t.tabs| && t.tabs[j] == shown;
        before := s.tabs[j];
      }
    case Create(allowed, deviceId) =>
      var i := Find(s.tabs, Ephemeral);
      if !allowed {
        before := after;
      } else if i < |s.tabs| {
        before := SelectedTab(s, s.tabs[i].key, after);
      } else {
        var tab := Tab(s.made, NewKey(s.newN + 1), deviceId, None, "New session", true, NEW_LIFE);
        before := SelectedTab(s.(tabs := s.tabs + [tab], newN := s.newN + 1, made := s.made + 1), tab.key, after);
        assert forall j | 0 <= j < |s.tabs| :: !Matches(s.tabs[j], Ephemeral);
        NewKeyIsFresh(s);
      }
    case Close(key, inSession) =>
      var i := Find(s.tabs, ByKey(key));
      if i == |s.tabs| {
        before := after;
      } else {
        var left := s.(tabs := RemoveAt(s.tabs, i));
        if s.active == Some(key) && inSession && left.tabs != [] {
          before := SelectedTab(left.(active := None), NeighbourKey(left.tabs, i).value, after);
        } else {
          before := after;
        }
        assert forall tab | tab in left.tabs :: tab in s.tabs;
      }
  }

  lemma ShowingMoves(s: State, step: Step, tidy: string -> string)
    requires step.Select? || step.Open? || step.Create? || step.Close?
    ensures Next(s, step, tidy).counter == s.counter
  {
  }

  /** Where a tab of the next state comes from, for the operations that change one tab in its place. */
  lemma ChangedTab(s: State, step: Step, tidy: string -> string, i: nat)
    requires Registry(s) && i < |s.tabs| && s.tabs[i].life.unread <= 99
    requires !(step.Select? || step.Open? || step.Create? || step.Close? || step.Sync? || step.Forget?)
    ensures var t := Next(s, step, tidy);
            && |t.tabs| == |s.tabs| && t.tabs[i].uid == s.tabs[i].uid
            && Moves(s.tabs[i].life, s.counter, t.tabs[i].life, t.counter)
            && (Quiet(s, step, s.tabs[i]) ==> Spends(s.tabs[i].life, t.tabs[i].life))
            && (Ends(step, s.tabs[i]) ==> Settles(s.tabs[i].life, t.tabs[i].life, step.viewed))
  {
    hide Notified, ReadStatus, Materialized, Registry, StartsTurn, EndsTurn, NotificationArrived;
    var life := s.tabs[i].life;
    match step
    case Notify(_, _, _, _, _) => NotifiedTab(s, step, tidy, i);
    case Read(uid, value, baseline, now) =>
      SnapshotSpends(life, value, Some(baseline), false, now, s.counter);
      ReadMoves(life, value, baseline, now, s.counter);
      var k := Find(s.tabs, ByUid(uid));
      if k < |s.tabs| {
        ReadMoves(s.tabs[k].life, value, baseline, now, s.counter);
      }
    case Materialize(uid, deviceId, threadId, title) => MaterializedTab(s, uid, deviceId, threadId, title, i);
    case _ =>
  }

  /** Only one tab has the thread, so the one found is the one there is. */
  lemma ThreadIsFound(s: State, deviceId: string, threadId: string, i: nat)
    requires Registry(s) && i < |s.tabs| && Matches(s.tabs[i], ByThread(deviceId, threadId))
    ensures Find(s.tabs, ByThread(deviceId, threadId)) == i
  {
    hide TabKey;
    var k := Find(s.tabs, ByThread(deviceId, threadId));
    assert WellKeyed(s.tabs[i], s.newN) && WellKeyed(s.tabs[k], s.newN);
  }

  lemma NotifiedTab(s: State, step: Step, tidy: string -> string, i: nat)
    requires Registry(s) && step.Notify? && i < |s.tabs| && s.tabs[i].life.unread <= 99
    ensures var t := NotificationArrived(s, step.deviceId, step.threadId, step.m, step.viewed, step.now, tidy);
            && |t.tabs| == |s.tabs| && t.tabs[i].uid == s.tabs[i].uid
            && Moves(s.tabs[i].life, s.counter, t.tabs[i].life, t.counter)
            && (Quiet(s, step, s.tabs[i]) ==> Spends(s.tabs[i].life, t.tabs[i].life))
            && (Ends(step, s.tabs[i]) ==> Settles(s.tabs[i].life, t.tabs[i].life, step.viewed))
  {
    hide Notified, StartsTurn, EndsTurn, SelectedBy, Settles, Spends;
    if Matches(s.tabs[i], ByThread(step.deviceId, step.threadId)) {
      ThreadIsFound(s, step.deviceId, step.threadId, i);
    }
    hide Registry;
    SpendsNothing(s.tabs[i].life);
    var k := Find(s.tabs, ByThread(step.deviceId, step.threadId));
    NotificationSpends(s.tabs[i].life, step.m, step.viewed, step.now, tidy, s.counter);
    if k < |s.tabs| {
      NotifiedMoves(s.tabs[k].life, step.m, step.viewed, step.now, tidy, s.counter);
    }
  }

  lemma NotifiedMoves(t: Life, m: Message, viewed: bool, now: int, tidy: string -> string, counter: nat)
    ensures var (next, later) := Notified(t, m, viewed, now, tidy, counter);
            counter <= later && (next.revision == t.revision || next.revision == later == counter + 1)
  {
    hide RecordActivity, Transition;
    KeepsRevision(t, m, viewed, now, tidy);
    KeepsRevision(RecordActivity(t, m, tidy).0, m, viewed, now, tidy);
  }

  lemma KeepsRevision(t: Life, m: Message, viewed: bool, now: int, tidy: string -> string)
    ensures RecordActivity(t, m, tidy).0.revision == t.revision
    ensures Transition(t, m, viewed, now).0.revision == t.revision
  {
  }

  lemma ReadMoves(t: Life, value: Value, baseline: nat, now: int, counter: nat)
    ensures var (next, later) := ReadStatus(t, value, baseline, false, now, counter);
            counter <= later && (next.revision == t.revision || next.revision == later == counter + 1)
  {
  }

  lemma MaterializedTab(s: State, uid: nat, deviceId: string, threadId: string, title: string, i: nat)
    requires i < |s.tabs|
    ensures var t := Materialized(s, uid, deviceId, threadId, title);
            |t.tabs| == |s.tabs| && t.tabs[i].uid == s.tabs[i].uid && t.tabs[i].life == s.tabs[i].life && t.counter == s.counter
  {
  }

  /** Every tab of the next state that is not new was there before, and its lifecycle moved as a step may move it. */
  lemma TabBefore(s: State, step: Step, tidy: string -> string, after: Tab) returns (before: Tab)
    requires Registry(s) && LivesBounded(s)
    requires after in Next(s, step, tidy).tabs && after.uid != s.made
    ensures before in s.tabs && before.uid == after.uid
    ensures Moves(before.life, s.counter, after.life, Next(s, step, tidy).counter)
    ensures Quiet(s, step, before) ==> Spends(before.life, after.life)
    ensures Ends(step, before) ==> Settles(before.life, after.life, step.viewed)
  {
    hide Next, Quiet, Moves, Spends, Settles, Matches, EndsTurn, Apart, EachKeyed;
    var t := Next(s, step, tidy);
    if step.Select? || step.Open? || step.Create? || step.Close? {
      before := ShownTab(s, step, tidy, after);
      ShowingMoves(s, step, tidy);
      ShownLife(s, step, before, after.life);
    } else if step.Sync? {
      before := SyncedTab(s, step, tidy, after);
    } else if step.Forget? {
      ForgottenTab(s, step, tidy, after);
      before := after;
      ShownLife(s, step, before, after.life);
    } else {
      var i :| 0 <= i < |t.tabs| && t.tabs[i] == after;
      SameLength(s, step, tidy);
      ChangedTab(s, step, tidy, i);
      before := s.tabs[i];
    }
  }

  lemma SameLength(s: State, step: Step, tidy: string -> string)
    requires !(step.Select? || step.Open? || step.Create? || step.Close? || step.Sync? || step.Forget?)
    ensures |Next(s, step, tidy).tabs| == |s.tabs|
  {
  }

  lemma ShownLife(s: State, step: Step, before: Tab, life: Life)
    requires before in s.tabs && LivesBounded(s)
    requires life == before.life || (life == Viewed(before.life) && SelectedBy(s, step) == Some(before.key))
    ensures Moves(before.life, s.counter, life, s.counter)
    ensures Quiet(s, step, before) ==> Spends(before.life, life)
  {
  }

  lemma ForgottenTab(s: State, step: Step, tidy: string -> string, after: Tab)
    requires step.Forget? && after in Next(s, step, tidy).tabs
    ensures after in s.tabs && Next(s, step, tidy).counter == s.counter
  {
    WithoutDeviceIn(s.tabs, step.deviceId, after);
  }

  lemma SyncedTab(s: State, step: Step, tidy: string -> string, after: Tab) returns (before: Tab)
    requires step.Sync? && LivesBounded(s) && after in Next(s, step, tidy).tabs
    ensures before in s.tabs && before.uid == after.uid
    ensures Moves(before.life, s.counter, after.life, Next(s, step, tidy).counter) && Spends(before.life, after.life)
  {
    var base := if step.baseline.Some? then step.baseline.value else Baseline(s.tabs);
    var t := Next(s, step, tidy);
    var i :| 0 <= i < |t.tabs| && t.tabs[i] == after;
    SyncedShape(s, |s.tabs|, step.deviceId, step.threads, base, step.now);
    SyncedLives(s, |s.tabs|, step.deviceId, step.threads, base, step.now, i);
    before := s.tabs[i];
  }

  /** A tab made by the step is fresh and shown. */
  lemma NewTabLife(s: State, step: Step, tidy: string -> string, after: Tab)
    requires Registry(s) && after in Next(s, step, tidy).tabs && after.uid == s.made
    ensures after.life.unread == 0 && after.life.revision == 0
    ensures step.Open? || step.Create?
  {
    hide Registry, Selected;
    forall tab | tab in s.tabs ensures tab.uid != s.made { OldTabIsOlder(s, tab); }
    match step
    case Open(deviceId, threadId, title, known, now) =>
      var key := TabKey(deviceId, threadId);
      var i := Find(s.tabs, ByKey(key));
      var made := MadeTab(s, deviceId, threadId, title, known, now);
      var t := if i == |s.tabs| then s.(tabs := s.tabs + [made], made := s.made + 1)
               else if title != "" then s.(tabs := s.tabs[i := s.tabs[i].(title := title)]) else s;
      var before := SelectedTab(t, key, after);
    case Create(allowed, deviceId) =>
      var i := Find(s.tabs, Ephemeral);
      if allowed && i == |s.tabs| {
        var tab := Tab(s.made, NewKey(s.newN + 1), deviceId, None, "New session", true, NEW_LIFE);
        var before := SelectedTab(s.(tabs := s.tabs + [tab], newN := s.newN + 1, made := s.made + 1), tab.key, after);
      } else if allowed {
        var before := SelectedTab(s, s.tabs[i].key, after);
      }
    case _ => OnlyTheseMake(s, step, tidy, after);
  }

  lemma OldTabIsOlder(s: State, tab: Tab)
    requires Registry(s) && tab in s.tabs
    ensures tab.uid < s.made
  {
  }

  lemma OnlyTheseMake(s: State, step: Step, tidy: string -> string, after: Tab)
    requires Registry(s) && !step.Open? && !step.Create? && after in Next(s, step, tidy).tabs
    ensures after.uid != s.made
  {
    hide Registry, Next;
    var t := Next(s, step, tidy);
    forall tab | tab in s.tabs ensures tab.uid != s.made { OldTabIsOlder(s, tab); }
    KeptUids(s, step, tidy, after);
  }

  lemma KeptUids(s: State, step: Step, tidy: string -> string, after: Tab)
    requires !step.Open? && !step.Create? && after in Next(s, step, tidy).tabs
    ensures exists before :: before in s.tabs && before.uid == after.uid
  {
    var t := Next(s, step, tidy);
    var i :| 0 <= i < |t.tabs| && t.tabs[i] == after;
    if step.Select? || step.Close? || step.Forget? {
      if step.Select? {
        assert s.tabs[i].uid == after.uid;
      } else if step.Forget? {
        WithoutDeviceIn(s.tabs, step.deviceId, after);
      } else {
        CloseKeepsUids(s, step.key, step.inSession, after);
      }
    } else if step.Sync? {
      SyncedShape(s, |s.tabs|, step.deviceId, step.threads, if step.baseline.Some? then step.baseline.value else Baseline(s.tabs), step.now);
      assert s.tabs[i].uid == after.uid;
    } else {
      SameLength(s, step, tidy);
      assert s.tabs[i].uid == after.uid;
    }
  }

  lemma CloseKeepsUids(s: State, key: string, inSession: bool, after: Tab)
    requires after in Closed(s, key, inSession).tabs
    ensures exists before :: before in s.tabs && before.uid == after.uid
  {
    hide Selected;
    var i := Find(s.tabs, ByKey(key));
    if i < |s.tabs| {
      var left := s.(tabs := RemoveAt(s.tabs, i));
      assert forall tab | tab in left.tabs :: tab in s.tabs;
      if s.active == Some(key) && inSession && left.tabs != [] {
        var before := SelectedTab(left.(active := None), NeighbourKey(left.tabs, i).value, after);
        assert before in s.tabs;
      }
    }
  }

  ghost predicate Run(states: seq<State>, steps: seq<Step>, tidy: string -> string) {
    && |states| == |steps| + 1 && Registry(states[0]) && LivesBounded(states[0])
    && forall n | 0 <= n < |steps| :: Sensible(states[n], steps[n]) && states[n + 1] == Next(states[n], steps[n], tidy)
  }

  lemma StepKeepsBounds(s: State, step: Step, tidy: string -> string)
    requires Registry(s) && LivesBounded(s)
    ensures LivesBounded(Next(s, step, tidy))
  {
    hide Next, Registry;
    var t := Next(s, step, tidy);
    forall i | 0 <= i < |t.tabs| ensures t.tabs[i].life.revision <= t.counter && t.tabs[i].life.unread <= 99 {
      if t.tabs[i].uid == s.made {
        NewTabLife(s, step, tidy, t.tabs[i]);
      } else {
        var before := TabBefore(s, step, tidy, t.tabs[i]);
        var j :| 0 <= j < |s.tabs| && s.tabs[j] == before;
      }
    }
  }

  /** In every run the registry stays sound, revisions stay below the counter, and unread stays within 0 to 99. */
  lemma {:induction false} RunKeeps(states: seq<State>, steps: seq<Step>, tidy: string -> string, n: nat)
    requires Run(states, steps, tidy) && n < |states|
    ensures Registry(states[n]) && LivesBounded(states[n])
  {
    hide Next, Registry, LivesBounded, Sensible;
    if n > 0 {
      RunKeeps(states, steps, tidy, n - 1);
      StepKeepsRegistry(states[n - 1], steps[n - 1], tidy);
      StepKeepsBounds(states[n - 1], steps[n - 1], tidy);
    }
  }

  lemma MadeOnlyGrows(s: State, step: Step, tidy: string -> string)
    ensures s.made <= Next(s, step, tidy).made <= s.made + 1
  {
    if step.Sync? {
      SyncedShape(s, |s.tabs|, step.deviceId, step.threads, if step.baseline.Some? then step.baseline.value else Baseline(s.tabs), step.now);
    }
  }

  lemma {:induction false} MadeGrows(states: seq<State>, steps: seq<Step>, tidy: string -> string, m: nat, n: nat)
    requires Run(states, steps, tidy) && m <= n < |states|
    ensures states[m].made <= states[n].made
  {
    hide Next, Registry, LivesBounded, Sensible;
    if m < n {
      MadeGrows(states, steps, tidy, m, n - 1);
      MadeOnlyGrows(states[n - 1], steps[n - 1], tidy);
    }
  }

  /** A tab of state `n` that is not younger than state `m` was in state `m`; since then it kept its revision or was touched. */
  lemma {:induction false} TabEarlier(states: seq<State>, steps: seq<Step>, tidy: string -> string, m: nat, n: nat, after: Tab) returns (before: Tab)
    requires Run(states, steps, tidy) && m <= n < |states| && after in states[n].tabs && after.uid < states[m].made
    ensures before in states[m].tabs && before.uid == after.uid
    ensures states[m].counter <= states[n].counter
    ensures after.life.revision == before.life.revision || states[m].counter < after.life.revision
    decreases n
  {
    hide Next, Registry, LivesBounded, Sensible, Spends, Quiet;
    if m == n {
      before := after;
    } else {
      RunKeeps(states, steps, tidy, n - 1);
      MadeGrows(states, steps, tidy, m, n - 1);
      var middle := TabBefore(states[n - 1], steps[n - 1], tidy, after);
      before := TabEarlier(states, steps, tidy, m, n - 1, middle);
    }
  }

  // ----- Stale snapshots -----------------------------------------------------------------------------------------

  lemma {:induction false} BaselineBounded(tabs: seq<Tab>, counter: nat, key: string)
    requires forall i | 0 <= i < |tabs| :: tabs[i].life.revision <= counter
    ensures key in Baseline(tabs) ==> Baseline(tabs)[key] <= counter
  {
    if tabs != [] {
      BaselineBounded(tabs[..|tabs| - 1], counter, key);
    }
  }

  lemma TabsAreKnownByUid(s: State, a: Tab, b: Tab)
    requires Registry(s) && a in s.tabs && b in s.tabs && a.uid == b.uid
    ensures a == b
  {
  }

  /** A touch after state `m` gives the tab a revision that no baseline of state `m` holds. */
  lemma TouchedTabIsAhead(states: seq<State>, steps: seq<Step>, tidy: string -> string, m: nat, j: nat, n: nat, touched: Tab, tab: Tab)
    requires Run(states, steps, tidy) && m <= j < n < |states|
    requires touched in states[j + 1].tabs && touched.life.revision > states[j].counter
    requires tab in states[n].tabs && tab.uid == touched.uid
    ensures tab.life.revision > states[m].counter
    ensures Lookup(Baseline(states[m].tabs), tab.key) != Some(tab.life.revision)
  {
    hide Next, Registry, Sensible;
    RunKeeps(states, steps, tidy, m);
    RunKeeps(states, steps, tidy, j + 1);
    CounterGrows(states, steps, tidy, m, j);
    CounterGrows(states, steps, tidy, j, j + 1);
    OldTabIsOlder(states[j + 1], touched);
    var before := TabEarlier(states, steps, tidy, j + 1, n, tab);
    TabsAreKnownByUid(states[j + 1], before, touched);
    BaselineBounded(states[m].tabs, states[m].counter, tab.key);
  }

  lemma CounterStep(s: State, step: Step, tidy: string -> string)
    requires LivesBounded(s)
    ensures s.counter <= Next(s, step, tidy).counter
  {
    hide Notified, ReadStatus;
    match step
    case Sync(deviceId, threads, baseline, now) =>
      SyncCounter(s, |s.tabs|, deviceId, threads, if baseline.Some? then baseline.value else Baseline(s.tabs), now);
    case Notify(deviceId, threadId, m, viewed, now) =>
      var i := Find(s.tabs, ByThread(deviceId, threadId));
      if i < |s.tabs| {
        NotifiedMoves(s.tabs[i].life, m, viewed, now, tidy, s.counter);
      }
    case Read(uid, value, baseline, now) =>
      var i := Find(s.tabs, ByUid(uid));
      if i < |s.tabs| {
        ReadMoves(s.tabs[i].life, value, baseline, now, s.counter);
      }
    case Open(_, _, _, _, _) => ShowingMoves(s, step, tidy);
    case Close(_, _) => ShowingMoves(s, step, tidy);
    case _ =>
  }

  lemma {:induction false} SyncCounter(s: State, n: nat, deviceId: string, threads: seq<Thread>, baseline: map<string, nat>, now: int)
    requires n <= |s.tabs|
    ensures s.counter <= SyncedTo(s, n, deviceId, threads, baseline, now).counter
  {
    hide TabSynced;
    if n > 0 {
      SyncCounter(s, n - 1, deviceId, threads, baseline, now);
      RoundMoves(SyncedTo(s, n - 1, deviceId, threads, baseline, now), n - 1, deviceId, threads, baseline, now);
    }
  }

  lemma {:induction false} CounterGrows(states: seq<State>, steps: seq<Step>, tidy: string -> string, m: nat, n: nat)
    requires Run(states, steps, tidy) && m <= n < |states|
    ensures states[m].counter <= states[n].counter
  {
    hide Next, Registry, LivesBounded, Sensible;
    if m < n {
      CounterGrows(states, steps, tidy, m, n - 1);
      RunKeeps(states, steps, tidy, n - 1);
      CounterStep(states[n - 1], steps[n - 1], tidy);
    }
  }

  /**
   * A `thread/list` reply whose baseline was captured in state `m` arrives in state `n`; a tab that any step between
   * touched keeps its whole lifecycle.
   */
  lemma StaleListIsHarmless(states: seq<State>, steps: seq<Step>, tidy: string -> string, m: nat, j: nat, n: nat, touched: Tab, i: nat,
                            deviceId: string, threads: seq<Thread>, now: int)
    requires Run(states, steps, tidy) && m <= j < n < |states|
    requires touched in states[j + 1].tabs && touched.life.revision > states[j].counter
    requires i < |states[n].tabs| && states[n].tabs[i].uid == touched.uid
    ensures var t := Synced(states[n], deviceId, threads, Some(Baseline(states[m].tabs)), now);
            |t.tabs| == |states[n].tabs| && t.tabs[i].uid == touched.uid && t.tabs[i].life == states[n].tabs[i].life
  {
    hide Next, Registry, Sensible;
    RunKeeps(states, steps, tidy, n);
    TouchedTabIsAhead(states, steps, tidy, m, j, n, touched, states[n].tabs[i]);
    SyncedLives(states[n], |states[n].tabs|, deviceId, threads, Baseline(states[m].tabs), now, i);
    SyncedShape(states[n], |states[n].tabs|, deviceId, threads, Baseline(states[m].tabs), now);
  }

  /** The same for a `thread/read` reply that remembers the tab's revision of state `m`. */
  lemma StaleReadIsHarmless(states: seq<State>, steps: seq<Step>, tidy: string -> string, m: nat, j: nat, n: nat, asked: Tab, touched: Tab,
                            value: Value, now: int)
    requires Run(states, steps, tidy) && m <= j < n < |states|
    requires asked in states[m].tabs && touched in states[j + 1].tabs && touched.life.revision > states[j].counter
    ensures StatusRead(states[n], touched.uid, value, asked.life.revision, now) == states[n]
  {
    hide Next, Registry, Sensible;
    var i := Find(states[n].tabs, ByUid(touched.uid));
    if i < |states[n].tabs| {
      var tab := states[n].tabs[i];
      TouchedTabIsAhead(states, steps, tidy, m, j, n, touched, tab);
      RunKeeps(states, steps, tidy, m);
      StaleSnapshotChangesNothing(tab.life, value, Some(asked.life.revision), false, now, states[n].counter);
    }
  }

  /** No list of structured idle, live or unloaded statuses ends a live turn, whatever its baseline. */
  lemma {:induction false} NoIdleListEndsATurn(s: State, n: nat, deviceId: string, threads: seq<Thread>, baseline: map<string, nat>, now: int, i: nat)
    requires n <= |s.tabs| && i < |s.tabs| && s.tabs[i].life.lastTurnActive
    requires forall k | 0 <= k < |threads| :: KindOf(threads[k].status) == "idle" ==> threads[k].status.Object?
    requires forall k | 0 <= k < |threads| :: KindOf(threads[k].status) != "systemError" && KindOf(threads[k].status) != "error"
    ensures SyncedTo(s, n, deviceId, threads, baseline, now).tabs[i].life.lastTurnActive
  {
    hide Retitled;
    if n > 0 {
      NoIdleListEndsATurn(s, n - 1, deviceId, threads, baseline, now, i);
    }
  }

  // ----- Unread --------------------------------------------------------------------------------------------------

  /** From state `j` to state `n` no step shows the tab, starts its turn or ends it. */
  ghost predicate QuietSpan(states: seq<State>, steps: seq<Step>, uid: nat, j: nat, n: nat)
    requires |states| == |steps| + 1 && n <= |steps|
  {
    forall k, tab | j <= k < n && tab in states[k].tabs && tab.uid == uid :: Quiet(states[k], steps[k], tab)
  }

  /**
   * While nobody looks, and no further start and no terminal is accepted, a turn is counted once or not at all, as
   * its flag says, whatever items, statuses, errors, snapshots and duplicates arrive.
   */
  lemma {:induction false} TurnIsCountedByItsFlag(states: seq<State>, steps: seq<Step>, tidy: string -> string, j: nat, n: nat, start: Tab, end: Tab)
    requires Run(states, steps, tidy) && j <= n < |states| && start in states[j].tabs && end in states[n].tabs && start.uid == end.uid
    requires !start.life.unreadForTurn && QuietSpan(states, steps, start.uid, j, n)
    ensures end.life.unread == if end.life.unreadForTurn then Bumped(start.life.unread) else start.life.unread
    decreases n
  {
    hide Next, Registry, LivesBounded, Sensible, Quiet, Moves, Ends;
    RunKeeps(states, steps, tidy, j);
    if j == n {
      TabsAreKnownByUid(states[j], start, end);
    } else {
      RunKeeps(states, steps, tidy, n - 1);
      OldTabIsOlder(states[j], start);
      MadeGrows(states, steps, tidy, j, n - 1);
      var before := TabBefore(states[n - 1], steps[n - 1], tidy, end);
      TurnIsCountedByItsFlag(states, steps, tidy, j, n - 1, start, before);
      assert Quiet(states[n - 1], steps[n - 1], before);
    }
  }

  /**
   * From an accepted start (the flag is clear) to its first accepted terminal a turn raises unread exactly once,
   * capped at 99, unless the tab is on screen when the terminal arrives and nothing was counted before.
   */
  lemma TurnIsCountedOnce(states: seq<State>, steps: seq<Step>, tidy: string -> string, j: nat, n: nat, start: Tab, last: Tab, end: Tab)
    requires Run(states, steps, tidy) && j <= n < |steps|
    requires start in states[j].tabs && last in states[n].tabs && end in states[n + 1].tabs && start.uid == last.uid == end.uid
    requires !start.life.unreadForTurn && QuietSpan(states, steps, start.uid, j, n) && Ends(steps[n], last)
    ensures !end.life.unreadForTurn
    ensures end.life.unread == if last.life.unreadForTurn || !steps[n].viewed then Bumped(start.life.unread) else start.life.unread
  {
    hide Next, Registry, LivesBounded, Sensible, Quiet, Moves, EndsTurn, Matches;
    RunKeeps(states, steps, tidy, j);
    RunKeeps(states, steps, tidy, n);
    OldTabIsOlder(states[j], start);
    MadeGrows(states, steps, tidy, j, n);
    var before := TabBefore(states[n], steps[n], tidy, end);
    TabsAreKnownByUid(states[n], before, last);
    TurnIsCountedByItsFlag(states, steps, tidy, j, n, start, last);
  }

  // ----- Closing -------------------------------------------------------------------------------------------------

  /**
   * Closing removes exactly that tab and keeps the order of the others; closing the active one moves to the tab that
   * takes its place, or to the last one.
   */
  lemma CloseMovesToTheNextTab(s: State, key: string, inSession: bool, i: nat)
    requires Registry(s) && i < |s.tabs| && s.tabs[i].key == key
    ensures var t := Closed(s, key, inSession);
            && |t.tabs| == |s.tabs| - 1
            && (forall j | 0 <= j < |t.tabs| :: t.tabs[j].key == s.tabs[if j < i then j else j + 1].key)
            && (s.active != Some(key) ==> t.active == s.active)
            && (s.active == Some(key) ==>
                  t.active == if |s.tabs| == 1 then None
                              else if i + 1 < |s.tabs| then Some(s.tabs[i + 1].key) else Some(s.tabs[i - 1].key))
  {
    hide Selected;
    assert Find(s.tabs, ByKey(key)) == i;
    var left := RemoveAt(s.tabs, i);
    assert forall j | 0 <= j < |left| :: left[j] == s.tabs[if j < i then j else j + 1];
    if s.active == Some(key) && inSession && left != [] {
      RemoveKeeps(s, i);
      var next := NeighbourKey(left, i).value;
      assert KeyIn(left, next) by {
        assert left[if i < |left| then i else |left| - 1].key == next;
      }
      SelectedKeeps(s.(tabs := left, active := None), next);
    }
  }
}
