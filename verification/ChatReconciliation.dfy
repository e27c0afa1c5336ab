/**
 * Keyed reconciliation of the chat log (web/chat-controller.js): the plan of ordered operations, the loop in
 * `render` that applies it to the child list in place, and the proof that the result is the list rebuilt from scratch.
 */
module ChatReconciliation {
  import opened Prelude
  import P = Projection

  datatype NodeKind = UserNode | AssistantNode | ReasoningNode | CommandNode | ChipNode

  function ChatNodeKind(message: P.Message): NodeKind {
    if message.role == P.User then UserNode
    else if message.kind == P.ReasoningKind then ReasoningNode
    else if message.role == P.Tool then if message.kind == P.CommandKind then CommandNode else ChipNode
    else AssistantNode
  }

  // ----- One node ----------------------------------------------------------------------------------------

  /** A rendered node: its element, the text it drew last, and what the element shows. */
  datatype Node = Node(el: nat, kind: NodeKind, last: Option<string>, body: string, live: bool,
                       lastStatus: Option<string>, dot: string, command: string)

  function NewNode(el: nat, kind: NodeKind): Node {
    Node(el, kind, None, "", false, None, "", "")
  }

  function DrawText(node: Node, text: string): Node {
    if node.last == Some(text) then node else node.(last := Some(text), body := text)
  }

  /** A node redraws only what changed since it drew last. */
  function UpdateNode(node: Node, message: P.Message, turnActive: bool, trimEnd: string -> string): Node {
    match node.kind
    case ReasoningNode => DrawText(node.(live := message.streamed && turnActive), message.text)
    case CommandNode =>
      var status := P.Truthy(message.status, "running");
      var marked := if node.lastStatus == Some(status) then node else node.(lastStatus := Some(status), dot := status);
      DrawText(marked.(command := Or(message.command, "")), trimEnd(message.text))
    case _ => DrawText(node, message.text)
  }

  /** The memory of what was drawn matches what is shown. */
  predicate Faithful(node: Node) {
    && (node.last.Some? ==> node.body == node.last.value)
    && (node.lastStatus.Some? ==> node.dot == node.lastStatus.value)
  }

  /** What the element shows, without the element's identity. */
  datatype Drawing = Drawing(kind: NodeKind, body: string, live: bool, dot: string, command: string)

  function Draws(node: Node): Drawing {
    Drawing(node.kind, node.body, if node.kind == ReasoningNode then node.live else false,
            if node.kind == CommandNode then node.dot else "", if node.kind == CommandNode then node.command else "")
  }

  /** What a node made for the message alone shows. */
  function FreshDrawing(message: P.Message, turnActive: bool, trimEnd: string -> string): Drawing {
    Draws(UpdateNode(NewNode(0, ChatNodeKind(message)), message, turnActive, trimEnd))
  }

  lemma UpdateDrawsFresh(node: Node, message: P.Message, turnActive: bool, trimEnd: string -> string)
    requires Faithful(node) && node.kind == ChatNodeKind(message)
    ensures var updated := UpdateNode(node, message, turnActive, trimEnd);
            Faithful(updated) && updated.el == node.el && updated.kind == node.kind
            && Draws(updated) == FreshDrawing(message, turnActive, trimEnd)
  {
  }

  // ----- The plan ----------------------------------------------------------------------------------------

  datatype Entry = Entry(id: string, kind: NodeKind)

  datatype Operation =
    | Insert(id: string, index: nat, message: P.Message)
    | Replace(id: string, index: nat, message: P.Message)
    | Update(id: string, index: nat, message: P.Message)
    | Remove(id: string)

  /** `new Map(entries)`: the last kind given for an id, and the ids by first occurrence. */
  function KindsById(existing: seq<Entry>): map<string, NodeKind> {
    if existing == [] then map[]
    else KindsById(existing[..|existing| - 1])[existing[|existing| - 1].id := existing[|existing| - 1].kind]
  }

  function FirstIds(existing: seq<Entry>): seq<string> {
    if existing == [] then []
    else
      var before, id := FirstIds(existing[..|existing| - 1]), existing[|existing| - 1].id;
      if id in before then before else before + [id]
  }

  function MessageIds(messages: seq<P.Message>): seq<string> {
    seq(|messages|, i requires 0 <= i < |messages| => messages[i].id)
  }

  /** The operation for message `i`: an id is claimed by its first message. */
  function Placement(kinds: map<string, NodeKind>, messages: seq<P.Message>, i: nat): Operation
    requires i < |messages|
  {
    var m := messages[i];
    if m.id !in kinds || m.id in MessageIds(messages[..i]) then Insert(m.id, i, m)
    else if kinds[m.id] != ChatNodeKind(m) then Replace(m.id, i, m)
    else Update(m.id, i, m)
  }

  function Placements(kinds: map<string, NodeKind>, messages: seq<P.Message>, n: nat): seq<Operation>
    requires n <= |messages|
  {
    if n == 0 then [] else Placements(kinds, messages, n - 1) + [Placement(kinds, messages, n - 1)]
  }

  function Removals(ids: seq<string>, claimed: seq<string>): seq<Operation> {
    if ids == [] then []
    else
      Removals(ids[..|ids| - 1], claimed)
      + (if ids[|ids| - 1] in claimed then [] else [Remove(ids[|ids| - 1])])
  }

  function Plan(existing: seq<Entry>, messages: seq<P.Message>): seq<Operation> {
    Placements(KindsById(existing), messages, |messages|) + Removals(FirstIds(existing), MessageIds(messages))
  }

  method PlanChatReconciliation(existing: seq<Entry>, messages: seq<P.Message>) returns (operations: seq<Operation>)
    ensures operations == Plan(existing, messages)
  {
    var byId: map<string, NodeKind> := map[];
    var ids: seq<string> := [];
    for k := 0 to |existing|
      invariant byId == KindsById(existing[..k]) && ids == FirstIds(existing[..k])
      invariant forall id :: id in ids <==> id in byId
    {
      assert existing[..k + 1][..k] == existing[..k];
      if existing[k].id !in byId {
        ids := ids + [existing[k].id];
      }
      byId := byId[existing[k].id := existing[k].kind];
    }
    assert existing[..|existing|] == existing;
    ghost var kinds := byId;
    operations := [];
    for k := 0 to |messages|
      invariant operations == Placements(kinds, messages, k)
      invariant byId == kinds - (set id | id in MessageIds(messages[..k]))
    {
      var message := messages[k];
      var kind := ChatNodeKind(message);
      if message.id !in byId {
        operations := operations + [Insert(message.id, k, message)];
      } else if byId[message.id] != kind {
        operations := operations + [Replace(message.id, k, message)];
      } else {
        operations := operations + [Update(message.id, k, message)];
      }
      byId := byId - {message.id};
      assert MessageIds(messages[..k + 1]) == MessageIds(messages[..k]) + [message.id];
    }
    assert messages[..|messages|] == messages;
    ghost var placed := operations;
    for k := 0 to |ids|
      invariant operations == placed + Removals(ids[..k], MessageIds(messages))
    {
      assert ids[..k + 1][..k] == ids[..k];
      if ids[k] in byId {
        operations := operations + [Remove(ids[k])];
      }
    }
    assert ids[..|ids|] == ids;
  }

  // ----- The child list ----------------------------------------------------------------------------------

  datatype Child = Row(el: nat) | Hint | Working

  function Detached(children: seq<Child>, child: Child): seq<Child> {
    if children == [] then []
    else Detached(children[..|children| - 1], child)
         + (if children[|children| - 1] == child then [] else [children[|children| - 1]])
  }

  function PositionOf(children: seq<Child>, child: Child): (p: nat)
    ensures p <= |children|
    ensures p < |children| ==> children[p] == child
    ensures child in children ==> p < |children|
  {
    if children == [] then 0 else if children[0] == child then 0 else 1 + PositionOf(children[1..], child)
  }

  /** `insertBefore`: the child leaves its old place first; without a reference it goes to the end. */
  function InsertedBefore(children: seq<Child>, child: Child, reference: Option<Child>): seq<Child> {
    var others := Detached(children, child);
    var p := if reference.Some? then PositionOf(others, reference.value) else |others|;
    others[..p] + [child] + others[p..]
  }

  lemma {:induction false} DetachedMeans(children: seq<Child>, child: Child)
    requires Distinct(children)
    ensures var rest := Detached(children, child);
            && Distinct(rest) && (forall c :: c in rest <==> c in children && c != child)
            && (child !in children ==> rest == children)
  {
    if children != [] {
      var before, last := children[..|children| - 1], children[|children| - 1];
      assert children == before + [last];
      DistinctAppend(before, last);
      DetachedMeans(before, child);
      DistinctAppend(Detached(before, child), last);
    }
  }

  lemma {:induction false} DetachedAt(children: seq<Child>, p: nat)
    requires Distinct(children) && p < |children|
    ensures Detached(children, children[p]) == children[..p] + children[p + 1..]
  {
    var before, last := children[..|children| - 1], children[|children| - 1];
    if p == |children| - 1 {
      assert children == before + [last];
      DistinctAppend(before, last);
      DetachedMeans(before, last);
    } else {
      DetachedAt(before, p);
      assert children[p + 1..] == before[p + 1..] + [last];
    }
  }

  lemma PositionUnique(children: seq<Child>, p: nat)
    requires Distinct(children) && p < |children|
    ensures PositionOf(children, children[p]) == p
  {
  }

  /**
   * Placing a child at `index`, where the children before it are already in place: it ends up there, nothing before
   * it moves, and no other child is lost.
   */
  function Placed(children: seq<Child>, child: Child, index: nat): seq<Child> {
    if index < |children| && children[index] == child then children
    else InsertedBefore(children, child, if index < |children| then Some(children[index]) else None)
  }

  lemma PlacedMeans(children: seq<Child>, child: Child, index: nat)
    requires Distinct(children) && index <= |children| && child !in children[..index]
    ensures var after := Placed(children, child, index);
            && Distinct(after) && |after| > index && after[..index] == children[..index] && after[index] == child
            && (forall c :: c in after <==> c in children || c == child)
  {
    hide Distinct, PositionOf, Detached;
    if !(index < |children| && children[index] == child) {
      var rest := Detached(children, child);
      DetachedMeans(children, child);
      DetachedKeepsPlaced(children, child, index);
      assert index < |children| ==> PositionOf(rest, children[index]) == index by {
        if index < |children| { PositionUnique(rest, index); }
      }
      InsertDistinct(rest, child, index);
    }
  }

  /** The children already in place, and the one the new child goes before, are not moved by its leaving. */
  lemma DetachedKeepsPlaced(children: seq<Child>, child: Child, index: nat)
    requires Distinct(children) && index <= |children| && child !in children[..index]
    requires index < |children| ==> children[index] != child
    ensures var rest := Detached(children, child);
            && index <= |rest| && rest[..index] == children[..index]
            && (if index < |children| then index < |rest| && rest[index] == children[index] else index == |rest|)
  {
    DetachedMeans(children, child);
    if child in children {
      var p :| 0 <= p < |children| && children[p] == child;
      DetachedAt(children, p);
    }
  }

  lemma InsertDistinct(rest: seq<Child>, child: Child, p: nat)
    requires Distinct(rest) && p <= |rest| && child !in rest
    ensures Distinct(rest[..p] + [child] + rest[p..])
    ensures forall c :: c in rest[..p] + [child] + rest[p..] <==> c in rest || c == child
  {
    assert rest == rest[..p] + rest[p..];
  }

  // ----- Applying the plan -------------------------------------------------------------------------------

  datatype View = View(nodes: map<string, Node>, order: seq<string>, children: seq<Child>, nextEl: nat)

  function Dropped(v: View, id: string): View {
    if id in v.nodes then
      v.(nodes := v.nodes - {id}, order := P.Without(v.order, id), children := Detached(v.children, Row(v.nodes[id].el)))
    else v
  }

  function Created(v: View, id: string, kind: NodeKind): View {
    v.(nodes := v.nodes[id := NewNode(v.nextEl, kind)], order := if id in v.nodes then v.order else v.order + [id],
       nextEl := v.nextEl + 1)
  }

  function Shown(v: View, id: string, index: nat, message: P.Message, turnActive: bool, trimEnd: string -> string): View
    requires id in v.nodes
  {
    v.(nodes := v.nodes[id := UpdateNode(v.nodes[id], message, turnActive, trimEnd)],
       children := Placed(v.children, Row(v.nodes[id].el), index))
  }

  /** An operation the plan never makes for a missing node leaves the view alone. */
  function Applied(v: View, op: Operation, turnActive: bool, trimEnd: string -> string): View {
    match op
    case Remove(id) => Dropped(v, id)
    case Insert(id, index, message) =>
      Shown(Created(v, id, ChatNodeKind(message)), id, index, message, turnActive, trimEnd)
    case Replace(id, index, message) =>
      Shown(Created(Dropped(v, id), id, ChatNodeKind(message)), id, index, message, turnActive, trimEnd)
    case Update(id, index, message) =>
      if id in v.nodes then Shown(v, id, index, message, turnActive, trimEnd) else v
  }

  function AppliedAll(v: View, ops: seq<Operation>, turnActive: bool, trimEnd: string -> string): View {
    if ops == [] then v else Applied(AppliedAll(v, ops[..|ops| - 1], turnActive, trimEnd), ops[|ops| - 1], turnActive, trimEnd)
  }

  function Chrome(empty: bool, turnActive: bool): seq<Child> {
    (if empty && !turnActive then [Hint] else []) + (if turnActive then [Working] else [])
  }

  function Entries(v: View): seq<Entry>
    requires forall i | 0 <= i < |v.order| :: v.order[i] in v.nodes
  {
    seq(|v.order|, i requires 0 <= i < |v.order| => Entry(v.order[i], v.nodes[v.order[i]].kind))
  }

  function RenderedView(v: View, messages: seq<P.Message>, turnActive: bool, trimEnd: string -> string): View
    requires forall i | 0 <= i < |v.order| :: v.order[i] in v.nodes
  {
    var after := AppliedAll(v, Plan(Entries(v), messages), turnActive, trimEnd);
    after.(children := Detached(Detached(after.children, Hint), Working) + Chrome(messages == [], turnActive))
  }

  // ----- The registry invariant --------------------------------------------------------------------------

  /** Distinct nodes have distinct elements, all already made, and every row of the list belongs to a node. */
  ghost predicate Consistent(v: View) {
    && Enumerates(v.order, v.nodes.Keys)
    && (forall id | id in v.nodes :: v.nodes[id].el < v.nextEl && Faithful(v.nodes[id]))
    && (forall a, b | a in v.nodes && b in v.nodes && a != b :: v.nodes[a].el != v.nodes[b].el)
    && Distinct(v.children)
    && (forall e | Row(e) in v.children :: Owned(v.nodes, e))
  }

  ghost predicate Owned(nodes: map<string, Node>, e: nat) {
    exists id :: id in nodes && nodes[id].el == e
  }

  lemma DropKeepsConsistent(v: View, id: string)
    requires Consistent(v)
    ensures Consistent(Dropped(v, id)) && Dropped(v, id).nodes == v.nodes - {id}
    ensures forall c :: c in Dropped(v, id).children <==> c in v.children && !(id in v.nodes && c == Row(v.nodes[id].el))
  {
    hide Distinct;
    if id in v.nodes {
      P.WithoutMeans(v.order, id);
      var kept := P.Without(v.order, id);
      forall i | 0 <= i < |kept| ensures kept[i] in v.nodes && kept[i] != id {
        assert kept[i] in kept;
      }
      DetachedMeans(v.children, Row(v.nodes[id].el));
      var t := Dropped(v, id);
      forall e | Row(e) in t.children ensures Owned(t.nodes, e) {
        var owner :| owner in v.nodes && v.nodes[owner].el == e;
        assert owner in t.nodes && t.nodes[owner].el == e;
      }
    }
  }

  lemma CreateKeepsConsistent(v: View, id: string, kind: NodeKind)
    requires Consistent(v) && id !in v.nodes
    ensures Consistent(Created(v, id, kind))
  {
    hide Distinct;
    DistinctAppend(v.order, id);
    var t := Created(v, id, kind);
    forall e | Row(e) in t.children ensures Owned(t.nodes, e) {
      var owner :| owner in v.nodes && v.nodes[owner].el == e;
      assert owner in t.nodes && t.nodes[owner].el == e;
    }
  }

  lemma ShowKeepsConsistent(v: View, id: string, index: nat, message: P.Message, turnActive: bool, trimEnd: string -> string)
    requires Consistent(v) && id in v.nodes && v.nodes[id].kind == ChatNodeKind(message)
    requires index <= |v.children| && Row(v.nodes[id].el) !in v.children[..index]
    ensures Consistent(Shown(v, id, index, message, turnActive, trimEnd))
  {
    hide Distinct, Placed, UpdateNode, Faithful;
    UpdateDrawsFresh(v.nodes[id], message, turnActive, trimEnd);
    PlacedMeans(v.children, Row(v.nodes[id].el), index);
    var t := Shown(v, id, index, message, turnActive, trimEnd);
    forall e | Row(e) in t.children ensures Owned(t.nodes, e) {
      if e == v.nodes[id].el {
        assert id in t.nodes && t.nodes[id].el == e;
      } else {
        var owner :| owner in v.nodes && v.nodes[owner].el == e;
        assert owner in t.nodes && t.nodes[owner].el == e;
      }
    }
  }

  /** What a finished placement of a message guarantees about its node. */
  ghost predicate MessageShown(before: View, v: View, message: P.Message, turnActive: bool, trimEnd: string -> string) {
    && message.id in v.nodes
    && v.nodes[message.id].kind == ChatNodeKind(message)
    && Draws(v.nodes[message.id]) == FreshDrawing(message, turnActive, trimEnd)
    && (if message.id in before.nodes && before.nodes[message.id].kind == ChatNodeKind(message)
        then v.nodes[message.id].el == before.nodes[message.id].el
        else v.nodes[message.id].el >= before.nextEl)
  }

  /** The first `k` messages are in place; nodes not claimed by them, nor pending, are untouched. */
  ghost predicate InPlace(before: View, v: View, messages: seq<P.Message>, k: nat, pending: Option<string>,
                          turnActive: bool, trimEnd: string -> string)
    requires k <= |messages|
  {
    && Consistent(v) && before.nextEl <= v.nextEl && k <= |v.children|
    && (forall id | id in before.nodes && id !in MessageIds(messages[..k]) && Some(id) != pending ::
          id in v.nodes && v.nodes[id] == before.nodes[id])
    && (forall id | id in v.nodes :: id in before.nodes || id in MessageIds(messages[..k]) || Some(id) == pending)
    && (forall j | 0 <= j < k :: MessageShown(before, v, messages[j], turnActive, trimEnd)
                                 && v.children[j] == Row(v.nodes[messages[j].id].el))
  }

  /** The node for `message` has its final kind and identity. */
  ghost predicate NodeReady(before: View, v: View, message: P.Message) {
    && message.id in v.nodes && v.nodes[message.id].kind == ChatNodeKind(message)
    && (if message.id in before.nodes && before.nodes[message.id].kind == ChatNodeKind(message)
        then v.nodes[message.id].el == before.nodes[message.id].el
        else v.nodes[message.id].el >= before.nextEl)
  }

  lemma UnclaimedRowLater(before: View, v: View, messages: seq<P.Message>, k: nat, pending: Option<string>, id: string,
                          turnActive: bool, trimEnd: string -> string)
    requires k <= |messages| && InPlace(before, v, messages, k, pending, turnActive, trimEnd)
    requires id in v.nodes && id !in MessageIds(messages[..k])
    ensures Row(v.nodes[id].el) !in v.children[..k]
    ensures forall j | 0 <= j < k :: messages[j].id != id
  {
    hide Distinct, Draws, FreshDrawing;
    forall j | 0 <= j < k ensures messages[j].id != id {
      assert MessageIds(messages[..k])[j] == messages[j].id;
    }
  }

  lemma ChildrenDistinct(v: View)
    requires Consistent(v)
    ensures Distinct(v.children)
  {
  }

  lemma NodeFaithful(v: View, id: string)
    requires Consistent(v) && id in v.nodes
    ensures Faithful(v.nodes[id])
  {
  }

  lemma DetachedPrefix(children: seq<Child>, child: Child, k: nat)
    requires Distinct(children) && k <= |children| && child !in children[..k]
    ensures k <= |Detached(children, child)| && Detached(children, child)[..k] == children[..k]
  {
    DetachedMeans(children, child);
    if child in children {
      var p :| 0 <= p < |children| && children[p] == child;
      DetachedAt(children, p);
    }
  }

  lemma DropInPlace(before: View, v: View, messages: seq<P.Message>, k: nat, id: string, turnActive: bool, trimEnd: string -> string)
    requires k <= |messages| && InPlace(before, v, messages, k, None, turnActive, trimEnd)
    requires id !in MessageIds(messages[..k])
    ensures InPlace(before, Dropped(v, id), messages, k, Some(id), turnActive, trimEnd) && id !in Dropped(v, id).nodes
  {
    hide Consistent, MessageShown, Detached;
    DropKeepsConsistent(v, id);
    DropKeepsShown(before, v, messages, k, id, turnActive, trimEnd);
  }

  lemma CreateReady(before: View, v: View, messages: seq<P.Message>, k: nat, message: P.Message, turnActive: bool, trimEnd: string -> string)
    requires k <= |messages| && InPlace(before, v, messages, k, Some(message.id), turnActive, trimEnd)
    requires message.id !in MessageIds(messages[..k]) && message.id !in v.nodes
    requires message.id in before.nodes ==> before.nodes[message.id].kind != ChatNodeKind(message)
    ensures var t := Created(v, message.id, ChatNodeKind(message));
            InPlace(before, t, messages, k, Some(message.id), turnActive, trimEnd) && NodeReady(before, t, message)
  {
    hide Consistent, Draws, FreshDrawing, ChatNodeKind, Distinct;
    CreateKeepsConsistent(v, message.id, ChatNodeKind(message));
    forall j | 0 <= j < k ensures messages[j].id != message.id {
      assert MessageIds(messages[..k])[j] == messages[j].id;
    }
  }

  lemma ShowInPlace(before: View, v: View, messages: seq<P.Message>, k: nat, turnActive: bool, trimEnd: string -> string)
    requires k < |messages| && InPlace(before, v, messages, k, Some(messages[k].id), turnActive, trimEnd)
    requires messages[k].id !in MessageIds(messages[..k]) && NodeReady(before, v, messages[k])
    ensures InPlace(before, Shown(v, messages[k].id, k, messages[k], turnActive, trimEnd), messages, k + 1, None, turnActive, trimEnd)
  {
    hide Consistent, ChatNodeKind, Distinct, Placed, UpdateNode, Faithful, Draws, FreshDrawing;
    ChildrenDistinct(v);
    var m := messages[k];
    var t := Shown(v, m.id, k, m, turnActive, trimEnd);
    UnclaimedRowLater(before, v, messages, k, Some(m.id), m.id, turnActive, trimEnd);
    ShowKeepsConsistent(v, m.id, k, m, turnActive, trimEnd);
    NodeFaithful(v, m.id);
    UpdateDrawsFresh(v.nodes[m.id], m, turnActive, trimEnd);
    PlacedMeans(v.children, Row(v.nodes[m.id].el), k);
    assert MessageIds(messages[..k + 1]) == MessageIds(messages[..k]) + [m.id];
    forall j | 0 <= j < k ensures MessageShown(before, t, messages[j], turnActive, trimEnd) && t.children[j] == Row(t.nodes[messages[j].id].el) {
      assert t.children[..k][j] == v.children[..k][j];
    }
  }

  /** One placement of the plan puts one more message in place. */
  lemma PlacementInPlace(before: View, v: View, messages: seq<P.Message>, k: nat, turnActive: bool, trimEnd: string -> string)
    requires Consistent(before) && Distinct(MessageIds(messages))
    requires k < |messages| && InPlace(before, v, messages, k, None, turnActive, trimEnd)
    ensures InPlace(before, Applied(v, Placement(KindsById(Entries(before)), messages, k), turnActive, trimEnd), messages, k + 1, None, turnActive, trimEnd)
  {
    hide Distinct, Shown, Dropped, Created, KindsById, Draws, FreshDrawing, Consistent;
    var m := messages[k];
    EarlierIdsDiffer(messages, k);
    KindsOfView(before);
    if m.id !in before.nodes {
      DropInPlace(before, v, messages, k, m.id, turnActive, trimEnd);
      AbsentDrop(v, m.id);
      CreateReady(before, v, messages, k, m, turnActive, trimEnd);
      ShowInPlace(before, Created(v, m.id, ChatNodeKind(m)), messages, k, turnActive, trimEnd);
    } else if before.nodes[m.id].kind != ChatNodeKind(m) {
      DropInPlace(before, v, messages, k, m.id, turnActive, trimEnd);
      CreateReady(before, Dropped(v, m.id), messages, k, m, turnActive, trimEnd);
      ShowInPlace(before, Created(Dropped(v, m.id), m.id, ChatNodeKind(m)), messages, k, turnActive, trimEnd);
    } else {
      ShowInPlace(before, v, messages, k, turnActive, trimEnd);
    }
  }

  lemma AbsentDrop(v: View, id: string)
    requires id !in v.nodes
    ensures Dropped(v, id) == v
  {
  }

  lemma EarlierIdsDiffer(messages: seq<P.Message>, k: nat)
    requires k < |messages| && Distinct(MessageIds(messages))
    ensures messages[k].id !in MessageIds(messages[..k])
  {
    var ids := MessageIds(messages);
    assert forall j | 0 <= j < k :: MessageIds(messages[..k])[j] == ids[j];
    assert ids[k] == messages[k].id;
  }

  lemma {:induction false} EntriesById(v: View, n: nat)
    requires Consistent(v) && n <= |v.order|
    ensures FirstIds(Entries(v)[..n]) == v.order[..n]
    ensures forall id :: id in KindsById(Entries(v)[..n]) <==> id in v.order[..n]
    ensures forall id | id in v.order[..n] :: KindsById(Entries(v)[..n])[id] == v.nodes[id].kind
  {
    hide Consistent, Distinct;
    ConsistentOrder(v);
    if n > 0 {
      EntriesById(v, n - 1);
      var earlier, last := Entries(v)[..n - 1], Entries(v)[n - 1];
      assert Entries(v)[..n] == earlier + [last] && Entries(v)[..n][..n - 1] == earlier;
      assert v.order[..n] == v.order[..n - 1] + [v.order[n - 1]];
      DistinctPrefix(v.order, n);
      DistinctAppend(v.order[..n - 1], v.order[n - 1]);
      AppendEntry(earlier, last);
    }
  }

  lemma AppendEntry(entries: seq<Entry>, e: Entry)
    ensures KindsById(entries + [e]) == KindsById(entries)[e.id := e.kind]
    ensures FirstIds(entries + [e]) == if e.id in FirstIds(entries) then FirstIds(entries) else FirstIds(entries) + [e.id]
  {
    assert (entries + [e])[..|entries|] == entries;
  }

  lemma DistinctPrefix<T>(xs: seq<T>, n: nat)
    requires Distinct(xs) && n <= |xs|
    ensures Distinct(xs[..n])
  {
  }

  lemma KindsOfView(v: View)
    requires Consistent(v)
    ensures FirstIds(Entries(v)) == v.order
    ensures forall id :: id in KindsById(Entries(v)) <==> id in v.nodes
    ensures forall id | id in v.nodes :: KindsById(Entries(v))[id] == v.nodes[id].kind
  {
    EntriesById(v, |v.order|);
    assert Entries(v)[..|v.order|] == Entries(v) && v.order[..|v.order|] == v.order;
  }

  lemma {:induction false} PlacementsInPlace(before: View, messages: seq<P.Message>, k: nat, turnActive: bool, trimEnd: string -> string)
    requires Consistent(before) && Distinct(MessageIds(messages)) && k <= |messages|
    ensures InPlace(before, AppliedAll(before, Placements(KindsById(Entries(before)), messages, k), turnActive, trimEnd), messages, k, None, turnActive, trimEnd)
  {
    hide Distinct, Applied, Placement, MessageShown, Faithful;
    if k > 0 {
      PlacementsInPlace(before, messages, k - 1, turnActive, trimEnd);
      var ops := Placements(KindsById(Entries(before)), messages, k);
      assert ops[..|ops| - 1] == Placements(KindsById(Entries(before)), messages, k - 1);
      PlacementInPlace(before, AppliedAll(before, Placements(KindsById(Entries(before)), messages, k - 1), turnActive, trimEnd),
                       messages, k - 1, turnActive, trimEnd);
    }
  }

  // ----- Removing what is left ---------------------------------------------------------------------------

  /** Every message is in place and the nodes of `ids` that no message claims are gone. */
  ghost predicate Cleared(before: View, v: View, messages: seq<P.Message>, ids: seq<string>, turnActive: bool, trimEnd: string -> string) {
    && Consistent(v) && |messages| <= |v.children| && before.nextEl <= v.nextEl
    && (forall id | id in v.nodes :: id in MessageIds(messages) || (id in before.nodes && id !in ids))
    && (forall j | 0 <= j < |messages| :: MessageShown(before, v, messages[j], turnActive, trimEnd)
                                          && v.children[j] == Row(v.nodes[messages[j].id].el))
  }

  lemma UnclaimedRow(v: View, messages: seq<P.Message>, n: nat, id: string)
    requires Consistent(v) && id in v.nodes && n <= |messages| && n <= |v.children|
    requires forall j | 0 <= j < n ::
               messages[j].id in v.nodes && messages[j].id != id && v.children[j] == Row(v.nodes[messages[j].id].el)
    ensures Row(v.nodes[id].el) !in v.children[..n]
  {
    hide Distinct, Faithful, Enumerates;
  }

  /** Whether a message is shown depends on its own node alone. */
  lemma ShownByItsNode(before: View, v: View, w: View, message: P.Message, turnActive: bool, trimEnd: string -> string)
    requires MessageShown(before, v, message, turnActive, trimEnd)
    requires message.id in v.nodes ==> message.id in w.nodes && w.nodes[message.id] == v.nodes[message.id]
    ensures message.id in v.nodes && MessageShown(before, w, message, turnActive, trimEnd)
  {
    hide Draws, FreshDrawing;
  }

  /** Dropping an unclaimed node leaves every shown message where it is. */
  lemma DropKeepsShown(before: View, v: View, messages: seq<P.Message>, n: nat, id: string, turnActive: bool, trimEnd: string -> string)
    requires Consistent(v) && n <= |messages| && n <= |v.children| && id !in MessageIds(messages[..n])
    requires forall j | 0 <= j < n :: MessageShown(before, v, messages[j], turnActive, trimEnd)
                                      && v.children[j] == Row(v.nodes[messages[j].id].el)
    ensures var t := Dropped(v, id);
            && n <= |t.children|
            && forall j | 0 <= j < n :: MessageShown(before, t, messages[j], turnActive, trimEnd)
                                        && t.children[j] == Row(t.nodes[messages[j].id].el)
  {
    hide Consistent, Distinct, Detached, MessageShown;
    DropKeepsConsistent(v, id);
    var t := Dropped(v, id);
    forall j | 0 <= j < n ensures messages[j].id in v.nodes && messages[j].id != id {
      assert MessageIds(messages[..n])[j] == messages[j].id;
      ShownByItsNode(before, v, v, messages[j], turnActive, trimEnd);
    }
    if id in v.nodes {
      UnclaimedRow(v, messages, n, id);
      ChildrenDistinct(v);
      DetachedPrefix(v.children, Row(v.nodes[id].el), n);
    }
    forall j | 0 <= j < n ensures MessageShown(before, t, messages[j], turnActive, trimEnd) && t.children[j] == Row(t.nodes[messages[j].id].el) {
      ShownByItsNode(before, v, t, messages[j], turnActive, trimEnd);
      assert id in v.nodes ==> t.children[..n][j] == v.children[..n][j];
    }
  }

  lemma RemoveCleared(before: View, v: View, messages: seq<P.Message>, ids: seq<string>, id: string, turnActive: bool, trimEnd: string -> string)
    requires Cleared(before, v, messages, ids, turnActive, trimEnd)
    ensures id in MessageIds(messages) ==> Cleared(before, v, messages, ids + [id], turnActive, trimEnd)
    ensures id !in MessageIds(messages) ==> Cleared(before, Dropped(v, id), messages, ids + [id], turnActive, trimEnd)
  {
    hide Consistent, MessageShown, Detached;
    DropKeepsConsistent(v, id);
    if id !in MessageIds(messages) {
      assert messages[..|messages|] == messages;
      DropKeepsShown(before, v, messages, |messages|, id, turnActive, trimEnd);
    }
  }

  lemma {:induction false} RemovalsCleared(before: View, v: View, messages: seq<P.Message>, ids: seq<string>, turnActive: bool, trimEnd: string -> string)
    requires Cleared(before, v, messages, [], turnActive, trimEnd)
    ensures Cleared(before, AppliedAll(v, Removals(ids, MessageIds(messages)), turnActive, trimEnd), messages, ids, turnActive, trimEnd)
  {
    hide Cleared, Dropped, MessageIds, Applied;
    if ids != [] {
      var last, claimed := ids[|ids| - 1], MessageIds(messages);
      var done := Removals(ids[..|ids| - 1], claimed);
      RemovalsCleared(before, v, messages, ids[..|ids| - 1], turnActive, trimEnd);
      var earlier := AppliedAll(v, done, turnActive, trimEnd);
      RemoveCleared(before, earlier, messages, ids[..|ids| - 1], last, turnActive, trimEnd);
      assert ids[..|ids| - 1] + [last] == ids;
      if last !in claimed {
        assert Removals(ids, claimed) == done + [Remove(last)];
        AppliedAllAppend(v, done, [Remove(last)], turnActive, trimEnd);
        RemoveIsDrop(earlier, last, turnActive, trimEnd);
      } else {
        assert Removals(ids, claimed) == done;
      }
    }
  }

  lemma RemoveIsDrop(v: View, id: string, turnActive: bool, trimEnd: string -> string)
    ensures AppliedAll(v, [Remove(id)], turnActive, trimEnd) == Dropped(v, id)
  {
    hide Dropped;
    var ops := [Remove(id)];
    assert ops[..0] == [] && AppliedAll(v, ops[..0], turnActive, trimEnd) == v;
  }

  lemma {:induction false} AppliedAllAppend(v: View, a: seq<Operation>, b: seq<Operation>, turnActive: bool, trimEnd: string -> string)
    ensures AppliedAll(v, a + b, turnActive, trimEnd) == AppliedAll(AppliedAll(v, a, turnActive, trimEnd), b, turnActive, trimEnd)
  {
    hide Applied;
    if b == [] {
      assert a + b == a;
    } else {
      assert (a + b)[..|a + b| - 1] == a + b[..|b| - 1];
      AppliedAllAppend(v, a, b[..|b| - 1], turnActive, trimEnd);
    }
  }

  lemma PlanCleared(before: View, messages: seq<P.Message>, turnActive: bool, trimEnd: string -> string)
    requires Consistent(before) && Distinct(MessageIds(messages))
    ensures Cleared(before, AppliedAll(before, Plan(Entries(before), messages), turnActive, trimEnd), messages, before.order, turnActive, trimEnd)
  {
    hide Distinct, MessageShown, AppliedAll, Placements, Removals, Faithful;
    var kinds := KindsById(Entries(before));
    var placed := AppliedAll(before, Placements(kinds, messages, |messages|), turnActive, trimEnd);
    PlacementsInPlace(before, messages, |messages|, turnActive, trimEnd);
    assert messages[..|messages|] == messages;
    KindsOfView(before);
    RemovalsCleared(before, placed, messages, before.order, turnActive, trimEnd);
    AppliedAllAppend(before, Placements(kinds, messages, |messages|), Removals(before.order, MessageIds(messages)), turnActive, trimEnd);
  }

  // ----- The result --------------------------------------------------------------------------------------

  function Rows(v: View, messages: seq<P.Message>): seq<Child>
    requires forall j | 0 <= j < |messages| :: messages[j].id in v.nodes
  {
    seq(|messages|, j requires 0 <= j < |messages| => Row(v.nodes[messages[j].id].el))
  }

  ghost predicate Bare(v: View, messages: seq<P.Message>, bare: seq<Child>) {
    && bare == Detached(Detached(v.children, Hint), Working)
    && (forall j | 0 <= j < |messages| :: messages[j].id in v.nodes)
    && Distinct(bare) && |messages| <= |bare| && bare[..|messages|] == Rows(v, messages)
    && forall c | c in bare :: c in v.children && c.Row?
  }

  lemma ChromeDetached(before: View, v: View, messages: seq<P.Message>, turnActive: bool, trimEnd: string -> string)
    requires Cleared(before, v, messages, before.order, turnActive, trimEnd)
    ensures Bare(v, messages, Detached(Detached(v.children, Hint), Working))
  {
    hide Draws, FreshDrawing, Distinct, Consistent, ChatNodeKind, Detached;
    var n := |messages|;
    var noHint := Detached(v.children, Hint);
    ChildrenDistinct(v);
    DetachedMeans(v.children, Hint);
    DetachedMeans(noHint, Working);
    assert v.children[..n] == Rows(v, messages);
    assert Hint !in Rows(v, messages) && Working !in Rows(v, messages);
    DetachedPrefix(v.children, Hint, n);
    DetachedPrefix(noHint, Working, n);
  }

  lemma OnlyMessageRows(before: View, v: View, messages: seq<P.Message>, turnActive: bool, trimEnd: string -> string, e: nat)
    requires Consistent(before) && Cleared(before, v, messages, before.order, turnActive, trimEnd)
    requires forall j | 0 <= j < |messages| :: messages[j].id in v.nodes
    requires Row(e) in v.children
    ensures Row(e) in Rows(v, messages)
  {
    hide Draws, FreshDrawing, Distinct, Faithful, ChatNodeKind;
    var owner :| owner in v.nodes && v.nodes[owner].el == e;
    assert owner in before.nodes ==> owner in before.order;
    var j :| 0 <= j < |messages| && MessageIds(messages)[j] == owner;
    assert Rows(v, messages)[j] == Row(e);
  }

  /** Nothing but rows of the messages and the two chrome elements is left in the list. */
  lemma ChromeStripped(before: View, v: View, messages: seq<P.Message>, turnActive: bool, trimEnd: string -> string)
    requires Consistent(before) && Cleared(before, v, messages, before.order, turnActive, trimEnd)
    ensures forall j | 0 <= j < |messages| :: messages[j].id in v.nodes
    ensures Detached(Detached(v.children, Hint), Working) == Rows(v, messages)
  {
    hide Cleared, Consistent, Distinct, Detached;
    ChromeDetached(before, v, messages, turnActive, trimEnd);
    var bare := Detached(Detached(v.children, Hint), Working);
    forall c | c in bare ensures c in bare[..|messages|] {
      OnlyMessageRows(before, v, messages, turnActive, trimEnd, c.el);
    }
    NothingAfterPrefix(bare, |messages|);
  }

  lemma NothingAfterPrefix<T>(xs: seq<T>, n: nat)
    requires Distinct(xs) && n <= |xs| && forall x | x in xs :: x in xs[..n]
    ensures |xs| == n && xs[..n] == xs
  {
    if n < |xs| {
      InPrefix(xs, n, n);
    }
  }

  lemma InPrefix<T>(xs: seq<T>, n: nat, i: nat)
    requires Distinct(xs) && n <= |xs| && i < |xs| && xs[i] in xs[..n]
    ensures i < n
  {
    var j :| 0 <= j < n && xs[..n][j] == xs[i];
    assert xs[j] == xs[i];
  }

  /**
   * The list holds exactly the messages' rows in message order and then the chrome; each row is of its message's
   * kind and shows it; a row is reused exactly when its id had a node of that kind; no other node is kept; and the
   * registry is consistent.
   */
  ghost predicate WellRendered(before: View, v: View, messages: seq<P.Message>, turnActive: bool, trimEnd: string -> string) {
    && Consistent(v)
    && (forall id :: id in v.nodes <==> id in MessageIds(messages))
    && (forall j | 0 <= j < |messages| :: messages[j].id in v.nodes && MessageShown(before, v, messages[j], turnActive, trimEnd))
    && v.children == Rows(v, messages) + Chrome(messages == [], turnActive)
  }

  /** From any consistent registry and child list, rendering messages with distinct ids settles both. */
  lemma RenderPlacesMessages(before: View, messages: seq<P.Message>, turnActive: bool, trimEnd: string -> string)
    requires Consistent(before) && Distinct(MessageIds(messages))
    ensures WellRendered(before, RenderedView(before, messages, turnActive, trimEnd), messages, turnActive, trimEnd)
  {
    hide Consistent, Cleared, Distinct, MessageShown, AppliedAll, Plan, Rows, Chrome;
    ConsistentOrder(before);
    var after := AppliedAll(before, Plan(Entries(before), messages), turnActive, trimEnd);
    PlanCleared(before, messages, turnActive, trimEnd);
    ClearedMeans(before, after, messages, turnActive, trimEnd);
    ChromeStripped(before, after, messages, turnActive, trimEnd);
    var v := RenderedView(before, messages, turnActive, trimEnd);
    ChromeConsistent(after, messages, turnActive);
    forall j | 0 <= j < |messages| ensures messages[j].id in v.nodes && MessageShown(before, v, messages[j], turnActive, trimEnd) {
      ShownByItsNode(before, after, v, messages[j], turnActive, trimEnd);
    }
    SameRows(after, v, messages);
  }

  /** Once every old node was cleared, the nodes are the messages'. */
  lemma ClearedMeans(before: View, v: View, messages: seq<P.Message>, turnActive: bool, trimEnd: string -> string)
    requires Consistent(before) && Cleared(before, v, messages, before.order, turnActive, trimEnd)
    ensures Consistent(v)
    ensures forall id :: id in v.nodes <==> id in MessageIds(messages)
    ensures forall j | 0 <= j < |messages| :: messages[j].id in v.nodes && MessageShown(before, v, messages[j], turnActive, trimEnd)
  {
    hide Distinct, Draws, FreshDrawing, Faithful;
    forall id | id in MessageIds(messages) ensures id in v.nodes {
      var j :| 0 <= j < |messages| && MessageIds(messages)[j] == id;
      ShownHasNode(before, v, messages[j], turnActive, trimEnd);
    }
  }

  lemma SameRows(v: View, w: View, messages: seq<P.Message>)
    requires w.nodes == v.nodes && forall j | 0 <= j < |messages| :: messages[j].id in v.nodes
    ensures Rows(w, messages) == Rows(v, messages)
  {
  }

  lemma ShownHasNode(before: View, v: View, message: P.Message, turnActive: bool, trimEnd: string -> string)
    requires MessageShown(before, v, message, turnActive, trimEnd)
    ensures message.id in v.nodes
  {
  }

  lemma RowsDistinct(v: View, messages: seq<P.Message>)
    requires Consistent(v) && forall j | 0 <= j < |messages| :: messages[j].id in v.nodes
    requires Detached(Detached(v.children, Hint), Working) == Rows(v, messages)
    ensures Distinct(Rows(v, messages)) && Hint !in Rows(v, messages) && Working !in Rows(v, messages)
  {
    hide Faithful;
    DetachedMeans(v.children, Hint);
    DetachedMeans(Detached(v.children, Hint), Working);
  }

  lemma ChromeConsistent(v: View, messages: seq<P.Message>, turnActive: bool)
    requires Consistent(v) && forall j | 0 <= j < |messages| :: messages[j].id in v.nodes
    requires Detached(Detached(v.children, Hint), Working) == Rows(v, messages)
    ensures Consistent(v.(children := Rows(v, messages) + Chrome(messages == [], turnActive)))
  {
    hide Faithful, Distinct, Detached, Enumerates;
    var rows, chrome := Rows(v, messages), Chrome(messages == [], turnActive);
    RowsDistinct(v, messages);
    DistinctAppend(rows, Hint);
    DistinctAppend(rows, Working);
    assert rows + [] == rows;
    assert chrome == [] || chrome == [Hint] || chrome == [Working];
    forall e | Row(e) in rows + chrome ensures Owned(v.nodes, e) {
      assert Row(e) in rows;
      var j :| 0 <= j < |rows| && rows[j] == Row(e);
      assert messages[j].id in v.nodes && v.nodes[messages[j].id].el == e;
    }
  }

  lemma SameDrawing(before: View, v: View, other: View, w: View, message: P.Message, turnActive: bool, trimEnd: string -> string)
    requires MessageShown(before, v, message, turnActive, trimEnd) && MessageShown(other, w, message, turnActive, trimEnd)
    ensures Draws(v.nodes[message.id]) == Draws(w.nodes[message.id])
  {
  }

  lemma NothingConsistent(nextEl: nat)
    ensures Consistent(View(map[], [], [], nextEl))
  {
  }

  lemma RowAt(before: View, v: View, messages: seq<P.Message>, turnActive: bool, trimEnd: string -> string, j: nat)
    requires WellRendered(before, v, messages, turnActive, trimEnd) && j < |messages|
    ensures MessageShown(before, v, messages[j], turnActive, trimEnd) && messages[j].id in v.nodes
    ensures |v.children| == |messages| + |Chrome(messages == [], turnActive)|
    ensures v.children[j] == Row(v.nodes[messages[j].id].el)
    ensures v.children[|messages|..] == Chrome(messages == [], turnActive)
  {
    hide Draws, FreshDrawing, Consistent;
  }

  /** Editing the list in place shows, message by message, what building it from nothing shows. */
  lemma RenderEqualsRebuild(before: View, messages: seq<P.Message>, turnActive: bool, trimEnd: string -> string,
                            v: View, w: View, j: nat)
    requires Consistent(before) && Distinct(MessageIds(messages)) && j < |messages|
    requires v == RenderedView(before, messages, turnActive, trimEnd)
    requires w == RenderedView(View(map[], [], [], 0), messages, turnActive, trimEnd)
    ensures messages[j].id in v.nodes && messages[j].id in w.nodes
    ensures |v.children| == |w.children| >= |messages| && v.children[|messages|..] == w.children[|messages|..]
    ensures v.children[j] == Row(v.nodes[messages[j].id].el) && w.children[j] == Row(w.nodes[messages[j].id].el)
    ensures Draws(v.nodes[messages[j].id]) == Draws(w.nodes[messages[j].id])
  {
    hide *;
    NothingConsistent(0);
    RenderPlacesMessages(before, messages, turnActive, trimEnd);
    RenderPlacesMessages(View(map[], [], [], 0), messages, turnActive, trimEnd);
    RowAt(before, v, messages, turnActive, trimEnd, j);
    RowAt(View(map[], [], [], 0), w, messages, turnActive, trimEnd, j);
    SameDrawing(before, v, View(map[], [], [], 0), w, messages[j], turnActive, trimEnd);
  }

  lemma ConsistentOrder(v: View)
    requires Consistent(v)
    ensures Distinct(v.order) && forall i | 0 <= i < |v.order| :: v.order[i] in v.nodes
  {
  }

  // ----- The object --------------------------------------------------------------------------------------

  /** The registry and child list once `ensureLog` has run: a log no longer in the document is started afresh. */
  function LogEnsured(v: View, connected: bool): View {
    if connected then v else View(map[], [], [], v.nextEl)
  }

  class ChatLog {
    var nodes: map<string, Node>
    var order: seq<string>
    var children: seq<Child>
    var nextEl: nat
    var connected: bool
    const trimEnd: string -> string

    ghost function Model(): View
      reads this
    {
      View(nodes, order, children, nextEl)
    }

    constructor (trimEnd: string -> string)
      ensures Consistent(Model()) && !connected && this.trimEnd == trimEnd
    {
      nodes, order, children, nextEl, connected := map[], [], [], 0, false;
      this.trimEnd := trimEnd;
    }

    method EnsureLog()
      modifies this
      ensures Model() == LogEnsured(old(Model()), old(connected)) && connected
    {
      if connected {
        return;
      }
      nodes, order, children, connected := map[], [], [], true;
    }

    method RemoveNode(id: string)
      modifies `nodes, `order, `children
      ensures Model() == Dropped(old(Model()), id)
    {
      if id in nodes {
        children := Detached(children, Row(nodes[id].el));
        nodes := nodes - {id};
        order := P.Without(order, id);
      }
    }

    method SetNewNode(id: string, kind: NodeKind)
      modifies `nodes, `order, `nextEl
      ensures Model() == Created(old(Model()), id, kind)
    {
      if id !in nodes {
        order := order + [id];
      }
      nodes := nodes[id := NewNode(nextEl, kind)];
      nextEl := nextEl + 1;
    }

    method ShowNode(id: string, index: nat, message: P.Message, turnActive: bool)
      requires id in nodes
      modifies `nodes, `children
      ensures Model() == Shown(old(Model()), id, index, message, turnActive, trimEnd)
    {
      nodes := nodes[id := UpdateNode(nodes[id], message, turnActive, trimEnd)];
      var row := Row(nodes[id].el);
      UpdateKeepsElement(old(nodes[id]), message, turnActive, trimEnd);
      if index >= |children| || children[index] != row {
        children := InsertedBefore(children, row, if index < |children| then Some(children[index]) else None);
      }
    }

    method Apply(operation: Operation, turnActive: bool)
      modifies `nodes, `order, `children, `nextEl
      ensures Model() == Applied(old(Model()), operation, turnActive, trimEnd)
    {
      if operation.Remove? || operation.Replace? {
        RemoveNode(operation.id);
      }
      if operation.Insert? || operation.Replace? {
        SetNewNode(operation.id, ChatNodeKind(operation.message));
      }
      if !operation.Remove? && operation.id in nodes {
        ShowNode(operation.id, operation.index, operation.message, turnActive);
      }
    }

    method ApplyAll(operations: seq<Operation>, turnActive: bool)
      modifies `nodes, `order, `children, `nextEl
      ensures Model() == AppliedAll(old(Model()), operations, turnActive, trimEnd)
    {
      hide Applied;
      for k := 0 to |operations|
        invariant Model() == AppliedAll(old(Model()), operations[..k], turnActive, trimEnd)
      {
        assert operations[..k + 1][..k] == operations[..k];
        Apply(operations[k], turnActive);
      }
      assert operations[..|operations|] == operations;
    }

    /** The hint and the working row are taken out and, when due, put back at the end. */
    method RenewChrome(empty: bool, turnActive: bool)
      modifies `children
      ensures children == Detached(Detached(old(children), Hint), Working) + Chrome(empty, turnActive)
    {
      hide Detached;
      children := Detached(children, Hint);
      children := Detached(children, Working);
      ghost var bare := children;
      if empty && !turnActive {
        children := children + [Hint];
      }
      if turnActive {
        children := children + [Working];
      }
      assert children == bare + Chrome(empty, turnActive);
    }

    /** Edits the child list in place; with distinct message ids the outcome is the settled one. */
    method Render(messages: seq<P.Message>, turnActive: bool)
      requires connected ==> Consistent(Model())
      modifies this
      ensures connected
      ensures var v := LogEnsured(old(Model()), old(connected));
              && Model() == RenderedView(v, messages, turnActive, trimEnd)
              && (Distinct(MessageIds(messages)) ==> WellRendered(v, Model(), messages, turnActive, trimEnd))
    {
      hide Consistent, WellRendered, AppliedAll, Distinct, Detached, Chrome, Plan;
      EnsureLog();
      ghost var start := Model();
      NothingConsistent(nextEl);
      ConsistentOrder(start);
      var ids, registered := order, nodes;
      var existing := seq(|ids|, i requires 0 <= i < |ids| && ids[i] in registered => Entry(ids[i], registered[ids[i]].kind));
      var operations := PlanChatReconciliation(existing, messages);
      assert existing == Entries(start);
      ApplyAll(operations, turnActive);
      RenewChrome(|messages| == 0, turnActive);
      if Distinct(MessageIds(messages)) {
        RenderPlacesMessages(start, messages, turnActive, trimEnd);
      }
    }
  }

  lemma UpdateKeepsElement(node: Node, message: P.Message, turnActive: bool, trimEnd: string -> string)
    ensures UpdateNode(node, message, turnActive, trimEnd).el == node.el
  {
  }

  /** The projection's render list always has distinct ids, so every render of it is settled. */
  lemma ProjectionIdsDistinct(s: P.State)
    requires P.Keyed(s)
    ensures Distinct(MessageIds(P.RenderList(s)))
  {
    P.RenderListIsOrder(s);
    assert MessageIds(P.RenderList(s)) == s.order;
  }
}
