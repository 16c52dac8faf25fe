/**
 Walks over a splay tree without a stack: sml_tree_reject removes items while it walks, with pointers to slots in the
 back fields.
 */
module SplayWalk {
  import opened Splay

  // ---------------------------------------------------------------- slots

  /** A place that holds a pointer to a node, or NULL. */
  datatype SlotRef = NoSlot | RootSlot | ChildOf(id: int, d: Dir)

  /** Its address, as it is kept in a back field. */
  function Addr(s: SlotRef): int {
    match s
    case NoSlot => 0
    case RootSlot => 3
    case ChildOf(id, d) => 4 * id + if d == LEFT then 1 else 2
  }

  function SlotAt(a: int): SlotRef {
    if a == 0 then NoSlot
    else if a == 3 then RootSlot
    else ChildOf(a / 4, if a % 4 == 1 then LEFT else RIGHT)
  }

  lemma AddrOfSlot(s: SlotRef)
    ensures SlotAt(Addr(s)) == s
  {
  }

  function Value(m: Mem, root: int, s: SlotRef): int {
    match s
    case NoSlot => 0
    case RootSlot => root
    case ChildOf(id, d) => if id in m then Kid(m, id, d) else 0
  }

  // ---------------------------------------------------------------- a tree seen from a slot in it

  /** A step from the slot towards the root: out of the left child of a node still to be visited, or (past) out of the
      right child of a visited one; other is the node's other subtree. */
  datatype Step = Step(id: int, past: bool, other: Tree)

  /** Which child of the node the step comes from. */
  function Side(s: Step): Dir { if s.past then RIGHT else LEFT }

  function Enclose(s: Step, t: Tree): Tree { Node(s.id, if s.past then Two(s.other, t) else Two(t, s.other)) }

  function SlotOf(c: seq<Step>): SlotRef {
    if c == [] then RootSlot else ChildOf(c[0].id, Side(c[0]))
  }

  /** The slot that holds the next node to be visited. */
  function PrevOf(c: seq<Step>): SlotRef {
    if c == [] then NoSlot else if c[0].past then PrevOf(c[1..]) else SlotOf(c[1..])
  }

  /** The memory around the slot: every node on the way, and its other subtree. */
  ghost predicate Context(m: Mem, root: int, c: seq<Step>) {
    c == [] ||
    (c[0].id in m && c[0].id != 0 && Value(m, root, SlotOf(c[1..])) == c[0].id && Context(m, root, c[1..])
     && Holds(m, Kid(m, c[0].id, Opp(Side(c[0]))), c[0].other))
  }

  /** The nodes to be visited are linked by their back fields, through the slots that hold them. */
  ghost predicate Backs(m: Mem, c: seq<Step>) {
    c == [] || (Backs(m, c[1..]) && (!c[0].past ==> c[0].id in m && m[c[0].id].back == Addr(PrevOf(c[1..]))))
  }

  /** The visited nodes and those to be visited, in order. */
  function Done(c: seq<Step>): seq<int> {
    if c == [] then [] else if c[0].past then Done(c[1..]) + (In(c[0].other) + [c[0].id]) else Done(c[1..])
  }

  function ToDo(c: seq<Step>): seq<int> {
    if c == [] then [] else if c[0].past then ToDo(c[1..]) else ([c[0].id] + In(c[0].other)) + ToDo(c[1..])
  }

  function Nodes(c: seq<Step>, t: Tree): seq<int> { Done(c) + In(t) + ToDo(c) }

  function Plug(c: seq<Step>, t: Tree): Tree {
    if c == [] then t else Plug(c[1..], Enclose(c[0], t))
  }

  lemma {:induction false} PlugIn(c: seq<Step>, t: Tree)
    ensures In(Plug(c, t)) == Nodes(c, t)
  {
    if c != [] {
      PlugIn(c[1..], Enclose(c[0], t));
      Widen(c, t);
    }
  }

  /** The nodes are the same when the slot moves one step out. */
  lemma Widen(c: seq<Step>, t: Tree)
    requires c != []
    ensures Nodes(c[1..], Enclose(c[0], t)) == Nodes(c, t)
  {
    var d, o, x, y := Done(c[1..]), ToDo(c[1..]), In(c[0].other), In(t);
    assert In(Enclose(c[0], t)) == if c[0].past then x + [c[0].id] + y else y + [c[0].id] + x;
    assert c[0].past ==> Done(c) == d + (x + [c[0].id]) && ToDo(c) == o;
    assert !c[0].past ==> Done(c) == d && ToDo(c) == ([c[0].id] + x) + o;
    hide In, Done, ToDo, Enclose;
    WidenSeqs(d, x, [c[0].id], y, o);
  }

  lemma WidenSeqs(d: seq<int>, x: seq<int>, i: seq<int>, y: seq<int>, o: seq<int>)
    ensures d + (x + i + y) + o == (d + (x + i)) + y + o && d + (y + i + x) + o == d + y + ((i + x) + o)
  {
  }

  lemma {:induction false} PlugHolds(m: Mem, root: int, c: seq<Step>, t: Tree)
    requires Context(m, root, c) && Holds(m, Value(m, root, SlotOf(c)), t)
    ensures Holds(m, root, Plug(c, t))
  {
    if c != [] { PlugHolds(m, root, c[1..], Enclose(c[0], t)); }
  }

  /** The nodes of the context. */
  function Ring(c: seq<Step>): seq<int> { Done(c) + ToDo(c) }

  /** Changes elsewhere leave the context alone. */
  lemma {:induction false} SameContext(m: Mem, root: int, m': Mem, root': int, c: seq<Step>)
    requires Context(m, root, c) && root' == root && forall i :: i in Ring(c) ==> SameKids(m, m', i)
    ensures Context(m', root', c) && Value(m', root', SlotOf(c)) == Value(m, root, SlotOf(c))
  {
    if c != [] {
      InRing(c);
      SameContext(m, root, m', root', c[1..]);
      Frame(m, m', Kid(m, c[0].id, Opp(Side(c[0]))), c[0].other);
    }
  }

  lemma InRing(c: seq<Step>)
    requires c != []
    ensures c[0].id in Ring(c) && (forall i <- In(c[0].other) :: i in Ring(c))
            && (forall i <- Ring(c[1..]) :: i in Ring(c))
    ensures forall i :: i in Ring(c) <==> i == c[0].id || i in In(c[0].other) || i in Ring(c[1..])
  {
    hide In;
  }

  /** Writing into the slot itself leaves the context alone. */
  lemma ContextFrame(m: Mem, root: int, m': Mem, root': int, c: seq<Step>)
    requires Context(m, root, c) && NoDup(Ring(c)) && (c != [] ==> root' == root)
    requires forall i :: i in Ring(c) && (c == [] || i != c[0].id) ==> SameKids(m, m', i)
    requires c != [] ==>
             c[0].id in m' && c[0].id in m && Kid(m', c[0].id, Opp(Side(c[0]))) == Kid(m, c[0].id, Opp(Side(c[0])))
    ensures Context(m', root', c)
  {
    if c != [] {
      PartsApart(c);
      InRing(c);
      hide Ring, In;
      SameContext(m, root, m', root', c[1..]);
      Frame(m, m', Kid(m, c[0].id, Opp(Side(c[0]))), c[0].other);
    }
  }

  /** The innermost node is neither in its other subtree nor further out. */
  lemma PartsApart(c: seq<Step>)
    requires c != [] && NoDup(Ring(c))
    ensures NoDup(Ring(c[1..])) && c[0].id !in Ring(c[1..]) && c[0].id !in In(c[0].other)
    ensures forall i <- In(c[0].other) :: i !in Ring(c[1..])
    ensures NoDup(In(c[0].other))
  {
    var d, o, x := Done(c[1..]), ToDo(c[1..]), In(c[0].other);
    RingShape(c);
    hide In, Done, ToDo, Ring;
    if c[0].past {
      ApartSeqs(d, x + [c[0].id], o);
      NoDupSplit(x, [c[0].id]);
      hide NoDup;
      assert c[0].id in x + [c[0].id] && forall i <- x :: i in x + [c[0].id];
    } else {
      ApartSeqs(d, [c[0].id] + x, o);
      NoDupSplit([c[0].id], x);
      hide NoDup;
      assert c[0].id in [c[0].id] + x && forall i <- x :: i in [c[0].id] + x;
    }
  }

  lemma RingShape(c: seq<Step>)
    requires c != []
    ensures var d, o, x := Done(c[1..]), ToDo(c[1..]), In(c[0].other);
            Ring(c) == d + (if c[0].past then x + [c[0].id] else [c[0].id] + x) + o && Ring(c[1..]) == d + o
  {
    hide In;
    var d, o, x := Done(c[1..]), ToDo(c[1..]), In(c[0].other);
    if !c[0].past {
      assert d + (([c[0].id] + x) + o) == d + ([c[0].id] + x) + o;
    }
  }

  lemma ApartSeqs(d: seq<int>, x: seq<int>, o: seq<int>)
    requires NoDup(d + x + o)
    ensures NoDup(d + o) && NoDup(x) && forall i <- x :: i !in d + o
  {
    CutOut(d, x, o);
    NoDupSplit(d + x, o);
    NoDupSplit(d, x);
    hide NoDup;
    assert forall i <- x :: i in d + x;
  }

  lemma CutOut(a: seq<int>, b: seq<int>, c: seq<int>)
    ensures NoDup(a + b + c) ==> NoDup(a + c)
  {
    if NoDup(a + b + c) {
      var s, t := a + b + c, a + c;
      forall i, j | 0 <= i < j < |t| ensures t[i] != t[j] {
        var x, y := if i < |a| then i else i + |b|, if j < |a| then j else j + |b|;
        assert s[x] == t[i] && s[y] == t[j];
      }
    }
  }

  // ---------------------------------------------------------------- the state of a walk

  /** The variables prev and node of the walk, and what the memory holds: the tree t at the slot, and the context c. */
  ghost predicate Walking(m: Mem, root: int, prev: SlotRef, slot: SlotRef, c: seq<Step>, t: Tree) {
    && slot == SlotOf(c) && prev == PrevOf(c) && Context(m, root, c) && Backs(m, c)
    && Holds(m, Value(m, root, slot), t) && NoDup(Nodes(c, t))
  }

  lemma NodesApart(c: seq<Step>, t: Tree)
    requires NoDup(Nodes(c, t))
    ensures NoDup(Ring(c)) && NoDup(In(t)) && forall i <- In(t) :: i !in Ring(c)
    ensures forall i :: i in Nodes(c, t) <==> i in Ring(c) || i in In(t)
  {
    hide In, Done, ToDo;
    ApartSeqs(Done(c), In(t), ToDo(c));
  }

  lemma {:induction false} ContextNodes(m: Mem, root: int, c: seq<Step>)
    requires Context(m, root, c)
    ensures forall i <- Ring(c) :: i in m && i != 0
  {
    if c != [] {
      ContextNodes(m, root, c[1..]);
      HeldNodes(m, Kid(m, c[0].id, Opp(Side(c[0]))), c[0].other);
      InRing(c);
    }
  }

  lemma {:induction false} SameBacks(m: Mem, m': Mem, c: seq<Step>)
    requires Backs(m, c) && forall i :: i in ToDo(c) && i in m ==> i in m' && m'[i].back == m[i].back
    ensures Backs(m', c)
  {
    if c != [] {
      hide In;
      SameBacks(m, m', c[1..]);
    }
  }

  /** Down to the left: the node is linked to the node to be visited after it. */
  lemma DownLeft(m: Mem, root: int, prev: SlotRef, slot: SlotRef, c: seq<Step>, t: Tree)
    requires Walking(m, root, prev, slot, c, t) && t.Node?
    ensures t.id in m && t.id == Value(m, root, slot)
    ensures var m' := m[t.id := m[t.id].(back := Addr(prev))];
            var c' := [Step(t.id, false, t.kids.r)] + c;
            && Walking(m', root, slot, ChildOf(t.id, LEFT), c', t.kids.l)
            && Done(c') == Done(c) && In(t.kids.l) + ToDo(c') == In(t) + ToDo(c)
  {
    var m' := m[t.id := m[t.id].(back := Addr(prev))];
    var c' := [Step(t.id, false, t.kids.r)] + c;
    DownNodes(c, t);
    NodesApart(c, t);
    NodeParts(t);
    HeldNodes(m, t.id, t);
    ContextNodes(m, root, c);
    assert Holds(m, Kid(m, t.id, LEFT), t.kids.l) && Holds(m, Kid(m, t.id, RIGHT), t.kids.r);
    hide In, Done, Ring, Nodes, NoDup;
    SameContext(m, root, m', root, c);
    Frame(m, m', Kid(m, t.id, LEFT), t.kids.l);
    Frame(m, m', Kid(m, t.id, RIGHT), t.kids.r);
    InToDo(c);
    SameBacks(m, m', c);
    hide ToDo, Holds;
    assert c'[1..] == c;
  }

  /** The nodes when the slot moves to the left child. */
  lemma DownNodes(c: seq<Step>, t: Tree)
    requires t.Node?
    ensures var c' := [Step(t.id, false, t.kids.r)] + c;
            Done(c') == Done(c) && In(t.kids.l) + ToDo(c') == In(t) + ToDo(c) && Nodes(c', t.kids.l) == Nodes(c, t)
  {
    var c' := [Step(t.id, false, t.kids.r)] + c;
    assert c'[1..] == c;
    Widen(c', t.kids.l);
    assert Enclose(c'[0], t.kids.l) == t;
    assert In(t) == In(t.kids.l) + [t.id] + In(t.kids.r);
    assert ToDo(c') == ([t.id] + In(t.kids.r)) + ToDo(c);
    hide In, Done, ToDo;
    Regroup4(In(t.kids.l), [t.id], In(t.kids.r), ToDo(c));
  }

  lemma Regroup4(a: seq<int>, b: seq<int>, c: seq<int>, d: seq<int>)
    ensures a + ((b + c) + d) == a + b + c + d
  {
  }

  lemma InToDo(c: seq<Step>)
    ensures forall i <- ToDo(c) :: i in Ring(c)
    ensures forall i <- Done(c) :: i in Ring(c)
  {
  }

  /** Back up: prev holds the next node a to be visited; everything in its left subtree has been visited. */
  lemma {:induction false} Climb(m: Mem, root: int, c: seq<Step>, t: Tree)
      returns (outer: seq<Step>, a: int, l: Tree, r: Tree)
    requires Context(m, root, c) && Backs(m, c) && Holds(m, Value(m, root, SlotOf(c)), t) && PrevOf(c) != NoSlot
    ensures PrevOf(c) == SlotOf(outer) && Context(m, root, outer) && Backs(m, outer)
    ensures Holds(m, Value(m, root, SlotOf(outer)), Node(a, Two(l, r))) && a in m && m[a].back == Addr(PrevOf(outer))
    ensures Done(outer) + In(l) == Done(c) + In(t) && ToDo(c) == ([a] + In(r)) + ToDo(outer)
    ensures Nodes(outer, Node(a, Two(l, r))) == Nodes(c, t)
  {
    Widen(c, t);
    if c[0].past {
      EncloseDone(c, t);
      outer, a, l, r := Climb(m, root, c[1..], Enclose(c[0], t));
      hide In;
    } else {
      outer, a, l, r := c[1..], c[0].id, t, c[0].other;
    }
  }

  lemma EncloseDone(c: seq<Step>, t: Tree)
    requires c != [] && c[0].past
    ensures Done(c[1..]) + In(Enclose(c[0], t)) == Done(c) + In(t)
  {
    assert In(Enclose(c[0], t)) == In(c[0].other) + [c[0].id] + In(t);
    assert Done(c) == Done(c[1..]) + (In(c[0].other) + [c[0].id]);
    hide In, Done;
    Regroup4(Done(c[1..]), [], In(c[0].other) + [c[0].id], In(t));
  }

  /** *s = v */
  function Write(m: Mem, root: int, s: SlotRef, v: int): (Mem, int) {
    match s
    case NoSlot => (m, root)
    case RootSlot => (m, v)
    case ChildOf(p, d) => (if p in m then SetKid(m, p, d, v) else m, root)
  }

  lemma WriteKeeps(m: Mem, root: int, c: seq<Step>, v: int, t: Tree)
    requires Context(m, root, c) && Backs(m, c) && NoDup(Ring(c)) && Holds(m, v, t)
             && forall i <- In(t) :: i !in Ring(c)
    ensures var (m', root') := Write(m, root, SlotOf(c), v);
            && Context(m', root', c) && Backs(m', c) && Value(m', root', SlotOf(c)) == v && Holds(m', v, t)
            && m'.Keys == m.Keys && forall i <- m :: m'[i].item == m[i].item && m'[i].back == m[i].back
  {
    var (m', root') := Write(m, root, SlotOf(c), v);
    ContextNodes(m, root, c);
    HeldNodes(m, v, t);
    if c != [] { InRing(c); }
    InToDo(c);
    hide In, Done, ToDo, Ring;
    ContextFrame(m, root, m', root', c);
    SameBacks(m, m', c);
    Frame(m, m', v, t);
  }

  /** A visited node stays: on to its right child. */
  lemma KeepNode(m: Mem, root: int, outer: seq<Step>, a: int, l: Tree, r: Tree)
    requires Context(m, root, outer) && Backs(m, outer) && Holds(m, Value(m, root, SlotOf(outer)), Node(a, Two(l, r)))
    requires NoDup(Nodes(outer, Node(a, Two(l, r))))
    ensures var c := [Step(a, true, l)] + outer;
            && Walking(m, root, PrevOf(outer), ChildOf(a, RIGHT), c, r)
            && Nodes(c, r) == Nodes(outer, Node(a, Two(l, r)))
            && Done(c) == Done(outer) + (In(l) + [a]) && ToDo(c) == ToDo(outer)
  {
    var c := [Step(a, true, l)] + outer;
    assert c[1..] == outer;
    Widen(c, r);
    assert Enclose(c[0], r) == Node(a, Two(l, r));
    hide In, NoDup;
  }

  // ---------------------------------------------------------------- what the walk leaves

  /** The items of the nodes in order. */
  function ItemsOf(m: Mem, s: seq<int>): seq<Item> {
    seq(|s|, i requires 0 <= i < |s| => if s[i] in m then m[s[i]].item else Item(0, 0))
  }

  function Kept(m: Mem, s: seq<int>, reject: Item -> bool): seq<int> {
    if s == [] then []
    else
      var n := |s| - 1;
      Kept(m, s[..n], reject) + if s[n] in m && reject(m[s[n]].item) then [] else [s[n]]
  }

  /** The rejected nodes, the last one first, as node_reclaim stacks them. */
  function Rejected(m: Mem, s: seq<int>, reject: Item -> bool): seq<int> {
    if s == [] then []
    else
      var n := |s| - 1;
      (if s[n] in m && reject(m[s[n]].item) then [s[n]] else []) + Rejected(m, s[..n], reject)
  }

  lemma {:induction false} KeptMembers(m: Mem, s: seq<int>, reject: Item -> bool)
    ensures forall i :: i in Kept(m, s, reject) <==> i in s && !(i in m && reject(m[i].item))
    ensures forall i :: i in Rejected(m, s, reject) <==> i in s && i in m && reject(m[i].item)
  {
    if s != [] {
      KeptMembers(m, s[..|s| - 1], reject);
      assert s == s[..|s| - 1] + [s[|s| - 1]];
    }
  }

  // ---------------------------------------------------------------- taking a node out during the walk

  ghost predicate Spare(tree: SplayTree, s: seq<int>)
    reads tree
  {
    FreeList(tree.m, tree.freelist, tree.free) && NoDup(tree.free) && forall i <- tree.free :: i !in s
  }

  /** The memory at a slot that holds a node whose left subtree has been visited. */
  ghost predicate AtNode(m: Mem, root: int, outer: seq<Step>, a: int, l: Tree, r: Tree) {
    && Context(m, root, outer) && Backs(m, outer) && Holds(m, Value(m, root, SlotOf(outer)), Node(a, Two(l, r)))
    && Sorted(m, Nodes(outer, Node(a, Two(l, r)))) && a in m
  }

  /** Links inside the subtree at the slot, and back fields outside the context, may change. */
  lemma InsideKeeps(m: Mem, root: int, m': Mem, outer: seq<Step>, t: Tree)
    requires Context(m, root, outer) && Backs(m, outer) && NoDup(Nodes(outer, t))
    requires m'.Keys == m.Keys && forall i <- m :: i !in In(t) ==> m'[i] == m[i]
    ensures Context(m', root, outer) && Backs(m', outer)
  {
    NodesApart(outer, t);
    ContextNodes(m, root, outer);
    InToDo(outer);
    hide In, Done, ToDo, Ring, Nodes, NoDup;
    SameContext(m, root, m', root, outer);
    SameBacks(m, m', outer);
  }

  /** The slot after a node has been replaced by its only other child. */
  lemma ReplacedByRight(m: Mem, root: int, m': Mem, root': int, outer: seq<Step>, a: int, l: Tree, r: Tree)
    requires Context(m, root, outer) && Backs(m, outer) && NoDup(Nodes(outer, Node(a, Two(l, r)))) && l == Leaf
    requires a in m && Holds(m, Kid(m, a, RIGHT), r) && (m', root') == Write(m, root, SlotOf(outer), Kid(m, a, RIGHT))
    ensures Walking(m', root', PrevOf(outer), SlotOf(outer), outer, r)
    ensures m'.Keys == m.Keys && forall i <- m :: m'[i].item == m[i].item && m'[i].back == m[i].back
  {
    NodesApart(outer, Node(a, Two(l, r)));
    assert In(Node(a, Two(l, r))) == [a] + In(r);
    assert forall i <- In(r) :: i in [a] + In(r);
    DropFromNodes(outer, a, r);
    hide In, Done, ToDo, Ring, Nodes, NoDup;
    WriteKeeps(m, root, outer, Kid(m, a, RIGHT), r);
  }

  lemma DropFromNodes(c: seq<Step>, a: int, r: Tree)
    requires NoDup(Nodes(c, Node(a, Two(Leaf, r))))
    ensures NoDup(Nodes(c, r))
  {
    assert In(Node(a, Two(Leaf, r))) == [a] + In(r);
    hide In, Done, ToDo, NoDup;
    assert Done(c) + ([a] + In(r)) + ToDo(c) == Done(c) + [a] + (In(r) + ToDo(c));
    assert Done(c) + In(r) + ToDo(c) == Done(c) + (In(r) + ToDo(c));
    CutOut(Done(c), [a], In(r) + ToDo(c));
  }

  /** The slot after a node has been replaced by the join of its subtrees, whose root stands for the visited part. */
  lemma ReplacedByJoin(m: Mem, root: int, m': Mem, root': int, outer: seq<Step>, a: int, l: Tree, r: Tree, j: int,
                       tj: Tree)
    requires Context(m, root, outer) && Backs(m, outer) && NoDup(Nodes(outer, Node(a, Two(l, r))))
    requires Holds(m, j, tj) && In(tj) == In(l) + In(r) && tj.Node? && tj.kids.r == r
    requires (m', root') == Write(m, root, SlotOf(outer), j)
    ensures var c := [Step(j, true, tj.kids.l)] + outer;
            Walking(m', root', PrevOf(outer), ChildOf(j, RIGHT), c, r) && Done(c) == Done(outer) + In(l)
            && ToDo(c) == ToDo(outer)
    ensures m'.Keys == m.Keys && forall i <- m :: m'[i].item == m[i].item && m'[i].back == m[i].back
  {
    hide In, Done, ToDo, Ring, NoDup, Nodes, Context, Backs, Holds, Walking, Write, SlotOf, PrevOf, Value;
    JoinedApart(outer, a, l, r, j, tj, m);
    WriteKeeps(m, root, outer, j, tj);
    KeepNode(m', root', outer, j, tj.kids.l, r);
  }

  lemma JoinedApart(outer: seq<Step>, a: int, l: Tree, r: Tree, j: int, tj: Tree, m: Mem)
    requires NoDup(Nodes(outer, Node(a, Two(l, r))))
    requires Holds(m, j, tj) && In(tj) == In(l) + In(r) && tj.Node? && tj.kids.r == r
    ensures NoDup(Ring(outer)) && NoDup(Nodes(outer, tj)) && (forall i <- In(tj) :: i !in Ring(outer))
    ensures tj == Node(j, Two(tj.kids.l, r)) && In(tj.kids.l) + [j] == In(l)
  {
    assert In(tj) == In(tj.kids.l) + [j] + In(r);
    JoinedNodes(outer, a, l, r, tj);
    NodesApart(outer, tj);
    RightCancels(In(tj.kids.l) + [j], In(l), In(r));
  }

  lemma RightCancels(a: seq<int>, b: seq<int>, c: seq<int>)
    ensures a + c == b + c ==> a == b
  {
    if a + c == b + c {
      assert |a| == |b|;
      forall i | 0 <= i < |a| ensures a[i] == b[i] { assert (a + c)[i] == (b + c)[i]; }
    }
  }

  lemma JoinedNodes(c: seq<Step>, a: int, l: Tree, r: Tree, tj: Tree)
    requires NoDup(Nodes(c, Node(a, Two(l, r)))) && In(tj) == In(l) + In(r)
    ensures NoDup(Nodes(c, tj))
  {
    assert In(Node(a, Two(l, r))) == In(l) + [a] + In(r);
    hide In, Done, ToDo;
    CutMiddle(Done(c), In(l), [a], In(r), ToDo(c));
  }

  lemma CutMiddle(d: seq<int>, l: seq<int>, a: seq<int>, r: seq<int>, o: seq<int>)
    requires NoDup(d + (l + a + r) + o)
    ensures NoDup(d + (l + r) + o)
  {
    hide NoDup;
    assert d + (l + a + r) + o == (d + l) + a + (r + o);
    assert d + (l + r) + o == (d + l) + (r + o);
    CutOut(d + l, a, r + o);
  }

  /** A rejected node: reclaimed first, then replaced in its slot; the walk goes on to the right. */
  method DropNode(tree: SplayTree, slot: SlotRef, a: int, ghost outer: seq<Step>, ghost l: Tree, ghost r: Tree)
    returns (node: SlotRef, ghost c: seq<Step>)
    requires AtNode(tree.m, tree.root, outer, a, l, r) && slot == SlotOf(outer) && a == Value(tree.m, tree.root, slot)
    requires Spare(tree, Nodes(outer, Node(a, Two(l, r))))
    modifies tree
    ensures Walking(tree.m, tree.root, PrevOf(outer), node, c, r)
    ensures Done(c) == Done(outer) + In(l) && ToDo(c) == ToDo(outer)
    ensures tree.m.Keys == old(tree.m).Keys && forall i <- tree.m :: tree.m[i].item == old(tree.m)[i].item
    ensures FreeList(tree.m, tree.freelist, tree.free) && tree.free == [a] + old(tree.free)
  {
    hide In, Done, ToDo, Ring, Context, Backs, Holds, Sorted, FreeList, NoDup, Nodes, Walking;
    ghost var m0, t := tree.m, Node(a, Two(l, r));
    NodeAt(m0, tree.root, outer, a, l, r);
    tree.Reclaim(a);
    ghost var m1 := tree.m;
    ReclaimedNode(m0, m1, tree.root, outer, a, l, r);
    if Kid(tree.m, a, LEFT) == 0 {
      LeftEmpty(m1, a, l);
      ReplacedBy(m1, tree.root, outer, a, l, r);
      var (m', root') := Write(tree.m, tree.root, slot, Kid(tree.m, a, RIGHT));
      ReplacedByRight(m1, tree.root, m', root', outer, a, l, r);
      tree.m, tree.root := m', root';
      node, c := slot, outer;
      FreeListKept(m1, tree.m, tree.freelist, tree.free);
    } else {
      LeftEmpty(m1, a, l);
      var j;
      ghost var tj;
      j, tj := tree.Join(a, t);
      ghost var m2 := tree.m;
      JoinInside(m1, m2, tree.root, outer, a, l, r);
      var (m', root') := Write(tree.m, tree.root, slot, j);
      ReplacedByJoin(m2, tree.root, m', root', outer, a, l, r, j, tj);
      tree.m, tree.root := m', root';
      node, c := ChildOf(j, RIGHT), [Step(j, true, tj.kids.l)] + outer;
      FreeListKept(m1, m2, tree.freelist, tree.free);
      FreeListKept(m2, tree.m, tree.freelist, tree.free);
    }
  }

  lemma NodeAt(m: Mem, root: int, outer: seq<Step>, a: int, l: Tree, r: Tree)
    requires AtNode(m, root, outer, a, l, r)
    ensures a != 0 && a in Nodes(outer, Node(a, Two(l, r))) && NoDup(Nodes(outer, Node(a, Two(l, r))))
  {
    var t := Node(a, Two(l, r));
    SortedNoDup(m, Nodes(outer, t));
    NodesApart(outer, t);
    NodeParts(t);
    hide In, Done, ToDo, Ring, NoDup, Sorted;
  }

  lemma ReclaimedNode(m: Mem, m': Mem, root: int, outer: seq<Step>, a: int, l: Tree, r: Tree)
    requires AtNode(m, root, outer, a, l, r) && exists b :: m' == m[a := m[a].(back := b)]
    ensures AtNode(m', root, outer, a, l, r)
    ensures Holds(m', a, Node(a, Two(l, r))) && Sorted(m', In(Node(a, Two(l, r))))
    ensures Holds(m', Kid(m', a, LEFT), l) && Holds(m', Kid(m', a, RIGHT), r)
  {
    var t := Node(a, Two(l, r));
    NodeAt(m, root, outer, a, l, r);
    NodesApart(outer, t);
    NodeParts(t);
    HeldNodes(m, a, t);
    InsideKeeps(m, root, m', outer, t);
    SlotSame(m, m', root, outer);
    Frame(m, m', a, t);
    SortedSame(m, m', Nodes(outer, t));
    hide In, Done, ToDo, Ring, NoDup;
    SortedSplit(m', Done(outer) + In(t), ToDo(outer));
    SortedSplit(m', Done(outer), In(t));
  }

  lemma SlotSame(m: Mem, m': Mem, root: int, c: seq<Step>)
    requires m'.Keys == m.Keys && forall i <- m :: m'[i].child == m[i].child
    ensures Value(m', root, SlotOf(c)) == Value(m, root, SlotOf(c))
  {
  }

  lemma SortedSame(m: Mem, m': Mem, s: seq<int>)
    requires Sorted(m, s) && forall i <- m :: i in m' && m'[i].item == m[i].item
    ensures Sorted(m', s)
  {
  }

  lemma LeftEmpty(m: Mem, a: int, l: Tree)
    requires a in m && Holds(m, Kid(m, a, LEFT), l)
    ensures Kid(m, a, LEFT) == 0 <==> l == Leaf
    ensures l == Leaf ==> In(l) == []
  {
  }

  lemma ReplacedBy(m: Mem, root: int, outer: seq<Step>, a: int, l: Tree, r: Tree)
    requires AtNode(m, root, outer, a, l, r) && l == Leaf
    ensures Context(m, root, outer) && Backs(m, outer) && NoDup(Nodes(outer, Node(a, Two(l, r))))
    ensures Done(outer) == Done(outer) + In(l)
  {
    NodeAt(m, root, outer, a, l, r);
  }

  lemma JoinInside(m: Mem, m': Mem, root: int, outer: seq<Step>, a: int, l: Tree, r: Tree)
    requires AtNode(m, root, outer, a, l, r) && OnlyLinks(m, m', In(Node(a, Two(l, r))))
    ensures Context(m', root, outer) && Backs(m', outer) && NoDup(Nodes(outer, Node(a, Two(l, r))))
  {
    NodeAt(m, root, outer, a, l, r);
    hide In, Done, ToDo, Ring, NoDup, Sorted, Nodes, Holds;
    InsideKeeps(m, root, m', outer, Node(a, Two(l, r)));
  }

  lemma FreeListKept(m: Mem, m': Mem, head: int, free: seq<int>)
    requires FreeList(m, head, free) && m'.Keys == m.Keys && forall i <- m :: m'[i].back == m[i].back
    ensures FreeList(m', head, free)
  {
    FreeListNodes(m, head, free);
    FreeListFrame(m, m', head, free);
  }

  // ---------------------------------------------------------------- sml_tree_reject

  /** After v nodes of s0: what has been kept is visited, the rest is to be visited, and what was rejected is spare. */
  ghost predicate Progress(m0: Mem, s0: seq<int>, reject: Item -> bool, free0: seq<int>, v: nat, m: Mem, c: seq<Step>,
                           t: Tree, free: seq<int>, calls: seq<Item>) {
    && v <= |s0| && Done(c) == Kept(m0, s0[..v], reject) && In(t) + ToDo(c) == s0[v..]
    && m.Keys == m0.Keys && (forall i <- m0 :: m[i].item == m0[i].item)
    && free == Rejected(m0, s0[..v], reject) + free0 && calls == ItemsOf(m0, s0[..v])
  }

  /** The nodes of the tree in the middle of the walk are in order, and apart from the spare ones. */
  lemma ProgressFacts(m0: Mem, s0: seq<int>, reject: Item -> bool, free0: seq<int>, v: nat, m: Mem, c: seq<Step>,
                      t: Tree, free: seq<int>, calls: seq<Item>)
    requires Progress(m0, s0, reject, free0, v, m, c, t, free, calls)
    requires Sorted(m0, s0) && NoDup(free0) && forall i <- free0 :: i !in s0
    ensures Sorted(m, Nodes(c, t)) && NoDup(free) && forall i <- free :: i !in Nodes(c, t)
  {
    hide In, Done, ToDo, Sorted, NoDup;
    var a, b := s0[..v], s0[v..];
    assert s0 == a + b;
    assert Nodes(c, t) ==
           Kept(m0, a, reject) + b by { assert Done(c) + In(t) + ToDo(c) == Done(c) + (In(t) + ToDo(c)); }
    KeptSorted(m0, a, b, reject);
    SortedSame(m0, m, Nodes(c, t));
    KeptMembers(m0, a, reject);
    SortedSplit(m0, a, b);
    SortedNoDup(m0, s0);
    NoDupSplit(a, b);
    RejectedNoDup(m0, a, reject);
    Disjoint(Rejected(m0, a, reject), free0);
  }

  lemma Disjoint(a: seq<int>, b: seq<int>)
    requires NoDup(a) && NoDup(b) && forall i <- b :: i !in a
    ensures NoDup(a + b)
  {
    forall i, j | 0 <= i < j < |a + b| ensures (a + b)[i] != (a + b)[j] {
      if i < |a| <= j { assert b[j - |a|] in b && a[i] in a; }
    }
  }

  lemma {:induction false} RejectedNoDup(m: Mem, s: seq<int>, reject: Item -> bool)
    requires NoDup(s)
    ensures NoDup(Rejected(m, s, reject))
  {
    if s != [] {
      var n := |s| - 1;
      assert s == s[..n] + [s[n]];
      NoDupSplit(s[..n], [s[n]]);
      hide NoDup;
      RejectedNoDup(m, s[..n], reject);
      KeptMembers(m, s[..n], reject);
      assert NoDup([s[n]]);
      Disjoint([s[n]], Rejected(m, s[..n], reject));
    }
  }

  /** What is left of a sorted sequence is sorted. */
  lemma {:induction false} KeptSorted(m: Mem, s: seq<int>, t: seq<int>, reject: Item -> bool)
    requires Sorted(m, s + t)
    ensures Sorted(m, Kept(m, s, reject) + t)
  {
    if s == [] {
      assert s + t == t && Kept(m, s, reject) + t == t;
    } else {
      var n := |s| - 1;
      var front, x := s[..n], s[n];
      assert s + t == front + ([x] + t) == front + [x] + t;
      if x in m && reject(m[x].item) {
        hide Sorted;
        RemoveOrder(m, front, x, t);
        KeptSorted(m, front, t, reject);
        assert Kept(m, s, reject) == Kept(m, front, reject);
      } else {
        hide Sorted;
        KeptSorted(m, front, [x] + t, reject);
        assert Kept(m, s, reject) + t == Kept(m, front, reject) + ([x] + t);
      }
    }
  }

  /** One call of the predicate. */
  lemma NextNode(m0: Mem, s0: seq<int>, reject: Item -> bool, v: nat, a: int)
    requires v < |s0| && s0[v] == a && a in m0
    ensures Kept(m0, s0[..v + 1], reject) == if reject(m0[a].item) then Kept(m0, s0[..v], reject)
            else Kept(m0, s0[..v], reject) + [a]
    ensures Rejected(m0, s0[..v + 1], reject) == if reject(m0[a].item) then [a] + Rejected(m0, s0[..v], reject)
            else Rejected(m0, s0[..v], reject)
    ensures ItemsOf(m0, s0[..v + 1]) == ItemsOf(m0, s0[..v]) + [m0[a].item]
  {
    assert s0[..v + 1] == s0[..v] + [a];
    hide Kept, Rejected, ItemsOf;
    KeptOne(m0, s0[..v], a, reject);
    ItemsOne(m0, s0[..v], a);
  }

  lemma KeptOne(m: Mem, s: seq<int>, a: int, reject: Item -> bool)
    requires a in m
    ensures Kept(m, s + [a], reject) == if reject(m[a].item) then Kept(m, s, reject) else Kept(m, s, reject) + [a]
    ensures Rejected(m, s + [a], reject) == if reject(m[a].item) then [a] + Rejected(m, s, reject)
            else Rejected(m, s, reject)
  {
    assert (s + [a])[..|s|] == s;
  }

  lemma ItemsOne(m: Mem, s: seq<int>, a: int)
    requires a in m
    ensures ItemsOf(m, s + [a]) == ItemsOf(m, s) + [m[a].item]
  {
  }

  /** sml_tree_reject: the predicate is called once for every item in ascending order, and exactly the items it does not
      reject stay; the nodes of the others are spare. */
  method Reject(tree: SplayTree, reject: Item -> bool) returns (calls: seq<Item>)
    requires tree.Valid()
    modifies tree
    ensures tree.Valid()
    ensures calls == ItemsOf(old(tree.m), In(old(tree.t)))
    ensures In(tree.t) == Kept(old(tree.m), In(old(tree.t)), reject)
    ensures tree.free == Rejected(old(tree.m), In(old(tree.t)), reject) + old(tree.free)
    ensures tree.Contents() == set x | x in old(tree.Contents()) && !reject(x)
  {
    hide In, Sorted, NoDup, Holds, FreeList, Items, Walking, Progress, Nodes, Context, Backs, Done, ToDo;
    ghost var m0, s0, free0 := tree.m, In(tree.t), tree.free;
    var node, prev := RootSlot, NoSlot;
    ghost var c: seq<Step>, t := [], tree.t;
    ghost var v: nat := 0;
    calls := [];
    Begin(m0, tree.root, tree.t, reject, free0);
    while true
      invariant Walking(tree.m, tree.root, prev, node, c, t) && FreeList(tree.m, tree.freelist, tree.free)
      invariant Progress(m0, s0, reject, free0, v, tree.m, c, t, tree.free, calls)
      decreases |s0| - v, |In(t)|
    {
      var p := Value(tree.m, tree.root, node);
      ProgressFacts(m0, s0, reject, free0, v, tree.m, c, t, tree.free, calls);
      SlotTree(tree.m, tree.root, prev, node, c, t);
      if p != 0 {
        ghost var m1, t1, c1 := tree.m, t, c;
        DownLeft(m1, tree.root, prev, node, c, t);
        tree.m := tree.m[p := tree.m[p].(back := Addr(prev))];
        prev, node := node, ChildOf(p, LEFT);
        c, t := [Step(p, false, t.kids.r)] + c, t.kids.l;
        BackInside(m1, tree.m, tree.freelist, tree.free, c1, t1, p);
        WentDown(m0, s0, reject, free0, v, m1, tree.m, c1, t1, c, tree.free, calls);
      } else if prev == NoSlot {
        break;
      } else {
        v, calls, prev, node, c, t := Visit(tree, reject, m0, s0, free0, v, calls, prev, node, c, t);
      }
    }
    End(m0, s0, reject, free0, v, tree.m, tree.root, prev, node, c, t, tree.free, calls);
    tree.t := Plug(c, t);
    KeptItems(m0, tree.m, s0, reject);
  }

  lemma Begin(m: Mem, root: int, t: Tree, reject: Item -> bool, free: seq<int>)
    requires Holds(m, root, t) && Sorted(m, In(t))
    ensures Walking(m, root, NoSlot, RootSlot, [], t) && Progress(m, In(t), reject, free, 0, m, [], t, free, [])
  {
    SortedNoDup(m, In(t));
    var s := In(t);
    assert Nodes([], t) == In(t) && s[..0] == [] && s[0..] == s;
    assert In(t) + [] == In(t);
  }

  /** What the pointer in the slot says about the tree there. */
  lemma SlotTree(m: Mem, root: int, prev: SlotRef, slot: SlotRef, c: seq<Step>, t: Tree)
    requires Walking(m, root, prev, slot, c, t)
    ensures Value(m, root, slot) == 0 <==> t == Leaf
    ensures t.Node? ==> t.id == Value(m, root, slot) && t.id in m && |In(t.kids.l)| < |In(t)| && t.id in Nodes(c, t)
  {
    if t.Node? {
      assert t.id in In(t);
      NodesApart(c, t);
    }
    hide Ring;
  }

  lemma BackInside(m: Mem, m': Mem, head: int, free: seq<int>, c: seq<Step>, t: Tree, p: int)
    requires FreeList(m, head, free) && p in m && p in Nodes(c, t) && (forall i <- free :: i !in Nodes(c, t))
    requires m'.Keys == m.Keys && forall i <- m :: i != p ==> m'[i] == m[i]
    ensures FreeList(m', head, free)
  {
    FreeListNodes(m, head, free);
    hide Nodes;
    FreeListFrame(m, m', head, free);
  }

  lemma WentDown(m0: Mem, s0: seq<int>, reject: Item -> bool, free0: seq<int>, v: nat, m: Mem, m': Mem, c: seq<Step>,
                 t: Tree, c': seq<Step>, free: seq<int>, calls: seq<Item>)
    requires Progress(m0, s0, reject, free0, v, m, c, t, free, calls) && t.Node?
    requires Done(c') == Done(c) && In(t.kids.l) + ToDo(c') == In(t) + ToDo(c)
    requires m'.Keys == m.Keys && forall i <- m :: m'[i].item == m[i].item
    ensures Progress(m0, s0, reject, free0, v, m', c', t.kids.l, free, calls)
  {
  }

  /** The next node in order is visited: kept, or taken out. */
  method Visit(tree: SplayTree, reject: Item -> bool, ghost m0: Mem, ghost s0: seq<int>, ghost free0: seq<int>,
               ghost v: nat, calls: seq<Item>, prev: SlotRef, node: SlotRef, ghost c: seq<Step>, ghost t: Tree)
    returns (ghost v': nat, calls': seq<Item>, prev': SlotRef, node': SlotRef, ghost c': seq<Step>, ghost t': Tree)
    requires Walking(tree.m, tree.root, prev, node, c, t) && t == Leaf && prev != NoSlot
    requires Progress(m0, s0, reject, free0, v, tree.m, c, t, tree.free, calls)
    requires Sorted(tree.m, Nodes(c, t)) && Spare(tree, Nodes(c, t))
    modifies tree
    ensures v' == v + 1 <= |s0| && Walking(tree.m, tree.root, prev', node', c', t')
            && FreeList(tree.m, tree.freelist, tree.free)
    ensures Progress(m0, s0, reject, free0, v', tree.m, c', t', tree.free, calls')
  {
    hide In, Sorted, NoDup, Holds, FreeList, Walking, Progress, Nodes, Context, Backs, Done, ToDo;
    ghost var outer, l;
    ghost var a0;
    outer, a0, l, t' := VisitAt(tree.m, tree.root, prev, node, c, t);
    ghost var m1, free1 := tree.m, tree.free;
    node' := prev;
    var a := Value(tree.m, tree.root, node');
    AtSlot(tree.m, tree.root, outer, a0, l, t');
    prev' := SlotAt(tree.m[a].back);
    AddrOfSlot(PrevOf(outer));
    calls' := calls + [tree.m[a].item];
    VisitFacts(m0, s0, reject, free0, v, m1, c, free1, calls, outer, a, l, t');
    v' := v + 1;
    if reject(tree.m[a].item) {
      node', c' := DropNode(tree, node', a, outer, l, t');
    } else {
      KeepNode(tree.m, tree.root, outer, a, l, t');
      node', c' := ChildOf(a, RIGHT), [Step(a, true, l)] + outer;
    }
    Visited(m0, s0, reject, free0, v, m1, c, free1, calls, outer, a, l, t', tree.m, c', tree.free, calls');
  }

  lemma VisitAt(m: Mem, root: int, prev: SlotRef, node: SlotRef, c: seq<Step>, t: Tree)
    returns (outer: seq<Step>, a: int, l: Tree, r: Tree)
    requires Walking(m, root, prev, node, c, t) && t == Leaf && prev != NoSlot && Sorted(m, Nodes(c, t))
    ensures prev == SlotOf(outer) && AtNode(m, root, outer, a, l, r) && m[a].back == Addr(PrevOf(outer))
    ensures Done(outer) + In(l) == Done(c) && ToDo(c) == ([a] + In(r)) + ToDo(outer)
    ensures Nodes(outer, Node(a, Two(l, r))) == Nodes(c, t)
  {
    outer, a, l, r := Climb(m, root, c, t);
    assert In(t) == [];
    hide In, Done, ToDo, Context, Backs, Holds, Sorted, NoDup;
  }

  lemma AtSlot(m: Mem, root: int, outer: seq<Step>, a: int, l: Tree, r: Tree)
    requires AtNode(m, root, outer, a, l, r)
    ensures Value(m, root, SlotOf(outer)) == a && NoDup(Nodes(outer, Node(a, Two(l, r))))
    ensures Context(m, root, outer) && Backs(m, outer) && Holds(m, Value(m, root, SlotOf(outer)), Node(a, Two(l, r)))
  {
    NodeAt(m, root, outer, a, l, r);
  }

  lemma VisitFacts(m0: Mem, s0: seq<int>, reject: Item -> bool, free0: seq<int>, v: nat, m: Mem, c: seq<Step>,
                   free: seq<int>, calls: seq<Item>, outer: seq<Step>, a: int, l: Tree, r: Tree)
    requires Progress(m0, s0, reject, free0, v, m, c, Leaf, free, calls) && a in m
    requires ToDo(c) == ([a] + In(r)) + ToDo(outer)
    ensures v < |s0| && s0[v] == a && a in m0 && m[a].item == m0[a].item && In(r) + ToDo(outer) == s0[v + 1..]
  {
    assert In(Leaf) == [];
    hide In, ToDo, Done, Kept, Rejected, ItemsOf;
    HeadAndTail(s0, v, a, In(r), ToDo(outer));
  }

  lemma HeadAndTail(s: seq<int>, v: nat, a: int, x: seq<int>, o: seq<int>)
    requires v <= |s| && s[v..] == [] + (([a] + x) + o)
    ensures v < |s| && s[v] == a && s[v + 1..] == x + o
  {
    assert s[v] == s[v..][0];
    assert s[v + 1..] == s[v..][1..];
  }

  lemma Visited(m0: Mem, s0: seq<int>, reject: Item -> bool, free0: seq<int>, v: nat, m: Mem, c: seq<Step>,
                free: seq<int>, calls: seq<Item>, outer: seq<Step>, a: int, l: Tree, r: Tree, m': Mem, c': seq<Step>,
                free': seq<int>, calls': seq<Item>)
    requires Progress(m0, s0, reject, free0, v, m, c, Leaf, free, calls) && a in m
    requires v < |s0| && s0[v] == a && a in m0 && m[a].item == m0[a].item && In(r) + ToDo(outer) == s0[v + 1..]
    requires Done(outer) + In(l) == Done(c) && ToDo(c') == ToDo(outer) && calls' == calls + [m[a].item]
    requires if reject(m[a].item) then Done(c') == Done(outer) + In(l) && free' == [a] + free
             else Done(c') == Done(outer) + (In(l) + [a]) && free' == free
    requires m'.Keys == m.Keys && forall i <- m :: m'[i].item == m[i].item
    ensures Progress(m0, s0, reject, free0, v + 1, m', c', r, free', calls')
  {
    NextNode(m0, s0, reject, v, a);
    hide In, Done, ToDo, Kept, Rejected, ItemsOf;
    Regroup3(Done(outer), In(l), [a]);
    Regroup3([a], Rejected(m0, s0[..v], reject), free0);
  }

  lemma Regroup3(a: seq<int>, b: seq<int>, c: seq<int>)
    ensures a + (b + c) == a + b + c
  {
  }

  /** With nothing to be visited the tree is what has been kept. */
  lemma End(m0: Mem, s0: seq<int>, reject: Item -> bool, free0: seq<int>, v: nat, m: Mem, root: int, prev: SlotRef,
            slot: SlotRef, c: seq<Step>, t: Tree, free: seq<int>, calls: seq<Item>)
    requires Progress(m0, s0, reject, free0, v, m, c, t, free, calls) && Walking(m, root, prev, slot, c, t)
    requires t == Leaf && prev == NoSlot
    ensures Holds(m, root, Plug(c, t)) && In(Plug(c, t)) == Kept(m0, s0, reject) && In(Plug(c, t)) == Nodes(c, t)
    ensures free == Rejected(m0, s0, reject) + free0 && calls == ItemsOf(m0, s0)
    ensures m.Keys == m0.Keys && forall i <- m0 :: m[i].item == m0[i].item
  {
    AllPast(c);
    PlugHolds(m, root, c, t);
    PlugIn(c, t);
    assert In(t) == [];
    assert s0[v..] == [];
    assert s0[..v] == s0;
  }

  lemma {:induction false} AllPast(c: seq<Step>)
    requires PrevOf(c) == NoSlot
    ensures ToDo(c) == []
  {
    if c != [] { AllPast(c[1..]); }
  }

  lemma KeptItems(m0: Mem, m: Mem, s: seq<int>, reject: Item -> bool)
    requires m.Keys == m0.Keys && forall i <- m0 :: m[i].item == m0[i].item
    ensures Items(m, Kept(m0, s, reject)) == set x | x in Items(m0, s) && !reject(x)
  {
    KeptMembers(m0, s, reject);
  }
}
