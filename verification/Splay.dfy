/**
 The top-down splay tree of splay.c: child pointers in memory, two holes that point to slots, and the trees they
 stand for.
 */
module Splay {
  import opened Wrappers

  datatype Dir = LEFT | RIGHT

  function Opp(d: Dir): Dir { if d == LEFT then RIGHT else LEFT }

  /** A pair indexed by direction, like the arrays result[2] and hole[2]. */
  datatype Two<+T> = Two(l: T, r: T) {
    function At(d: Dir): T { if d == LEFT then l else r }
  }

  function With<T>(p: Two<T>, d: Dir, v: T): Two<T> { if d == LEFT then Two(v, p.r) else Two(p.l, v) }

  datatype Item = Item(key: int, data: int)

  /** A node in memory; addresses are integers, 0 is NULL. */
  datatype Cell = Cell(child: Two<int>, item: Item, back: int)

  type Mem = map<int, Cell>

  function Kid(m: Mem, p: int, d: Dir): int
    requires p in m
  {
    m[p].child.At(d)
  }

  function SetKid(m: Mem, p: int, d: Dir, v: int): Mem
    requires p in m
  {
    m[p := m[p].(child := With(m[p].child, d, v))]
  }

  /** The slot a hole points to: result[d] when the hole is 0, else a child of a node. */
  function Slot(m: Mem, res: int, hole: int, d: Dir): int {
    if hole == 0 then res else if hole in m then Kid(m, hole, d) else 0
  }

  // ---------------------------------------------------------------- trees

  datatype Tree = Leaf | Node(id: int, kids: Two<Tree>)

  /** The addresses of the nodes in symmetric order. */
  function In(t: Tree): seq<int> {
    match t
    case Leaf => []
    case Node(id, kids) => In(kids.l) + [id] + In(kids.r)
  }

  /** The memory at p holds the tree t. */
  ghost predicate Holds(m: Mem, p: int, t: Tree)
    decreases t
  {
    match t
    case Leaf => p == 0
    case Node(id, kids) =>
      && p == id && p != 0 && p in m && Holds(m, m[p].child.l, kids.l)
      && Holds(m, m[p].child.r, kids.r)
  }

  predicate NoDup(s: seq<int>) { forall i, j :: 0 <= i < j < |s| ==> s[i] != s[j] }

  /** The node p has the same children in both memories. */
  predicate SameKids(m: Mem, m': Mem, p: int) { p in m && p in m' && m'[p].child == m[p].child }

  lemma {:induction false} Frame(m: Mem, m': Mem, p: int, t: Tree)
    requires Holds(m, p, t) && forall i <- In(t) :: SameKids(m, m', i)
    ensures Holds(m', p, t)
    decreases t
  {
    if t.Node? {
      assert t.id in In(t);
      Frame(m, m', m[p].child.l, t.kids.l);
      Frame(m, m', m[p].child.r, t.kids.r);
    }
  }

  lemma {:induction false} HeldNodes(m: Mem, p: int, t: Tree)
    requires Holds(m, p, t)
    ensures forall i <- In(t) :: i in m && i != 0
    decreases t
  {
    if t.Node? {
      HeldNodes(m, m[p].child.l, t.kids.l);
      HeldNodes(m, m[p].child.r, t.kids.r);
    }
  }

  // ---------------------------------------------------------------- trees with a hole

  /** A tree with a hole at its inner edge: every link is a node with its outer subtree. */
  datatype Link = Link(id: int, sub: Tree)

  /** The nodes of the left (o == LEFT) or right tree, in symmetric order. */
  function Flat(cs: seq<Link>, o: Dir): seq<int> {
    if cs == [] then [] else
      var last := cs[|cs| - 1];
      if o == LEFT then Flat(cs[..|cs| - 1], o) + In(last.sub) + [last.id]
      else [last.id] + In(last.sub) + Flat(cs[..|cs| - 1], o)
  }

  function HoleOf(cs: seq<Link>): int { if cs == [] then 0 else cs[|cs| - 1].id }

  /** The memory holds the links; what the hole itself contains does not matter. */
  ghost predicate Chain(m: Mem, res: int, cs: seq<Link>, o: Dir) {
    cs == [] ||
    var last := cs[|cs| - 1];
    var front := cs[..|cs| - 1];
    last.id != 0 && last.id in m && Holds(m, Kid(m, last.id, o), last.sub)
    && Slot(m, res, HoleOf(front), Opp(o)) == last.id && Chain(m, res, front, o)
  }

  /** The tree with its hole filled. */
  function Build(cs: seq<Link>, t: Tree, o: Dir): Tree {
    if cs == [] then t else
      var last := cs[|cs| - 1];
      Build(cs[..|cs| - 1], Node(last.id, With(Two(t, t), o, last.sub)), o)
  }

  lemma {:induction false} BuildIn(cs: seq<Link>, t: Tree, o: Dir)
    ensures In(Build(cs, t, o)) == if o == LEFT then Flat(cs, o) + In(t) else In(t) + Flat(cs, o)
  {
    if cs != [] {
      var last := cs[|cs| - 1];
      var u := Node(last.id, With(Two(t, t), o, last.sub));
      assert In(u) == if o == LEFT then In(last.sub) + [last.id] + In(t) else In(t) + [last.id] + In(last.sub);
      BuildIn(cs[..|cs| - 1], u, o);
      var f := Flat(cs[..|cs| - 1], o);
      assert Flat(cs, o) == if o == LEFT then f + In(last.sub) + [last.id] else [last.id] + In(last.sub) + f;
      assert Build(cs, t, o) == Build(cs[..|cs| - 1], u, o);
      hide In, Flat, Build;
      Regroup(f, In(last.sub), [last.id], In(t));
      Regroup(In(t), [last.id], In(last.sub), f);
    }
  }

  lemma Regroup(a: seq<int>, b: seq<int>, c: seq<int>, d: seq<int>)
    ensures a + (b + c + d) == (a + b + c) + d && (a + b + c) + d == a + (b + c + d)
  {
  }

  /** Once the hole has been written, the memory holds the whole tree. */
  lemma {:induction false} BuildHolds(m: Mem, res: int, cs: seq<Link>, t: Tree, o: Dir)
    requires Chain(m, res, cs, o) && Holds(m, Slot(m, res, HoleOf(cs), Opp(o)), t)
    ensures Holds(m, res, Build(cs, t, o))
  {
    if cs != [] {
      var last := cs[|cs| - 1];
      BuildHolds(m, res, cs[..|cs| - 1], Node(last.id, With(Two(t, t), o, last.sub)), o);
    }
  }

  /** Writes outside the links, or into the hole, leave the links alone. */
  lemma {:induction false} ChainFrame(m: Mem, m': Mem, res: int, res': int, cs: seq<Link>, o: Dir)
    requires Chain(m, res, cs, o) && (cs == [] || res' == res)
    requires forall i <- Flat(cs, o) ::
               && i in m && i in m'
               && (if i == HoleOf(cs) then Kid(m', i, o) == Kid(m, i, o) else SameKids(m, m', i))
    requires NoDup(Flat(cs, o))
    ensures Chain(m', res', cs, o)
  {
    if cs != [] {
      var last := cs[|cs| - 1];
      var front := cs[..|cs| - 1];
      FlatParts(cs, o);
      Frame(m, m', Kid(m, last.id, o), last.sub);
      ChainFrame(m, m', res, res', front, o);
    }
  }

  lemma FlatParts(cs: seq<Link>, o: Dir)
    requires cs != [] && NoDup(Flat(cs, o))
    ensures var last := cs[|cs| - 1];
            var front := cs[..|cs| - 1];
            NoDup(Flat(front, o)) && NoDup(In(last.sub)) && last.id in Flat(cs, o) && last.id !in In(last.sub)
            && last.id !in Flat(front, o)
            && (forall i <- In(last.sub) :: i in Flat(cs, o)) && (forall i <- Flat(front, o) :: i in Flat(cs, o))
            && (front != [] ==> HoleOf(front) in Flat(front, o))
  {
    var last := cs[|cs| - 1];
    var front := cs[..|cs| - 1];
    if o == LEFT {
      NoDupSplit(Flat(front, o) + In(last.sub), [last.id]);
      NoDupSplit(Flat(front, o), In(last.sub));
    } else {
      NoDupSplit([last.id] + In(last.sub), Flat(front, o));
      NoDupSplit([last.id], In(last.sub));
    }
  }

  lemma NoDupSplit(s: seq<int>, t: seq<int>)
    requires NoDup(s + t)
    ensures NoDup(s) && NoDup(t) && (forall x <- s :: x !in t) && (forall x <- s :: x in s + t)
            && (forall x <- t :: x in s + t)
  {
    forall i, j | 0 <= i < j < |s| ensures s[i] != s[j] { assert (s + t)[i] != (s + t)[j]; }
    forall i, j | 0 <= i < j < |t| ensures t[i] != t[j] { assert (s + t)[|s| + i] != (s + t)[|s| + j]; }
    forall x <- s ensures x !in t {
      var i :| 0 <= i < |s| && s[i] == x;
      forall j | 0 <= j < |t| ensures t[j] != x { assert (s + t)[i] != (s + t)[|s| + j]; }
    }
  }

  // ---------------------------------------------------------------- the state of splay

  /** All nodes in symmetric order: the left tree, the tree at the cursor, the right tree. */
  function All(cs: Two<seq<Link>>, t: Tree): seq<int> { Flat(cs.l, LEFT) + In(t) + Flat(cs.r, RIGHT) }

  /** The memory, the two results and the cursor p stand for the two trees with holes and the tree t. */
  ghost predicate State(m: Mem, res: Two<int>, cs: Two<seq<Link>>, p: int, t: Tree) {
    Chain(m, res.l, cs.l, LEFT) && Chain(m, res.r, cs.r, RIGHT) && Holds(m, p, t) && NoDup(All(cs, t))
  }

  function Holes(cs: Two<seq<Link>>): Two<int> { Two(HoleOf(cs.l), HoleOf(cs.r)) }

  lemma AllParts(cs: Two<seq<Link>>, t: Tree)
    requires NoDup(All(cs, t))
    ensures NoDup(Flat(cs.l, LEFT)) && NoDup(In(t)) && NoDup(Flat(cs.r, RIGHT))
    ensures forall i <- In(t) :: i !in Flat(cs.l, LEFT) && i !in Flat(cs.r, RIGHT)
    ensures forall i <- Flat(cs.l, LEFT) :: i !in Flat(cs.r, RIGHT)
  {
    NoDupSplit(Flat(cs.l, LEFT) + In(t), Flat(cs.r, RIGHT));
    NoDupSplit(Flat(cs.l, LEFT), In(t));
  }

  lemma {:induction false} ChainNodes(m: Mem, res: int, cs: seq<Link>, o: Dir)
    requires Chain(m, res, cs, o)
    ensures forall i <- Flat(cs, o) :: i in m && i != 0
    ensures cs != [] ==> HoleOf(cs) in Flat(cs, o)
  {
    if cs != [] {
      var last := cs[|cs| - 1];
      HeldNodes(m, Kid(m, last.id, o), last.sub);
      ChainNodes(m, res, cs[..|cs| - 1], o);
    }
  }

  /** Parts of a node: its child in direction d, and the other one. */
  function Sub(t: Tree, d: Dir): Tree
    requires t.Node?
  {
    t.kids.At(d)
  }

  function Make(id: int, d: Dir, x: Tree, y: Tree): Tree { Node(id, With(Two(y, y), d, x)) }

  /** The child of a node in memory is the root of the subtree. */
  lemma HeldKid(m: Mem, p: int, t: Tree, d: Dir)
    requires Holds(m, p, t) && t.Node? && NoDup(In(t))
    ensures p in m && p == t.id && Holds(m, Kid(m, p, d), Sub(t, d)) && Holds(m, Kid(m, p, Opp(d)), Sub(t, Opp(d)))
    ensures Kid(m, p, d) == 0 <==> Sub(t, d) == Leaf
    ensures Sub(t, d).Node? ==> var c := Kid(m, p, d); c in m && c != p && c in In(t) && Sub(t, d).id == c
  {
    NodeParts(t);
  }

  /** The new tree of a rotation is in memory. */
  lemma RotateHolds(m: Mem, p: int, t: Tree, d: Dir, c: int, m': Mem)
    requires Holds(m, p, t) && NoDup(In(t)) && t.Node? && Sub(t, d).Node? && p in m && c in m && c != p
             && c == Kid(m, p, d) == Sub(t, d).id
    requires m' == SetKid(SetKid(m, p, d, Kid(m, c, Opp(d))), c, Opp(d), p)
    ensures var u := Sub(t, d); Holds(m', c, Make(c, d, Sub(u, d), Make(p, d, Sub(u, Opp(d)), Sub(t, Opp(d)))))
  {
    var u := Sub(t, d);
    NodeParts(t);
    NodeParts(u);
    HeldNodes(m, p, t);
    assert Holds(m, Kid(m, p, Opp(d)), Sub(t, Opp(d))) && Holds(m, c, u);
    assert Holds(m, Kid(m, c, d), Sub(u, d)) && Holds(m, Kid(m, c, Opp(d)), Sub(u, Opp(d)));
    Frame(m, m', Kid(m, p, Opp(d)), Sub(t, Opp(d)));
    Frame(m, m', Kid(m, c, d), Sub(u, d));
    Frame(m, m', Kid(m, c, Opp(d)), Sub(u, Opp(d)));
  }

  /** rotate: the child c in direction d becomes the root. */
  lemma RotateKeeps(m: Mem, res: Two<int>, cs: Two<seq<Link>>, p: int, t: Tree, d: Dir, c: int)
    requires State(m, res, cs, p, t) && t.Node? && Sub(t, d).Node? && p in m && c in m && c != p && c == Kid(m, p, d)
    ensures var m' := SetKid(SetKid(m, p, d, Kid(m, c, Opp(d))), c, Opp(d), p);
            var u := Sub(t, d);
            var t' := Make(c, d, Sub(u, d), Make(p, d, Sub(u, Opp(d)), Sub(t, Opp(d))));
            State(m', res, cs, c, t') && In(t') == In(t)
  {
    var m' := SetKid(SetKid(m, p, d, Kid(m, c, Opp(d))), c, Opp(d), p);
    AllParts(cs, t);
    HeldKid(m, p, t, d);
    RotateHolds(m, p, t, d, c, m');
    NodeParts(t);
    ChainNodes(m, res.l, cs.l, LEFT);
    ChainNodes(m, res.r, cs.r, RIGHT);
    ChainFrame(m, m', res.l, res.l, cs.l, LEFT);
    ChainFrame(m, m', res.r, res.r, cs.r, RIGHT);
    hide Chain, Flat, Holds;
    RotateIn(t, d);
  }

  lemma RotateIn(t: Tree, d: Dir)
    requires t.Node? && Sub(t, d).Node?
    ensures var u := Sub(t, d); In(Make(u.id, d, Sub(u, d), Make(t.id, d, Sub(u, Opp(d)), Sub(t, Opp(d))))) == In(t)
  {
  }

  /** The nodes of a tree without duplicates: the root is in neither subtree, and the subtrees are disjoint. */
  lemma NodeParts(t: Tree)
    requires t.Node? && NoDup(In(t))
    ensures t.id in In(t) && t.id !in In(t.kids.l) && t.id !in In(t.kids.r) && NoDup(In(t.kids.l))
            && NoDup(In(t.kids.r))
    ensures forall i <- In(t.kids.l) :: i in In(t) && i !in In(t.kids.r)
    ensures forall i <- In(t.kids.r) :: i in In(t)
  {
    NoDupSplit(In(t.kids.l) + [t.id], In(t.kids.r));
    NoDupSplit(In(t.kids.l), [t.id]);
  }

  /** link: the root and its child opposite to d go into the hole on that side; the cursor moves on in direction d. */
  lemma LinkKeeps(m: Mem, res: Two<int>, cs: Two<seq<Link>>, p: int, t: Tree, d: Dir)
    requires State(m, res, cs, p, t) && t.Node?
    ensures var o := Opp(d);
            var h := Holes(cs).At(o);
            var m' := if h == 0 || h !in m then m else SetKid(m, h, d, p);
            var res' := if h == 0 then With(res, o, p) else res;
            var cs' := With(cs, o, cs.At(o) + [Link(p, Sub(t, o))]);
            (h != 0 ==> h in m) && State(m', res', cs', Kid(m, p, d), Sub(t, d)) && All(cs', Sub(t, d)) == All(cs, t)
            && Kid(m', p, d) == Kid(m, p, d)
  {
    var o := Opp(d);
    var h := Holes(cs).At(o);
    AllParts(cs, t);
    NodeParts(t);
    ChainNodes(m, res.l, cs.l, LEFT);
    ChainNodes(m, res.r, cs.r, RIGHT);
    HeldNodes(m, p, t);
    var m' := if h == 0 then m else SetKid(m, h, d, p);
    var res' := if h == 0 then With(res, o, p) else res;
    LinkIn(cs, t, d);
    ChainFrame(m, m', res.l, res'.l, cs.l, LEFT);
    ChainFrame(m, m', res.r, res'.r, cs.r, RIGHT);
    Frame(m, m', p, t);
    assert (cs.At(o) + [Link(p, Sub(t, o))])[..|cs.At(o)|] == cs.At(o);
  }

  lemma LinkIn(cs: Two<seq<Link>>, t: Tree, d: Dir)
    requires t.Node?
    ensures All(With(cs, Opp(d), cs.At(Opp(d)) + [Link(t.id, Sub(t, Opp(d)))]), Sub(t, d)) == All(cs, t)
  {
    var o := Opp(d);
    var c := cs.At(o);
    assert (c + [Link(t.id, Sub(t, o))])[..|c|] == c;
  }

  // ---------------------------------------------------------------- order

  function Key(m: Mem, p: int): int { if p in m then m[p].item.key else 0 }

  /** The keys ascend strictly along s. */
  ghost predicate Sorted(m: Mem, s: seq<int>) {
    (forall i <- s :: i in m) && forall i, j :: 0 <= i < j < |s| ==> Key(m, s[i]) < Key(m, s[j])
  }

  /** cmp: the sign says on which side the item lies. */
  function Cmp(k: int, key: int): int { if k < key then -1 else if k == key then 0 else 1 }

  function DirOf(n: int): Dir { if n < 0 then LEFT else RIGHT }

  /** The nodes of s all lie on side d of the key k. */
  ghost predicate Beyond(m: Mem, s: seq<int>, k: int, d: Dir) {
    forall i <- s :: if d == LEFT then Key(m, i) < k else Key(m, i) > k
  }

  /** Child pointers may differ, and only of nodes in s; everything else is the same. */
  ghost predicate OnlyLinks(m: Mem, m': Mem, s: seq<int>) {
    && m'.Keys == m.Keys
    && (forall p <- m :: m'[p].item == m[p].item && m'[p].back == m[p].back && (p !in s ==> m'[p] == m[p]))
  }

  lemma SortedSplit(m: Mem, s: seq<int>, t: seq<int>)
    requires Sorted(m, s + t)
    ensures Sorted(m, s) && Sorted(m, t) && forall i <- s, j <- t :: Key(m, i) < Key(m, j)
  {
    forall i <- s ensures i in m { assert i in s + t; }
    forall i <- t ensures i in m { assert i in s + t; }
    forall i, j | 0 <= i < j < |s| ensures Key(m, s[i]) < Key(m, s[j]) {
      assert (s + t)[i] == s[i] && (s + t)[j] == s[j];
    }
    forall i, j | 0 <= i < j < |t| ensures Key(m, t[i]) < Key(m, t[j]) {
      assert (s + t)[|s| + i] == t[i] && (s + t)[|s| + j] == t[j];
    }
    forall x <- s, y <- t ensures Key(m, x) < Key(m, y) {
      var i :| 0 <= i < |s| && s[i] == x;
      var j :| 0 <= j < |t| && t[j] == y;
      assert (s + t)[i] == x && (s + t)[|s| + j] == y;
    }
  }

  lemma SortedNoDup(m: Mem, s: seq<int>)
    requires Sorted(m, s)
    ensures NoDup(s)
  {
  }

  /** The parts of all nodes are sorted too. */
  lemma SortedParts(m: Mem, cs: Two<seq<Link>>, t: Tree)
    requires Sorted(m, All(cs, t))
    ensures Sorted(m, In(t)) && (forall i <- Flat(cs.l, LEFT), j <- In(t) :: Key(m, i) < Key(m, j))
    ensures forall i <- In(t), j <- Flat(cs.r, RIGHT) :: Key(m, i) < Key(m, j)
  {
    SortedSplit(m, Flat(cs.l, LEFT) + In(t), Flat(cs.r, RIGHT));
    SortedSplit(m, Flat(cs.l, LEFT), In(t));
  }

  /** When the key lies on side d of the root, the root and its other subtree lie on the side opposite to d. */
  lemma SideOfRoot(m: Mem, t: Tree, k: int, d: Dir)
    requires t.Node? && Sorted(m, In(t)) && (if d == LEFT then k < Key(m, t.id) else k > Key(m, t.id))
    ensures Beyond(m, [t.id] + In(Sub(t, Opp(d))), k, Opp(d))
  {
    SortedSplit(m, In(t.kids.l) + [t.id], In(t.kids.r));
    SortedSplit(m, In(t.kids.l), [t.id]);
  }

  lemma LinkBeyond(m: Mem, cs: seq<Link>, t: Tree, k: int, d: Dir)
    requires t.Node? && Sorted(m, In(t)) && (if d == LEFT then k < Key(m, t.id) else k > Key(m, t.id))
    requires Beyond(m, Flat(cs, Opp(d)), k, Opp(d))
    ensures Beyond(m, Flat(cs + [Link(t.id, Sub(t, Opp(d)))], Opp(d)), k, Opp(d))
  {
    SideOfRoot(m, t, k, d);
    var cs' := cs + [Link(t.id, Sub(t, Opp(d)))];
    assert cs'[..|cs|] == cs;
    forall i <- Flat(cs', Opp(d)) ensures i in Flat(cs, Opp(d)) || i in [t.id] + In(Sub(t, Opp(d))) { }
  }

  /** The invariant of splay: from memory m0 and the nodes s in order, searching for k, the search has come to p. */
  ghost predicate Search(m0: Mem, s: seq<int>, k: int, m: Mem, res: Two<int>, cs: Two<seq<Link>>, p: int, t: Tree) {
    && State(m, res, cs, p, t) && t.Node? && All(cs, t) == s && Sorted(m0, s) && OnlyLinks(m0, m, s)
    && Beyond(m0, Flat(cs.l, LEFT), k, LEFT) && Beyond(m0, Flat(cs.r, RIGHT), k, RIGHT)
  }

  lemma RotateStep(m0: Mem, s: seq<int>, k: int, m: Mem, res: Two<int>, cs: Two<seq<Link>>, p: int, t: Tree, d: Dir,
                   c: int)
    requires Search(m0, s, k, m, res, cs, p, t) && Sub(t, d).Node? && p in m && c in m && c != p && c == Kid(m, p, d)
    ensures var m' := SetKid(SetKid(m, p, d, Kid(m, c, Opp(d))), c, Opp(d), p);
            var u := Sub(t, d);
            var t' := Make(c, d, Sub(u, d), Make(p, d, Sub(u, Opp(d)), Sub(t, Opp(d))));
            Search(m0, s, k, m', res, cs, c, t') && |In(t')| == |In(t)|
  {
    hide Chain, Flat, Holds, Sorted, Beyond, OnlyLinks, In, NoDup;
    RotateKeeps(m, res, cs, p, t, d, c);
    Members(m, res, cs, p, t, d);
    OnlyLinksSet(m0, m, s, p, d, Kid(m, c, Opp(d)));
    OnlyLinksSet(m0, SetKid(m, p, d, Kid(m, c, Opp(d))), s, c, Opp(d), p);
  }

  lemma OnlyLinksSet(m0: Mem, m: Mem, s: seq<int>, p: int, d: Dir, v: int)
    requires OnlyLinks(m0, m, s) && p in s && p in m
    ensures OnlyLinks(m0, SetKid(m, p, d, v), s)
  {
  }

  lemma Members(m: Mem, res: Two<int>, cs: Two<seq<Link>>, p: int, t: Tree, d: Dir)
    requires State(m, res, cs, p, t) && t.Node?
    ensures p == t.id && p in All(cs, t) && p in m
    ensures Sub(t, d).Node? ==> Kid(m, p, d) in All(cs, t) && |In(Sub(t, d))| < |In(t)|
    ensures cs.l != [] ==> HoleOf(cs.l) in All(cs, t)
    ensures cs.r != [] ==> HoleOf(cs.r) in All(cs, t)
  {
    AllParts(cs, t);
    HeldKid(m, p, t, d);
    NodeParts(t);
    HoleInAll(m, res, cs, p, t);
  }

  lemma LinkStep(m0: Mem, s: seq<int>, k: int, m: Mem, res: Two<int>, cs: Two<seq<Link>>, p: int, t: Tree, d: Dir)
    requires Search(m0, s, k, m, res, cs, p, t) && Sub(t, d).Node? && p in m
    requires if d == LEFT then k < Key(m0, p) else k > Key(m0, p)
    ensures var o := Opp(d);
            var h := Holes(cs).At(o);
            var m' := if h == 0 || h !in m then m else SetKid(m, h, d, p);
            var res' := if h == 0 then With(res, o, p) else res;
            var cs' := With(cs, o, cs.At(o) + [Link(p, Sub(t, o))]);
            (h != 0 ==> h in m) && p in m' && Search(m0, s, k, m', res', cs', Kid(m', p, d), Sub(t, d))
            && Kid(m', p, d) == Kid(m, p, d) && |In(Sub(t, d))| < |In(t)| && Holes(cs') == With(Holes(cs), o, p)
  {
    hide Chain, Flat, Holds, Sorted, Beyond, OnlyLinks, In, NoDup, State;
    var o := Opp(d);
    var h := Holes(cs).At(o);
    LinkKeeps(m, res, cs, p, t, d);
    SortedParts(m0, cs, t);
    Members(m, res, cs, p, t, d);
    LinkBeyond(m0, cs.At(o), t, k, d);
    if h != 0 { OnlyLinksSet(m0, m, s, h, d, p); }
  }

  lemma HoleInAll(m: Mem, res: Two<int>, cs: Two<seq<Link>>, p: int, t: Tree)
    requires State(m, res, cs, p, t)
    ensures t.Node? ==> p == t.id
    ensures cs.l != [] ==> HoleOf(cs.l) in All(cs, t)
    ensures cs.r != [] ==> HoleOf(cs.r) in All(cs, t)
  {
    ChainNodes(m, res.l, cs.l, LEFT);
    ChainNodes(m, res.r, cs.r, RIGHT);
  }

  /** What the search knows about the node at the cursor. */
  lemma AtCursor(m0: Mem, s: seq<int>, k: int, m: Mem, res: Two<int>, cs: Two<seq<Link>>, p: int, t: Tree, d: Dir)
    requires Search(m0, s, k, m, res, cs, p, t)
    ensures t.Node? && p in m && Key(m, p) == Key(m0, p) && p == t.id
    ensures Kid(m, p, d) == 0 <==> Sub(t, d) == Leaf
    ensures Sub(t, d).Node? ==> var c := Kid(m, p, d); c in m && c != p && Key(m, c) == Key(m0, c) && Sub(t, d).id == c
  {
    AllParts(cs, t);
    HeldKid(m, p, t, d);
  }

  /** What assemble writes: the holes get the children of the root, the root gets the two results. */
  function Assembled(m: Mem, res: Two<int>, hole: Two<int>, p: int): Mem
    requires p in m && (hole.l != 0 ==> hole.l in m) && (hole.r != 0 ==> hole.r in m)
  {
    var m1 := if hole.r == 0 then m else SetKid(m, hole.r, LEFT, Kid(m, p, RIGHT));
    var m2 := if hole.l == 0 then m1 else SetKid(m1, hole.l, RIGHT, Kid(m1, p, LEFT));
    var r := if hole.r == 0 then Kid(m, p, RIGHT) else res.r;
    var l := if hole.l == 0 then Kid(m1, p, LEFT) else res.l;
    SetKid(SetKid(m2, p, RIGHT, r), p, LEFT, l)
  }

  function Whole(cs: Two<seq<Link>>, t: Tree): Tree
    requires t.Node?
  {
    Node(t.id, Two(Build(cs.l, t.kids.l, LEFT), Build(cs.r, t.kids.r, RIGHT)))
  }

  lemma WholeIn(cs: Two<seq<Link>>, t: Tree)
    requires t.Node?
    ensures In(Whole(cs, t)) == All(cs, t)
  {
    BuildIn(cs.l, t.kids.l, LEFT);
    BuildIn(cs.r, t.kids.r, RIGHT);
  }

  /** One side of assemble: the hole on side o has been filled with the child c of the root. */
  lemma SideHolds(m: Mem, m': Mem, res: int, res': int, cs: seq<Link>, o: Dir, c: int, t: Tree)
    requires Chain(m, res, cs, o) && Holds(m, c, t) && NoDup(Flat(cs, o))
    requires forall i <- Flat(cs, o) ::
               i in m' && if i == HoleOf(cs) then Kid(m', i, o) == Kid(m, i, o) && Kid(m', i, Opp(o)) == c
                          else SameKids(m, m', i)
    requires forall i <- In(t) :: SameKids(m, m', i)
    requires res' == if cs == [] then c else res
    ensures Holds(m', res', Build(cs, t, o))
  {
    ChainNodes(m, res, cs, o);
    ChainFrame(m, m', res, res', cs, o);
    Frame(m, m', c, t);
    BuildHolds(m', res', cs, t, o);
  }

  lemma AssembleKeeps(m: Mem, res: Two<int>, cs: Two<seq<Link>>, p: int, t: Tree)
    requires State(m, res, cs, p, t) && t.Node?
    ensures var hole := Holes(cs);
            p in m && (hole.l != 0 ==> hole.l in m) && (hole.r != 0 ==> hole.r in m)
            && Holds(Assembled(m, res, hole, p), p, Whole(cs, t)) && In(Whole(cs, t)) == All(cs, t)
  {
    var hole := Holes(cs);
    AllParts(cs, t);
    NodeParts(t);
    HeldNodes(m, p, t);
    ChainNodes(m, res.l, cs.l, LEFT);
    ChainNodes(m, res.r, cs.r, RIGHT);
    WholeIn(cs, t);
    assert Holds(m, Kid(m, p, LEFT), t.kids.l) && Holds(m, Kid(m, p, RIGHT), t.kids.r) && p == t.id;
    hide In, Flat, NoDup, Chain;
    AssembledLeft(m, res, cs, p, t);
    AssembledRight(m, res, cs, p, t);
  }

  /** The parts around a node in memory, all apart from each other. */
  ghost predicate Beside(m: Mem, res: Two<int>, cs: Two<seq<Link>>, p: int, t: Tree) {
    && t.Node? && p in m && p == t.id && p !in Flat(cs.l, LEFT) && p !in Flat(cs.r, RIGHT)
    && p !in In(t.kids.l) && p !in In(t.kids.r)
    && NoDup(Flat(cs.l, LEFT)) && NoDup(Flat(cs.r, RIGHT))
    && (forall i <- Flat(cs.l, LEFT) ::
          i in m && i != 0 && i !in Flat(cs.r, RIGHT) && i !in In(t.kids.l) && i !in In(t.kids.r))
    && (forall i <- Flat(cs.r, RIGHT) :: i in m && i != 0 && i !in In(t.kids.l) && i !in In(t.kids.r))
    && (forall i <- In(t.kids.l) :: i in m) && (forall i <- In(t.kids.r) :: i in m)
    && (cs.l != [] ==> HoleOf(cs.l) in Flat(cs.l, LEFT)) && (cs.r != [] ==> HoleOf(cs.r) in Flat(cs.r, RIGHT))
    && Chain(m, res.l, cs.l, LEFT) && Chain(m, res.r, cs.r, RIGHT)
    && Holds(m, Kid(m, p, LEFT), t.kids.l) && Holds(m, Kid(m, p, RIGHT), t.kids.r)
  }

  lemma AssembledLeft(m: Mem, res: Two<int>, cs: Two<seq<Link>>, p: int, t: Tree)
    requires Beside(m, res, cs, p, t)
    ensures var m' := Assembled(m, res, Holes(cs), p);
            p in m' && Holds(m', Kid(m', p, LEFT), Build(cs.l, t.kids.l, LEFT))
  {
    hide In, Flat, NoDup, Chain, Build, Holds;
    var m' := Assembled(m, res, Holes(cs), p);
    SideHolds(m, m', res.l, Kid(m', p, LEFT), cs.l, LEFT, Kid(m, p, LEFT), t.kids.l);
  }

  lemma AssembledRight(m: Mem, res: Two<int>, cs: Two<seq<Link>>, p: int, t: Tree)
    requires Beside(m, res, cs, p, t)
    ensures var m' := Assembled(m, res, Holes(cs), p);
            p in m' && Holds(m', Kid(m', p, RIGHT), Build(cs.r, t.kids.r, RIGHT))
  {
    hide In, Flat, NoDup, Chain, Build, Holds;
    var m' := Assembled(m, res, Holes(cs), p);
    SideHolds(m, m', res.r, Kid(m', p, RIGHT), cs.r, RIGHT, Kid(m, p, RIGHT), t.kids.r);
  }

  lemma AssembledLinks(m: Mem, res: Two<int>, cs: Two<seq<Link>>, p: int, t: Tree)
    requires State(m, res, cs, p, t) && t.Node?
    requires p in m && (Holes(cs).l != 0 ==> Holes(cs).l in m) && (Holes(cs).r != 0 ==> Holes(cs).r in m)
    ensures OnlyLinks(m, Assembled(m, res, Holes(cs), p), All(cs, t))
  {
    HoleInAll(m, res, cs, p, t);
  }

  // ---------------------------------------------------------------- the map a tree stands for

  /** The items stored at the nodes of s. */
  ghost function Items(m: Mem, s: seq<int>): set<Item> { set p | p in s && p in m :: m[p].item }

  /** The list of reclaimed nodes, linked by their back fields. */
  ghost predicate FreeList(m: Mem, head: int, free: seq<int>)
    decreases |free|
  {
    if free == [] then head == 0
    else head == free[0] && head != 0 && head in m && FreeList(m, m[head].back, free[1..])
  }

  lemma {:induction false} FreeListFrame(m: Mem, m': Mem, head: int, free: seq<int>)
    requires FreeList(m, head, free) && forall p <- free :: p in m && p in m' && m'[p].back == m[p].back
    ensures FreeList(m', head, free)
    decreases |free|
  {
    if free != [] { FreeListFrame(m, m', m[head].back, free[1..]); }
  }

  lemma {:induction false} FreeListNodes(m: Mem, head: int, free: seq<int>)
    requires FreeList(m, head, free)
    ensures forall p <- free :: p in m && p != 0
    decreases |free|
  {
    if free != [] { FreeListNodes(m, m[head].back, free[1..]); }
  }

  lemma SameItems(m: Mem, m': Mem, s: seq<int>)
    requires OnlyLinks(m, m', s)
    ensures forall x: seq<int> :: Items(m', x) == Items(m, x)
    ensures forall x: seq<int> :: Sorted(m, x) ==> Sorted(m', x)
  {
    forall x: seq<int> ensures Items(m', x) == Items(m, x) {
      assert forall p :: p in x && p in m ==> m'[p].item == m[p].item;
    }
    forall x: seq<int> | Sorted(m, x) ensures Sorted(m', x) {
      assert forall p <- x :: Key(m', p) == Key(m, p);
    }
  }

  /** The keys of a sorted sequence of nodes identify the nodes. */
  lemma KeyIsUnique(m: Mem, s: seq<int>, p: int, q: int)
    requires Sorted(m, s) && p in s && q in s && Key(m, p) == Key(m, q)
    ensures p == q
  {
    var i :| 0 <= i < |s| && s[i] == p;
    var j :| 0 <= j < |s| && s[j] == q;
  }

  /** When splay stops beside a missing child, the key is not in the tree. */
  lemma NotThere(m0: Mem, s: seq<int>, k: int, m: Mem, res: Two<int>, cs: Two<seq<Link>>, p: int, t: Tree, n: int)
    requires Search(m0, s, k, m, res, cs, p, t) && n == Cmp(k, Key(m0, p)) && n != 0 && Sub(t, DirOf(n)) == Leaf
    ensures forall i <- s :: Key(m0, i) != k
    ensures n < 0 ==> Beyond(m0, Flat(cs.l, LEFT), k, LEFT) && Beyond(m0, In(t) + Flat(cs.r, RIGHT), k, RIGHT)
    ensures n > 0 ==> Beyond(m0, Flat(cs.l, LEFT) + In(t), k, LEFT) && Beyond(m0, Flat(cs.r, RIGHT), k, RIGHT)
  {
    var d := DirOf(n);
    SortedParts(m0, cs, t);
    AtCursor(m0, s, k, m, res, cs, p, t, d);
    SideOfRoot(m0, t, k, d);
    OneSided(t, d);
    hide State, In, Flat, Sorted;
  }

  lemma OneSided(t: Tree, d: Dir)
    requires t.Node? && Sub(t, d) == Leaf
    ensures forall i <- In(t) :: i in [t.id] + In(Sub(t, Opp(d)))
  {
  }

  /** What is known when splay is over. */
  lemma SearchEnds(m0: Mem, s: seq<int>, k: int, m: Mem, res: Two<int>, cs: Two<seq<Link>>, p: int, t: Tree, n: int)
    requires Search(m0, s, k, m, res, cs, p, t) && n == Cmp(k, Key(m0, p)) && (n != 0 ==> Sub(t, DirOf(n)) == Leaf)
    ensures State(m, res, cs, p, t) && t.Node? && All(cs, t) == s && OnlyLinks(m0, m, s) && p in s && p in m0
            && p == t.id && p != 0
    ensures n == 0 ==> m0[p].item in Items(m0, s) && m0[p].item.key == k
    ensures n != 0 ==> forall x <- Items(m0, s) :: x.key != k
  {
    AtCursor(m0, s, k, m, res, cs, p, t, LEFT);
    Members(m, res, cs, p, t, LEFT);
    HeldNodes(m, p, t);
    if n != 0 { NotThere(m0, s, k, m, res, cs, p, t, n); }
  }

  /** Splaying and assembling keep the items, their order and the list of reclaimed nodes. */
  lemma Kept(m0: Mem, m1: Mem, m2: Mem, s: seq<int>, head: int, free: seq<int>)
    requires OnlyLinks(m0, m1, s) && OnlyLinks(m1, m2, s) && Sorted(m0, s) && FreeList(m0, head, free)
    ensures OnlyLinks(m0, m2, s) && Sorted(m2, s) && FreeList(m2, head, free) && Items(m2, s) == Items(m0, s)
    ensures m2.Keys == m0.Keys && forall p <- m0 :: m2[p].item == m0[p].item
  {
    SameItems(m0, m2, s);
    FreeListNodes(m0, head, free);
    FreeListFrame(m0, m2, head, free);
  }

  lemma RootNode(m: Mem, p: int, t: Tree)
    requires Holds(m, p, t)
    ensures (p == 0 <==> t == Leaf) && (p != 0 ==> t.Node? && p in m && t.id == p)
            && (t == Leaf ==> In(t) == [] && Items(m, In(t)) == {})
  {
  }

  /** The nodes in order with a new one between the two parts. */
  function Around(cs: Two<seq<Link>>, u: Tree, n: int, q: int): seq<int> {
    if n < 0 then Flat(cs.l, LEFT) + [q] + (In(u) + Flat(cs.r, RIGHT))
      else (Flat(cs.l, LEFT) + In(u)) + [q] + Flat(cs.r, RIGHT)
  }

  /** The new root of insert: the old tree hangs on the side opposite to the key. */
  function NewRoot(q: int, d: Dir, u: Tree): Tree { Make(q, d, Leaf, u) }

  lemma NewRootIn(cs: Two<seq<Link>>, u: Tree, n: int, q: int)
    requires n != 0
    ensures All(cs, NewRoot(q, DirOf(n), u)) == Around(cs, u, n, q)
  {
    if n < 0 {
      assert In(NewRoot(q, LEFT, u)) == [] + [q] + In(u) == [q] + In(u);
    } else {
      assert In(NewRoot(q, RIGHT, u)) == In(u) + [q] + [] == In(u) + [q];
    }
    hide In;
  }

  lemma NewRootNoDup(cs: Two<seq<Link>>, u: Tree, n: int, q: int)
    requires NoDup(All(cs, u)) && n != 0 && q !in All(cs, u)
    ensures NoDup(All(cs, NewRoot(q, DirOf(n), u)))
  {
    NewRootIn(cs, u, n, q);
    hide In, Flat, NoDup;
    InsertNoDup(Flat(cs.l, LEFT), In(u) + Flat(cs.r, RIGHT), q);
    InsertNoDup(Flat(cs.l, LEFT) + In(u), Flat(cs.r, RIGHT), q);
    assert Flat(cs.l, LEFT) + (In(u) + Flat(cs.r, RIGHT)) == All(cs, u);
  }

  /** Linking the new node above the old root. */
  lemma NewRootState(m: Mem, m': Mem, res: Two<int>, cs: Two<seq<Link>>, p: int, u: Tree, q: int, n: int)
    requires State(m, res, cs, p, u) && n != 0 && q != 0 && q !in All(cs, u) && q in m'
    requires Kid(m', q, DirOf(n)) == 0 && Kid(m', q, Opp(DirOf(n))) == p
    requires forall i <- All(cs, u) :: SameKids(m, m', i)
    ensures State(m', res, cs, q, NewRoot(q, DirOf(n), u))
  {
    AllParts(cs, u);
    NewRootNoDup(cs, u, n, q);
    InAll(cs, u);
    hide In, Flat, NoDup;
    ChainNodes(m, res.l, cs.l, LEFT);
    ChainNodes(m, res.r, cs.r, RIGHT);
    ChainFrame(m, m', res.l, res.l, cs.l, LEFT);
    ChainFrame(m, m', res.r, res.r, cs.r, RIGHT);
    hide Chain;
    Frame(m, m', p, u);
    assert Holds(m', 0, Leaf);
    if n < 0 {
      assert NewRoot(q, LEFT, u) == Node(q, Two(Leaf, u)) && m'[q].child.r == p;
    } else {
      assert NewRoot(q, RIGHT, u) == Node(q, Two(u, Leaf)) && m'[q].child.l == p;
    }
  }

  lemma InAll(cs: Two<seq<Link>>, u: Tree)
    ensures forall i <- Flat(cs.l, LEFT) :: i in All(cs, u)
    ensures forall i <- Flat(cs.r, RIGHT) :: i in All(cs, u)
    ensures forall i <- In(u) :: i in All(cs, u)
  {
  }

  lemma InsertNoDup(s: seq<int>, t: seq<int>, q: int)
    requires q !in s + t
    ensures NoDup(s + t) ==> NoDup(s + [q] + t)
  {
    if NoDup(s + t) {
      var u := s + [q] + t;
      forall i, j | 0 <= i < j < |u| ensures u[i] != u[j] {
        var a, b := if i < |s| then i else i - 1, if j < |s| then j else j - 1;
        if i != |s| { assert (s + t)[a] == u[i]; }
        if j != |s| { assert (s + t)[b] == u[j]; }
      }
    }
  }

  /** A new item between smaller and greater ones. */
  lemma InsertSorted(m: Mem, m': Mem, s: seq<int>, t: seq<int>, q: int)
    requires Sorted(m, s + t) && q in m' && forall i <- s + t :: i in m' && m'[i].item == m[i].item
    requires Beyond(m, s, Key(m', q), LEFT) && Beyond(m, t, Key(m', q), RIGHT)
    ensures Sorted(m', s + [q] + t)
  {
    var u := s + [q] + t;
    forall i, j | 0 <= i < j < |u| ensures u[i] in m' && u[j] in m' && Key(m', u[i]) < Key(m', u[j]) {
      var a, b := if i < |s| then i else i - 1, if j < |s| then j else j - 1;
      if i != |s| { assert (s + t)[a] == u[i]; }
      if j != |s| { assert (s + t)[b] == u[j]; }
      if i < |s| { assert u[i] == s[i]; }
      if j > |s| { assert u[j] == t[j - |s| - 1]; }
    }
    forall i <- u ensures i in m' { assert i == q || i in s + t; }
  }

  lemma InsertItems(m: Mem, m': Mem, s: seq<int>, t: seq<int>, q: int, item: Item)
    requires q in m' && m'[q].item == item && (forall i <- s + t :: i in m && i in m' && m'[i].item == m[i].item)
    ensures Items(m', s + [q] + t) == Items(m, s + t) + {item}
  {
    assert forall i :: i in s + [q] + t <==> i == q || i in s + t;
    assert q in s + [q] + t;
  }

  /** The new node is in its place in the order once it has the item. */
  lemma InsertOrder(m0: Mem, m: Mem, cs: Two<seq<Link>>, u: Tree, n: int, q: int, item: Item)
    requires n != 0 && Sorted(m0, All(cs, u)) && q !in All(cs, u) && q in m && m[q].item == item
    requires forall i <- All(cs, u) :: i in m && m[i].item == m0[i].item
    requires n < 0 ==>
             Beyond(m0, Flat(cs.l, LEFT), item.key, LEFT) && Beyond(m0, In(u) + Flat(cs.r, RIGHT), item.key, RIGHT)
    requires n > 0 ==>
             Beyond(m0, Flat(cs.l, LEFT) + In(u), item.key, LEFT) && Beyond(m0, Flat(cs.r, RIGHT), item.key, RIGHT)
    ensures Sorted(m, Around(cs, u, n, q)) && Items(m, Around(cs, u, n, q)) == Items(m0, All(cs, u)) + {item}
    ensures forall x <- Items(m0, All(cs, u)) :: x.key != item.key
    ensures forall i <- Around(cs, u, n, q) :: i == q || i in All(cs, u)
  {
    hide In, Flat;
    var l, c, r := Flat(cs.l, LEFT), In(u), Flat(cs.r, RIGHT);
    assert l + (c + r) == l + c + r;
    if n < 0 {
      InsertSorted(m0, m, l, c + r, q);
      InsertItems(m0, m, l, c + r, q, item);
    } else {
      InsertSorted(m0, m, l + c, r, q);
      InsertItems(m0, m, l + c, r, q, item);
    }
  }

  /** Overwriting an item by one with the same key. */
  lemma Overwrite(m: Mem, m': Mem, s: seq<int>, q: int, item: Item)
    requires Sorted(m, s) && q in s && q in m && m[q].item.key == item.key && m'.Keys == m.Keys
    requires forall i <- m :: m'[i].item == if i == q then item else m[i].item
    ensures Sorted(m', s) && Items(m', s) == (set x | x in Items(m, s) && x.key != item.key) + {item}
  {
    forall i <- s | i != q ensures Key(m, i) != item.key {
      if Key(m, i) == item.key { KeyIsUnique(m, s, i, q); }
    }
  }

  /** Taking a node out of the order takes its item, and only its item, out of the map. */
  lemma RemoveOrder(m: Mem, l: seq<int>, p: int, r: seq<int>)
    requires Sorted(m, l + [p] + r)
    ensures Sorted(m, l + r) && p in m && p !in l + r && (forall i <- l + r :: i in l + [p] + r)
    ensures Items(m, l + r) == (set x | x in Items(m, l + [p] + r) && x.key != m[p].item.key)
    ensures m[p].item in Items(m, l + [p] + r)
  {
    var s := l + [p] + r;
    SortedSplit(m, l + [p], r);
    SortedSplit(m, l, [p]);
    assert s[|l|] == p;
    assert forall i :: i in s <==> i == p || i in l + r;
    forall i | 0 <= i < |l + r| ensures (l + r)[i] == s[if i < |l| then i else i + 1] { }
    assert forall i <- l + r :: Key(m, i) != Key(m, p);
    hide Sorted;
    RemoveItems(m, s, l + r, p);
  }

  lemma RemoveItems(m: Mem, s: seq<int>, t: seq<int>, p: int)
    requires (forall i :: i in s <==> i == p || i in t) && (forall i <- s :: i in m)
             && (forall i <- t :: Key(m, i) != Key(m, p))
    ensures Items(m, t) == (set x | x in Items(m, s) && x.key != m[p].item.key)
    ensures m[p].item in Items(m, s)
  {
    assert p in s;
  }

  /** After a search for a key above all of them, the root is the last node and nothing hangs on its right. */
  lemma SearchAbove(m0: Mem, s: seq<int>, k: int, m: Mem, res: Two<int>, cs: Two<seq<Link>>, p: int, t: Tree, n: int)
    requires Search(m0, s, k, m, res, cs, p, t) && n == Cmp(k, Key(m0, p)) && (n != 0 ==> Sub(t, DirOf(n)) == Leaf)
    requires Beyond(m0, s, k, LEFT)
    ensures n > 0 && t.kids.r == Leaf && cs.r == [] && t.id == p
  {
    Members(m, res, cs, p, t, RIGHT);
    ChainNodes(m, res.r, cs.r, RIGHT);
    assert cs.r != [] ==> HoleOf(cs.r) in Flat(cs.r, RIGHT) && HoleOf(cs.r) in s;
  }

  /** Hanging another tree on the right of the root, where nothing was. */
  lemma HangRight(m: Mem, m': Mem, res: Two<int>, cs: Two<seq<Link>>, p: int, t: Tree, b: int, tb: Tree)
    requires State(m, res, cs, p, t) && t.Node? && t.kids.r == Leaf && cs.r == [] && Holds(m, b, tb) && p in m
             && m' == SetKid(m, p, RIGHT, b)
    requires NoDup(All(cs, t) + In(tb))
    ensures State(m', res, cs, p, Node(p, Two(t.kids.l, tb)))
            && All(cs, Node(p, Two(t.kids.l, tb))) == All(cs, t) + In(tb)
  {
    AllParts(cs, t);
    NodeParts(t);
    NoDupSplit(All(cs, t), In(tb));
    InAll(cs, t);
    HeldNodes(m, p, t);
    HeldNodes(m, b, tb);
    HangIn(cs, t, tb);
    ChainNodes(m, res.l, cs.l, LEFT);
    assert p == t.id && Kid(m, p, LEFT) == m[p].child.l && Holds(m, Kid(m, p, LEFT), t.kids.l);
    hide In, Flat, NoDup;
    ChainFrame(m, m', res.l, res.l, cs.l, LEFT);
    Frame(m, m', Kid(m, p, LEFT), t.kids.l);
    Frame(m, m', b, tb);
    assert Chain(m', res.r, cs.r, RIGHT);
    hide Chain;
    assert Holds(m', p, Node(p, Two(t.kids.l, tb)));
  }

  lemma HangIn(cs: Two<seq<Link>>, t: Tree, tb: Tree)
    requires t.Node? && t.kids.r == Leaf && cs.r == []
    ensures All(cs, Node(t.id, Two(t.kids.l, tb))) == All(cs, t) + In(tb)
  {
    assert In(t) == In(t.kids.l) + [t.id];
  }

  /** Changing only links of other nodes keeps a tree. */
  lemma FrameLinks(m: Mem, m': Mem, s: seq<int>, p: int, t: Tree)
    requires Holds(m, p, t) && OnlyLinks(m, m', s) && forall i <- In(t) :: i !in s
    ensures Holds(m', p, t)
  {
    HeldNodes(m, p, t);
    Frame(m, m', p, t);
  }

  lemma OnlyLinksRefl(m: Mem, s: seq<int>)
    ensures OnlyLinks(m, m, s)
  {
  }

  /** A node and its two subtrees: order, disjointness. */
  lemma JoinFacts(m: Mem, t: Tree)
    requires t.Node? && Sorted(m, In(t)) && t.id in m
    ensures Sorted(m, In(t.kids.l)) && Beyond(m, In(t.kids.l), m[t.id].item.key, LEFT) && NoDup(In(t))
    ensures In(t) == In(t.kids.l) + [t.id] + In(t.kids.r) && NoDup(In(t.kids.l) + In(t.kids.r))
    ensures t.id !in In(t.kids.l) + In(t.kids.r) && t.id in In(t)
            && forall i <- In(t.kids.l) + In(t.kids.r) :: i in In(t)
    ensures t.kids.l == Leaf ==> In(t.kids.l) + In(t.kids.r) == In(t.kids.r)
    ensures forall i <- In(t.kids.r) :: i !in In(t.kids.l)
  {
    var l, r := In(t.kids.l), In(t.kids.r);
    assert In(t) == l + [t.id] + r;
    if t.kids.l == Leaf { assert l == [] && l + r == r; }
    hide In;
    RemoveOrder(m, l, t.id, r);
    SortedNoDup(m, In(t));
    SortedNoDup(m, l + r);
    SortedSplit(m, l, r);
    SortedSplit(m, l + [t.id], r);
    SortedSplit(m, l, [t.id]);
    NoDupSplit(l, r);
    hide Sorted, NoDup;
    assert t.id in l + [t.id];
  }

  /** The splay inside join ends at the last node of the left subtree and leaves p and the right subtree alone. */
  lemma JoinSearch(m0: Mem, m: Mem, t: Tree, res: Two<int>, cs: Two<seq<Link>>, left: int, u: Tree, n: int)
    requires t.Node? && t.id in m0 && Holds(m0, t.id, t) && Sorted(m0, In(t))
    requires Search(m0, In(t.kids.l), m0[t.id].item.key, m, res, cs, left, u)
    requires n == Cmp(m0[t.id].item.key, Key(m0, left)) && (n != 0 ==> Sub(u, DirOf(n)) == Leaf)
    ensures State(m, res, cs, left, u) && u.Node? && u.kids.r == Leaf && cs.r == [] && left in m && left in In(t.kids.l)
    ensures All(cs, u) == In(t.kids.l) && m.Keys == m0.Keys && OnlyLinks(m0, m, In(t.kids.l)) && t.id in m
            && m[t.id] == m0[t.id]
    ensures Holds(m, Kid(m0, t.id, RIGHT), t.kids.r)
  {
    JoinFacts(m0, t);
    SearchAbove(m0, In(t.kids.l), m0[t.id].item.key, m, res, cs, left, u, n);
    Members(m, res, cs, left, u, RIGHT);
    hide In, Sorted, Beyond, State, NoDup;
    FrameLinks(m0, m, In(t.kids.l), Kid(m0, t.id, RIGHT), t.kids.r);
  }

  lemma JoinLinks(m0: Mem, m1: Mem, m2: Mem, m3: Mem, t: Tree, left: int)
    requires t.Node? && t.id in m0 && Sorted(m0, In(t)) && OnlyLinks(m0, m1, In(t.kids.l)) && left in m1
             && left in In(t.kids.l)
    requires exists v :: m2 == SetKid(m1, left, RIGHT, v)
    requires OnlyLinks(m2, m3, In(t.kids.l) + In(t.kids.r))
    ensures OnlyLinks(m0, m3, In(t)) && m3.Keys == m0.Keys && m3[t.id] == m0[t.id]
  {
    JoinFacts(m0, t);
    hide Sorted, Beyond, NoDup;
    var l, r := In(t.kids.l), In(t.kids.r);
    assert forall i :: i in In(t) <==> i == t.id || i in l || i in r;
    assert forall i :: i in l + r <==> i in l || i in r;
    hide In;
    assert t.id !in l + r && left != t.id;
    OnlyLinksSteps(m0, m1, m2, m3, l, l + r, In(t), left);
  }

  lemma OnlyLinksSteps(m0: Mem, m1: Mem, m2: Mem, m3: Mem, l: seq<int>, lr: seq<int>, s: seq<int>, left: int)
    requires OnlyLinks(m0, m1, l) && left in m1 && left in l && OnlyLinks(m2, m3, lr)
    requires exists v :: m2 == SetKid(m1, left, RIGHT, v)
    requires (forall i <- l :: i in s) && (forall i <- lr :: i in s)
    ensures OnlyLinks(m0, m3, s) && m3.Keys == m0.Keys
    ensures forall i <- m0 :: i !in l && i !in lr ==> m3[i] == m0[i]
  {
  }

  /** All nodes but the root of t. */
  function Without(cs: Two<seq<Link>>, t: Tree): seq<int>
    requires t.Node?
  {
    Flat(cs.l, LEFT) + (In(t.kids.l) + In(t.kids.r)) + Flat(cs.r, RIGHT)
  }

  lemma WithoutParts(cs: Two<seq<Link>>, t: Tree)
    requires t.Node?
    ensures var l, r := Flat(cs.l, LEFT) + In(t.kids.l), In(t.kids.r) + Flat(cs.r, RIGHT);
            Without(cs, t) == l + r && All(cs, t) == l + [t.id] + r
  {
    var a, b, c, d := Flat(cs.l, LEFT), In(t.kids.l), In(t.kids.r), Flat(cs.r, RIGHT);
    assert In(t) == b + [t.id] + c;
    hide In, Flat;
    assert a + (b + c) + d == (a + b) + (c + d);
    assert a + (b + [t.id] + c) + d == (a + b) + [t.id] + (c + d);
  }

  lemma OnlyLinksTrans(m0: Mem, m1: Mem, m2: Mem, s: seq<int>)
    requires OnlyLinks(m0, m1, s) && OnlyLinks(m1, m2, s)
    ensures OnlyLinks(m0, m2, s)
  {
  }

  lemma OnlyLinksKeys(m: Mem, m': Mem, s: seq<int>)
    requires OnlyLinks(m, m', s)
    ensures m'.Keys == m.Keys
  {
  }

  lemma JoinReady(m0: Mem, m: Mem, res: Two<int>, cs: Two<seq<Link>>, p: int, u: Tree)
    requires State(m, res, cs, p, u) && u.Node? && OnlyLinks(m0, m, All(cs, u)) && Sorted(m0, All(cs, u)) && p == u.id
    ensures NoDup(All(cs, u)) && Holds(m, p, u) && p in m && Sorted(m, In(u)) && forall i <- In(u) :: i in All(cs, u)
  {
    SameItems(m0, m, All(cs, u));
    SortedParts(m0, cs, u);
    InAll(cs, u);
  }

  /** The joined tree takes the place of the tree at p. */
  lemma JoinedState(m: Mem, m': Mem, res: Two<int>, cs: Two<seq<Link>>, p: int, u: Tree, j: int, tj: Tree)
    requires State(m, res, cs, p, u) && u.Node? && Holds(m', j, tj) && OnlyLinks(m, m', In(u))
             && In(tj) == In(u.kids.l) + In(u.kids.r)
    ensures State(m', res, cs, j, tj) && All(cs, tj) == Without(cs, u)
  {
    AllParts(cs, u);
    ChainNodes(m, res.l, cs.l, LEFT);
    ChainNodes(m, res.r, cs.r, RIGHT);
    WithoutParts(cs, u);
    hide In, Flat, Holds;
    DropNoDup(Flat(cs.l, LEFT) + In(u.kids.l), u.id, In(u.kids.r) + Flat(cs.r, RIGHT));
    hide NoDup;
    ChainFrame(m, m', res.l, res.l, cs.l, LEFT);
    ChainFrame(m, m', res.r, res.r, cs.r, RIGHT);
  }

  lemma DropNoDup(s: seq<int>, p: int, t: seq<int>)
    requires NoDup(s + [p] + t)
    ensures NoDup(s + t) && p !in s + t && forall i <- s + t :: i in s + [p] + t
  {
    var u := s + [p] + t;
    forall i, j | 0 <= i < j < |s + t| ensures (s + t)[i] != (s + t)[j] {
      var a, b := if i < |s| then i else i + 1, if j < |s| then j else j + 1;
      assert u[a] == (s + t)[i] && u[b] == (s + t)[j];
    }
    forall i <- s + t ensures i in u { }
    forall i | 0 <= i < |s + t| ensures (s + t)[i] != p {
      assert u[|s|] == p && u[if i < |s| then i else i + 1] == (s + t)[i];
    }
  }

  lemma Within(m0: Mem, m1: Mem, m2: Mem, m3: Mem, s: seq<int>, cs: Two<seq<Link>>, u: Tree, tj: Tree)
    requires OnlyLinks(m0, m1, s) && u.Node? && All(cs, u) == s && NoDup(s)
    requires OnlyLinks(m1, m2, In(u)) && OnlyLinks(m2, m3, All(cs, tj)) && All(cs, tj) == Without(cs, u)
    ensures OnlyLinks(m0, m3, s)
  {
    InAll(cs, u);
    WithoutParts(cs, u);
    DropNoDup(Flat(cs.l, LEFT) + In(u.kids.l), u.id, In(u.kids.r) + Flat(cs.r, RIGHT));
    hide In, Flat, NoDup;
  }

  lemma EmptyTree(t: Tree)
    ensures |In(t)| == 0 ==> t == Leaf
  {
  }

  /** A node without children: what is assembled around it is the two trees alone. */
  lemma Childless(cs: Two<seq<Link>>, u: Tree)
    requires u.Node? && In(u.kids.l) + In(u.kids.r) == []
    ensures u.kids == Two(Leaf, Leaf) && In(u.kids.l) == [] && In(u.kids.r) == []
    ensures var w := Whole(cs, u); In(w.kids.l) + In(w.kids.r) == Without(cs, u)
  {
    EmptyTree(u.kids.l);
    EmptyTree(u.kids.r);
    BuildIn(cs.l, Leaf, LEFT);
    BuildIn(cs.r, Leaf, RIGHT);
    hide Flat, Build, In;
    Empties(Flat(cs.l, LEFT), Flat(cs.r, RIGHT));
  }

  lemma Empties(a: seq<int>, b: seq<int>)
    ensures a + [] == a && [] + b == b && a + [] + ([] + b) == a + ([] + []) + b
  {
  }

  /** The order and the items after a deletion. */
  lemma DeleteOrder(m0: Mem, m: Mem, cs: Two<seq<Link>>, u: Tree, p: int, tj: Tree)
    requires u.Node? && p == u.id && Sorted(m0, All(cs, u)) && OnlyLinks(m0, m, All(cs, u)) && In(tj) == Without(cs, u)
             && p in m0
    ensures Sorted(m, In(tj)) && Items(m, In(tj)) == (set x | x in Items(m0, All(cs, u)) && x.key != m0[p].item.key)
    ensures p in m && m[p].item == m0[p].item && p !in In(tj) && (forall i <- In(tj) :: i in All(cs, u))
            && p in All(cs, u)
    ensures |In(tj)| == |All(cs, u)| - 1 && forall i <- In(tj) :: i in m
  {
    WithoutParts(cs, u);
    var l, r := Flat(cs.l, LEFT) + In(u.kids.l), In(u.kids.r) + Flat(cs.r, RIGHT);
    RemoveOrder(m0, l, p, r);
    SameItems(m0, m, All(cs, u));
    assert p in l + [p] + r;
    hide In, Flat, Items;
  }

  /** Changing the back field of one node leaves order and items alone. */
  lemma BackOnly(m: Mem, m': Mem, s: seq<int>, p: int)
    requires p in m && m'.Keys == m.Keys && forall i <- m :: m'[i].item == m[i].item
    ensures Items(m', s) == Items(m, s) && (Sorted(m, s) ==> Sorted(m', s))
  {
  }

  class SplayTree {
    ghost var t: Tree
    ghost var free: seq<int>

    var m: Mem
    var root: int
    var freelist: int

    ghost predicate Valid()
      reads this
    {
      && Holds(m, root, t) && Sorted(m, In(t)) && FreeList(m, freelist, free) && NoDup(free)
      && forall p <- free :: p !in In(t)
    }

    /** The finite map: its items, with distinct keys. */
    ghost function Contents(): set<Item>
      reads this
    {
      Items(m, In(t))
    }

    /** The top-down splay: rotate when the search goes twice in the same direction, then link the node into the hole on
        the other side and go on. */
    method Splay(k: int, p0: int, ghost t0: Tree)
      returns (n: int, p: int, res: Two<int>, hole: Two<int>, ghost cs: Two<seq<Link>>, ghost t: Tree)
      requires Holds(m, p0, t0) && t0.Node? && Sorted(m, In(t0))
      modifies this`m
      ensures Search(old(m), In(t0), k, m, res, cs, p, t) && hole == Holes(cs)
      ensures n == Cmp(k, Key(old(m), p)) && (n != 0 ==> Sub(t, DirOf(n)) == Leaf)
    {
      hide Search, In, Sorted, Holds, Make;
      ghost var m0, s := m, In(t0);
      p, t := p0, t0;
      res, hole, cs := Two(0, 0), Two(0, 0), Two([], []);
      BeginSearch(m0, k, res, p, t);
      AtCursor(m0, s, k, m, res, cs, p, t, LEFT);
      n := Cmp(k, m[p].item.key);
      while n != 0
        invariant Search(m0, s, k, m, res, cs, p, t) && hole == Holes(cs)
        invariant p in m && n == Cmp(k, Key(m0, p))
        decreases |In(t)|
      {
        var dir := DirOf(n);
        AtCursor(m0, s, k, m, res, cs, p, t, dir);
        if Kid(m, p, dir) == 0 {
          break;
        }
        var c := Kid(m, p, dir);
        n := Cmp(k, m[c].item.key);
        if n != 0 && DirOf(n) == dir {
          p, t := Rotate(m0, s, k, res, cs, p, t, dir);
          AtCursor(m0, s, k, m, res, cs, p, t, dir);
          if Kid(m, p, dir) == 0 {
            break;
          }
          n := Cmp(k, m[Kid(m, p, dir)].item.key);
        }
        p, res, hole, cs, t := LinkInto(m0, s, k, res, hole, cs, p, t, dir);
        AtCursor(m0, s, k, m, res, cs, p, t, dir);
      }
    }

    /** rotate: the child in direction dir comes up. */
    method Rotate(ghost m0: Mem, ghost s: seq<int>, k: int, res: Two<int>, ghost cs: Two<seq<Link>>, p: int,
                  ghost t: Tree, dir: Dir)
      returns (c: int, ghost t': Tree)
      requires Search(m0, s, k, m, res, cs, p, t) && t.Node? && Sub(t, dir).Node? && p in m
      modifies this`m
      ensures c == Kid(old(m), p, dir) && Search(m0, s, k, m, res, cs, c, t') && |In(t')| == |In(t)|
    {
      hide Search, In;
      AtCursor(m0, s, k, m, res, cs, p, t, dir);
      c := Kid(m, p, dir);
      RotateStep(m0, s, k, m, res, cs, p, t, dir, c);
      t' := Make(c, dir, Sub(Sub(t, dir), dir), Make(p, dir, Sub(Sub(t, dir), Opp(dir)), Sub(t, Opp(dir))));
      m := SetKid(m, p, dir, Kid(m, c, Opp(dir)));
      m := SetKid(m, c, Opp(dir), p);
    }

    /** link: p goes into the hole on the side opposite to dir, and the search goes on in direction dir. */
    method LinkInto(ghost m0: Mem, ghost s: seq<int>, k: int, res: Two<int>, hole: Two<int>, ghost cs: Two<seq<Link>>,
                    p: int, ghost t: Tree, dir: Dir)
      returns (p': int, res': Two<int>, hole': Two<int>, ghost cs': Two<seq<Link>>, ghost t': Tree)
      requires Search(m0, s, k, m, res, cs, p, t) && t.Node? && Sub(t, dir).Node? && p in m && hole == Holes(cs)
      requires if dir == LEFT then k < Key(m0, p) else k > Key(m0, p)
      modifies this`m
      ensures p' == Kid(old(m), p, dir) && Search(m0, s, k, m, res', cs', p', t') && hole' == Holes(cs')
              && |In(t')| < |In(t)|
    {
      hide Search, In;
      LinkStep(m0, s, k, m, res, cs, p, t, dir);
      var o := Opp(dir);
      res' := res;
      if hole.At(o) == 0 {
        res' := With(res, o, p);
      } else {
        m := SetKid(m, hole.At(o), dir, p);
      }
      hole' := With(hole, o, p);
      cs', t' := With(cs, o, cs.At(o) + [Link(p, Sub(t, o))]), Sub(t, dir);
      p' := Kid(m, p, dir);
    }

    /** assemble: fill the holes with the children of p and hang the two trees under p. */
    method Assemble(p: int, res: Two<int>, hole: Two<int>, ghost cs: Two<seq<Link>>, ghost t: Tree)
      requires State(m, res, cs, p, t) && t.Node? && hole == Holes(cs)
      modifies this`m
      ensures Holds(m, p, Whole(cs, t)) && In(Whole(cs, t)) == All(cs, t) && OnlyLinks(old(m), m, All(cs, t))
    {
      AssembleKeeps(m, res, cs, p, t);
      AssembledLinks(m, res, cs, p, t);
      hide State, Holds, In, Flat, Chain, OnlyLinks;
      ghost var m0 := m;
      var res := res;
      if hole.r == 0 {
        res := With(res, RIGHT, Kid(m, p, RIGHT));
      } else {
        m := SetKid(m, hole.r, LEFT, Kid(m, p, RIGHT));
      }
      if hole.l == 0 {
        res := With(res, LEFT, Kid(m, p, LEFT));
      } else {
        m := SetKid(m, hole.l, RIGHT, Kid(m, p, LEFT));
      }
      m := SetKid(m, p, RIGHT, res.r);
      m := SetKid(m, p, LEFT, res.l);
    }

    /** sml_tree_find: the item with this key, which becomes the root. */
    method Find(k: int) returns (r: Option<Item>)
      requires Valid()
      modifies this`m, this`root, this`t
      ensures Valid() && Contents() == old(Contents())
      ensures r.Some? ==> r.value in Contents() && r.value.key == k
      ensures r.None? ==> forall x <- Contents() :: x.key != k
    {
      hide Holds, In, Sorted, State, Search, OnlyLinks, FreeList, NoDup, Items;
      RootNode(m, root, t);
      if root == 0 {
        return None;
      }
      ghost var m0, s := m, In(t);
      var n, p, res, hole, cs, u := Splay(k, root, t);
      ghost var m1 := m;
      SearchEnds(m0, s, k, m, res, cs, p, u, n);
      Assemble(p, res, hole, cs, u);
      root, t := p, Whole(cs, u);
      Kept(m0, m1, m, s, freelist, free);
      if n == 0 {
        return Some(m[root].item);
      }
      return None;
    }

    /** node_alloc: a reclaimed node if there is one, else the block that chunk_alloc returns. */
    method NodeAlloc(block: int) returns (q: int)
      requires FreeList(m, freelist, free) && NoDup(free) && block !in m && block != 0
      modifies this`m, this`freelist, this`free
      ensures q != 0 && q in m && (q in old(free) || q == block) && m.Keys == old(m).Keys + {q}
      ensures forall p <- old(m) :: m[p] == old(m)[p]
      ensures FreeList(m, freelist, free) && NoDup(free) && q !in free && forall p <- free :: p in old(free)
    {
      if freelist != 0 {
        q := freelist;
        freelist := m[q].back;
        free := free[1..];
      } else {
        q := block;
        ghost var m0 := m;
        FreeListNodes(m0, freelist, free);
        m := m[q := Cell(Two(0, 0), Item(0, 0), 0)];
        FreeListFrame(m0, m, freelist, free);
      }
    }

    /** sml_tree_insert: an item with the same key is overwritten. */
    method Insert(item: Item, block: int) returns (q: int)
      requires Valid() && block !in m && block != 0
      modifies this
      ensures Valid() && q in m && m[q].item == item
      ensures Contents() == (set x | x in old(Contents()) && x.key != item.key) + {item}
    {
      hide Holds, In, Sorted, FreeList, NoDup, Items, State, Flat, Beyond;
      ghost var m0, s := m, In(t);
      var n, p, res, hole, cs, u := SplayOrNot(item.key);
      ghost var m1 := m;
      if n == 0 {
        q := p;
        Assemble(q, res, hole, cs, u);
        ghost var m2 := m;
        Kept(m0, m1, m2, s, freelist, free);
        m := m[q := m[q].(item := item)];
        root, t := q, Whole(cs, u);
        Overwrite(m2, m, s, q, item);
        Frame(m2, m, q, t);
        FreeListNodes(m2, freelist, free);
        FreeListFrame(m2, m, freelist, free);
      } else {
        Kept(m0, m0, m1, s, freelist, free);
        q := InsertNew(m0, n, p, res, hole, cs, u, item, block);
      }
    }

    /** The case that the key is not there: a new node becomes the root, with the old root as its one child, and
        assemble hangs the parts where they belong. */
    method InsertNew(ghost m0: Mem, n: int, p: int, res: Two<int>, hole: Two<int>, ghost cs: Two<seq<Link>>,
                     ghost u: Tree, item: Item, block: int)
      returns (q: int)
      requires n != 0 && State(m, res, cs, p, u) && hole == Holes(cs) && All(cs, u) == In(t) && OnlyLinks(m0, m, In(t))
               && Sorted(m0, In(t))
      requires FreeList(m, freelist, free) && NoDup(free) && (forall x <- free :: x !in In(t)) && block !in m
               && block != 0
      requires n < 0 ==>
               Beyond(m0, Flat(cs.l, LEFT), item.key, LEFT) && Beyond(m0, In(u) + Flat(cs.r, RIGHT), item.key, RIGHT)
      requires n > 0 ==>
               Beyond(m0, Flat(cs.l, LEFT) + In(u), item.key, LEFT) && Beyond(m0, Flat(cs.r, RIGHT), item.key, RIGHT)
      modifies this
      ensures Valid() && q in m && m[q].item == item
      ensures Contents() == Items(m0, In(old(t))) + {item} && forall x <- Items(m0, In(old(t))) :: x.key != item.key
    {
      hide Holds, In, FreeList, NoDup, Items, State, Flat, Beyond;
      ghost var m1, s := m, In(t);
      assert forall i <- s :: i in m0 && i in m1 && m1[i].item == m0[i].item;
      hide Sorted;
      q := NodeAlloc(block);
      ghost var m2 := m;
      m := SetKid(m, q, DirOf(n), 0);
      m := SetKid(m, q, Opp(DirOf(n)), p);
      ghost var m3 := m;
      NewRootState(m1, m3, res, cs, p, u, q, n);
      NewRootIn(cs, u, n, q);
      ghost var u' := NewRoot(q, DirOf(n), u);
      Assemble(q, res, hole, cs, u');
      ghost var m4 := m;
      m := m[q := m[q].(item := item)];
      root, t := q, Whole(cs, u');
      InsertOrder(m0, m, cs, u, n, q, item);
      Frame(m4, m, q, t);
      FreeListNodes(m2, freelist, free);
      FreeListFrame(m2, m, freelist, free);
    }

    /** splay, or a nonzero result when there is no tree. */
    method SplayOrNot(k: int)
      returns (n: int, p: int, res: Two<int>, hole: Two<int>, ghost cs: Two<seq<Link>>, ghost u: Tree)
      requires Valid()
      modifies this`m
      ensures State(m, res, cs, p, u) && hole == Holes(cs) && All(cs, u) == In(t) && OnlyLinks(old(m), m, In(t))
      ensures n == 0 ==> u.Node? && p == u.id && p in In(t) && p in m && m[p].item.key == k
      ensures n < 0 ==> Beyond(old(m), Flat(cs.l, LEFT), k, LEFT) && Beyond(old(m), In(u) + Flat(cs.r, RIGHT), k, RIGHT)
      ensures n > 0 ==> Beyond(old(m), Flat(cs.l, LEFT) + In(u), k, LEFT) && Beyond(old(m), Flat(cs.r, RIGHT), k, RIGHT)
    {
      RootNode(m, root, t);
      if root == 0 {
        n, p, res, hole := 1, 0, Two(0, 0), Two(0, 0);
        cs, u := Two([], []), Leaf;
        return;
      }
      hide Holds, In, Sorted, FreeList, NoDup, Items;
      ghost var m0, s := m, In(t);
      n, p, res, hole, cs, u := Splay(k, root, t);
      SearchEnds(m0, s, k, m, res, cs, p, u, n);
      if n != 0 { NotThere(m0, s, k, m, res, cs, p, u, n); }
    }

    /** join: the two subtrees of p as one tree, whose root is the last node of the left one. */
    method Join(p: int, ghost t1: Tree) returns (j: int, ghost t2: Tree)
      requires Holds(m, p, t1) && t1.Node? && p in m && p == t1.id && Sorted(m, In(t1))
      modifies this`m
      ensures Holds(m, j, t2) && In(t2) == In(t1.kids.l) + In(t1.kids.r) && OnlyLinks(old(m), m, In(t1))
      ensures m.Keys == old(m).Keys && p in m && m[p] == old(m)[p]
      ensures t1.kids.l == Leaf ==> m == old(m) && t2 == t1.kids.r
      ensures t1.kids.l.Node? ==> t2.Node? && t2.kids.r == t1.kids.r
    {
      hide In, Sorted, Beyond, OnlyLinks, NoDup, State, Search;
      ghost var m0, a, b := m, t1.kids.l, t1.kids.r;
      JoinFacts(m, t1);
      RootNode(m, Kid(m, p, LEFT), a);
      var left := Kid(m, p, LEFT);
      if left == 0 {
        j, t2 := Kid(m, p, RIGHT), b;
        OnlyLinksRefl(m, In(t1));
        return;
      }
      var n, res, hole;
      ghost var cs, u;
      n, left, res, hole, cs, u := Splay(m[p].item.key, left, a);
      ghost var m1 := m;
      JoinSearch(m0, m1, t1, res, cs, left, u, n);
      m := SetKid(m, left, RIGHT, Kid(m, p, RIGHT));
      ghost var m2 := m;
      HangRight(m1, m2, res, cs, left, u, Kid(m0, p, RIGHT), b);
      u := Node(left, Two(u.kids.l, b));
      Assemble(left, res, hole, cs, u);
      JoinLinks(m0, m1, m2, m, t1, left);
      j, t2 := left, Whole(cs, u);
    }

    /** sml_tree_delete: the two parts beside the node are joined; when the node has no children the tree is assembled
        first and joined at its root. */
    method Delete(k: int) returns (r: Option<Item>)
      requires Valid()
      modifies this
      ensures Valid() && Contents() == (set x | x in old(Contents()) && x.key != k)
      ensures r.Some? ==> r.value in old(Contents()) && r.value.key == k
      ensures r.None? ==> forall x <- old(Contents()) :: x.key != k
      ensures r.Some? ==> |In(t)| == |In(old(t))| - 1 && |free| == |old(free)| + 1
    {
      hide Holds, In, Sorted, FreeList, NoDup, Items, State, Flat, Beyond, OnlyLinks, Search;
      RootNode(m, root, t);
      if root == 0 {
        return None;
      }
      ghost var m0, s := m, In(t);
      var n, p, res, hole, cs, u := Splay(k, root, t);
      ghost var m1 := m;
      SearchEnds(m0, s, k, m, res, cs, p, u, n);
      if n != 0 {
        Assemble(p, res, hole, cs, u);
        root, t := p, Whole(cs, u);
        Kept(m0, m1, m, s, freelist, free);
        return None;
      }
      var j;
      ghost var tj;
      j, tj := JoinAt(m0, s, p, res, hole, cs, u);
      r := Some(m[p].item);
      ghost var m2 := m;
      DeleteOrder(m0, m2, cs, u, p, tj);
      OnlyLinksRefl(m2, s);
      Kept(m0, m2, m2, s, freelist, free);
      Reclaim(p);
      root, t := j, tj;
      Frame(m2, m, j, tj);
      BackOnly(m2, m, In(tj), p);
    }

    /** The node p found is taken out: its subtrees are joined and the rest is assembled around them. */
    method JoinAt(ghost m0: Mem, ghost s: seq<int>, p: int, res: Two<int>, hole: Two<int>, ghost cs: Two<seq<Link>>,
                  ghost u: Tree)
      returns (j: int, ghost tj: Tree)
      requires State(m, res, cs, p, u) && u.Node? && hole == Holes(cs) && All(cs, u) == s && OnlyLinks(m0, m, s)
               && Sorted(m0, s) && p == u.id
      modifies this`m
      ensures Holds(m, j, tj) && In(tj) == Without(cs, u) && OnlyLinks(m0, m, s) && p in m
    {
      hide Holds, In, Sorted, NoDup, Items, State, Flat, Beyond, OnlyLinks, Build;
      ghost var m1 := m;
      JoinReady(m0, m1, res, cs, p, u);
      OnlyLinksKeys(m0, m1, s);
      j, tj := Join(p, u);
      ghost var m2 := m;
      RootNode(m2, j, tj);
      if j != 0 {
        JoinedState(m1, m2, res, cs, p, u, j, tj);
        Assemble(j, res, hole, cs, tj);
        Within(m0, m1, m2, m, s, cs, u, tj);
        tj := Whole(cs, tj);
      } else {
        Childless(cs, u);
        Assemble(p, res, hole, cs, u);
        ghost var w := Whole(cs, u);
        SameItems(m0, m1, s);
        SameItems(m1, m, s);
        OnlyLinksTrans(m0, m1, m, s);
        OnlyLinksKeys(m1, m, s);
        ghost var m3 := m;
        j, tj := Join(p, w);
        OnlyLinksTrans(m0, m3, m, s);
      }
      OnlyLinksKeys(m0, m, s);
    }

    /** node_reclaim */
    method Reclaim(p: int)
      requires p in m && p != 0 && FreeList(m, freelist, free) && NoDup(free) && p !in free
      modifies this`m, this`freelist, this`free
      ensures FreeList(m, freelist, free) && NoDup(free) && free == [p] + old(free)
      ensures m == old(m)[p := old(m)[p].(back := old(freelist))]
    {
      ghost var m0 := m;
      m := m[p := m[p].(back := freelist)];
      FreeListNodes(m0, freelist, free);
      FreeListFrame(m0, m, freelist, free);
      freelist, free := p, [p] + free;
      assert free[1..] == old(free);
    }
  }

  lemma BeginSearch(m: Mem, k: int, res: Two<int>, p: int, t: Tree)
    requires Holds(m, p, t) && t.Node? && Sorted(m, In(t))
    ensures Search(m, In(t), k, m, res, Two([], []), p, t)
  {
    SortedNoDup(m, In(t));
    assert All(Two([], []), t) == In(t);
  }
}
