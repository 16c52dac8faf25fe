/**
 sml_tree_rebuild: a tree whose keys have changed is taken apart in post-order and its nodes are inserted again.
 */
module SplayRebuild {
  import opened Splay

  // ---------------------------------------------------------------- inserting a node

  /** insert_node: the result is zero when a node with the same key is there already; then the node is left out. */
  method InsertNode(tree: SplayTree, q: int) returns (n: int)
    requires tree.Valid() && q in tree.m && q != 0 && q !in In(tree.t) && q !in tree.free
    modifies tree
    ensures tree.Valid() && tree.free == old(tree.free) && OnlyLinks(old(tree.m), tree.m, In(old(tree.t)) + [q])
    ensures n == 0 <==> exists i :: i in In(old(tree.t)) && Key(old(tree.m), i) == Key(old(tree.m), q)
    ensures forall i :: i in In(tree.t) <==> i in In(old(tree.t)) || (n != 0 && i == q)
  {
    hide Holds, In, Sorted, FreeList, NoDup, Items, State, Flat, Beyond, OnlyLinks;
    ghost var m0, s, t0 := tree.m, In(tree.t), tree.t;
    var p, res, hole;
    ghost var cs, u;
    n, p, res, hole, cs, u := tree.SplayOrNot(tree.m[q].item.key);
    ghost var m1 := tree.m;
    SameNodes(m0, m1, s);
    if n == 0 {
      assert p in s && Key(m0, p) == Key(m0, q);
      tree.Assemble(p, res, hole, cs, u);
      tree.root, tree.t := p, Whole(cs, u);
      Kept(m0, m1, tree.m, s, tree.freelist, tree.free);
      Wider(m0, tree.m, s, q);
    } else {
      LinkNode(tree, m0, t0, n, p, res, hole, cs, u, q);
    }
  }

  lemma SameNodes(m: Mem, m': Mem, s: seq<int>)
    requires OnlyLinks(m, m', s)
    ensures m'.Keys == m.Keys && forall i <- m :: m'[i].item == m[i].item
  {
  }

  lemma Wider(m: Mem, m': Mem, s: seq<int>, q: int)
    requires OnlyLinks(m, m', s)
    ensures OnlyLinks(m, m', s + [q])
  {
  }

  /** The case that the key is not there. */
  method LinkNode(tree: SplayTree, ghost m0: Mem, ghost t0: Tree, n: int, p: int, res: Two<int>, hole: Two<int>,
                  ghost cs: Two<seq<Link>>, ghost u: Tree, q: int)
    requires n != 0 && State(tree.m, res, cs, p, u) && hole == Holes(cs) && tree.t == t0 && All(cs, u) == In(t0)
    requires OnlyLinks(m0, tree.m, In(t0)) && Sorted(m0, In(t0))
    requires FreeList(m0, tree.freelist, tree.free) && NoDup(tree.free) && forall x <- tree.free :: x !in In(t0)
    requires q in m0 && q != 0 && q !in In(t0) && q !in tree.free
    requires n < 0 ==>
             Beyond(m0, Flat(cs.l, LEFT), Key(m0, q), LEFT) && Beyond(m0, In(u) + Flat(cs.r, RIGHT), Key(m0, q), RIGHT)
    requires n > 0 ==>
             Beyond(m0, Flat(cs.l, LEFT) + In(u), Key(m0, q), LEFT) && Beyond(m0, Flat(cs.r, RIGHT), Key(m0, q), RIGHT)
    modifies tree
    ensures tree.Valid() && tree.free == old(tree.free) && OnlyLinks(m0, tree.m, In(t0) + [q])
    ensures forall i :: i in In(t0) ==> Key(m0, i) != Key(m0, q)
    ensures forall i :: i in In(tree.t) <==> i in In(t0) || i == q
  {
    hide Holds, In, FreeList, NoDup, Items, State, Flat, Beyond, Sorted;
    ghost var m1 := tree.m;
    SortedNodes(m0, In(t0));
    tree.m := SetKid(tree.m, q, DirOf(n), 0);
    tree.m := SetKid(tree.m, q, Opp(DirOf(n)), p);
    ghost var m3 := tree.m;
    NewRootState(m1, m3, res, cs, p, u, q, n);
    NewRootIn(cs, u, n, q);
    ghost var u' := NewRoot(q, DirOf(n), u);
    tree.Assemble(q, res, hole, cs, u');
    tree.root, tree.t := q, Whole(cs, u');
    AroundMembers(cs, u, n, q);
    InsertOrder(m0, tree.m, cs, u, n, q, m0[q].item);
    OtherKeys(m0, In(t0), m0[q].item);
    FreeListNodes(m0, tree.freelist, tree.free);
    FreeListFrame(m0, tree.m, tree.freelist, tree.free);
  }

  lemma SortedNodes(m: Mem, s: seq<int>)
    requires Sorted(m, s)
    ensures forall i <- s :: i in m
  {
  }

  lemma OtherKeys(m: Mem, s: seq<int>, item: Item)
    requires (forall x <- Items(m, s) :: x.key != item.key) && forall i <- s :: i in m
    ensures forall i <- s :: Key(m, i) != item.key
  {
    forall i <- s ensures Key(m, i) != item.key { assert m[i].item in Items(m, s); }
  }

  lemma AroundMembers(cs: Two<seq<Link>>, u: Tree, n: int, q: int)
    ensures forall i :: i in Around(cs, u, n, q) <==> i == q || i in All(cs, u)
  {
    hide In, Flat;
  }

  // ---------------------------------------------------------------- the walk in post-order

  function Post(t: Tree): seq<int> {
    match t
    case Leaf => []
    case Node(id, kids) => Post(kids.l) + Post(kids.r) + [id]
  }

  /** A node whose turn has not come: its left subtree is being walked over, or (late) its right one. */
  datatype Waiting = Waiting(id: int, late: bool, right: Tree)

  function Rest(fs: seq<Waiting>): seq<int> {
    if fs == [] then [] else ((if fs[0].late then [] else Post(fs[0].right)) + [fs[0].id]) + Rest(fs[1..])
  }

  function TopOf(fs: seq<Waiting>): int { if fs == [] then 0 else fs[0].id }

  /** The nodes on the way, linked by their back fields, with the right subtrees still to be walked over. */
  ghost predicate Stack(m: Mem, fs: seq<Waiting>) {
    fs == [] ||
    (fs[0].id in m && fs[0].id != 0 && m[fs[0].id].back == TopOf(fs[1..])
     && (if fs[0].late then fs[0].right.Node? && Kid(m, fs[0].id, RIGHT) == fs[0].right.id
         else Holds(m, Kid(m, fs[0].id, RIGHT), fs[0].right))
     && (fs[1..] != [] && fs[1].late ==> fs[1].right.Node? && fs[0].id == fs[1].right.id)
     && Stack(m, fs[1..]))
  }

  /** What the walk knows at the node p, which is the root of the subtree t: the late frame on top waits for this one,
      or, when t has been walked over, for the node that was last. */
  predicate Expected(fs: seq<Waiting>, t: Tree, last: int) {
    fs != [] && fs[0].late ==> fs[0].right.Node? && fs[0].right.id == if t.Node? then t.id else last
  }

  lemma {:induction false} StackStays(m: Mem, m': Mem, fs: seq<Waiting>)
    requires Stack(m, fs) && forall i :: i in Rest(fs) ==> i in m && i in m' && m'[i] == m[i]
    ensures Stack(m', fs)
  {
    if fs != [] {
      RestParts(fs);
      if !fs[0].late {
        PostIn(fs[0].right);
        Frame(m, m', Kid(m, fs[0].id, RIGHT), fs[0].right);
      }
      StackStays(m, m', fs[1..]);
    }
  }

  lemma RestParts(fs: seq<Waiting>)
    requires fs != []
    ensures fs[0].id in Rest(fs) && (forall i <- Rest(fs[1..]) :: i in Rest(fs))
    ensures !fs[0].late ==> forall i <- Post(fs[0].right) :: i in Rest(fs)
  {
    hide Post;
  }

  lemma {:induction false} PostIn(t: Tree)
    ensures forall i :: i in Post(t) <==> i in In(t)
  {
    if t.Node? {
      PostIn(t.kids.l);
      PostIn(t.kids.r);
    }
  }

  // ---------------------------------------------------------------- what the rebuilt tree holds

  predicate Earlier(m: Mem, s: seq<int>, k: int) { exists i :: i in s && Key(m, i) == k }

  /** The first node with each key. */
  function Firsts(m: Mem, s: seq<int>): set<int> {
    if s == [] then {}
    else
      var n := |s| - 1;
      Firsts(m, s[..n]) + if Earlier(m, s[..n], Key(m, s[n])) then {} else {s[n]}
  }

  /** The others, the last one first. */
  function Others(m: Mem, s: seq<int>): seq<int> {
    if s == [] then []
    else
      var n := |s| - 1;
      (if Earlier(m, s[..n], Key(m, s[n])) then [s[n]] else []) + Others(m, s[..n])
  }

  /** Every key is kept, and every node is either the first with its key or one of the others. */
  lemma {:induction false} FirstsAndOthers(m: Mem, s: seq<int>)
    ensures forall i :: i in s <==> i in Firsts(m, s) || i in Others(m, s)
    ensures forall k :: Earlier(m, s, k) <==> exists i :: i in Firsts(m, s) && Key(m, i) == k
  {
    if s != [] {
      var n := |s| - 1;
      FirstsAndOthers(m, s[..n]);
      assert s == s[..n] + [s[n]];
      hide Key;
      forall k ensures Earlier(m, s, k) <==> exists i :: i in Firsts(m, s) && Key(m, i) == k {
        if Earlier(m, s[..n], k) {
          var i :| i in Firsts(m, s[..n]) && Key(m, i) == k;
          assert i in Firsts(m, s);
        }
      }
    }
  }

  /** The tree in the middle of the walk: the first v nodes of the post-order s0 are done. */
  ghost predicate Progress(tree: SplayTree, m0: Mem, s0: seq<int>, free0: seq<int>, v: nat, fs: seq<Waiting>, t: Tree)
    reads tree
  {
    && tree.Valid() && v <= |s0| && s0[v..] == Post(t) + Rest(fs)
    && (forall i :: i in In(tree.t) <==> i in Firsts(m0, s0[..v])) && tree.free == Others(m0, s0[..v]) + free0
    && tree.m.Keys == m0.Keys && forall i <- m0 :: tree.m[i].item == m0[i].item
  }

  lemma {:induction false} FirstsIn(m: Mem, s: seq<int>)
    ensures (forall i <- Firsts(m, s) :: i in s) && (forall i <- Others(m, s) :: i in s)
  {
    FirstsAndOthers(m, s);
  }

  /** What is still to come is neither in the tree nor spare. */
  lemma ToCome(tree: SplayTree, m0: Mem, s0: seq<int>, free0: seq<int>, v: nat, fs: seq<Waiting>, t: Tree)
    requires Progress(tree, m0, s0, free0, v, fs, t) && NoDup(s0) && forall i <- free0 :: i !in s0
    ensures forall i :: i in Post(t) || i in Rest(fs) ==> i !in In(tree.t) && i !in tree.free && i in s0[v..]
    ensures forall i :: i in s0[v..] ==> i !in s0[..v]
  {
    hide In, Post, Rest, NoDup, Firsts, Others;
    assert s0 == s0[..v] + s0[v..];
    NoDupSplit(s0[..v], s0[v..]);
    FirstsIn(m0, s0[..v]);
  }

  // ---------------------------------------------------------------- the steps

  /** Subtrees whose nodes have not been reached, and nodes that are not late. */
  function Unreached(fs: seq<Waiting>): nat {
    if fs == [] then 0 else (if fs[0].late then 0 else |Post(fs[0].right)|) + Unreached(fs[1..])
  }

  function NotLate(fs: seq<Waiting>): nat {
    if fs == [] then 0 else (if fs[0].late then 0 else 1) + NotLate(fs[1..])
  }

  lemma Shape(m: Mem, node: int, t: Tree)
    requires Holds(m, node, t)
    ensures node == 0 <==> t == Leaf
    ensures t.Node? ==>
            node == t.id && node in m && Holds(m, m[node].child.l, t.kids.l) && Holds(m, m[node].child.r, t.kids.r)
    ensures t.Node? ==> Post(t) == Post(t.kids.l) + Post(t.kids.r) + [node]
  {
  }

  /** Down to the left; the node waits. */
  method Descend(tree: SplayTree, ghost m0: Mem, ghost s0: seq<int>, ghost free0: seq<int>, ghost v: nat,
                 ghost fs: seq<Waiting>, ghost t: Tree, prev: int, node: int, ghost last: int)
    returns (ghost fs': seq<Waiting>, ghost t': Tree)
    requires Progress(tree, m0, s0, free0, v, fs, t) && NoDup(s0) && forall i <- free0 :: i !in s0
    requires Stack(tree.m, fs) && prev == TopOf(fs) && Holds(tree.m, node, t) && node != 0 && Expected(fs, t, last)
    modifies tree
    ensures node in tree.m && tree.m[node].child == old(tree.m)[node].child
    ensures Progress(tree, m0, s0, free0, v, fs', t') && Stack(tree.m, fs') && TopOf(fs') == node
    ensures Holds(tree.m, tree.m[node].child.l, t') && Expected(fs', t', last)
    ensures |Post(t')| + Unreached(fs') < |Post(t)| + Unreached(fs)
  {
    hide Holds, In, FreeList, NoDup, Stack, Post, Rest, Firsts, Others, Expected, Sorted;
    ghost var m1 := tree.m;
    Shape(m1, node, t);
    ToCome(tree, m0, s0, free0, v, fs, t);
    Apart(t, fs, s0, v);
    tree.m := tree.m[node := tree.m[node].(back := prev)];
    fs', t' := [Waiting(node, false, t.kids.r)] + fs, t.kids.l;
    DescendStack(m1, tree.m, fs, t, prev, node, last);
    ValidStays(m1, tree.m, tree.root, tree.t, tree.freelist, tree.free, node);
    DescendRest(fs, t, node);
  }

  /** The nodes of the subtree are apart from those that wait, and from each other. */
  lemma Apart(t: Tree, fs: seq<Waiting>, s0: seq<int>, v: nat)
    requires NoDup(s0) && v <= |s0| && s0[v..] == Post(t) + Rest(fs) && t.Node?
    ensures forall i <- Rest(fs) :: i !in In(t)
    ensures t.id !in In(t.kids.l) && t.id !in In(t.kids.r)
    ensures t.id in Post(t)
  {
    assert s0 == s0[..v] + s0[v..];
    NoDupSplit(s0[..v], s0[v..]);
    NoDupSplit(Post(t), Rest(fs));
    PostIn(t);
    PostIn(t.kids.l);
    PostIn(t.kids.r);
    NoDupSplit(Post(t.kids.l) + Post(t.kids.r), [t.id]);
    hide In, Rest, NoDup;
  }

  lemma DescendStack(m: Mem, m': Mem, fs: seq<Waiting>, t: Tree, prev: int, node: int, last: int)
    requires Stack(m, fs) && prev == TopOf(fs) && Holds(m, node, t) && t.Node? && node == t.id && node in m && node != 0
    requires m' == m[node := m[node].(back := prev)] && Expected(fs, t, last)
    requires (forall i <- Rest(fs) :: i !in In(t)) && node in Post(t) && t.id !in In(t.kids.l) && t.id !in In(t.kids.r)
    ensures var fs' := [Waiting(node, false, t.kids.r)] + fs;
            Stack(m', fs') && Holds(m', m'[node].child.l, t.kids.l) && Expected(fs', t.kids.l, last)
  {
    var fs' := [Waiting(node, false, t.kids.r)] + fs;
    assert fs'[1..] == fs;
    PostIn(t);
    StackNodes(m, fs);
    HeldNodes(m, node, t);
    assert Holds(m, m[node].child.l, t.kids.l) && Holds(m, m[node].child.r, t.kids.r);
    assert forall i :: i in In(t.kids.l) || i in In(t.kids.r) ==> i in In(t);
    hide In, Post, Rest;
    StackStays(m, m', fs);
    Frame(m, m', m[node].child.l, t.kids.l);
    Frame(m, m', m[node].child.r, t.kids.r);
  }

  lemma {:induction false} StackNodes(m: Mem, fs: seq<Waiting>)
    requires Stack(m, fs)
    ensures forall i <- Rest(fs) :: i in m
  {
    if fs != [] {
      StackNodes(m, fs[1..]);
      if !fs[0].late {
        HeldNodes(m, Kid(m, fs[0].id, RIGHT), fs[0].right);
        PostIn(fs[0].right);
      }
      hide Post, In;
    }
  }

  /** The back field of a node outside the tree and the free list. */
  lemma ValidStays(m: Mem, m': Mem, root: int, t: Tree, head: int, free: seq<int>, node: int)
    requires Holds(m, root, t) && Sorted(m, In(t)) && FreeList(m, head, free) && node !in In(t) && node !in free
    requires m'.Keys == m.Keys && (forall i <- m :: i != node ==> m'[i] == m[i])
             && forall i <- m :: m'[i].item == m[i].item
    ensures Holds(m', root, t) && Sorted(m', In(t)) && FreeList(m', head, free)
  {
    HeldNodes(m, root, t);
    FreeListNodes(m, head, free);
    Frame(m, m', root, t);
    FreeListFrame(m, m', head, free);
  }

  lemma DescendRest(fs: seq<Waiting>, t: Tree, node: int)
    requires t.Node? && node == t.id
    ensures var fs' := [Waiting(node, false, t.kids.r)] + fs;
            && Post(t.kids.l) + Rest(fs') == Post(t) + Rest(fs)
            && |Post(t.kids.l)| + Unreached(fs') < |Post(t)| + Unreached(fs)
  {
    var fs' := [Waiting(node, false, t.kids.r)] + fs;
    assert fs'[1..] == fs;
    assert Post(t) == Post(t.kids.l) + Post(t.kids.r) + [node];
    assert Rest(fs') == (Post(t.kids.r) + [node]) + Rest(fs);
    hide Post, Rest;
    Regroup(Post(t.kids.l), Post(t.kids.r), [node], Rest(fs));
  }

  /** The node on top, when a subtree has been walked over. */
  lemma AtTop(m: Mem, fs: seq<Waiting>, prev: int, last: int)
    requires Stack(m, fs) && prev == TopOf(fs) && prev != 0 && Expected(fs, Leaf, last)
    ensures fs != [] && prev in m && prev == fs[0].id && m[prev].back == TopOf(fs[1..]) && Stack(m, fs[1..])
    ensures if fs[0].late then fs[0].right.Node? && m[prev].child.r == fs[0].right.id == last
            else Holds(m, m[prev].child.r, fs[0].right) && (m[prev].child.r == 0 <==> fs[0].right == Leaf)
    ensures fs[0].right.Node? && !fs[0].late ==> fs[0].right.id == m[prev].child.r && fs[0].right.id in Rest(fs)
  {
    RestParts(fs);
    if !fs[0].late && fs[0].right.Node? {
      assert fs[0].right.id in Post(fs[0].right);
    }
    hide Rest;
  }

  /** On to the right subtree; the node is late now. */
  lemma TurnRight(m: Mem, fs: seq<Waiting>, prev: int, last: int)
    requires Stack(m, fs) && fs != [] && prev == fs[0].id && !fs[0].late && fs[0].right.Node?
    requires fs[0].right.id == m[prev].child.r
    ensures var fs' := [fs[0].(late := true)] + fs[1..];
            && Stack(m, fs') && TopOf(fs') == prev && Expected(fs', fs[0].right, last)
            && Post(fs[0].right) + Rest(fs') == Post(Leaf) + Rest(fs)
            && |Post(fs[0].right)| + Unreached(fs') == |Post(Leaf)| + Unreached(fs) && NotLate(fs') < NotLate(fs)
  {
    var fs' := [fs[0].(late := true)] + fs[1..];
    assert fs'[1..] == fs[1..];
    assert Rest(fs') == ([] + [prev]) + Rest(fs[1..]);
    assert Rest(fs) == (Post(fs[0].right) + [prev]) + Rest(fs[1..]);
    assert Post(Leaf) == [];
    hide Post, Rest;
    assert Post(fs[0].right) + (([] + [prev]) + Rest(fs[1..])) == [] + ((Post(fs[0].right) + [prev]) + Rest(fs[1..]));
  }

  /** Both subtrees have been walked over: the node is next in post-order. */
  lemma NodeNext(fs: seq<Waiting>, s0: seq<int>, v: nat)
    requires fs != [] && v <= |s0| && s0[v..] == Post(Leaf) + Rest(fs) && (fs[0].late || fs[0].right == Leaf)
    ensures v < |s0| && s0[v] == fs[0].id && s0[v + 1..] == Post(Leaf) + Rest(fs[1..])
  {
    assert Post(Leaf) == [];
    assert Rest(fs) == [fs[0].id] + Rest(fs[1..]) by { assert [] + [fs[0].id] == [fs[0].id]; }
    hide Post, Rest;
    assert s0[v] == s0[v..][0];
    assert s0[v + 1..] == s0[v..][1..];
  }

  lemma NextFirst(m: Mem, s: seq<int>, v: nat)
    requires v < |s|
    ensures Firsts(m, s[..v + 1]) == Firsts(m, s[..v]) + if Earlier(m, s[..v], Key(m, s[v])) then {} else {s[v]}
    ensures Others(m, s[..v + 1]) == (if Earlier(m, s[..v], Key(m, s[v])) then [s[v]] else []) + Others(m, s[..v])
  {
    assert s[..v + 1][..v] == s[..v];
  }

  /** The node is inserted, or reclaimed when its key is there already. */
  method TakeOne(tree: SplayTree, q: int, ghost m0: Mem, ghost s0: seq<int>, ghost free0: seq<int>, ghost v: nat,
                 ghost fs: seq<Waiting>)
    requires Progress(tree, m0, s0, free0, v, fs, Leaf) && NoDup(s0) && forall i <- free0 :: i !in s0
    requires Stack(tree.m, fs) && fs != [] && q == fs[0].id && (fs[0].late || fs[0].right == Leaf)
    modifies tree
    ensures Progress(tree, m0, s0, free0, v + 1, fs[1..], Leaf) && Stack(tree.m, fs[1..])
    ensures v < |s0| && s0[v] == q
  {
    hide Holds, In, FreeList, NoDup, Post, Rest, Firsts, Others, Sorted, OnlyLinks, Key;
    ghost var m1, t1 := tree.m, tree.t;
    ToCome(tree, m0, s0, free0, v, fs, Leaf);
    RestParts(fs);
    NodeNext(fs, s0, v);
    StackNodes(m1, fs);
    var n := InsertNode(tree, q);
    ghost var m2 := tree.m;
    SameNodes(m1, m2, In(t1) + [q]);
    if n == 0 {
      tree.Reclaim(q);
      ReclaimedSpare(m2, tree.m, tree.root, tree.t, q);
    }
    OthersStay(m1, m2, tree.m, In(t1), fs, q, s0, v);
    Taken(m0, m1, s0, v, In(t1), q, n);
    NextFirst(m0, s0, v);
    assert [q] + (Others(m0, s0[..v]) + free0) == [q] + Others(m0, s0[..v]) + free0;
  }

  lemma ReclaimedSpare(m: Mem, m': Mem, root: int, t: Tree, q: int)
    requires Holds(m, root, t) && Sorted(m, In(t)) && q !in In(t) && q in m
             && exists b :: m' == m[q := m[q].(back := b)]
    ensures Holds(m', root, t) && Sorted(m', In(t))
  {
    HeldNodes(m, root, t);
    Frame(m, m', root, t);
  }

  lemma OthersStay(m1: Mem, m2: Mem, m3: Mem, s: seq<int>, fs: seq<Waiting>, q: int, s0: seq<int>, v: nat)
    requires Stack(m1, fs) && fs != [] && OnlyLinks(m1, m2, s + [q]) && m3.Keys == m2.Keys
             && forall i <- m2 :: i != q ==> m3[i] == m2[i]
    requires v < |s0| && s0[v] == q && s0[v + 1..] == Post(Leaf) + Rest(fs[1..]) && NoDup(s0)
    requires forall i <- Rest(fs[1..]) :: i !in s
    ensures Stack(m3, fs[1..])
  {
    assert Post(Leaf) == [] && Stack(m1, fs[1..]);
    hide Rest, Post, Stack;
    NotAgain(s0, v, q, Rest(fs[1..]));
    StackNodes(m1, fs[1..]);
    assert forall i <- Rest(fs[1..]) :: i !in s + [q];
    StackStays(m1, m3, fs[1..]);
  }

  lemma NotAgain(s: seq<int>, v: nat, q: int, rest: seq<int>)
    requires v < |s| && s[v] == q && s[v + 1..] == [] + rest && NoDup(s)
    ensures q !in rest
  {
    assert s == s[..v + 1] + s[v + 1..] && s[..v + 1][v] == q;
    NoDupSplit(s[..v + 1], s[v + 1..]);
    hide NoDup;
    assert q in s[..v + 1];
  }

  lemma Taken(m0: Mem, m1: Mem, s0: seq<int>, v: nat, s: seq<int>, q: int, n: int)
    requires v < |s0| && m1.Keys == m0.Keys && (forall i <- m0 :: m1[i].item == m0[i].item)
    requires forall i :: i in s <==> i in Firsts(m0, s0[..v])
    requires n == 0 <==> exists i :: i in s && Key(m1, i) == Key(m1, q)
    ensures n == 0 <==> Earlier(m0, s0[..v], Key(m0, q))
  {
    assert forall i :: Key(m1, i) == Key(m0, i);
    FirstsAndOthers(m0, s0[..v]);
    hide Key, Firsts;
  }

  // ---------------------------------------------------------------- sml_tree_rebuild

  /** The nodes are inserted again in post-order; the first node with each key stays in the tree, the others become
      spare. */
  method Rebuild(tree: SplayTree)
    requires Holds(tree.m, tree.root, tree.t) && NoDup(Post(tree.t))
    requires FreeList(tree.m, tree.freelist, tree.free) && NoDup(tree.free)
             && forall i <- tree.free :: i !in Post(tree.t)
    modifies tree
    ensures tree.Valid()
    ensures forall i :: i in In(tree.t) <==> i in Firsts(old(tree.m), Post(old(tree.t)))
    ensures tree.free == Others(old(tree.m), Post(old(tree.t))) + old(tree.free)
    ensures tree.m.Keys == old(tree.m).Keys && forall i <- tree.m :: tree.m[i].item == old(tree.m)[i].item
  {
    hide Holds, In, FreeList, NoDup, Stack, Progress, Post, Rest, Firsts, Others, Expected, Unreached, NotLate, Sorted;
    ghost var m0, s0, free0 := tree.m, Post(tree.t), tree.free;
    var node, prev, last := tree.root, 0, 0;
    ghost var t := tree.t;
    ghost var fs: seq<Waiting> := [];
    ghost var v: nat := 0;
    tree.root, tree.t := 0, Leaf;
    BeginRebuild(tree, m0, s0, free0, t);
    while prev != 0 || node != 0
      invariant Stack(tree.m, fs) && prev == TopOf(fs) && Holds(tree.m, node, t)
      invariant Progress(tree, m0, s0, free0, v, fs, t) && Expected(fs, t, last) && LastDone(s0, v, last)
      decreases |s0| - v, |Post(t)| + Unreached(fs), NotLate(fs)
    {
      ProgressBounds(tree, m0, s0, free0, v, fs, t);
      Shape(tree.m, node, t);
      if node != 0 {
        fs, t := Descend(tree, m0, s0, free0, v, fs, t, prev, node, last);
        prev := node;
        node := tree.m[node].child.l;
      } else {
        AtTop(tree.m, fs, prev, last);
        LastIsPast(tree, m0, s0, free0, v, fs, t, last);
        if tree.m[prev].child.r != 0 && tree.m[prev].child.r != last {
          TurnRight(tree.m, fs, prev, last);
          Turned(tree, m0, s0, free0, v, fs, last);
          node, t := tree.m[prev].child.r, fs[0].right;
          fs := [fs[0].(late := true)] + fs[1..];
        } else {
          last := prev;
          prev := tree.m[prev].back;
          Popped(tree.m, fs);
          TakeOne(tree, last, m0, s0, free0, v, fs);
          fs, v := fs[1..], v + 1;
          NodeDone(s0, v, last);
          LeafHeld(tree.m, node);
        }
      }
    }
    EndRebuild(tree, m0, s0, free0, v, fs, t, node);
  }

  predicate LastDone(s0: seq<int>, v: nat, last: int) { v <= |s0| && (last == 0 || last in s0[..v]) }

  lemma BeginRebuild(tree: SplayTree, m0: Mem, s0: seq<int>, free0: seq<int>, t: Tree)
    requires tree.m == m0 && tree.root == 0 && tree.t == Leaf && s0 == Post(t) && tree.free == free0
    requires FreeList(m0, tree.freelist, free0) && NoDup(free0)
    ensures Progress(tree, m0, s0, free0, 0, [], t) && Stack(tree.m, []) && TopOf([]) == 0 && Expected([], t, 0)
            && LastDone(s0, 0, 0)
  {
    assert In(Leaf) == [] && s0[..0] == [] && s0[0..] == s0 && Post(t) + [] == Post(t);
    assert Others(m0, []) + free0 == free0;
    hide Post, FreeList;
  }

  lemma ProgressBounds(tree: SplayTree, m0: Mem, s0: seq<int>, free0: seq<int>, v: nat, fs: seq<Waiting>, t: Tree)
    requires Progress(tree, m0, s0, free0, v, fs, t)
    ensures tree.Valid() && v <= |s0| && s0[v..] == Post(t) + Rest(fs)
  {
    hide Post, Rest, Firsts, Others, In, Holds, FreeList, Sorted;
  }

  /** The right child of a node that is not late has not been walked over, so it is not the last one. */
  lemma LastIsPast(tree: SplayTree, m0: Mem, s0: seq<int>, free0: seq<int>, v: nat, fs: seq<Waiting>, t: Tree,
                   last: int)
    requires Progress(tree, m0, s0, free0, v, fs, t) && NoDup(s0) && (forall i <- free0 :: i !in s0)
             && LastDone(s0, v, last)
    ensures forall i <- Rest(fs) :: i != last || i == 0
  {
    hide In, Post, Rest, Firsts, Others, NoDup, Progress;
    ToCome(tree, m0, s0, free0, v, fs, t);
  }

  lemma Turned(tree: SplayTree, m0: Mem, s0: seq<int>, free0: seq<int>, v: nat, fs: seq<Waiting>, last: int)
    requires Progress(tree, m0, s0, free0, v, fs, Leaf) && fs != []
    requires Post(fs[0].right) + Rest([fs[0].(late := true)] + fs[1..]) == Post(Leaf) + Rest(fs)
    ensures Progress(tree, m0, s0, free0, v, [fs[0].(late := true)] + fs[1..], fs[0].right)
  {
    hide Post, Rest, Firsts, Others, In, Holds, FreeList, Sorted, NoDup;
  }

  /** When a node is done, the late node below it, if there is one, has been waiting for it. */
  lemma Popped(m: Mem, fs: seq<Waiting>)
    requires Stack(m, fs) && fs != []
    ensures Expected(fs[1..], Leaf, fs[0].id)
  {
  }

  lemma NodeDone(s0: seq<int>, v: nat, q: int)
    requires 0 < v <= |s0| && s0[v - 1] == q
    ensures LastDone(s0, v, q)
  {
    assert s0[..v][v - 1] == q;
  }

  lemma LeafHeld(m: Mem, node: int)
    ensures node == 0 ==> Holds(m, node, Leaf)
  {
  }

  lemma EndRebuild(tree: SplayTree, m0: Mem, s0: seq<int>, free0: seq<int>, v: nat, fs: seq<Waiting>, t: Tree,
                   node: int)
    requires Progress(tree, m0, s0, free0, v, fs, t) && Stack(tree.m, fs) && TopOf(fs) == 0 && Holds(tree.m, node, t)
             && node == 0
    ensures tree.Valid() && (forall i :: i in In(tree.t) <==> i in Firsts(m0, s0))
            && tree.free == Others(m0, s0) + free0
    ensures tree.m.Keys == m0.Keys && forall i <- m0 :: tree.m[i].item == m0[i].item
  {
    assert fs == [] && t == Leaf;
    assert Post(t) == [] && Rest(fs) == [];
    assert s0[v..] == [];
    assert s0[..v] == s0;
    hide Firsts, Others, In, Holds, FreeList, Sorted, NoDup, Post, Rest;
  }
}
