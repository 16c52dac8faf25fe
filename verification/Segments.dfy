/**
 The segment lists of the concurrent heap, heap_concurrent.c: lists with a pointer to their last link, and walks that
 rebuild old lists in place; and the sweep of heap_bitmap.c, which is such a walk.
 */
module Segments {
  import opened Wrappers

  /** The address of a segment; 0 is NULL. */
  type Ptr = nat

  /** struct segment_list. The last link is that of the head, None, or that of a segment; it need not hold NULL. */
  datatype SegmentList = SegmentList(head: Ptr, last: Option<Ptr>)

  /** Where allocptr_snapshot stands in its segment. */
  datatype Snapshot = AtBase | Inside | AtLimit

  type Next = map<Ptr, Ptr>

  predicate Distinct(s: seq<Ptr>) {
    (forall i :: 0 <= i < |s| ==> s[i] != 0) && forall i, j :: 0 <= i < j < |s| ==> s[i] != s[j]
  }

  ghost predicate Linked(next: Next, s: seq<Ptr>) {
    && (forall p :: p in s ==> p in next)
    && forall i, j :: 0 <= i && j == i + 1 && j < |s| ==> next[s[i]] == s[j]
  }

  /** s is the chain from p to NULL. */
  ghost predicate Chain(next: Next, p: Ptr, s: seq<Ptr>) {
    && Distinct(s) && Linked(next, s)
    && (if s == [] then p == 0 else p == s[0] && next[s[|s| - 1]] == 0)
  }

  /** The list holds s; what its last link holds does not matter. */
  ghost predicate Holds(next: Next, l: SegmentList, s: seq<Ptr>) {
    && Distinct(s) && Linked(next, s)
    && (if s == [] then l.last == None else l.head == s[0] && l.last == Some(s[|s| - 1]))
  }

  /** Writing the last link of l. */
  function SetLast(next: Next, l: SegmentList, p: Ptr): (Next, SegmentList) {
    match l.last
    case None => (next, l.(head := p))
    case Some(q) => (next[q := p], l)
  }

  lemma OtherLinked(next: Next, q: Ptr, p: Ptr, s: seq<Ptr>)
    requires Linked(next, s) && (q !in s || (s != [] && q == s[|s| - 1] && Distinct(s)))
    ensures Linked(next[q := p], s)
  {
  }

  /** LIST_APPEND. */
  function Append(next: Next, l: SegmentList, item: Ptr): (Next, SegmentList) {
    var (n, l') := SetLast(next, l, item);
    (n, l'.(last := Some(item)))
  }

  lemma AppendHolds(next: Next, l: SegmentList, s: seq<Ptr>, item: Ptr)
    requires Holds(next, l, s) && item != 0 && item !in s && item in next
    ensures Holds(Append(next, l, item).0, Append(next, l, item).1, s + [item])
  {
    var n := Append(next, l, item).0;
    var r := s + [item];
    if s != [] {
      OtherLinked(next, s[|s| - 1], item, s);
      forall i, j | 0 <= i && j == i + 1 && j < |r| ensures n[r[i]] == r[j] {
      }
    }
  }

  ghost predicate Apart(a: seq<Ptr>, b: seq<Ptr>) { forall p :: p in a ==> p !in b }

  /** Other lists, and chains, are not affected by an append. */
  lemma AppendKeeps(next: Next, l: SegmentList, s: seq<Ptr>, item: Ptr, r: seq<Ptr>)
    requires Holds(next, l, s) && Apart(s, r)
    ensures var n := Append(next, l, item).0;
            && (Linked(next, r) ==> Linked(n, r))
            && (forall p :: p in r && p in next ==> p in n && n[p] == next[p])
            && (forall l2 :: Holds(next, l2, r) ==> Holds(n, l2, r))
            && (forall p :: Chain(next, p, r) ==> Chain(n, p, r))
  {
    if s != [] {
      assert s[|s| - 1] in s;
    }
  }

  /** LIST_FINISH with NULL. */
  lemma FinishChains(next: Next, l: SegmentList, s: seq<Ptr>)
    requires Holds(next, l, s)
    ensures Chain(SetLast(next, l, 0).0, SetLast(next, l, 0).1.head, s)
  {
    if s != [] { OtherLinked(next, s[|s| - 1], 0, s); }
  }

  /** segment_list_pop. */
  function Pop(next: Next, l: SegmentList): (Option<Ptr>, SegmentList)
    requires l.last != None && l.last != Some(l.head) ==> l.head in next
  {
    if l.last == None then (None, l)
    else if l.last == Some(l.head) then (Some(l.head), Empty())
    else (Some(l.head), l.(head := next[l.head]))
  }

  lemma PopTakesTheFirst(next: Next, l: SegmentList, s: seq<Ptr>)
    requires Holds(next, l, s)
    ensures l.last != None && l.last != Some(l.head) ==> l.head in next
    ensures var (seg, r) := Pop(next, l);
            if s == [] then seg == None && Holds(next, r, s) else seg == Some(s[0]) && Holds(next, r, s[1..])
  {
    if |s| > 1 { assert s[0] in s && s[1..][|s| - 2] == s[|s| - 1] != s[0]; }
  }

  // ---------------------------------------------------------------- the reclamation of a sub-heap

  /** What the collector left of a segment: its free blocks, of how many, and how far it had been handed out. */
  datatype Info = Info(free: nat, blocks: nat, snapshot: Snapshot)

  datatype Fate = Free | Partial | Filled

  /** What becomes of a segment of the partial list. */
  function FateOfPartial(x: Info): Fate { if x.free == x.blocks then Free else Partial }

  /** What becomes of a segment of the filled list: one that was handed out during the cycle stays filled. */
  function FateOfFilled(x: Info): Fate {
    if x.snapshot != AtLimit || x.free == 0 then Filled
    else if x.free == x.blocks then Free
    else Partial
  }

  function FateOf(x: Info, wasFilled: bool): Fate { if wasFilled then FateOfFilled(x) else FateOfPartial(x) }

  /** The segments of s with this fate. */
  function Fates(s: seq<Ptr>, info: map<Ptr, Info>, wasFilled: bool, fate: Fate): (r: seq<Ptr>)
    requires forall p :: p in s ==> p in info
  {
    if s == [] then []
    else
      var n := |s| - 1;
      Fates(s[..n], info, wasFilled, fate) + if FateOf(info[s[n]], wasFilled) == fate then [s[n]] else []
  }

  lemma {:induction false} FatesSelect(s: seq<Ptr>, info: map<Ptr, Info>, wasFilled: bool, fate: Fate, p: Ptr)
    requires forall p :: p in s ==> p in info
    ensures p in Fates(s, info, wasFilled, fate) <==> p in s && FateOf(info[p], wasFilled) == fate
  {
    hide FateOf;
    if s != [] {
      FatesSelect(s[..|s| - 1], info, wasFilled, fate, p);
      assert s == s[..|s| - 1] + [s[|s| - 1]];
    }
  }

  /** Every segment has one fate: none is lost and none is in two lists. */
  lemma {:induction false} FatesPartition(s: seq<Ptr>, info: map<Ptr, Info>, wasFilled: bool)
    requires forall p :: p in s ==> p in info
    ensures multiset(s) == multiset(Fates(s, info, wasFilled, Free)) + multiset(Fates(s, info, wasFilled, Partial))
                           + multiset(Fates(s, info, wasFilled, Filled))
  {
    hide FateOf, Fates;
    if s == [] {
      NoFates(info, wasFilled);
    } else {
      var n := |s| - 1;
      FatesPartition(s[..n], info, wasFilled);
      assert s == s[..n] + [s[n]];
      FatesStep(s, info, wasFilled, Free);
      FatesStep(s, info, wasFilled, Partial);
      FatesStep(s, info, wasFilled, Filled);
      OneOfThree(FateOf(info[s[n]], wasFilled), s[n]);
    }
  }

  lemma OneOfThree(f: Fate, p: Ptr)
    ensures (if f == Free then multiset{p} else multiset{}) + (if f == Partial then multiset{p} else multiset{})
            + (if f == Filled then multiset{p} else multiset{}) == multiset{p}
  {
  }

  lemma NoFates(info: map<Ptr, Info>, wasFilled: bool)
    ensures forall f :: Fates([], info, wasFilled, f) == []
  {
  }

  lemma FatesStep(s: seq<Ptr>, info: map<Ptr, Info>, wasFilled: bool, fate: Fate)
    requires s != [] && forall p :: p in s ==> p in info
    ensures var n := |s| - 1;
            multiset(Fates(s, info, wasFilled, fate))
            == multiset(Fates(s[..n], info, wasFilled, fate))
               + if FateOf(info[s[n]], wasFilled) == fate then multiset{s[n]} else multiset{}
  {
    hide FateOf;
  }

  lemma ChainTail(next: Next, p: Ptr, s: seq<Ptr>)
    requires Chain(next, p, s) && s != []
    ensures p in next && p != 0 && p !in s[1..] && Chain(next, next[p], s[1..])
  {
  }

  /** The lists in the middle of a walk, all apart from each other: those being built, the rest of the chain walked
      over, and another chain. */
  ghost predicate Walking(next: Next, tag: map<Ptr, nat>, f: SegmentList, fs: seq<Ptr>, p: SegmentList, ps: seq<Ptr>,
                          q: SegmentList, qs: seq<Ptr>, seg: Ptr, rest: seq<Ptr>, other: Ptr, os: seq<Ptr>) {
    && Holds(next, f, fs) && Holds(next, p, ps) && Holds(next, q, qs) && Chain(next, seg, rest)
    && Chain(next, other, os)
    && Tagged(tag, fs, 0) && Tagged(tag, ps, 1) && Tagged(tag, qs, 2) && Tagged(tag, rest, 3) && Tagged(tag, os, 4)
  }

  ghost predicate Tagged(tag: map<Ptr, nat>, s: seq<Ptr>, k: nat) { forall p :: p in s ==> p in tag && tag[p] == k }

  lemma TagApart(tag: map<Ptr, nat>, a: seq<Ptr>, i: nat, b: seq<Ptr>, j: nat)
    requires Tagged(tag, a, i) && Tagged(tag, b, j) && i != j
    ensures Apart(a, b)
  {
  }

  /** The segment under the walk goes to the end of one of the lists. */
  lemma ToFree(next: Next, tag: map<Ptr, nat>, f: SegmentList, fs: seq<Ptr>, p: SegmentList, ps: seq<Ptr>,
               q: SegmentList, qs: seq<Ptr>, seg: Ptr, rest: seq<Ptr>, other: Ptr, os: seq<Ptr>)
    requires Walking(next, tag, f, fs, p, ps, q, qs, seg, rest, other, os) && rest != []
    ensures seg in next
    ensures var (n, l) := Append(next, f, seg);
            seg in n && Walking(n, tag[seg := 0], l, fs + [seg], p, ps, q, qs, n[seg], rest[1..], other, os)
  {
    hide Holds, Chain, Linked, Distinct, Append;
    Moves(next, tag, f, fs, 0, seg, rest);
    Stays(next, tag, f, fs, 0, seg, rest, ps, 1);
    Stays(next, tag, f, fs, 0, seg, rest, qs, 2);
    Stays(next, tag, f, fs, 0, seg, rest, os, 4);
  }

  lemma ToPartial(next: Next, tag: map<Ptr, nat>, f: SegmentList, fs: seq<Ptr>, p: SegmentList, ps: seq<Ptr>,
                  q: SegmentList, qs: seq<Ptr>, seg: Ptr, rest: seq<Ptr>, other: Ptr, os: seq<Ptr>)
    requires Walking(next, tag, f, fs, p, ps, q, qs, seg, rest, other, os) && rest != []
    ensures seg in next
    ensures var (n, l) := Append(next, p, seg);
            seg in n && Walking(n, tag[seg := 1], f, fs, l, ps + [seg], q, qs, n[seg], rest[1..], other, os)
  {
    hide Holds, Chain, Linked, Distinct, Append;
    Moves(next, tag, p, ps, 1, seg, rest);
    Stays(next, tag, p, ps, 1, seg, rest, fs, 0);
    Stays(next, tag, p, ps, 1, seg, rest, qs, 2);
    Stays(next, tag, p, ps, 1, seg, rest, os, 4);
  }

  lemma ToFilled(next: Next, tag: map<Ptr, nat>, f: SegmentList, fs: seq<Ptr>, p: SegmentList, ps: seq<Ptr>,
                 q: SegmentList, qs: seq<Ptr>, seg: Ptr, rest: seq<Ptr>, other: Ptr, os: seq<Ptr>)
    requires Walking(next, tag, f, fs, p, ps, q, qs, seg, rest, other, os) && rest != []
    ensures seg in next
    ensures var (n, l) := Append(next, q, seg);
            seg in n && Walking(n, tag[seg := 2], f, fs, p, ps, l, qs + [seg], n[seg], rest[1..], other, os)
  {
    hide Holds, Chain, Linked, Distinct, Append;
    Moves(next, tag, q, qs, 2, seg, rest);
    Stays(next, tag, q, qs, 2, seg, rest, fs, 0);
    Stays(next, tag, q, qs, 2, seg, rest, ps, 1);
    Stays(next, tag, q, qs, 2, seg, rest, os, 4);
  }

  lemma Moves(next: Next, tag: map<Ptr, nat>, l: SegmentList, s: seq<Ptr>, k: nat, seg: Ptr, rest: seq<Ptr>)
    requires Holds(next, l, s) && Chain(next, seg, rest) && rest != []
    requires Tagged(tag, s, k) && Tagged(tag, rest, 3) && k != 3
    ensures seg in next && seg in Append(next, l, seg).0
    ensures Holds(Append(next, l, seg).0, Append(next, l, seg).1, s + [seg])
    ensures Chain(Append(next, l, seg).0, Append(next, l, seg).0[seg], rest[1..])
    ensures Tagged(tag[seg := k], s + [seg], k) && Tagged(tag[seg := k], rest[1..], 3)
  {
    ChainTail(next, seg, rest);
    assert seg == rest[0];
    TagApart(tag, s, k, rest, 3);
    AppendHolds(next, l, s, seg);
    AppendKeeps(next, l, s, seg, rest[1..]);
    AppendKeeps(next, l, s, seg, [seg]);
  }

  lemma Stays(next: Next, tag: map<Ptr, nat>, l: SegmentList, s: seq<Ptr>, k: nat, seg: Ptr, rest: seq<Ptr>,
              r: seq<Ptr>, m: nat)
    requires Holds(next, l, s) && Chain(next, seg, rest) && rest != []
    requires Tagged(tag, s, k) && Tagged(tag, rest, 3) && Tagged(tag, r, m) && m != 3 && m != k
    ensures forall l2 :: Holds(next, l2, r) ==> Holds(Append(next, l, seg).0, l2, r)
    ensures forall p :: Chain(next, p, r) ==> Chain(Append(next, l, seg).0, p, r)
    ensures Tagged(tag[seg := k], r, m)
  {
    assert seg == rest[0];
    TagApart(tag, s, k, r, m);
    AppendKeeps(next, l, s, seg, r);
  }

  lemma StartWalk(next: Next, f: SegmentList, fs: seq<Ptr>, p: Ptr, ps: seq<Ptr>, q: Ptr, qs: seq<Ptr>)
      returns (tag: map<Ptr, nat>)
    requires Holds(next, f, fs) && Chain(next, p, ps) && Chain(next, q, qs)
    requires Apart(fs, ps) && Apart(fs, qs) && Apart(ps, qs)
    ensures Walking(next, tag, f, fs, Empty(), [], Empty(), [], p, ps, q, qs)
  {
    hide Chain;
    tag := map x | x in fs + ps + qs :: if x in fs then 0 else if x in ps then 3 else 4;
  }

  /** Between the two loops the filled list becomes the chain to walk over. */
  lemma Turn(next: Next, tag0: map<Ptr, nat>, f: SegmentList, fs: seq<Ptr>, p: SegmentList, ps: seq<Ptr>, q: Ptr,
             qs: seq<Ptr>)
    returns (tag: map<Ptr, nat>)
    requires Walking(next, tag0, f, fs, p, ps, Empty(), [], 0, [], q, qs)
    ensures Walking(next, tag, f, fs, p, ps, Empty(), [], q, qs, 0, [])
  {
    hide Holds;
    tag := map x | x in tag0 :: if tag0[x] == 4 then 3 else tag0[x];
  }

  /** LIST_FINISH for the partial and then for the filled list. */
  lemma EndWalk(next: Next, tag: map<Ptr, nat>, f: SegmentList, fs: seq<Ptr>, p: SegmentList, ps: seq<Ptr>,
                q: SegmentList, qs: seq<Ptr>)
    requires Walking(next, tag, f, fs, p, ps, q, qs, 0, [], 0, [])
    ensures var (n, l) := SetLast(next, p, 0);
            var (n', l') := SetLast(n, q, 0);
            Holds(n', f, fs) && Chain(n', l.head, ps) && Chain(n', l'.head, qs)
  {
    TagApart(tag, ps, 1, fs, 0);
    TagApart(tag, ps, 1, qs, 2);
    TagApart(tag, qs, 2, fs, 0);
    TagApart(tag, qs, 2, ps, 1);
    FinishChains(next, p, ps);
    SetLastKeeps(next, p, ps, fs, 0);
    SetLastKeeps(next, p, ps, qs, 0);
    hide Holds, Chain, Linked, SetLast, Apart, Tagged;
    var n := SetLast(next, p, 0).0;
    FinishChains(n, q, qs);
    SetLastKeeps(n, q, qs, fs, 0);
    SetLastKeeps(n, q, qs, ps, 0);
  }

  lemma SetLastKeeps(next: Next, l: SegmentList, s: seq<Ptr>, r: seq<Ptr>, v: Ptr)
    requires Holds(next, l, s) && Apart(s, r)
    ensures var n := SetLast(next, l, v).0;
            && (forall l2 :: Holds(next, l2, r) ==> Holds(n, l2, r))
            && (forall p :: Chain(next, p, r) ==> Chain(n, p, r))
  {
    if s != [] { assert s[|s| - 1] in s; }
  }

  /** Nothing is lost and nothing is duplicated by the reclamation. */
  lemma ReclaimPartitions(fs: seq<Ptr>, ps: seq<Ptr>, qs: seq<Ptr>, info: map<Ptr, Info>)
    requires forall p :: p in ps + qs ==> p in info
    ensures (forall p :: p in ps ==> p in info) && (forall p :: p in qs ==> p in info)
    ensures multiset(fs + ps + qs)
            == multiset(fs + Fates(ps, info, false, Free) + Fates(qs, info, true, Free))
               + multiset(Fates(ps, info, false, Partial) + Fates(qs, info, true, Partial))
                 + multiset(Fates(qs, info, true, Filled))
  {
    hide Fates;
    assert forall p :: p in ps ==> p in ps + qs;
    assert forall p :: p in qs ==> p in ps + qs;
    FatesPartition(ps, info, false);
    FatesPartition(qs, info, true);
    NoneFilled(ps, info);
  }

  lemma {:induction false} NoneFilled(ps: seq<Ptr>, info: map<Ptr, Info>)
    requires forall p :: p in ps ==> p in info
    ensures Fates(ps, info, false, Filled) == []
  {
    if ps != [] { NoneFilled(ps[..|ps| - 1], info); }
  }

  lemma DistinctChain(next: Next, tag: map<Ptr, nat>, f: SegmentList, fs: seq<Ptr>, p: SegmentList, ps: seq<Ptr>,
                      q: SegmentList, qs: seq<Ptr>, seg: Ptr, rest: seq<Ptr>, other: Ptr, os: seq<Ptr>)
    requires Walking(next, tag, f, fs, p, ps, q, qs, seg, rest, other, os)
    ensures Distinct(rest)
  {
  }

  /** LIST_INIT. */
  function Empty(): SegmentList { SegmentList(0, None) }

  lemma NextFates(s: seq<Ptr>, info: map<Ptr, Info>, wasFilled: bool, i: nat, start: seq<Ptr>)
    requires i < |s| && forall p :: p in s ==> p in info
    ensures forall fate :: Fates(s[..i + 1], info, wasFilled, fate)
                           == Add(Fates(s[..i], info, wasFilled, fate), s[i], FateOf(info[s[i]], wasFilled) == fate)
    ensures forall fate :: start + Fates(s[..i + 1], info, wasFilled, fate)
                           == Add(start + Fates(s[..i], info, wasFilled, fate), s[i],
                                  FateOf(info[s[i]], wasFilled) == fate)
  {
    assert s[..i + 1][..i] == s[..i];
  }

  function Add(s: seq<Ptr>, p: Ptr, b: bool): seq<Ptr> { if b then s + [p] else s }

  lemma WalkAt(next: Next, tag: map<Ptr, nat>, f: SegmentList, fs: seq<Ptr>, p: SegmentList, ps: seq<Ptr>,
               q: SegmentList, qs: seq<Ptr>, seg: Ptr, rest: seq<Ptr>, other: Ptr, os: seq<Ptr>)
    requires Walking(next, tag, f, fs, p, ps, q, qs, seg, rest, other, os)
    ensures if rest == [] then seg == 0 else seg == rest[0] && seg != 0
  {
  }

  // ---------------------------------------------------------------- the sweep of the sequential collector

  /** A list that ends where a chain begins is one chain. */
  lemma JoinChains(next: Next, l: SegmentList, s: seq<Ptr>, p: Ptr, r: seq<Ptr>)
    requires Holds(next, l, s) && Chain(next, p, r) && Apart(s, r)
    ensures Chain(SetLast(next, l, p).0, SetLast(next, l, p).1.head, s + r)
  {
    var n := SetLast(next, l, p).0;
    var u := s + r;
    forall i, j | 0 <= i < j < |u| ensures u[i] != u[j] {
      if i < |s| <= j { assert u[i] in s && u[j] in r; }
    }
    if s != [] {
      assert s[|s| - 1] in s;
      OtherLinked(next, s[|s| - 1], p, s);
      OtherLinked(next, s[|s| - 1], p, r);
      forall i, j | 0 <= i && j == i + 1 && j < |u| ensures n[u[i]] == u[j] {
        if j < |s| { assert u[i] == s[i] && u[j] == s[j]; }
        if i >= |s| { assert u[i] == r[i - |s|] && u[j] == r[j - |s|]; }
      }
    }
  }

  /** One sub-heap of heap_bitmap.c: all its segments have the same number of blocks. */
  class SweptSubheap {
    var next: Next
    var live: map<Ptr, nat>
    var seglist: Ptr
    var unreserved: Option<Ptr>
    const blocks: nat

    constructor (next: Next, live: map<Ptr, nat>, seglist: Ptr, blocks: nat)
      ensures this.next == next && this.live == live && this.seglist == seglist && this.blocks == blocks
    {
      this.next, this.live, this.seglist, this.blocks, unreserved := next, live, seglist, blocks, None;
    }

    /** sweep files by the number of free blocks, as reclaim_subheap does for segments that may be given out again. */
    function Counts(): map<Ptr, Info>
      reads this
    {
      map p <- live :: Info(if live[p] <= blocks then blocks - live[p] else 0, blocks, AtLimit)
    }

    /** The slot unreserved points to. */
    function Unreserved(): Ptr
      reads this
    {
      match unreserved
      case None => seglist
      case Some(p) => if p in next then next[p] else 0
    }

    /** The loop of sweep over one sub-heap: full segments first, the others behind them, the empty ones to the free
        list; other is any chain apart from these, such as the free list so far. */
    method Sweep(free0: SegmentList, ghost fs: seq<Ptr>, ghost ss: seq<Ptr>, other: Ptr, ghost os: seq<Ptr>)
        returns (free: SegmentList)
      requires Holds(next, free0, fs) && Chain(next, seglist, ss) && Chain(next, other, os)
      requires Apart(fs, ss) && Apart(fs, os) && Apart(ss, os) && forall p :: p in ss ==> p in live && live[p] <= blocks
      modifies this
      ensures Counts() == old(Counts()) && forall p :: p in ss ==> p in Counts()
      ensures Holds(next, free, fs + Fates(ss, Counts(), true, Free)) && Chain(next, other, os)
      ensures Chain(next, seglist, Fates(ss, Counts(), true, Filled) + Fates(ss, Counts(), true, Partial))
      ensures Chain(next, Unreserved(), Fates(ss, Counts(), true, Partial))
    {
      hide Walking, Chain, Append, FateOf, Fates, Add, Distinct, Holds;
      ghost var info := Counts();
      NoFates(info, true);
      ghost var tag := StartWalk(next, free0, fs, seglist, ss, other, os);
      free := free0;
      var filled, unfilled := Empty(), Empty();
      var seg := seglist;
      ghost var i := 0;
      assert ss[..0] == [] && ss[0..] == ss && fs + [] == fs;
      WalkAt(next, tag, free, fs, unfilled, [], filled, [], seg, ss, other, os);
      while seg != 0
        invariant i <= |ss| && (seg == 0 <==> i == |ss|) && (i < |ss| ==> seg == ss[i])
        invariant Walking(next, tag, free, fs + Fates(ss[..i], info, true, Free),
                          unfilled, Fates(ss[..i], info, true, Partial),
                          filled, Fates(ss[..i], info, true, Filled), seg, ss[i..], other, os)
        invariant (unfilled.last == None ==> unfilled.head == 0) && live == old(live)
        decreases |ss| - i
      {
        ghost var f, k, u := fs + Fates(ss[..i], info, true, Free), Fates(ss[..i], info, true, Partial),
          Fates(ss[..i], info, true, Filled);
        NextFates(ss, info, true, i, fs);
        assert ss[i..][1..] == ss[i + 1..] && ss[i..] != [];
        assert seg in ss && Counts() == info;
        free, unfilled, filled, tag := File(seg, free, unfilled, filled, f, k, u, ss[i..], tag, other, os);
        seg := next[seg];
        i := i + 1;
        WalkAt(next, tag, free, fs + Fates(ss[..i], info, true, Free), unfilled, Fates(ss[..i], info, true, Partial),
               filled, Fates(ss[..i], info, true, Filled), seg, ss[i..], other, os);
      }
      assert ss[..|ss|] == ss && ss[|ss|..] == [];
      ghost var f, k, u := fs + Fates(ss, info, true, Free), Fates(ss, info, true, Partial),
        Fates(ss, info, true, Filled);
      EndSweep(next, tag, free, f, unfilled, k, filled, u, other, os);
      var (n, l) := SetLast(next, filled, unfilled.head);
      var (n', l') := SetLast(n, unfilled, 0);
      next, seglist, unreserved := n', l.head, filled.last;
    }

    /** The end of sweep: the segments that became free come before the old free list. */
    method PutBack(free: SegmentList, ghost fs: seq<Ptr>, freelist: Ptr, ghost os: seq<Ptr>) returns (head: Ptr)
      requires Holds(next, free, fs) && Chain(next, freelist, os) && Apart(fs, os)
      modifies this`next
      ensures Chain(next, head, fs + os)
    {
      JoinChains(next, free, fs, freelist, os);
      var (n, l) := SetLast(next, free, freelist);
      next, head := n, l.head;
    }

    /** One segment goes where it belongs. */
    method File(seg: Ptr, free0: SegmentList, unfilled0: SegmentList, filled0: SegmentList, ghost f: seq<Ptr>,
                ghost k: seq<Ptr>, ghost u: seq<Ptr>, ghost rest: seq<Ptr>, ghost tag0: map<Ptr, nat>, ghost other: Ptr,
                ghost os: seq<Ptr>)
      returns (free: SegmentList, unfilled: SegmentList, filled: SegmentList, ghost tag: map<Ptr, nat>)
      requires Walking(next, tag0, free0, f, unfilled0, k, filled0, u, seg, rest, other, os) && rest != []
      requires seg in live && live[seg] <= blocks && (unfilled0.last == None ==> unfilled0.head == 0)
      modifies this`next
      ensures seg in next && seg in Counts() && (unfilled.last == None ==> unfilled.head == 0)
      ensures var fate := FateOf(Counts()[seg], true);
              Walking(next, tag, free, Add(f, seg, fate == Free), unfilled, Add(k, seg, fate == Partial), filled,
                      Add(u, seg, fate == Filled), next[seg], rest[1..], other, os)
    {
      hide Walking;
      free, unfilled, filled := free0, unfilled0, filled0;
      if live[seg] == blocks {
        ToFilled(next, tag0, free, f, unfilled, k, filled, u, seg, rest, other, os);
        var (n, l) := Append(next, filled, seg);
        next, filled, tag := n, l, tag0[seg := 2];
      } else if live[seg] > 0 {
        ToPartial(next, tag0, free, f, unfilled, k, filled, u, seg, rest, other, os);
        var (n, l) := Append(next, unfilled, seg);
        next, unfilled, tag := n, l, tag0[seg := 1];
      } else {
        ToFree(next, tag0, free, f, unfilled, k, filled, u, seg, rest, other, os);
        var (n, l) := Append(next, free, seg);
        next, free, tag := n, l, tag0[seg := 0];
      }
    }
  }

  /** The two writes that join the full and the other segments. */
  lemma EndSweep(next: Next, tag: map<Ptr, nat>, f: SegmentList, fs: seq<Ptr>, p: SegmentList, ps: seq<Ptr>,
                 q: SegmentList, qs: seq<Ptr>, other: Ptr, os: seq<Ptr>)
    requires Walking(next, tag, f, fs, p, ps, q, qs, 0, [], other, os) && (p.last == None ==> p.head == 0)
    ensures var (n, l) := SetLast(next, q, p.head);
            var n' := SetLast(n, p, 0).0;
            && Holds(n', f, fs) && Chain(n', other, os) && Chain(n', l.head, qs + ps)
            && Chain(n', match q.last case None => l.head case Some(x) => if x in n' then n'[x] else 0, ps)
  {
    TagApart(tag, ps, 1, fs, 0);
    TagApart(tag, ps, 1, qs, 2);
    TagApart(tag, ps, 1, os, 4);
    TagApart(tag, qs, 2, fs, 0);
    TagApart(tag, qs, 2, ps, 1);
    TagApart(tag, qs, 2, os, 4);
    hide Tagged;
    // the two writes go to different links
    var n1 := SetLast(next, p, 0).0;
    assert SetLast(next, p, 0).1.head == p.head;
    FinishChains(next, p, ps);
    SetLastKeeps(next, p, ps, fs, 0);
    SetLastKeeps(next, p, ps, qs, 0);
    SetLastKeeps(next, p, ps, os, 0);
    Commute(next, p, ps, q, qs);
    hide Chain, Holds, Linked, SetLast, Apart;
    JoinChains(n1, q, qs, p.head, ps);
    SetLastKeeps(n1, q, qs, fs, p.head);
    SetLastKeeps(n1, q, qs, os, p.head);
    SetLastKeeps(n1, q, qs, ps, p.head);
    LastLink(n1, q, qs, p.head);
  }

  lemma Commute(next: Next, p: SegmentList, ps: seq<Ptr>, q: SegmentList, qs: seq<Ptr>)
    requires Holds(next, p, ps) && Holds(next, q, qs) && Apart(ps, qs)
    ensures SetLast(SetLast(next, p, 0).0, q, p.head) ==
            (SetLast(SetLast(next, q, p.head).0, p, 0).0, SetLast(next, q, p.head).1)
  {
    if ps != [] { assert ps[|ps| - 1] in ps; }
    if qs != [] { assert qs[|qs| - 1] in qs; }
    if ps != [] && qs != [] {
      var a, b := ps[|ps| - 1], qs[|qs| - 1];
      assert next[a := 0][b := p.head] == next[b := p.head][a := 0];
    }
  }

  lemma LastLink(next: Next, q: SegmentList, qs: seq<Ptr>, p: Ptr)
    requires Holds(next, q, qs)
    ensures var (n, l) := SetLast(next, q, p);
            (match q.last case None => l.head case Some(x) => if x in n then n[x] else 0) == p
  {
  }
}
