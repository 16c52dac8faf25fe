/**
 One sub-heap of a worker, heap_concurrent.c: its partial and filled segments and the one under the allocation
 pointer, with their bitmaps and snapshots, over any number of allocations, snapshots and reclamations.

 Module Bitmap shows how the bits are found and copied word by word; here a bitmap is the sequence of its bits.
 */
module Subheaps {
  import opened Segments
  import opened Wrappers
  import Bitmap

  // ---------------------------------------------------------------- segments

  /** bitmap[0], the collect bitmap, and the number of the block allocptr_snapshot points to. */
  datatype Seg = Seg(used: seq<bool>, collect: seq<bool>, snapshot: nat)

  predicate SegOk(x: Seg) { |x.used| == |x.collect| > 0 && x.snapshot <= |x.used| }

  function NoBits(n: nat): seq<bool> { seq(n, _ => false) }

  /** free_count of a whole segment. */
  function FreeCount(bits: seq<bool>): (n: nat)
    ensures n <= |bits|
  {
    if bits == [] then 0 else FreeCount(bits[..|bits| - 1]) + if bits[|bits| - 1] then 0 else 1
  }

  lemma {:induction false} CountIs(bits: seq<bool>)
    ensures FreeCount(bits) == |bits| <==> forall i :: 0 <= i < |bits| ==> !bits[i]
    ensures FreeCount(bits) == 0 <==> forall i :: 0 <= i < |bits| ==> bits[i]
  {
    if bits != [] {
      CountIs(bits[..|bits| - 1]);
    }
  }

  /** The clear bits from a on, in ascending order. */
  function ClearFrom(bits: seq<bool>, a: nat): seq<nat>
    decreases |bits| - a
  {
    if a >= |bits| then [] else (if bits[a] then [] else [a]) + ClearFrom(bits, a + 1)
  }

  lemma {:induction false} ClearFromIs(bits: seq<bool>, a: nat, i: nat)
    ensures i in ClearFrom(bits, a) <==> a <= i < |bits| && !bits[i]
    decreases |bits| - a
  {
    if a < |bits| { ClearFromIs(bits, a + 1, i); }
  }

  lemma {:induction false} ClearFromNext(bits: seq<bool>, a: nat, i: nat)
    requires a <= i <= |bits| && forall j :: a <= j < i ==> bits[j]
    ensures ClearFrom(bits, a) == if i == |bits| then [] else if bits[i] then ClearFrom(bits, i + 1)
            else [i] + ClearFrom(bits, i + 1)
    decreases i - a
  {
    if a < i { ClearFromNext(bits, a + 1, i); }
  }

  /** The bits of the n blocks in the words of a bitmap. */
  function Blocks(ws: seq<bv32>, n: nat): seq<bool>
    requires n <= 32 * |ws|
  {
    seq(n, i requires 0 <= i < n => Bitmap.BitAt(ws, i))
  }

  /** What an allocation pointer of module Bitmap will hand out is what the one of this module will. */
  lemma {:induction false} SameLeft(ws: seq<bv32>, n: nat, a: nat)
    requires Bitmap.Sentinels(ws, n)
    ensures Bitmap.Clear(ws, a) == ClearFrom(Blocks(ws, n), a)
    decreases 32 * |ws| - a
  {
    if a < 32 * |ws| { SameLeft(ws, n, a + 1); }
  }

  /** copy_collect_bitmap, word by word or bit by bit. */
  lemma SameCopy(ws: seq<bv32>, cs: seq<bv32>, n: nat)
    requires n <= 32 * |ws| && n <= 32 * |cs|
             && forall i :: 0 <= i < n ==> (Bitmap.BitAt(ws, i) <==> Bitmap.BitAt(cs, i))
    ensures Blocks(ws, n) == Blocks(cs, n)
  {
  }

  // ---------------------------------------------------------------- objects in a segment

  /** The test of visit: a block that is not marked in the bitmap and lies behind the snapshot is no target. */
  predicate Target(x: Seg, i: nat)
    requires i < |x.used|
  {
    x.used[i] || i < x.snapshot
  }

  /** Of the blocks that hold objects, exactly those allocated after the snapshot are no targets; and no other block has
      its bit set or is marked. */
  ghost predicate Tells(x: Seg, objs: set<nat>, young: set<nat>) {
    && young <= objs && (forall i :: i in objs ==> i < |x.used| && (i in young <==> !Target(x, i)))
    && (forall i: nat :: i < |x.used| && x.used[i] ==> i in objs)
    && forall i: nat :: i < |x.collect| && x.collect[i] ==> i in objs
  }

  /** No block from a on that holds an object is clear. */
  ghost predicate Spares(x: Seg, objs: set<nat>, a: nat) {
    forall i :: i in objs && a <= i < |x.used| ==> x.used[i]
  }

  /** What the collector lets live: what it has marked and what was allocated after the snapshot. */
  ghost predicate IsLive(x: Seg, young: set<nat>, objs: set<nat>) {
    forall i: nat :: i in objs <==> i < |x.collect| && (x.collect[i] || i in young)
  }

  /** A segment with the blocks that hold objects and those of them that were allocated after the snapshot. */
  datatype Load = Load(x: Seg, objs: set<nat>, young: set<nat>)

  /** A segment of the partial list has not been handed out: its clear bits hold no object. */
  ghost predicate PartialOk(l: Load) {
    SegOk(l.x) && l.x.snapshot == 0 && l.young == {} && Tells(l.x, l.objs, l.young) && Spares(l.x, l.objs, 0)
  }

  /** Before the snapshot is taken (early) everything in a filled segment is a target. */
  ghost predicate FilledOk(l: Load, early: bool) {
    SegOk(l.x) && Tells(l.x, l.objs, l.young) && (early ==> l.young == {} && l.x.snapshot == |l.x.used|)
  }

  /** The clear bits from the allocation pointer on hold no object. */
  ghost predicate CurrentOk(l: Load, at: nat, early: bool) {
    && SegOk(l.x) && Tells(l.x, l.objs, l.young) && at <= |l.x.used| && Spares(l.x, l.objs, at)
    && if early then l.young == {} && l.x.snapshot == |l.x.used| else l.x.snapshot <= at
  }

  function Limit(x: Seg, early: bool): Seg { if early then x.(snapshot := |x.used|) else x }

  lemma Started(l: Load, early: bool)
    requires PartialOk(l)
    ensures CurrentOk(l.(x := Limit(l.x, early)), 0, early)
  {
  }

  lemma Released(l: Load, at: nat, early: bool)
    requires CurrentOk(l, at, early)
    ensures Limit(l.x, early) == l.x && FilledOk(l, early)
  {
  }

  lemma Handed(l: Load, at: nat, early: bool, i: nat)
    requires CurrentOk(l, at, early) && at <= i < |l.x.used| && !l.x.used[i]
    ensures i !in l.objs
    ensures CurrentOk(l.(objs := l.objs + {i}, young := l.young + if early then {} else {i}), i + 1, early)
  {
  }

  lemma Saved(l: Load, at: nat)
    requires CurrentOk(l, at, true)
    ensures CurrentOk(l.(x := l.x.(snapshot := at)), at, false)
  {
  }

  lemma Visited(l: Load, i: nat, at: nat, early: bool)
    requires i in l.objs && Tells(l.x, l.objs, l.young) && SegOk(l.x)
    ensures Target(l.x, i) <==> i !in l.young
    ensures var y := l.x.(collect := l.x.collect[i := true]);
            && SegOk(y) && Tells(y, l.objs, l.young) && (PartialOk(l) ==> PartialOk(l.(x := y)))
            && (FilledOk(l, early) ==> FilledOk(l.(x := y), early))
            && (CurrentOk(l, at, early) ==> CurrentOk(l.(x := y), at, early))
  {
  }

  // ---------------------------------------------------------------- reclaiming a segment

  /** What reclaim_subheap sees of a segment. */
  function InfoOf(x: Seg): Info {
    Info(FreeCount(x.collect), |x.collect|, if x.snapshot >= |x.used| then AtLimit else if x.snapshot == 0 then AtBase
         else Inside)
  }

  function InfosOf(segs: map<Ptr, Seg>): map<Ptr, Info> { map p <- segs :: InfoOf(segs[p]) }

  /** copy_collect_bitmap and clear_collect_bitmap. */
  function Copied(x: Seg): Seg { x.(used := x.collect) }

  function Wiped(x: Seg): Seg { x.(collect := NoBits(|x.collect|)) }

  function Reclaimed(x: Seg, wasFilled: bool): Seg {
    Wiped(Copied(x)).(snapshot := if !wasFilled then x.snapshot else if FateOf(InfoOf(x), true) == Filled then |x.used|
                      else 0)
  }

  /** A segment without marks needs no wiping. */
  lemma NothingToWipe(x: Seg)
    requires FreeCount(x.collect) == |x.collect|
    ensures Wiped(x) == x
  {
    CountIs(x.collect);
  }

  /** A segment that has not been handed out since the last reclamation. */
  lemma PartialReclaimed(x: Seg, objs: set<nat>, young: set<nat>, live: set<nat>)
    requires SegOk(x) && Tells(x, objs, young) && Spares(x, objs, 0) && IsLive(x, young, live) && x.snapshot == 0
    ensures var y := Reclaimed(x, false);
            SegOk(y) && Tells(y, live, {}) && Spares(y, live, 0) && y.snapshot == 0
            && (FateOf(InfoOf(x), false) == Free ==> live == {} && forall i :: 0 <= i < |y.used| ==> !y.used[i])
  {
    CountIs(x.collect);
    assert forall i :: i in young ==> i in objs;
    if FateOf(InfoOf(x), false) == Free { assert live == {}; }
  }

  /** A filled segment is given out again only if nothing in it was allocated after the snapshot: its clear bits hold no
      object then. */
  lemma FilledReclaimed(x: Seg, objs: set<nat>, young: set<nat>, live: set<nat>)
    requires SegOk(x) && Tells(x, objs, young) && IsLive(x, young, live)
    ensures var y := Reclaimed(x, true);
            SegOk(y) && Tells(y, live, {})
            && (FateOf(InfoOf(x), true) == Filled ==> y.snapshot == |y.used|)
            && (FateOf(InfoOf(x), true) != Filled ==> y.snapshot == 0 && Spares(y, live, 0))
            && (FateOf(InfoOf(x), true) == Free ==> live == {} && forall i :: 0 <= i < |y.used| ==> !y.used[i])
  {
    CountIs(x.collect);
    var fate := FateOf(InfoOf(x), true);
    assert forall i :: i in young ==> i in objs;
    if fate != Filled { assert forall i :: i in live ==> x.collect[i]; }
    if fate == Free { assert live == {}; }
  }

  /** Why a segment with young blocks has to stay filled: the collector does not mark them, so their bits are clear
      although they live; with the snapshot at the limit there are none. */
  lemma YoungStayFilled(x: Seg, objs: set<nat>, young: set<nat>, live: set<nat>)
    requires FilledOk(Load(x, objs, young), false) && IsLive(x, young, live)
             && (forall i :: i in young ==> i < |x.collect| && !x.collect[i])
    ensures Spares(Copied(x), live, 0) <==> young == {}
    ensures young != {} ==> FateOf(InfoOf(x), true) == Filled
  {
    if i :| i in young {
      assert i in live && !Copied(x).used[i] && i in objs;
    } else {
      assert forall i :: i in live ==> x.collect[i];
    }
  }

  /** The segment under the pointer keeps the pointer, and its snapshot goes to the limit. */
  lemma CurrentReclaimed(x: Seg, objs: set<nat>, young: set<nat>, live: set<nat>, at: nat)
    requires SegOk(x) && Tells(x, objs, young) && Spares(x, objs, at) && IsLive(x, young, live)
    ensures var y := Wiped(Copied(x)).(snapshot := |x.used|);
            SegOk(y) && Tells(y, live, {}) && Spares(y, live, at)
  {
    assert forall i :: i in young ==> i in objs;
  }

  // ---------------------------------------------------------------- walks over the lists

  /** The segments of s have been reclaimed. */
  ghost predicate DoneUpTo(before: map<Ptr, Seg>, segs: map<Ptr, Seg>, s: seq<Ptr>, i: nat, wasFilled: bool)
    requires i <= |s|
  {
    && segs.Keys == before.Keys
    && forall p :: p in segs ==> segs[p] == if p in s[..i] then Reclaimed(before[p], wasFilled) else before[p]
  }

  lemma DoneNext(before: map<Ptr, Seg>, segs: map<Ptr, Seg>, s: seq<Ptr>, i: nat, wasFilled: bool)
    requires i < |s| && Distinct(s) && s[i] in before && DoneUpTo(before, segs, s, i, wasFilled)
    ensures s[i] in segs && segs[s[i]] == before[s[i]]
    ensures DoneUpTo(before, segs[s[i] := Reclaimed(before[s[i]], wasFilled)], s, i + 1, wasFilled)
  {
    hide Reclaimed;
    assert s[..i + 1] == s[..i] + [s[i]];
  }

  lemma AllDone(before: map<Ptr, Seg>, segs: map<Ptr, Seg>, s: seq<Ptr>, wasFilled: bool)
    requires DoneUpTo(before, segs, s, |s|, wasFilled)
    ensures Done(before, segs, s, wasFilled)
  {
    assert s[..|s|] == s;
  }

  ghost predicate Done(before: map<Ptr, Seg>, segs: map<Ptr, Seg>, s: seq<Ptr>, wasFilled: bool) {
    segs.Keys == before.Keys && forall p :: p in segs ==>
      segs[p] == if p in s then Reclaimed(before[p], wasFilled) else before[p]
  }

  /** info is what the walk will find. */
  ghost predicate Agree(segs: map<Ptr, Seg>, info: map<Ptr, Info>, s: seq<Ptr>) {
    forall p :: p in s ==> p in segs && p in info && SegOk(segs[p]) && info[p] == InfoOf(segs[p])
  }

  lemma NoneDone(segs: map<Ptr, Seg>, s: seq<Ptr>, wasFilled: bool)
    ensures DoneUpTo(segs, segs, s, 0, wasFilled)
  {
  }

  lemma FateOfSeg(x: Seg)
    requires SegOk(x)
    ensures FateOf(InfoOf(x), false) == if FreeCount(x.collect) == |x.collect| then Free else Partial
    ensures FateOf(InfoOf(x), true)
            == if x.snapshot < |x.used| || FreeCount(x.collect) == 0 then Filled
               else if FreeCount(x.collect) == |x.collect| then Free else Partial
    ensures Reclaimed(x, false) == Wiped(Copied(x))
    ensures Reclaimed(x, true) ==
            Wiped(Copied(x)).(snapshot := if FateOf(InfoOf(x), true) == Filled then |x.used| else 0)
  {
  }

  /** A segment is freed when nothing in it is marked, and it stays filled when everything is or when something may have
      been allocated after the snapshot; partial segments are never filled by a reclamation. */
  lemma FatesMean(x: Seg)
    requires SegOk(x)
    ensures FateOf(InfoOf(x), false) == Free <==> forall i :: 0 <= i < |x.collect| ==> !x.collect[i]
    ensures FateOf(InfoOf(x), false) != Filled
    ensures FateOf(InfoOf(x), true) == Free <==>
              x.snapshot == |x.used| && forall i :: 0 <= i < |x.collect| ==> !x.collect[i]
    ensures FateOf(InfoOf(x), true) == Filled <==>
              x.snapshot < |x.used| || forall i :: 0 <= i < |x.collect| ==> x.collect[i]
  {
    CountIs(x.collect);
    FateOfSeg(x);
    hide InfoOf, FateOf, FreeCount;
    var b := x.collect[0];
  }

  /** The blocks of a segment that hold objects, and those of them that were allocated after the snapshot. */
  datatype Held = Held(objs: set<nat>, young: set<nat>)

  function LoadIn(segs: map<Ptr, Seg>, held: map<Ptr, Held>, p: Ptr): Load
    requires p in segs && p in held
  {
    Load(segs[p], held[p].objs, held[p].young)
  }

  ghost predicate AllPartial(segs: map<Ptr, Seg>, held: map<Ptr, Held>, s: seq<Ptr>) {
    forall p :: p in s ==> p in segs && p in held && PartialOk(LoadIn(segs, held, p))
  }

  ghost predicate AllFilled(segs: map<Ptr, Seg>, held: map<Ptr, Held>, s: seq<Ptr>, early: bool) {
    forall p :: p in s ==> p in segs && p in held && FilledOk(LoadIn(segs, held, p), early)
  }

  ghost predicate Current(segs: map<Ptr, Seg>, held: map<Ptr, Held>, p: Ptr, at: nat, early: bool) {
    p != 0 ==> p in segs && p in held && CurrentOk(LoadIn(segs, held, p), at, early)
  }

  ghost predicate Lists(next: Next, partial: Ptr, ps: seq<Ptr>, filled: Ptr, qs: seq<Ptr>, cur: Ptr) {
    Chain(next, partial, ps) && Chain(next, filled, qs) && Apart(ps, qs) && cur !in ps && cur !in qs
  }

  /** A change of a segment that is not in a list does not concern the list. */
  lemma NotConcerned(segs: map<Ptr, Seg>, held: map<Ptr, Held>, p: Ptr, x: Seg, h: Held)
    ensures forall s :: p !in s && AllPartial(segs, held, s) ==> AllPartial(segs[p := x], held[p := h], s)
    ensures forall s, e :: p !in s && AllFilled(segs, held, s, e) ==> AllFilled(segs[p := x], held[p := h], s, e)
    ensures forall q, at, e :: p != q && Current(segs, held, q, at, e) ==> Current(segs[p := x], held[p := h], q, at, e)
  {
    hide PartialOk, FilledOk, CurrentOk;
  }

  class Subheap {
    var next: Next
    var segs: map<Ptr, Seg>
    var partial: Ptr
    var filled: Ptr
    var cur: Ptr
    var at: nat

    /** The partial list, the filled list, what their segments hold, and whether the snapshot is still to be taken
        (ASYNC to PRESYNC2). */
    ghost var ps: seq<Ptr>
    ghost var qs: seq<Ptr>
    ghost var held: map<Ptr, Held>
    ghost var early: bool

    ghost predicate Mine(p: Ptr)
      reads this
    {
      p in ps || p in qs || (p == cur && p != 0)
    }

    ghost predicate Valid()
      reads this
    {
      && Lists(next, partial, ps, filled, qs, cur)
      && AllPartial(segs, held, ps) && AllFilled(segs, held, qs, early) && Current(segs, held, cur, at, early)
    }

    /** The blocks the pointer will still hand out. */
    function Left(): seq<nat>
      reads this
    {
      if cur != 0 && cur in segs then ClearFrom(segs[cur].used, at) else []
    }

    /** A sub-heap without segments, in ASYNC. */
    constructor ()
      ensures Valid() && early && ps == [] && qs == [] && cur == 0
    {
      next, segs, partial, filled, cur, at := map[], map[], 0, 0, 0, 0;
      ps, qs, held, early := [], [], map[], true;
    }

    /** A later allocation may get block i of segment p before the next reclamation. */
    ghost predicate Available(p: Ptr, i: nat)
      reads this
    {
      p in segs && ((p in ps && i in ClearFrom(segs[p].used, 0)) || (p == cur && p != 0 && i in Left()))
    }

    /** No such block holds an object, and of the blocks of these segments, those before the pointer apart, no other is
        without one. */
    lemma AvailableIsFree(p: Ptr, i: nat)
      requires Valid()
      ensures Available(p, i) ==> p in held && i !in held[p].objs
      ensures (p in ps || (p != 0 && p == cur && at <= i)) && p in held && i !in held[p].objs ==>
                p in segs && (i < |segs[p].used| ==> Available(p, i))
    {
      if p in segs { ClearFromIs(segs[p].used, if p == cur then at else 0, i); }
      hide ClearFrom;
    }

    /** A segment that set_alloc_ptr may be given. */
    ghost predicate Ready(p: Ptr)
      reads this
    {
      p != 0 && !Mine(p) && AllPartial(segs, held, [p])
    }

    /** A segment comes from a free list, initialized, or from the pool; objs are its blocks with objects. */
    method Receive(p: Ptr, x: Seg, ghost objs: set<nat>)
      requires Valid() && p != 0 && !Mine(p) && PartialOk(Load(x, objs, {}))
      modifies this`segs, this`held
      ensures Valid() && Ready(p) && segs == old(segs)[p := x] && held == old(held)[p := Held(objs, {})]
    {
      NotConcerned(segs, held, p, x, Held(objs, {}));
      assert AllPartial(segs[p := x], held[p := Held(objs, {})], [p]) by { hide PartialOk; }
      hide Chain, Apart, AllPartial, AllFilled, Current;
      segs := segs[p := x];
      held := held[p := Held(objs, {})];
    }

    /** set_alloc_ptr. */
    method SetAllocPtr(p: Ptr, beforeSync2: bool)
      requires Valid() && cur == 0 && Ready(p) && beforeSync2 == early
      modifies this`segs, this`cur, this`at
      ensures Valid() && cur == p && at == 0 && p in old(segs) && Left() == ClearFrom(old(segs)[p].used, 0)
    {
      assert p in [p];
      Started(LoadIn(segs, held, p), early);
      NotConcerned(segs, held, p, Limit(segs[p], early), held[p]);
      assert held[p := held[p]] == held;
      hide Chain, Apart, AllPartial, AllFilled, CurrentOk, ClearFrom;
      cur, at := p, 0;
      if beforeSync2 {
        segs := segs[p := segs[p].(snapshot := |segs[p].used|)];
      }
    }

    /** release_alloc_ptr, and the segment becomes the first of the filled list. */
    method ReleaseAllocPtr(beforeSync2: bool)
      requires Valid() && cur != 0 && beforeSync2 == early
      modifies this`next, this`segs, this`cur, this`at, this`filled, this`qs
      ensures Valid() && cur == 0 && qs == [old(cur)] + old(qs) && segs == old(segs)
      ensures forall p :: old(Ready(p)) ==> Ready(p)
    {
      Released(LoadIn(segs, held, cur), at, early);
      ChainPush(next, partial, ps, filled, qs, cur);
      PushApart(ps, qs, cur);
      FilledPush(segs, held, qs, cur, early);
      hide Chain, Apart, AllPartial, AllFilled, CurrentOk;
      assert segs[cur := Limit(segs[cur], early)] == segs;
      if beforeSync2 {
        segs := segs[cur := segs[cur].(snapshot := |segs[cur].used|)];
      }
      next, filled, qs := next[cur := filled], cur, [cur] + qs;
      cur, at := 0, 0;
    }

    /** try_find_segment up to find_bitmap: the segment under the pointer is filled, and the first of the partial list
        takes its place, or else a segment received from elsewhere, if there is room for one. */
    method FindSegment(beforeSync2: bool, room: bool, extra: Option<Ptr>) returns (ok: bool)
      requires Valid() && beforeSync2 == early && (extra.Some? ==> Ready(extra.value))
      modifies this`next, this`segs, this`cur, this`at, this`partial, this`filled, this`ps, this`qs
      ensures Valid() && qs == if old(cur) == 0 then old(qs) else [old(cur)] + old(qs)
      ensures ok <==> old(ps) != [] || (room && extra.Some?)
      ensures ok ==> cur == (if old(ps) != [] then old(ps)[0] else extra.value) && at == 0 && cur in old(segs)
                     && ps == (if old(ps) != [] then old(ps)[1..] else [])
                     && Left() == ClearFrom(old(segs)[cur].used, 0)
      ensures !ok ==> cur == 0
    {
      if cur != 0 {
        ReleaseAllocPtr(beforeSync2);
      }
      var p;
      if partial != 0 {
        p := partial;
        ChainTail(next, partial, ps);
        PartialTail(segs, held, ps);
        assert p == ps[0] && Apart(ps[1..], qs);
        hide Chain, AllPartial, AllFilled, CurrentOk, ClearFrom;
        partial, ps := next[p], ps[1..];
      } else {
        if !room || extra.None? {
          return false;
        }
        p := extra.value;
      }
      hide Chain, Apart, AllFilled, CurrentOk, ClearFrom;
      SetAllocPtr(p, beforeSync2);
      ok := true;
    }

    /** sml_alloc on the segment under the pointer: the least clear bit, which holds no object. */
    method Alloc() returns (obj: Option<nat>)
      requires Valid()
      modifies this`at, this`held
      ensures Valid()
      ensures obj.None? ==> old(Left()) == [] && held == old(held)
      ensures obj.Some? ==>
                var i := obj.value;
                && cur != 0 && old(Left()) == [i] + Left() && cur in old(held) && i !in old(held)[cur].objs
                && held ==
                   old(held)[cur := Held(old(held)[cur].objs + {i}, old(held)[cur].young + if early then {} else {i})]
    {
      if cur == 0 {
        return None;
      }
      CurrentAt(LoadIn(segs, held, cur), at, early);
      hide Lists, PartialOk, FilledOk, CurrentOk, ClearFrom;
      var i := FirstClear(segs[cur].used, at);
      if i == |segs[cur].used| {
        return None;
      }
      Handed(LoadIn(segs, held, cur), at, early, i);
      ghost var h := Held(held[cur].objs + {i}, held[cur].young + if early then {} else {i});
      NotConcerned(segs, held, cur, segs[cur], h);
      assert segs[cur := segs[cur]] == segs;
      assert cur !in ps && cur !in qs by { hide AllPartial; InLists(next, partial, ps, filled, qs, cur); }
      hide AllPartial, AllFilled;
      at := i + 1;
      held := held[cur := h];
      return Some(i);
    }

    /** save_alloc_ptr, in the action of SYNC2. */
    method SaveAllocPtr()
      requires Valid() && early
      modifies this`segs, this`early
      ensures Valid() && !early && Left() == old(Left())
      ensures segs == if cur != 0 then old(segs)[cur := old(segs)[cur].(snapshot := at)] else old(segs)
    {
      LateFilled(segs, held, qs);
      if cur != 0 {
        Saved(LoadIn(segs, held, cur), at);
        NotConcerned(segs, held, cur, segs[cur].(snapshot := at), held[cur]);
        assert held[cur := held[cur]] == held;
        hide AllPartial, AllFilled, CurrentOk;
        segs := segs[cur := segs[cur].(snapshot := at)];
      }
      early := false;
    }

    /** visit: a target that has not been visited gets its collect bit; an object allocated after the snapshot never. */
    method Visit(p: Ptr, i: nat) returns (first: bool)
      requires Valid() && Mine(p) && p in segs && p in held && i in held[p].objs && i < |segs[p].collect|
      modifies this`segs
      ensures Valid() && first == (i !in held[p].young && !old(segs)[p].collect[i])
      ensures segs == if first then old(segs)[p := old(segs)[p].(collect := old(segs)[p].collect[i := true])]
                      else old(segs)
    {
      Visited(LoadIn(segs, held, p), i, at, early);
      VisitKeeps(segs, held, ps, qs, cur, at, early, p, i);
      hide Lists, AllPartial, AllFilled, Current;
      var x := segs[p];
      if !x.used[i] && i >= x.snapshot {
        return false;
      }
      if x.collect[i] {
        return false;
      }
      segs := segs[p := x.(collect := x.collect[i := true])];
      return true;
    }

    /** The loop over the partial list. */
    method WalkPartial(free0: SegmentList, ghost fs: seq<Ptr>, ghost info: map<Ptr, Info>, ghost tag0: map<Ptr, nat>)
      returns (free: SegmentList, keep: SegmentList, ghost tag: map<Ptr, nat>)
      requires Walking(next, tag0, free0, fs, Empty(), [], Empty(), [], partial, ps, filled, qs)
               && Agree(segs, info, ps)
      modifies this`next, this`segs
      ensures Walking(next, tag, free, fs + Fates(ps, info, false, Free), keep, Fates(ps, info, false, Partial),
                      Empty(), [],
                      0, [], filled, qs)
      ensures Done(old(segs), segs, ps, false)
    {
      hide Walking, Chain, Append, FateOf, Fates, Add, Distinct, DoneUpTo, Reclaimed, InfoOf, FreeCount;
      ghost var before := segs;
      NoFates(info, false);
      NoneDone(segs, ps, false);
      var seg := partial;
      free, keep, tag := free0, Empty(), tag0;
      ghost var i := 0;
      assert ps[..0] == [] && ps[0..] == ps && fs + [] == fs;
      WalkAt(next, tag, free, fs, keep, [], Empty(), [], seg, ps, filled, qs);
      DistinctChain(next, tag, free, fs, keep, [], Empty(), [], seg, ps, filled, qs);
      while seg != 0
        invariant i <= |ps| && (seg == 0 <==> i == |ps|) && (i < |ps| ==> seg == ps[i])
        invariant Walking(next, tag, free, fs + Fates(ps[..i], info, false, Free),
                          keep, Fates(ps[..i], info, false, Partial),
                          Empty(), [], seg, ps[i..], filled, qs)
        invariant DoneUpTo(before, segs, ps, i, false)
        decreases |ps| - i
      {
        ghost var f, k := fs + Fates(ps[..i], info, false, Free), Fates(ps[..i], info, false, Partial);
        NextFates(ps, info, false, i, fs);
        assert ps[i..][1..] == ps[i + 1..] && ps[i..] != [];
        DoneNext(before, segs, ps, i, false);
        free, keep, tag := FilePartial(seg, free, keep, f, k, ps[i..], tag);
        seg := next[seg];
        i := i + 1;
        WalkAt(next, tag, free, fs + Fates(ps[..i], info, false, Free), keep, Fates(ps[..i], info, false, Partial),
               Empty(), [], seg, ps[i..], filled, qs);
      }
      assert ps[..|ps|] == ps && ps[|ps|..] == [];
      AllDone(before, segs, ps, false);
    }

    /** One segment of the partial list goes where it belongs. */
    method FilePartial(seg: Ptr, free0: SegmentList, keep0: SegmentList, ghost f: seq<Ptr>, ghost k: seq<Ptr>,
                       ghost rest: seq<Ptr>, ghost tag0: map<Ptr, nat>)
      returns (free: SegmentList, keep: SegmentList, ghost tag: map<Ptr, nat>)
      requires Walking(next, tag0, free0, f, keep0, k, Empty(), [], seg, rest, filled, qs) && rest != []
      requires seg in segs && SegOk(segs[seg])
      modifies this`next, this`segs
      ensures segs == old(segs)[seg := Reclaimed(old(segs)[seg], false)] && seg in next
      ensures var fate := FateOf(InfoOf(old(segs)[seg]), false);
              Walking(next, tag, free, Add(f, seg, fate == Free), keep, Add(k, seg, fate == Partial), Empty(), [],
                      next[seg], rest[1..], filled, qs)
    {
      hide Walking, Append, FateOf, InfoOf, Reclaimed, FreeCount;
      free, keep := free0, keep0;
      ghost var x := segs[seg];
      FateOfSeg(x);
      segs := segs[seg := Copied(segs[seg])];
      if FreeCount(segs[seg].used) == |segs[seg].used| {
        NothingToWipe(Copied(x));
        ToFree(next, tag0, free, f, keep, k, Empty(), [], seg, rest, filled, qs);
        var (n, l) := Append(next, free, seg);
        next, free, tag := n, l, tag0[seg := 0];
      } else {
        segs := segs[seg := Wiped(segs[seg])];
        ToPartial(next, tag0, free, f, keep, k, Empty(), [], seg, rest, filled, qs);
        var (n, l) := Append(next, keep, seg);
        next, keep, tag := n, l, tag0[seg := 1];
      }
    }

    /** The loop over the filled list; a segment that was handed out during the cycle stays filled for another cycle,
        and the snapshots are set for the next one. */
    method WalkFilled(free0: SegmentList, keep0: SegmentList, ghost fs: seq<Ptr>, ghost ks: seq<Ptr>,
                      ghost info: map<Ptr, Info>, ghost tag0: map<Ptr, nat>)
      returns (free: SegmentList, keep: SegmentList, full: SegmentList, ghost tag: map<Ptr, nat>)
      requires Walking(next, tag0, free0, fs, keep0, ks, Empty(), [], filled, qs, 0, []) && Agree(segs, info, qs)
      modifies this`next, this`segs
      ensures Walking(next, tag, free, fs + Fates(qs, info, true, Free), keep, ks + Fates(qs, info, true, Partial),
                      full, Fates(qs, info, true, Filled), 0, [], 0, [])
      ensures Done(old(segs), segs, qs, true)
    {
      hide Walking, Chain, Append, FateOf, Fates, Add, Distinct, DoneUpTo, Reclaimed, InfoOf, FreeCount;
      ghost var before := segs;
      NoFates(info, true);
      NoneDone(segs, qs, true);
      var seg := filled;
      free, keep, full, tag := free0, keep0, Empty(), tag0;
      ghost var i := 0;
      assert qs[..0] == [] && qs[0..] == qs && fs + [] == fs && ks + [] == ks;
      WalkAt(next, tag, free, fs, keep, ks, full, [], seg, qs, 0, []);
      DistinctChain(next, tag, free, fs, keep, ks, full, [], seg, qs, 0, []);
      while seg != 0
        invariant i <= |qs| && (seg == 0 <==> i == |qs|) && (i < |qs| ==> seg == qs[i])
        invariant Walking(next, tag, free, fs + Fates(qs[..i], info, true, Free),
                          keep, ks + Fates(qs[..i], info, true, Partial),
                          full, Fates(qs[..i], info, true, Filled), seg, qs[i..], 0, [])
        invariant DoneUpTo(before, segs, qs, i, true)
        decreases |qs| - i
      {
        ghost var f, k, u := fs + Fates(qs[..i], info, true, Free), ks + Fates(qs[..i], info, true, Partial),
                             Fates(qs[..i], info, true, Filled);
        NextFates(qs, info, true, i, fs);
        NextFates(qs, info, true, i, ks);
        assert qs[i..][1..] == qs[i + 1..] && qs[i..] != [];
        DoneNext(before, segs, qs, i, true);
        free, keep, full, tag := FileFilled(seg, free, keep, full, f, k, u, qs[i..], tag);
        seg := next[seg];
        i := i + 1;
        WalkAt(next, tag, free, fs + Fates(qs[..i], info, true, Free), keep, ks + Fates(qs[..i], info, true, Partial),
               full, Fates(qs[..i], info, true, Filled), seg, qs[i..], 0, []);
      }
      assert qs[..|qs|] == qs && qs[|qs|..] == [];
      AllDone(before, segs, qs, true);
    }

    /** One segment of the filled list goes where it belongs. */
    method FileFilled(seg: Ptr, free0: SegmentList, keep0: SegmentList, full0: SegmentList, ghost f: seq<Ptr>,
                      ghost k: seq<Ptr>, ghost u: seq<Ptr>, ghost rest: seq<Ptr>, ghost tag0: map<Ptr, nat>)
      returns (free: SegmentList, keep: SegmentList, full: SegmentList, ghost tag: map<Ptr, nat>)
      requires Walking(next, tag0, free0, f, keep0, k, full0, u, seg, rest, 0, []) && rest != []
      requires seg in segs && SegOk(segs[seg])
      modifies this`next, this`segs
      ensures segs == old(segs)[seg := Reclaimed(old(segs)[seg], true)] && seg in next
      ensures var fate := FateOf(InfoOf(old(segs)[seg]), true);
              Walking(next, tag, free, Add(f, seg, fate == Free), keep, Add(k, seg, fate == Partial), full,
                      Add(u, seg, fate == Filled), next[seg], rest[1..], 0, [])
    {
      hide Walking, Append, FateOf, InfoOf, Reclaimed, FreeCount;
      free, keep, full := free0, keep0, full0;
      ghost var x := segs[seg];
      FateOfSeg(x);
      segs := segs[seg := Copied(segs[seg])];
      var count := FreeCount(segs[seg].used);
      if segs[seg].snapshot < |segs[seg].used| || count == 0 {
        segs := segs[seg := Wiped(segs[seg]).(snapshot := |segs[seg].used|)];
        ToFilled(next, tag0, free, f, keep, k, full, u, seg, rest, 0, []);
        var (n, l) := Append(next, full, seg);
        next, full, tag := n, l, tag0[seg := 2];
      } else if count == |segs[seg].used| {
        NothingToWipe(Copied(x));
        segs := segs[seg := segs[seg].(snapshot := 0)];
        ToFree(next, tag0, free, f, keep, k, full, u, seg, rest, 0, []);
        var (n, l) := Append(next, free, seg);
        next, free, tag := n, l, tag0[seg := 0];
      } else {
        segs := segs[seg := Wiped(segs[seg]).(snapshot := 0)];
        ToPartial(next, tag0, free, f, keep, k, full, u, seg, rest, 0, []);
        var (n, l) := Append(next, keep, seg);
        next, keep, tag := n, l, tag0[seg := 1];
      }
    }

    /** reclaim_subheap: what the collector has marked and what was allocated after the snapshot lives, the old lists
        become three, and everything that may be allocated before the next reclamation is free of live objects. */
    method Reclaim(free0: SegmentList, ghost fs: seq<Ptr>) returns (free: SegmentList, ghost freed: seq<Ptr>)
      requires Valid() && !early && Holds(next, free0, fs) && Apart(fs, ps) && Apart(fs, qs) && cur !in fs
      modifies this`next, this`segs, this`partial, this`filled, this`ps, this`qs, this`held, this`early
      ensures Valid() && early
      ensures Survived(old(segs), old(held), segs, held, old(ps), old(qs), cur)
      ensures InfoFits(InfosOf(old(segs)), old(ps), old(qs)) && freed == Freed(InfosOf(old(segs)), old(ps), old(qs))
      ensures Holds(next, free, fs + freed) && ps == StillPartial(InfosOf(old(segs)), old(ps), old(qs))
      ensures qs == Fates(old(qs), InfosOf(old(segs)), true, Filled)
      ensures AllBlank(segs, held, freed)
    {
      Agreement(segs, held, ps, qs, cur, at, early);
      InLists(next, partial, ps, filled, qs, cur);
      ghost var s0, info := segs, InfosOf(segs);
      hide Lists, Holds, Chain, Apart, Freed, InfosOf, InfoFits, AllPartial, AllFilled, Current, Agree, Renewed,
        Survived, AllBlank;
      free := ReclaimLists(free0, fs);
      freed := Freed(info, ps, qs);
      Turnover(s0, info);
    }

    /** What lives is old from now on, and the snapshot is to be taken again. */
    ghost method Turnover(s0: map<Ptr, Seg>, info: map<Ptr, Info>)
      requires info == InfosOf(s0) && InfoFits(info, ps, qs) && Apart(ps, qs) && cur !in ps && cur !in qs
      requires AllPartial(s0, held, ps) && AllFilled(s0, held, qs, false) && Current(s0, held, cur, at, false)
      requires Renewed(s0, segs, ps, qs, cur)
      requires Chain(next, partial, StillPartial(info, ps, qs)) && Chain(next, filled, Fates(qs, info, true, Filled))
      modifies this`ps, this`qs, this`held, this`early
      ensures Valid() && early && ps == StillPartial(info, old(ps), old(qs)) && qs == Fates(old(qs), info, true, Filled)
      ensures Survived(s0, old(held), segs, held, old(ps), old(qs), cur)
              && AllBlank(segs, held, Freed(info, old(ps), old(qs)))
    {
      ghost var h := Survivors(s0, held, ps, qs, cur);
      Survive(s0, held, segs, h, ps, qs, cur, at);
      AllSurvive(s0, held, segs, h, ps, qs, cur, at);
      StillLists(info, ps, qs, cur, next, partial, filled);
      hide Lists, Fates, Freed, StillPartial, InfosOf, InfoFits, AllPartial, AllFilled, Current, Renewed, Survived,
        AllBlank, Survivors;
      held, early := h, true;
      ps, qs := StillPartial(info, ps, qs), Fates(qs, info, true, Filled);
    }

    /** The same, as far as it is program: lists, bitmaps and snapshots. */
    method ReclaimLists(free0: SegmentList, ghost fs: seq<Ptr>) returns (free: SegmentList)
      requires Holds(next, free0, fs) && Lists(next, partial, ps, filled, qs, cur) && Apart(fs, ps) && Apart(fs, qs)
               && cur !in fs
      requires Agree(segs, InfosOf(segs), ps) && Agree(segs, InfosOf(segs), qs) && InfoFits(InfosOf(segs), ps, qs)
      requires cur != 0 ==> cur in segs && SegOk(segs[cur])
      modifies this`next, this`segs, this`partial, this`filled
      ensures InfoFits(InfosOf(old(segs)), ps, qs) && Holds(next, free, fs + Freed(InfosOf(old(segs)), ps, qs))
      ensures Chain(next, partial, StillPartial(InfosOf(old(segs)), ps, qs))
      ensures Chain(next, filled, Fates(qs, InfosOf(old(segs)), true, Filled))
      ensures Renewed(old(segs), segs, ps, qs, cur)
    {
      ghost var s0, info := segs, InfosOf(segs);
      InLists(next, partial, ps, filled, qs, cur);
      ghost var tag := StartWalk(next, free0, fs, partial, ps, filled, qs);
      hide Walking, Holds, Chain, Apart, Fates, Reclaimed, InfosOf, Agree, Done, Lists, SegOk, Renewed, Freed,
        StillPartial;
      var keep, full;
      free, keep, tag := WalkPartial(free0, fs, info, tag);
      tag :=
        Turn(next, tag, free, fs + Fates(ps, info, false, Free), keep, Fates(ps, info, false, Partial), filled, qs);
      ghost var s1 := segs;
      CurrentIn(s0, s1, ps, cur);
      ReclaimCurrent();
      hide CurrentDone;
      ghost var s2 := segs;
      StillAgree(s0, s1, s2, info, ps, qs, cur);
      ghost var f, k := fs + Fates(ps, info, false, Free), Fates(ps, info, false, Partial);
      free, keep, full, tag := WalkFilled(free, keep, f, k, info, tag);
      FatesTogether(fs, info, ps, qs);
      FinishLists(free, fs + Freed(info, ps, qs), keep, StillPartial(info, ps, qs), full, Fates(qs, info, true, Filled),
                  tag);
      AllReclaimed(s0, s1, s2, segs, ps, qs, cur);
    }

    /** The segment under the pointer. */
    method ReclaimCurrent()
      requires cur != 0 ==> cur in segs
      modifies this`segs
      ensures CurrentDone(old(segs), segs, cur)
    {
      if cur != 0 {
        segs := segs[cur := Wiped(Copied(segs[cur])).(snapshot := |segs[cur].used|)];
      }
    }

    method FinishLists(free: SegmentList, ghost fs: seq<Ptr>, keep: SegmentList, ghost ks: seq<Ptr>, full: SegmentList,
                       ghost us: seq<Ptr>, ghost tag: map<Ptr, nat>)
      requires Walking(next, tag, free, fs, keep, ks, full, us, 0, [], 0, [])
      modifies this`next, this`partial, this`filled
      ensures Holds(next, free, fs) && Chain(next, partial, ks) && Chain(next, filled, us)
    {
      EndWalk(next, tag, free, fs, keep, ks, full, us);
      hide Walking, Holds, Chain;
      var (n, l) := SetLast(next, keep, 0);
      var (n', l') := SetLast(n, full, 0);
      next, partial, filled := n', l.head, l'.head;
    }
  }

  ghost predicate InfoFits(info: map<Ptr, Info>, ps: seq<Ptr>, qs: seq<Ptr>) {
    (forall p :: p in ps ==> p in info) && forall p :: p in qs ==> p in info
  }

  ghost function Freed(info: map<Ptr, Info>, ps: seq<Ptr>, qs: seq<Ptr>): seq<Ptr>
    requires InfoFits(info, ps, qs)
  {
    Fates(ps, info, false, Free) + Fates(qs, info, true, Free)
  }

  ghost function StillPartial(info: map<Ptr, Info>, ps: seq<Ptr>, qs: seq<Ptr>): seq<Ptr>
    requires InfoFits(info, ps, qs)
  {
    Fates(ps, info, false, Partial) + Fates(qs, info, true, Partial)
  }

  lemma FatesTogether(fs: seq<Ptr>, info: map<Ptr, Info>, ps: seq<Ptr>, qs: seq<Ptr>)
    requires InfoFits(info, ps, qs)
    ensures fs + Fates(ps, info, false, Free) + Fates(qs, info, true, Free) == fs + Freed(info, ps, qs)
    ensures Fates(ps, info, false, Partial) + Fates(qs, info, true, Partial) == StillPartial(info, ps, qs)
  {
  }

  /** As init_segment expects a segment of a free list. */
  predicate IsBlank(x: Seg) {
    x.snapshot == 0 && |x.used| == |x.collect| && (forall i :: 0 <= i < |x.used| ==> !x.used[i] && !x.collect[i])
  }

  ghost predicate AllBlank(segs: map<Ptr, Seg>, held: map<Ptr, Held>, s: seq<Ptr>) {
    forall p :: p in s ==> p in segs && p in held && held[p].objs == {} && IsBlank(segs[p])
  }

  /** Every segment holds exactly what lives, which now counts as old, its bitmap is what the collector marked, and
      nothing is marked any longer. */
  ghost predicate Survived(s0: map<Ptr, Seg>, h0: map<Ptr, Held>, segs: map<Ptr, Seg>, held: map<Ptr, Held>,
                           ps: seq<Ptr>, qs: seq<Ptr>, cur: Ptr)
  {
    forall p :: p in ps || p in qs || (p == cur && p != 0) ==>
      p in s0 && p in h0 && p in segs && p in held
      && IsLive(s0[p], h0[p].young, held[p].objs) && held[p].young == {} && segs[p].used == s0[p].collect
      && |segs[p].collect| == |s0[p].collect| && forall i :: 0 <= i < |segs[p].collect| ==> !segs[p].collect[i]
  }

  ghost function Live(x: Seg, young: set<nat>): set<nat> {
    set i: nat | i < |x.collect| && (x.collect[i] || i in young)
  }

  /** What the segments hold after the reclamation. */
  ghost function Survivors(segs: map<Ptr, Seg>, held: map<Ptr, Held>, ps: seq<Ptr>, qs: seq<Ptr>,
                           cur: Ptr): map<Ptr, Held>
  {
    map p <- held :: if p in segs && (p in ps || p in qs || (p == cur && p != 0))
      then Held(Live(segs[p], held[p].young), {}) else held[p]
  }

  lemma Agreement(segs: map<Ptr, Seg>, held: map<Ptr, Held>, ps: seq<Ptr>, qs: seq<Ptr>, cur: Ptr, at: nat, early: bool)
    requires AllPartial(segs, held, ps) && AllFilled(segs, held, qs, early) && Current(segs, held, cur, at, early)
    ensures cur != 0 ==> cur in segs && SegOk(segs[cur])
    ensures Agree(segs, InfosOf(segs), ps) && Agree(segs, InfosOf(segs), qs) && InfoFits(InfosOf(segs), ps, qs)
  {
  }

  lemma CurrentIn(s0: map<Ptr, Seg>, s1: map<Ptr, Seg>, ps: seq<Ptr>, cur: Ptr)
    requires Done(s0, s1, ps, false) && cur !in ps && (cur != 0 ==> cur in s0)
    ensures cur != 0 ==> cur in s1 && s1[cur] == s0[cur]
  {
  }

  /** s2 is s1 after the segment under the pointer has been reclaimed. */
  ghost predicate CurrentDone(s1: map<Ptr, Seg>, s2: map<Ptr, Seg>, cur: Ptr) {
    if cur == 0 then s2 == s1
    else cur in s1 && s2 == s1[cur := Wiped(Copied(s1[cur])).(snapshot := |s1[cur].used|)]
  }

  lemma StillAgree(s0: map<Ptr, Seg>, s1: map<Ptr, Seg>, s2: map<Ptr, Seg>, info: map<Ptr, Info>, ps: seq<Ptr>,
                   qs: seq<Ptr>, cur: Ptr)
    requires Done(s0, s1, ps, false) && Agree(s0, info, qs) && Apart(ps, qs) && cur !in qs && CurrentDone(s1, s2, cur)
    ensures Agree(s2, info, qs)
  {
    hide InfoOf, Reclaimed;
    forall p | p in qs ensures p !in ps { }
  }

  /** What has become of every segment. */
  ghost predicate Renewed(s0: map<Ptr, Seg>, segs: map<Ptr, Seg>, ps: seq<Ptr>, qs: seq<Ptr>, cur: Ptr) {
    && (forall p :: p in ps ==> p in s0 && p in segs && segs[p] == Reclaimed(s0[p], false))
    && (forall p :: p in qs ==> p in s0 && p in segs && segs[p] == Reclaimed(s0[p], true))
    && (cur != 0 ==> cur in s0 && cur in segs && segs[cur] == Wiped(Copied(s0[cur])).(snapshot := |s0[cur].used|))
  }

  lemma AllReclaimed(s0: map<Ptr, Seg>, s1: map<Ptr, Seg>, s2: map<Ptr, Seg>, s3: map<Ptr, Seg>, ps: seq<Ptr>,
                     qs: seq<Ptr>, cur: Ptr)
    requires Done(s0, s1, ps, false) && CurrentDone(s1, s2, cur) && Done(s2, s3, qs, true)
    requires Apart(ps, qs) && cur !in ps && cur !in qs && InfoFits(InfosOf(s0), ps, qs)
    ensures Renewed(s0, s3, ps, qs, cur)
  {
    hide Reclaimed;
    forall p | p in qs ensures p !in ps { }
  }

  /** The reclamation keeps the invariant. */
  lemma Survive(s0: map<Ptr, Seg>, h0: map<Ptr, Held>, segs: map<Ptr, Seg>, held: map<Ptr, Held>, ps: seq<Ptr>,
                qs: seq<Ptr>, cur: Ptr, at: nat)
    requires AllPartial(s0, h0, ps) && AllFilled(s0, h0, qs, false) && Current(s0, h0, cur, at, false)
    requires Renewed(s0, segs, ps, qs, cur) && held == Survivors(s0, h0, ps, qs, cur) && InfoFits(InfosOf(s0), ps, qs)
    ensures AllPartial(segs, held, StillPartial(InfosOf(s0), ps, qs))
    ensures AllFilled(segs, held, Fates(qs, InfosOf(s0), true, Filled), true) && Current(segs, held, cur, at, true)
    ensures AllBlank(segs, held, Freed(InfosOf(s0), ps, qs))
  {
    var info := InfosOf(s0);
    forall p | p in StillPartial(info, ps, qs) ensures p in segs && p in held && PartialOk(LoadIn(segs, held, p)) {
      FatesSelect(ps, info, false, Partial, p);
      FatesSelect(qs, info, true, Partial, p);
      hide Fates, FateOf, InfoOf, Reclaimed;
      if p in ps { OnePartial(s0[p], h0[p]); } else { OneFilled(s0[p], h0[p]); }
    }
    forall p | p in Fates(qs, info, true, Filled)
      ensures p in segs && p in held && FilledOk(LoadIn(segs, held, p), true)
    {
      FatesSelect(qs, info, true, Filled, p);
      hide Fates, FateOf, InfoOf, Reclaimed;
      OneFilled(s0[p], h0[p]);
    }
    forall p | p in Freed(info, ps, qs) ensures p in segs && p in held && held[p].objs == {} && IsBlank(segs[p]) {
      FatesSelect(ps, info, false, Free, p);
      FatesSelect(qs, info, true, Free, p);
      hide Fates, FateOf, InfoOf, Reclaimed;
      if p in ps { OnePartial(s0[p], h0[p]); } else { OneFilled(s0[p], h0[p]); }
    }
    if cur != 0 { CurrentReclaimed(s0[cur], h0[cur].objs, h0[cur].young, held[cur].objs, at); }
  }

  lemma AllSurvive(s0: map<Ptr, Seg>, h0: map<Ptr, Held>, segs: map<Ptr, Seg>, held: map<Ptr, Held>, ps: seq<Ptr>,
                   qs: seq<Ptr>, cur: Ptr, at: nat)
    requires AllPartial(s0, h0, ps) && AllFilled(s0, h0, qs, false) && Current(s0, h0, cur, at, false)
    requires Renewed(s0, segs, ps, qs, cur) && held == Survivors(s0, h0, ps, qs, cur)
    ensures Survived(s0, h0, segs, held, ps, qs, cur)
  {
  }

  lemma StillLists(info: map<Ptr, Info>, ps: seq<Ptr>, qs: seq<Ptr>, cur: Ptr, next: Next, partial: Ptr, filled: Ptr)
    requires InfoFits(info, ps, qs) && Apart(ps, qs) && cur !in ps && cur !in qs
    requires Chain(next, partial, StillPartial(info, ps, qs)) && Chain(next, filled, Fates(qs, info, true, Filled))
    ensures Lists(next, partial, StillPartial(info, ps, qs), filled, Fates(qs, info, true, Filled), cur)
  {
    hide Chain;
    forall p ensures p in StillPartial(info, ps, qs) ==> (p in ps || p in qs) && p !in Fates(qs, info, true, Filled) {
      FatesSelect(ps, info, false, Partial, p);
      FatesSelect(qs, info, true, Partial, p);
      FatesSelect(qs, info, true, Filled, p);
    }
    FatesSelect(qs, info, true, Filled, cur);
  }

  lemma OnePartial(x: Seg, h: Held)
    requires PartialOk(Load(x, h.objs, h.young))
    ensures FateOf(InfoOf(x), false) == Partial ==> PartialOk(Load(Reclaimed(x, false), Live(x, h.young), {}))
    ensures FateOf(InfoOf(x), false) == Free ==> Live(x, h.young) == {} && IsBlank(Reclaimed(x, false))
  {
    PartialReclaimed(x, h.objs, h.young, Live(x, h.young));
  }

  lemma OneFilled(x: Seg, h: Held)
    requires FilledOk(Load(x, h.objs, h.young), false)
    ensures FateOf(InfoOf(x), true) == Partial ==> PartialOk(Load(Reclaimed(x, true), Live(x, h.young), {}))
    ensures FateOf(InfoOf(x), true) == Filled ==> FilledOk(Load(Reclaimed(x, true), Live(x, h.young), {}), true)
    ensures FateOf(InfoOf(x), true) == Free ==> Live(x, h.young) == {} && IsBlank(Reclaimed(x, true))
  {
    FilledReclaimed(x, h.objs, h.young, Live(x, h.young));
  }

  lemma InLists(next: Next, partial: Ptr, ps: seq<Ptr>, filled: Ptr, qs: seq<Ptr>, cur: Ptr)
    requires Lists(next, partial, ps, filled, qs, cur)
    ensures cur !in ps && cur !in qs && Apart(ps, qs)
  {
  }

  lemma FilledPush(segs: map<Ptr, Seg>, held: map<Ptr, Held>, qs: seq<Ptr>, c: Ptr, early: bool)
    requires AllFilled(segs, held, qs, early) && c in segs && c in held && FilledOk(LoadIn(segs, held, c), early)
    ensures AllFilled(segs, held, [c] + qs, early)
  {
    hide FilledOk;
  }

  lemma PartialTail(segs: map<Ptr, Seg>, held: map<Ptr, Held>, ps: seq<Ptr>)
    requires AllPartial(segs, held, ps) && ps != []
    ensures AllPartial(segs, held, ps[1..]) && AllPartial(segs, held, [ps[0]])
  {
    hide PartialOk;
  }

  /** Taking the snapshot does not concern filled segments. */
  lemma LateFilled(segs: map<Ptr, Seg>, held: map<Ptr, Held>, qs: seq<Ptr>)
    requires AllFilled(segs, held, qs, true)
    ensures AllFilled(segs, held, qs, false)
  {
  }

  lemma VisitKeeps(segs: map<Ptr, Seg>, held: map<Ptr, Held>, ps: seq<Ptr>, qs: seq<Ptr>, cur: Ptr, at: nat,
                   early: bool, p: Ptr, i: nat)
    requires AllPartial(segs, held, ps) && AllFilled(segs, held, qs, early) && Current(segs, held, cur, at, early)
    requires p in segs && p in held && i in held[p].objs && i < |segs[p].collect|
             && (p in ps || p in qs || (p == cur && p != 0))
    ensures var segs' := segs[p := segs[p].(collect := segs[p].collect[i := true])];
            AllPartial(segs', held, ps) && AllFilled(segs', held, qs, early) && Current(segs', held, cur, at, early)
  {
    Visited(LoadIn(segs, held, p), i, at, early);
    hide PartialOk, FilledOk, CurrentOk, Tells, SegOk;
  }

  /** The least clear bit from a on. */
  method FirstClear(bits: seq<bool>, a: nat) returns (i: nat)
    requires a <= |bits|
    ensures a <= i <= |bits| && (i < |bits| ==> !bits[i])
    ensures ClearFrom(bits, a) == if i == |bits| then [] else [i] + ClearFrom(bits, i + 1)
  {
    i := a;
    while i < |bits| && bits[i]
      invariant a <= i <= |bits| && forall j :: a <= j < i ==> bits[j]
    {
      i := i + 1;
    }
    ClearFromNext(bits, a, i);
  }

  lemma CurrentAt(l: Load, at: nat, early: bool)
    requires CurrentOk(l, at, early)
    ensures at <= |l.x.used|
  {
  }

  lemma PushApart(ps: seq<Ptr>, qs: seq<Ptr>, c: Ptr)
    requires Apart(ps, qs) && c !in ps
    ensures Apart(ps, [c] + qs)
  {
  }

  lemma ChainPush(next: Next, p: Ptr, ps: seq<Ptr>, q: Ptr, qs: seq<Ptr>, c: Ptr)
    requires Chain(next, p, ps) && Chain(next, q, qs) && c != 0 && c !in ps && c !in qs
    ensures Chain(next[c := q], p, ps) && Chain(next[c := q], c, [c] + qs)
  {
    var n := next[c := q];
    OtherLinked(next, c, q, ps);
    OtherLinked(next, c, q, qs);
    var r := [c] + qs;
    forall i, j | 0 <= i && j == i + 1 && j < |r| ensures n[r[i]] == r[j] {
      if i > 0 { assert r[i] == qs[i - 1] && r[j] == qs[j - 1]; }
    }
  }
}
