/**
 The Cheney copier of heap_cheney.c: objects are copied by bump allocation, the old copy keeps a flag and a
 forwarding pointer in its first word, and a scan pointer runs after the allocation pointer.
 */
module Cheney {
  import opened Wrappers

  type Ptr = int

  /** An object: the payload size in bytes, which payload words are pointers, and the words.  There is always a word for
      the forwarding pointer, even when the payload has none.  forwarded is the flag in the header. */
  datatype Object = Object(bytes: nat, isPtr: seq<bool>, words: seq<int>, record: bool, forwarded: bool)

  type Heap = map<Ptr, Object>

  predicate WellFormed(o: Object) {
    |o.isPtr| == o.bytes / 8 && |o.words| == if o.isPtr == [] then 1 else |o.isPtr|
  }

  /** What sml_alloc returns, its words set to NULL. */
  function Blank(bytes: nat, isPtr: seq<bool>, record: bool): Object {
    Object(bytes, isPtr, seq(if isPtr == [] then 1 else |isPtr|, _ => 0), record, false)
  }

  const ALIGN := 16

  /** OBJ_TOTAL_SIZE: the header, the payload and, in a record, the bitmap; rounded up by HEAP_ROUND_SIZE. */
  function Size(o: Object): (n: nat)
    ensures n > 0
  {
    var total := 4 + o.bytes + (if o.record then 4 * ((o.bytes / 8 + 31) / 32) else 0);
    (total + ALIGN - 1) / ALIGN * ALIGN
  }

  /** How far an object at p reaches, in bytes: its payload and, if it is a record, one bit for every payload word, in
      words of 32 bits.  The header is the four bytes before the payload. */
  predicate Reaches(o: Object, p: Ptr, end: Ptr) {
    var bitmap := end - p - o.bytes;
    if o.record then bitmap % 4 == 0 && 8 * bitmap >= o.bytes / 8 > 8 * (bitmap - 4) else bitmap == 0
  }

  /** next is the first address behind an object at p, by steps of 16, that leaves room for the object, for the header
      of the next one, and for a forwarding pointer. */
  ghost predicate Follows(o: Object, p: Ptr, next: Ptr) {
    exists end: Ptr ::
      Reaches(o, p, end) && end + 4 <= next < end + 4 + 16 && (next - p) % 16 == 0 && p + 8 * |o.words| + 4 <= next
  }

  lemma SizeFits(o: Object, p: Ptr)
    requires WellFormed(o)
    ensures Follows(o, p, p + Size(o))
  {
    var words := if o.record then (o.bytes / 8 + 31) / 32 else 0;
    var end := p + o.bytes + 4 * words;
    assert Reaches(o, p, end);
    assert Size(o) % 16 == 0 && 4 + o.bytes + 4 * words <= Size(o) < 4 + o.bytes + 4 * words + 16;
    assert 8 * (o.bytes / 8) <= o.bytes;
  }

  /** The objects of h lie one after the other from p to end. */
  ghost predicate Tiled(h: Heap, p: Ptr, end: Ptr)
    decreases end - p
  {
    p == end || (p < end && p in h && Tiled(h, p + Size(h[p]), end))
  }

  /** How many bytes of the objects from p to end have been forwarded. */
  ghost function Forwarded(h: Heap, p: Ptr, end: Ptr): nat
    decreases end - p
  {
    if p < end && p in h then (if h[p].forwarded then Size(h[p]) else 0) + Forwarded(h, p + Size(h[p]), end) else 0
  }

  /** p is one of the objects tiled from start to end. */
  ghost predicate OnTile(h: Heap, p: Ptr, start: Ptr, end: Ptr)
    decreases end - start
  {
    start < end && start in h && (p == start || OnTile(h, p, start + Size(h[start]), end))
  }

  lemma {:induction false} ForwardedBound(h: Heap, p: Ptr, end: Ptr)
    requires Tiled(h, p, end)
    ensures Forwarded(h, p, end) <= end - p
    decreases end - p
  {
    if p < end { ForwardedBound(h, p + Size(h[p]), end); TiledOrder(h, p, end); }
  }

  lemma {:induction false} TiledOrder(h: Heap, p: Ptr, end: Ptr)
    requires Tiled(h, p, end)
    ensures p <= end && (p < end ==> p + Size(h[p]) <= end)
    decreases end - p
  {
    if p < end { TiledOrder(h, p + Size(h[p]), end); }
  }

  lemma {:induction false} OnTileBounds(h: Heap, p: Ptr, start: Ptr, end: Ptr)
    requires OnTile(h, p, start, end) && Tiled(h, start, end)
    ensures start <= p < end && p in h && p + Size(h[p]) <= end
    decreases end - start
  {
    TiledOrder(h, start, end);
    if p != start { OnTileBounds(h, p, start + Size(h[start]), end); }
  }

  /** Marking an object as forwarded leaves the tiling alone and counts its bytes. */
  lemma {:induction false} ForwardOne(h: Heap, p: Ptr, x: Object, start: Ptr, end: Ptr)
    requires Tiled(h, start, end) && p in h && Size(x) == Size(h[p])
    ensures Tiled(h[p := x], start, end)
    ensures forall q :: OnTile(h, q, start, end) ==> OnTile(h[p := x], q, start, end)
    ensures OnTile(h, p, start, end) && !h[p].forwarded && x.forwarded ==>
              Forwarded(h[p := x], start, end) == Forwarded(h, start, end) + Size(x)
    ensures start > p ==> Forwarded(h[p := x], start, end) == Forwarded(h, start, end)
    decreases end - start
  {
    if start < end {
      var next := start + Size(h[start]);
      ForwardOne(h, p, x, next, end);
      if OnTile(h, p, next, end) { OnTileBounds(h, p, next, end); }
    }
  }

  /** Putting an object at the end of a tiling extends it. */
  lemma {:induction false} TileExtends(h: Heap, x: Object, start: Ptr, end: Ptr)
    requires Tiled(h, start, end)
    ensures Tiled(h[end := x], start, end + Size(x))
    decreases end - start
  {
    if start < end {
      TiledOrder(h, start, end);
      TileExtends(h, x, start + Size(h[start]), end);
    }
  }

  // ---------------------------------------------------------------- reachability

  /** A chain of pointers from a root to the last object of the path. */
  ghost predicate Path(h: Heap, roots: seq<Ptr>, path: seq<Ptr>) {
    && path != [] && path[0] in roots
    && (forall i :: 0 <= i < |path| ==> path[i] in h)
    && forall i, j :: 0 <= i < j < |path| && j == i + 1 ==> Points(h, path[i], path[j])
  }

  predicate Points(h: Heap, p: Ptr, q: Ptr) {
    p in h && exists i :: 0 <= i < |h[p].words| && i < |h[p].isPtr| && h[p].isPtr[i] && h[p].words[i] == q
  }

  ghost predicate Reachable(h: Heap, roots: seq<Ptr>, p: Ptr) {
    exists path :: Path(h, roots, path) && path[|path| - 1] == p
  }

  lemma RootReachable(h: Heap, roots: seq<Ptr>, p: Ptr)
    requires p in roots && p in h
    ensures Reachable(h, roots, p)
  {
    assert Path(h, roots, [p]) && [p][|[p]| - 1] == p;
  }

  lemma ChildReachable(h: Heap, roots: seq<Ptr>, p: Ptr, q: Ptr)
    requires Reachable(h, roots, p) && Points(h, p, q) && q in h
    ensures Reachable(h, roots, q)
  {
    var path :| Path(h, roots, path) && path[|path| - 1] == p;
    var longer := path + [q];
    assert Path(h, roots, longer) && longer[|longer| - 1] == q;
  }

  // ---------------------------------------------------------------- the copy

  /** What a word of the old heap becomes: pointers into the old heap follow the forwarding map. */
  function Image(fwd: map<Ptr, Ptr>, w: int, isPtr: bool): int {
    if isPtr && w in fwd then fwd[w] else w
  }

  /** The first k words of n are the images of the words of o, the others are still copies. */
  ghost predicate CopyOf(h: Heap, fwd: map<Ptr, Ptr>, o: Object, n: Object, k: nat) {
    && n.isPtr == o.isPtr && n.record == o.record && n.bytes == o.bytes && |n.words| == |o.words| && !n.forwarded
    && (forall i :: 0 <= i < |o.words| ==>
        n.words[i] == if i < k then Image(fwd, o.words[i], IsPtr(o, i)) else o.words[i])
    && (forall i :: 0 <= i < k && i < |o.words| && IsPtr(o, i) && o.words[i] in h ==> o.words[i] in fwd)
  }

  predicate IsPtr(o: Object, i: nat) { i < |o.isPtr| && o.isPtr[i] }

  /** The old heap h is forwarded to from and to: fwd maps exactly the forwarded objects, one to one, onto the new ones;
      back is its inverse. */
  ghost predicate Forwards(h: Heap, from: Heap, to: Heap, fwd: map<Ptr, Ptr>, back: map<Ptr, Ptr>) {
    && from.Keys == h.Keys && fwd.Keys <= h.Keys && back.Keys == to.Keys
    && (forall p :: p in h ==> from[p] == if p in fwd then Moved(h[p], fwd[p]) else h[p])
    && (forall p :: p in fwd ==> fwd[p] in back && back[fwd[p]] == p)
    && (forall q :: q in back ==> back[q] in fwd && fwd[back[q]] == q)
  }

  /** What forwarding leaves of an object: the flag, and the new address in the first word. */
  function Moved(o: Object, q: Ptr): Object {
    if o.words == [] then o.(forwarded := true) else o.(forwarded := true, words := o.words[0 := q])
  }

  /** How many of the n words of the object at q have been scanned when the scan is at word k of the object at cur. */
  function Done(q: Ptr, n: nat, cur: Ptr, k: nat): nat { if q < cur then n else if q == cur then k else 0 }

  /** Objects before cur have been scanned, and of the object at cur the first k words. */
  ghost predicate ScannedTo(h: Heap, to: Heap, fwd: map<Ptr, Ptr>, back: map<Ptr, Ptr>, cur: Ptr, k: nat) {
    forall q :: q in to && q in back && back[q] in h ==>
      CopyOf(h, fwd, h[back[q]], to[q], Done(q, |to[q].words|, cur, k))
  }

  ghost predicate OnlyReachable(h: Heap, roots: seq<Ptr>, fwd: map<Ptr, Ptr>) {
    forall p :: p in fwd ==> Reachable(h, roots, p)
  }

  /** Forwarding one more object keeps the images of all words scanned so far. */
  lemma ScannedStays(h: Heap, to: Heap, fwd: map<Ptr, Ptr>, back: map<Ptr, Ptr>, cur: Ptr, k: nat, p: Ptr, q: Ptr)
    requires ScannedTo(h, to, fwd, back, cur, k) && p in h && p !in fwd && fwd.Keys <= h.Keys && q !in to
    requires back.Keys == to.Keys && (forall x <- back :: back[x] in h)
    requires q > cur || (q == cur && k == 0)
    requires WellFormed(h[p]) && !h[p].forwarded
    ensures ScannedTo(h, to[q := h[p]], fwd[p := q], back[q := p], cur, k)
  {
    var to', fwd', back' := to[q := h[p]], fwd[p := q], back[q := p];
    forall x | x in to' && x in back' && back'[x] in h
      ensures CopyOf(h, fwd', h[back'[x]], to'[x], Done(x, |to'[x].words|, cur, k))
    {
      if x != q {
        assert CopyOf(h, fwd, h[back[x]], to[x], Done(x, |to[x].words|, cur, k));
      }
    }
  }

  lemma ForwardsStays(h: Heap, from: Heap, to: Heap, fwd: map<Ptr, Ptr>, back: map<Ptr, Ptr>, p: Ptr, q: Ptr)
    requires Forwards(h, from, to, fwd, back) && p in h && p !in fwd && q !in to
    ensures Forwards(h, from[p := Moved(from[p], q)], to[q := from[p]], fwd[p := q], back[q := p])
  {
  }

  /** The bounds of the two spaces and the allocation pointer of the old one. */
  datatype Spaces = Spaces(fromStart: Ptr, fromFree: Ptr, fromLimit: Ptr, toStart: Ptr, toLimit: Ptr) {
    predicate InFrom(p: Ptr) { fromStart <= p < fromLimit }

    predicate InTo(p: Ptr) { toStart <= p < toLimit }

    /** The heap h before the collection: tiled objects, pointers to objects or out of the space. */
    ghost predicate Source(h: Heap, rs: seq<Ptr>) {
      && fromStart <= fromFree <= fromLimit && Tiled(h, fromStart, fromFree)
      && fromLimit - fromStart == toLimit - toStart && (toLimit <= fromStart || fromLimit <= toStart)
      && (forall p <- h :: WellFormed(h[p]) && !h[p].forwarded && OnTile(h, p, fromStart, fromFree))
      && (forall p, w :: Points(h, p, w) ==> (InFrom(w) ==> w in h) && !InTo(w))
      && (forall p <- rs :: (InFrom(p) ==> p in h) && !InTo(p))
    }

    /** The copy in the middle of a collection that began with heap h and roots rs: what has been allocated in the new
        space is what has been forwarded in the old one. */
    ghost predicate Copying(h: Heap, rs: seq<Ptr>, from: Heap, to: Heap, fwd: map<Ptr, Ptr>, back: map<Ptr, Ptr>,
                            free: Ptr)
    {
      && Source(h, rs) && Forwards(h, from, to, fwd, back) && OnlyReachable(h, rs, fwd)
      && Tiled(to, toStart, free) && Tiled(from, fromStart, fromFree)
      && (forall q <- to :: OnTile(to, q, toStart, free))
      && (forall p <- h :: OnTile(from, p, fromStart, fromFree))
      && free - toStart == Forwarded(from, fromStart, fromFree)
    }

    /** An address is in the range of the old space when it is an object, and only then. */
    lemma InRange(h: Heap, rs: seq<Ptr>, p: Ptr)
      requires Source(h, rs) && (InFrom(p) ==> p in h)
      ensures InFrom(p) <==> p in h
    {
      if p in h { OnTileBounds(h, p, fromStart, fromFree); }
    }

    /** The new space never overflows. */
    lemma Fits(h: Heap, rs: seq<Ptr>, from: Heap, to: Heap, fwd: map<Ptr, Ptr>, back: map<Ptr, Ptr>, free: Ptr)
      requires Copying(h, rs, from, to, fwd, back, free)
      ensures toStart <= free <= toLimit
    {
      ForwardedBound(from, fromStart, fromFree);
    }

    /** The flag in the header tells whether an object has been forwarded, and its first word where to. */
    lemma Flags(h: Heap, rs: seq<Ptr>, from: Heap, to: Heap, fwd: map<Ptr, Ptr>, back: map<Ptr, Ptr>, free: Ptr, p: Ptr)
      requires Copying(h, rs, from, to, fwd, back, free)
      ensures p in fwd ==> p in h
      ensures p in h ==> p in from && from[p].words != [] && (from[p].forwarded <==> p in fwd)
      ensures p in fwd ==> from[p].words[0] == fwd[p]
      ensures p in h && p !in fwd ==> from[p] == h[p] && WellFormed(h[p]) && fwd.Keys <= h.Keys
      ensures p in h ==> back.Keys == to.Keys && forall x <- back :: back[x] in h
    {
    }

    lemma CopyOne(h: Heap, rs: seq<Ptr>, from: Heap, to: Heap, fwd: map<Ptr, Ptr>, back: map<Ptr, Ptr>, free: Ptr,
                  p: Ptr)
      requires Copying(h, rs, from, to, fwd, back, free) && p in h && !from[p].forwarded && Reachable(h, rs, p)
      ensures p !in fwd && free !in to && from[p] == h[p]
      ensures Copying(h, rs, from[p := Moved(from[p], free)], to[free := from[p]], fwd[p := free], back[free := p],
                      free + Size(from[p]))
    {
      assert from[p] == h[p] && WellFormed(h[p]);
      if free in to { OnTileBounds(to, free, toStart, free); }
      ForwardsStays(h, from, to, fwd, back, p, free);
      CopyTiles(h, from, to, free, p);
      assert OnlyReachable(h, rs, fwd[p := free]);
      hide Tiled, OnTile, Forwarded, Reachable, Size, WellFormed, Points, CopyOf, Forwards, OnlyReachable;
    }

    /** The object moves from the tiles still to be copied to the tiles of the new space. */
    lemma CopyTiles(h: Heap, from: Heap, to: Heap, free: Ptr, p: Ptr)
      requires Tiled(to, toStart, free) && Tiled(from, fromStart, fromFree) && from.Keys == h.Keys && p in h
               && !from[p].forwarded
      requires (forall q <- to :: OnTile(to, q, toStart, free))
               && (forall q <- h :: OnTile(from, q, fromStart, fromFree))
      ensures var to', from', free' := to[free := from[p]], from[p := Moved(from[p], free)], free + Size(from[p]);
              && Tiled(to', toStart, free') && Tiled(from', fromStart, fromFree)
              && (forall q <- to' :: OnTile(to', q, toStart, free'))
              && (forall q <- h :: OnTile(from', q, fromStart, fromFree))
              && Forwarded(from', fromStart, fromFree) == Forwarded(from, fromStart, fromFree) + Size(from[p])
    {
      var x := Moved(from[p], free);
      assert Size(x) == Size(from[p]) && x.forwarded;
      ForwardOne(from, p, x, fromStart, fromFree);
      TileExtends(to, from[p], toStart, free);
      OnTileExtends(to, from[p], toStart, free);
    }

    /** An object would end at or before the limit. */
    ghost predicate Room(x: Object) { exists next: Ptr :: Follows(x, fromFree, next) && next <= fromLimit }

    lemma RoomIs(x: Object)
      requires WellFormed(x)
      ensures Room(x) <==> fromFree + Size(x) <= fromLimit
    {
      SizeFits(x, fromFree);
      if Room(x) {
        var next: Ptr :| Follows(x, fromFree, next) && next <= fromLimit;
        OneFollows(x, fromFree, next, fromFree + Size(x));
      }
    }

    lemma SourceIsLaid(h: Heap, rs: seq<Ptr>)
      requires Source(h, rs)
      ensures Laid(h, fromStart, fromFree)
    {
      TilesAreLaid(h, fromStart, fromFree);
    }

    /** A new object without pointers at the end of the old space. */
    lemma Grows(h: Heap, rs: seq<Ptr>, x: Object)
      requires Source(h, rs) && WellFormed(x) && !x.forwarded && fromFree + Size(x) <= fromLimit
      requires (forall i :: 0 <= i < |x.words| ==> x.words[i] == 0) && 0 < fromStart && 0 < toStart
      ensures fromFree !in h && this.(fromFree := fromFree + Size(x)).Source(h[fromFree := x], rs + [fromFree])
    {
      if fromFree in h { OnTileBounds(h, fromFree, fromStart, fromFree); }
      TileExtends(h, x, fromStart, fromFree);
      OnTileExtends(h, x, fromStart, fromFree);
      GrownPoints(h, rs, x);
      hide Tiled, OnTile, Points, Size, WellFormed;
    }

    lemma GrownPoints(h: Heap, rs: seq<Ptr>, x: Object)
      requires Source(h, rs) && (forall i :: 0 <= i < |x.words| ==> x.words[i] == 0) && 0 < fromStart && 0 < toStart
      ensures var h' := h[fromFree := x]; forall p, w :: Points(h', p, w) ==> (InFrom(w) ==> w in h') && !InTo(w)
    {
      var h' := h[fromFree := x];
      forall p, w | Points(h', p, w) ensures (InFrom(w) ==> w in h') && !InTo(w) {
        if p != fromFree { assert Points(h, p, w); }
      }
    }

    lemma Stores(h: Heap, rs: seq<Ptr>, o: Ptr, k: nat, v: Ptr)
      requires Source(h, rs) && o in h && k < |h[o].words| && (v in h || (!InFrom(v) && !InTo(v)))
      ensures Source(h[o := h[o].(words := h[o].words[k := v])], rs)
    {
      var x := h[o].(words := h[o].words[k := v]);
      var h' := h[o := x];
      ForwardOne(h, o, x, fromStart, fromFree);
      if v in h { OnTileBounds(h, v, fromStart, fromFree); }
      forall p, w | Points(h', p, w) ensures (InFrom(w) ==> w in h') && !InTo(w) {
        if w != v { assert Points(h, p, w); }
      }
      hide Tiled, OnTile, Points;
    }
  }

  lemma {:induction false} OnTileExtends(h: Heap, x: Object, start: Ptr, end: Ptr)
    requires Tiled(h, start, end)
    ensures OnTile(h[end := x], end, start, end + Size(x))
    ensures forall q :: OnTile(h, q, start, end) ==> OnTile(h[end := x], q, start, end + Size(x))
    decreases end - start
  {
    if start < end {
      TiledOrder(h, start, end);
      OnTileExtends(h, x, start + Size(h[start]), end);
    }
  }

  /** Between an object on a tiling and the next one there is no other. */
  lemma {:induction false} TileGap(h: Heap, p: Ptr, q: Ptr, start: Ptr, end: Ptr)
    requires Tiled(h, start, end) && OnTile(h, p, start, end) && OnTile(h, q, start, end) && p in h
    ensures q <= p || q >= p + Size(h[p])
    ensures p + Size(h[p]) == end || OnTile(h, p + Size(h[p]), start, end)
    decreases end - start
  {
    var next := start + Size(h[start]);
    TiledOrder(h, start, end);
    TiledOrder(h, next, end);
    if p == start {
      if q != start { OnTileBounds(h, q, next, end); }
    } else if q == start {
      OnTileBounds(h, p, next, end);
      TileGap(h, p, p, next, end);
    } else {
      TileGap(h, p, q, next, end);
    }
  }

  lemma {:induction false} TilesAlign(h: Heap, p: Ptr, start: Ptr, end: Ptr)
    requires Tiled(h, start, end) && (p == end || OnTile(h, p, start, end))
    ensures (p - start) % 16 == 0
    decreases end - start
  {
    if start < end {
      SizeAligned(h[start]);
      TiledOrder(h, start, end);
      if p != start { TilesAlign(h, p, start + Size(h[start]), end); }
    }
  }

  lemma SizeAligned(o: Object)
    ensures Size(o) % 16 == 0
  {
  }

  /** The objects of h in memory: whatever lies before q, all its bytes lie before the header of q, which is the first
      place by steps of 16 where the next object could be; and free is such a place behind the last object. */
  ghost predicate Laid(h: Heap, start: Ptr, free: Ptr) {
    (free - start) % 16 == 0 && forall p <- h :: LaidAt(h, start, free, p)
  }

  ghost predicate LaidAt(h: Heap, start: Ptr, free: Ptr, p: Ptr)
    requires p in h
  {
    && start <= p < free && (p - start) % 16 == 0
    && (exists next: Ptr :: Follows(h[p], p, next) && (next == free || next in h))
    && (forall q, next: Ptr :: (q in h || q == free) && p < q && Follows(h[p], p, next) ==> next <= q)
  }

  /** No two objects share a byte: payload and bitmap of the one end before the header of the other, and the last object
      ends before the place for the next header. */
  lemma ObjectsDoNotOverlap(h: Heap, start: Ptr, free: Ptr, p: Ptr, q: Ptr, end: Ptr)
    requires Laid(h, start, free) && p in h && (q in h || q == free) && p < q && Reaches(h[p], p, end)
    ensures end + 4 <= q && (q - p) % 16 == 0
  {
    hide Follows, Reaches;
    assert LaidAt(h, start, free, p) && (q != free ==> LaidAt(h, start, free, q));
    var next: Ptr :| Follows(h[p], p, next) && (next == free || next in h);
    assert next <= q;
    FollowsEnd(h[p], p, next, end);
    SameResidue(start, p, q);
  }

  lemma FollowsEnd(o: Object, p: Ptr, next: Ptr, end: Ptr)
    requires Follows(o, p, next) && Reaches(o, p, end)
    ensures end + 4 <= next
  {
    var e: Ptr :| Reaches(o, p, e) && e + 4 <= next;
    OneEnd(o, p, e, end);
  }

  lemma SameResidue(start: Ptr, p: Ptr, q: Ptr)
    requires (p - start) % 16 == 0 && (q - start) % 16 == 0
    ensures (q - p) % 16 == 0
  {
  }

  lemma OneFollows(o: Object, p: Ptr, m: Ptr, n: Ptr)
    requires Follows(o, p, m) && Follows(o, p, n)
    ensures m == n
  {
    var a: Ptr :| Reaches(o, p, a) && a + 4 <= m < a + 4 + 16 && (m - p) % 16 == 0;
    var b: Ptr :| Reaches(o, p, b) && b + 4 <= n < b + 4 + 16 && (n - p) % 16 == 0;
    OneEnd(o, p, a, b);
    OneRound(a, p, m, n);
  }

  lemma OneRound(a: int, p: int, m: int, n: int)
    requires a + 4 <= m < a + 4 + 16 && a + 4 <= n < a + 4 + 16 &&
              (m - p) % 16 == 0 && (n - p) % 16 == 0
    ensures m == n
  {
    SameResidue(p, m, n);
  }

  lemma OneEnd(o: Object, p: Ptr, a: Ptr, b: Ptr)
    requires Reaches(o, p, a) && Reaches(o, p, b)
    ensures a == b
  {
  }

  lemma TilesAreLaid(h: Heap, start: Ptr, free: Ptr)
    requires Tiled(h, start, free) && forall p <- h :: WellFormed(h[p]) && OnTile(h, p, start, free)
    ensures Laid(h, start, free)
  {
    hide LaidAt, Tiled, OnTile;
    TilesAlign(h, free, start, free);
    forall p <- h ensures LaidAt(h, start, free, p) {
      TileIsLaid(h, start, free, p);
    }
  }

  lemma TileIsLaid(h: Heap, start: Ptr, free: Ptr, p: Ptr)
    requires Tiled(h, start, free) && (forall p <- h :: WellFormed(h[p]) && OnTile(h, p, start, free)) && p in h
    ensures LaidAt(h, start, free, p)
  {
    hide Follows, Size, Tiled, OnTile, WellFormed, Reaches;
    var next := p + Size(h[p]);
    OnTileBounds(h, p, start, free);
    TilesAlign(h, p, start, free);
    SizeFits(h[p], p);
    TileGap(h, p, p, start, free);
    if next != free { OnTileBounds(h, next, start, free); }
    forall q, n: Ptr | (q in h || q == free) && p < q && Follows(h[p], p, n) ensures n <= q {
      OneFollows(h[p], p, n, next);
      if q in h { TileGap(h, p, q, start, free); }
    }
  }

  lemma SameSize(o: Object, n: Object)
    requires n.bytes == o.bytes && n.record == o.record
    ensures Size(n) == Size(o)
  {
  }

  /** Storing the image of word k of the object at cur. */
  lemma StoreImage(h: Heap, to: Heap, fwd: map<Ptr, Ptr>, back: map<Ptr, Ptr>, cur: Ptr, k: nat, w: int)
    requires ScannedTo(h, to, fwd, back, cur, k) && cur in to && cur in back && back[cur] in h && k < |to[cur].words|
    requires var o := h[back[cur]]; k < |o.words| && w == Image(fwd, o.words[k], IsPtr(o, k))
                                    && (IsPtr(o, k) && o.words[k] in h ==> o.words[k] in fwd)
    ensures ScannedTo(h, to[cur := to[cur].(words := to[cur].words[k := w])], fwd, back, cur, k + 1)
  {
    var to' := to[cur := to[cur].(words := to[cur].words[k := w])];
    assert CopyOf(h, fwd, h[back[cur]], to[cur], Done(cur, |to[cur].words|, cur, k));
    forall q | q in to' && q in back && back[q] in h
      ensures CopyOf(h, fwd, h[back[q]], to'[q], Done(q, |to'[q].words|, cur, k + 1))
    {
      if q != cur {
        assert CopyOf(h, fwd, h[back[q]], to[q], Done(q, |to[q].words|, cur, k));
      }
    }
  }

  /** An object without payload has nothing to scan. */
  lemma Padding(h: Heap, to: Heap, fwd: map<Ptr, Ptr>, back: map<Ptr, Ptr>, cur: Ptr)
    requires ScannedTo(h, to, fwd, back, cur, 0) && cur in to && cur in back && back[cur] in h && |to[cur].isPtr| == 0
    ensures ScannedTo(h, to, fwd, back, cur, |to[cur].words|)
  {
    var n := |to[cur].words|;
    forall q | q in to && q in back && back[q] in h
      ensures CopyOf(h, fwd, h[back[q]], to[q], Done(q, |to[q].words|, cur, n))
    {
      assert CopyOf(h, fwd, h[back[q]], to[q], Done(q, |to[q].words|, cur, 0));
    }
  }

  /** An object scanned to its end, and the scan pointer moves on to the next one. */
  lemma NextObject(h: Heap, to: Heap, fwd: map<Ptr, Ptr>, back: map<Ptr, Ptr>, cur: Ptr, start: Ptr, end: Ptr)
    requires cur in to && ScannedTo(h, to, fwd, back, cur, |to[cur].words|)
    requires Tiled(to, start, end) && OnTile(to, cur, start, end) && forall q <- to :: OnTile(to, q, start, end)
    ensures ScannedTo(h, to, fwd, back, cur + Size(to[cur]), 0)
  {
    var next := cur + Size(to[cur]);
    forall q | q in to && q in back && back[q] in h
      ensures CopyOf(h, fwd, h[back[q]], to[q], Done(q, |to[q].words|, next, 0))
    {
      TileGap(to, cur, q, start, end);
      assert CopyOf(h, fwd, h[back[q]], to[q], Done(q, |to[q].words|, cur, |to[cur].words|));
    }
  }

  /** The new heap is the reachable part of the old one: fwd is a bijection from the reachable objects to the new ones
      that takes every object to its copy and every root to its new value. */
  ghost predicate Isomorphic(h: Heap, rs: seq<Ptr>, to: Heap, roots: seq<Ptr>, fwd: map<Ptr, Ptr>, back: map<Ptr, Ptr>)
  {
    && (forall p :: p in fwd <==> p in h && Reachable(h, rs, p))
    && to.Keys == back.Keys
    && (forall p <- fwd :: fwd[p] in back && back[fwd[p]] == p)
    && (forall q <- back :: back[q] in fwd && fwd[back[q]] == q)
    && (forall p <- fwd :: CopyOf(h, fwd, h[p], to[fwd[p]], |to[fwd[p]].words|))
    && |roots| == |rs| && forall i :: 0 <= i < |rs| ==> roots[i] == Image(fwd, rs[i], true)
  }

  /** When the scan pointer has caught up, the forwarded objects are closed under pointers. */
  lemma {:induction false} ReachableIsForwarded(h: Heap, rs: seq<Ptr>, to: Heap, fwd: map<Ptr, Ptr>,
                                                back: map<Ptr, Ptr>, path: seq<Ptr>)
    requires Path(h, rs, path) && forall p <- rs :: p in h ==> p in fwd
    requires forall p <- fwd :: p in h && fwd[p] in to && CopyOf(h, fwd, h[p], to[fwd[p]], |to[fwd[p]].words|)
    ensures path[|path| - 1] in fwd
  {
    var n := |path| - 1;
    if n > 0 {
      var p := path[..n];
      assert p[n - 1] == path[n - 1] && Points(h, path[n - 1], path[n]);
      ReachableIsForwarded(h, rs, to, fwd, back, p);
      assert CopyOf(h, fwd, h[path[n - 1]], to[fwd[path[n - 1]]], |to[fwd[path[n - 1]]].words|);
    }
  }

  class Copier {
    var sp: Spaces
    var roots: seq<Ptr>
    var from: Heap
    var to: Heap
    var free: Ptr
    ghost var fwd: map<Ptr, Ptr>
    ghost var back: map<Ptr, Ptr>

    ghost predicate Copying(h: Heap, rs: seq<Ptr>)
      reads this
    {
      sp.Copying(h, rs, from, to, fwd, back, free)
    }

    /** forward: the new value of a slot that holds p. */
    method Forward(ghost h: Heap, ghost rs: seq<Ptr>, p: Ptr, ghost cur: Ptr, ghost k: nat) returns (q: Ptr)
      requires Copying(h, rs) && ScannedTo(h, to, fwd, back, cur, k) && (cur < free || (cur == free && k == 0))
      requires (sp.InFrom(p) ==> p in h) && (p in h ==> Reachable(h, rs, p))
      modifies this`from, this`to, this`free, this`fwd, this`back
      ensures Copying(h, rs) && ScannedTo(h, to, fwd, back, cur, k) && free >= old(free)
      ensures q == Image(fwd, p, true) && (p in h ==> p in fwd)
      ensures forall x <- old(fwd) :: x in fwd && fwd[x] == old(fwd)[x]
      ensures forall x <- old(to) :: x in to && to[x] == old(to)[x]
    {
      sp.InRange(h, rs, p);
      sp.Flags(h, rs, from, to, fwd, back, free, p);
      hide Spaces.Copying, ScannedTo, Reachable, Size;
      if !sp.InFrom(p) {
        return p;
      }
      if from[p].forwarded {
        return from[p].words[0];
      }
      q := Copy(h, rs, p, cur, k);
    }

    /** The part of forward that copies: it writes the flag and the forwarding pointer into the old object. */
    method Copy(ghost h: Heap, ghost rs: seq<Ptr>, p: Ptr, ghost cur: Ptr, ghost k: nat) returns (q: Ptr)
      requires Copying(h, rs) && ScannedTo(h, to, fwd, back, cur, k) && (cur < free || (cur == free && k == 0))
      requires p in h && Reachable(h, rs, p) && p in from && !from[p].forwarded && from[p].words != []
      modifies this`from, this`to, this`free, this`fwd, this`back
      ensures Copying(h, rs) && ScannedTo(h, to, fwd, back, cur, k)
      ensures q == old(free) && Follows(h[p], q, free) && free <= sp.toLimit
      ensures old(fwd).Keys !! {p} && fwd == old(fwd)[p := q] && to == old(to)[q := h[p]] && q !in old(to)
    {
      CopyKeeps(h, rs, p, cur, k);
      hide Spaces.Copying, ScannedTo, Reachable, Size, Follows, WellFormed, Spaces.InFrom, Spaces.InTo;
      q := free;
      free := free + Size(from[p]);
      to := to[q := from[p]];
      var x := from[p].(forwarded := true, words := from[p].words[0 := q]);
      from := from[p := x];
      fwd, back := fwd[p := q], back[q := p];
    }

    /** There is room for the copy, as the assertion before it demands, and it keeps what has been scanned. */
    lemma CopyKeeps(h: Heap, rs: seq<Ptr>, p: Ptr, cur: Ptr, k: nat)
      requires Copying(h, rs) && ScannedTo(h, to, fwd, back, cur, k) && (cur < free || (cur == free && k == 0))
      requires p in h && Reachable(h, rs, p) && p in from && !from[p].forwarded && from[p].words != []
      ensures from[p] == h[p] && p !in fwd && free !in to
      ensures Follows(h[p], free, free + Size(h[p])) && free + Size(h[p]) <= sp.toLimit
      ensures ScannedTo(h, to[free := h[p]], fwd[p := free], back[free := p], cur, k)
      ensures var x := from[p].(forwarded := true, words := from[p].words[0 := free]);
              sp.Copying(h, rs, from[p := x], to[free := h[p]], fwd[p := free], back[free := p], free + Size(h[p]))
    {
      sp.Flags(h, rs, from, to, fwd, back, free, p);
      sp.CopyOne(h, rs, from, to, fwd, back, free, p);
      ScannedStays(h, to, fwd, back, cur, k, p, free);
      SizeFits(h[p], free);
      hide Spaces.Copying, Size, Reachable, ScannedTo, WellFormed, Follows;
      sp.Fits(h, rs, from[p := Moved(from[p], free)], to[free := from[p]], fwd[p := free], back[free := p],
              free + Size(from[p]));
    }

    /** The words of the object at cur are those of the old object from word k on, and its pointers may be forwarded. */
    lemma SlotIsGood(h: Heap, rs: seq<Ptr>, cur: Ptr, k: nat)
      requires Copying(h, rs) && ScannedTo(h, to, fwd, back, cur, k) && cur in to
      ensures cur in back && back[cur] in h && OnTile(to, cur, sp.toStart, free)
      ensures var o := h[back[cur]]; to[cur].isPtr == o.isPtr && |to[cur].words| == |o.words| && WellFormed(o)
      ensures var o := h[back[cur]];
              k < |o.words| ==> to[cur].words[k] == o.words[k]
                                && (IsPtr(o, k) ==> (sp.InFrom(o.words[k]) ==> o.words[k] in h)
                                                    && (o.words[k] in h ==> Reachable(h, rs, o.words[k])))
    {
      var p := back[cur];
      var o := h[p];
      assert CopyOf(h, fwd, o, to[cur], Done(cur, |to[cur].words|, cur, k));
      if k < |o.words| && IsPtr(o, k) {
        assert Points(h, p, o.words[k]);
        if o.words[k] in h { ChildReachable(h, rs, p, o.words[k]); }
      }
    }

    lemma SlotStored(h: Heap, rs: seq<Ptr>, cur: Ptr, k: nat, w: int)
      requires Copying(h, rs) && cur in to && k < |to[cur].words|
      ensures var to' := to[cur := to[cur].(words := to[cur].words[k := w])];
              sp.Copying(h, rs, from, to', fwd, back, free)
    {
      ForwardOne(to, cur, to[cur].(words := to[cur].words[k := w]), sp.toStart, free);
    }

    /** Word i of the object at cur. */
    method ForwardSlot(ghost h: Heap, ghost rs: seq<Ptr>, cur: Ptr, i: nat)
      requires Copying(h, rs) && ScannedTo(h, to, fwd, back, cur, i) && cur in to && cur < free
      requires i < |to[cur].isPtr| && i < |to[cur].words|
      modifies this`from, this`to, this`free, this`fwd, this`back
      ensures Copying(h, rs) && cur in to && cur < free && ScannedTo(h, to, fwd, back, cur, i + 1) && free >= old(free)
      ensures forall x <- old(fwd) :: x in fwd && fwd[x] == old(fwd)[x]
      ensures to[cur].isPtr == old(to[cur].isPtr) && |to[cur].words| == old(|to[cur].words|)
      ensures to[cur].bytes == old(to[cur].bytes) && to[cur].record == old(to[cur].record)
    {
      hide Spaces.Copying, ScannedTo, Reachable, Size, Points;
      SlotIsGood(h, rs, cur, i);
      var w := to[cur].words[i];
      if to[cur].isPtr[i] {
        w := Forward(h, rs, w, cur, i);
        SlotIsGood(h, rs, cur, i);
      }
      StoreImage(h, to, fwd, back, cur, i, w);
      SlotStored(h, rs, cur, i, w);
      to := to[cur := to[cur].(words := to[cur].words[i := w])];
    }

    /** forward_children: forward every pointer of the object at cur, in place. */
    method ForwardChildren(ghost h: Heap, ghost rs: seq<Ptr>, cur: Ptr)
      requires Copying(h, rs) && ScannedTo(h, to, fwd, back, cur, 0) && cur in to && cur < free
      modifies this`from, this`to, this`free, this`fwd, this`back
      ensures Copying(h, rs) && cur in to && cur < free && ScannedTo(h, to, fwd, back, cur, |to[cur].words|)
      ensures forall x <- old(fwd) :: x in fwd && fwd[x] == old(fwd)[x]
      ensures free >= old(free) && Size(to[cur]) == old(Size(to[cur]))
    {
      hide Spaces.Copying, ScannedTo, Reachable, Size, Points;
      var n := |to[cur].isPtr|;
      SlotIsGood(h, rs, cur, 0);
      var i := 0;
      while i < n
        invariant 0 <= i <= n && Copying(h, rs) && cur in to && cur < free && ScannedTo(h, to, fwd, back, cur, i)
        invariant |to[cur].isPtr| == n && |to[cur].words| >= n
        invariant forall x <- old(fwd) :: x in fwd && fwd[x] == old(fwd)[x]
        invariant free >= old(free) && to[cur].bytes == old(to[cur].bytes) && to[cur].record == old(to[cur].record)
      {
        ForwardSlot(h, rs, cur, i);
        i := i + 1;
      }
      SlotIsGood(h, rs, cur, n);
      SameSize(old(to[cur]), to[cur]);
      if n == 0 {
        Padding(h, to, fwd, back, cur);
      }
    }

    /** forward_region: the scan pointer runs from start until it meets the allocation pointer. */
    method ForwardRegion(ghost h: Heap, ghost rs: seq<Ptr>, start: Ptr)
      requires Copying(h, rs) && ScannedTo(h, to, fwd, back, start, 0)
      requires start == free || (start in to && OnTile(to, start, sp.toStart, free))
      modifies this`from, this`to, this`free, this`fwd, this`back
      ensures Copying(h, rs) && ScannedTo(h, to, fwd, back, free, 0) && free >= old(free)
      ensures forall x <- old(fwd) :: x in fwd && fwd[x] == old(fwd)[x]
    {
      hide Spaces.Copying, ScannedTo, Size, OnTile;
      var cur := start;
      AtMostFree(h, rs, cur);
      while cur < free
        invariant Copying(h, rs) && ScannedTo(h, to, fwd, back, cur, 0) && free >= old(free)
                  && cur <= free <= sp.toLimit
        invariant cur == free || (cur in to && OnTile(to, cur, sp.toStart, free))
        invariant forall x <- old(fwd) :: x in fwd && fwd[x] == old(fwd)[x]
        decreases sp.toLimit - cur
      {
        cur := ScanObject(h, rs, cur);
      }
    }

    lemma AtMostFree(h: Heap, rs: seq<Ptr>, cur: Ptr)
      requires Copying(h, rs) && (cur == free || OnTile(to, cur, sp.toStart, free))
      ensures cur <= free <= sp.toLimit
    {
      sp.Fits(h, rs, from, to, fwd, back, free);
      if cur != free { OnTileBounds(to, cur, sp.toStart, free); }
    }

    /** One round of forward_region. */
    method ScanObject(ghost h: Heap, ghost rs: seq<Ptr>, cur: Ptr) returns (next: Ptr)
      requires Copying(h, rs) && ScannedTo(h, to, fwd, back, cur, 0) && cur in to && cur < free
      modifies this`from, this`to, this`free, this`fwd, this`back
      ensures Copying(h, rs) && ScannedTo(h, to, fwd, back, next, 0) && free >= old(free)
              && cur < next <= free <= sp.toLimit
      ensures next == free || (next in to && OnTile(to, next, sp.toStart, free))
      ensures forall x <- old(fwd) :: x in fwd && fwd[x] == old(fwd)[x]
    {
      hide Spaces.Copying, ScannedTo, Size, OnTile;
      ForwardChildren(h, rs, cur);
      next := cur + Size(to[cur]);
      Advance(h, rs, cur);
    }

    lemma Advance(h: Heap, rs: seq<Ptr>, cur: Ptr)
      requires Copying(h, rs) && cur in to && ScannedTo(h, to, fwd, back, cur, |to[cur].words|)
      ensures var next := cur + Size(to[cur]);
              ScannedTo(h, to, fwd, back, next, 0) && next <= free <= sp.toLimit
              && (next == free || (next in to && OnTile(to, next, sp.toStart, free)))
    {
      var next := cur + Size(to[cur]);
      NextObject(h, to, fwd, back, cur, sp.toStart, free);
      TileGap(to, cur, cur, sp.toStart, free);
      AtMostFree(h, rs, next);
      if next != free { OnTileBounds(to, next, sp.toStart, free); }
    }

    /** Between collections: the heap is tiled and closed, the new space is empty. */
    ghost predicate Valid()
      reads this
    {
      sp.Source(from, roots) && to == map[] && free == sp.toStart
    }

    /** sml_rootset_enum_ptr: forward every root, in place. */
    method ForwardRoots(ghost h: Heap, ghost rs: seq<Ptr>)
      requires Copying(h, rs) && roots == rs && to == map[] && free == sp.toStart
      modifies this`roots, this`from, this`to, this`free, this`fwd, this`back
      ensures Copying(h, rs) && ScannedTo(h, to, fwd, back, sp.toStart, 0) && free >= sp.toStart
      ensures |roots| == |rs| && forall i :: 0 <= i < |rs| ==>
              roots[i] == Image(fwd, rs[i], true) && (rs[i] in h ==> rs[i] in fwd)
    {
      assert ScannedTo(h, to, fwd, back, sp.toStart, 0);
      var i := 0;
      while i < |roots|
        invariant 0 <= i <= |roots| == |rs| && Copying(h, rs) && ScannedTo(h, to, fwd, back, sp.toStart, 0)
                  && free >= sp.toStart
        invariant forall j :: i <= j < |rs| ==> roots[j] == rs[j]
        invariant forall j :: 0 <= j < i ==> roots[j] == Image(fwd, rs[j], true) && (rs[j] in h ==> rs[j] in fwd)
      {
        RootIsGood(h, rs, i);
        hide Spaces.Copying, ScannedTo, Reachable;
        var q := Forward(h, rs, roots[i], sp.toStart, 0);
        roots := roots[i := q];
        i := i + 1;
      }
    }

    lemma RootIsGood(h: Heap, rs: seq<Ptr>, i: nat)
      requires Copying(h, rs) && i < |rs|
      ensures (sp.InFrom(rs[i]) ==> rs[i] in h) && (rs[i] in h ==> Reachable(h, rs, rs[i])) && fwd.Keys <= h.Keys
    {
      assert rs[i] in rs;
      if rs[i] in h { RootReachable(h, rs, rs[i]); }
    }

    /** do_gc: forward the roots, run the scan pointer over the new space, clear the old space and swap the two. */
    method DoGc()
      requires Valid()
      modifies this
      ensures Isomorphic(old(from), old(roots), from, roots, fwd, back)
      ensures Valid() && Laid(from, sp.fromStart, sp.fromFree)
              && sp == Spaces(old(sp).toStart, sp.fromFree, old(sp).toLimit, old(sp).fromStart, old(sp).fromLimit)
    {
      ghost var h, rs := from, roots;
      fwd, back := map[], map[];
      Start();
      hide Spaces.Copying, ScannedTo, Reachable, Spaces.Source, Laid, Isomorphic, Image;
      ForwardRoots(h, rs);
      AtStart(h, rs);
      ForwardRegion(h, rs, sp.toStart);
      Finish(h, rs);
      from, to := to, map[];
      sp, free := Spaces(sp.toStart, free, sp.toLimit, sp.fromStart, sp.fromLimit), sp.fromStart;
    }

    lemma Start()
      requires Valid() && fwd == map[] && back == map[]
      ensures Copying(from, roots)
    {
      NothingForwarded(from, sp.fromStart, sp.fromFree);
    }

    lemma AtStart(h: Heap, rs: seq<Ptr>)
      requires Copying(h, rs)
      ensures sp.toStart == free || (sp.toStart in to && OnTile(to, sp.toStart, sp.toStart, free))
    {
    }

    lemma Finish(h: Heap, rs: seq<Ptr>)
      requires Copying(h, rs) && ScannedTo(h, to, fwd, back, free, 0)
      requires |roots| == |rs| && forall i :: 0 <= i < |rs| ==>
               roots[i] == Image(fwd, rs[i], true) && (rs[i] in h ==> rs[i] in fwd)
      ensures Isomorphic(h, rs, to, roots, fwd, back)
      ensures Spaces(sp.toStart, free, sp.toLimit, sp.fromStart, sp.fromLimit).Source(to, roots)
      ensures Laid(to, sp.toStart, free)
    {
      CopiesDone(sp, h, rs, from, to, fwd, back, free);
      AllForwarded(sp, h, rs, from, to, fwd, back, free, roots);
      NewSource(sp, h, rs, from, to, fwd, back, free, roots);
      Spaces(sp.toStart, free, sp.toLimit, sp.fromStart, sp.fromLimit).SourceIsLaid(to, roots);
      assert Forwards(h, from, to, fwd, back);
      hide Spaces.Copying, ScannedTo, Spaces.Source, Reachable, CopyOf, Laid;
    }

    // -------------------------------------------------------------- between collections

    /** The mutator's part of sml_alloc: an object of this layout at the allocation pointer, its words still NULL. */
    method Bump(bytes: nat, isPtr: seq<bool>, record: bool) returns (p: Ptr)
      requires Valid() && WellFormed(Blank(bytes, isPtr, record)) && sp.Room(Blank(bytes, isPtr, record))
      requires 0 < sp.fromStart && 0 < sp.toStart
      modifies this`sp, this`from, this`roots
      ensures Valid() && p == old(sp).fromFree && p !in old(from)
      ensures from == old(from)[p := Blank(bytes, isPtr, record)] && roots == old(roots) + [p]
      ensures sp == old(sp).(fromFree := sp.fromFree) && Follows(Blank(bytes, isPtr, record), p, sp.fromFree)
      ensures Laid(from, sp.fromStart, sp.fromFree)
    {
      var x := Blank(bytes, isPtr, record);
      p := sp.fromFree;
      sp.RoomIs(x);
      sp.Grows(from, roots, x);
      SizeFits(x, p);
      hide Laid, Follows, Spaces.Room, Spaces.Source, Size, WellFormed, Blank;
      sp := sp.(fromFree := p + Size(x));
      from, roots := from[p := x], roots + [p];
      sp.SourceIsLaid(from, roots);
    }

    /** sml_alloc: an object is put at the allocation pointer if there is room; if not a collection is made first, and
        if there is still no room the program ends. */
    method Alloc(bytes: nat, isPtr: seq<bool>, record: bool) returns (p: Option<Ptr>, ghost h: Heap, ghost rs: seq<Ptr>)
      requires Valid() && WellFormed(Blank(bytes, isPtr, record)) && 0 < sp.fromStart && 0 < sp.toStart
      modifies this
      ensures Valid() && 0 < sp.fromStart && 0 < sp.toStart && Laid(from, sp.fromStart, sp.fromFree)
      ensures if old(sp).Room(Blank(bytes, isPtr, record))
              then p == Some(old(sp).fromFree) && h == old(from) && rs == old(roots)
              else Isomorphic(old(from), old(roots), h, rs, fwd, back)
      ensures p.None? ==> from == h && roots == rs && !sp.Room(Blank(bytes, isPtr, record))
      ensures p.Some? ==> p.value !in h && from == h[p.value := Blank(bytes, isPtr, record)] && roots == rs + [p.value]
      ensures p.Some? ==> Follows(Blank(bytes, isPtr, record), p.value, sp.fromFree) && sp.fromFree <= sp.fromLimit
      ensures p.Some? ==> var x := from[p.value];
                          && x.bytes == bytes && x.isPtr == isPtr && x.record == record && !x.forwarded
                          && |x.words| >= |isPtr| && forall w <- x.words :: w == 0
    {
      sp.RoomIs(Blank(bytes, isPtr, record));
      var inc := Size(Blank(bytes, isPtr, record));
      hide Laid, Follows, Spaces.Room, Size;
      if sp.fromLimit - sp.fromFree < inc {
        DoGc();
        sp.RoomIs(Blank(bytes, isPtr, record));
        if sp.fromLimit - sp.fromFree < inc {
          return None, from, roots;
        }
      }
      h, rs := from, roots;
      var q := Bump(bytes, isPtr, record);
      p := Some(q);
    }

    /** A pointer is stored into an object of the heap. */
    method Write(o: Ptr, k: nat, v: Ptr)
      requires Valid() && o in from && k < |from[o].words| && (v in from || (!sp.InFrom(v) && !sp.InTo(v)))
      modifies this`from
      ensures Valid() && from == old(from)[o := old(from)[o].(words := old(from)[o].words[k := v])]
    {
      sp.Stores(from, roots, o, k, v);
      from := from[o := from[o].(words := from[o].words[k := v])];
    }
  }

  lemma CopiesDone(sp: Spaces, h: Heap, rs: seq<Ptr>, from: Heap, to: Heap, fwd: map<Ptr, Ptr>, back: map<Ptr, Ptr>,
                   free: Ptr)
    requires sp.Copying(h, rs, from, to, fwd, back, free) && ScannedTo(h, to, fwd, back, free, 0)
    ensures forall p <- fwd :: p in h && fwd[p] in to && CopyOf(h, fwd, h[p], to[fwd[p]], |to[fwd[p]].words|)
  {
    forall p <- fwd ensures p in h && fwd[p] in to && CopyOf(h, fwd, h[p], to[fwd[p]], |to[fwd[p]].words|) {
      var q := fwd[p];
      OnTileBounds(to, q, sp.toStart, free);
      assert CopyOf(h, fwd, h[back[q]], to[q], Done(q, |to[q].words|, free, 0));
    }
  }

  lemma AllForwarded(sp: Spaces, h: Heap, rs: seq<Ptr>, from: Heap, to: Heap, fwd: map<Ptr, Ptr>, back: map<Ptr, Ptr>,
                     free: Ptr, roots: seq<Ptr>)
    requires sp.Copying(h, rs, from, to, fwd, back, free)
    requires forall p <- fwd :: p in h && fwd[p] in to && CopyOf(h, fwd, h[p], to[fwd[p]], |to[fwd[p]].words|)
    requires |roots| == |rs| && forall i :: 0 <= i < |rs| ==>
             roots[i] == Image(fwd, rs[i], true) && (rs[i] in h ==> rs[i] in fwd)
    ensures forall p :: p in fwd <==> p in h && Reachable(h, rs, p)
  {
    forall p | p in h && Reachable(h, rs, p) ensures p in fwd {
      var path :| Path(h, rs, path) && path[|path| - 1] == p;
      ReachableIsForwarded(h, rs, to, fwd, back, path);
    }
  }

  /** The new heap is fit for the next collection. */
  lemma NewSource(sp: Spaces, h: Heap, rs: seq<Ptr>, from: Heap, to: Heap, fwd: map<Ptr, Ptr>, back: map<Ptr, Ptr>,
                  free: Ptr, roots: seq<Ptr>)
    requires sp.Copying(h, rs, from, to, fwd, back, free)
    requires forall p <- fwd :: p in h && fwd[p] in to && CopyOf(h, fwd, h[p], to[fwd[p]], |to[fwd[p]].words|)
    requires |roots| == |rs| && forall i :: 0 <= i < |rs| ==>
             roots[i] == Image(fwd, rs[i], true) && (rs[i] in h ==> rs[i] in fwd)
    ensures Spaces(sp.toStart, free, sp.toLimit, sp.fromStart, sp.fromLimit).Source(to, roots)
  {
    sp.Fits(h, rs, from, to, fwd, back, free);
    forall q <- to ensures WellFormed(to[q]) && !to[q].forwarded && sp.toStart <= q < free {
      OnTileBounds(to, q, sp.toStart, free);
      var p := back[q];
      assert p in fwd && fwd[p] == q;
      assert CopyOf(h, fwd, h[p], to[fwd[p]], |to[fwd[p]].words|);
    }
    forall q, w | Points(to, q, w) ensures (sp.InTo(w) ==> w in to) && !sp.InFrom(w) {
      NewPointer(sp, h, rs, from, to, fwd, back, free, q, w);
    }
    forall p <- roots ensures (sp.InTo(p) ==> p in to) && !sp.InFrom(p) {
      var i :| 0 <= i < |roots| && roots[i] == p;
      assert rs[i] in rs;
      NewValue(sp, h, rs, from, to, fwd, back, free, rs[i], p);
    }
    hide Points, CopyOf, Forwards, OnlyReachable, Reachable, Forwarded;
  }

  /** The image of a pointer is an object of the new space or lies outside both. */
  lemma NewValue(sp: Spaces, h: Heap, rs: seq<Ptr>, from: Heap, to: Heap, fwd: map<Ptr, Ptr>, back: map<Ptr, Ptr>,
                 free: Ptr, v: Ptr, w: Ptr)
    requires sp.Copying(h, rs, from, to, fwd, back, free) && w == Image(fwd, v, true)
    requires (sp.InFrom(v) ==> v in h) && !sp.InTo(v) && (v in h ==> v in fwd)
    ensures (sp.InTo(w) ==> w in to) && !sp.InFrom(w)
  {
    sp.Fits(h, rs, from, to, fwd, back, free);
    if v in fwd { OnTileBounds(to, w, sp.toStart, free); }
  }

  lemma NewPointer(sp: Spaces, h: Heap, rs: seq<Ptr>, from: Heap, to: Heap, fwd: map<Ptr, Ptr>, back: map<Ptr, Ptr>,
                   free: Ptr, q: Ptr, w: Ptr)
    requires sp.Copying(h, rs, from, to, fwd, back, free) && Points(to, q, w)
    requires forall p <- fwd :: p in h && fwd[p] in to && CopyOf(h, fwd, h[p], to[fwd[p]], |to[fwd[p]].words|)
    ensures (sp.InTo(w) ==> w in to) && !sp.InFrom(w)
  {
    var p := back[q];
    assert CopyOf(h, fwd, h[p], to[fwd[p]], |to[q].words|);
    var i :| 0 <= i < |to[q].words| && i < |to[q].isPtr| && to[q].isPtr[i] && to[q].words[i] == w;
    var v := h[p].words[i];
    assert IsPtr(h[p], i) && Points(h, p, v);
    NewValue(sp, h, rs, from, to, fwd, back, free, v, w);
  }

  lemma {:induction false} NothingForwarded(h: Heap, p: Ptr, end: Ptr)
    requires forall q <- h :: !h[q].forwarded
    ensures Forwarded(h, p, end) == 0
    decreases end - p
  {
    if p < end && p in h { NothingForwarded(h, p + Size(h[p]), end); }
  }
}
