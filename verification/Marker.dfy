/**
 The sequential marker of heap_bitmap.c: a bitmap of three levels, the count of marked blocks, and a mark stack
 threaded through one slot per block.
 */
module Marker {
  import opened Bits
  import opened Bitmap
  import opened Wrappers

  // ---------------------------------------------------------------- the layout of the bitmap

  /** Levels of the bitmap: nb bits that mean something, k words, s sentinel bits behind the nb. */
  datatype Level = Level(nb: nat, k: nat, s: nat)

  /** calc_layout: at least the given number of sentinel bits, and up to the end of the word. */
  function LevelOf(nb: nat, sentinels: nat): Level {
    var k := (nb + sentinels + 31) / 32;
    Level(nb, k, 32 * k - nb)
  }

  function Above(l: Level): Level { LevelOf((l.nb + 31) / 32, 1 + l.s / 32) }

  /** The layout of a segment of n blocks. */
  function Level0(n: nat): Level { LevelOf(n, 1) }

  function Level1(n: nat): Level { Above(Level0(n)) }

  function Level2(n: nat): Level { Above(Level1(n)) }

  /** All sentinels fit into the last word, the only one that clear_bitmap writes them to. */
  predicate Fits(l: Level) { 1 <= l.s <= 32 }

  /** The bits of a level and its sentinels. */
  predicate Guarded(ws: seq<bv32>, l: Level) {
    |ws| == l.k && forall i :: l.nb <= i < 32 * |ws| ==> BitAt(ws, i)
  }

  /** An upper bit says that the word below it is full. */
  predicate Tells(lower: seq<bv32>, upper: seq<bv32>) {
    |lower| <= 32 * |upper| && forall j :: 0 <= j < |lower| ==> (BitAt(upper, j) <==> lower[j] == FULL)
  }

  /** struct segment: live_count, the bitmap, the stack slots. */
  datatype Segment = Segment(n: nat, live: nat, w0: seq<bv32>, w1: seq<bv32>, w2: seq<bv32>, stack: seq<Link>)

  /** A block, by its segment and its index there. */
  datatype Ref = Ref(seg: nat, index: nat)

  /** The contents of a stack slot and of stack_top: NULL, the address of stack_last, or an object. */
  datatype Link = Null | Last | To(r: Ref)

  function Ones(ws: seq<bv32>, n: nat): (c: nat)
    requires n <= 32 * |ws|
    ensures c <= n
  {
    if n == 0 then 0 else Ones(ws, n - 1) + if BitAt(ws, n - 1) then 1 else 0
  }

  predicate TreeOk(s: Segment) {
    && Guarded(s.w0, Level0(s.n)) && Guarded(s.w1, Level1(s.n)) && Guarded(s.w2, Level2(s.n))
    && Tells(s.w0, s.w1) && Tells(s.w1, s.w2)
    && s.n <= 32 * |s.w0| && s.live == Ones(s.w0, s.n) && |s.stack| == s.n
  }

  function SetBit(ws: seq<bv32>, i: nat): seq<bv32>
    requires i < 32 * |ws|
  {
    ws[i / 32 := Or(ws[i / 32], One(i % 32))]
  }

  lemma SetBitAt(ws: seq<bv32>, i: nat, j: nat)
    requires i < 32 * |ws| && j < 32 * |ws|
    ensures BitAt(SetBit(ws, i), j) <==> BitAt(ws, j) || j == i
  {
    OrBit(ws[i / 32], One(i % 32), j % 32);
    OneBit(i % 32, j % 32);
    hide Bit, One, Or;
    assert j == i <==> j / 32 == i / 32 && j % 32 == i % 32;
  }

  /** MARKBIT: the bit, and the bits above it as long as words become full. */
  function MarkBit(s: Segment, index: nat): Segment
    requires TreeOk(s) && index < s.n
  {
    LevelSizes(s.n);
    var w0 := SetBit(s.w0, index);
    if w0[index / 32] != FULL then s.(live := s.live + 1, w0 := w0)
    else
      var w1 := SetBit(s.w1, index / 32);
      if w1[index / 32 / 32] != FULL then s.(live := s.live + 1, w0 := w0, w1 := w1)
      else s.(live := s.live + 1, w0 := w0, w1 := w1, w2 := SetBit(s.w2, index / 32 / 32))
  }

  lemma LevelSizes(n: nat)
    ensures n < 32 * Level0(n).k && Level0(n).k <= 32 * Level1(n).k && Level1(n).k <= 32 * Level2(n).k
  {
    var a := Level0(n);
    var b := Above(a);
    AboveCovers(a);
    AboveCovers(b);
  }

  lemma AboveCovers(l: Level)
    requires l.k == (l.nb + l.s) / 32 && (l.nb + l.s) % 32 == 0
    ensures l.k <= 32 * Above(l).k
  {
    var u := Above(l);
    assert 32 * l.k == l.nb + l.s;
    assert 32 * ((l.nb + 31) / 32) >= l.nb;
    assert 32 * (1 + l.s / 32) > l.s;
    assert l.k <= (l.nb + 31) / 32 + 1 + l.s / 32;
  }

  /** Level 0 always fits; the upper levels do unless a last word of nothing but sentinels needs a bit of its own above
      and finds only one left in its word. */
  lemma LayoutFits(n: nat)
    ensures Fits(Level0(n))
    ensures Fits(Level1(n)) && Fits(Level2(n)) <==> n % 1024 != 992 && (n + 31) / 32 % 1024 != 992
  {
    LevelFits(n, 1);
    FitsAbove(Level0(n));
    hide Fits, LevelOf, Above;
    if Fits(Level1(n)) { FitsAbove(Level1(n)); }
  }

  // calc_layout with 64-bit pointers: 48 bytes of struct segment, then the three levels, 8 bytes of stack slot and the
  // block for each of n blocks.

  const SEGMENT_SIZE := 131072
  const SEG_INITIAL_OFFSET := 48

  function Ceil(x: int, y: int): int
    requires y > 0
  {
    (x + y - 1) / y * y
  }

  /** Words in the three levels for n blocks. */
  function BitmapWords(n: nat): nat { Level0(n).k + Level1(n).k + Level2(n).k }

  /** Where n blocks of this size end, behind so many words of bitmap. */
  function EndOf(words: nat, n: nat, size: nat, align: nat): nat
    requires align > 0
  {
    Ceil(Ceil(SEG_INITIAL_OFFSET + 4 * words, 8) + 8 * n + 4, align) + n * size
  }

  predicate HasRoom(n: nat, size: nat, align: nat)
    requires align > 0
  {
    EndOf(BitmapWords(n), n, size, align) <= SEGMENT_SIZE
  }

  /** The first estimate: a block takes 1 + 1/32 + 1/1024 + 1/32768 bits in the levels, which is 33825/262144 of a byte.
      The quotient of doubles is taken as the exact one. */
  function Estimate(size: nat): int { (SEGMENT_SIZE - SEG_INITIAL_OFFSET) * 262144 / ((size + 8) * 262144 + 33825) }

  /** The greatest number up to the estimate for which a segment has room. */
  predicate IsLayout(n: nat, size: nat, align: nat)
    requires align > 0
  {
    n <= Estimate(size) && HasRoom(n, size, align) && forall m :: n < m <= Estimate(size) ==> !HasRoom(m, size, align)
  }

  /** The loop of calc_layout. */
  method CalcLayout(size: nat, align: nat) returns (n: nat)
    requires align > 0 && exists m: nat :: m <= Estimate(size) && HasRoom(m, size, align)
    ensures IsLayout(n, size, align)
  {
    hide HasRoom, Estimate;
    n := Estimate(size);
    while !HasRoom(n, size, align)
      invariant n <= Estimate(size) && exists m: nat :: m <= n && HasRoom(m, size, align)
      invariant forall m :: n < m <= Estimate(size) ==> !HasRoom(m, size, align)
      decreases n
    {
      n := n - 1;
    }
  }

  lemma WordsAre(n: nat, k0: nat, k1: nat)
    requires 32 * k0 - 32 <= n < 32 * k0
    requires var s0 := 1 + (32 * k0 - n) / 32; var b1 := (n + 31) / 32;
             && 32 * k1 - 32 < b1 + s0 <= 32 * k1
             && (b1 + 31) / 32 + (1 + (32 * k1 - b1) / 32) <= 32
    ensures BitmapWords(n) == k0 + k1 + 1
  {
    assert Level0(n) == Level(n, k0, 32 * k0 - n);
    var b1 := (n + 31) / 32;
    assert Level1(n) == Level(b1, k1, 32 * k1 - b1);
  }

  lemma CeilIs(x: int, y: int)
    requires y > 0
    ensures Ceil(x, y) == (x + y - 1) / y * y
  {
  }

  lemma EndIs(words: nat, n: nat, size: nat, align: nat)
    requires align > 0
    ensures EndOf(words, n, size, align) ==
            ((48 + 4 * words + 7) / 8 * 8 + 8 * n + 4 + align - 1) / align * align + n * size
  {
    hide Ceil;
    CeilIs(48 + 4 * words, 8);
    CeilIs((48 + 4 * words + 7) / 8 * 8 + 8 * n + 4, align);
  }

  /** The levels of n blocks, from the equations of the divisions, and the end at both alignments. */
  lemma RoomFor(n: nat, size: nat, k0: nat, k1: nat)
    requires 32 * k0 - 32 <= n < 32 * k0
    requires var s0 := 1 + (32 * k0 - n) / 32; var b1 := (n + 31) / 32;
             && 32 * k1 - 32 < b1 + s0 <= 32 * k1
             && (b1 + 31) / 32 + (1 + (32 * k1 - b1) / 32) <= 32
    ensures var filled := (48 + 4 * (k0 + k1 + 1) + 7) / 8 * 8 + 8 * n + 4;
            && (HasRoom(n, size, 8) <==> (filled + 8 - 1) / 8 * 8 + n * size <= SEGMENT_SIZE)
            && (HasRoom(n, size, 16) <==> (filled + 16 - 1) / 16 * 16 + n * size <= SEGMENT_SIZE)
  {
    hide BitmapWords, EndOf;
    WordsAre(n, k0, k1);
    EndIs(k0 + k1 + 1, n, size, 8);
    EndIs(k0 + k1 + 1, n, size, 16);
  }

  /** The three sizes for which the estimate is one too large. */
  lemma Room8()
    ensures Estimate(8) == 8123 && !HasRoom(8123, 8, 8) && !HasRoom(8123, 8, 16)
    ensures HasRoom(8122, 8, 8) && HasRoom(8122, 8, 16)
  {
    hide HasRoom;
    RoomFor(8123, 8, 254, 8);
    RoomFor(8122, 8, 254, 8);
  }

  lemma Room16()
    ensures Estimate(16) == 5430 && !HasRoom(5430, 16, 8) && !HasRoom(5430, 16, 16)
    ensures HasRoom(5429, 16, 8) && HasRoom(5429, 16, 16)
  {
    hide HasRoom;
    RoomFor(5430, 16, 170, 6);
    RoomFor(5429, 16, 170, 6);
  }

  lemma Room32()
    ensures Estimate(32) == 3265 && !HasRoom(3265, 32, 8) && !HasRoom(3265, 32, 16)
    ensures HasRoom(3264, 32, 8) && HasRoom(3264, 32, 16)
  {
    hide HasRoom;
    RoomFor(3265, 32, 103, 4);
    RoomFor(3264, 32, 103, 4);
  }

  lemma Room64()
    ensures Estimate(64) == 1816 && HasRoom(1816, 64, 8) && HasRoom(1816, 64, 16)
    ensures Estimate(128) == 962 && HasRoom(962, 128, 8) && HasRoom(962, 128, 16)
    ensures Estimate(256) == 496 && HasRoom(496, 256, 8) && HasRoom(496, 256, 16)
  {
    hide HasRoom;
    RoomFor(1816, 64, 57, 2);
    RoomFor(962, 128, 31, 1);
    RoomFor(496, 256, 16, 1);
  }

  lemma Room512()
    ensures Estimate(512) == 251 && HasRoom(251, 512, 8) && HasRoom(251, 512, 16)
    ensures Estimate(1024) == 126 && HasRoom(126, 1024, 8) && HasRoom(126, 1024, 16)
  {
    hide HasRoom;
    RoomFor(251, 512, 8, 1);
    RoomFor(126, 1024, 4, 1);
  }

  lemma Room2048()
    ensures Estimate(2048) == 63 && HasRoom(63, 2048, 8) && HasRoom(63, 2048, 16)
    ensures Estimate(4096) == 31 && HasRoom(31, 4096, 8) && HasRoom(31, 4096, 16)
  {
    hide HasRoom;
    RoomFor(63, 2048, 2, 1);
    RoomFor(31, 4096, 1, 1);
  }

  /** The ten layouts of the runtime: blocks of 8 to 4096 bytes in segments of 128 KiB, at either alignment. */
  lemma RuntimeLayoutsFit(n: nat, size: nat, align: nat)
    requires size in {8, 16, 32, 64, 128, 256, 512, 1024, 2048, 4096} && align in {8, 16}
    requires IsLayout(n, size, align)
    ensures Fits(Level0(n)) && Fits(Level1(n)) && Fits(Level2(n))
    ensures (size, n) in {(8, 8122), (16, 5429), (32, 3264), (64, 1816), (128, 962), (256, 496), (512, 251),
                          (1024, 126), (2048, 63), (4096, 31)}
  {
    hide HasRoom, Estimate, EndOf, Level0, Level1, Level2, Fits, BitmapWords;
    Room8();
    Room16();
    Room32();
    Room64();
    Room512();
    Room2048();
    assert (size, n) in {(8, 8122), (16, 5429), (32, 3264), (64, 1816), (128, 962), (256, 496), (512, 251), (1024, 126),
                         (2048, 63), (4096, 31)};
    LayoutFits(n);
  }

  /** A level above one that fits. */
  lemma FitsAbove(l: Level)
    requires Fits(l) && (l.s == 32 <==> l.nb % 32 == 0)
    ensures Above(l).nb == (l.nb + 31) / 32
    ensures Fits(Above(l)) <==> l.nb % 1024 != 992
    ensures Fits(Above(l)) ==> (Above(l).s == 32 <==> Above(l).nb % 32 == 0)
  {
    LevelFits((l.nb + 31) / 32, 1 + l.s / 32);
    Twice(l.nb);
    hide LevelOf;
  }

  lemma LevelFits(nb: nat, sentinels: nat)
    requires sentinels == 1 || sentinels == 2
    ensures var l := LevelOf(nb, sentinels);
            && (Fits(l) <==> !(sentinels == 2 && nb % 32 == 31))
            && (Fits(l) ==> (l.s == 32 <==> nb % 32 == 0))
  {
  }

  lemma Twice(n: nat)
    ensures n % 1024 == 992 <==> n % 32 == 0 && n / 32 % 32 == 31
  {
    var q, r := n / 32, n % 32;
    var a, b := q / 32, q % 32;
    assert n == 1024 * a + (32 * b + r);
  }

  /** A fresh level: zero but for the sentinels in its last word. */
  function Blank(l: Level): seq<bv32>
    requires Fits(l) && l.k > 0
  {
    seq(l.k - 1, _ => 0 as bv32) + [From(32 - l.s)]
  }

  lemma BlankBits(l: Level)
    requires Fits(l) && 32 * l.k == l.nb + l.s
    ensures l.k > 0 && Guarded(Blank(l), l) && forall i :: 0 <= i < l.nb ==> !BitAt(Blank(l), i)
  {
    hide Bit, From;
    forall i | 0 <= i < 32 * l.k ensures BitAt(Blank(l), i) <==> i >= l.nb {
      if i / 32 == l.k - 1 {
        FromBit(32 - l.s, i % 32);
      } else {
        ZeroBit(i % 32);
      }
    }
  }

  /** clear_bitmap. */
  function Cleared(n: nat): Segment
    requires Fits(Level1(n)) && Fits(Level2(n))
  {
    LayoutFits(n);
    Segment(n, 0, Blank(Level0(n)), Blank(Level1(n)), Blank(Level2(n)), seq(n, _ => Null))
  }

  lemma ClearedOk(n: nat)
    requires Fits(Level1(n)) && Fits(Level2(n))
    ensures TreeOk(Cleared(n)) && forall i :: 0 <= i < n ==> !BitAt(Cleared(n).w0, i)
  {
    LayoutFits(n);
    var a, b, c := Level0(n), Level1(n), Level2(n);
    BlankBits(a);
    BlankBits(b);
    BlankBits(c);
    LevelSizes(n);
    BlankTells(a);
    BlankTells(b);
    NoOnes(Blank(a), n);
  }

  lemma {:induction false} NoOnes(ws: seq<bv32>, n: nat)
    requires n <= 32 * |ws| && forall i :: 0 <= i < n ==> !BitAt(ws, i)
    ensures Ones(ws, n) == 0
  {
    hide Bit;
    if n > 0 { NoOnes(ws, n - 1); }
  }

  /** A fresh word is full exactly when it is all sentinels, and then the bit above it is a sentinel too. */
  lemma BlankTells(l: Level)
    requires Fits(l) && Fits(Above(l)) && 32 * l.k == l.nb + l.s && l.k <= 32 * Above(l).k
    ensures l.k > 0 && Above(l).k > 0 && Tells(Blank(l), Blank(Above(l)))
  {
    var u := Above(l);
    BlankBits(l);
    BlankBits(u);
    hide Bit, From;
    forall j | 0 <= j < l.k ensures BitAt(Blank(u), j) <==> Blank(l)[j] == FULL {
      ClearWord(Blank(l), j);
      if 32 * j < l.nb { assert !BitAt(Blank(l), 32 * j); }
      assert j >= u.nb <==> 32 * j >= l.nb;
    }
  }

  /** MARKBIT keeps the tree of bitmaps and the count right, and sets that one bit. */
  lemma MarkBitOk(s: Segment, index: nat)
    requires TreeOk(s) && index < s.n && !BitAt(s.w0, index)
    ensures var t := MarkBit(s, index);
            && TreeOk(t) && t.n == s.n && t.stack == s.stack && t.live == s.live + 1
            && forall i :: 0 <= i < s.n ==> (BitAt(t.w0, i) <==> BitAt(s.w0, i) || i == index)
  {
    LevelSizes(s.n);
    var w0, w1 := SetBit(s.w0, index), SetBit(s.w1, index / 32);
    hide BitAt, SetBit, Tells, Ones, Guarded, Level0, Level1, Level2;
    LowerSet(s.w0, s.w1, index);
    OnesSet(s.w0, index, s.n);
    GuardedSet(s.w0, index, Level0(s.n));
    if w0[index / 32] == FULL {
      LowerSet(s.w1, s.w2, index / 32);
      GuardedSet(s.w1, index / 32, Level1(s.n));
      if w1[index / 32 / 32] == FULL {
        GuardedSet(s.w2, index / 32 / 32, Level2(s.n));
      }
    }
  }

  lemma GuardedSet(ws: seq<bv32>, i: nat, l: Level)
    requires i < 32 * |ws| && Guarded(ws, l)
    ensures |SetBit(ws, i)| == |ws| && Guarded(SetBit(ws, i), l)
    ensures forall j :: 0 <= j < 32 * |ws| ==> (BitAt(SetBit(ws, i), j) <==> BitAt(ws, j) || j == i)
  {
    BitsSet(ws, i);
    hide BitAt, SetBit;
  }

  lemma BitsSet(ws: seq<bv32>, i: nat)
    requires i < 32 * |ws|
    ensures |SetBit(ws, i)| == |ws|
            && forall j :: 0 <= j < 32 * |ws| ==> (BitAt(SetBit(ws, i), j) <==> BitAt(ws, j) || j == i)
  {
    hide Bit, One, Or;
    forall j | 0 <= j < 32 * |ws| ensures BitAt(SetBit(ws, i), j) <==> BitAt(ws, j) || j == i { SetBitAt(ws, i, j); }
  }

  /** The words of the lower level, and what the upper level must be told when one of them has become full. */
  lemma LowerSet(lower: seq<bv32>, upper: seq<bv32>, i: nat)
    requires Tells(lower, upper) && i < 32 * |lower| && !BitAt(lower, i)
    ensures var w := SetBit(lower, i);
            && i / 32 < |lower| <= 32 * |upper| && !BitAt(upper, i / 32)
            && (w[i / 32] != FULL ==> Tells(w, upper))
            && (w[i / 32] == FULL ==> Tells(w, SetBit(upper, i / 32)))
  {
    ClearWord(lower, i / 32);
    assert 32 * (i / 32) <= i < 32 * (i / 32 + 1);
    BitsSet(upper, i / 32);
    hide Bit;
  }

  lemma {:induction false} OnesSet(ws: seq<bv32>, i: nat, n: nat)
    requires n <= 32 * |ws| && i < 32 * |ws| && !BitAt(ws, i)
    ensures Ones(SetBit(ws, i), n) == Ones(ws, n) + if i < n then 1 else 0
  {
    hide Bit, SetBit;
    if n > 0 {
      OnesSet(ws, i, n - 1);
      SetBitAt(ws, i, n - 1);
    }
    assert |SetBit(ws, i)| == |ws| by { BitsSet(ws, i); }
  }

  // ---------------------------------------------------------------- objects

  datatype Kind = Unboxed | Boxed | Record(isPtr: seq<bool>)

  /** An object: its type, and its words; a word that is a pointer is NULL or points to an object of the heap. */
  datatype Object = Object(kind: Kind, words: seq<Option<Ref>>)

  type Graph = map<Ref, Object>

  predicate PtrAt(o: Object, i: nat)
    requires i < |o.words|
  {
    match o.kind
    case Unboxed => false
    case Boxed => true
    case Record(isPtr) => i < |isPtr| && isPtr[i]
  }

  /** OBJ_HAS_NO_POINTER: decided by the header, or by the only bitmap word of a record. */
  predicate HasNoPointer(o: Object) {
    match o.kind
    case Unboxed => true
    case Boxed => false
    case Record(isPtr) => (|o.words| + 31) / 32 == 1 && forall i :: 0 <= i < 32 && i < |isPtr| ==> !isPtr[i]
  }

  predicate Edge(g: Graph, a: Ref, b: Ref) {
    a in g && exists i :: 0 <= i < |g[a].words| && PtrAt(g[a], i) && g[a].words[i] == Some(b)
  }

  /** What an object points to: an unboxed one to nothing, a boxed one to whatever is in it, and a record to what the
      words hold for which its bitmap has a bit. */
  lemma EdgesAre(g: Graph, a: Ref, b: Ref)
    requires a in g
    ensures match g[a].kind
            case Unboxed => !Edge(g, a, b)
            case Boxed => Edge(g, a, b) <==> Some(b) in g[a].words
            case Record(m) =>
              Edge(g, a, b) <==> exists i :: 0 <= i < |g[a].words| && i < |m| && m[i] && g[a].words[i] == Some(b)
  {
    if g[a].kind.Boxed? && Some(b) in g[a].words {
      var i :| 0 <= i < |g[a].words| && g[a].words[i] == Some(b);
      assert PtrAt(g[a], i);
    }
    if g[a].kind.Record? {
      var m := g[a].kind.isPtr;
      forall i | 0 <= i < |g[a].words| ensures PtrAt(g[a], i) <==> i < |m| && m[i] { }
    }
  }

  /** The test of the header and the only bitmap word is right about an object of up to 32 words, and longer records are
      always looked at. */
  lemma NoPointerMeans(o: Object)
    requires o.kind.Record? ==> |o.kind.isPtr| == |o.words|
    ensures HasNoPointer(o) ==> forall i :: 0 <= i < |o.words| ==> !PtrAt(o, i)
    ensures 0 < |o.words| <= 32 && (forall i :: 0 <= i < |o.words| ==> !PtrAt(o, i)) ==> HasNoPointer(o)
    ensures o.kind.Record? && |o.words| > 32 ==> !HasNoPointer(o)
  {
    assert o.kind.Boxed? && |o.words| > 0 ==> PtrAt(o, 0);
    assert o.kind.Record? ==> forall i :: 0 <= i < |o.words| ==> PtrAt(o, i) == o.kind.isPtr[i];
  }

  ghost predicate Path(g: Graph, p: seq<Ref>) {
    p != [] && forall i, j :: 0 <= i && j == i + 1 && j < |p| ==> Edge(g, p[i], p[j])
  }

  ghost predicate Reaches(g: Graph, a: Ref, b: Ref) {
    exists p: seq<Ref> :: Path(g, p) && p[0] == a && p[|p| - 1] == b
  }

  lemma ReachesItself(g: Graph, a: Ref)
    ensures Reaches(g, a, a)
  {
    assert Path(g, [a]);
  }

  lemma ReachesOn(g: Graph, a: Ref, b: Ref, c: Ref)
    requires Reaches(g, a, b) && Edge(g, b, c)
    ensures Reaches(g, a, c)
  {
    hide Edge;
    var p :| Path(g, p) && p[0] == a && p[|p| - 1] == b;
    assert Path(g, p + [c]);
  }

  ghost predicate ClosedUnder(g: Graph, m: set<Ref>) {
    forall a, b :: a in m && Edge(g, a, b) ==> b in m
  }

  lemma {:induction false} ClosedHoldsPaths(g: Graph, m: set<Ref>, p: seq<Ref>)
    requires ClosedUnder(g, m) && Path(g, p) && p[0] in m
    ensures p[|p| - 1] in m
    decreases |p|
  {
    hide Edge;
    var n := |p| - 1;
    if n > 0 {
      ClosedHoldsPaths(g, m, p[..n]);
      assert Edge(g, p[n - 1], p[n]);
    }
  }

  // ---------------------------------------------------------------- the heap in the middle of marking

  type Segments = map<nat, Segment>

  predicate In(ss: Segments, r: Ref) { r.seg in ss && r.index < ss[r.seg].n }

  ghost predicate SegmentsOk(ss: Segments) { forall i <- ss :: TreeOk(ss[i]) }

  /** The bit of a block is set. */
  predicate Bitten(ss: Segments, r: Ref) {
    In(ss, r) && r.index < 32 * |ss[r.seg].w0| && BitAt(ss[r.seg].w0, r.index)
  }

  function Slot(ss: Segments, r: Ref): Link {
    if In(ss, r) && r.index < |ss[r.seg].stack| then ss[r.seg].stack[r.index] else Null
  }

  /** Every object is a block, every bit belongs to an object, and every pointer to one. */
  ghost predicate GraphOk(g: Graph, ss: Segments) {
    && (forall r <- g :: In(ss, r))
    && (forall r: Ref :: Bitten(ss, r) ==> r in g)
    && (forall a: Ref, b: Ref :: Edge(g, a, b) ==> b in g)
  }

  ghost function Marked(g: Graph, ss: Segments): set<Ref> { set r | r in g && Bitten(ss, r) }

  /** The mark stack holds st, and all other slots are NULL. */
  ghost predicate StackIs(ss: Segments, top: Link, st: seq<Ref>) {
    && (forall i :: 0 <= i < |st| ==> In(ss, st[i]))
    && (forall i, j :: 0 <= i < j < |st| ==> st[i] != st[j])
    && top == (if st == [] then Last else To(st[0]))
    && (forall i, j :: 0 <= i && j == i + 1 && j < |st| ==> Slot(ss, st[i]) == To(st[j]))
    && (st != [] ==> Slot(ss, st[|st| - 1]) == Last)
    && (forall r: Ref :: r !in st ==> Slot(ss, r) == Null)
  }

  function SetMark(ss: Segments, r: Ref): Segments
    requires In(ss, r) && TreeOk(ss[r.seg])
  {
    ss[r.seg := MarkBit(ss[r.seg], r.index)]
  }

  function SetSlot(ss: Segments, r: Ref, l: Link): Segments
    requires In(ss, r) && r.index < |ss[r.seg].stack|
  {
    var s := ss[r.seg];
    ss[r.seg := s.(stack := s.stack[r.index := l])]
  }

  ghost predicate SameBlocks(ss: Segments, t: Segments) { forall x: Ref :: In(t, x) <==> In(ss, x) }

  lemma SetMarkFacts(ss: Segments, r: Ref)
    requires SegmentsOk(ss) && In(ss, r) && !Bitten(ss, r)
    ensures SegmentsOk(SetMark(ss, r)) && SameBlocks(ss, SetMark(ss, r))
    ensures forall x: Ref :: Bitten(SetMark(ss, r), x) <==> Bitten(ss, x) || x == r
    ensures forall x: Ref :: Slot(SetMark(ss, r), x) == Slot(ss, x)
  {
    hide TreeOk, MarkBit, BitAt;
    var s, t := ss[r.seg], SetMark(ss, r);
    TreeSizes(s);
    MarkBitOk(s, r.index);
    TreeSizes(t[r.seg]);
  }

  lemma TreeSizes(s: Segment)
    requires TreeOk(s)
    ensures s.n <= 32 * |s.w0| && |s.stack| == s.n
  {
  }

  lemma StackKeepsTree(s: Segment, stack: seq<Link>)
    requires TreeOk(s) && |stack| == |s.stack|
    ensures TreeOk(s.(stack := stack))
  {
    hide Guarded, Tells, Ones, Level0, Level1, Level2;
  }

  lemma SetSlotFacts(ss: Segments, r: Ref, l: Link)
    requires SegmentsOk(ss) && In(ss, r)
    ensures r.index < |ss[r.seg].stack|
    ensures SegmentsOk(SetSlot(ss, r, l)) && SameBlocks(ss, SetSlot(ss, r, l))
    ensures forall x: Ref :: Bitten(SetSlot(ss, r, l), x) <==> Bitten(ss, x)
    ensures forall x: Ref :: Slot(SetSlot(ss, r, l), x) == if x == r then l else Slot(ss, x)
  {
    hide TreeOk, BitAt;
    var s := ss[r.seg];
    TreeSizes(s);
    StackKeepsTree(s, s.stack[r.index := l]);
  }

  /** A stack operation writes one slot and the top. */
  lemma PushFacts(ss: Segments, top: Link, st: seq<Ref>, r: Ref, t: Segments)
    requires StackIs(ss, top, st) && In(ss, r) && r !in st && SameBlocks(ss, t)
    requires forall x: Ref :: Slot(t, x) == if x == r then top else Slot(ss, x)
    ensures StackIs(t, To(r), [r] + st)
  {
    hide In, Slot;
    var u := [r] + st;
    forall i, j | 0 <= i && j == i + 1 && j < |u| ensures Slot(t, u[i]) == To(u[j]) {
      if i > 0 { assert u[i] == st[i - 1] && u[j] == st[j - 1]; }
    }
  }

  lemma PopFacts(ss: Segments, top: Link, st: seq<Ref>, t: Segments)
    requires StackIs(ss, top, st) && st != [] && SameBlocks(ss, t)
    requires forall x: Ref :: Slot(t, x) == if x == st[0] then Null else Slot(ss, x)
    ensures StackIs(t, Slot(ss, st[0]), st[1..])
  {
    hide In, Slot;
    var u := st[1..];
    forall x: Ref | x !in u ensures Slot(t, x) == Null {
      assert x in st ==> x == st[0];
    }
  }

  lemma StackStays(ss: Segments, top: Link, st: seq<Ref>, t: Segments)
    requires StackIs(ss, top, st) && SameBlocks(ss, t) && forall x: Ref :: Slot(t, x) == Slot(ss, x)
    ensures StackIs(t, top, st)
  {
    hide In, Slot;
  }

  // ---------------------------------------------------------------- marking

  /** What is marked and neither on the stack nor being enumerated points only to what is marked; of the object cur the
      first i words have been looked at. */
  ghost predicate BlackClosed(g: Graph, m: set<Ref>, st: seq<Ref>, cur: Ref, i: nat) {
    && (forall a, b :: a in m && a !in st && a != cur && Edge(g, a, b) ==> b in m)
    && (cur in g ==> forall k :: 0 <= k < i && k < |g[cur].words| && PtrAt(g[cur], k) && g[cur].words[k].Some? ==>
        g[cur].words[k].value in m)
  }

  /** Nothing is marked without need. */
  ghost predicate OnlyReached(g: Graph, m0: set<Ref>, root: Ref, m: set<Ref>) {
    forall a :: a in m ==> a in m0 || Reaches(g, root, a)
  }

  /** What is on the stack has been marked for this root. */
  predicate NewOnly(m0: set<Ref>, st: seq<Ref>) { forall x :: x in st ==> x !in m0 }

  /** The effect of marking and pushing one pointer. */
  function PushedSet(m: set<Ref>, p: Option<Ref>): set<Ref> { if p.Some? then m + {p.value} else m }

  function PushedStack(g: Graph, m: set<Ref>, st: seq<Ref>, p: Option<Ref>): seq<Ref> {
    if p.Some? && p.value !in m && p.value in g && !HasNoPointer(g[p.value]) then [p.value] + st else st
  }

  lemma ClearedValid(g: Graph, segs: Segments)
    requires forall i <- segs :: Fits(Level1(segs[i].n)) && Fits(Level2(segs[i].n)) && segs[i] == Cleared(segs[i].n)
    requires (forall r <- g :: In(segs, r)) && forall a: Ref, b: Ref :: Edge(g, a, b) ==> b in g
    ensures SegmentsOk(segs) && GraphOk(g, segs) && StackIs(segs, Last, []) && Marked(g, segs) == {}
  {
    hide Edge, TreeOk, Cleared, Fits, BitAt;
    forall i <- segs ensures TreeOk(segs[i]) && Untouched(segs[i]) { ClearedUntouched(segs[i].n); }
  }

  predicate Untouched(s: Segment) {
    && s.n <= 32 * |s.w0| && (forall k :: 0 <= k < s.n ==> !BitAt(s.w0, k))
    && |s.stack| == s.n && forall k :: 0 <= k < s.n ==> s.stack[k] == Null
  }

  lemma ClearedUntouched(n: nat)
    requires Fits(Level1(n)) && Fits(Level2(n))
    ensures TreeOk(Cleared(n)) && Untouched(Cleared(n))
  {
    ClearedOk(n);
    hide TreeOk, BitAt, Fits;
    TreeSizes(Cleared(n));
  }

  class Heap {
    const g: Graph
    var segs: Segments
    var top: Link

    ghost predicate Valid(st: seq<Ref>)
      reads this
    {
      && SegmentsOk(segs) && GraphOk(g, segs) && StackIs(segs, top, st)
      && forall x :: x in st ==> x in Marked(g, segs)
    }

    /** A heap whose bitmaps have been cleared. */
    constructor (g: Graph, segs: Segments)
      requires forall i <- segs :: Fits(Level1(segs[i].n)) && Fits(Level2(segs[i].n)) && segs[i] == Cleared(segs[i].n)
      requires (forall r <- g :: In(segs, r)) && forall a: Ref, b: Ref :: Edge(g, a, b) ==> b in g
      ensures this.g == g && this.segs == segs && Valid([]) && Marked(g, segs) == {}
    {
      this.g, this.segs, this.top := g, segs, Last;
      hide Edge, TreeOk, Cleared, SegmentsOk, GraphOk, StackIs, Bitten, In, Fits;
      ClearedValid(g, segs);
    }

    /** push: mark, and put on the stack what may have pointers. */
    method Push(p: Option<Ref>, ghost st: seq<Ref>)
      requires Valid(st) && (p.Some? ==> p.value in g)
      modifies this
      ensures Marked(g, segs) == PushedSet(old(Marked(g, segs)), p)
      ensures Valid(PushedStack(g, old(Marked(g, segs)), st, p))
    {
      hide TreeOk, BitAt, Slot, StackIs, Edge, HasNoPointer, SegmentsOk;
      if p.None? {
        return;
      }
      var r := p.value;
      var used := TestBit(r);
      if used {
        assert Marked(g, segs) == Marked(g, segs) + {r};
        return;
      }
      MarkBlock(r, st);
      if HasNoPointer(g[r]) {
        return;
      }
      StackPush(r, st);
    }

    method TestBit(r: Ref) returns (used: bool)
      requires SegmentsOk(segs) && In(segs, r)
      ensures used == Bitten(segs, r)
    {
      TreeSizes(segs[r.seg]);
      used := Has(segs[r.seg].w0[r.index / 32], One(r.index % 32));
    }

    method MarkBlock(r: Ref, ghost st: seq<Ref>)
      requires Valid(st) && r in g && !Bitten(segs, r)
      modifies this`segs
      ensures Valid(st) && Marked(g, segs) == old(Marked(g, segs)) + {r}
    {
      hide TreeOk, MarkBit, Bitten, Slot, Edge;
      assert r.seg in segs && TreeOk(segs[r.seg]);
      hide In;
      ghost var before := segs;
      SetMarkFacts(segs, r);
      segs := SetMark(segs, r);
      StackStays(before, top, st, segs);
    }

    method StackPush(r: Ref, ghost st: seq<Ref>)
      requires Valid(st) && r in g && Bitten(segs, r) && r !in st
      modifies this
      ensures Valid([r] + st) && Marked(g, segs) == old(Marked(g, segs))
    {
      hide TreeOk, Bitten, Slot, Edge;
      assert r.seg in segs;
      hide In;
      ghost var before := segs;
      SetSlotFacts(segs, r, top);
      segs := SetSlot(segs, r, top);
      PushFacts(before, top, st, r, segs);
      top := To(r);
    }

    method StackPop(ghost st: seq<Ref>) returns (r: Ref)
      requires Valid(st) && st != []
      modifies this
      ensures r == st[0] && Valid(st[1..]) && Marked(g, segs) == old(Marked(g, segs))
    {
      hide TreeOk, Bitten, Slot, Edge;
      r := top.r;
      assert r.seg in segs && forall x :: x in st[1..] ==> x in st;
      hide In;
      ghost var before := segs;
      SetSlotFacts(segs, r, Null);
      var next := Slot(segs, r);
      segs := SetSlot(segs, r, Null);
      PopFacts(before, top, st, segs);
      top := next;
    }

    /** sml_obj_enum_ptr(obj, push). */
    method Enumerate(cur: Ref, ghost st: seq<Ref>, ghost m0: set<Ref>, ghost root: Ref) returns (ghost st': seq<Ref>)
      requires Valid(st) && cur in Marked(g, segs) && cur !in st && BlackClosed(g, Marked(g, segs), st, cur, 0)
      requires OnlyReached(g, m0, root, Marked(g, segs)) && Reaches(g, root, cur) && m0 <= Marked(g, segs)
               && NewOnly(m0, st)
      modifies this
      ensures NewOnly(m0, st')
      ensures Valid(st') && cur !in st' && old(Marked(g, segs)) <= Marked(g, segs)
      ensures BlackClosed(g, Marked(g, segs), st', cur, |g[cur].words|) && OnlyReached(g, m0, root, Marked(g, segs))
      ensures Work(g, Marked(g, segs), st') <= old(Work(g, Marked(g, segs), st))
    {
      hide BlackClosed, OnlyReached, Work, PushedSet, PushedStack, SegmentsOk, StackIs, Reaches, NewOnly;
      st' := st;
      for i := 0 to |g[cur].words|
        invariant Valid(st') && cur in Marked(g, segs) && cur !in st' && old(Marked(g, segs)) <= Marked(g, segs)
        invariant BlackClosed(g, Marked(g, segs), st', cur, i) && OnlyReached(g, m0, root, Marked(g, segs))
        invariant Work(g, Marked(g, segs), st') <= old(Work(g, Marked(g, segs), st)) && NewOnly(m0, st')
      {
        var p := if PtrAt(g[cur], i) then g[cur].words[i] else None;
        ghost var m := Marked(g, segs);
        if PtrAt(g[cur], i) {
          PointeeIn(g, segs, cur, i);
          Push(p, st');
        } else {
          NothingPushed(g, m, st');
        }
        PushKeeps(g, m, st', cur, i, p, m0, root);
        st' := PushedStack(g, m, st', p);
      }
    }

    /** mark: one root.  When what was marked before is closed, exactly the objects that the root reaches are added, and
        the stack is empty again. */
    method Mark(block: Option<Ref>)
      requires Valid([]) && ClosedUnder(g, Marked(g, segs)) && (block.Some? ==> block.value in g)
      modifies this
      ensures Valid([]) && ClosedUnder(g, Marked(g, segs))
      ensures forall a :: a in Marked(g, segs) <==>
                          a in old(Marked(g, segs)) || (block.Some? && Reaches(g, block.value, a))
    {
      NoneOnStack(Marked(g, segs));
      hide BlackClosed, OnlyReached, Work, ClosedUnder, SegmentsOk, StackIs, Reaches, TreeOk, BitAt, NewOnly;
      ghost var m0 := Marked(g, segs);
      if block.None? {
        return;
      }
      var obj := block.value;
      var used := TestBit(obj);
      if used {
        AlreadyMarked(g, m0, obj);
        return;
      }
      MarkBlock(obj, []);
      ghost var root, st := obj, [];
      FirstMarked(g, m0, root);
      if !HasNoPointer(g[obj]) {
        while true
          invariant Valid(st) && NewOnly(m0, st) && m0 + {root} <= Marked(g, segs) && obj in Marked(g, segs)
                    && obj !in st
          invariant BlackClosed(g, Marked(g, segs), st, obj, 0) && OnlyReached(g, m0, root, Marked(g, segs))
                    && Reaches(g, root, obj)
          decreases Work(g, Marked(g, segs), st)
        {
          ghost var cur, before := obj, st;
          st := Enumerate(obj, st, m0, root);
          if top == Last {
            EmptyStack(segs, top, st);
            AllClosed(g, Marked(g, segs), cur);
            break;
          }
          NonEmptyStack(segs, top, st);
          NextGrey(g, Marked(g, segs), st, cur, m0, root);
          obj := StackPop(st);
          st := st[1..];
        }
      }
      assert ClosedUnder(g, Marked(g, segs));
      ExactlyReached(g, m0, root, Marked(g, segs));
    }
  
    /** All roots, one after the other: exactly what the roots reach is marked, and every stack slot is NULL again. */
    method MarkAll(roots: seq<Option<Ref>>)
      requires Valid([]) && Marked(g, segs) == {}
      requires forall r :: r in roots && r.Some? ==> r.value in g
      modifies this
      ensures Valid([]) && forall a :: a in Marked(g, segs) <==> IsLive(g, roots, a)
    {
      hide SegmentsOk, StackIs, Reaches, GraphOk, Edge, Bitten;
      for i := 0 to |roots|
        invariant Valid([]) && ClosedUnder(g, Marked(g, segs))
        invariant forall a :: a in Marked(g, segs) <==> IsLive(g, roots[..i], a)
      {
        Mark(roots[i]);
        LiveNext(g, roots, i);
      }
      assert roots[..|roots|] == roots;
    }
  }

  ghost predicate IsLive(g: Graph, roots: seq<Option<Ref>>, a: Ref) {
    exists r :: r in roots && r.Some? && Reaches(g, r.value, a)
  }

  lemma LiveNext(g: Graph, roots: seq<Option<Ref>>, i: nat)
    requires i < |roots|
    ensures forall a :: IsLive(g, roots[..i + 1], a) <==>
                        IsLive(g, roots[..i], a) || (roots[i].Some? && Reaches(g, roots[i].value, a))
  {
    hide Reaches;
    assert roots[..i + 1] == roots[..i] + [roots[i]];
  }

  /** live_count is the number of marked objects in the segment. */
  lemma LiveCounts(g: Graph, ss: Segments, i: nat)
    requires SegmentsOk(ss) && GraphOk(g, ss) && i in ss
    ensures ss[i].live == |set k: nat | k < ss[i].n && Ref(i, k) in Marked(g, ss)|
  {
    hide TreeOk, BitAt, Edge;
    TreeCount(ss[i]);
    assert (set k: nat | k < ss[i].n && Ref(i, k) in Marked(g, ss)) == (set k: nat | k < ss[i].n && BitAt(ss[i].w0, k));
  }

  lemma TreeCount(s: Segment)
    requires TreeOk(s)
    ensures s.n <= 32 * |s.w0| && s.live == |set k: nat | k < s.n && BitAt(s.w0, k)|
  {
    OnesCount(s.w0, s.n);
    hide BitAt, Guarded, Tells, Ones;
  }

  lemma {:induction false} OnesCount(ws: seq<bv32>, n: nat)
    requires n <= 32 * |ws|
    ensures Ones(ws, n) == |set k: nat | k < n && BitAt(ws, k)|
  {
    hide BitAt;
    if n > 0 {
      OnesCount(ws, n - 1);
      var a, b := set k: nat | k < n - 1 && BitAt(ws, k), set k: nat | k < n && BitAt(ws, k);
      assert b == if BitAt(ws, n - 1) then a + {n - 1} else a;
    }
  }

  /** What is left to do: objects not marked and objects on the stack. */
  ghost function Work(g: Graph, m: set<Ref>, st: seq<Ref>): nat { |g.Keys - m| + |st| }

  lemma PointeeIn(g: Graph, ss: Segments, cur: Ref, i: nat)
    requires GraphOk(g, ss) && cur in g && i < |g[cur].words| && PtrAt(g[cur], i)
    ensures g[cur].words[i].Some? ==> g[cur].words[i].value in g && Edge(g, cur, g[cur].words[i].value)
  {
    hide PtrAt;
  }

  lemma PushKeeps(g: Graph, m: set<Ref>, st: seq<Ref>, cur: Ref, i: nat, p: Option<Ref>, m0: set<Ref>, root: Ref)
    requires cur in g && i < |g[cur].words| && p == (if PtrAt(g[cur], i) then g[cur].words[i] else None)
    requires (p.Some? ==> p.value in g && Edge(g, cur, p.value)) && cur in m && (forall x :: x in st ==> x in m)
    requires BlackClosed(g, m, st, cur, i) && cur !in st && OnlyReached(g, m0, root, m) && Reaches(g, root, cur)
    ensures BlackClosed(g, PushedSet(m, p), PushedStack(g, m, st, p), cur, i + 1) && cur !in PushedStack(g, m, st, p)
    ensures OnlyReached(g, m0, root, PushedSet(m, p)) && m <= PushedSet(m, p)
    ensures m0 <= m && NewOnly(m0, st) ==> NewOnly(m0, PushedStack(g, m, st, p))
    ensures Work(g, PushedSet(m, p), PushedStack(g, m, st, p)) <= Work(g, m, st)
  {
    PushKeepsBlack(g, m, st, cur, i, p);
    if p.Some? { ReachesOn(g, root, cur, p.value); }
    hide BlackClosed, Edge, Reaches, PtrAt;
    if p.Some? && p.value !in m {
      assert g.Keys - (m + {p.value}) == (g.Keys - m) - {p.value};
    }
    if p.Some? && p.value in m {
      assert m + {p.value} == m;
    }
  }

  lemma NoneOnStack(m: set<Ref>)
    ensures NewOnly(m, [])
  {
  }

  lemma NothingPushed(g: Graph, m: set<Ref>, st: seq<Ref>)
    ensures PushedSet(m, None) == m && PushedStack(g, m, st, None) == st
  {
  }

  lemma PushKeepsBlack(g: Graph, m: set<Ref>, st: seq<Ref>, cur: Ref, i: nat, p: Option<Ref>)
    requires cur in g && i < |g[cur].words| && p == (if PtrAt(g[cur], i) then g[cur].words[i] else None)
    requires (p.Some? ==> p.value in g) && BlackClosed(g, m, st, cur, i)
    ensures BlackClosed(g, PushedSet(m, p), PushedStack(g, m, st, p), cur, i + 1)
  {
    if p.Some? && HasNoPointer(g[p.value]) {
      forall b ensures !Edge(g, p.value, b) { NoEdges(g, p.value, b); }
    }
    hide Edge, HasNoPointer;
  }

  lemma NoEdges(g: Graph, a: Ref, b: Ref)
    requires a in g && HasNoPointer(g[a])
    ensures !Edge(g, a, b)
  {
  }

  lemma AlreadyMarked(g: Graph, m: set<Ref>, r: Ref)
    requires ClosedUnder(g, m) && r in m
    ensures forall a :: Reaches(g, r, a) ==> a in m
  {
    hide Edge;
    forall a | Reaches(g, r, a) ensures a in m {
      var p :| Path(g, p) && p[0] == r && p[|p| - 1] == a;
      ClosedHoldsPaths(g, m, p);
    }
  }

  lemma FirstMarked(g: Graph, m0: set<Ref>, r: Ref)
    requires ClosedUnder(g, m0) && r in g
    ensures BlackClosed(g, m0 + {r}, [], r, 0) && OnlyReached(g, m0, r, m0 + {r}) && Reaches(g, r, r)
    ensures HasNoPointer(g[r]) ==> ClosedUnder(g, m0 + {r})
  {
    ReachesItself(g, r);
    if HasNoPointer(g[r]) {
      forall b ensures !Edge(g, r, b) { NoEdges(g, r, b); }
    }
    hide Edge, Reaches, HasNoPointer;
  }

  lemma EmptyStack(ss: Segments, top: Link, st: seq<Ref>)
    requires StackIs(ss, top, st) && top == Last
    ensures st == []
  {
  }

  lemma NonEmptyStack(ss: Segments, top: Link, st: seq<Ref>)
    requires StackIs(ss, top, st) && top != Last
    ensures st != [] && st[0] !in st[1..]
  {
  }

  /** With nothing on the stack and the last object enumerated everything marked is closed. */
  lemma AllClosed(g: Graph, m: set<Ref>, cur: Ref)
    requires cur in g && BlackClosed(g, m, [], cur, |g[cur].words|)
    ensures ClosedUnder(g, m)
  {
    forall a, b | a in m && Edge(g, a, b) ensures b in m {
    }
  }

  /** The object that was enumerated is black; the top of the stack is enumerated next. */
  lemma NextGrey(g: Graph, m: set<Ref>, st: seq<Ref>, cur: Ref, m0: set<Ref>, root: Ref)
    requires cur in g && st != [] && (forall x :: x in st ==> x in m && x in g) && cur !in st
    requires BlackClosed(g, m, st, cur, |g[cur].words|) && OnlyReached(g, m0, root, m) && NewOnly(m0, st)
    ensures BlackClosed(g, m, st[1..], st[0], 0) && NewOnly(m0, st[1..]) && Reaches(g, root, st[0])
    ensures Work(g, m, st[1..]) < Work(g, m, st)
  {
    forall a, b | a in m && a !in st[1..] && a != st[0] && Edge(g, a, b) ensures b in m {
      assert a !in st;
    }
  }

  /** Closed and without anything needless: what was marked, and what the root reaches. */
  lemma ExactlyReached(g: Graph, m0: set<Ref>, root: Ref, m: set<Ref>)
    requires ClosedUnder(g, m) && OnlyReached(g, m0, root, m) && m0 + {root} <= m
    ensures forall a :: a in m <==> a in m0 || Reaches(g, root, a)
  {
    AlreadyMarked(g, m, root);
    hide Reaches, ClosedUnder;
  }
}
