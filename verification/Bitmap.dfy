/**
 Allocation in a segment of the concurrent heap, heap_concurrent.c: a bitmap of the blocks with a summary level above
 it, an allocation pointer that walks over the clear bits, and the bitmap that the collector leaves.
 */
module Bitmap {
  import opened Bits
  import opened Wrappers

  // ---------------------------------------------------------------- bitmaps

  predicate BitAt(ws: seq<bv32>, i: nat)
    requires i < 32 * |ws|
  {
    Bit(ws[i / 32], i % 32)
  }

  /** The words for n bits and at least one sentinel; all bits from n on are set. */
  predicate Sentinels(ws: seq<bv32>, n: nat) {
    && |ws| == n / 32 + 1
    && forall i :: n <= i < 32 * |ws| ==> BitAt(ws, i)
  }

  /** The upper level says which words of the lower level are full, from word k on. */
  predicate Summary(w0: seq<bv32>, w1: seq<bv32>, k: nat) {
    && Sentinels(w1, |w0|)
    && forall j :: k <= j < |w0| ==> (BitAt(w1, j) <==> w0[j] == FULL)
  }

  /** Nothing but the sentinels is set. */
  predicate Unused(ws: seq<bv32>, n: nat) {
    n <= 32 * |ws| && forall i :: 0 <= i < n ==> !BitAt(ws, i)
  }

  predicate Full(ws: seq<bv32>, a: nat, b: nat)
    requires b <= 32 * |ws|
  {
    forall i :: a <= i < b ==> BitAt(ws, i)
  }

  /** i is the least clear bit from a on. */
  predicate Least(ws: seq<bv32>, a: nat, i: nat) {
    a <= i < 32 * |ws| && !BitAt(ws, i) && Full(ws, a, i)
  }

  /** The clear bits from a on, in ascending order. */
  function Clear(ws: seq<bv32>, a: nat): seq<nat>
    decreases 32 * |ws| - a
  {
    if a >= 32 * |ws| then [] else (if BitAt(ws, a) then [] else [a]) + Clear(ws, a + 1)
  }

  lemma {:induction false} ClearFromLeast(ws: seq<bv32>, a: nat, i: nat)
    requires Least(ws, a, i)
    ensures Clear(ws, a) == [i] + Clear(ws, i + 1)
    decreases i - a
  {
    if a < i { ClearFromLeast(ws, a + 1, i); }
  }

  lemma {:induction false} ClearOfFull(ws: seq<bv32>, a: nat)
    requires Full(ws, a, 32 * |ws|)
    ensures Clear(ws, a) == []
    decreases 32 * |ws| - a
  {
    if a < 32 * |ws| { ClearOfFull(ws, a + 1); }
  }

  /** Clear(ws, a) is every clear bit from a on, once. */
  lemma {:induction false} ClearIsAll(ws: seq<bv32>, a: nat)
    ensures forall i :: i in Clear(ws, a) <==> a <= i < 32 * |ws| && !BitAt(ws, i)
    ensures forall j, k :: 0 <= j < k < |Clear(ws, a)| ==> Clear(ws, a)[j] < Clear(ws, a)[k]
    decreases 32 * |ws| - a
  {
    hide Bit;
    if a < 32 * |ws| {
      ClearIsAll(ws, a + 1);
      var rest := Clear(ws, a + 1);
      forall k | 0 <= k < |rest| ensures a < rest[k] { assert rest[k] in rest; }
    }
  }

  /** A bit pointer: word and mask stand for bit number 32 * word + the index of the mask. */
  function Place(word: nat, mask: bv32): nat { 32 * word + MaskIndex(mask, 0) }

  predicate AtBit(word: nat, mask: bv32, i: nat) { word == i / 32 && mask == One(i % 32) }

  lemma PlaceOf(word: nat, mask: bv32, i: nat)
    requires AtBit(word, mask, i)
    ensures Place(word, mask) == i
  {
    OneIndex(i % 32);
  }

  /** BITPTR_NEXT0 seen from the whole bitmap. */
  lemma SearchWord(ws: seq<bv32>, word: nat, mask: bv32, a: nat)
    requires a < 32 * |ws| && AtBit(word, mask, a)
    ensures var r := Next0(ws[word], mask);
            if r == 0 then Full(ws, a, 32 * (word + 1))
            else Least(ws, a, Place(word, r)) && AtBit(word, r, Place(word, r))
  {
    var k := a % 32;
    Next0Finds(ws[word], k);
    hide Next0, One, Bit, MaskIndex;
    var r := Next0(ws[word], mask);
    if r == 0 {
      WordFull(ws, word, k, 32);
    } else {
      WordFull(ws, word, k, MaskIndex(r, 0));
    }
  }

  /** Bits k .. end of a word, seen from the whole bitmap. */
  lemma WordFull(ws: seq<bv32>, word: nat, k: nat, end: nat)
    requires word < |ws| && k <= end <= 32 && forall i :: k <= i < end ==> Bit(ws[word], i)
    ensures Full(ws, 32 * word + k, 32 * word + end)
    ensures end < 32 ==> (32 * word + end) / 32 == word && (32 * word + end) % 32 == end
  {
    hide Bit;
    forall i | 32 * word + k <= i < 32 * word + end ensures BitAt(ws, i) {
      assert i / 32 == word && i % 32 == i - 32 * word;
    }
  }

  /** BITPTR_INC: the next bit. */
  lemma IncPlace(word: nat, mask: bv32, i: nat)
    requires AtBit(word, mask, i)
    ensures AtBit(word + (mask >> 31) as nat, IncMask(mask), i + 1)
  {
    var k := i % 32;
    OneNext(k);
    hide One, IncMask;
    if k == 31 {
      assert (i + 1) / 32 == word + 1 && (i + 1) % 32 == 0;
    } else {
      assert (i + 1) / 32 == word && (i + 1) % 32 == k + 1;
    }
  }

  lemma OneIndex(k: nat)
    requires k < 32
    ensures MaskIndex(One(k), 0) == k
  {
    OneIsMask(k);
    MaskIsOne(One(k));
    hide One, MaskIndex;
    var j := MaskIndex(One(k), 0);
    if j < k { OneGrows(j, k); }
    if k < j { OneGrows(k, j); }
  }

  /** A word with a clear bit is not full. */
  lemma ClearWord(ws: seq<bv32>, j: nat)
    requires j < |ws|
    ensures ws[j] == FULL <==> Full(ws, 32 * j, 32 * (j + 1))
  {
    FullWord(ws[j]);
    hide Bit;
    forall k | 0 <= k < 32 ensures BitAt(ws, 32 * j + k) <==> Bit(ws[j], k) {
    }
    if Full(ws, 32 * j, 32 * (j + 1)) {
      forall k | 0 <= k < 32 ensures Bit(ws[j], k) { assert BitAt(ws, 32 * j + k); }
    }
    if ws[j] == FULL {
      forall i | 32 * j <= i < 32 * (j + 1) ensures BitAt(ws, i) {
        assert i / 32 == j;
      }
    }
  }

  // ---------------------------------------------------------------- segments

  /** A segment of n blocks: bitmap, summary level, collect bitmap. */
  class Segment {
    const n: nat
    const w0: array<bv32>
    const w1: array<bv32>
    const collect: array<bv32>

    ghost predicate Shape()
    {
      && w0.Length == n / 32 + 1 && w1.Length == w0.Length / 32 + 1 && collect.Length == w0.Length
      && w0 != w1 && w0 != collect && w1 != collect
    }

    /** Sentinels behind the blocks, and a summary level that tells the truth; as long as no block is marked, the
        summary may miss a last word of nothing but sentinels. */
    ghost predicate Valid()
      reads w0, w1
    {
      && Shape() && Sentinels(w0[..], n) && Sentinels(w1[..], w0.Length)
      && (Summary(w0[..], w1[..], 0) || Unused(w0[..], n))
    }

    constructor (n: nat)
      ensures Shape() && this.n == n && fresh(w0) && fresh(w1) && fresh(collect)
      ensures forall j :: 0 <= j < w0.Length ==> w0[j] == 0
      ensures forall j :: 0 <= j < w1.Length ==> w1[j] == 0
    {
      this.n := n;
      w0 := new bv32[n / 32 + 1](_ => 0);
      w1 := new bv32[(n / 32 + 1) / 32 + 1](_ => 0);
      collect := new bv32[n / 32 + 1](_ => 0);
    }

    /** init_segment on a segment whose bitmaps are zero: only the sentinels are set.  The summary is exact if and only
        if n is no multiple of 32. */
    method Init()
      requires Shape()
      requires forall j :: 0 <= j < w0.Length ==> w0[j] == 0
      requires forall j :: 0 <= j < w1.Length ==> w1[j] == 0
      modifies w0, w1
      ensures Valid() && Unused(w0[..], n)
      ensures Summary(w0[..], w1[..], 0) <==> n % 32 != 0
    {
      w0[w0.Length - 1] := From(n % 32);
      w1[w1.Length - 1] := From(w0.Length % 32);
      InitWords(w0[..], n);
      InitWords(w1[..], w0.Length);
      InitSummary(w0[..], w1[..], n);
    }

    /** bitptr_linear_search in the summary level. */
    method LinearSearch(start: nat) returns (word: nat, mask: bv32)
      requires start <= w1.Length
      ensures if mask == 0 then Full(w1[..], 32 * start, 32 * w1.Length)
              else Least(w1[..], 32 * start, Place(word, mask)) && AtBit(word, mask, Place(word, mask))
    {
      word, mask := start, 0;
      while word < w1.Length
        invariant start <= word <= w1.Length && mask == 0
        invariant Full(w1[..], 32 * start, 32 * word)
      {
        mask := 1;
        SearchWord(w1[..], word, mask, 32 * word);
        mask := Next0(w1[word], mask);
        if mask != 0 {
          return;
        }
        word := word + 1;
      }
    }

    /** The way up and along the summary level: the first word from j on that is not full. */
    method FindWord(j: nat) returns (r: Option<nat>)
      requires Shape() && j <= w0.Length && Summary(w0[..], w1[..], j)
      ensures r.None? ==> forall k :: j <= k < w0.Length ==> w0[k] == FULL
      ensures r.Some? ==>
                && j <= r.value < w0.Length && w0[r.value] != FULL
                && forall k :: j <= k < r.value ==> w0[k] == FULL
    {
      hide Bit, Next0, One;
      var word, mask := j / 32, One(j % 32);
      SearchWord(w1[..], word, mask, j);
      mask := Next0(w1[word], mask);
      if mask == 0 {
        word, mask := LinearSearch(word + 1);
        if mask == 0 {
          return None;
        }
      }
      var k := Place(word, mask);
      assert Least(w1[..], j, k);
      return Some(k);
    }

    /** copy_collect_bitmap: the blocks the collector marked, with sentinels and an exact summary, whatever n is. */
    method CopyCollect()
      requires Shape()
      modifies w0, w1
      ensures Valid() && Summary(w0[..], w1[..], 0)
      ensures forall i :: 0 <= i < n ==> (BitAt(w0[..], i) <==> BitAt(collect[..], i))
    {
      forall j | 0 <= j < w0.Length { w0[j] := collect[j]; }
      var last := w0.Length - 1;
      w0[last] := Or(w0[last], From(n % 32));
      CopiedWords(w0[..], collect[..], n);
      BuildSummary();
    }

    /** The loop that builds the summary level, 32 words of the lower level to a word. */
    method BuildSummary()
      requires Shape()
      modifies w1
      ensures Summary(w0[..], w1[..], 0)
    {
      hide Bit, One, Or;
      var l, u, word, bit := 0, 0, 0, 1;
      NoBits();
      ghost var k := 0;
      while l < w0.Length
        invariant l == 32 * u + k <= w0.Length && k < 32 && bit == One(k)
        invariant forall j :: 0 <= j < 32 * u ==> (BitAt(w1[..], j) <==> w0[j] == FULL)
        invariant Collected(word, w0[..], u, k)
      {
        CollectNext(word, w0[..], u, k);
        if w0[l] == FULL {
          word := Or(word, bit);
        }
        l := l + 1;
        bit := bit << 1;
        k := k + 1;
        if bit == 0 {
          ghost var before := w1[..];
          w1[u] := word;
          WordDone(word, w0[..], before, w1[..], u);
          u, word, bit, k := u + 1, 0, 1, 0;
        }
      }
      ghost var before := w1[..];
      w1[u] := Or(word, From(w0.Length % 32));
      LastWord(word, w0[..], before, w1[..], u);
    }

    /** BITPTR_TEST at bit a. */
    method Test(word: nat, mask: bv32, ghost a: nat) returns (used: bool)
      requires Valid() && a <= n && AtBit(word, mask, a)
      ensures !used ==> Least(w0[..], a, a) && a < n
    {
      used := Has(w0[word], mask);
      assert BitAt(w0[..], n);
    }

    /** The least clear bit from bit a on, the one at word and mask; the summary level is used behind the first word. */
    method FindClear(word: nat, mask: bv32, ghost a: nat) returns (w: nat, m: bv32)
      requires Valid() && a <= n && AtBit(word, mask, a)
      ensures if m == 0 then Clear(w0[..], a) == []
              else Least(w0[..], a, Place(w, m)) && AtBit(w, m, Place(w, m)) && a <= Place(w, m) < n
    {
      assert One(0) == 1;
      hide Bit, Next0, One, MaskIndex;
      w, m := word, mask;
      SearchWord(w0[..], w, m, a);
      m := Next0(w0[w], m);
      if m == 0 {
        UpperIsExact(w0[..], w1[..], n, a);
        var r := FindWord(w + 1);
        if r.None? {
          NoneLeft(w0[..], a, w + 1);
          return;
        }
        w, m := r.value, 1;
        SearchWord(w0[..], w, m, 32 * w);
        m := Next0(w0[w], m);
        FirstClear(w0[..], a, word + 1, w, Place(w, m), m);
      }
    }
  }

  /** The address of block i. */
  function Address(base: nat, size: nat, i: nat): (a: nat)
    ensures a >= base
  {
    base + i * size
  }

  lemma AddressIs(base: nat, size: nat, i: nat)
    ensures Address(base, size, i) == base + i * size
  {
  }

  /** Blocks handed out one after the other, each from where the pointer stood on, are apart and lie among the n blocks
      behind base, however often the bitmap has been collected in between. */
  lemma {:induction false} BlocksApart(base: nat, size: nat, n: nat, at: seq<nat>, blocks: seq<nat>, objs: seq<nat>)
    requires |at| == |blocks| + 1 && |objs| == |blocks|
    requires (forall j :: 0 <= j < |blocks| ==> at[j] <= blocks[j] < at[j + 1]) && forall a <- at :: a <= n
    requires forall j :: 0 <= j < |blocks| ==> objs[j] == base + blocks[j] * size
    ensures forall j, k :: 0 <= j < k < |objs| ==> objs[j] + size <= objs[k]
    ensures forall j :: 0 <= j < |objs| ==> base <= objs[j] && objs[j] + size <= base + n * size
  {
    forall j, k | 0 <= j < k < |blocks| ensures objs[j] + size <= objs[k] {
      Ascending(at, blocks, j, k);
      Room(size, blocks[j], blocks[k]);
    }
    forall j | 0 <= j < |blocks| ensures base <= objs[j] && objs[j] + size <= base + n * size {
      assert at[j] <= blocks[j] < at[j + 1] && at[j + 1] in at;
      Room(size, blocks[j], n);
    }
  }

  lemma {:induction false} Ascending(at: seq<nat>, blocks: seq<nat>, j: nat, k: nat)
    requires |at| == |blocks| + 1 && j < k < |blocks|
    requires forall i :: 0 <= i < |blocks| ==> at[i] <= blocks[i] < at[i + 1]
    ensures blocks[j] < blocks[k]
  {
    assert at[k] <= blocks[k];
    if j < k - 1 { Ascending(at, blocks, j, k - 1); }
  }

  lemma Room(size: nat, i: nat, j: nat)
    requires i < j
    ensures i * size + size <= j * size && i * size >= 0
  {
    assert j * size == (i + 1) * size + (j - i - 1) * size;
  }

  lemma InitWords(ws: seq<bv32>, n: nat)
    requires |ws| == n / 32 + 1 && ws[n / 32] == From(n % 32)
    requires forall j :: 0 <= j < n / 32 ==> ws[j] == 0
    ensures Sentinels(ws, n) && Unused(ws, n)
  {
    hide Bit, From;
    forall i | 0 <= i < 32 * |ws| ensures BitAt(ws, i) <==> i >= n {
      if i / 32 == n / 32 {
        FromBit(n % 32, i % 32);
      } else {
        ZeroBit(i % 32);
      }
    }
  }

  lemma CopiedWords(ws: seq<bv32>, cs: seq<bv32>, n: nat)
    requires |ws| == |cs| == n / 32 + 1 && ws[n / 32] == Or(cs[n / 32], From(n % 32))
    requires forall j :: 0 <= j < n / 32 ==> ws[j] == cs[j]
    ensures Sentinels(ws, n) && forall i :: 0 <= i < n ==> (BitAt(ws, i) <==> BitAt(cs, i))
  {
    hide Bit, From, Or;
    forall i | 0 <= i < 32 * |ws| ensures BitAt(ws, i) <==> BitAt(cs, i) || i >= n {
      if i / 32 == n / 32 {
        OrBit(cs[n / 32], From(n % 32), i % 32);
        FromBit(n % 32, i % 32);
      }
    }
  }

  /** The bits of a summary word under construction: k words of the group u have been looked at. */
  predicate Collected(word: bv32, w0: seq<bv32>, u: nat, k: nat)
    requires 32 * u + k <= |w0| && k <= 32
  {
    forall i :: 0 <= i < 32 ==> (Bit(word, i) <==> i < k && w0[32 * u + i] == FULL)
  }

  lemma NoBits()
    ensures One(0) == 1 && forall i :: 0 <= i < 32 ==> !Bit(0, i)
  {
    forall i | 0 <= i < 32 ensures !Bit(0, i) { ZeroBit(i); }
  }

  lemma CollectNext(word: bv32, w0: seq<bv32>, u: nat, k: nat)
    requires 32 * u + k < |w0| && k < 32 && Collected(word, w0, u, k)
    ensures Collected(if w0[32 * u + k] == FULL then Or(word, One(k)) else word, w0, u, k + 1)
    ensures if k == 31 then One(k) << 1 == 0 else One(k) << 1 == One(k + 1) != 0
    ensures One(0) == 1 && forall i :: 0 <= i < 32 ==> !Bit(0, i)
  {
    NoBits();
    if k < 31 {
      OneIsMask(k + 1);
    } else {
      OneValues();
    }
    hide One, Bit, Or;
    forall i | 0 <= i < 32 ensures Bit(Or(word, One(k)), i) <==> Bit(word, i) || i == k {
      OrBit(word, One(k), i);
      OneBit(k, i);
    }
  }

  lemma WordDone(word: bv32, w0: seq<bv32>, before: seq<bv32>, w1: seq<bv32>, u: nat)
    requires 32 * u + 32 <= |w0| && Collected(word, w0, u, 32)
    requires u < |before| && w1 == before[u := word]
    requires forall j :: 0 <= j < 32 * u ==> (BitAt(before, j) <==> w0[j] == FULL)
    ensures forall j :: 0 <= j < 32 * (u + 1) ==> (BitAt(w1, j) <==> w0[j] == FULL)
  {
    hide Bit;
    forall j | 0 <= j < 32 * (u + 1) ensures BitAt(w1, j) <==> w0[j] == FULL {
      if j < 32 * u {
        assert BitAt(before, j) <==> w0[j] == FULL;
      } else {
        assert Bit(word, j - 32 * u) <==> w0[j] == FULL;
      }
    }
  }

  lemma LastWord(word: bv32, w0: seq<bv32>, before: seq<bv32>, w1: seq<bv32>, u: nat)
    requires u == |w0| / 32 && Collected(word, w0, u, |w0| % 32)
    requires |before| == u + 1 && w1 == before[u := Or(word, From(|w0| % 32))]
    requires forall j :: 0 <= j < 32 * u ==> (BitAt(before, j) <==> w0[j] == FULL)
    ensures Summary(w0, w1, 0)
  {
    hide Bit, From, Or;
    forall j | 0 <= j < 32 * |w1| ensures BitAt(w1, j) <==> j >= |w0| || w0[j] == FULL {
      if j < 32 * u {
        assert BitAt(before, j) <==> w0[j] == FULL;
      } else {
        OrBit(word, From(|w0| % 32), j % 32);
        FromBit(|w0| % 32, j % 32);
        assert j % 32 == j - 32 * u;
        assert j < |w0| ==> (Bit(word, j - 32 * u) <==> w0[j] == FULL);
      }
    }
  }

  lemma InitSummary(w0: seq<bv32>, w1: seq<bv32>, n: nat)
    requires Sentinels(w0, n) && Unused(w0, n)
    requires Sentinels(w1, |w0|) && Unused(w1, |w0|)
    ensures Summary(w0, w1, 0) <==> n % 32 != 0
  {
    hide Bit;
    forall j | 0 <= j < |w0| ensures w0[j] == FULL <==> 32 * j >= n {
      ClearWord(w0, j);
      if 32 * j < n { assert !BitAt(w0, 32 * j); }
    }
    if n % 32 == 0 {
      assert w0[n / 32] == FULL && !BitAt(w1, n / 32);
    }
  }

  // ---------------------------------------------------------------- the allocation pointer

  class AllocPtr {
    var seg: Segment?
    var word: nat
    var mask: bv32
    var p: nat

    /** The number of the block the pointer stands at. */
    function At(): nat
      reads this
    {
      Place(word, mask)
    }

    /** Bit pointer and block address are in step; without a segment the pointer is the dummy. */
    ghost predicate Valid(base: nat, size: nat)
      reads this, if seg == null then {} else {seg.w0, seg.w1}
    {
      && base > 0 && size > 0
      && (seg == null <==> p == 0)
      && (seg != null ==> seg.Valid() && AtBit(word, mask, At()) && At() <= seg.n && p == Address(base, size, At()))
    }

    /** The blocks the pointer will still hand out. */
    ghost function Left(): seq<nat>
      reads this, if seg == null then {} else {seg.w0}
    {
      if seg == null then [] else Clear(seg.w0[..], At())
    }

    constructor ()
      ensures seg == null && p == 0
    {
      seg, word, mask, p := null, 0, 1, 0;
    }

    /** set_alloc_ptr. */
    method Set(s: Segment, base: nat, size: nat)
      requires s.Valid() && base > 0 && size > 0
      modifies this
      ensures Valid(base, size) && seg == s && Left() == Clear(s.w0[..], 0)
    {
      seg, word, mask, p := s, 0, 1, base;
      PlaceOf(0, 1, 0);
    }

    /** BITPTR_INC and the step of the block address. */
    method Advance(ghost i: nat, ghost base: nat, size: nat)
      requires seg != null && AtBit(word, mask, i) && p == Address(base, size, i)
      modifies this
      ensures AtBit(word, mask, i + 1) && At() == i + 1 && seg == old(seg) && p == Address(base, size, i + 1)
    {
      IncPlace(word, mask, i);
      word, mask := word + (mask >> 31) as nat, IncMask(mask);
      p := p + size;
      PlaceOf(word, mask, i + 1);
    }

    /** find_bitmap: the least free block from the pointer on, or none exactly when none is left. */
    method FindBitmap(base: nat, size: nat) returns (obj: Option<nat>, ghost i: nat)
      requires Valid(base, size)
      modifies this
      ensures Valid(base, size) && seg == old(seg)
      ensures obj.None? ==> old(Left()) == [] && Left() == []
      ensures obj.Some? ==> obj.value == base + i * size && old(Left()) == [i] + Left()
      ensures obj.Some? ==> old(At()) <= i < seg.n && At() == i + 1
    {
      hide Bit, Next0, One, MaskIndex, Address, Place, AtBit, Clear, Segment.Valid, Least;
      if p == 0 {
        return None, 0;
      }
      ghost var a, ws := At(), seg.w0[..];
      var w, m := seg.FindClear(word, mask, a);
      if m == 0 {
        return None, 0;
      }
      var index := Place(w, m);
      ClearFromLeast(ws, a, index);
      word, mask, p := w, m, Address(base, size, index);
      Advance(index, base, size);
      obj, i := Some(Address(base, size, index)), index;
      AddressIs(base, size, index);
    }

    /** sml_alloc on one segment: the fast path, or find_bitmap. */
    method Alloc(base: nat, size: nat) returns (obj: Option<nat>, ghost i: nat)
      requires Valid(base, size)
      modifies this
      ensures Valid(base, size) && seg == old(seg)
      ensures obj.None? ==> old(Left()) == [] && Left() == []
      ensures obj.Some? ==> obj.value == base + i * size && old(Left()) == [i] + Left()
      ensures obj.Some? ==> old(At()) <= i < seg.n && At() == i + 1
    {
      hide Bit, One, MaskIndex, Address, Place, AtBit, Clear, Segment.Valid, Least, Has;
      if seg != null {
        ghost var a := At();
        var used := seg.Test(word, mask, a);
        if !used {
          obj, i := Some(p), a;
          ClearFromLeast(seg.w0[..], a, a);
          Advance(a, base, size);
          AddressIs(base, size, a);
          return;
        }
      }
      obj, i := FindBitmap(base, size);
    }
  
    /** reclaim_subheap on the segment under the pointer: the pointer stays, so that nothing it has handed out is handed
        out again, and of the blocks behind it those the collector marked are skipped. */
    method Reclaim(base: nat, size: nat)
      requires Valid(base, size) && seg != null
      modifies seg.w0, seg.w1
      ensures Valid(base, size) && seg == old(seg) && At() == old(At())
      ensures forall i :: i in Left() <==> At() <= i < seg.n && !BitAt(seg.collect[..], i)
    {
      seg.CopyCollect();
      ClearIsAll(seg.w0[..], At());
    }
  }

  /** A failed search in the word of the pointer leaves only words above which the summary is exact. */
  lemma UpperIsExact(w0: seq<bv32>, w1: seq<bv32>, n: nat, a: nat)
    requires Sentinels(w0, n) && Sentinels(w1, |w0|) && (Summary(w0, w1, 0) || Unused(w0, n))
    requires a <= n && Full(w0, a, 32 * (a / 32 + 1))
    ensures Summary(w0, w1, a / 32 + 1)
  {
    hide Bit;
    assert BitAt(w0, a);
  }

  lemma NoneLeft(ws: seq<bv32>, a: nat, w: nat)
    requires w <= |ws| && Full(ws, a, 32 * w) && forall k :: w <= k < |ws| ==> ws[k] == FULL
    ensures Clear(ws, a) == []
  {
    hide Bit;
    forall i | a <= i < 32 * |ws| ensures BitAt(ws, i) {
      if i >= 32 * w { ClearWord(ws, i / 32); }
    }
    ClearOfFull(ws, a);
  }

  lemma FirstClear(ws: seq<bv32>, a: nat, w: nat, k: nat, i: nat, m: bv32)
    requires a <= 32 * w && w <= k < |ws| && Full(ws, a, 32 * w) && (forall j :: w <= j < k ==> ws[j] == FULL)
             && ws[k] != FULL
    requires if m == 0 then Full(ws, 32 * k, 32 * (k + 1)) else Least(ws, 32 * k, i)
    ensures m != 0 && Least(ws, a, i)
  {
    hide Bit;
    ClearWord(ws, k);
    forall j | a <= j < i ensures BitAt(ws, j) {
      if 32 * w <= j < 32 * k { ClearWord(ws, j / 32); }
    }
  }
}
