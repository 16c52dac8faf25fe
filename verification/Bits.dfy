/** The bit pointer macros of smlsharp.h: a word of 32 bits and a mask with one bit set, or none if a search failed. */
module Bits {
  const FULL: bv32 := 0xFFFF_FFFF

  /** The mask of bit k. */
  function One(k: nat): bv32 { if k == 0 then 1 else One(k - 1) << 1 }

  predicate Has(w: bv32, m: bv32) { w & m != 0 }

  predicate Bit(w: bv32, k: nat) { Has(w, One(k)) }

  predicate Below(a: bv32, b: bv32) { a < b }

  predicate IsMask(m: bv32) { m != 0 && m & (m - 1) == 0 }

  function Or(a: bv32, b: bv32): bv32 { a | b }

  /** BITPTR_NEXT0 on the mask: the next clear bit of w, or no bit. */
  function Next0(w: bv32, m: bv32): bv32 { LowestZero(Or(w, Floor(m))) }

  function LowestZero(t: bv32): bv32 { (t + 1) & !t }

  /** The bits below a mask. */
  function Floor(m: bv32): bv32 { m - 1 }

  /** The mask part of BITPTR_INC. */
  function IncMask(m: bv32): bv32 { (m << 1) | (m >> 31) }

  lemma OneValues()
    ensures One(0) == 0x1 && One(1) == 0x2 && One(2) == 0x4 && One(3) == 0x8
    ensures One(4) == 0x10 && One(5) == 0x20 && One(6) == 0x40 && One(7) == 0x80
    ensures One(8) == 0x100 && One(9) == 0x200 && One(10) == 0x400 && One(11) == 0x800
    ensures One(12) == 0x1000 && One(13) == 0x2000 && One(14) == 0x4000 && One(15) == 0x8000
    ensures One(16) == 0x1_0000 && One(17) == 0x2_0000 && One(18) == 0x4_0000 && One(19) == 0x8_0000
    ensures One(20) == 0x10_0000 && One(21) == 0x20_0000 && One(22) == 0x40_0000 && One(23) == 0x80_0000
    ensures One(24) == 0x100_0000 && One(25) == 0x200_0000 && One(26) == 0x400_0000 && One(27) == 0x800_0000
    ensures One(28) == 0x1000_0000 && One(29) == 0x2000_0000 && One(30) == 0x4000_0000 && One(31) == 0x8000_0000
  {
    assert One(1) == One(0) << 1;
    assert One(4) == 0x10; assert One(7) == 0x80; assert One(10) == 0x400; assert One(13) == 0x2000;
    assert One(16) == 0x1_0000; assert One(19) == 0x8_0000; assert One(22) == 0x40_0000; assert One(25) == 0x200_0000;
    assert One(28) == 0x1000_0000;
  }

  /** BITPTR_MASKINDEX, the number of trailing zeros of a mask. */
  function MaskIndex(m: bv32, k: nat): (i: nat)
    requires k < 32
    ensures k <= i < 32
    decreases 32 - k
  {
    if k == 31 || m == One(k) then k else MaskIndex(m, k + 1)
  }

  lemma {:induction false} MaskIndexStops(m: bv32, k: nat)
    requires k < 32
    ensures (exists i: nat :: k <= i < 32 && One(i) == m) ==> One(MaskIndex(m, k)) == m
    decreases 32 - k
  {
    hide One;
    if k < 31 { MaskIndexStops(m, k + 1); }
  }

  lemma SomeBit(m: bv32)
    requires IsMask(m)
    ensures m == 0x1 || m == 0x2 || m == 0x4 || m == 0x8 || m == 0x10 || m == 0x20 || m == 0x40 || m == 0x80
      || m == 0x100 || m == 0x200 || m == 0x400 || m == 0x800
      || m == 0x1000 || m == 0x2000 || m == 0x4000 || m == 0x8000
      || m == 0x1_0000 || m == 0x2_0000 || m == 0x4_0000 || m == 0x8_0000
      || m == 0x10_0000 || m == 0x20_0000 || m == 0x40_0000 || m == 0x80_0000
      || m == 0x100_0000 || m == 0x200_0000 || m == 0x400_0000 || m == 0x800_0000
      || m == 0x1000_0000 || m == 0x2000_0000 || m == 0x4000_0000 || m == 0x8000_0000
  {
  }

  lemma MaskIsOne(m: bv32)
    requires IsMask(m)
    ensures One(MaskIndex(m, 0)) == m
  {
    SomeBit(m);
    OneValues();
    hide One, IsMask;
    MaskIndexStops(m, 0);
  }

  lemma OneIsMask(k: nat)
    requires k < 32
    ensures IsMask(One(k))
  {
    OneValues();
    hide One;
  }

  lemma OneNext(k: nat)
    requires k < 32
    ensures k < 31 ==> One(k + 1) == IncMask(One(k)) && Below(One(k), One(k + 1)) && One(k) >> 31 == 0
    ensures k == 31 ==> IncMask(One(k)) == One(0) && One(k) >> 31 == 1
  {
    OneValues();
    hide One, IncMask;
    assert k < 31 ==> One(k) < 0x8000_0000 && One(k + 1) == 2 * One(k);
    DoubleMask(One(k));
  }

  lemma DoubleMask(m: bv32)
    ensures m < 0x8000_0000 ==> IncMask(m) == 2 * m && m >> 31 == 0
    ensures IncMask(0x8000_0000) == 1
  {
  }

  lemma {:induction false} OneGrows(j: nat, k: nat)
    requires j < k < 32
    ensures Below(One(j), One(k))
    decreases k
  {
    OneNext(k - 1);
    hide One, IncMask;
    if j < k - 1 { OneGrows(j, k - 1); }
  }

  lemma LowestMask(t: bv32)
    ensures var r := LowestZero(t); r != 0 ==> IsMask(r) && !Has(t, r)
    ensures LowestZero(FULL) == 0
  {
  }

  lemma NotInFloor(m: bv32, r: bv32)
    requires IsMask(m) && IsMask(r) && !Has(Floor(m), r)
    ensures !Below(r, m)
  {
  }

  lemma FloorOfNone(w: bv32)
    ensures Or(w, Floor(0)) == FULL
  {
  }

  /** What the search in one word finds. */
  lemma Next0Mask(w: bv32, m: bv32)
    requires m == 0 || IsMask(m)
    ensures var r := Next0(w, m);
            && (m == 0 ==> r == 0)
            && (r != 0 ==> IsMask(r) && !Below(r, m) && !Has(w, r))
  {
    hide Has, Or, Floor, LowestZero, IsMask, Below;
    var r := Next0(w, m);
    LowestMask(Or(w, Floor(m)));
    if m == 0 {
      FloorOfNone(w);
    } else if r != 0 {
      OrHas(w, Floor(m), r);
      NotInFloor(m, r);
    }
  }

  predicate Covers(a: bv32, x: bv32) { a & x == x }

  lemma Next0Passes(w: bv32, m: bv32, x: bv32)
    requires IsMask(m) && IsMask(x) && (m == x || Below(m, x))
    ensures var r := Next0(w, m); r == 0 || Below(x, r) ==> Has(w, x)
  {
    Next0Mask(w, m);
    LowOnes(Or(w, Floor(m)));
    hide IsMask, Below, Covers, Or, Floor, Has, LowestZero;
    var r := Next0(w, m);
    if r == 0 || Below(x, r) {
      BelowMask(x, r);
      CoversAll(Or(w, Floor(m)), Floor(r), x);
      AboveMask(m, x);
      FromLeft(w, Floor(m), x);
    }
  }

  lemma CoversAll(a: bv32, b: bv32, x: bv32)
    requires Covers(a, b) && Covers(b, x)
    ensures Covers(a, x)
  {
  }

  lemma FromLeft(a: bv32, b: bv32, x: bv32)
    requires IsMask(x) && !Has(b, x) && Covers(Or(a, b), x)
    ensures Has(a, x)
  {
  }

  lemma LowOnes(t: bv32)
    ensures Covers(t, Floor(LowestZero(t)))
  {
  }

  lemma BelowMask(x: bv32, r: bv32)
    requires IsMask(x) && (r == 0 || (IsMask(r) && Below(x, r)))
    ensures Covers(Floor(r), x)
  {
  }

  lemma AboveMask(m: bv32, x: bv32)
    requires IsMask(m) && IsMask(x) && (m == x || Below(m, x))
    ensures !Has(Floor(m), x)
  {
  }

  /** BITPTR_NEXT0 from bit k: the least clear bit at or above k, or none when there is none. */
  lemma Next0Finds(w: bv32, k: nat)
    requires k < 32
    ensures var r := Next0(w, One(k));
            if r == 0 then forall i :: k <= i < 32 ==> Bit(w, i)
            else
              var j := MaskIndex(r, 0);
              && r == One(j) && k <= j < 32 && !Bit(w, j)
              && forall i :: k <= i < j ==> Bit(w, i)
  {
    hide Next0, One, MaskIndex, Bit;
    var r := Next0(w, One(k));
    Next0Found(w, k);
    forall i | k <= i < if r == 0 then 32 else MaskIndex(r, 0) ensures Bit(w, i) {
      Next0Passed(w, k, i);
    }
  }

  lemma Next0Found(w: bv32, k: nat)
    requires k < 32
    ensures var r := Next0(w, One(k));
            r != 0 ==> var j := MaskIndex(r, 0); r == One(j) && k <= j && !Bit(w, j)
  {
    OneIsMask(k);
    Next0Mask(w, One(k));
    hide Next0, IsMask, Has, One, MaskIndex, Below;
    var r := Next0(w, One(k));
    if r != 0 {
      MaskIsOne(r);
      if MaskIndex(r, 0) < k { OneGrows(MaskIndex(r, 0), k); }
    }
  }

  lemma FoundIsOne(w: bv32, k: nat)
    requires k < 32
    ensures var r := Next0(w, One(k)); r != 0 ==> r == One(MaskIndex(r, 0))
  {
    hide MaskIndex;
    Next0Found(w, k);
  }

  lemma Next0Passed(w: bv32, k: nat, i: nat)
    requires k <= i < 32
    ensures var r := Next0(w, One(k)); r == 0 || i < MaskIndex(r, 0) ==> Bit(w, i)
  {
    OneIsMask(k);
    OneIsMask(i);
    hide Next0, IsMask, Has, One, MaskIndex, Below;
    var r := Next0(w, One(k));
    assert One(k) == One(i) || Below(One(k), One(i)) by { if k < i { OneGrows(k, i); } }
    if r == 0 || i < MaskIndex(r, 0) {
      assert r == 0 || Below(One(i), r) by {
        if r != 0 { FoundIsOne(w, k); OneGrows(i, MaskIndex(r, 0)); }
      }
      Next0Passes(w, One(k), One(i));
    }
  }

  /** All bits set. */
  lemma FullWord(w: bv32)
    ensures w == FULL <==> forall i :: 0 <= i < 32 ==> Bit(w, i)
  {
    if w == FULL {
      forall i | 0 <= i < 32 ensures Bit(w, i) {
        OneIsMask(i);
        FullHas(One(i));
      }
    } else {
      Next0Finds(w, 0);
      NotFull(w);
    }
  }

  lemma FullHas(m: bv32)
    ensures IsMask(m) ==> Has(FULL, m)
  {
  }

  lemma NotFull(w: bv32)
    ensures w != FULL ==> Next0(w, One(0)) != 0
  {
  }

  /** Setting bits. */
  lemma OrBit(a: bv32, b: bv32, k: nat)
    ensures Bit(Or(a, b), k) <==> Bit(a, k) || Bit(b, k)
  {
    OrHas(a, b, One(k));
    hide One, Or, Has;
  }

  lemma OrHas(a: bv32, b: bv32, m: bv32)
    ensures Has(Or(a, b), m) <==> Has(a, m) || Has(b, m)
  {
    assert (a | b) & m == (a & m) | (b & m);
    NoneSet(a & m, b & m);
  }

  lemma NoneSet(x: bv32, y: bv32)
    ensures x | y == 0 <==> x == 0 && y == 0
  {
  }

  lemma OneBit(j: nat, k: nat)
    requires j < 32 && k < 32
    ensures Bit(One(j), k) <==> j == k
  {
    OneIsMask(j);
    OneIsMask(k);
    if j < k { OneGrows(j, k); }
    if k < j { OneGrows(k, j); }
    hide One;
    MasksMeet(One(j), One(k));
  }

  lemma MasksMeet(a: bv32, b: bv32)
    requires IsMask(a) && IsMask(b)
    ensures Has(a, b) <==> a == b
  {
  }

  lemma ZeroBit(k: nat)
    ensures !Bit(0, k)
  {
    hide One;
  }

  /** The bits from k on, as in -1 << k. */
  function From(k: nat): bv32
    requires k < 32
  {
    FULL - (One(k) - 1)
  }

  lemma FromHas(k: bv32, x: bv32)
    requires IsMask(k) && IsMask(x)
    ensures Has(FULL - (k - 1), x) <==> k == x || Below(k, x)
  {
  }

  lemma FromBit(k: nat, i: nat)
    requires k < 32 && i < 32
    ensures Bit(From(k), i) <==> k <= i
  {
    OneIsMask(k);
    OneIsMask(i);
    if k < i { OneGrows(k, i); }
    if i < k { OneGrows(i, k); }
    hide One, IsMask;
    FromHas(One(k), One(i));
  }
}
