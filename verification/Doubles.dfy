/**
 What the digit loop of dtoa prints for the numbers of the binary64 format (section 3.6 of IEEE 754-2008): m * 2^e with
 a mantissa of 53 bits, or subnormal.
 */
module Doubles {
  import opened Digits
  import opened Exponents

  const HIDDEN: int := 0x10_0000_0000_0000
  const EMIN: int := -1074
  const EMAX: int := 971

  predicate IsDouble(m: int, e: int) {
    (HIDDEN <= m < 2 * HIDDEN && EMIN <= e <= EMAX) || (0 < m < HIDDEN && e == EMIN)
  }

  /** 2^e * 10^-k is Over(e, k) / Under(e, k). */
  function Over(e: int, k: int): (n: nat)
    ensures n > 0
  {
    Product(if e >= 0 then Pow2(e) else 1, if k < 0 then Pow10(-k) else 1)
  }

  function Under(e: int, k: int): (n: nat)
    ensures n > 0
  {
    Product(if e < 0 then Pow2(-e) else 1, if k >= 0 then Pow10(k) else 1)
  }

  function Product(a: nat, b: nat): (n: nat)
    ensures a > 0 && b > 0 ==> n > 0
  {
    if a > 0 && b > 0 then Positive(a, b); a * b else 0
  }

  /** x is m * 2^e with 10^k split off.  Half an ulp above it the next number begins, and below it, except that the
      numbers below a power of two are twice as dense. */
  ghost predicate Denotes(x: Number, m: int, e: int, k: int) {
    && IsDouble(m, e) && x.Valid() && x.even == (m % 2 == 0)
    && x.b * Under(e, k) == x.S * (m * Over(e, k))
    && 2 * (x.mhi * Under(e, k)) == x.S * Over(e, k)
    && x.mhi == if m == HIDDEN && e > EMIN then 2 * x.mlo else x.mlo
  }

  lemma HalfUlps(b: int, a: int, S: int, m: int, u: int, h: int)
    requires b * a == S * (m * u) && 2 * (h * a) == S * u
    ensures b * a == (2 * m * h) * a
  {
    assert S * (m * u) == m * (S * u);
    assert m * (2 * (h * a)) == (2 * m * h) * a;
  }

  /** In units of half an ulp. */
  lemma InHalfUlps(x: Number, m: int, e: int, k: int)
    requires Denotes(x, m, e, k)
    ensures x.b == 2 * m * x.mhi
  {
    hide Over, Under;
    HalfUlps(x.b, Under(e, k), x.S, m, Over(e, k), x.mhi);
    Cancel(x.b, 2 * m * x.mhi, Under(e, k));
  }

  lemma Cancel(a: int, b: int, c: int)
    requires a * c == b * c && c != 0
    ensures a == b
  {
    assert (a - b) * c == 0;
  }

  /** The tie at ten needs an interval as wide as one unit of the first digit. */
  lemma NarrowNumbers(x: Number)
    requires x.Valid() && x.mlo + x.mhi < x.S
    ensures !PassesOver9(x)
  {
    assert x.b == x.S * Quot(x.b, x.S) + Rem(x.b, x.S);
  }

  lemma {:induction false} NoFive(n: nat)
    ensures Pow2(n) % 5 != 0
  {
    if n > 0 { NoFive(n - 1); }
  }

  lemma MultipleOfFive(a: int, b: int)
    ensures (a * (5 * b)) % 5 == 0
  {
    assert a * (5 * b) == 5 * (a * b);
  }

  lemma OddTimesTens(m: int, n: nat)
    requires n > 0
    ensures Pow10(n) % 5 == 0 && ((2 * m + 1) * Pow10(n)) % 5 == 0
  {
    MultipleOfFive(2 * m + 1, 2 * Pow10(n - 1));
  }

  /** An odd number times a power of ten is no power of two but one. */
  lemma NoPowerOfTwo(m: int, n: nat, j: nat)
    requires j > 0
    ensures (2 * m + 1) * Pow10(n) != Pow2(j)
  {
    NoFive(j);
    if n > 0 { OddTimesTens(m, n); }
  }

  /** A subnormal number and half an ulp are never a power of ten: (2m + 1) * 2^-1075 is none. */
  lemma NoPowerOfTen(m: int, k: int, e: int)
    requires 0 < m && e < 0
    ensures (2 * m + 1) * Over(e, k) != 20 * Under(e, k)
  {
    hide Pow2, Pow10;
    if k >= 0 {
      assert Over(e, k) == 1;
    } else {
      NoPowerOfTwo(m, -k - 1, 1 - e);
      TenTimes(-k - 1, -e);
      assert (2 * m + 1) * (10 * Pow10(-k - 1)) == 10 * ((2 * m + 1) * Pow10(-k - 1));
    }
  }

  lemma TenTimes(n: nat, j: nat)
    ensures Pow10(n + 1) == 10 * Pow10(n) && Pow2(j + 1) == 2 * Pow2(j)
  {
  }

  lemma Tie(m: int, h: int, S: int, a: int, u: int)
    requires (2 * m + 1) * h == 10 * S && 2 * (h * a) == S * u
    ensures ((2 * m + 1) * u) * h == (20 * a) * h
  {
    assert ((2 * m + 1) * u) * h == ((2 * m + 1) * h) * u;
    assert (10 * S) * u == 10 * (S * u);
    assert 10 * (2 * (h * a)) == (20 * a) * h;
  }

  /** The tie at ten arises for no number of the format. */
  lemma NoDoublePasses(x: Number, m: int, e: int, k: int)
    requires Denotes(x, m, e, k)
    ensures !PassesOver9(x) && x.mlo <= x.mhi
  {
    InHalfUlps(x, m, e, k);
    hide Over, Under;
    if m >= HIDDEN {
      Grows(HIDDEN, m, x.mhi);
      NarrowNumbers(x);
    } else if PassesOver9(x) {
      assert (2 * m + 1) * x.mhi == 10 * x.S;
      Tie(m, x.mhi, x.S, Under(e, k), Over(e, k));
      Cancel((2 * m + 1) * Over(e, k), 20 * Under(e, k), x.mhi);
      NoPowerOfTen(m, k, EMIN);
    }
  }

  lemma Grows(a: int, b: int, h: int)
    requires a <= b && h > 0
    ensures 2 * a * h <= 2 * b * h
  {
    assert (b - a) * h >= 0;
  }

  /** The end points of the interval of a number of the format are never two decimals next to each other: half an ulp
      above an even multiple and half an ulp below it are odd multiples. */
  lemma NoDoubleAtBothEnds(x: Number, m: int, e: int, k: int, n: nat, D: int)
    requires Denotes(x, m, e, k)
    ensures !AtBothEnds(x, n, D)
  {
    InHalfUlps(x, m, e, k);
    hide Over, Under, Denotes;
    if AtBothEnds(x, n, D) {
      var p := Pow10(n);
      Positive(x.mhi, p);
      OddEnd(x.b, x.S, m, x.mhi, p, D);
    }
  }

  lemma OddEnd(b: int, S: int, m: int, h: int, p: int, D: int)
    requires b == 2 * m * h && h * p > 0
    ensures D * S == (b - h) * p ==> (D + 1) * S != (b + h) * p
  {
    if D * S == (b - h) * p && (D + 1) * S == (b + h) * p {
      assert (D + 1) * S == D * S + S;
      assert (b + h) * p == (b - h) * p + 2 * (h * p);
      assert D * (2 * (h * p)) == (2 * D) * (h * p);
      assert b - h == (2 * m - 1) * h && ((2 * m - 1) * h) * p == (2 * m - 1) * (h * p);
      Cancel(2 * D, 2 * m - 1, h * p);
    }
  }

  /** What is printed for a number of the format is a shortest decimal that reads back, and the nearest of these. */
  lemma DoublesPrintNearest(x: Number, m: int, e: int, k: int, ds: seq<int>, carry: bool, passes: bool)
    requires Denotes(x, m, e, k) && Good(x, ds, carry, passes) && (passes ==> PassesOver9(x))
    ensures ReadsBack(x, |ds| - 1, Printed(ds, carry)) && Nearest(x, |ds| - 1, Printed(ds, carry))
    ensures TiesToEven(x, |ds| - 1, Printed(ds, carry))
    ensures forall j: nat, N :: j < |ds| - 1 ==> !ReadsBack(x, j, N)
  {
    NoDoublePasses(x, m, e, k);
    NoDoubleAtBothEnds(x, m, e, k, |ds| - 1, Printed(ds, carry));
    hide Denotes, PassesOver9, Inside, Nearest, ReadsBack, TiesToEven, AtBothEnds;
    InsideReadsBack(x, |ds| - 1, Printed(ds, carry));
    forall j: nat, N | j < |ds| - 1 ensures !ReadsBack(x, j, N) {
      assert NoneInside(x, j);
      InsideReadsBack(x, j, N);
    }
  }

  /** An interval as wide as that of this number is what it takes: 9.25, with an interval that ends at 10, is printed as
      10, and 9 is inside and nearer. */
  lemma SomeNumberPasses(ds: seq<int>, carry: bool)
    ensures Number(37, 4, 3, 3, true).Valid() && PassesOver9(Number(37, 4, 3, 3, true))
    ensures Good(Number(37, 4, 3, 3, true), ds, carry, true) ==>
              Printed(ds, carry) == 10 && Inside(Number(37, 4, 3, 3, true), 0, 9)
              && !Nearest(Number(37, 4, 3, 3, true), 0, 10)
  {
    var x := Number(37, 4, 3, 3, true);
    assert Pow10(0) == 1;
    assert Inside(x, 0, 9) && !NoneInside(x, 0);
    if Good(x, ds, carry, true) {
      assert |ds| == 1;
      assert Value(ds) == ds[0] by { assert ds[..0] == []; }
    }
  }

  /** And of 1.5 with an interval from 1 to 2 the digit 1 is printed, although 2 is as near and even. */
  lemma SomeTieStaysOdd(ds: seq<int>, carry: bool, passes: bool)
    ensures Number(3, 2, 1, 1, true).Valid()
    ensures Good(Number(3, 2, 1, 1, true), ds, carry, passes) ==>
              Printed(ds, carry) == 1 && !TiesToEven(Number(3, 2, 1, 1, true), 0, 1)
  {
    var x := Number(3, 2, 1, 1, true);
    assert Pow10(0) == 1;
    assert Inside(x, 0, 1) && !NoneInside(x, 0) && AtBothEnds(x, 0, 1);
    if Good(x, ds, carry, passes) {
      assert |ds| == 1;
      assert Value(ds) == ds[0] by { assert ds[..0] == []; }
      assert Inside(x, 0, 2) && Distance(x, 0, 2) == Distance(x, 0, 1);
    }
  }
}
