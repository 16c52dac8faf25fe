/**
 Shortest decimal digits: the digit loop of dtoa in mode 0, over exact integers.

 The number to be printed is b/S with 1 <= b/S < 10 (a power of ten has been split off), and every number from
 (b - mlo)/S to (b + mhi)/S reads back as the same floating-point number; the end points do when its mantissa is
 even, because reading rounds ties to even (section 4.3.1 of IEEE 754-2008).
 */
module Digits {

  datatype Number = Number(b: int, S: int, mlo: int, mhi: int, even: bool) {
    ghost predicate Valid() { 0 < S <= b < 10 * S && 0 < mlo && 0 < mhi }
  }

  function Pow10(n: nat): (p: nat)
    ensures p > 0
  {
    if n == 0 then 1 else 10 * Pow10(n - 1)
  }

  /** The integer written by the digits. */
  function Value(ds: seq<int>): int {
    if ds == [] then 0 else 10 * Value(ds[..|ds| - 1]) + ds[|ds| - 1]
  }

  predicate AreDigits(ds: seq<int>) { forall i :: 0 <= i < |ds| ==> 0 <= ds[i] <= 9 }

  /** The decimal N / 10^n lies in the rounding interval. */
  ghost predicate Inside(x: Number, n: nat, N: int) {
    var p := Pow10(n);
    && (N * x.S > (x.b - x.mlo) * p || (x.even && N * x.S == (x.b - x.mlo) * p))
    && (N * x.S < (x.b + x.mhi) * p || (x.even && N * x.S == (x.b + x.mhi) * p))
  }

  /** How far N / 10^n is from b/S, in units of 1 / (S * 10^n). */
  function Distance(x: Number, n: nat, N: int): nat {
    var d := N * x.S - x.b * Pow10(n);
    if d < 0 then -d else d
  }

  /** quorem: the digit it returns and what it leaves in b. */
  function Quot(b: int, S: int): int
    requires S > 0
  {
    b / S
  }

  function Rem(b: int, S: int): int
    requires S > 0
  {
    b % S
  }

  lemma ValueOfSnoc(ds: seq<int>, d: int)
    ensures Value(ds + [d]) == 10 * Value(ds) + d
  {
    assert (ds + [d])[..|ds|] == ds;
  }

  /** A shorter decimal is a longer one that ends in zeros. */
  lemma InsideCoarser(x: Number, n: nat, N: int)
    ensures Inside(x, n + 1, 10 * N) <==> Inside(x, n, N)
  {
    var p := Pow10(n);
    assert Pow10(n + 1) == 10 * p;
    assert (x.b - x.mlo) * (10 * p) == 10 * ((x.b - x.mlo) * p);
    assert (x.b + x.mhi) * (10 * p) == 10 * ((x.b + x.mhi) * p);
    assert (10 * N) * x.S == 10 * (N * x.S);
  }

  ghost predicate NoneInside(x: Number, n: nat) { forall N :: !Inside(x, n, N) }

  lemma {:induction false} NothingCoarser(x: Number, n: nat, m: nat)
    requires m <= n && NoneInside(x, n)
    ensures NoneInside(x, m)
    decreases n - m
  {
    if m < n {
      NothingCoarser(x, n, m + 1);
      forall N ensures !Inside(x, m, N) { InsideCoarser(x, m, N); }
    }
  }

  function Lo(x: Number, n: nat): int { x.mlo * Pow10(n) }

  function Hi(x: Number, n: nat): int { x.mhi * Pow10(n) }

  function Scaled(x: Number, n: nat): int { x.b * Pow10(n) }

  function Times(k: int, S: int): int { k * S }

  /** With x scaled by 10^n, r is the remainder of the division by S and q the quotient. */
  ghost predicate Divided(x: Number, n: nat, q: int, r: int) {
    Scaled(x, n) == Times(q, x.S) + r && 0 <= r < x.S
  }

  predicate Within(d: int, lo: int, hi: int, even: bool) {
    (d > -lo || (even && d == -lo)) && (d < hi || (even && d == hi))
  }

  lemma Positive(a: int, b: int)
    requires a > 0 && b > 0
    ensures a * b > 0
  {
  }

  /** Inside and Distance with the products named. */
  lemma Unscale(x: Number, n: nat, q: int, r: int, N: int)
    requires Divided(x, n, q, r)
    ensures Inside(x, n, N) <==> Within(Times(N - q, x.S) - r, Lo(x, n), Hi(x, n), x.even)
    ensures Distance(x, n, N) == var d := Times(N - q, x.S) - r; if d < 0 then -d else d
  {
    var p := Pow10(n);
    assert (x.b - x.mlo) * p == x.b * p - x.mlo * p;
    assert (x.b + x.mhi) * p == x.b * p + x.mhi * p;
    assert N * x.S == (N - q) * x.S + q * x.S;
  }

  lemma Far(k: int, S: int)
    requires S > 0
    ensures Times(0, S) == 0 && Times(1, S) == S && (k < 0 ==> Times(k, S) <= -S) && (k > 1 ==> Times(k, S) >= 2 * S)
  {
    if k < 0 { assert (-1 - k) * S >= 0; }
    if k > 1 { assert (k - 2) * S >= 0; }
  }

  /** Of the decimals with n fraction digits only the two next to b/S matter. */
  lemma OnlyNeighbours(x: Number, n: nat, q: int, r: int, N: int)
    requires x.Valid() && Divided(x, n, q, r)
    ensures Inside(x, n, q) <==> r < Lo(x, n) || (x.even && r == Lo(x, n))
    ensures Inside(x, n, q + 1) <==> x.S - r < Hi(x, n) || (x.even && x.S - r == Hi(x, n))
    ensures Inside(x, n, N) && N < q ==> Inside(x, n, q)
    ensures Inside(x, n, N) && N > q + 1 ==> Inside(x, n, q + 1)
    ensures Distance(x, n, q) == r && Distance(x, n, q + 1) == x.S - r
    ensures N < q ==> Distance(x, n, N) > r
    ensures N > q + 1 ==> Distance(x, n, N) > x.S - r
  {
    Positive(x.mlo, Pow10(n));
    Positive(x.mhi, Pow10(n));
    assert Lo(x, n) > 0 && Hi(x, n) > 0 && 0 <= r < x.S;
    hide Inside, Distance, Pow10, Lo, Hi, Times, Divided;
    Unscale(x, n, q, r, q);
    Unscale(x, n, q, r, q + 1);
    Unscale(x, n, q, r, N);
    Far(N - q, x.S);
  }

  /** Adding one in the last place, as the label roundoff does: nines become zeros that are not written, and when all
      digits are nines the decimal point moves. */
  method RoundOff(ds: seq<int>) returns (r: seq<int>, carry: bool)
    requires |ds| > 0 && AreDigits(ds)
    ensures 0 < |r| <= |ds| && AreDigits(r) && r[|r| - 1] != 0
    ensures Value(ds) + 1 == Value(r) * Pow10(|ds| - |r| + if carry then 1 else 0)
    ensures carry <==> forall i :: 0 <= i < |ds| ==> ds[i] == 9
    ensures carry ==> r == [1]
  {
    var s := |ds|;
    carry := false;
    assert ds[..s] == ds;
    while true
      invariant 0 < s <= |ds|
      invariant forall i :: s <= i < |ds| ==> ds[i] == 9
      invariant Value(ds) + 1 == (Value(ds[..s]) + 1) * Pow10(|ds| - s)
      decreases s
    {
      s := s - 1;
      assert ds[..s + 1][..s] == ds[..s];
      assert Value(ds[..s + 1]) == 10 * Value(ds[..s]) + ds[s];
      if ds[s] != 9 {
        r := ds[..s] + [ds[s] + 1];
        ValueOfSnoc(ds[..s], ds[s] + 1);
        return;
      }
      Scale(Value(ds[..s]) + 1, |ds| - s - 1);
      if s == 0 {
        r, carry := [1], true;
        assert Value([1]) == 1 by { ValueOfSnoc([], 1); }
        return;
      }
    }
  }

  lemma Scale(v: int, n: nat)
    ensures (10 * v) * Pow10(n) == v * Pow10(n + 1)
  {
    assert (10 * v) * Pow10(n) == v * (10 * Pow10(n));
  }

  /** The three-way comparison of two numbers. */
  function Cmp(a: int, b: int): int { if a < b then -1 else if a == b then 0 else 1 }

  /** The number that the digits stand for, in units of 10^-(|ds| - 1). */
  function Printed(ds: seq<int>, carry: bool): int { if carry then 10 else Value(ds) }

  /** The result is one digit, 10, although 9 is in the interval too and nearer. */
  predicate PassesOver9(x: Number)
    requires x.S > 0
  {
    Quot(x.b, x.S) == 9 && x.even && x.b + x.mhi == 10 * x.S && Rem(x.b, x.S) <= x.mlo && 2 * Rem(x.b, x.S) < x.S
  }

  ghost predicate Nearest(x: Number, n: nat, D: int) {
    forall N :: Inside(x, n, N) ==> Distance(x, n, D) <= Distance(x, n, N)
  }

  /** When another decimal of the length is as near, the one printed is even. */
  ghost predicate TiesToEven(x: Number, n: nat, D: int) {
    forall N :: N != D && Inside(x, n, N) && Distance(x, n, N) == Distance(x, n, D) ==> D % 2 == 0
  }

  /** D and the next decimal are the end points of the interval, and these read back. */
  ghost predicate AtBothEnds(x: Number, n: nat, D: int) {
    var p := Pow10(n);
    x.even && x.mlo == x.mhi && D * x.S == (x.b - x.mlo) * p && (D + 1) * x.S == (x.b + x.mhi) * p
  }

  /** What the loop has established after |ds| digits: they are the leading digits of b/S, b is the scaled remainder,
      and no decimal of that length would do. */
  ghost predicate Progress(x: Number, ds: seq<int>, b: int, mlo: int, mhi: int) {
    && AreDigits(ds)
    && Scaled(x, |ds|) == Times(10 * Value(ds), x.S) + b && 0 <= b < 10 * x.S
    && mlo == Lo(x, |ds|) && mhi == Hi(x, |ds|)
    && (ds == [] ==> b == x.b)
    && (ds != [] ==> ds[0] != 0 && NoneInside(x, |ds| - 1))
  }

  lemma Gaps(x: Number, n: nat)
    requires x.Valid()
    ensures Lo(x, n) > 0 && Hi(x, n) > 0 && (x.mlo <= x.mhi ==> Lo(x, n) <= Hi(x, n))
  {
    if x.mlo < x.mhi { Positive(x.mhi - x.mlo, Pow10(n)); }
    Positive(x.mlo, Pow10(n));
    Positive(x.mhi, Pow10(n));
  }

  /** The quotient digit and the remainder, and what the comparisons with mlo and with S - mhi mean. */
  lemma DigitMeans(x: Number, ds: seq<int>, b: int, mlo: int, mhi: int, dig: int, r: int)
    requires x.Valid() && Progress(x, ds, b, mlo, mhi) && dig == Quot(b, x.S) && r == Rem(b, x.S)
    ensures 0 <= dig <= 9 && 0 <= r < x.S && (ds == [] ==> dig != 0)
    ensures Divided(x, |ds|, 10 * Value(ds) + dig, r) && Value(ds + [dig]) == 10 * Value(ds) + dig
    ensures Inside(x, |ds|, 10 * Value(ds) + dig) <==> r < mlo || (x.even && r == mlo)
    ensures Inside(x, |ds|, 10 * Value(ds) + dig + 1) <==> x.S - r < mhi || (x.even && x.S - r == mhi)
    ensures Inside(x, |ds|, 10 * Value(ds) + 10) ==> ds == []
    ensures mlo > 0 && mhi > 0 && (x.mlo <= x.mhi ==> mlo <= mhi)
  {
    hide Scaled, Times, Inside, Pow10, Value, Lo, Hi;
    var n := |ds|;
    var v := Value(ds);
    Step(v, b, dig, r, x.S);
    ValueOfSnoc(ds, dig);
    if ds != [] { InsideCoarser(x, n - 1, v + 1); }
    Gaps(x, n);
    OnlyNeighbours(x, n, 10 * v + dig, r, 0);
  }

  lemma Step(v: int, b: int, dig: int, r: int, S: int)
    requires S > 0 && 0 <= b < 10 * S && dig == Quot(b, S) && r == Rem(b, S)
    ensures Times(10 * v + dig, S) + r == Times(10 * v, S) + b && 0 <= dig <= 9 && 0 <= r < S && (b >= S ==> dig > 0)
  {
    assert b == dig * S + r;
    assert (10 * v + dig) * S == (10 * v) * S + dig * S;
    assert dig >= 10 ==> dig * S >= 10 * S;
  }

  /** Which of the two neighbours is a good answer. */
  lemma Choose(x: Number, n: nat, q: int, r: int, up: bool)
    requires x.Valid() && Divided(x, n, q, r) && Inside(x, n, if up then q + 1 else q)
    ensures Nearest(x, n, if up then q + 1 else q)
            <==> !Inside(x, n, if up then q else q + 1) || (if up then x.S - r <= r else r <= x.S - r)
  {
    OnlyNeighbours(x, n, q, r, q);
    forall N | Inside(x, n, N) && N < q ensures Inside(x, n, q) && Distance(x, n, N) > r {
      OnlyNeighbours(x, n, q, r, N);
    }
    forall N | Inside(x, n, N) && N > q + 1 ensures Inside(x, n, q + 1) && Distance(x, n, N) > x.S - r {
      OnlyNeighbours(x, n, q, r, N);
    }
    hide Inside, Distance, Divided;
  }

  /** Two decimals as near as each other and as any are the neighbours, with b/S in the middle. */
  lemma TieMeans(x: Number, n: nat, q: int, r: int, up: bool)
    requires x.Valid() && Divided(x, n, q, r)
    requires Inside(x, n, if up then q + 1 else q)
    requires !Inside(x, n, if up then q else q + 1) || (if up then x.S - r <= r else r <= x.S - r)
    ensures TiesToEven(x, n, if up then q + 1 else q)
            || (Inside(x, n, q) && Inside(x, n, q + 1) && 2 * r == x.S)
  {
    var D := if up then q + 1 else q;
    OnlyNeighbours(x, n, q, r, q);
    forall N | N != D && Inside(x, n, N) && Distance(x, n, N) == Distance(x, n, D)
      ensures Inside(x, n, q) && Inside(x, n, q + 1) && 2 * r == x.S
    {
      OnlyNeighbours(x, n, q, r, N);
      hide Inside, Distance, Divided;
    }
    hide Inside, Distance, Divided;
  }

  lemma EndsMean(x: Number, n: nat, q: int, r: int)
    requires x.Valid() && Divided(x, n, q, r) && x.even && 2 * r == x.S && r == Lo(x, n) && x.S - r == Hi(x, n)
    ensures AtBothEnds(x, n, q)
  {
    var p := Pow10(n);
    assert (x.b - x.mlo) * p == x.b * p - x.mlo * p;
    assert (x.b + x.mhi) * p == x.b * p + x.mhi * p;
    assert (q + 1) * x.S == q * x.S + x.S;
    if x.mlo < x.mhi { Positive(x.mhi - x.mlo, p); }
    if x.mlo > x.mhi { Positive(x.mlo - x.mhi, p); }
  }

  lemma EndsAre(x: Number, n: nat, q: int, r: int)
    requires x.Valid() && Divided(x, n, q, r)
    ensures AtBothEnds(x, n, q) ==> x.even && r == Lo(x, n) && x.S - r == Hi(x, n)
    ensures !AtBothEnds(x, n, q - 1)
  {
    var p := Pow10(n);
    assert (x.b - x.mlo) * p == x.b * p - x.mlo * p;
    assert (x.b + x.mhi) * p == x.b * p + x.mhi * p;
    assert (q + 1) * x.S == q * x.S + x.S && (q - 1) * x.S == q * x.S - x.S;
    Positive(x.mhi, p);
  }

  /** When no decimal of the present length is inside, the loop goes on with one digit more. */
  lemma Continue(x: Number, ds: seq<int>, b: int, mlo: int, mhi: int, dig: int, r: int)
    requires x.Valid() && Progress(x, ds, b, mlo, mhi) && dig == Quot(b, x.S) && r == Rem(b, x.S)
    requires !Inside(x, |ds|, 10 * Value(ds) + dig) && !Inside(x, |ds|, 10 * Value(ds) + dig + 1)
    ensures Progress(x, ds + [dig], r * 10, mlo * 10, mhi * 10)
  {
    DigitMeans(x, ds, b, mlo, mhi, dig, r);
    Widen(x, |ds|, 10 * Value(ds) + dig, r);
    hide Scaled, Times, Inside, Pow10, Value, Lo, Hi;
    var n := |ds|;
    var q := 10 * Value(ds) + dig;
    forall N ensures !Inside(x, n, N) { OnlyNeighbours(x, n, q, r, N); }
    assert (ds + [dig])[0] == if ds == [] then dig else ds[0];
  }

  lemma Widen(x: Number, n: nat, q: int, r: int)
    requires Divided(x, n, q, r)
    ensures Scaled(x, n + 1) == Times(10 * q, x.S) + 10 * r && Lo(x, n + 1) == 10 * Lo(x, n)
            && Hi(x, n + 1) == 10 * Hi(x, n)
  {
    var p := Pow10(n);
    assert x.b * (10 * p) == 10 * (x.b * p) && (10 * q) * x.S == 10 * (q * x.S);
    assert x.mlo * (10 * p) == 10 * (x.mlo * p) && x.mhi * (10 * p) == 10 * (x.mhi * p);
  }

  /** D / 10^n is in the interval and the nearest such decimal, unless 9 is passed over for 10, and even if another is
      as near.  Of two end points that are neighbours the lower one is printed, even or odd, but 9 gives way to 10. */
  ghost predicate Best(x: Number, n: nat, D: int, passes: bool) {
    && Inside(x, n, D)
    && (x.mlo <= x.mhi ==> (Nearest(x, n, D) <==> !passes))
    && (x.mlo <= x.mhi ==> TiesToEven(x, n, D) || AtBothEnds(x, n, D))
    && (AtBothEnds(x, n, D - 1) ==> D == 10)
  }

  /** What the printed digits promise; passes is whether 9 is passed over for 10. */
  ghost predicate Good(x: Number, ds: seq<int>, carry: bool, passes: bool)
    requires x.Valid()
  {
    && ds != [] && AreDigits(ds) && ds[0] != 0 && (carry ==> ds == [1])
    && Best(x, |ds| - 1, Printed(ds, carry), passes)
    && (forall m: nat :: m < |ds| - 1 ==> NoneInside(x, m))
  }

  /** A decimal of the present length has been accepted: the digit is kept. */
  lemma AcceptKept(x: Number, ds: seq<int>, b: int, mlo: int, mhi: int, dig: int, r: int)
    requires x.Valid() && Progress(x, ds, b, mlo, mhi) && dig == Quot(b, x.S) && r == Rem(b, x.S)
    requires Inside(x, |ds|, 10 * Value(ds) + dig)
    requires x.mlo <= x.mhi && Inside(x, |ds|, 10 * Value(ds) + dig + 1) ==>
               r <= x.S - r && (2 * r == x.S ==> dig % 2 == 0 || (x.even && r == mlo && x.S - r == mhi))
    ensures Good(x, ds + [dig], false, false)
  {
    DigitMeans(x, ds, b, mlo, mhi, dig, r);
    Parity(Value(ds), dig);
    assert mlo == Lo(x, |ds|) && mhi == Hi(x, |ds|);
    hide Inside, Value, Divided, NoneInside, Quot, Rem, AreDigits, Progress, Lo, Hi, Best;
    AcceptedBest(x, |ds|, 10 * Value(ds) + dig, r, false);
    AcceptedForm(x, ds, b, mlo, mhi, dig);
  }

  /** Or the digit plus one. */
  lemma AcceptNext(x: Number, ds: seq<int>, b: int, mlo: int, mhi: int, dig: int, r: int)
    requires x.Valid() && Progress(x, ds, b, mlo, mhi) && dig == Quot(b, x.S) && r == Rem(b, x.S) && dig != 9
    requires Inside(x, |ds|, 10 * Value(ds) + dig + 1) && !(x.even && r == mlo && x.S - r == mhi)
    requires x.mlo <= x.mhi && Inside(x, |ds|, 10 * Value(ds) + dig) ==>
               x.S - r <= r && (2 * r == x.S ==> dig % 2 == 1)
    ensures Good(x, ds + [dig + 1], false, false)
  {
    DigitMeans(x, ds, b, mlo, mhi, dig, r);
    Parity(Value(ds), dig);
    assert mlo == Lo(x, |ds|) && mhi == Hi(x, |ds|);
    hide Inside, Value, Divided, NoneInside, Quot, Rem, AreDigits, Progress, Lo, Hi, Best;
    AcceptedBest(x, |ds|, 10 * Value(ds) + dig, r, true);
    AcceptedForm(x, ds, b, mlo, mhi, dig + 1);
  }

  lemma Parity(v: int, d: int)
    ensures d % 2 == 0 ==> (10 * v + d) % 2 == 0
    ensures d % 2 == 1 ==> (10 * v + d + 1) % 2 == 0
  {
  }

  lemma AcceptedBest(x: Number, n: nat, q: int, r: int, up: bool)
    requires x.Valid() && Divided(x, n, q, r) && Inside(x, n, if up then q + 1 else q)
    requires x.mlo <= x.mhi ==>
               !Inside(x, n, if up then q else q + 1) || (if up then x.S - r <= r else r <= x.S - r)
    requires x.mlo <= x.mhi && 2 * r == x.S && Inside(x, n, if up then q else q + 1) ==>
               (if up then q + 1 else q) % 2 == 0 || (!up && x.even && r == Lo(x, n) && x.S - r == Hi(x, n))
    requires up ==> !(x.even && r == Lo(x, n) && x.S - r == Hi(x, n))
    ensures Best(x, n, if up then q + 1 else q, false)
  {
    hide Inside, Distance, Nearest, TiesToEven, AtBothEnds, Divided, Lo, Hi;
    EndsAre(x, n, q, r);
    Choose(x, n, q, r, up);
    if x.mlo <= x.mhi { AcceptedTie(x, n, q, r, up); }
  }

  lemma AcceptedForm(x: Number, ds: seq<int>, b: int, mlo: int, mhi: int, d: int)
    requires Progress(x, ds, b, mlo, mhi) && 0 <= d <= 9 && (ds == [] ==> d != 0)
    ensures AreDigits(ds + [d]) && (ds + [d])[0] != 0 && Value(ds + [d]) == 10 * Value(ds) + d
    ensures forall m: nat :: m < |ds| ==> NoneInside(x, m)
  {
    hide NoneInside;
    ValueOfSnoc(ds, d);
    forall m: nat | m < |ds| ensures NoneInside(x, m) { NothingCoarser(x, |ds| - 1, m); }
    assert (ds + [d])[0] == if ds == [] then d else ds[0];
  }

  lemma EvenTies(x: Number, n: nat, D: int)
    ensures D % 2 == 0 ==> TiesToEven(x, n, D)
  {
  }

  lemma AcceptedTie(x: Number, n: nat, q: int, r: int, up: bool)
    requires x.Valid() && Divided(x, n, q, r) && Inside(x, n, if up then q + 1 else q)
    requires !Inside(x, n, if up then q else q + 1) || (if up then x.S - r <= r else r <= x.S - r)
    requires 2 * r == x.S && Inside(x, n, if up then q else q + 1) ==>
               (if up then q + 1 else q) % 2 == 0 || (!up && x.even && r == Lo(x, n) && x.S - r == Hi(x, n))
    ensures var D := if up then q + 1 else q; TiesToEven(x, n, D) || AtBothEnds(x, n, D)
  {
    hide Inside, Distance, AtBothEnds, Divided, Value, TiesToEven, Lo, Hi;
    TieMeans(x, n, q, r, up);
    if !up && x.even && 2 * r == x.S && r == Lo(x, n) && x.S - r == Hi(x, n) { EndsMean(x, n, q, r); }
    EvenTies(x, n, if up then q + 1 else q);
  }

  /** Ten was the answer: then no digit has been written before the 9. */
  lemma AcceptTen(x: Number, ds: seq<int>, b: int, mlo: int, mhi: int, r: int, passes: bool)
    requires x.Valid() && Progress(x, ds, b, mlo, mhi) && 9 == Quot(b, x.S) && r == Rem(b, x.S)
    requires Inside(x, |ds|, 10 * Value(ds) + 10)
    requires x.mlo <= x.mhi ==> (passes <==> Inside(x, |ds|, 10 * Value(ds) + 9) && r < x.S - r)
    ensures ds == [] && Good(x, [1], true, passes)
  {
    DigitMeans(x, ds, b, mlo, mhi, 9, r);
    Choose(x, 0, 9, r, true);
  }

  /** When the interval ends exactly at 10, ties to even, the first digit is 9 and the first test fires. */
  lemma PassesAtOnce(x: Number, ds: seq<int>, b: int, mlo: int, mhi: int, r: int)
    requires x.Valid() && Progress(x, ds, b, mlo, mhi) && r == Rem(b, x.S) && PassesOver9(x)
    ensures ds == [] && b == x.b && x.S - r == mhi
  {
    var r0 := Rem(x.b, x.S);
    assert Divided(x, 0, 9, r0) by { assert x.b == 9 * x.S + r0 && Pow10(0) == 1; }
    OnlyNeighbours(x, 0, 9, r0, 0);
    assert Hi(x, 0) == x.mhi && x.S - r0 == x.mhi by { assert x.b == 9 * x.S + r0; }
    if ds != [] {
      NothingCoarser(x, |ds| - 1, 0);
      assert false;
    }
  }

  lemma PassesMeans(x: Number, ds: seq<int>, b: int, mlo: int, mhi: int, dig: int, r: int)
    requires x.Valid() && Progress(x, ds, b, mlo, mhi) && dig == Quot(b, x.S) && r == Rem(b, x.S)
    ensures PassesOver9(x) ==> ds == [] && x.even && dig == 9 && x.S - r == mhi && r <= mlo && 2 * r < x.S
    ensures ds == [] && x.even && dig == 9 && x.S - r == mhi && r <= mlo && 2 * r < x.S ==> PassesOver9(x)
    ensures dig == 9 && Inside(x, |ds|, 10 * Value(ds) + 10) ==> ds == []
  {
    DigitMeans(x, ds, b, mlo, mhi, dig, r);
    if PassesOver9(x) { PassesAtOnce(x, ds, b, mlo, mhi, r); }
    if ds == [] { assert b == dig * x.S + r; assert Lo(x, 0) == x.mlo && Hi(x, 0) == x.mhi; }
  }

  predicate SignOf(j: int, d: int) { (j < 0 <==> d < 0) && (j == 0 <==> d == 0) }

  /** The digit plus one, and the label round_9_up. */
  method OneUp(ghost x: Number, ds: seq<int>, ghost b: int, ghost mlo: int, ghost mhi: int, dig: int, ghost r: int,
               ghost passes: bool)
    returns (out: seq<int>, carry: bool)
    requires x.Valid() && Progress(x, ds, b, mlo, mhi) && dig == Quot(b, x.S) && r == Rem(b, x.S)
    requires Inside(x, |ds|, 10 * Value(ds) + dig + 1)
    requires dig == 9 && x.mlo <= x.mhi ==> (passes <==> Inside(x, |ds|, 10 * Value(ds) + 9) && r < x.S - r)
    requires dig != 9 ==> !passes && !(x.even && r == mlo && x.S - r == mhi)
    requires dig != 9 && x.mlo <= x.mhi && Inside(x, |ds|, 10 * Value(ds) + dig) ==>
               x.S - r <= r && (2 * r == x.S ==> dig % 2 == 1)
    ensures Good(x, out, carry, passes)
  {
    hide Inside, Value, Pow10, Progress, Good, PassesOver9, Quot, Rem;
    carry := false;
    if dig == 9 {
      AcceptTen(x, ds, b, mlo, mhi, r, passes);
      out, carry := RoundOff(ds + [9]);
      return;
    }
    AcceptNext(x, ds, b, mlo, mhi, dig, r);
    out := ds + [dig + 1];
  }

  /** What a round makes of its comparisons: j of the remainder with mlo, j1 with S - mhi, z with zero, and half with
      half of S; off says that j1 is negative although it should be zero. */
  method Judge(ghost x: Number, ds: seq<int>, ghost b: int, ghost mlo: int, ghost mhi: int, dig: int, ghost r: int,
               even: bool, j: int, j1: int, z: bool, half: int, ghost off: bool, ghost passes: bool)
    returns (done: bool, out: seq<int>, carry: bool)
    requires x.Valid() && Progress(x, ds, b, mlo, mhi) && dig == Quot(b, x.S) && r == Rem(b, x.S) && even == x.even
    requires SignOf(j, r - mlo) && z == (r == 0) && (r != 0 && j1 > 0 ==> SignOf(half, 2 * r - x.S))
    requires if off then j1 < 0 && r == 0 && x.S == mhi else SignOf(j1, r - (x.S - mhi))
    requires passes == (PassesOver9(x) && !(off && ds == []))
    ensures done ==> Good(x, out, carry, passes)
    ensures !done ==> out == ds + [dig] && !carry && Progress(x, out, r * 10, mlo * 10, mhi * 10) && 0 < mlo <= r < x.S
  {
    DigitMeans(x, ds, b, mlo, mhi, dig, r);
    PassesMeans(x, ds, b, mlo, mhi, dig, r);
    hide Inside, Value, Pow10, Progress, Good, PassesOver9, Quot, Rem;
    done, carry := true, false;
    if j1 == 0 && even {
      if dig == 9 || j > 0 {
        out, carry := OneUp(x, ds, b, mlo, mhi, dig, r, passes);
        return;
      }
      AcceptKept(x, ds, b, mlo, mhi, dig, r);
      out := ds + [dig];
      return;
    }
    if j < 0 || (j == 0 && even) {
      if !z && j1 > 0 && (half > 0 || (half == 0 && dig % 2 == 1)) {
        out, carry := OneUp(x, ds, b, mlo, mhi, dig, r, passes);
        return;
      }
      AcceptKept(x, ds, b, mlo, mhi, dig, r);
      out := ds + [dig];
      return;
    }
    if j1 > 0 {
      out, carry := OneUp(x, ds, b, mlo, mhi, dig, r, passes);
      return;
    }
    Continue(x, ds, b, mlo, mhi, dig, r);
    done, out := false, ds + [dig];
  }

  /** The digit loop over integers: b, mlo and mhi are multiplied by 10 from round to round, and the number is done as
      soon as one of its two neighbours of the present length reads back right. */
  method Shortest(x: Number) returns (ds: seq<int>, carry: bool)
    requires x.Valid()
    ensures Good(x, ds, carry, PassesOver9(x))
  {
    hide Inside, Value, Pow10, Progress, Good, PassesOver9, Quot, Rem;
    var b, mlo, mhi := x.b, x.mlo, x.mhi;
    ds, carry := [], false;
    Begin(x);
    while true
      invariant Progress(x, ds, b, mlo, mhi) && !carry
      decreases 10 * x.S - mlo
    {
      assert x.S > 0;
      var dig, r := Quot(b, x.S), Rem(b, x.S);
      var j, half := Cmp(r, mlo), Cmp(2 * r, x.S);
      var j1 := if x.S < mhi then 1 else Cmp(r, x.S - mhi);
      DigitMeans(x, ds, b, mlo, mhi, dig, r);
      var done;
      done, ds, carry := Judge(x, ds, b, mlo, mhi, dig, r, x.even, j, j1, r == 0, half, false, PassesOver9(x));
      if done {
        return;
      }
      b, mlo, mhi := r * 10, mlo * 10, mhi * 10;
    }
  }

  lemma Begin(x: Number)
    requires x.Valid()
    ensures Progress(x, [], x.b, x.mlo, x.mhi)
  {
  }

  function Abs(d: int): nat { if d < 0 then -d else d }

  /** What a correctly rounding reader does (section 4.3.1 of IEEE 754-2008): the decimal N / 10^n reads as b/S when b/S
      is nearer to it than both neighbouring floating-point numbers, (b - 2 mlo)/S and (b + 2 mhi)/S, or as near as a
      neighbour and even. */
  ghost predicate ReadsBack(x: Number, n: nat, N: int) {
    var d := N * x.S - x.b * Pow10(n);
    && (Abs(d) < Abs(d + 2 * Lo(x, n)) || (x.even && Abs(d) == Abs(d + 2 * Lo(x, n))))
    && (Abs(d) < Abs(d - 2 * Hi(x, n)) || (x.even && Abs(d) == Abs(d - 2 * Hi(x, n))))
  }

  /** The rounding interval is exactly the set of decimals that read back as the number, so what Shortest prints is a
      shortest decimal that reads back. */
  lemma InsideReadsBack(x: Number, n: nat, N: int)
    requires x.Valid()
    ensures Inside(x, n, N) <==> ReadsBack(x, n, N)
  {
    var p := Pow10(n);
    Gaps(x, n);
    assert (x.b - x.mlo) * p == x.b * p - Lo(x, n);
    assert (x.b + x.mhi) * p == x.b * p + Hi(x, n);
  }
}
