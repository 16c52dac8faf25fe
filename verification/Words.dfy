/**
 Numbers written in words of 32 bits, least significant word first, and the arithmetic of one carry or borrow step.
 */
module Words {

  const BASE: int := 0x1_0000_0000
  const WIDE: int := 0x1_0000_0000_0000_0000

  function Pow(n: nat): (p: int)
    ensures p > 0
  {
    if n == 0 then 1 else BASE * Pow(n - 1)
  }

  /** y & 0xffffffff and y >> 32 */
  function Low(y: int): int { y % BASE }

  function High(y: int): int { y / BASE }

  lemma Split(y: int)
    ensures y == Low(y) + High(y) * BASE && Word(Low(y))
    ensures 0 <= y < WIDE ==> Word(High(y))
  {
  }

  lemma MulLe(a: int, b: int, c: int)
    requires a <= b && 0 <= c
    ensures a * c <= b * c
  {
    assert (b - a) * c >= 0;
  }

  predicate Word(w: int) { 0 <= w < BASE }

  predicate AllWords(s: seq<int>) { forall i :: 0 <= i < |s| ==> Word(s[i]) }

  /** The number that the words stand for. */
  function Num(s: seq<int>): int {
    if s == [] then 0 else Num(s[..|s| - 1]) + s[|s| - 1] * Pow(|s| - 1)
  }

  lemma NumSnoc(s: seq<int>, i: nat)
    requires i < |s|
    ensures Num(s[..i + 1]) == Num(s[..i]) + s[i] * Pow(i)
  {
    assert s[..i + 1][..i] == s[..i];
  }

  /** The number written so far when word i is stored. */
  lemma NumSet(s: seq<int>, i: nat, w: int)
    requires i < |s|
    ensures Num(s[i := w][..i + 1]) == Num(s[..i]) + w * Pow(i)
  {
    NumSnoc(s[i := w], i);
    assert s[i := w][..i] == s[..i];
  }

  lemma {:induction false} NumBounds(s: seq<int>)
    requires AllWords(s)
    ensures 0 <= Num(s) < Pow(|s|)
  {
    if s != [] {
      var n := |s| - 1;
      NumBounds(s[..n]);
      TopWord(Num(s[..n]), s[n], Pow(n));
    }
  }

  lemma TopWord(rest: int, w: int, p: int)
    requires 0 <= rest < p && Word(w)
    ensures 0 <= w * p <= rest + w * p < (w + 1) * p <= BASE * p
    ensures w > 0 ==> rest + w * p >= p
  {
    assert (w + 1) * p == w * p + p;
    MulLe(w + 1, BASE, p);
    MulLe(0, w, p);
    if w > 0 { MulLe(1, w, p); }
  }

  /** A top word that is not zero bounds the number from below. */
  lemma NumAtLeast(s: seq<int>)
    requires s != [] && AllWords(s)
    ensures s[|s| - 1] * Pow(|s| - 1) <= Num(s) < (s[|s| - 1] + 1) * Pow(|s| - 1)
    ensures s[|s| - 1] != 0 ==> Num(s) >= Pow(|s| - 1)
  {
    var n := |s| - 1;
    NumBounds(s[..n]);
    TopWord(Num(s[..n]), s[n], Pow(n));
  }

  /** Zero words at the top do not count. */
  lemma {:induction false} NumTrailing(s: seq<int>, n: nat)
    requires n <= |s| && forall i :: n <= i < |s| ==> s[i] == 0
    ensures Num(s) == Num(s[..n])
    decreases |s|
  {
    if n < |s| {
      var m := |s| - 1;
      NumTrailing(s[..m], n);
      assert s[..m][..n] == s[..n];
    } else {
      assert s[..n] == s;
    }
  }

  lemma {:induction false} PowAdd(m: nat, n: nat)
    ensures Pow(m + n) == Pow(m) * Pow(n)
  {
    if n > 0 {
      PowAdd(m, n - 1);
      assert Pow(m + n) == BASE * (Pow(m) * Pow(n - 1)) == Pow(m) * (BASE * Pow(n - 1));
    }
  }

  lemma {:induction false} PowMono(m: nat, n: nat)
    requires m <= n
    ensures Pow(m) <= Pow(n)
  {
    if m < n { PowMono(m, n - 1); }
  }

  /** One step of a carry loop: the low word of y is stored, the high word is carried on. */
  lemma CarryStep(done: int, carry: int, y: int, low: int, high: int, i: nat)
    requires y == low + high * BASE
    ensures done + y * Pow(i) == (done + low * Pow(i)) + high * Pow(i + 1)
  {
    assert y * Pow(i) == low * Pow(i) + (high * BASE) * Pow(i);
    assert (high * BASE) * Pow(i) == high * (BASE * Pow(i));
  }

  /** Storing a word changes the number by the difference at its place. */
  lemma {:induction false} NumUpdate(s: seq<int>, i: nat, w: int)
    requires i < |s|
    ensures Num(s[i := w]) == Num(s) + (w - s[i]) * Pow(i)
    decreases |s|
  {
    var n := |s| - 1;
    if i == n {
      assert s[i := w][..n] == s[..n];
      assert (w - s[i]) * Pow(i) == w * Pow(i) - s[i] * Pow(i);
    } else {
      assert s[i := w][..n] == s[..n][i := w];
      NumUpdate(s[..n], i, w);
    }
  }

  /** Two numbers of the same length compare as their highest different words. */
  lemma NumCompare(s: seq<int>, t: seq<int>, i: nat)
    requires |s| == |t| && i < |s| && AllWords(s) && AllWords(t) && s[i + 1..] == t[i + 1..] && s[i] < t[i]
    ensures Num(s) < Num(t)
  {
    NumBounds(s[..i]);
    NumBounds(t[..i]);
    NumSnoc(s, i);
    NumSnoc(t, i);
    MulLe(s[i] + 1, t[i], Pow(i));
    assert (s[i] + 1) * Pow(i) == s[i] * Pow(i) + Pow(i);
    NumSuffix(s, t, i + 1);
  }

  lemma {:induction false} NumSuffix(s: seq<int>, t: seq<int>, i: nat)
    requires |s| == |t| && i <= |s| && s[i..] == t[i..]
    ensures Num(s) - Num(s[..i]) == Num(t) - Num(t[..i])
    decreases |s|
  {
    var n := |s| - 1;
    if i == |s| {
      assert s[..i] == s && t[..i] == t;
    } else {
      assert s[n] == s[i..][n - i] == t[i..][n - i] == t[n];
      assert s[..n][i..] == s[i..][..n - i] && t[..n][i..] == t[i..][..n - i];
      NumSuffix(s[..n], t[..n], i);
      assert s[..n][..i] == s[..i] && t[..n][..i] == t[..i];
    }
  }

  /** One step of a borrow loop: the difference is taken modulo 2^64, its low word is stored, and bit 32 says whether
      there is something to borrow. */
  lemma BorrowStep(d: int)
    requires -BASE <= d < BASE
    ensures var y := d % WIDE;
            High(y) % 2 == (if d < 0 then 1 else 0) && Low(y) == d + BASE * (High(y) % 2) && Word(Low(y))
  {
    if d < 0 {
      assert d % WIDE == d + WIDE;
      assert High(d + WIDE) == BASE - 1 && Low(d + WIDE) == d + BASE;
    } else {
      assert d % WIDE == d;
    }
  }

  /** Zero words at the bottom multiply by a power of the base. */
  lemma {:induction false} NumLeadingZeros(s: seq<int>, k: nat)
    requires k <= |s| && forall i :: 0 <= i < k ==> s[i] == 0
    ensures Num(s) == Num(s[k..]) * Pow(k)
    decreases |s|
  {
    if k == |s| {
      NumTrailing(s, 0);
      assert s[..0] == [] && s[k..] == [];
    } else {
      var n := |s| - 1;
      NumLeadingZeros(s[..n], k);
      assert s[..n][k..] == s[k..][..n - k];
      PowAdd(n - k, k);
      Spread(Num(s[k..n]), s[n], Pow(n - k), Pow(k));
      NumSnoc(s[k..], n - k);
      assert s[k..][..n - k + 1] == s[k..] && s[k..][..n - k] == s[k..n];
    }
  }

  lemma Spread(u: int, w: int, p: int, q: int)
    ensures (u + w * p) * q == u * q + w * (p * q)
  {
  }
}
