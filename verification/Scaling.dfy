/**
 What dtoa does before its digit loop: a number of the binary64 format (section 3.6 of IEEE 754-2008), given by its two
 words, is taken apart, a power of ten is split off, and the four big integers of the loop are made.
 */
module Scaling {
  import opened Exponents
  import opened Words
  import opened Doubles
  import B = Bignum
  import D = Digits
  import L = DigitLoop

  // ---------------------------------------------------------------- the two words

  /** Neither zero, nor infinite, nor NaN; the sign bit has been cleared. */
  predicate Finite(high: int, low: int) { 0 <= high < 0x7FF0_0000 && Word(low) && (high != 0 || low != 0) }

  function Biased(high: int): int { high / 0x10_0000 }

  function Mantissa(high: int, low: int): int {
    (high % 0x10_0000 + if Biased(high) > 0 then 0x10_0000 else 0) * BASE + low
  }

  function Exponent(high: int): int { if Biased(high) > 0 then Biased(high) - 1075 else -1074 }

  /** Every number of the format, and only these. */
  lemma WordsOfDoubles(high: int, low: int, m: int, e: int)
    ensures Finite(high, low) ==> IsDouble(Mantissa(high, low), Exponent(high))
    ensures IsDouble(m, e) ==>
              exists high, low :: Finite(high, low) && Mantissa(high, low) == m && Exponent(high) == e
  {
    if IsDouble(m, e) {
      var field := if m < HIDDEN then 0 else e + 1075;
      var frac := m % HIDDEN;
      var h := field * 0x10_0000 + frac / BASE;
      assert h % 0x10_0000 == frac / BASE && Biased(h) == field;
      assert Finite(h, frac % BASE) && Mantissa(h, frac % BASE) == m && Exponent(h) == e;
    }
  }

  // ---------------------------------------------------------------- d2b

  /** k bits of y have been shifted out, and of what is left not all the bits below c are zero. */
  ghost predicate Left(y: int, x: int, k: nat, c: int)
    requires c > 0
  {
    0 <= x <= y && y == x * Pow2(k) && (y > 0 ==> x % c != 0)
  }

  function Prod(a: int, b: int): int { a * b }

  lemma Sum2(n: nat, a: nat, c: nat)
    requires n == a + c
    ensures Pow2(n) == Prod(Pow2(a), Pow2(c))
  {
    B.Pow2Add(a, c);
  }

  lemma DivMod(z: int, p: int)
    requires p > 0
    ensures z == (z / p) * p + z % p && 0 <= z % p < p
  {
  }

  /** Shifting j more bits out if they are zero. */
  lemma ShiftOut(y: int, x: int, k: nat, c: int, j: nat)
    requires c == Pow2(j) && Left(y, x, k, c * c)
    ensures if x % c == 0 then Left(y, x / c, k + j, c) else Left(y, x, k, c)
  {
    assert Pow2(k + j) == Pow2(k) * c by { B.Pow2Add(k, j); }
    DivMod(x, c);
    if x % c == 0 { ShiftedOut(y, x / c, k, c, k + j); }
  }

  lemma ShiftedOut(y: int, q: int, k: nat, c: int, kj: nat)
    requires c > 0 && Left(y, q * c, k, c * c) && Pow2(kj) == Pow2(k) * c
    ensures Left(y, q, kj, c)
  {
    hide Pow2;
    Regroup(q, c, Pow2(k));
    Quotient(q, c);
    if y > 0 && q % c == 0 { Twice(q, c); }
  }

  lemma Regroup(q: int, c: int, p: int)
    ensures (q * c) * p == q * (p * c)
  {
  }

  lemma Quotient(q: int, c: int)
    requires c > 0 && q * c >= 0
    ensures 0 <= q <= q * c
  {
    if q < 0 { MulLe(q, -1, c); }
    MulLe(1, c, if q < 0 then 0 else q);
  }

  lemma Twice(q: int, c: int)
    requires c > 0 && q % c == 0
    ensures (q * c) % (c * c) == 0
  {
    var r := q / c;
    assert q == r * c;
    assert q * c == r * (c * c);
    Multiple(r, c * c);
  }

  lemma Multiple(r: int, d: int)
    requires d > 0
    ensures (r * d) % d == 0
  {
    var q := r * d / d;
    assert r * d == q * d + (r * d) % d;
    if q < r { MulLe(q + 1, r, d); }
    if q > r { MulLe(r + 1, q, d); }
  }

  lemma SmallPowers()
    ensures Pow2(0) == 1 && Pow2(1) == 2 && Pow2(2) == 4 && Pow2(4) == 0x10 && Pow2(8) == 0x100 && Pow2(16) == 0x1_0000
  {
    B.PowersOf2();
  }

  lemma OddPart(y: int, x: int, k: nat)
    requires Left(y, x, k, 2)
    ensures y == 0 ==> x == 0
    ensures y > 0 ==> x % 2 == 1 && y == x * Pow2(k)
  {
  }

  lemma LowThree(y: int)
    ensures y % 2 == 1 ==> y == y * Pow2(0)
    ensures y % 2 == 0 && y / 2 % 2 == 1 ==> y == y / 2 * Pow2(1)
    ensures y % 8 != 0 && y % 2 == 0 && y / 2 % 2 == 0 ==> y == y / 4 * Pow2(2) && y / 4 % 2 == 1
  {
    SmallPowers();
  }

  /** One test: the j bits below c are shifted out if they are all zero. */
  method Halve(ghost y: int, x: int, k: nat, c: int, ghost cc: int, j: nat) returns (x': int, k': nat)
    requires c == Pow2(j) && cc == c * c && Left(y, x, k, cc)
    ensures Left(y, x', k', c) && k <= k' <= k + j
  {
    ShiftOut(y, x, k, c, j);
    x', k' := x, k;
    if x % c == 0 {
      x', k' := x / c, k + j;
    }
  }

  /** The number of zero bits at the bottom of a word, and the word without them, found by halving. */
  method LowZeros(y: int) returns (k: nat, y': int)
    requires Word(y)
    ensures y == 0 ==> k == 32 && y' == 0
    ensures y > 0 ==> k < 32 && y' % 2 == 1 && y == y' * Pow2(k)
  {
    SmallPowers();
    hide Pow2;
    assert Left(y, y, 0, BASE);
    hide Left;
    y', k := Halve(y, y, 0, 0x1_0000, BASE, 16);
    y', k := Halve(y, y', k, 0x100, 0x1_0000, 8);
    y', k := Halve(y, y', k, 0x10, 0x100, 4);
    y', k := Halve(y, y', k, 4, 0x10, 2);
    y', k := Halve(y, y', k, 2, 4, 1);
    OddPart(y, y', k);
    if y' == 0 {
      k := 32;
    }
  }

  /** The same, with a short cut for words that end in few zero bits. */
  method Lo0Bits(y: int) returns (k: nat, y': int)
    requires Word(y)
    ensures y == 0 ==> k == 32 && y' == 0
    ensures y > 0 ==> k < 32 && y' % 2 == 1 && y == y' * Pow2(k)
  {
    LowThree(y);
    hide Pow2;
    if y % 8 != 0 {
      if y % 2 == 1 {
        return 0, y;
      }
      if y / 2 % 2 == 1 {
        return 1, y / 2;
      }
      return 2, y / 4;
    }
    k, y' := LowZeros(y);
  }

  lemma Complement(k: nat)
    requires 0 < k < 32
    ensures Pow2(k) * Pow2(32 - k) == BASE && Pow2(32 - k) == 2 * Pow2(31 - k)
  {
    B.Pow2Add(k, 32 - k);
    B.PowersOf2();
    B.Pow2Add(30, 2);
  }

  /** Two words shifted right by fewer than 32 bits. */
  lemma TwoWords(y: int, z: int, y': int, k: nat)
    requires Word(y) && z >= 0 && y == y' * Pow2(k) && 0 < k < 32
    ensures var x0 := y' + Low(z * Pow2(32 - k));
            Word(x0) && Word(y') && (x0 + (z / Pow2(k)) * BASE) * Pow2(k) == y + z * BASE
    ensures y' % 2 == 1 ==> (y' + Low(z * Pow2(32 - k))) % 2 == 1
  {
    Complement(k);
    WordsShifted(y, z, y', Pow2(k), Pow2(32 - k), Pow2(31 - k));
  }

  lemma WordsShifted(y: int, z: int, y': int, p: int, q: int, half: int)
    requires Word(y) && z >= 0 && y == y' * p && p > 0 && q > 0 && p * q == BASE && q == 2 * half
    ensures var x0 := y' + Low(z * q);
            Word(x0) && Word(y') && (x0 + (z / p) * BASE) * p == y + z * BASE
    ensures y' % 2 == 1 ==> (y' + Low(z * q)) % 2 == 1
  {
    HighAndLow(z, p, q);
    var l, h := z % p, z / p;
    Room(y, y', p, q, l);
    Assemble(y', l, h, p, q);
    MulEven(l, half);
    hide Low;
    assert Low(z * q) == l * q && z == h * p + l;
  }

  lemma MulEven(a: int, h: int)
    ensures (a * (2 * h)) % 2 == 0
  {
    assert a * (2 * h) == 2 * (a * h);
  }

  /** What a left shift keeps of a word, and what a right shift does. */
  lemma HighAndLow(z: int, p: int, q: int)
    requires p > 0 && q > 0 && p * q == BASE && z >= 0
    ensures Low(z * q) == (z % p) * q && z == (z / p) * p + z % p && 0 <= z % p < p
  {
    DivMod(z, p);
    LowOf(z / p, z % p, p, q);
  }

  lemma LowOf(h: int, l: int, p: int, q: int)
    requires p > 0 && q > 0 && p * q == BASE && 0 <= l < p
    ensures Low((h * p + l) * q) == l * q
  {
    assert (h * p + l) * q == h * (p * q) + l * q;
    B.MulLess(l, p, q);
    MulLe(0, l, q);
    LowWord(h, l * q);
  }

  lemma LowWord(h: int, r: int)
    requires Word(r)
    ensures Low(h * BASE + r) == r
  {
  }

  lemma Room(y: int, y': int, p: int, q: int, l: int)
    requires p > 0 && q > 0 && p * q == BASE && Word(y) && y == y' * p && 0 <= l < p
    ensures Word(y' + l * q) && Word(y')
  {
    if y' >= q { MulLe(q, y', p); }
    if y' < 0 { MulLe(y', -1, p); }
    MulLe(l + 1, p, q);
    MulLe(0, l, q);
    assert (l + 1) * q == l * q + q;
    assert q * p == p * q;
    MulLe(1, p, q);
  }

  lemma Assemble(y': int, l: int, h: int, p: int, q: int)
    requires p * q == BASE
    ensures (y' + l * q + h * BASE) * p == y' * p + (h * p + l) * BASE
  {
    assert (l * q) * p == l * (p * q);
    assert (h * BASE) * p == (h * p) * BASE;
  }

  /** What the two words stand for. */
  lemma Filled(s: seq<int>, wds: nat, k: nat, v: int)
    requires |s| == 2 && Word(s[0]) && Word(s[1]) && s[0] % 2 == 1 && (s[0] + s[1] * BASE) * Pow2(k) == v
    requires wds == if s[1] != 0 then 2 else 1
    ensures AllWords(s[..wds]) && Num(s[..wds]) * Pow2(k) == v && Num(s[..wds]) % 2 == 1 && Num(s[..wds]) > 0
  {
    hide Pow2;
    B.OneWord(s[..1]);
    assert s[..2] == s;
    TwoWordNum(s);
  }

  /** The first word of two without the zero bits at its bottom, filled up from the second. */
  method TrimLow(b: B.Bigint, high: int, low: int) returns (k: nat)
    requires b.x.Length == 2 == Pow2(b.k) && 0 <= high < BASE && Word(low) && low > 0
    modifies b, b.x
    ensures b.Normal() && b.Val() % 2 == 1 && b.Val() > 0 && b.Val() * Pow2(k) == high * BASE + low
  {
    hide Num, Pow, Pow2;
    var y;
    k, y := Lo0Bits(low);
    var z := high;
    b.x[0] := y;
    if k != 0 {
      TwoWords(low, high, y, k);
      b.x[0] := y + Low(z * Pow2(32 - k));
      z := z / Pow2(k);
      Quotients(high, Pow2(k));
    } else {
      SmallPowers();
    }
    b.x[1] := z;
    b.wds := if z != 0 then 2 else 1;
    Filled(b.x[..], b.wds, k, high * BASE + low);
    assert b.x[..][..b.wds] == b.x[..b.wds];
  }

  /** Two words, not both zero, without the zero bits at the bottom. */
  method Trimmed(high: int, low: int) returns (b: B.Bigint, k: nat)
    requires 0 <= high < BASE && Word(low) && (high != 0 || low != 0)
    ensures fresh(b) && fresh(b.x) && b.Normal() && b.Val() % 2 == 1 && b.Val() > 0
    ensures b.Val() * Pow2(k) == high * BASE + low
  {
    SmallPowers();
    b := new B.Bigint(1);
    hide Num, Pow, Pow2;
    if low != 0 {
      k := TrimLow(b, high, low);
    } else {
      var z;
      k, z := Lo0Bits(high);
      b.x[0] := z;
      b.wds := 1;
      B.OneWord(b.x[..1]);
      WholeWord(z, k);
      k := k + 32;
    }
  }

  lemma Quotients(z: int, p: int)
    requires 0 <= z < BASE && p > 0
    ensures 0 <= z / p < BASE
  {
    assert z == z / p * p + z % p;
    if z / p < 0 { MulLe(z / p, -1, p); }
    MulLe(1, p, if z / p < 0 then 0 else z / p);
  }

  lemma TwoWordNum(s: seq<int>)
    requires |s| == 2
    ensures Num(s) == Num(s[..1]) + s[1] * BASE
  {
    assert Pow(1) == BASE;
  }

  lemma WholeWord(z: int, k: nat)
    ensures z * Pow2(k + 32) == z * Pow2(k) * BASE
  {
    B.Pow2Add(k, 32);
    B.Pow2Add(16, 16);
    SmallPowers();
    Regroup(z, Pow2(k), BASE);
  }

  /** The number of bits of a big integer. */
  method TopBits(b: B.Bigint) returns (bits: int)
    requires b.Normal() && b.Val() > 0
    ensures bits > 0 && Pow2(bits - 1) <= b.Val() < Pow2(bits)
  {
    hide Num, Pow, Pow2;
    B.TopNonzero(b.x[..b.wds]);
    var h := B.Hi0Bits(b.x[b.wds - 1]);
    bits := 32 * b.wds - h;
    NumAtLeast(b.x[..b.wds]);
    BitsOfTop(b.Val(), b.x[b.wds - 1], b.wds - 1, h);
  }

  lemma BitsOfTop(v: int, top: int, n: nat, h: nat)
    requires h < 32 && Pow2(31 - h) <= top < 2 * Pow2(31 - h) && top * Pow(n) <= v < (top + 1) * Pow(n)
    ensures Pow2(32 * n + 31 - h) <= v < Pow2(32 * n + 32 - h)
  {
    var lo := 32 * n + 31 - h;
    assert Pow2(lo) == Pow2(31 - h) * Pow(n) by {
      B.Pow2Words(n);
      Sum2(lo, 31 - h, 32 * n);
    }
    assert Pow2(lo + 1) == 2 * Pow2(lo);
    TopInts(v, top, Pow2(31 - h), Pow(n));
  }

  lemma TopInts(v: int, top: int, a: int, p: int)
    requires a <= top < 2 * a && p > 0 && top * p <= v < (top + 1) * p
    ensures a * p <= v < 2 * (a * p)
  {
    MulLe(a, top, p);
    MulLe(top + 1, 2 * a, p);
    B.MulAssoc(2, a, p);
  }

  lemma Pow2Of53()
    ensures Pow2(52) == HIDDEN && Pow2(53) == 2 * HIDDEN
  {
    B.PowersOf2();
    B.Pow2Add(26, 26);
    assert Pow2(53) == 2 * Pow2(52);
  }

  lemma {:induction false} Pow2Mono(a: nat, b: nat)
    requires a <= b
    ensures Pow2(a) <= Pow2(b)
  {
    if a < b { Pow2Mono(a, b - 1); }
  }

  /** A 53-bit number without k zero bits has 53 - k bits. */
  lemma NormalBits(v: int, k: nat, m: int)
    requires v > 0 && v * Pow2(k) == m && HIDDEN <= m < 2 * HIDDEN
    ensures k <= 52 && Pow2(52 - k) <= v < Pow2(53 - k)
  {
    Pow2Of53();
    MulLe(1, v, Pow2(k));
    if k > 52 { Pow2Mono(53, k); }
    B.Pow2Add(52 - k, k);
    assert Pow2(53 - k) == 2 * Pow2(52 - k);
    hide Pow2;
    B.Compare(v, Pow2(52 - k), Pow2(k));
    B.Compare(v, 2 * Pow2(52 - k), Pow2(k));
    B.MulAssoc(2, Pow2(52 - k), Pow2(k));
  }

  /** The mantissa without its zero bits at the bottom, as a big integer of one or two words, its exponent, and the
      number of its bits. */
  method D2B(high: int, low: int) returns (b: B.Bigint, be: int, bits: int)
    requires Finite(high, low)
    ensures fresh(b) && fresh(b.x) && b.Normal() && b.Val() % 2 == 1 && b.Val() > 0
    ensures be >= Exponent(high) && b.Val() * Pow2(be - Exponent(high)) == Mantissa(high, low)
    ensures bits > 0 && Pow2(bits - 1) <= b.Val() < Pow2(bits)
    ensures Biased(high) > 0 ==> be + bits == Biased(high) - 1022
  {
    hide Num, Pow, Pow2;
    var z, de := high % 0x10_0000, high / 0x10_0000;
    if de > 0 {
      z := z + 0x10_0000;
    }
    var k;
    b, k := Trimmed(z, low);
    if de > 0 {
      NormalBits(b.Val(), k, Mantissa(high, low));
      be, bits := de - 1023 - 52 + k, 53 - k;
    } else {
      be := de - 1023 - 52 + 1 + k;
      bits := TopBits(b);
    }
  }

  // ---------------------------------------------------------------- the exponents of two and five

  /** 10^k has been split off m * 2^e exactly: what is left lies between 1 and 10. */
  predicate Leading(m: int, e: int, k: int) { Under(e, k) <= m * Over(e, k) < 10 * Under(e, k) }

  function Max0(n: int): nat { if n > 0 then n else 0 }

  /** The powers of two of the numerator b, of half an ulp, and of the divisor S. */
  datatype Shifts = Shifts(b2: int, m2: int, s2: int)

  /** What they are before dshift: the same number is taken off all three as far as possible. */
  method Powers2(be: int, bits: int, i: int, denorm: bool, k: int, ghost e: int) returns (p: Shifts)
    requires i == bits + be - 1 && be >= e
    requires if denorm then e == -1074 else e == be + bits - 53
    ensures p.b2 > 0 && p.m2 >= 0 && p.s2 >= 0
    ensures p.b2 - p.s2 == be - k && p.m2 - p.s2 == e - 1 - k
  {
    var j := bits - i - 1;
    var b2, s2 := if j >= 0 then 0 else -j, if j >= 0 then j else 0;
    if k >= 0 {
      s2 := s2 + k;
    } else {
      b2 := b2 - k;
    }
    var m2 := b2;
    var half := if denorm then be + (1023 + (53 - 1) - 1 + 1) else 1 + 53 - bits;
    b2 := b2 + half;
    s2 := s2 + half;
    if m2 > 0 && s2 > 0 {
      var c := if m2 < s2 then m2 else s2;
      b2, m2, s2 := b2 - c, m2 - c, s2 - c;
    }
    p := Shifts(b2, m2, s2);
  }

  lemma {:induction false} TenIsTwoFives(n: nat)
    ensures D.Pow10(n) == Pow2(n) * B.Pow5(n)
  {
    if n > 0 {
      TenIsTwoFives(n - 1);
      assert (2 * Pow2(n - 1)) * (5 * B.Pow5(n - 1)) == 10 * (Pow2(n - 1) * B.Pow5(n - 1));
    }
  }

  lemma OverUnder(e: int, k: int)
    ensures Over(e, k) == Prod(Pow2(Max0(e) + Max0(-k)), B.Pow5(Max0(-k)))
    ensures Under(e, k) == Prod(Pow2(Max0(-e) + Max0(k)), B.Pow5(Max0(k)))
  {
    TenIsTwoFives(Max0(k));
    TenIsTwoFives(Max0(-k));
    B.Pow2Add(Max0(e), Max0(-k));
    B.Pow2Add(Max0(-e), Max0(k));
    B.MulAssoc(Pow2(Max0(e)), Pow2(Max0(-k)), B.Pow5(Max0(-k)));
    B.MulAssoc(Pow2(Max0(-e)), Pow2(Max0(k)), B.Pow5(Max0(k)));
  }

  lemma Products(v: int, p: int, q: int, a: int, c: int, s: int, t: int, d: int, n: int, st: int, over: int, under: int)
    requires n == Prod(a, c) && n == Prod(st, d) && st == Prod(s, t) && over == Prod(d, p) && under == Prod(c, q)
    ensures (v * p * a) * under == (q * s) * ((v * t) * over)
  {
    var u := v * p * q;
    assert (v * p * a) * (c * q) == u * (a * c);
    assert (q * s) * ((v * t) * (d * p)) == u * (s * t * d);
  }

  /** With these exponents b / S is the number without its power of ten. */
  lemma Quotient10(v: int, t: nat, e: int, k: int, b2: nat, s2: nat)
    requires b2 - s2 == e + t - k
    ensures (v * B.Pow5(Max0(-k)) * Pow2(b2)) * Under(e, k)
            == (B.Pow5(Max0(k)) * Pow2(s2)) * ((v * Pow2(t)) * Over(e, k))
  {
    hide Pow2, B.Pow5, Over, Under, Prod;
    var c, d := Max0(-e) + Max0(k), Max0(e) + Max0(-k);
    var n, st := b2 + c, s2 + t;
    assert n == st + d;
    OverUnder(e, k);
    hide Max0;
    Sum2(n, b2, c);
    Sum2(n, st, d);
    Sum2(st, s2, t);
    Products(v, B.Pow5(Max0(-k)), B.Pow5(Max0(k)), Pow2(b2), Pow2(c), Pow2(s2), Pow2(t), Pow2(d), Pow2(n), Pow2(st),
             Over(e, k), Under(e, k));
  }

  /** And mhi / S is half a unit in the last place. */
  lemma HalfUnit10(e: int, k: int, m2: nat, s2: nat)
    requires m2 - s2 == e - 1 - k
    ensures 2 * ((B.Pow5(Max0(-k)) * Pow2(m2)) * Under(e, k)) == (B.Pow5(Max0(k)) * Pow2(s2)) * Over(e, k)
  {
    Quotient10(1, 0, e, k, m2 + 1, s2);
    assert Pow2(m2 + 1) == 2 * Pow2(m2) && Pow2(0) == 1;
    hide Pow2, B.Pow5, Over, Under;
    TwiceOf(B.Pow5(Max0(-k)), Pow2(m2), Under(e, k));
  }

  lemma TwiceOf(a: int, b: int, c: int)
    ensures (a * (2 * b)) * c == 2 * ((a * b) * c)
  {
  }

  // ---------------------------------------------------------------- the number and half a unit

  /** b / S is m * 2^e without 10^k, and h / S half of 2^e without it. */
  predicate Ratios(b: int, S: int, h: int, m: int, e: int, k: int) {
    b * Under(e, k) == S * (m * Over(e, k)) && 2 * (h * Under(e, k)) == S * Over(e, k)
  }

  lemma Scaled(v: int, t: nat, m: int, e: int, k: int, b2: nat, m2: nat, s2: nat)
    requires m == v * Pow2(t) && b2 - s2 == e + t - k && m2 - s2 == e - 1 - k
    ensures Ratios(v * B.Pow5(Max0(-k)) * Pow2(b2), B.Pow5(Max0(k)) * Pow2(s2), B.Pow5(Max0(-k)) * Pow2(m2), m, e, k)
  {
    Quotient10(v, t, e, k, b2, s2);
    HalfUnit10(e, k, m2, s2);
    hide Pow2, B.Pow5, Over, Under, Max0;
  }

  lemma OneTenLess(e: int, k: int)
    ensures k > 0 ==> Under(e, k) == 10 * Under(e, k - 1) && Over(e, k) == Over(e, k - 1)
    ensures k <= 0 ==> Under(e, k) == Under(e, k - 1) && Over(e, k - 1) == 10 * Over(e, k)
  {
    if k > 0 {
      B.MulAssoc(if e < 0 then Pow2(-e) else 1, 10, D.Pow10(k - 1));
    } else {
      B.MulAssoc(if e >= 0 then Pow2(e) else 1, 10, D.Pow10(-k));
    }
  }

  /** Ten times as great with a power of ten less. */
  lemma TenMore(b: int, S: int, h: int, m: int, e: int, k: int)
    requires Ratios(b, S, h, m, e, k)
    ensures Ratios(b * 10, S, h * 10, m, e, k - 1)
  {
    OneTenLess(e, k);
    hide Over, Under;
    var u, o := Under(e, k - 1), Over(e, k - 1);
    if k > 0 {
      assert b * (10 * u) == (b * 10) * u && h * (10 * u) == (h * 10) * u;
    } else {
      assert (b * 10) * u == 10 * (b * u) && (h * 10) * u == 10 * (h * u);
      assert S * (m * (10 * Over(e, k))) == 10 * (S * (m * Over(e, k)));
      assert S * (10 * Over(e, k)) == 10 * (S * Over(e, k));
    }
  }

  /** The first digit stands before the point. */
  lemma FirstDigit(b: int, S: int, h: int, m: int, e: int, k: int)
    requires Ratios(b, S, h, m, e, k) && Leading(m, e, k) && S > 0
    ensures S <= b < 10 * S
  {
    hide Over, Under;
    var u, o := Under(e, k), m * Over(e, k);
    assert u * S <= o * S < (10 * u) * S by {
      MulLe(u, o, S);
      B.MulLess(o, 10 * u, S);
    }
    assert S * o == o * S && u * S == S * u && (10 * u) * S == (10 * S) * u;
    if b < S { B.MulLess(b, S, u); }
    if b >= 10 * S { MulLe(10 * S, b, u); }
  }

  // ---------------------------------------------------------------- the big integers

  lemma OnesAndFives(v: int)
    ensures B.Pow5(0) == 1 && B.Pow5(0) * v == v
  {
  }

  method PowerOfFive(p: B.Powers, k: nat) returns (r: B.Bigint)
    requires p.Valid()
    modifies p
    ensures p.Valid() && p.Avoids(r) && fresh(r) && fresh(r.x) && L.Positive(r) && r.Val() == B.Pow5(k)
    ensures |p.cache| >= |old(p.cache)| && p.cache[..|old(p.cache)|] == old(p.cache)
    ensures forall j :: |old(p.cache)| <= j < |p.cache| ==> fresh(p.cache[j]) && fresh(p.cache[j].x)
  {
    hide Num, Pow, Pow2;
    OnesAndFives(1);
    hide B.Pow5;
    r := B.FromInt(1);
    if k > 0 {
      r := B.Pow5Mult(p, r, k);
      OnesAndFives(B.Pow5(k));
    }
  }

  method TimesFives(b0: B.Bigint, mhi: B.Bigint, b5: nat) returns (b: B.Bigint)
    requires L.Positive(b0) && L.Positive(mhi) && mhi.Val() == B.Pow5(b5)
    ensures b == b0 || (fresh(b) && fresh(b.x))
    ensures L.Positive(b) && b.Val() == B.Pow5(b5) * b0.Val()
  {
    hide Num, Pow, Pow2;
    OnesAndFives(b0.Val());
    hide B.Pow5;
    b := b0;
    if b5 > 0 {
      B.ProductPositive(B.Pow5(b5), b0.Val());
      b := B.Mult(mhi, b0);
    }
  }

  /** The factors that are powers of five: those of half an ulp, of the numerator, and of the divisor. */
  method Fives(p: B.Powers, b0: B.Bigint, b5: nat, s5: nat) returns (b: B.Bigint, mhi: B.Bigint, S: B.Bigint)
    requires p.Valid() && p.Avoids(b0) && L.Positive(b0)
    modifies p
    ensures p.Valid() && p.Avoids(b) && p.Avoids(mhi) && p.Avoids(S)
    ensures (b == b0 || (fresh(b) && fresh(b.x))) && fresh(mhi) && fresh(mhi.x) && fresh(S) && fresh(S.x)
    ensures L.Apart(b, S) && L.Apart(b, mhi) && L.Apart(mhi, S)
    ensures L.Positive(b) && b.Val() == B.Pow5(b5) * old(b0.Val())
    ensures L.Positive(mhi) && mhi.Val() == B.Pow5(b5) && L.Positive(S) && S.Val() == B.Pow5(s5)
  {
    mhi := PowerOfFive(p, b5);
    b := TimesFives(b0, mhi, b5);
    hide Num, Pow, Pow2, B.Pow5, B.Bigint.Normal, B.Bigint.Val;
    S := PowerOfFive(p, s5);
  }

  /** lshift when there is something to shift. */
  method ShiftLeft(b0: B.Bigint, k: int) returns (b: B.Bigint)
    requires L.Positive(b0) && k >= 0
    ensures b == b0 || (fresh(b) && fresh(b.x))
    ensures L.Positive(b) && b.Val() == b0.Val() * Pow2(k)
  {
    SmallPowers();
    hide Num, Pow, Pow2;
    b := b0;
    if k > 0 {
      b := B.LShift(b0, k);
      B.ProductPositive(b0.Val(), Pow2(k));
    }
  }

  /** The shift that gives the divisor four leading zero bits, and the numerator shifted as far. */
  method Aligned(b0: B.Bigint, S0: B.Bigint, b2: int, s2: int) returns (b: B.Bigint, S: B.Bigint, i: nat)
    requires L.Positive(b0) && L.Positive(S0) && L.Apart(b0, S0) && b2 >= 0 && s2 >= 0
    ensures (b == b0 || (fresh(b) && fresh(b.x))) && (S == S0 || (fresh(S) && fresh(S.x))) && L.Apart(b, S)
    ensures L.Positive(b) && b.Val() == b0.Val() * Pow2(b2 + i)
    ensures L.Divisor(S) && S.Val() == S0.Val() * Pow2(s2 + i)
  {
    hide Num, Pow, Pow2;
    i := B.DShift(S0, s2);
    b := ShiftLeft(b0, b2 + i);
    S := ShiftLeft(S0, s2 + i);
    B.TopNonzero(S.x[..S.wds]);
    B.FourZeroBitsTop(S.x[..S.wds]);
  }

  /** 1 for a power of two below which the numbers are denser, otherwise 0. */
  function Special(high: int, low: int): nat {
    if low == 0 && high % 0x10_0000 == 0 && high / 0x20_0000 != 0 then 1 else 0
  }

  /** The mantissa and the powers of two for an estimate k of the logarithm. */
  method Opened(high: int, low: int, k: int) returns (b: B.Bigint, q: Shifts, ghost t: nat)
    requires Finite(high, low)
    ensures fresh(b) && fresh(b.x) && L.Positive(b) && Mantissa(high, low) == b.Val() * Pow2(t)
    ensures q.b2 > 0 && q.m2 >= 0 && q.s2 >= 0
    ensures q.b2 - q.s2 == Exponent(high) + t - k && q.m2 - q.s2 == Exponent(high) - 1 - k
  {
    hide Num, Pow, Pow2, Mantissa;
    var be, bits;
    b, be, bits := D2B(high, low);
    t := be - Exponent(high);
    var denorm := high / 0x10_0000 == 0;
    var i := if denorm then bits + be - 1 else high / 0x10_0000 - 1023;
    q := Powers2(be, bits, i, denorm, k, Exponent(high));
  }

  /** The mantissa with its factors, powers of five, before anything is shifted. */
  method Factored(p: B.Powers, high: int, low: int, k: int)
    returns (b: B.Bigint, S: B.Bigint, mhi: B.Bigint, q: Shifts, ghost v: int, ghost t: nat)
    requires p.Valid() && Finite(high, low)
    modifies p
    ensures p.Valid() && p.Avoids(b) && p.Avoids(mhi)
    ensures fresh(b) && fresh(b.x) && fresh(S) && fresh(S.x) && fresh(mhi) && fresh(mhi.x)
    ensures L.Apart(b, S) && L.Apart(b, mhi) && L.Apart(mhi, S) && L.Positive(b) && L.Positive(mhi) && L.Positive(S)
    ensures b.Val() == B.Pow5(Max0(-k)) * v && S.Val() == B.Pow5(Max0(k)) && mhi.Val() == B.Pow5(Max0(-k))
    ensures Mantissa(high, low) == v * Pow2(t) && q.b2 > 0 && q.m2 >= 0 && q.s2 >= 0
    ensures q.b2 - q.s2 == Exponent(high) + t - k && q.m2 - q.s2 == Exponent(high) - 1 - k
  {
    hide Num, Pow, Pow2, B.Pow5, Mantissa, Exponent, Max0;
    b, q, t := Opened(high, low, k);
    v := b.Val();
    b, mhi, S := Fives(p, b, Max0(-k), Max0(k));
  }

  /** The number and the divisor for an estimate k of its logarithm, and what half an ulp is still to be shifted by. */
  method Numerator(p: B.Powers, high: int, low: int, k: int)
    returns (b: B.Bigint, S: B.Bigint, mhi: B.Bigint, m2: int)
    requires p.Valid() && Finite(high, low)
    modifies p
    ensures p.Valid() && p.Avoids(b) && p.Avoids(mhi)
    ensures fresh(b) && fresh(b.x) && fresh(S) && fresh(S.x) && fresh(mhi) && fresh(mhi.x)
    ensures L.Apart(b, S) && L.Apart(b, mhi) && L.Apart(mhi, S) && L.Positive(b) && L.Positive(mhi) && L.Divisor(S)
    ensures m2 >= 0
            && Ratios(b.Val(), S.Val(), mhi.Val() * Pow2(m2) * (Special(high, low) + 1), Mantissa(high, low),
                      Exponent(high), k)
  {
    hide Num, Pow, Pow2, B.Pow5, Over, Under, Mantissa, Exponent, Ratios, Max0;
    var q, i;
    ghost var v, t;
    b, S, mhi, q, v, t := Factored(p, high, low, k);
    var two := Special(high, low);
    ghost var f, g := mhi.Val(), S.Val();
    b, S, i := Aligned(b, S, q.b2 + two, q.s2 + two);
    m2 := q.m2 + i;
    hide B.Bigint.Normal, B.Bigint.Val, B.Bigint.Valid;
    Aligns(v, t, Mantissa(high, low), Exponent(high), k, q, i, two, f, g, q.b2 + two + i, q.s2 + two + i, m2);
  }

  /** Shifting all three further changes nothing; for a power of two all but half an ulp is doubled first. */
  lemma Aligns(v: int, t: nat, m: int, e: int, k: int, q: Shifts, i: nat, two: nat, f: int, g: int, b2: int, s2: int,
               m2: int)
    requires m == v * Pow2(t) && q.b2 > 0 && q.m2 >= 0 && q.s2 >= 0 && two <= 1
    requires q.b2 - q.s2 == e + t - k && q.m2 - q.s2 == e - 1 - k
    requires f == B.Pow5(Max0(-k)) && g == B.Pow5(Max0(k))
    requires b2 == q.b2 + two + i && s2 == q.s2 + two + i && m2 == q.m2 + i
    ensures Ratios(f * v * Pow2(b2), g * Pow2(s2), f * Pow2(m2) * (two + 1), m, e, k)
  {
    hide Pow2, B.Pow5, Over, Under, Ratios, Max0;
    Scaled(v, t, m, e, k, b2, m2 + two, s2);
    LastFactor(f, m2, two);
    assert f * v == v * f;
  }

  lemma LastFactor(f: int, n: nat, two: nat)
    requires two <= 1
    ensures f * Pow2(n) * (two + 1) == f * Pow2(n + two)
  {
    assert Pow2(n + 1) == 2 * Pow2(n);
    hide Pow2;
    B.MulAssoc(f, Pow2(n), 2);
  }

  // ---------------------------------------------------------------- the estimate checked, and half an ulp

  /** Whether the logarithm has been estimated one too great. */
  predicate Botched(b: int, S: int, check: bool) { check && b < S }

  /** If the number turns out to be below one, everything but the divisor is multiplied by ten. */
  method Checked(b0: B.Bigint, S: B.Bigint, mhi0: B.Bigint, k0: int, check: bool)
    returns (b: B.Bigint, mhi: B.Bigint, k: int)
    requires L.Positive(b0) && L.Divisor(S) && L.Positive(mhi0)
    requires L.Apart(b0, S) && L.Apart(b0, mhi0) && L.Apart(mhi0, S)
    modifies b0, b0.x, mhi0, mhi0.x
    ensures (b == b0 || (fresh(b) && fresh(b.x))) && (mhi == mhi0 || (fresh(mhi) && fresh(mhi.x)))
    ensures L.Positive(b) && L.Divisor(S) && L.Positive(mhi) && L.Apart(b, mhi)
    ensures S.Val() == old(S.Val())
    ensures if Botched(old(b0.Val()), S.Val(), check)
            then k == k0 - 1 && b.Val() == old(b0.Val()) * 10 && mhi.Val() == old(mhi0.Val()) * 10
            else k == k0 && b.Val() == old(b0.Val()) && mhi.Val() == old(mhi0.Val())
  {
    hide Num, Pow, Pow2;
    b, mhi, k := b0, mhi0, k0;
    if check {
      var less := B.Cmp(b, S);
      if less < 0 {
        k := k - 1;
        b := B.MultAdd(b, 10, 0);
        mhi := B.MultAdd(mhi, 10, 0);
      }
    }
  }

  /** Balloc and Bcopy */
  method Copied(a: B.Bigint) returns (c: B.Bigint)
    requires L.Positive(a)
    ensures fresh(c) && fresh(c.x) && L.Positive(c) && c.Val() == a.Val()
  {
    hide Num, Pow2;
    c := new B.Bigint(a.k);
    forall i | 0 <= i < a.wds { c.x[i] := a.x[i]; }
    c.sign, c.wds := a.sign, a.wds;
    assert c.x[..c.wds] == a.x[..a.wds] && c.x[c.wds - 1] == a.x[a.wds - 1];
    assert c.Normal() && c.Val() == a.Val();
  }

  /** Half the distance to the number below, and to the one above, which is the same object unless it is twice as
      great. */
  method Halves(mhi0: B.Bigint, m2: int, two: int) returns (mlo: B.Bigint, mhi: B.Bigint)
    requires L.Positive(mhi0) && m2 >= 0 && 0 <= two <= 1
    ensures mlo == mhi0 || (fresh(mlo) && fresh(mlo.x))
    ensures mhi == mhi0 || (fresh(mhi) && fresh(mhi.x))
    ensures L.Positive(mlo) && L.Positive(mhi) && (mlo != mhi ==> mlo.x != mhi.x)
    ensures mlo.Val() == mhi0.Val() * Pow2(m2) && mhi.Val() == mlo.Val() * (two + 1)
  {
    SmallPowers();
    hide Num, Pow, Pow2;
    mhi := ShiftLeft(mhi0, m2);
    mlo := mhi;
    if two == 1 {
      mhi := Copied(mlo);
      mhi := ShiftLeft(mhi, 1);
    }
  }

  // ---------------------------------------------------------------- there is one power of ten

  lemma TenDown(m: int, e: int, k: int)
    ensures m * Over(e, k) >= Under(e, k) ==> m * Over(e, k - 1) >= 10 * Under(e, k - 1)
    ensures m * Over(e, k) < Under(e, k) ==> m * Over(e, k - 1) < 10 * Under(e, k - 1)
    ensures m > 0 ==> Under(e, k - 1) - m * Over(e, k - 1) < Under(e, k) - m * Over(e, k)
  {
    OneTenLess(e, k);
    hide Over, Under;
    assert k <= 0 ==> m * Over(e, k - 1) == 10 * (m * Over(e, k));
    if m > 0 { B.ProductPositive(m, Over(e, k)); }
  }

  lemma {:induction false} FarBelow(m: int, e: int, k: int, j: int)
    requires m * Over(e, k) >= Under(e, k) && j < k && m > 0
    ensures m * Over(e, j) >= 10 * Under(e, j)
    decreases k - j
  {
    TenDown(m, e, k);
    hide Over, Under;
    if j < k - 1 { FarBelow(m, e, k - 1, j); }
  }

  lemma {:induction false} Search(m: int, e: int, k: int) returns (k': int)
    requires m > 0 && m * Over(e, k) < 10 * Under(e, k)
    ensures Leading(m, e, k')
    decreases Max0(Under(e, k) - m * Over(e, k))
  {
    hide Over, Under;
    k' := k;
    if m * Over(e, k) < Under(e, k) {
      TenDown(m, e, k);
      k' := Search(m, e, k - 1);
    }
  }

  lemma {:induction false} TenToTheN(n: nat)
    ensures D.Pow10(n) > n
  {
    if n > 0 { TenToTheN(n - 1); }
  }

  /** For every positive number there is one power of ten that leaves a digit before the point. */
  lemma OneLogarithm(m: int, e: int) returns (k: int)
    requires m > 0
    ensures forall j :: Leading(m, e, j) <==> j == k
  {
    var n := m * if e >= 0 then Pow2(e) else 1;
    TenToTheN(n);
    assert Over(e, n) == if e >= 0 then Pow2(e) else 1;
    MulLe(1, if e < 0 then Pow2(-e) else 1, D.Pow10(n));
    assert m * Over(e, n) < 10 * Under(e, n);
    k := Search(m, e, n);
    hide Over, Under;
    forall j | Leading(m, e, j) ensures j == k {
      if j < k { FarBelow(m, e, k, j); }
      if j > k { FarBelow(m, e, j, k); }
    }
  }

  // ---------------------------------------------------------------- all of it

  /** k0 is the logarithm of the number rounded down, or one more when it is still to be checked. */
  predicate Estimate(high: int, low: int, k0: int, check: bool) {
    var m, e := Mantissa(high, low), Exponent(high);
    Leading(m, e, k0) || (check && Leading(m, e, k0 - 1))
  }

  /** What the check finds, and what it makes of the number. */
  lemma CheckMeans(b: int, S: int, h: int, m: int, e: int, k0: int, check: bool)
    requires Ratios(b, S, h, m, e, k0) && S > 0 && (Leading(m, e, k0) || (check && Leading(m, e, k0 - 1)))
    ensures if Botched(b, S, check) then Ratios(b * 10, S, h * 10, m, e, k0 - 1) && Leading(m, e, k0 - 1)
            else Leading(m, e, k0)
  {
    TenMore(b, S, h, m, e, k0);
    hide Ratios, Leading;
    if Leading(m, e, k0) { FirstDigit(b, S, h, m, e, k0); }
    if Leading(m, e, k0 - 1) { FirstDigit(b * 10, S, h * 10, m, e, k0 - 1); }
  }

  lemma MantissaFacts(high: int, low: int)
    requires Finite(high, low)
    ensures Mantissa(high, low) % 2 == low % 2
    ensures Special(high, low) == 1 <==> Mantissa(high, low) == HIDDEN && Exponent(high) > EMIN
  {
  }

  /** The four numbers are those of the digit loop. */
  lemma ScaledDenotes(high: int, low: int, x: D.Number, k: int)
    requires Finite(high, low) && x.S > 0 && x.mlo > 0 && x.mhi == x.mlo * (Special(high, low) + 1)
    requires x.even == (low % 2 == 0)
    requires Ratios(x.b, x.S, x.mhi, Mantissa(high, low), Exponent(high), k)
    requires Leading(Mantissa(high, low), Exponent(high), k)
    ensures x.Valid() && Denotes(x, Mantissa(high, low), Exponent(high), k)
  {
    WordsOfDoubles(high, low, 0, 0);
    MantissaFacts(high, low);
    FirstDigit(x.b, x.S, x.mhi, Mantissa(high, low), Exponent(high), k);
    hide Over, Under, Leading, Mantissa, Exponent, IsDouble, Special;
  }

  lemma Tenfold(a: int, p: int, t: int)
    ensures (a * 10) * p * t == (a * p * t) * 10
  {
  }

  /** The estimate checked, and the distances to the neighbours. */
  method Limits(b0: B.Bigint, S: B.Bigint, mhi0: B.Bigint, m2: int, two: int, k0: int, check: bool, ghost m: int,
                ghost e: int)
    returns (b: B.Bigint, mlo: B.Bigint, mhi: B.Bigint, k: int)
    requires L.Positive(b0) && L.Divisor(S) && L.Positive(mhi0) && m2 >= 0 && 0 <= two <= 1
    requires L.Apart(b0, S) && L.Apart(b0, mhi0) && L.Apart(mhi0, S)
    requires Leading(m, e, k0) || (check && Leading(m, e, k0 - 1))
    requires Ratios(b0.Val(), S.Val(), mhi0.Val() * Pow2(m2) * (two + 1), m, e, k0)
    modifies b0, b0.x, mhi0, mhi0.x
    ensures (b == b0 || (fresh(b) && fresh(b.x))) && (mlo == mhi0 || (fresh(mlo) && fresh(mlo.x)))
    ensures mhi == mhi0 || (fresh(mhi) && fresh(mhi.x))
    ensures L.Round(b, S, mlo, mhi) && mhi.Val() == mlo.Val() * (two + 1)
    ensures Ratios(b.Val(), S.Val(), mhi.Val(), m, e, k) && Leading(m, e, k)
  {
    hide Num, Pow, Pow2, Ratios, Leading, Botched;
    ghost var h := mhi0.Val() * Pow2(m2) * (two + 1);
    CheckMeans(b0.Val(), S.Val(), h, m, e, k0, check);
    Tenfold(mhi0.Val(), Pow2(m2), two + 1);
    b, mhi, k := Checked(b0, S, mhi0, k0, check);
    mlo, mhi := Halves(mhi, m2, two);
  }

  /** From the words of a number to what the digit loop works on. */
  method Scale(p: B.Powers, high: int, low: int, k0: int, check: bool)
    returns (b: B.Bigint, S: B.Bigint, mlo: B.Bigint, mhi: B.Bigint, k: int, ghost x: D.Number)
    requires p.Valid() && Finite(high, low) && Estimate(high, low, k0, check)
    modifies p
    ensures p.Valid() && p.Avoids(b) && p.Avoids(mlo) && p.Avoids(mhi)
    ensures fresh(b) && fresh(b.x) && fresh(S) && fresh(S.x) && fresh(mlo) && fresh(mlo.x) && fresh(mhi) && fresh(mhi.x)
    ensures L.Round(b, S, mlo, mhi) && Leading(Mantissa(high, low), Exponent(high), k)
    ensures x.Valid() && x == L.NumberOf(b, S, mlo, mhi, low % 2 == 0)
    ensures Denotes(x, Mantissa(high, low), Exponent(high), k)
  {
    hide Num, Pow, Pow2, Mantissa, Exponent, Ratios, Leading, Denotes;
    var m2, two := 0, Special(high, low);
    b, S, mhi, m2 := Numerator(p, high, low, k0);
    b, mlo, mhi, k := Limits(b, S, mhi, m2, two, k0, check, Mantissa(high, low), Exponent(high));
    x := L.NumberOf(b, S, mlo, mhi, low % 2 == 0);
    ScaledDenotes(high, low, x, k);
  }

  /** dtoa in mode 0 from the words of a number to its digits and the place of the point; the power of ten k and the
      number x of the digit loop are for the contract.  Whatever number of the format it is, the digits read back as it,
      no shorter decimal does, and no decimal of their length that reads back is nearer. */
  method Dtoa(p: B.Powers, high: int, low: int, k0: int, check: bool)
    returns (ds: seq<int>, decpt: int, ghost k: int, ghost x: D.Number)
    requires p.Valid() && Finite(high, low) && Estimate(high, low, k0, check)
    modifies p
    ensures p.Valid() && Leading(Mantissa(high, low), Exponent(high), k)
    ensures Denotes(x, Mantissa(high, low), Exponent(high), k)
    ensures ds != [] && D.AreDigits(ds) && ds[0] != 0 && (decpt == k + 1 || (decpt == k + 2 && ds == [1]))
    ensures var N := D.Printed(ds, decpt == k + 2);
            D.ReadsBack(x, |ds| - 1, N) && D.Nearest(x, |ds| - 1, N) && D.TiesToEven(x, |ds| - 1, N)
    ensures forall j: nat, N :: j < |ds| - 1 ==> !D.ReadsBack(x, j, N)
  {
    hide Finite, Leading, Mantissa, Exponent, Denotes, D.ReadsBack, D.Nearest, D.TiesToEven, D.Printed, D.Good;
    hide L.Passes, L.Round, B.Bigint.Valid, B.Bigint.Normal, B.Bigint.Val, Num, Pow, Pow2;
    var b, S, mlo, mhi, k', carry;
    b, S, mlo, mhi, k', x := Scale(p, high, low, k0, check);
    k := k';
    ds, carry := L.Shortest(b, S, mlo, mhi, low % 2 == 0);
    decpt := k' + if carry then 2 else 1;
    LoopPrints(x, Mantissa(high, low), Exponent(high), k, ds, carry, S.wds == 1);
  }

  lemma LoopPrints(x: D.Number, m: int, e: int, k: int, ds: seq<int>, carry: bool, oneWord: bool)
    requires x.Valid() && Denotes(x, m, e, k) && D.Good(x, ds, carry, L.Passes(x, oneWord))
    ensures ds != [] && D.AreDigits(ds) && ds[0] != 0 && (carry ==> ds == [1])
    ensures D.ReadsBack(x, |ds| - 1, D.Printed(ds, carry)) && D.Nearest(x, |ds| - 1, D.Printed(ds, carry))
    ensures D.TiesToEven(x, |ds| - 1, D.Printed(ds, carry))
    ensures forall j: nat, N :: j < |ds| - 1 ==> !D.ReadsBack(x, j, N)
  {
    hide Denotes, D.ReadsBack, D.Nearest, D.Printed, D.Inside, D.TiesToEven;
    DoublesPrintNearest(x, m, e, k, ds, carry, L.Passes(x, oneWord));
  }
}
