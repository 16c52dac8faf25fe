/**
 The big integers of David Gay's dtoa.c: words in an array that is reused in place as long as it is long enough.
 Every method is proved to compute the exact integer result, to keep 64-bit intermediate values in range, and to
 stay inside the array.
 */
module Bignum {
  import opened Words
  import opened Exponents

  class Bigint {
    const k: nat
    const x: array<int>
    var sign: bool
    var wds: nat

    /** maxwds is x.Length. */
    ghost predicate Valid()
      reads this, x
    {
      x.Length == Pow2(k) && wds <= x.Length && AllWords(x[..wds])
    }

    /** No superfluous zero word at the top. */
    ghost predicate Normal()
      reads this, x
    {
      Valid() && wds > 0 && (wds > 1 ==> x[wds - 1] != 0)
    }

    ghost function Val(): int
      reads this, x
      requires Valid()
    {
      Num(x[..wds])
    }

    /** Balloc */
    constructor (k: nat)
      ensures Valid() && this.k == k && wds == 0 && !sign && fresh(x)
    {
      this.k := k;
      x := new int[Pow2(k)];
      sign, wds := false, 0;
    }
  }

  /** The carry loop of multadd over the first n words. */
  method MultAddWords(x: array<int>, n: nat, m: int, a: int) returns (carry: int)
    requires n <= x.Length && AllWords(x[..n]) && 0 < m < 0x8000_0000 && 0 <= a < BASE
    modifies x
    ensures AllWords(x[..n]) && x[n..] == old(x[n..]) && 0 <= carry < BASE
    ensures Num(x[..n]) + carry * Pow(n) == Num(old(x[..n])) * m + a
    ensures n > 0 && carry == 0 && old(x[n - 1]) > 0 ==> x[n - 1] > 0
  {
    hide Pow, Num, Low, High;
    ghost var s := x[..];
    var i := 0;
    carry := a;
    Start(s, m, a);
    while i < n
      invariant 0 <= i <= n && 0 <= carry < BASE
      invariant AllWords(x[..i]) && x[i..] == s[i..]
      invariant Num(x[..i]) + carry * Pow(i) == Num(s[..i]) * m + a
      invariant i == n > 0 && carry == 0 && s[n - 1] > 0 ==> x[n - 1] > 0
    {
      assert x[i] == x[i..][0] == s[i];
      ghost var done := x[..];
      var y := x[i] * m + carry;
      MultAddStep(s[i], m, carry, y);
      assert y < WIDE;
      Split(y);
      NumSnoc(s, i);
      NumSet(done, i, Low(y));
      MultAddSum(Num(done[..i]), Num(s[..i]), s[i], m, a, carry, i, Low(y), High(y));
      carry := High(y);
      x[i] := Low(y);
      assert x[..] == done[i := Low(y)];
      i := i + 1;
    }
    assert s[..n] == old(x[..n]);
  }

  /** Multiply by m and add a. */
  method MultAdd(b: Bigint, m: int, a: int) returns (r: Bigint)
    requires b.Normal() && 0 < m < 0x8000_0000 && 0 <= a < BASE
    modifies b, b.x
    ensures r == b || (fresh(r) && fresh(r.x))
    ensures r.Normal() && r.Val() == old(b.Val()) * m + a && r.sign == old(b.sign)
  {
    hide Pow, Num, Pow2;
    var carry := MultAddWords(b.x, b.wds, m, a);
    r := b;
    if carry > 0 {
      r := Append(b, carry);
    }
  }

  /** Store one word more, in an array twice as long when this one is full. */
  method Append(b: Bigint, w: int) returns (r: Bigint)
    requires b.Valid() && b.wds > 0 && Word(w) && w > 0
    modifies b, b.x
    ensures r == b || (fresh(r) && fresh(r.x))
    ensures r.Normal() && r.Val() == old(b.Val()) + w * Pow(old(b.wds)) && r.sign == old(b.sign)
  {
    hide Pow, Num;
    ghost var s := b.x[..b.wds];
    var wds := b.wds;
    r := b;
    if wds >= b.x.Length {
      r := new Bigint(b.k + 1);
      forall j | 0 <= j < wds { r.x[j] := b.x[j]; }
      r.sign := b.sign;
      assert r.x.Length == 2 * b.x.Length;
    }
    hide Pow2;
    assert r.x[..wds] == s;
    r.x[wds] := w;
    r.wds := wds + 1;
    assert r.x[..wds + 1] == s + [w];
    NumSnoc(s + [w], wds);
    assert (s + [w])[..wds + 1] == s + [w] && (s + [w])[..wds] == s;
  }

  /** The 64-bit product of a word and m, plus a carry, neither overflows nor carries on more than a word. */
  lemma MultAddStep(w: int, m: int, carry: int, y: int)
    requires Word(w) && 0 < m < 0x8000_0000 && 0 <= carry < BASE && y == w * m + carry
    ensures 0 <= y < WIDE && (High(y) == 0 && w > 0 ==> Low(y) > 0)
  {
    MulLe(w, BASE - 1, m);
    MulLe(0, w, m);
    if w > 0 { MulLe(1, w, m); }
    Split(y);
  }

  /** One word more of the product. */
  lemma MultAddSum(done: int, s: int, w: int, m: int, a: int, carry: int, i: nat, low: int, high: int)
    requires done + carry * Pow(i) == s * m + a && w * m + carry == low + high * BASE
    ensures (done + low * Pow(i)) + high * Pow(i + 1) == (s + w * Pow(i)) * m + a
  {
    var p := Pow(i);
    CarryStep(done, carry, w * m + carry, low, high, i);
    assert (w * m + carry) * p == (w * m) * p + carry * p;
    assert (s + w * p) * m == s * m + (w * m) * p;
  }

  lemma Start(s: seq<int>, m: int, a: int)
    ensures Num(s[..0]) == 0 && Num(s[..0]) + a * Pow(0) == Num(s[..0]) * m + a
  {
  }

  // ---------------------------------------------------------------- mult

  lemma RowStep(w: int, y: int, c: int, carry: int)
    requires Word(w) && Word(y) && Word(c) && Word(carry)
    ensures 0 <= w * y + c + carry < WIDE
  {
    MulLe(w, BASE - 1, y);
    MulLe(0, w, y);
    MulLe(y, BASE - 1, BASE - 1);
  }

  lemma RowSum(num: int, start: int, s: int, w: int, y: int, c: int, carry: int, i: nat, j: nat, low: int, high: int)
    requires num + carry * Pow(j + i) == start + y * s * Pow(j) && w * y + c + carry == low + high * BASE
    ensures (num + (low - c) * Pow(j + i)) + high * Pow(j + i + 1) == start + y * (s + w * Pow(i)) * Pow(j)
  {
    PowAdd(j, i);
    RowLow(w * y, c, carry, low, high, Pow(j + i));
    RowHigh(s, w, y, Pow(i), Pow(j));
  }

  lemma RowLow(z: int, c: int, carry: int, low: int, high: int, p: int)
    requires z + c + carry == low + high * BASE
    ensures (low - c) * p + high * (BASE * p) == z * p + carry * p
  {
    assert low - c == z + carry - high * BASE;
    assert (z + carry - high * BASE) * p == z * p + carry * p - high * BASE * p;
    assert high * BASE * p == high * (BASE * p);
  }

  lemma RowHigh(s: int, w: int, y: int, a: int, b: int)
    ensures y * (s + w * a) * b == y * s * b + (w * y) * (b * a)
  {
    assert y * (s + w * a) == y * s + y * (w * a);
    assert (y * s + y * (w * a)) * b == y * s * b + y * (w * a) * b;
    assert y * (w * a) * b == (w * y) * (b * a);
  }

  /** The inner loop of mult: add y times the n words of x to the first len words of c, from word j on. */
  method AddRow(x: array<int>, n: nat, y: int, c: array<int>, j: nat, len: nat)
    requires x != c && 0 < n <= x.Length && AllWords(x[..n]) && Word(y)
    requires j + n < len <= c.Length && AllWords(c[..len]) && c[j + n] == 0
    modifies c
    ensures AllWords(c[..len]) && c[j + n + 1..] == old(c[j + n + 1..])
    ensures Num(c[..len]) == Num(old(c[..len])) + y * Num(x[..n]) * Pow(j)
  {
    hide Pow, Num, Low, High;
    var i, carry := 0, 0;
    ghost var start := Num(c[..len]);
    NothingYet(start, y, x[..], j);
    while i < n
      invariant 0 <= i <= n && Word(carry) && AllWords(c[..len]) && c[j + i..] == old(c[j + i..])
      invariant Num(c[..len]) + carry * Pow(j + i) == start + y * Num(x[..i]) * Pow(j)
    {
      ghost var now := c[..len];
      ghost var rest := c[j + i..];
      RowStep(x[i], y, c[j + i], carry);
      var z := x[i] * y + c[j + i] + carry;
      assert z < WIDE;
      Split(z);
      NumUpdate(now, j + i, Low(z));
      NumSnoc(x[..], i);
      RowSum(Num(now), start, Num(x[..i]), x[i], y, now[j + i], carry, i, j, Low(z), High(z));
      carry := High(z);
      c[j + i] := Low(z);
      assert c[..len] == now[j + i := Low(z)];
      assert c[j + i + 1..] == rest[1..];
      i := i + 1;
    }
    ghost var now := c[..len];
    ghost var rest := c[j + n..];
    assert c[j + n] == rest[0] == 0;
    NumUpdate(now, j + n, carry);
    c[j + n] := carry;
    assert c[..len] == now[j + n := carry];
    assert c[j + n + 1..] == rest[1..];
  }

  lemma NothingYet(start: int, y: int, x: seq<int>, j: nat)
    ensures start + 0 * Pow(j + 0) == start + y * Num(x[..0]) * Pow(j)
  {
    assert Num(x[..0]) == 0;
    assert y * 0 * Pow(j) == 0;
  }

  lemma ZeroNum(s: seq<int>)
    requires forall i :: 0 <= i < |s| ==> s[i] == 0
    ensures Num(s) == 0 && AllWords(s)
  {
    NumTrailing(s, 0);
    assert s[..0] == [];
  }

  /** An array of n words holds fewer than n words of a number when its top words are zero. */
  method Trim(x: array<int>, n: nat) returns (r: nat)
    requires n <= x.Length && AllWords(x[..n]) && Num(x[..n]) > 0
    ensures 0 < r <= n && x[r - 1] != 0 && Num(x[..r]) == Num(x[..n])
  {
    r := n;
    assert x[..0] == [];
    while x[r - 1] == 0
      invariant 0 < r <= n && Num(x[..r]) == Num(x[..n])
      decreases r
    {
      NumSnoc(x[..r], r - 1);
      assert x[..r][..r] == x[..r] && x[..r][..r - 1] == x[..r - 1];
      r := r - 1;
    }
  }

  /** Set wds to the number of words in use. */
  method SetWds(c: Bigint, n: nat)
    requires c.x.Length == Pow2(c.k) && n <= c.x.Length && AllWords(c.x[..n]) && Num(c.x[..n]) > 0
    modifies c`wds
    ensures c.Normal() && c.Val() == Num(c.x[..n]) && c.wds <= n
  {
    hide Num, Pow2;
    var w := Trim(c.x, n);
    c.wds := w;
  }

  lemma ProductStep(u: int, v: int, w: int, p: int)
    ensures u * v + w * u * p == u * (v + w * p)
  {
    assert w * u * p == u * (w * p);
  }

  /** The rows of the product, one for each word of y. */
  method MultRows(x: array<int>, wa: nat, y: array<int>, wb: nat, c: array<int>)
    requires c != x && c != y && 0 < wa <= x.Length && wb <= y.Length && AllWords(x[..wa]) && AllWords(y[..wb])
             && wa + wb <= c.Length
    modifies c
    ensures AllWords(c[..wa + wb]) && Num(c[..wa + wb]) == Num(x[..wa]) * Num(y[..wb])
  {
    hide Pow, Num;
    var wc := wa + wb;
    for i := 0 to wc
      invariant forall h :: 0 <= h < i ==> c[h] == 0
    {
      c[i] := 0;
    }
    ZeroNum(c[..wc]);
    Start(y[..], 0, 0);
    for j := 0 to wb
      invariant AllWords(c[..wc]) && forall h :: j + wa <= h < wc ==> c[h] == 0
      invariant Num(c[..wc]) == Num(x[..wa]) * Num(y[..j])
    {
      NumSnoc(y[..], j);
      ProductStep(Num(x[..wa]), Num(y[..j]), y[j], Pow(j));
      if y[j] != 0 {
        AddRow(x, wa, y[j], c, j, wc);
        ghost var rest := c[j + wa + 1..];
        assert forall h :: j + 1 + wa <= h < wc ==> c[h] == rest[h - (j + wa + 1)];
      }
    }
  }

  /** Schoolbook multiplication, the longer operand in the inner loop. */
  method Mult(a: Bigint, b: Bigint) returns (c: Bigint)
    requires a.Normal() && b.Normal() && a.Val() > 0 && b.Val() > 0
    ensures fresh(c) && fresh(c.x) && c.Normal() && c.Val() == a.Val() * b.Val() && !c.sign
  {
    hide Pow, Num;
    var a, b := a, b;
    if a.wds < b.wds {
      a, b := b, a;
    }
    var k, wc := a.k, a.wds + b.wds;
    if wc > a.x.Length {
      k := k + 1;
    }
    c := new Bigint(k);
    assert Pow2(a.k + 1) == 2 * Pow2(a.k);
    hide Pow2;
    MultRows(a.x, a.wds, b.x, b.wds, c.x);
    ProductPositive(a.Val(), b.Val());
    SetWds(c, wc);
  }

  lemma ProductPositive(u: int, v: int)
    requires u > 0 && v > 0
    ensures u * v > 0
  {
  }

  // ---------------------------------------------------------------- cmp and diff

  /** The number with more words is the greater one. */
  lemma MoreWords(s: seq<int>, t: seq<int>)
    requires AllWords(s) && AllWords(t) && |t| < |s| && s[|s| - 1] != 0
    ensures Num(t) < Num(s)
  {
    NumAtLeast(s);
    NumBounds(t);
    PowMono(|t|, |s| - 1);
  }

  /** Three-way comparison from the top word down; the difference of the lengths decides when it is not zero, even when
      one number has no words and the other is zero. */
  method Cmp(a: Bigint, b: Bigint) returns (r: int)
    requires a.Valid() && b.Valid() && (a.wds > 1 ==> a.x[a.wds - 1] != 0) && (b.wds > 1 ==> b.x[b.wds - 1] != 0)
    ensures a.wds != b.wds ==> r == a.wds - b.wds
    ensures (a.wds > b.wds ==> a.Val() > 0) && (a.wds < b.wds ==> b.Val() > 0)
            ==> (r < 0 <==> a.Val() < b.Val()) && (r == 0 <==> a.Val() == b.Val())
  {
    if a.wds != b.wds {
      Longer(a.x[..a.wds], b.x[..b.wds]);
      return a.wds - b.wds;
    }
    var i := a.wds;
    ghost var s, t := a.x[..i], b.x[..i];
    while i > 0
      invariant 0 <= i <= a.wds && s[i..] == t[i..]
    {
      i := i - 1;
      if a.x[i] != b.x[i] {
        if a.x[i] < b.x[i] { NumCompare(s, t, i); } else { NumCompare(t, s, i); }
        return if a.x[i] < b.x[i] then -1 else 1;
      }
      assert s[i..] == [s[i]] + s[i + 1..] && t[i..] == [t[i]] + t[i + 1..];
    }
    assert s[0..] == s && t[0..] == t;
    return 0;
  }

  lemma Longer(s: seq<int>, t: seq<int>)
    requires AllWords(s) && AllWords(t) && |s| != |t| && (|s| > 1 ==> s[|s| - 1] != 0) && (|t| > 1 ==> t[|t| - 1] != 0)
    ensures (|s| > |t| ==> Num(s) > 0) && (|s| < |t| ==> Num(t) > 0)
            ==> (|s| < |t| <==> Num(s) < Num(t)) && Num(s) != Num(t)
  {
    if !((|s| > |t| ==> Num(s) > 0) && (|s| < |t| ==> Num(t) > 0)) {
    } else if |t| < |s| {
      if |s| == 1 { assert s[..0] == []; }
      MoreWords(s, t);
    } else {
      if |t| == 1 { assert t[..0] == []; }
      MoreWords(t, s);
    }
  }

  lemma BorrowSum(done: int, s: int, t: int, u: int, w: int, borrow: int, i: nat, low: int, next: int)
    requires done == s - t + borrow * Pow(i) && low == u - w - borrow + BASE * next
    ensures done + low * Pow(i) == (s + u * Pow(i)) - (t + w * Pow(i)) + next * Pow(i + 1)
  {
    var p := Pow(i);
    assert low * p == u * p - w * p - borrow * p + (BASE * next) * p;
    assert (BASE * next) * p == next * (BASE * p);
  }

  /** The two borrow loops of diff. */
  method SubWords(a: array<int>, wa: nat, b: array<int>, wb: nat, c: array<int>)
    requires c != a && c != b && wb <= wa <= a.Length && wb <= b.Length && wa <= c.Length
    requires AllWords(a[..wa]) && AllWords(b[..wb]) && Num(b[..wb]) <= Num(a[..wa])
    modifies c
    ensures AllWords(c[..wa]) && Num(c[..wa]) == Num(a[..wa]) - Num(b[..wb])
  {
    hide Pow, Num, Low, High;
    var i, borrow := 0, 0;
    Start(a[..], 0, 0);
    Start(b[..], 0, 0);
    Start(c[..], 0, 0);
    while i < wb
      invariant 0 <= i <= wb && 0 <= borrow <= 1 && AllWords(c[..i])
      invariant Num(c[..i]) == Num(a[..i]) - Num(b[..i]) + borrow * Pow(i)
    {
      ghost var now := c[..];
      BorrowStep(a[i] - b[i] - borrow);
      var y := (a[i] - b[i] - borrow) % WIDE;
      NumSnoc(a[..], i);
      NumSnoc(b[..], i);
      NumSet(now, i, Low(y));
      BorrowSum(Num(now[..i]), Num(a[..i]), Num(b[..i]), a[i], b[i], borrow, i, Low(y), High(y) % 2);
      borrow := High(y) % 2;
      c[i] := Low(y);
      assert c[..] == now[i := Low(y)];
      i := i + 1;
    }
    while i < wa
      invariant wb <= i <= wa && 0 <= borrow <= 1 && AllWords(c[..i])
      invariant Num(c[..i]) == Num(a[..i]) - Num(b[..wb]) + borrow * Pow(i)
    {
      ghost var now := c[..];
      BorrowStep(a[i] - borrow);
      var y := (a[i] - borrow) % WIDE;
      NumSnoc(a[..], i);
      NumSet(now, i, Low(y));
      BorrowSum(Num(now[..i]), Num(a[..i]), Num(b[..wb]), a[i], 0, borrow, i, Low(y), High(y) % 2);
      borrow := High(y) % 2;
      c[i] := Low(y);
      assert c[..] == now[i := Low(y)];
      i := i + 1;
    }
    NumBounds(c[..wa]);
    NoBorrow(borrow, Pow(wa));
  }

  lemma NoBorrow(borrow: int, p: int)
    requires p > 0 && borrow >= 0
    ensures borrow * p >= p || borrow == 0
  {
    if borrow > 0 { MulLe(1, borrow, p); }
  }

  /** The absolute difference; sign says that a is the smaller one. */
  method Diff(a: Bigint, b: Bigint) returns (c: Bigint)
    requires a.Normal() && b.Normal() && a.Val() > 0 && b.Val() > 0
    ensures fresh(c) && fresh(c.x) && c.Normal()
    ensures c.sign == (a.Val() < b.Val()) && c.Val() == if c.sign then b.Val() - a.Val() else a.Val() - b.Val()
  {
    hide Pow, Num;
    var i := Cmp(a, b);
    if i == 0 {
      c := new Bigint(0);
      assert c.x.Length == 1;
      c.wds := 1;
      c.x[0] := 0;
      ZeroNum(c.x[..1]);
      return;
    }
    var a, b := a, b;
    if i < 0 {
      a, b := b, a;
    }
    c := new Bigint(a.k);
    hide Pow2;
    NotShorter(a.x[..a.wds], b.x[..b.wds]);
    SubWords(a.x, a.wds, b.x, b.wds, c.x);
    c.sign := i < 0;
    SetWds(c, a.wds);
  }

  lemma NotShorter(s: seq<int>, t: seq<int>)
    requires AllWords(s) && AllWords(t) && s != [] && (|t| > 1 ==> t[|t| - 1] != 0) && Num(s) >= Num(t)
    ensures |t| <= |s|
  {
    if |s| < |t| { MoreWords(t, s); }
  }

  // ---------------------------------------------------------------- quorem

  lemma BorrowCarrySum(done: int, s: int, t: int, u: int, w: int, q: int, carry: int, borrow: int, i: nat, low: int,
                       high: int, out: int, next: int)
    requires done == s - q * t + (carry + borrow) * Pow(i)
    requires w * q + carry == low + high * BASE && out == u - low - borrow + BASE * next
    ensures done + out * Pow(i) == (s + u * Pow(i)) - q * (t + w * Pow(i)) + (high + next) * Pow(i + 1)
  {
    var p := Pow(i);
    assert out == u - w * q - carry + high * BASE - borrow + BASE * next;
    assert out * p == u * p - (w * q) * p - (carry + borrow) * p + ((high + next) * BASE) * p by {
      Distribute(u, w * q, carry + borrow, (high + next) * BASE, p);
    }
    assert q * (t + w * p) == q * t + (w * q) * p;
    assert ((high + next) * BASE) * p == (high + next) * (BASE * p);
  }

  lemma Distribute(a: int, b: int, c: int, d: int, p: int)
    ensures (a - b - c + d) * p == a * p - b * p - c * p + d * p
  {
  }

  /** b := b - q * s over n words, with a carry for the products and a borrow for the differences.  As q * s is at most
      b, nothing is left to carry or to borrow at the end. */
  method SubMul(b: array<int>, s: array<int>, n: nat, q: int)
    requires b != s && n <= b.Length && n <= s.Length && AllWords(b[..n]) && AllWords(s[..n]) && Word(q)
    requires q * Num(s[..n]) <= Num(b[..n])
    modifies b
    ensures AllWords(b[..n]) && Num(b[..n]) == Num(old(b[..n])) - q * Num(s[..n])
  {
    hide Pow, Num, Low, High;
    ghost var b0 := b[..];
    var i, borrow, carry := 0, 0, 0;
    Start(b0, 0, 0);
    Start(s[..], 0, 0);
    while i < n
      invariant 0 <= i <= n && 0 <= borrow <= 1 && Word(carry) && AllWords(b[..i]) && b[i..] == b0[i..]
      invariant Num(b[..i]) == Num(b0[..i]) - q * Num(s[..i]) + (carry + borrow) * Pow(i)
    {
      ghost var now := b[..];
      assert b[i] == b[i..][0] == b0[i];
      RowStep(s[i], q, 0, carry);
      var ys := s[i] * q + carry;
      assert ys < WIDE;
      Split(ys);
      BorrowStep(b[i] - Low(ys) - borrow);
      var y := (b[i] - Low(ys) - borrow) % WIDE;
      NumSnoc(b0, i);
      NumSnoc(s[..], i);
      NumSet(now, i, Low(y));
      BorrowCarrySum(Num(now[..i]), Num(b0[..i]), Num(s[..i]), b0[i], s[i], q, carry, borrow, i,
                     Low(ys), High(ys), Low(y), High(y) % 2);
      carry := High(ys);
      borrow := High(y) % 2;
      b[i] := Low(y);
      assert b[..] == now[i := Low(y)];
      assert b[i + 1..] == now[i..][1..];
      i := i + 1;
    }
    assert b0[..n] == old(b[..n]);
    NumBounds(b[..n]);
    NoBorrow(carry + borrow, Pow(n));
  }

  /** What the division of the top words says. */
  lemma TopQuotient(bTop: int, sTop: int, q: int)
    requires Word(bTop) && 0x800_0000 <= sTop < 0x1000_0000 && q == bTop / (sTop + 1)
    ensures 0 <= q <= 31 && q * (sTop + 1) <= bTop && bTop + 1 <= (q + 2) * sTop
  {
    assert bTop == q * (sTop + 1) + bTop % (sTop + 1);
    if q >= 32 { MulLe(32, q, sTop + 1); }
    assert (q + 2) * sTop == q * (sTop + 1) - q + 2 * sTop;
  }

  /** Dividing the top word of b by the top word of S plus one gives the quotient or one less. */
  lemma QuotientGuess(bn: int, sn: int, p: int, bTop: int, sTop: int, q: int)
    requires p > 0 && Word(bTop) && 0x800_0000 <= sTop < 0x1000_0000 && q == bTop / (sTop + 1)
    requires bTop * p <= bn < (bTop + 1) * p && sTop * p <= sn < (sTop + 1) * p
    ensures 0 <= q <= 31 && q * sn <= bn < (q + 2) * sn
  {
    TopQuotient(bTop, sTop, q);
    Scaled(bn, sn, p, bTop, sTop, q);
  }

  lemma Scaled(bn: int, sn: int, p: int, u: int, v: int, q: int)
    requires p > 0 && q >= 0 && u * p <= bn < (u + 1) * p && v * p <= sn < (v + 1) * p
    requires q * (v + 1) <= u && u + 1 <= (q + 2) * v
    ensures q * sn <= bn < (q + 2) * sn
  {
    MulRight(sn, (v + 1) * p, q);
    MulLe(q * (v + 1), u, p);
    Assoc(q, v + 1, p);
    MulLe(u + 1, (q + 2) * v, p);
    MulRight(v * p, sn, q + 2);
    Assoc(q + 2, v, p);
  }

  lemma Assoc(a: int, b: int, c: int)
    ensures a * (b * c) == a * b * c
  {
  }

  lemma MulRight(a: int, b: int, c: int)
    requires a <= b && 0 <= c
    ensures c * a <= c * b
  {
    MulLe(a, b, c);
  }

  /** Subtract q times S, of as many words, and find the new number of words. */
  method Reduce(b: Bigint, S: Bigint, q: int)
    requires b != S && b.x != S.x && b.Valid() && S.Valid() && b.wds == S.wds > 0 && Word(q) && q * S.Val() <= b.Val()
    requires b.wds > 1 ==> b.x[b.wds - 1] != 0
    modifies b`wds, b.x
    ensures b.Valid() && b.wds <= S.wds && (b.wds > 1 ==> b.x[b.wds - 1] != 0)
            && (b.wds == 0 ==> S.wds == 1 && b.x[0] == 0)
    ensures b.Val() == old(b.Val()) - q * S.Val() && (S.wds == 1 && b.Val() == 0 ==> b.wds == 0)
  {
    hide Pow, Num, Pow2;
    var n := S.wds - 1;
    SubMul(b.x, S.x, n + 1, q);
    if b.x[n] == 0 {
      DropZeros(b, n);
    } else {
      NumAtLeast(b.x[..n + 1]);
      ProductPositive(b.x[n], Pow(n));
    }
  }

  /** The top word of b over the top word of S, then at most one correction.  It leaves b mod S; when S has one word a
      remainder of zero is left with no words at all. */
  method QuoRem(b: Bigint, S: Bigint) returns (q: int)
    requires b != S && b.x != S.x && b.Normal() && S.Normal() && b.wds <= S.wds
    requires 0x800_0000 <= S.x[S.wds - 1] < 0x1000_0000
    modifies b, b.x
    ensures b.Valid() && (b.wds > 1 ==> b.x[b.wds - 1] != 0) && (b.wds == 0 ==> S.wds == 1 && b.x[0] == 0)
    ensures old(b.Val()) == q * S.Val() + b.Val() && 0 <= b.Val() < S.Val() && 0 <= q <= 32
    ensures S.wds == 1 && b.Val() == 0 < old(b.Val()) ==> b.wds == 0
  {
    hide Pow, Num, Pow2;
    ghost var was, s := b.Val(), S.Val();
    NumBounds(b.x[..b.wds]);
    if b.wds < S.wds {
      MoreWords(S.x[..S.wds], b.x[..b.wds]);
      return 0;
    }
    var n := S.wds - 1;
    NumAtLeast(S.x[..n + 1]);
    NumAtLeast(b.x[..n + 1]);
    q := b.x[n] / (S.x[n] + 1);
    QuotientGuess(was, s, Pow(n), b.x[n], S.x[n], q);
    Correct(s, q);
    ProductPositive(S.x[n], Pow(n));
    if q != 0 {
      Reduce(b, S, q);
    }
    NumBounds(b.x[..b.wds]);
    assert b.Val() == was - q * s;
    var c := Cmp(b, S);
    if c >= 0 {
      q := q + 1;
      NotShorter(b.x[..b.wds], S.x[..S.wds]);
      Reduce(b, S, 1);
      NumBounds(b.x[..b.wds]);
    }
  }

  lemma Correct(s: int, q: int)
    ensures (q + 1) * s == q * s + s && (q + 2) * s == q * s + 2 * s
  {
  }

  /** The top word has become zero: find the new number of words below it. */
  method DropZeros(b: Bigint, top: nat)
    requires b.x.Length == Pow2(b.k) && top < b.x.Length && AllWords(b.x[..top + 1]) && b.x[top] == 0
    modifies b`wds
    ensures b.Valid() && b.wds <= top && (b.wds == 0 ==> top == 0) && (b.wds > 1 ==> b.x[b.wds - 1] != 0)
    ensures b.Val() == Num(b.x[..top + 1])
  {
    hide Pow2;
    var n := top;
    NumTrailing(b.x[..top + 1], top);
    assert b.x[..top + 1][..top] == b.x[..top];
    while n > 1 && b.x[n - 1] == 0
      invariant 0 <= n <= top && (n == 0 ==> top == 0) && Num(b.x[..n]) == Num(b.x[..top])
    {
      NumTrailing(b.x[..n], n - 1);
      assert b.x[..n][..n - 1] == b.x[..n - 1];
      n := n - 1;
    }
    b.wds := n;
  }

  // ---------------------------------------------------------------- lshift and dshift

  lemma {:induction false} Pow2Add(m: nat, n: nat)
    ensures Pow2(m + n) == Pow2(m) * Pow2(n)
  {
    if n > 0 {
      Pow2Add(m, n - 1);
      assert Pow2(m) * (2 * Pow2(n - 1)) == 2 * (Pow2(m) * Pow2(n - 1));
    }
  }

  /** Shifting by whole words. */
  lemma {:induction false} Pow2Words(n: nat)
    ensures Pow2(32 * n) == Pow(n)
  {
    if n > 0 {
      Pow2Words(n - 1);
      Pow2Add(32 * (n - 1), 32);
      Pow2Is32();
    }
  }

  lemma Pow2Is32()
    ensures Pow2(32) == BASE
  {
    assert Pow2(8) == 256;
    Pow2Add(8, 8);
    Pow2Add(16, 16);
  }

  /** A word shifted left: the low part keeps s zero bits for what the word below shifts out. */
  lemma ShiftStep(w: int, s: nat, z: int)
    requires Word(w) && 0 < s < 32 && 0 <= z < Pow2(s)
    ensures Low(w * Pow2(s)) + z + w / Pow2(32 - s) * BASE == w * Pow2(s) + z
    ensures Word(Low(w * Pow2(s)) + z) && 0 <= w / Pow2(32 - s) < Pow2(s)
    ensures w > 0 && w / Pow2(32 - s) == 0 ==> Low(w * Pow2(s)) + z > 0
  {
    Pow2Add(s, 32 - s);
    Pow2Is32();
    ShiftParts(w, Pow2(s), Pow2(32 - s), z);
  }

  lemma ShiftParts(w: int, a: int, b: int, z: int)
    requires Word(w) && a > 0 && b > 0 && a * b == BASE && 0 <= z < a
    ensures Low(w * a) + z + w / b * BASE == w * a + z
    ensures Word(Low(w * a) + z) && 0 <= w / b < a
    ensures w > 0 && w / b == 0 ==> Low(w * a) + z > 0
  {
    var h, r := w / b, w % b;
    assert w == h * b + r;
    assert w * a == h * (a * b) + r * a by { assert (h * b + r) * a == h * (a * b) + r * a; }
    MulLe(r + 1, b, a);
    MulLe(0, r, a);
    assert (r + 1) * a == r * a + a;
    Remainder(w * a, h, r * a);
    if h >= a { MulLe(a, h, b); }
    if h < 0 { MulLe(h, -1, b); }
    if w > 0 && h == 0 { MulLe(1, r, a); }
  }

  lemma Remainder(y: int, h: int, low: int)
    requires y == h * BASE + low && 0 <= low < BASE
    ensures Low(y) == low
  {
  }

  /** The bit-shifting loop of lshift. */
  method ShiftWords(x: array<int>, n: nat, r: array<int>, off: nat, s: nat) returns (z: int)
    requires r != x && 0 < n <= x.Length && off + n <= r.Length && AllWords(x[..n]) && 0 < s < 32
    modifies r
    ensures r[..off] == old(r[..off]) && AllWords(r[off..off + n]) && Word(z)
    ensures Num(r[off..off + n]) + z * Pow(n) == Num(x[..n]) * Pow2(s)
    ensures x[n - 1] > 0 && z == 0 ==> r[off + n - 1] > 0
  {
    hide Pow, Num, Pow2, Low, High;
    Pow2Below(s);
    var i := 0;
    z := 0;
    Start(x[..], Pow2(s), 0);
    assert r[off..off] == x[..0];
    while i < n
      invariant 0 <= i <= n && 0 <= z < Pow2(s) && r[..off] == old(r[..off]) && AllWords(r[off..off + i])
      invariant Num(r[off..off + i]) + z * Pow(i) == Num(x[..i]) * Pow2(s) + 0
      invariant i == n && x[n - 1] > 0 && z == 0 ==> r[off + n - 1] > 0
    {
      ghost var now := r[off..];
      var w := x[i];
      ShiftStep(w, s, z);
      var low, high := Low(w * Pow2(s)) + z, w / Pow2(32 - s);
      NumSnoc(x[..], i);
      NumSet(now, i, low);
      assert now[..i] == r[off..off + i];
      MultAddSum(Num(now[..i]), Num(x[..i]), w, Pow2(s), 0, z, i, low, high);
      r[off + i] := low;
      z := high;
      assert r[off..] == now[i := low];
      assert r[off..][..i + 1] == r[off..off + i + 1];
      i := i + 1;
    }
  }

  lemma Pow2Below(s: nat)
    requires 0 < s < 32
    ensures 1 < Pow2(s) < BASE
  {
    Pow2Add(s - 1, 1);
    Pow2Add(s, 32 - s);
    Pow2Add(31 - s, 1);
    Pow2Is32();
    assert Pow2(32 - s) == 2 * Pow2(31 - s) && Pow2(s) == 2 * Pow2(s - 1);
    MulLe(2, Pow2(32 - s), Pow2(s));
  }

  /** Zero words below, then the shifted words, then what was shifted out at the top. */
  method ShiftInto(x: array<int>, wds: nat, r: array<int>, n: nat, s: nat) returns (z: int)
    requires r != x && 0 < wds <= x.Length && n + wds < r.Length && AllWords(x[..wds]) && s < 32
    modifies r
    ensures (forall h :: 0 <= h < n ==> r[h] == 0) && AllWords(r[n..n + wds]) && Word(z) && (z != 0 ==> r[n + wds] == z)
    ensures Num(r[n..n + wds]) + z * Pow(wds) == Num(x[..wds]) * Pow2(s)
    ensures x[wds - 1] > 0 && z == 0 ==> r[n + wds - 1] > 0
  {
    hide Num, Pow;
    for j := 0 to n
      invariant forall h :: 0 <= h < j ==> r[h] == 0
    {
      r[j] := 0;
    }
    if s != 0 {
      ghost var zeros := r[..n];
      z := ShiftWords(x, wds, r, n, s);
      assert forall h :: 0 <= h < n ==> r[h] == r[..n][h] == zeros[h];
      ghost var done := r[..n + wds];
      r[n + wds] := z;
      assert r[..n + wds] == done && r[n..n + wds] == done[n..];
    } else {
      z := 0;
      for j := 0 to wds
        invariant forall h :: 0 <= h < n ==> r[h] == 0
        invariant forall h :: 0 <= h < j ==> r[n + h] == x[h]
      {
        r[n + j] := x[j];
      }
      assert r[n..n + wds] == x[..wds];
    }
  }

  lemma ShiftedNum(t: seq<int>, n: nat, wds: nat, z: int, v: int, s: nat)
    requires |t| == n + wds + (if z != 0 then 1 else 0) && (forall h :: 0 <= h < n ==> t[h] == 0)
             && (z != 0 ==> t[n + wds] == z)
    requires Num(t[n..n + wds]) + z * Pow(wds) == v * Pow2(s)
    ensures Num(t) == v * Pow2(32 * n + s)
  {
    hide Num, Pow, Pow2;
    NumLeadingZeros(t, n);
    if z != 0 {
      NumSnoc(t[n..], wds);
      assert t[n..][..wds + 1] == t[n..] && t[n..][..wds] == t[n..n + wds];
    } else {
      assert t[n..] == t[n..n + wds];
    }
    Pow2Words(n);
    Pow2Add(32 * n, s);
    Swap(v, Pow2(s), Pow(n));
  }

  lemma Swap(v: int, a: int, b: int)
    ensures v * a * b == v * (b * a)
  {
  }

  /** Shift left by any number of bits, into an array large enough for one word more than needed. */
  method LShift(b: Bigint, k: nat) returns (r: Bigint)
    requires b.Normal() && b.Val() > 0
    ensures fresh(r) && fresh(r.x) && r.Normal() && r.Val() == b.Val() * Pow2(k) && !r.sign
  {
    hide Pow, Num;
    var n, s, wds := k / 32, k % 32, b.wds;
    var k1 := b.k;
    var n1 := n + wds + 1;
    var i := b.x.Length;
    while n1 > i
      invariant i == Pow2(k1)
    {
      i := 2 * i;
      k1 := k1 + 1;
    }
    r := new Bigint(k1);
    hide Pow2;
    TopNonzero(b.x[..wds]);
    var z := ShiftInto(b.x, wds, r.x, n, s);
    if z != 0 {
      n1 := n1 + 1;
    }
    r.wds := n1 - 1;
    assert r.x[..r.wds][n..n + wds] == r.x[n..n + wds];
    ShiftedNum(r.x[..r.wds], n, wds, z, b.Val(), s);
    assert forall h :: n <= h < n + wds ==> r.x[h] == r.x[n..n + wds][h - n];
  }

  lemma TopNonzero(s: seq<int>)
    requires s != [] && AllWords(s) && Num(s) > 0 && (|s| > 1 ==> s[|s| - 1] != 0)
    ensures s[|s| - 1] > 0
  {
    if |s| == 1 { assert s[..0] == []; }
  }

  /** The number of zero bits at the top of a word, found by halving. */
  method Hi0Bits(w: int) returns (k: nat)
    requires Word(w)
    ensures w == 0 ==> k == 32
    ensures w > 0 ==> k < 32 && Pow2(31 - k) <= w < 2 * Pow2(31 - k)
  {
    var x := w;
    k := 0;
    PowersOf2();
    if x < 0x1_0000 {
      k := 16;
      x := x * 0x1_0000;
    }
    if x < 0x100_0000 {
      k := k + 8;
      x := x * 0x100;
    }
    if x < 0x1000_0000 {
      k := k + 4;
      x := x * 0x10;
    }
    if x < 0x4000_0000 {
      k := k + 2;
      x := x * 4;
    }
    hide Pow2;
    assert x == w * Pow2(k) && k <= 30;
    assert w > 0 ==> x >= 0x4000_0000;
    TopBit(w, k, x);
    if x < 0x8000_0000 {
      k := k + 1;
      if x < 0x4000_0000 {
        k := 32;
      }
    }
  }

  lemma PowersOf2()
    ensures Pow2(0) == 1 && Pow2(2) == 4 && Pow2(4) == 0x10 && Pow2(6) == 0x40 && Pow2(8) == 0x100 && Pow2(10) == 0x400
    ensures Pow2(12) == 0x1000 && Pow2(14) == 0x4000 && Pow2(16) == 0x1_0000 && Pow2(18) == 0x4_0000
            && Pow2(20) == 0x10_0000
    ensures Pow2(22) == 0x40_0000 && Pow2(24) == 0x100_0000 && Pow2(26) == 0x400_0000 && Pow2(28) == 0x1000_0000
    ensures Pow2(30) == 0x4000_0000
  {
    assert Pow2(10) == 0x400;
    Pow2Add(10, 2);
    Pow2Add(10, 4);
    Pow2Add(10, 6);
    Pow2Add(10, 8);
    Pow2Add(10, 10);
    Pow2Add(20, 2);
    Pow2Add(20, 4);
    Pow2Add(20, 6);
    Pow2Add(20, 8);
    Pow2Add(20, 10);
  }

  /** x is w shifted left by k, with one of its two top bits set. */
  lemma TopBit(w: int, k: nat, x: int)
    requires k <= 30 && w >= 0 && x == w * Pow2(k) && x < BASE
    ensures x >= 0x8000_0000 ==> Pow2(31 - k) <= w < 2 * Pow2(31 - k)
    ensures 0x4000_0000 <= x < 0x8000_0000 ==> Pow2(30 - k) <= w < 2 * Pow2(30 - k)
  {
    Pow2Add(k, 30 - k);
    PowersOf2();
    assert Pow2(31 - k) == 2 * Pow2(30 - k);
    TopBitInts(w, Pow2(k), Pow2(30 - k), x);
  }

  lemma TopBitInts(w: int, p: int, q: int, x: int)
    requires p > 0 && p * q == 0x4000_0000 && x == w * p && x < BASE
    ensures x >= 0x8000_0000 ==> 2 * q <= w < 4 * q
    ensures 0x4000_0000 <= x < 0x8000_0000 ==> q <= w < 2 * q
  {
    Compare(w, q, p);
    Compare(w, 2 * q, p);
    Compare(w, 4 * q, p);
    Doubles(p, q);
  }

  lemma Doubles(p: int, q: int)
    ensures q * p == p * q && 2 * q * p == 2 * (p * q) && 4 * q * p == 4 * (p * q)
  {
  }

  lemma Compare(a: int, b: int, p: int)
    requires p > 0
    ensures a < b <==> a * p < b * p
  {
    if a < b { MulLess(a, b, p); } else { MulLe(b, a, p); }
  }

  /** How far to shift on, after shifting by p2, for the top word to have exactly four leading zero bits. */
  method DShift(S: Bigint, p2: nat) returns (i: nat)
    requires S.Normal() && S.Val() > 0
    ensures i < 32 && FourZeroBits(S.Val() * Pow2(p2 + i))
  {
    TopNonzero(S.x[..S.wds]);
    var h := Hi0Bits(S.x[S.wds - 1]);
    var rv := h - 4 - p2;
    i := rv % 32;
    NumAtLeast(S.x[..S.wds]);
    Aligned(S.Val(), S.x[S.wds - 1], S.wds - 1, h, p2 + i);
  }

  /** The number has n + 1 words, and the top one lies in [2^27, 2^28). */
  ghost predicate FourZeroBits(v: int) {
    exists n: nat :: 0x800_0000 * Pow(n) <= v < 0x1000_0000 * Pow(n)
  }

  lemma Aligned(v: int, top: int, n: nat, h: nat, shift: nat)
    requires h < 32 && Pow2(31 - h) <= top < 2 * Pow2(31 - h) && top * Pow(n) <= v < (top + 1) * Pow(n)
    requires (shift - (h - 4)) % 32 == 0
    ensures FourZeroBits(v * Pow2(shift))
  {
    var c := (shift - (h - 4)) / 32;
    var a, p, m := Pow2(31 - h), Pow(n), Pow2(shift);
    assert shift + 31 - h == 27 + 32 * c && c >= 0;
    Pow2Add(31 - h, shift);
    Pow2Add(27, 32 * c);
    Pow2Words(c);
    PowersOf2();
    assert Pow2(27) == 0x800_0000;
    PowAdd(n, c);
    hide Pow, Pow2;
    assert a * m == 0x800_0000 * Pow(c);
    MulLe(a, top, p);
    MulLe(top + 1, 2 * a, p);
    assert a * p <= v < 2 * a * p;
    MulLe(a * p, v, m);
    MulLess(v, 2 * a * p, m);
    Rearrange(a, p, m, Pow(c));
    assert 0x800_0000 * Pow(n + c) <= v * m < 0x1000_0000 * Pow(n + c);
  }

  lemma MulLess(a: int, b: int, c: int)
    requires a < b && c > 0
    ensures a * c < b * c
  {
    MulLe(a + 1, b, c);
    assert (a + 1) * c == a * c + c;
  }

  lemma Rearrange(a: int, p: int, m: int, q: int)
    requires a * m == 0x800_0000 * q
    ensures a * p * m == 0x800_0000 * (p * q) && 2 * a * p * m == 0x1000_0000 * (p * q)
  {
    assert a * p * m == a * m * p;
    assert 0x800_0000 * q * p == 0x800_0000 * (p * q);
    assert 2 * a * p * m == 2 * (a * p * m);
  }

  /** What quorem needs of its divisor is what shifting by dshift gives. */
  lemma FourZeroBitsTop(s: seq<int>)
    requires AllWords(s) && s != [] && s[|s| - 1] != 0 && FourZeroBits(Num(s))
    ensures 0x800_0000 <= s[|s| - 1] < 0x1000_0000
  {
    var n: nat :| 0x800_0000 * Pow(n) <= Num(s) < 0x1000_0000 * Pow(n);
    var m := |s| - 1;
    NumAtLeast(s);
    NumBounds(s);
    if n > m { PowMono(|s|, n); }
    if n < m { PowMono(n + 1, m); }
    hide Num;
    assert Pow(n + 1) == BASE * Pow(n);
    assert n == m;
    if s[m] < 0x800_0000 { MulLe(s[m] + 1, 0x800_0000, Pow(m)); }
    if s[m] >= 0x1000_0000 { MulLe(0x1000_0000, s[m], Pow(m)); }
  }

  // ---------------------------------------------------------------- pow5mult

  function Pow5(n: nat): (p: int)
    ensures p > 0
  {
    if n == 0 then 1 else 5 * Pow5(n - 1)
  }

  lemma {:induction false} Pow5Add(m: nat, n: nat)
    ensures Pow5(m + n) == Pow5(m) * Pow5(n)
  {
    if n > 0 {
      Pow5Add(m, n - 1);
      assert Pow5(m) * (5 * Pow5(n - 1)) == 5 * (Pow5(m) * Pow5(n - 1));
    }
  }

  /** The list p5s: entry i holds 5^(4 * 2^i); it grows by squaring its last entry. */
  class Powers {
    var cache: seq<Bigint>

    ghost predicate Valid()
      reads this, cache, set i | 0 <= i < |cache| :: cache[i].x
    {
      forall i :: 0 <= i < |cache| ==> cache[i].Normal() && cache[i].Val() == Pow5(4 * Pow2(i))
    }

    /** b shares nothing with the list. */
    ghost predicate Avoids(b: Bigint)
      reads this
    {
      forall i :: 0 <= i < |cache| ==> cache[i] != b && cache[i].x != b.x
    }

    constructor ()
      ensures Valid() && cache == []
    {
      cache := [];
    }

    /** Entry i, made from entry i - 1 when it is the first time it is asked for. */
    method Entry(i: nat) returns (p5: Bigint)
      requires Valid() && i <= |cache|
      modifies this
      ensures Valid() && i < |cache| && p5 == cache[i]
      ensures |cache| >= |old(cache)| && cache[..|old(cache)|] == old(cache)
      ensures forall j :: |old(cache)| <= j < |cache| ==> fresh(cache[j]) && fresh(cache[j].x)
    {
      hide Num, Pow2, Pow5, Bigint.Normal;
      if i < |cache| {
        return cache[i];
      }
      Squares(i);
      if i == 0 {
        p5 := FromInt(625);
      } else {
        var last := cache[i - 1];
        PositiveEntry(last);
        p5 := Mult(last, last);
      }
      cache := cache + [p5];
    }
  }

  lemma PositiveEntry(b: Bigint)
    requires b.Normal() && exists n :: b.Val() == Pow5(n)
    ensures b.Val() > 0
  {
  }

  lemma Squares(i: nat)
    ensures i == 0 ==> Pow5(4 * Pow2(i)) == 625
    ensures i > 0 ==> Pow5(4 * Pow2(i)) == Pow5(4 * Pow2(i - 1)) * Pow5(4 * Pow2(i - 1))
  {
    if i == 0 {
      assert Pow5(4) == 625;
    } else {
      Pow5Add(4 * Pow2(i - 1), 4 * Pow2(i - 1));
    }
  }

  /** i2b */
  method FromInt(i: int) returns (b: Bigint)
    requires Word(i)
    ensures fresh(b) && fresh(b.x) && b.Normal() && b.Val() == i && !b.sign
  {
    b := new Bigint(1);
    b.x[0] := i;
    b.wds := 1;
    hide Num;
    OneWord(b.x[..1]);
  }

  lemma OneWord(s: seq<int>)
    requires |s| == 1 && Word(s[0])
    ensures Num(s) == s[0] && AllWords(s)
  {
    assert s[..0] == [];
  }

  /** What is still to be multiplied in: the bits of k from the lowest on, entry e of the list standing for the
      lowest. */
  lemma Pow5Bit(v: int, e: nat, k: nat)
    ensures k % 2 == 1 ==> v * Pow5(4 * Pow2(e)) * Pow5(4 * Pow2(e + 1) * (k / 2)) == v * Pow5(4 * Pow2(e) * k)
    ensures k % 2 == 0 ==> v * Pow5(4 * Pow2(e + 1) * (k / 2)) == v * Pow5(4 * Pow2(e) * k)
  {
    var m, h := 4 * Pow2(e), k / 2;
    assert 4 * Pow2(e + 1) * h == m * (2 * h) by { assert 4 * Pow2(e + 1) == m * 2; MulAssoc(m, 2, h); }
    if k % 2 == 1 {
      assert m * k == m + m * (2 * h) by { assert k == 1 + 2 * h; MulPlus(m, 2 * h); }
      assert m * (2 * h) >= 0;
      Pow5Add(m, m * (2 * h));
      MulAssoc(v, Pow5(m), Pow5(m * (2 * h)));
    }
  }

  lemma MulAssoc(a: int, b: int, c: int)
    ensures a * b * c == a * (b * c)
  {
  }

  lemma MulPlus(m: int, h: int)
    ensures m * (1 + h) == m + m * h
  {
  }

  lemma Pow5Small(v: int, k: nat)
    ensures Pow5(1) == 5 && Pow5(2) == 25 && Pow5(3) == 125
    ensures v * Pow5(k % 4) * Pow5(4 * Pow2(0) * (k / 4)) == v * Pow5(k)
    ensures v * Pow5(0) == v
  {
    Pow5Add(k % 4, 4 * (k / 4));
    MulAssoc(v, Pow5(k % 4), Pow5(4 * (k / 4)));
    assert Pow5(1) == 5 * Pow5(0) && Pow5(2) == 5 * Pow5(1) && Pow5(3) == 5 * Pow5(2);
  }

  /** Multiply by 5^k: first by 5^(k mod 4), then by a square from the list for every bit of k / 4. */
  method Pow5Mult(p: Powers, b: Bigint, k: nat) returns (r: Bigint)
    requires p.Valid() && b.Normal() && b.Val() > 0
    requires p.Avoids(b)
    modifies p, b, b.x
    ensures r == b || (fresh(r) && fresh(r.x))
    ensures r.Normal() && r.Val() == old(b.Val()) * Pow5(k)
    ensures p.Valid() && p.Avoids(r) && |p.cache| >= |old(p.cache)| && p.cache[..|old(p.cache)|] == old(p.cache)
    ensures forall j :: |old(p.cache)| <= j < |p.cache| ==> fresh(p.cache[j]) && fresh(p.cache[j].x)
  {
    hide Num, Pow2, Pow5;
    ghost var v := b.Val();
    Pow5Small(v, k);
    r := b;
    var i := k % 4;
    if i != 0 {
      r := MultAdd(b, if i == 1 then 5 else if i == 2 then 25 else 125, 0);
    }
    assert r.Val() == v * Pow5(k % 4);
    var m := k / 4;
    if m == 0 {
      Pow5None(v, k);
      return;
    }
    r := MultSquares(p, r, m);
  }

  lemma Pow5None(v: int, k: nat)
    requires k < 4
    ensures v * Pow5(k % 4) == v * Pow5(k)
  {
  }

  /** The loop of pow5mult over the bits of m. */
  method MultSquares(p: Powers, b: Bigint, m: nat) returns (r: Bigint)
    requires p.Valid() && p.Avoids(b) && b.Normal() && b.Val() > 0 && m > 0
    modifies p
    ensures r == b || (fresh(r) && fresh(r.x))
    ensures r.Normal() && r.Val() == b.Val() * Pow5(4 * Pow2(0) * m)
    ensures p.Valid() && p.Avoids(r) && |p.cache| >= |old(p.cache)| && p.cache[..|old(p.cache)|] == old(p.cache)
    ensures forall j :: |old(p.cache)| <= j < |p.cache| ==> fresh(p.cache[j]) && fresh(p.cache[j].x)
  {
    hide Num, Pow2, Pow5, Bigint.Normal, Bigint.Val, Bigint.Valid;
    r := b;
    NormalIsValid(r);
    var k, e := m, 0;
    var p5 := p.Entry(0);
    while true
      invariant k > 0 && p.Valid() && e < |p.cache| && p5 == p.cache[e]
      invariant r == b || (fresh(r) && fresh(r.x))
      invariant r.Normal() && r.Valid() && r.Val() > 0
                && r.Val() * Pow5(4 * Pow2(e) * k) == b.Val() * Pow5(4 * Pow2(0) * m)
      invariant p.Avoids(r) && |p.cache| >= |old(p.cache)| && p.cache[..|old(p.cache)|] == old(p.cache)
      invariant forall j :: |old(p.cache)| <= j < |p.cache| ==> fresh(p.cache[j]) && fresh(p.cache[j].x)
      decreases k
    {
      Pow5Bit(r.Val(), e, k);
      if k % 2 == 1 {
        NormalIsValid(p5);
        ProductPositive(r.Val(), p5.Val());
        r := Mult(r, p5);
        NormalIsValid(r);
      }
      k := k / 2;
      if k == 0 {
        break;
      }
      e := e + 1;
      p5 := p.Entry(e);
    }
    LastBit(r.Val(), e);
  }

  lemma NormalIsValid(b: Bigint)
    requires b.Normal()
    ensures b.Valid()
  {
  }

  lemma LastBit(v: int, e: nat)
    ensures v * Pow5(4 * Pow2(e + 1) * 0) == v
  {
    assert 4 * Pow2(e + 1) * 0 == 0;
  }
}
