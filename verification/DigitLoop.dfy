/**
 The digit loop of dtoa over its big integers: module Digits says what the loop prints, over integers, and module Bignum
 what the operations on big integers compute.
 */
module DigitLoop {
  import opened Exponents
  import opened Words
  import B = Bignum
  import D = Digits

  /** Two big integers that share nothing. */
  ghost predicate Apart(a: B.Bigint, b: B.Bigint) { a != b && a.x != b.x }

  ghost predicate Positive(a: B.Bigint)
    reads a, a.x
  {
    a.Normal() && a.Val() > 0
  }

  /** What quorem needs and dshift provides. */
  ghost predicate Divisor(S: B.Bigint)
    reads S, S.x
  {
    Positive(S) && 0x800_0000 <= S.x[S.wds - 1] < 0x1000_0000
  }

  /** What quorem leaves: perhaps zero without a word. */
  ghost predicate Remainder(b: B.Bigint)
    reads b, b.x
  {
    b.Valid() && (b.wds > 1 ==> b.x[b.wds - 1] != 0) && (b.wds == 0 ==> b.x[0] == 0)
  }

  /** A number with a normal form of more words than S has is at least ten times as great. */
  lemma NoLonger(b: B.Bigint, S: B.Bigint)
    requires b.Normal() && Divisor(S) && b.Val() < 10 * S.Val()
    ensures b.wds <= S.wds
  {
    var n := S.wds - 1;
    NumAtLeast(S.x[..n + 1]);
    NumAtMost(S.x[..n + 1]);
    assert Pow(n + 1) == BASE * Pow(n);
    if b.wds > S.wds {
      NumAtLeast(b.x[..b.wds]);
      PowMono(S.wds, b.wds - 1);
      hide Num;
      MulLe(1, b.x[b.wds - 1], Pow(b.wds - 1));
      MulLe(S.x[n] + 1, 0x1000_0000, Pow(n));
    }
  }

  lemma NumAtMost(s: seq<int>)
    requires AllWords(s) && s != []
    ensures Num(s) < (s[|s| - 1] + 1) * Pow(|s| - 1)
  {
    NumBounds(s[..|s| - 1]);
  }

  /** The test b->x[0] == 0 && b->wds <= 1. */
  method IsZero(b: B.Bigint) returns (z: bool)
    requires Remainder(b)
    ensures z <==> b.Val() == 0
  {
    z := b.x[0] == 0 && b.wds <= 1;
    if b.wds > 1 {
      NoWords(b);
    } else if b.wds == 1 {
      B.OneWord(b.x[..1]);
    } else {
      assert b.x[..0] == [];
    }
  }

  lemma NoWords(b: B.Bigint)
    requires b.Valid()
    ensures b.wds == 0 ==> b.Val() == 0
    ensures b.Val() >= 0 && (b.wds > 1 && b.x[b.wds - 1] != 0 ==> b.Val() > 0)
  {
    NumBounds(b.x[..b.wds]);
    if b.wds > 1 && b.x[b.wds - 1] != 0 {
      NumAtLeast(b.x[..b.wds]);
      B.ProductPositive(b.x[b.wds - 1], Pow(b.wds - 1));
    }
  }

  /** The first part of a round: a digit, and how the remainder compares with mlo and with S - mhi.  When the remainder
      is zero without a word and S - mhi is zero with one, the comparison calls the remainder less. */
  method Compare(b: B.Bigint, S: B.Bigint, mlo: B.Bigint, mhi: B.Bigint) returns (dig: int, j: int, j1: int)
    requires b.Normal() && Divisor(S) && Positive(mlo) && Positive(mhi) && 0 <= b.Val() < 10 * S.Val()
    requires Apart(b, S) && Apart(b, mlo) && Apart(b, mhi)
    modifies b, b.x
    ensures Remainder(b) && Divisor(S) && Positive(mlo) && Positive(mhi)
    ensures S.Val() == old(S.Val()) && mlo.Val() == old(mlo.Val()) && mhi.Val() == old(mhi.Val()) && S.wds == old(S.wds)
    ensures old(b.Val()) == dig * S.Val() + b.Val() && 0 <= b.Val() < S.Val()
    ensures D.SignOf(j, b.Val() - mlo.Val())
    ensures if b.wds == 0 && S.Val() == mhi.Val() then j1 < 0 else D.SignOf(j1, b.Val() - (S.Val() - mhi.Val()))
    ensures b.wds == 0 ==> b.Val() == 0 && S.wds == 1
    ensures S.wds == 1 && b.Val() == 0 < old(b.Val()) ==> b.wds == 0
  {
    hide Pow2, Num, Pow, AllWords;
    NoLonger(b, S);
    dig := B.QuoRem(b, S);
    NoWords(b);
    j := B.Cmp(b, mlo);
    var delta := B.Diff(S, mhi);
    if delta.sign {
      j1 := 1;
    } else {
      NoWords(delta);
      j1 := B.Cmp(b, delta);
    }
  }

  /** The comparison of b with half of S. */
  method CompareHalf(b: B.Bigint, S: B.Bigint) returns (j: int)
    requires Remainder(b) && b.Val() > 0 && Divisor(S)
    ensures D.SignOf(j, 2 * b.Val() - S.Val())
  {
    NoWords(b);
    var twice := B.LShift(b, 1);
    assert Pow2(1) == 2 by { assert Pow2(0) == 1; }
    hide Pow2, Num, Pow, AllWords;
    NoWords(twice);
    j := B.Cmp(twice, S);
  }

  /** Ten times the remainder and the two distances; mlo and mhi may be the same object. */
  method TenTimes(b: B.Bigint, mlo: B.Bigint, mhi: B.Bigint) returns (b': B.Bigint, mlo': B.Bigint, mhi': B.Bigint)
    requires Remainder(b) && b.Val() > 0 && Positive(mlo) && Positive(mhi)
    requires Apart(b, mlo) && Apart(b, mhi) && (mlo != mhi ==> mlo.x != mhi.x)
    modifies b, b.x, mlo, mlo.x, mhi, mhi.x
    ensures (b' == b || (fresh(b') && fresh(b'.x))) && (mlo' == mlo || (fresh(mlo') && fresh(mlo'.x)))
    ensures mhi' == mhi || (fresh(mhi') && fresh(mhi'.x))
    ensures b'.Normal() && Positive(mlo') && Positive(mhi') && Apart(b', mlo') && Apart(b', mhi')
            && (mlo' != mhi' ==> mlo'.x != mhi'.x)
    ensures b'.Val() == 10 * old(b.Val()) && mlo'.Val() == 10 * old(mlo.Val()) && mhi'.Val() == 10 * old(mhi.Val())
  {
    hide Pow2, Num, Pow, AllWords;
    NoWords(b);
    b' := B.MultAdd(b, 10, 0);
    if mlo == mhi {
      mhi' := B.MultAdd(mhi, 10, 0);
      mlo' := mhi';
    } else {
      mlo' := B.MultAdd(mlo, 10, 0);
      mhi' := B.MultAdd(mhi, 10, 0);
    }
  }

  lemma Division(b: int, dig: int, S: int, r: int)
    requires S > 0 && b == dig * S + r && 0 <= r < S
    ensures dig == D.Quot(b, S) && r == D.Rem(b, S)
  {
    var q := b / S;
    assert b == q * S + b % S;
    if dig < q { MulLe(dig + 1, q, S); }
    if q < dig { MulLe(q + 1, dig, S); }
  }

  /** The number that the big integers stand for. */
  ghost function NumberOf(b: B.Bigint, S: B.Bigint, mlo: B.Bigint, mhi: B.Bigint, even: bool): D.Number
    requires b.Valid() && S.Valid() && mlo.Valid() && mhi.Valid()
    reads b, b.x, S, S.x, mlo, mlo.x, mhi, mhi.x
  {
    D.Number(b.Val(), S.Val(), mlo.Val(), mhi.Val(), even)
  }

  /** The four numbers of a round; only mlo and mhi may be the same object. */
  ghost predicate Round(b: B.Bigint, S: B.Bigint, mlo: B.Bigint, mhi: B.Bigint)
    reads b, b.x, S, S.x, mlo, mlo.x, mhi, mhi.x
  {
    && b.Normal() && Divisor(S) && Positive(mlo) && Positive(mhi)
    && Apart(b, S) && Apart(b, mlo) && Apart(b, mhi) && Apart(mlo, S) && Apart(mhi, S)
    && (mlo != mhi ==> mlo.x != mhi.x)
  }

  /** The tie at ten, where it is seen: a remainder of zero of a one-word S has no words, and is then taken to be less
      than the zero S - mhi. */
  ghost predicate Passes(x: D.Number, oneWord: bool)
    requires x.S > 0
  {
    D.PassesOver9(x) && !(D.Rem(x.b, x.S) == 0 && oneWord)
  }

  lemma Unseen(x: D.Number, ds: seq<int>, b: int, mlo: int, mhi: int, dig: int, r: int, off: bool, oneWord: bool)
    requires x.Valid() && D.Progress(x, ds, b, mlo, mhi) && dig == D.Quot(b, x.S) && r == D.Rem(b, x.S)
    requires off ==> r == 0 && oneWord && x.S == mhi
    requires r == 0 && oneWord && b > 0 && x.S == mhi ==> off
    ensures Passes(x, oneWord) == (D.PassesOver9(x) && !(off && ds == []))
  {
    D.DigitMeans(x, ds, b, mlo, mhi, dig, r);
    D.PassesMeans(x, ds, b, mlo, mhi, dig, r);
    hide D.Inside, D.Value, D.Pow10;
    if D.PassesOver9(x) { assert b == x.b && x.S - r == mhi; }
  }

  lemma SmallRemainder(x: D.Number, ds: seq<int>, b: int, mlo: int, mhi: int)
    requires x.Valid() && D.Progress(x, ds, b, mlo, mhi)
    ensures 0 <= b < 10 * x.S
  {
  }

  /** One round up to the multiplications. */
  method OneRound(b: B.Bigint, S: B.Bigint, mlo: B.Bigint, mhi: B.Bigint, even: bool, ghost x: D.Number, ds: seq<int>)
    returns (done: bool, out: seq<int>, carry: bool)
    requires Round(b, S, mlo, mhi) && x.Valid() && x.S == S.Val() && x.even == even
             && D.Progress(x, ds, b.Val(), mlo.Val(), mhi.Val())
    modifies b, b.x
    ensures Remainder(b) && Divisor(S) && Positive(mlo) && Positive(mhi)
    ensures S.Val() == old(S.Val()) && mlo.Val() == old(mlo.Val()) && mhi.Val() == old(mhi.Val()) && S.wds == old(S.wds)
    ensures done ==> D.Good(x, out, carry, Passes(x, S.wds == 1))
    ensures !done ==>
            !carry && mlo.Val() <= b.Val() < S.Val() && D.Progress(x, out, b.Val() * 10, mlo.Val() * 10, mhi.Val() * 10)
  {
    hide D.Progress, D.Good, D.PassesOver9, D.Quot, D.Rem, Passes, Pow2, Num, Pow, AllWords;
    SmallRemainder(x, ds, b.Val(), mlo.Val(), mhi.Val());
    ghost var was, lo, hi := b.Val(), mlo.Val(), mhi.Val();
    var dig, j, j1 := Compare(b, S, mlo, mhi);
    ghost var r, off := b.Val(), b.wds == 0 && S.Val() == mhi.Val();
    Division(was, dig, S.Val(), r);
    Unseen(x, ds, was, lo, hi, dig, r, off, S.wds == 1);
    var z := IsZero(b);
    var half := 0;
    if !z && j1 > 0 {
      half := CompareHalf(b, S);
    }
    done, out, carry := D.Judge(x, ds, was, lo, hi, dig, r, even, j, j1, z, half, off, Passes(x, S.wds == 1));
  }

  /** One round, with the multiplications if it is not the last. */
  method FullRound(b: B.Bigint, S: B.Bigint, mlo: B.Bigint, mhi: B.Bigint, even: bool, ghost x: D.Number, ds: seq<int>)
    returns (done: bool, out: seq<int>, carry: bool, b': B.Bigint, mlo': B.Bigint, mhi': B.Bigint)
    requires Round(b, S, mlo, mhi) && x.Valid() && x.S == S.Val() && x.even == even
             && D.Progress(x, ds, b.Val(), mlo.Val(), mhi.Val())
    modifies b, b.x, mlo, mlo.x, mhi, mhi.x
    ensures S.wds == old(S.wds) && (done ==> D.Good(x, out, carry, Passes(x, S.wds == 1)))
    ensures (b' == b || (fresh(b') && fresh(b'.x))) && (mlo' == mlo || (fresh(mlo') && fresh(mlo'.x)))
    ensures mhi' == mhi || (fresh(mhi') && fresh(mhi'.x))
    ensures !done ==> Round(b', S, mlo', mhi') && S.Val() == x.S && D.Progress(x, out, b'.Val(), mlo'.Val(), mhi'.Val())
    ensures !done ==> old(mlo.Val()) < mlo'.Val() && old(mlo.Val()) < x.S
  {
    hide D.Progress, D.Good, Passes, Pow2, Num, Pow, AllWords;
    b', mlo', mhi' := b, mlo, mhi;
    done, out, carry := OneRound(b, S, mlo, mhi, even, x, ds);
    if !done {
      b', mlo', mhi' := TenTimes(b, mlo, mhi);
    }
  }

  /** The digit loop over big integers prints what the one over integers does. */
  method Shortest(b0: B.Bigint, S: B.Bigint, mlo0: B.Bigint, mhi0: B.Bigint, even: bool)
      returns (ds: seq<int>, carry: bool)
    requires Round(b0, S, mlo0, mhi0) && NumberOf(b0, S, mlo0, mhi0, even).Valid()
    modifies b0, b0.x, mlo0, mlo0.x, mhi0, mhi0.x
    ensures D.Good(old(NumberOf(b0, S, mlo0, mhi0, even)),
                   ds, carry, Passes(old(NumberOf(b0, S, mlo0, mhi0, even)), S.wds == 1))
  {
    ghost var x := NumberOf(b0, S, mlo0, mhi0, even);
    D.Begin(x);
    hide D.Progress, D.Good, Passes, Pow2, Num, Pow, AllWords;
    var b, mlo, mhi := b0, mlo0, mhi0;
    var done := false;
    ds, carry := [], false;
    ghost var words := S.wds;
    while !done
      invariant b in {b0} || fresh(b)
      invariant b.x in {b0.x} || fresh(b.x)
      invariant mlo in {mlo0} || fresh(mlo)
      invariant mlo.x in {mlo0.x} || fresh(mlo.x)
      invariant mhi in {mhi0} || fresh(mhi)
      invariant mhi.x in {mhi0.x} || fresh(mhi.x)
      invariant S.wds == words
      invariant done ==> D.Good(x, ds, carry, Passes(x, words == 1))
      invariant !done ==> Round(b, S, mlo, mhi) && S.Val() == x.S && D.Progress(x, ds, b.Val(), mlo.Val(), mhi.Val())
      decreases !done, if done then 0 else 10 * x.S - mlo.Val()
    {
      done, ds, carry, b, mlo, mhi := FullRound(b, S, mlo, mhi, even, x, ds);
    }
  }
}
