/**
 The frame table: written by the LLVM plugin smlsharp_gc.cpp as a stream of bytes, read back by top.c when a module
 is loaded, sorted, and searched with the return addresses of a stack.
 */
module FrameTable {

  /** What the compiler knows of a function: the offsets of its safe points from the base of the module, its frame size
      and the stack offsets of its roots, all in bytes. */
  datatype Function = Function(points: seq<int>, frameSize: int, roots: seq<int>)

  const PTR := 8
  const WORD := 0x1_0000_0000_0000_0000

  // ---------------------------------------------------------------- bytes

  function Pow256(k: nat): (p: nat)
    ensures p > 0
  {
    if k == 0 then 1 else 256 * Pow256(k - 1)
  }

  /** k bytes of v, the least significant first. */
  function Bytes(v: int, k: nat): (s: seq<int>)
    ensures |s| == k
    decreases k
  {
    if k == 0 then [] else [v % 256] + Bytes(v / 256, k - 1)
  }

  /** The number in the k bytes of s from position t on. */
  function Read(s: seq<int>, t: nat, k: nat): int
    requires t + k <= |s|
    decreases k
  {
    if k == 0 then 0 else s[t] + 256 * Read(s, t + 1, k - 1)
  }

  lemma {:induction false} ReadBytes(s: seq<int>, t: nat, v: int, k: nat)
    requires t + k <= |s| && s[t..t + k] == Bytes(v, k)
    ensures Read(s, t, k) == v % Pow256(k)
    decreases k
  {
    if k > 0 {
      assert s[t] == s[t..t + k][0] == v % 256;
      assert s[t + 1..t + 1 + (k - 1)] == s[t..t + k][1..] == Bytes(v / 256, k - 1);
      ReadBytes(s, t + 1, v / 256, k - 1);
      ModSplit(v, Pow256(k - 1));
    }
  }

  lemma ModSplit(v: int, p: int)
    requires p > 0
    ensures v % (256 * p) == v % 256 + 256 * ((v / 256) % p)
  {
    var q, r := v / 256, v % 256;
    var a, b := q / p, q % p;
    assert v == 256 * q + r && q == a * p + b;
    assert v == a * (256 * p) + (256 * b + r);
    ModUnique(v, 256 * p, a, 256 * b + r);
  }

  lemma ModUnique(v: int, m: int, a: int, r: int)
    requires m > 0 && v == a * m + r && 0 <= r < m
    ensures v % m == r
  {
    var q := v / m;
    assert v == q * m + v % m;
    Multiple(a - q, m);
    Multiple(q - a, m);
    assert (a - q) * m == v % m - r && (q - a) * m == r - v % m;
  }

  lemma Multiple(k: int, m: int)
    requires m > 0
    ensures k > 0 ==> k * m >= m
    ensures k == 0 ==> k * m == 0
  {
    if k > 0 { assert (k - 1) * m >= 0; }
  }

  lemma Pow256Values()
    ensures Pow256(2) == 0x1_0000 && Pow256(8) == WORD
  {
    assert Pow256(2) == 0x1_0000;
    assert Pow256(4) == 0x1_0000_0000;
    assert Pow256(6) == 0x1_0000_0000_0000;
  }

  // ---------------------------------------------------------------- the format

  /** The value fits into 16 bits when counted in units. */
  predicate Fits(value: int, unit: int)
    requires unit > 0
  {
    0 <= value && value % unit == 0 && value / unit < 0x1_0000
  }

  predicate AreBytes(s: seq<int>) { forall b <- s :: 0 <= b < 256 }

  /** Two bytes stand for the value, counted in units. */
  ghost predicate InTwoBytes(value: int, unit: int) {
    exists s: seq<int> :: AreBytes(s) && |s| == 2 && value == unit * Read(s, 0, 2)
  }

  /** The bytes describe the function: the number of its safe points, its frame size, and the number and the offsets of
      its roots, sizes and offsets in words. */
  predicate Says(s: seq<int>, f: Function) {
    && AreBytes(s) && |s| == 6 + 2 * |f.roots|
    && |f.points| == Read(s, 0, 2) && f.frameSize == PTR * Read(s, 2, 2) && |f.roots| == Read(s, 4, 2)
    && forall i :: 0 <= i < |f.roots| ==> f.roots[i] == PTR * Read(s, 6 + 2 * i, 2)
  }

  /** There is a descriptor for the function, if it needs one. */
  ghost predicate Accepted(f: Function) { f.points != [] ==> exists s :: Says(s, f) }

  function Units(s: seq<int>, unit: int): seq<int>
    requires unit > 0
  {
    if s == [] then [] else Units(s[..|s| - 1], unit) + Bytes(s[|s| - 1] / unit, 2)
  }

  function Words(s: seq<int>): seq<int> {
    if s == [] then [] else Words(s[..|s| - 1]) + Bytes(s[|s| - 1], PTR)
  }

  function Padding(n: nat): seq<int> { seq((PTR - n % PTR) % PTR, _ => 0) }

  /** The descriptor of a function that has safe points. */
  function Head(f: Function): seq<int> {
    Bytes(|f.points|, 2) + Bytes(f.frameSize / PTR, 2) + Bytes(|f.roots|, 2) + Units(f.roots, PTR)
  }

  function Encode(f: Function): seq<int> {
    if f.points == [] then [] else Head(f) + Padding(|Head(f)|) + Words(f.points)
  }

  function EncodeAll(fs: seq<Function>): seq<int> {
    if fs == [] then [] else EncodeAll(fs[..|fs| - 1]) + Encode(fs[|fs| - 1])
  }

  lemma {:induction false} UnitsLength(s: seq<int>, unit: int)
    requires unit > 0
    ensures |Units(s, unit)| == 2 * |s|
  {
    if s != [] { UnitsLength(s[..|s| - 1], unit); }
  }

  lemma {:induction false} WordsLength(s: seq<int>)
    ensures |Words(s)| == PTR * |s|
  {
    if s != [] { WordsLength(s[..|s| - 1]); }
  }

  /** x rounded up to a multiple of the word size. */
  function Ceiling(x: nat): nat { (x + PTR - 1) / PTR * PTR }

  lemma PaddingLength(n: nat)
    ensures n + |Padding(n)| == Ceiling(n)
  {
  }

  lemma EncodeLength(f: Function)
    ensures |Encode(f)| % PTR == 0
    ensures |Head(f)| == 6 + 2 * |f.roots|
    ensures f.points != [] ==> |Encode(f)| == Ceiling(|Head(f)|) + PTR * |f.points|
  {
    hide Padding, Bytes, Units, Words;
    UnitsLength(f.roots, PTR);
    WordsLength(f.points);
    PaddingLength(|Head(f)|);
  }

  lemma {:induction false} EncodeAllLength(fs: seq<Function>)
    ensures |EncodeAll(fs)| % PTR == 0
  {
    hide Encode;
    if fs != [] {
      EncodeAllLength(fs[..|fs| - 1]);
      EncodeLength(fs[|fs| - 1]);
    }
  }

  // ---------------------------------------------------------------- what can be described

  lemma InFront(u: seq<int>, rest: seq<int>, lo: nat, hi: nat)
    requires lo <= hi <= |u|
    ensures (u + rest)[lo..hi] == u[lo..hi]
  {
  }

  lemma {:induction false} UnitAt(u: seq<int>, unit: int, i: nat)
    requires unit > 0 && i < |u|
    ensures |Units(u, unit)| == 2 * |u| && Units(u, unit)[2 * i..2 * i + 2] == Bytes(u[i] / unit, 2)
  {
    UnitsLength(u, unit);
    var n := |u| - 1;
    var last := Bytes(u[n] / unit, 2);
    UnitsLength(u[..n], unit);
    assert Units(u, unit) == Units(u[..n], unit) + last;
    hide Bytes, Units;
    if i < n {
      UnitAt(u[..n], unit, i);
      InFront(Units(u[..n], unit), last, 2 * i, 2 * i + 2);
    }
  }

  lemma Shifted(a: seq<int>, u: seq<int>, rest: seq<int>, lo: nat, hi: nat)
    requires lo <= hi <= |u|
    ensures (a + u + rest)[|a| + lo..|a| + hi] == u[lo..hi]
  {
  }

  /** Byte i of a number is its digit i to the base 256. */
  lemma {:induction false} ByteAt(v: int, k: nat, i: nat)
    requires i < k
    ensures Bytes(v, k)[i] == (v / Pow256(i)) % 256
    decreases i
  {
    if i > 0 {
      ByteAt(v / 256, k - 1, i - 1);
      DivSplit(v, Pow256(i - 1));
    }
  }

  lemma DivSplit(v: int, p: int)
    requires p > 0
    ensures v / 256 / p == v / (256 * p)
  {
    ModSplit(v, p);
    var q := v / 256;
    assert v == 256 * q + v % 256 && q == q / p * p + q % p;
    assert v == v / (256 * p) * (256 * p) + v % (256 * p);
    assert (q / p - v / (256 * p)) * (256 * p) == 0;
    Multiple(q / p - v / (256 * p), 256 * p);
    Multiple(v / (256 * p) - q / p, 256 * p);
  }

  lemma {:induction false} BytesAreBytes(v: int, k: nat)
    ensures AreBytes(Bytes(v, k))
    decreases k
  {
    if k > 0 { BytesAreBytes(v / 256, k - 1); }
  }

  lemma {:induction false} UnitsAreBytes(u: seq<int>, unit: int)
    requires unit > 0
    ensures AreBytes(Units(u, unit))
  {
    if u != [] {
      UnitsAreBytes(u[..|u| - 1], unit);
      BytesAreBytes(u[|u| - 1] / unit, 2);
    }
  }

  /** Two bytes of a descriptor read as the value written. */
  lemma ReadUnits(s: seq<int>, t: nat, v: int, unit: int)
    requires unit > 0 && Fits(v, unit) && t + 2 <= |s| && s[t..t + 2] == Bytes(v / unit, 2)
    ensures v == unit * Read(s, t, 2)
  {
    ReadBytes(s, t, v / unit, 2);
    Pow256Values();
    assert v == v / unit * unit + v % unit;
  }

  /** What two bytes stand for fits. */
  lemma ReadFits(s: seq<int>, t: nat, unit: int)
    requires unit > 0 && AreBytes(s) && t + 2 <= |s|
    ensures Fits(unit * Read(s, t, 2), unit)
  {
    assert Read(s, t + 1, 1) == s[t + 1] + 256 * Read(s, t + 2, 0);
    assert s[t] in s && s[t + 1] in s;
    Exactly(Read(s, t, 2), unit);
  }

  lemma Exactly(q: int, unit: int)
    requires unit > 0
    ensures unit * q / unit == q && unit * q % unit == 0 && (q >= 0 ==> unit * q >= 0)
  {
    ModUnique(unit * q, unit, q, 0);
    var d := unit * q / unit - q;
    assert d * unit == 0;
    Multiple(d, unit);
    Multiple(-d, unit);
  }

  /** A value is refused exactly when two bytes cannot hold it. */
  lemma FitsMeans(value: int, unit: int)
    requires unit > 0
    ensures Fits(value, unit) <==> InTwoBytes(value, unit)
  {
    if Fits(value, unit) {
      var s := Bytes(value / unit, 2);
      assert s[0..2] == s;
      BytesAreBytes(value / unit, 2);
      ReadUnits(s, 0, value, unit);
    }
    if InTwoBytes(value, unit) {
      var s :| AreBytes(s) && |s| == 2 && value == unit * Read(s, 0, 2);
      ReadFits(s, 0, unit);
    }
  }

  /** A function is accepted exactly when its count, its frame size, the number of its roots and every root fit. */
  lemma AcceptedFits(f: Function)
    ensures Accepted(f) <==>
              (f.points != [] ==> Fits(|f.points|, 1) && Fits(f.frameSize, PTR) && Fits(|f.roots|, 1)
                                  && forall r <- f.roots :: Fits(r, PTR))
  {
    hide Fits, Read;
    if f.points != [] {
      if Accepted(f) {
        var s :| Says(s, f);
        SaysFits(s, f);
      }
      if Fits(|f.points|, 1) && Fits(f.frameSize, PTR) && Fits(|f.roots|, 1) && forall r <- f.roots :: Fits(r, PTR) {
        HeadSays(f);
      }
    }
  }

  lemma AcceptedBytes(f: Function)
    ensures Accepted(f) <==>
              (f.points != [] ==> InTwoBytes(|f.points|, 1) && InTwoBytes(f.frameSize, PTR) && InTwoBytes(|f.roots|, 1)
                                  && forall r <- f.roots :: InTwoBytes(r, PTR))
  {
    hide Fits, InTwoBytes, Accepted;
    AcceptedFits(f);
    FitsMeans(|f.points|, 1);
    FitsMeans(f.frameSize, PTR);
    FitsMeans(|f.roots|, 1);
    forall r <- f.roots ensures Fits(r, PTR) <==> InTwoBytes(r, PTR) { FitsMeans(r, PTR); }
  }

  lemma SaysFits(s: seq<int>, f: Function)
    requires Says(s, f)
    ensures Fits(|f.points|, 1) && Fits(f.frameSize, PTR) && Fits(|f.roots|, 1) && forall r <- f.roots :: Fits(r, PTR)
  {
    hide Fits, Read;
    ReadFits(s, 0, 1);
    ReadFits(s, 2, PTR);
    ReadFits(s, 4, 1);
    forall i | 0 <= i < |f.roots| ensures Fits(f.roots[i], PTR) { ReadFits(s, 6 + 2 * i, PTR); }
  }

  lemma HeadSays(f: Function)
    requires Fits(|f.points|, 1) && Fits(f.frameSize, PTR) && Fits(|f.roots|, 1) && forall r <- f.roots :: Fits(r, PTR)
    ensures Says(Head(f), f)
  {
    hide Fits, Read, Bytes, Units;
    var a, b, c, u := Bytes(|f.points|, 2), Bytes(f.frameSize / PTR, 2), Bytes(|f.roots|, 2), Units(f.roots, PTR);
    var s := Head(f);
    UnitsLength(f.roots, PTR);
    BytesAreBytes(|f.points|, 2);
    BytesAreBytes(f.frameSize / PTR, 2);
    BytesAreBytes(|f.roots|, 2);
    UnitsAreBytes(f.roots, PTR);
    assert s[0..2] == a && s[2..4] == b && s[4..6] == c;
    ReadUnits(s, 0, |f.points|, 1);
    ReadUnits(s, 2, f.frameSize, PTR);
    ReadUnits(s, 4, |f.roots|, 1);
    forall i | 0 <= i < |f.roots| ensures f.roots[i] == PTR * Read(s, 6 + 2 * i, 2) {
      UnitAt(f.roots, PTR, i);
      Shifted(a + b + c, u, [], 2 * i, 2 * i + 2);
      assert s == a + b + c + u + [];
      ReadUnits(s, 6 + 2 * i, f.roots[i], PTR);
    }
  }

  // ---------------------------------------------------------------- the encoder

  /** The output stream of the assembler, from the label of the table on; failed is report_fatal_error. */
  class Stream {
    var out: seq<int>
    var failed: bool

    constructor ()
      ensures out == [] && !failed
    {
      out, failed := [], false;
    }

    method EmitUInt16(value: int, unit: int)
      requires unit > 0
      modifies this
      ensures failed == (old(failed) || !InTwoBytes(value, unit))
      ensures !failed ==> out == old(out) + Bytes(value / unit, 2)
    {
      FitsMeans(value, unit);
      if value < 0 || value % unit != 0 || value / unit >= 65536 {
        failed := true;
      } else {
        out := out + Bytes(value / unit, 2);
      }
    }

    method EmitValueToAlignment()
      modifies this`out
      ensures out == old(out) + Padding(|old(out)|)
    {
      ghost var start := out;
      while |out| % PTR != 0
        invariant |start| <= |out| <= |start| + |Padding(|start|)|
        invariant out == start + seq(|out| - |start|, _ => 0)
        decreases |start| + |Padding(|start|)| - |out|
      {
        out := out + [0];
      }
    }

    /** The three fixed fields and the root offsets. */
    method EmitHead(f: Function)
      modifies this
      ensures failed == (old(failed) || !InTwoBytes(|f.points|, 1) || !InTwoBytes(f.frameSize, PTR)
                         || !InTwoBytes(|f.roots|, 1) || exists r :: r in f.roots && !InTwoBytes(r, PTR))
      ensures !failed ==> out == old(out) + Head(f)
    {
      hide InTwoBytes;
      ghost var start := out;
      EmitUInt16(|f.points|, 1);
      EmitUInt16(f.frameSize, PTR);
      EmitUInt16(|f.roots|, 1);
      ghost var fixed := Bytes(|f.points|, 2) + Bytes(f.frameSize / PTR, 2) + Bytes(|f.roots|, 2);
      ghost var failed0 := failed;
      assert !failed ==> out == start + fixed;
      hide Bytes;
      for i := 0 to |f.roots|
        invariant failed == (failed0 || exists r :: r in f.roots[..i] && !InTwoBytes(r, PTR))
        invariant !failed ==> out == start + (fixed + Units(f.roots[..i], PTR))
      {
        EmitUInt16(f.roots[i], PTR);
        assert f.roots[..i + 1] == f.roots[..i] + [f.roots[i]];
        assert f.roots[..i + 1][..i] == f.roots[..i];
      }
      assert f.roots[..|f.roots|] == f.roots;
    }

    /** EmitFunctionInfo: nothing for a function without safe points. */
    method EmitFunctionInfo(f: Function)
      requires |out| % PTR == 0
      modifies this
      ensures failed == (old(failed) || !Accepted(f))
      ensures !failed ==> out == old(out) + Encode(f)
    {
      AcceptedBytes(f);
      hide Head, InTwoBytes, Accepted, Padding, Bytes;
      if |f.points| == 0 {
        return;
      }
      ghost var start := out;
      EmitHead(f);
      EmitValueToAlignment();
      assert !failed ==> out == start + (Head(f) + Padding(|Head(f)|)) by { SamePadding(start, Head(f)); }
      EmitPoints(f.points);
      assert !failed ==> out == start + Encode(f);
    }

    method EmitPoints(points: seq<int>)
      modifies this`out
      ensures out == old(out) + Words(points)
    {
      hide Bytes;
      ghost var start := out;
      for i := 0 to |points|
        invariant out == start + Words(points[..i])
      {
        out := out + Bytes(points[i], PTR);
        assert points[..i + 1][..i] == points[..i];
      }
      assert points[..|points|] == points;
    }

    /** finishAssembly: all functions, then the terminator. */
    method FinishAssembly(fs: seq<Function>)
      requires out == [] && !failed
      modifies this
      ensures failed <==> exists f :: f in fs && !Accepted(f)
      ensures !failed ==> out == EncodeAll(fs) + [0, 0]
    {
      hide Accepted, Encode, Padding;
      for i := 0 to |fs|
        invariant failed <==> exists f :: f in fs[..i] && !Accepted(f)
        invariant |out| % PTR == 0 && (!failed ==> out == EncodeAll(fs[..i]))
      {
        EmitFunctionInfo(fs[i]);
        EncodeAllLength(fs[..i + 1]);
        assert fs[..i + 1] == fs[..i] + [fs[i]] && fs[..i + 1][..i] == fs[..i];
        NoPadding(|out|);
        EmitValueToAlignment();
      }
      assert fs[..|fs|] == fs;
      EmitUInt16(0, 1);
      assert Bytes(0, 2) == [0] + Bytes(0, 1) == [0, 0];
    }
  }

  lemma NoPadding(n: nat)
    ensures n % PTR == 0 ==> Padding(n) == []
    ensures (n + |Padding(n)|) % PTR == 0
  {
  }

  /** Padding after a head that begins aligned depends on the head alone. */
  lemma SamePadding(start: seq<int>, head: seq<int>)
    requires |start| % PTR == 0
    ensures Padding(|start + head|) == Padding(|head|)
            && start + head + Padding(|head|) == start + (head + Padding(|head|))
  {
  }
}
