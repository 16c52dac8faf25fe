/**
 The reader of the frame table, top.c: decoding at load time, sorting, and the binary search that maps a return
 address to the layout of its frame.
 */
module FrameLookup {
  import opened Wrappers
  import opened FrameTable

  // ---------------------------------------------------------------- reading one descriptor

  /** A pointer to a descriptor: a table and a position in it. */
  datatype Layout = Layout(table: seq<int>, at: nat)

  function NumSafePoints(s: seq<int>, t: nat): int
    requires t + 2 <= |s|
  {
    Read(s, t, 2)
  }

  function FrameSize(s: seq<int>, t: nat): int
    requires t + 6 <= |s|
  {
    Read(s, t + 2, 2)
  }

  function NumRoots(s: seq<int>, t: nat): int
    requires t + 6 <= |s|
  {
    Read(s, t + 4, 2)
  }

  /** SAFE_POINTS_OFFSET, the size of the fixed part and the root offsets rounded up to a word. */
  function SafePointsOffset(s: seq<int>, t: nat): int
    requires t + 6 <= |s| && NumRoots(s, t) >= 0
  {
    Ceiling(6 + 2 * NumRoots(s, t))
  }

  /** A word read as a signed number. */
  function Signed(x: int): (r: int)
    ensures 0 <= x < WORD ==> -(WORD / 2) <= r < WORD / 2 && (r == x || r == x - WORD)
  {
    if x < WORD / 2 then x else x - WORD
  }

  /** The layout describes f: its frame size and its root offsets, in words. */
  predicate Describes(l: Layout, f: Function) {
    var s, t := l.table, l.at;
    && t + 6 + 2 * |f.roots| <= |s|
    && FrameSize(s, t) * PTR == f.frameSize
    && NumRoots(s, t) == |f.roots|
    && forall i :: 0 <= i < |f.roots| ==> Root(s, t, i) * PTR == f.roots[i]
  }

  function Root(s: seq<int>, t: nat, i: nat): int
    requires t + 6 + 2 * i + 2 <= |s|
  {
    Read(s, t + 6 + 2 * i, 2)
  }

  // ---------------------------------------------------------------- a table as a sequence of descriptors

  /** A table the encoder wrote for functions that all have safe points. */
  ghost predicate Table(s: seq<int>, fs: seq<Function>) {
    && s == EncodeAll(fs) + [0, 0]
    && forall f :: f in fs ==> Accepted(f) && f.points != []
  }

  function Live(fs: seq<Function>): seq<Function> {
    if fs == [] then []
    else Live(fs[..|fs| - 1]) + if fs[|fs| - 1].points == [] then [] else [fs[|fs| - 1]]
  }

  lemma {:induction false} LiveMembers(fs: seq<Function>)
    ensures forall f :: f in Live(fs) <==> f in fs && f.points != []
  {
    if fs != [] {
      var n := |fs| - 1;
      LiveMembers(fs[..n]);
      assert fs == fs[..n] + [fs[n]];
    }
  }

  /** Functions without safe points leave no trace. */
  lemma {:induction false} OnlyLive(fs: seq<Function>)
    ensures EncodeAll(Live(fs)) == EncodeAll(fs)
  {
    hide Encode;
    if fs != [] {
      var n := |fs| - 1;
      OnlyLive(fs[..n]);
      if fs[n].points == [] {
        NoTrace(fs[n]);
        assert Live(fs) == Live(fs[..n]);
      } else {
        var live := Live(fs);
        assert live == Live(fs[..n]) + [fs[n]];
        assert live[..|live| - 1] == Live(fs[..n]) && live[|live| - 1] == fs[n];
      }
    }
  }

  /** What finishAssembly writes is a table of the functions with safe points. */
  lemma EncoderWritesTables(fs: seq<Function>)
    requires forall f :: f in fs ==> Accepted(f)
    ensures Table(EncodeAll(fs) + [0, 0], Live(fs))
  {
    hide Accepted, EncodeAll, Live;
    LiveMembers(fs);
    OnlyLive(fs);
  }

  lemma NoTrace(f: Function)
    ensures f.points == [] ==> Encode(f) == []
  {
  }

  lemma {:induction false} PrefixOfAll(fs: seq<Function>, k: nat)
    requires k <= |fs|
    ensures EncodeAll(fs[..k]) <= EncodeAll(fs)
  {
    hide Encode;
    if k == |fs| {
      assert fs[..k] == fs;
    } else {
      assert fs[..|fs| - 1][..k] == fs[..k];
      PrefixOfAll(fs[..|fs| - 1], k);
    }
  }

  /** Where descriptor k of the table begins. */
  function Start(fs: seq<Function>, k: nat): nat
    requires k <= |fs|
  {
    |EncodeAll(fs[..k])|
  }

  lemma Descriptor(s: seq<int>, fs: seq<Function>, k: nat)
    requires Table(s, fs) && k < |fs|
    ensures Start(fs, k + 1) == Start(fs, k) + |Encode(fs[k])| <= |s| - 2
    ensures s[Start(fs, k)..Start(fs, k + 1)] == Encode(fs[k])
  {
    hide Encode, Accepted;
    PrefixOfAll(fs, k + 1);
    assert fs[..k + 1][..k] == fs[..k];
    assert EncodeAll(fs[..k + 1]) == EncodeAll(fs[..k]) + Encode(fs[k]);
    assert s[..Start(fs, k + 1)] == EncodeAll(fs[..k + 1]);
    assert s[Start(fs, k)..Start(fs, k + 1)] == s[..Start(fs, k + 1)][Start(fs, k)..];
  }

  lemma Terminator(s: seq<int>, fs: seq<Function>)
    requires Table(s, fs)
    ensures Start(fs, |fs|) + 2 == |s| && NumSafePoints(s, Start(fs, |fs|)) == 0
  {
    assert fs[..|fs|] == fs;
    assert Read(s, |s| - 1, 1) == 0;
  }

  // ---------------------------------------------------------------- the fields of one descriptor

  lemma {:induction false} WordAt(w: seq<int>, i: nat)
    requires i < |w|
    ensures |Words(w)| == 8 * |w| && Words(w)[8 * i..8 * i + 8] == Bytes(w[i], 8)
  {
    hide Bytes;
    WordsLength(w);
    var n := |w| - 1;
    WordsLength(w[..n]);
    if i < n {
      WordAt(w[..n], i);
      assert Words(w)[8 * i..8 * i + 8] == Words(w[..n])[8 * i..8 * i + 8];
    }
  }

  /** A part of an encoding, seen at its place in the table. */
  lemma Part(s: seq<int>, t: nat, e: seq<int>, a: nat, b: nat, part: seq<int>)
    requires t + |e| <= |s| && s[t..t + |e|] == e
    requires a <= b <= |e| && e[a..b] == part
    ensures s[t + a..t + b] == part
  {
    var w := s[t..t + |e|];
    forall i | 0 <= i < b - a ensures s[t + a..t + b][i] == w[a..b][i] {
      assert w[a + i] == s[t + (a + i)];
    }
  }

  /** Two bytes of an encoding read back. */
  lemma Short(s: seq<int>, t: nat, e: seq<int>, a: nat, v: int, unit: int)
    requires t + |e| <= |s| && s[t..t + |e|] == e
    requires unit > 0 && a + 2 <= |e| && e[a..a + 2] == Bytes(v / unit, 2) && Fits(v, unit)
    ensures Read(s, t + a, 2) * unit == v
  {
    Part(s, t, e, a, a + 2, Bytes(v / unit, 2));
    ReadBytes(s, t + a, v / unit, 2);
    Pow256Values();
    assert v == v / unit * unit + v % unit;
  }

  lemma Fixed(f: Function)
    requires f.points != []
    ensures |Encode(f)| >= 6 + 2 * |f.roots|
    ensures Encode(f)[0..2] == Bytes(|f.points| / 1, 2)
    ensures Encode(f)[2..4] == Bytes(f.frameSize / PTR, 2)
    ensures Encode(f)[4..6] == Bytes(|f.roots| / 1, 2)
    ensures forall i :: 0 <= i < |f.roots| ==> Encode(f)[6 + 2 * i..6 + 2 * i + 2] == Bytes(f.roots[i] / PTR, 2)
  {
    hide Padding, Bytes, Units, Words;
    EncodeLength(f);
    var a, b, c, u := Bytes(|f.points|, 2), Bytes(f.frameSize / PTR, 2), Bytes(|f.roots|, 2), Units(f.roots, PTR);
    UnitsLength(f.roots, PTR);
    var rest := Padding(|Head(f)|) + Words(f.points);
    assert Encode(f) == a + b + c + u + rest;
    forall i | 0 <= i < |f.roots| ensures Encode(f)[6 + 2 * i..6 + 2 * i + 2] == Bytes(f.roots[i] / PTR, 2) {
      UnitAt(f.roots, PTR, i);
      Shifted(a + b + c, u, rest, 2 * i, 2 * i + 2);
    }
  }

  lemma PointBytes(f: Function, i: nat)
    requires i < |f.points|
    ensures var o := Ceiling(6 + 2 * |f.roots|) + 8 * i;
            o + 8 <= |Encode(f)| && Encode(f)[o..o + 8] == Bytes(f.points[i], 8)
  {
    hide Head, Padding, Bytes, Words;
    EncodeLength(f);
    PaddingLength(|Head(f)|);
    WordAt(f.points, i);
    Shifted(Head(f) + Padding(|Head(f)|), Words(f.points), [], 8 * i, 8 * i + 8);
    assert Encode(f) == Head(f) + Padding(|Head(f)|) + Words(f.points) + [];
  }

  lemma Size(f: Function)
    requires f.points != []
    ensures |Encode(f)| == Ceiling(6 + 2 * |f.roots|) + 8 * |f.points|
  {
    EncodeLength(f);
  }

  /** The round trip of one descriptor: counts, sizes and offsets read back, and the next descriptor is found. */
  lemma ReadsBack(s: seq<int>, fs: seq<Function>, k: nat)
    requires Table(s, fs) && k < |fs|
    ensures var t, f := Start(fs, k), fs[k];
            && t + 6 + 2 * |f.roots| <= |s|
            && NumSafePoints(s, t) == |f.points|
            && Describes(Layout(s, t), f)
            && Start(fs, k + 1) == t + SafePointsOffset(s, t) + 8 * |f.points| <= |s| - 2
  {
    hide Encode, Table, Start, Accepted, EncodeAll, Head, Read;
    var t, f := Start(fs, k), fs[k];
    FitsAll(s, fs, k);
    Descriptor(s, fs, k);
    Fixed(f);
    Size(f);
    Short(s, t, Encode(f), 0, |f.points|, 1);
    Short(s, t, Encode(f), 2, f.frameSize, PTR);
    Short(s, t, Encode(f), 4, |f.roots|, 1);
    forall i | 0 <= i < |f.roots| ensures Root(s, t, i) * PTR == f.roots[i] {
      Short(s, t, Encode(f), 6 + 2 * i, f.roots[i], PTR);
    }
  }

  lemma FitsAll(s: seq<int>, fs: seq<Function>, k: nat)
    requires Table(s, fs) && k < |fs|
    ensures var f := fs[k];
            && f.points != [] && Fits(|f.points|, 1) && Fits(f.frameSize, PTR) && Fits(|f.roots|, 1)
            && forall i :: 0 <= i < |f.roots| ==> Fits(f.roots[i], PTR)
  {
    hide EncodeAll, Fits;
    assert Accepted(fs[k]);
    AcceptedFits(fs[k]);
  }

  /** The address of safe point i. */
  function PointOf(base: int, s: seq<int>, t: nat, i: nat): int
    requires t + 6 <= |s| && NumRoots(s, t) >= 0 && t + SafePointsOffset(s, t) + 8 * i + 8 <= |s|
  {
    (base + Signed(Read(s, t + SafePointsOffset(s, t) + 8 * i, 8))) % WORD
  }

  lemma PointReadsBack(base: int, s: seq<int>, fs: seq<Function>, k: nat, i: nat)
    requires Table(s, fs) && k < |fs| && i < |fs[k].points|
    ensures var t := Start(fs, k);
            && t + 6 <= |s| && NumRoots(s, t) >= 0 && t + SafePointsOffset(s, t) + 8 * i + 8 <= |s|
            && PointOf(base, s, t, i) == (base + fs[k].points[i]) % WORD
  {
    hide Encode, Table, Start, Accepted, EncodeAll, Head, Read;
    var t, f := Start(fs, k), fs[k];
    ReadsBack(s, fs, k);
    Descriptor(s, fs, k);
    PointBytes(f, i);
    var o := SafePointsOffset(s, t) + 8 * i;
    Part(s, t, Encode(f), o, o + 8, Bytes(f.points[i], 8));
    ReadBytes(s, t + o, f.points[i], 8);
    Pow256Values();
    Wraps(base, f.points[i]);
  }

  lemma Wraps(base: int, p: int)
    ensures (base + Signed(p % WORD)) % WORD == (base + p) % WORD
  {
  }

  // ---------------------------------------------------------------- the items of a program

  /** struct safe_point: a code address with the layout of its frame, or, without a layout, a table of top-level
      objects. */
  datatype Item = Item(addr: int, layout: Option<Layout>)

  /** What the loaded program contributes: the address of its code, its frame table and its top-level objects. */
  datatype Program = Program(base: int, ftab: Option<seq<int>>, tops: Option<int>)

  /** The items of the safe points of f, whose descriptor is at t. */
  function PointsOf(base: int, s: seq<int>, f: Function, t: nat): seq<Item> {
    seq(|f.points|, i requires 0 <= i < |f.points| => Item((base + f.points[i]) % WORD, Some(Layout(s, t))))
  }

  /** The items of all functions of a table. */
  function Points(base: int, s: seq<int>, fs: seq<Function>, k: nat): seq<Item>
    requires k <= |fs|
    decreases k
  {
    if k == 0 then [] else Points(base, s, fs, k - 1) + PointsOf(base, s, fs[k - 1], Start(fs, k - 1))
  }

  ghost predicate Written(p: Program, fs: seq<Function>) {
    p.ftab.Some? ==> Table(p.ftab.value, fs)
  }

  function Contribution(p: Program, fs: seq<Function>): seq<Item> {
    (if p.ftab.Some? then Points(p.base, p.ftab.value, fs, |fs|) else [])
    + (if p.tops.Some? then [Item(p.tops.value, None)] else [])
  }

  predicate IsPoint(i: Item) { i.layout.Some? }

  /** cmp_safe_point: safe points before tables of objects, then by address. */
  predicate Before(a: Item, b: Item) {
    if IsPoint(a) != IsPoint(b) then IsPoint(a) else a.addr <= b.addr
  }

  /** What qsort promises of its result: the same items, in the order of cmp_safe_point.  Equal items may come in any
      order. */
  ghost predicate SortedFrom(r: seq<Item>, s: seq<Item>) {
    && multiset(r) == multiset(s)
    && forall i, j :: 0 <= i < j < |r| ==> Before(r[i], r[j])
  }

  function Count(s: seq<Item>): (n: nat)
    ensures n <= |s|
  {
    if s == [] then 0 else Count(s[..|s| - 1]) + if IsPoint(s[|s| - 1]) then 1 else 0
  }

  // ---------------------------------------------------------------- struct sml_gcroot

  class GcRoot {
    var numPoints: nat
    var numTops: nat
    var item: array<Item>

    ghost predicate Valid()
      reads this
    {
      numPoints + numTops <= item.Length
    }

    ghost function Items(): seq<Item>
      reads this, item
      requires Valid()
    {
      item[..numPoints + numTops]
    }

    constructor ()
      ensures Valid() && Items() == [] && numPoints == numTops == 0 && fresh(item)
    {
      numPoints, numTops := 0, 0;
      item := new Item[0];
    }

    /** alloc_safe_points: room for inc more items, all counted as safe points; the old items may move. */
    method AllocSafePoints(inc: nat) returns (dst: nat)
      requires Valid()
      modifies this
      ensures Valid() && numPoints == old(numPoints) + inc && numTops == old(numTops)
      ensures dst == old(numPoints + numTops)
      ensures item[..dst] == old(Items())
      ensures item == old(item) || fresh(item)
    {
      dst := numPoints + numTops;
      if item.Length - dst < inc {
        var page := (dst + inc + 255) / 256 * 256;
        var bigger := new Item[page](i requires 0 <= i < page reads this, item =>
          if i < item.Length then item[i] else Item(0, None));
        item := bigger;
      }
      numPoints := numPoints + inc;
    }

    /** The first loop of sml_gcroot: how many safe points the table has. */
    method CountPoints(s: seq<int>, ghost fs: seq<Function>) returns (inc: nat)
      requires Table(s, fs)
      ensures inc == |Points(0, s, fs, |fs|)|
    {
      hide Table, NumSafePoints, SafePointsOffset;
      inc := 0;
      var t := 0;
      ghost var k := 0;
      Locate(s, fs, 0);
      while NumSafePoints(s, t) > 0
        invariant k <= |fs| && t == Start(fs, k) && t + 2 <= |s|
        invariant k == |fs| <==> NumSafePoints(s, t) == 0
        invariant NumSafePoints(s, t) >= 0
        invariant inc == |Points(0, s, fs, k)|
        decreases |fs| - k
      {
        ReadsBack(s, fs, k);
        inc := inc + NumSafePoints(s, t);
        t := t + SafePointsOffset(s, t) + 8 * NumSafePoints(s, t);
        k := k + 1;
        Locate(s, fs, k);
      }
    }

    /** The safe points of descriptor k, at t, are written from dst on. */
    method FillOne(base: int, s: seq<int>, t: nat, dst: nat, ghost fs: seq<Function>, ghost k: nat)
      requires Table(s, fs) && k < |fs| && t == Start(fs, k)
      requires dst + |fs[k].points| <= item.Length
      modifies item
      ensures item[..dst + |fs[k].points|] == old(item[..dst]) + PointsOf(base, s, fs[k], t)
    {
      hide Table, NumSafePoints, SafePointsOffset, Start, NumRoots, PointOf;
      ReadsBack(s, fs, k);
      ghost var expected := PointsOf(base, s, fs[k], t);
      for i := 0 to NumSafePoints(s, t)
        invariant item[..dst + i] == old(item[..dst]) + expected[..i]
      {
        PointReadsBack(base, s, fs, k, i);
        ghost var before := item[..dst + i];
        item[dst + i] := Item(PointOf(base, s, t, i), Some(Layout(s, t)));
        assert item[..dst + i + 1] == before + [expected[i]];
      }
      assert expected[..|expected|] == expected;
    }

    /** The second loop of sml_gcroot. */
    method Fill(base: int, s: seq<int>, dst: nat, ghost fs: seq<Function>)
      requires Table(s, fs) && dst + |Points(base, s, fs, |fs|)| <= item.Length
      modifies item
      ensures item[..dst + |Points(base, s, fs, |fs|)|] == old(item[..dst]) + Points(base, s, fs, |fs|)
    {
      hide Table, NumSafePoints, SafePointsOffset, Start, PointsOf;
      var t, d := 0, dst;
      ghost var k := 0;
      Locate(s, fs, 0);
      while NumSafePoints(s, t) > 0
        invariant k <= |fs| && t == Start(fs, k) && t + 2 <= |s|
        invariant k == |fs| <==> NumSafePoints(s, t) == 0
        invariant NumSafePoints(s, t) >= 0
        invariant d == dst + |Points(base, s, fs, k)| <= item.Length
        invariant item[..d] == old(item[..dst]) + Points(base, s, fs, k)
        decreases |fs| - k
      {
        ReadsBack(s, fs, k);
        PointsOfLength(base, s, fs[k], t);
        PointsGrow(base, s, fs, k + 1, |fs|);
        ghost var before := item[..d];
        FillOne(base, s, t, d, fs, k);
        d := d + NumSafePoints(s, t);
        t := t + SafePointsOffset(s, t) + 8 * NumSafePoints(s, t);
        k := k + 1;
        Locate(s, fs, k);
      }
    }

    /** sml_gcroot: the items of one program are added; the last one, of the top-level objects, is counted apart. */
    method SmlGcroot(p: Program, ghost fs: seq<Function>)
      requires Valid() && Written(p, fs)
      modifies this, item
      ensures Valid() && Items() == old(Items()) + Contribution(p, fs)
      ensures numTops == old(numTops) + (if p.tops.Some? then 1 else 0)
      ensures item == old(item) || fresh(item)
    {
      hide Table, Start, Points, Contribution;
      ghost var start := Items();
      ghost var points := if p.ftab.Some? then Points(p.base, p.ftab.value, fs, |fs|) else [];
      var inc := 0;
      if p.ftab.Some? {
        inc := CountPoints(p.ftab.value, fs);
        PointsLength(0, p.base, p.ftab.value, fs, |fs|);
      }
      assert inc == |points|;
      var dst := AllocSafePoints(inc + if p.tops.Some? then 1 else 0);
      if p.ftab.Some? {
        Fill(p.base, p.ftab.value, dst, fs);
      }
      assert item[..dst + inc] == start + points;
      if p.tops.Some? {
        PutTops(dst + inc, p.tops.value);
        assert Items() == start + points + [Item(p.tops.value, None)];
      }
      Contributed(p, fs, start);
    }

    method PutTops(dst: nat, tops: int)
      requires Valid() && dst < item.Length && numPoints > 0
      modifies this`numTops, this`numPoints, item
      ensures numTops == old(numTops) + 1 && numPoints == old(numPoints) - 1
      ensures item[..dst + 1] == old(item[..dst]) + [Item(tops, None)]
    {
      item[dst] := Item(tops, None);
      numTops := numTops + 1;
      numPoints := numPoints - 1;
    }
  
    /** sort_safe_points; sorted is what qsort leaves. */
    method SortSafePoints(sorted: seq<Item>)
      requires Valid() && SortedFrom(sorted, Items())
      modifies item
      ensures Items() == sorted
    {
      SameSize(sorted, Items());
      forall i | 0 <= i < numPoints + numTops {
        item[i] := sorted[i];
      }
      assert Items() == sorted;
    }

    /** binary_search among the first len items. */
    method BinarySearch(key: int, len: nat) returns (found: Option<nat>)
      requires len <= item.Length && forall i, j :: 0 <= i < j < len ==> item[i].addr <= item[j].addr
      ensures found.None? ==> forall i :: 0 <= i < len ==> item[i].addr != key
      ensures found.Some? ==> found.value < len && item[found.value].addr == key
    {
      var l, r := 0, len;
      while l < r
        invariant l <= r <= len
        invariant forall i :: 0 <= i < len && (i < l || r <= i) ==> item[i].addr != key
      {
        var c := (l + r) / 2;
        var addr := item[c].addr;
        if addr == key {
          return Some(c);
        } else if addr < key {
          l := c + 1;
        } else {
          r := c;
        }
      }
      return None;
    }

    /** The loop of sml_gcroot_load over the modules of a program. */
    method AddAll(ps: seq<Program>, ghost fss: seq<seq<Function>>)
      requires Valid() && Items() == [] && numTops == 0
      requires |fss| == |ps| && forall j :: 0 <= j < |ps| ==> Written(ps[j], fss[j])
      modifies this, item
      ensures Valid() && Items() == All(ps, fss, |ps|) && numPoints == Count(Items())
      ensures item == old(item) || fresh(item)
    {
      hide Contribution, Written, Count, IsPoint;
      for j := 0 to |ps|
        invariant Valid() && Items() == All(ps, fss, j)
        invariant numPoints == Count(Items())
        invariant item == old(item) || fresh(item)
      {
        ghost var before := Items();
        SmlGcroot(ps[j], fss[j]);
        CountSum(before, Contribution(ps[j], fss[j]));
        CountContribution(ps[j], fss[j]);
      }
    }

    /** What a loaded program offers to a search: the safe points of its modules sorted by address, and behind them the
        tables of top-level objects. */
    ghost predicate Loaded(ps: seq<Program>, fss: seq<seq<Function>>)
      reads this, item
    {
      && Valid()
      && |fss| == |ps| && (forall j :: 0 <= j < |ps| ==> Written(ps[j], fss[j]))
      && SortedFrom(Items(), All(ps, fss, |ps|))
      && numPoints == Count(Items())
    }

    /** sml_gcroot_load, up to the registration. */
    constructor Load(ps: seq<Program>, ghost fss: seq<seq<Function>>, sorted: seq<Item>)
      requires |fss| == |ps| && forall j :: 0 <= j < |ps| ==> Written(ps[j], fss[j])
      requires SortedFrom(sorted, All(ps, fss, |ps|))
      ensures fresh(item) && Loaded(ps, fss)
    {
      numPoints, numTops := 0, 0;
      item := new Item[0];
      new;
      hide SortedFrom, Written, All, Count;
      AddAll(ps, fss);
      SameCount(sorted, Items());
      SortSafePoints(sorted);
    }

    /** A safe point of one of the modules is found with a descriptor of its function; an address that is none is not
        found. */
    method Lookup(retaddr: int, ghost ps: seq<Program>, ghost fss: seq<seq<Function>>) returns (layout: Option<Layout>)
      requires Loaded(ps, fss)
      ensures layout.Some? <==> IsRecorded(ps, fss, retaddr)
      ensures layout.Some? ==> IsRight(ps, fss, retaddr, layout.value)
      ensures forall j: nat, k: nat :: HasToItself(ps, fss, j, k, retaddr)
                ==> layout.Some? && Describes(layout.value, fss[j][k])
    {
      hide IsRecorded, IsRight, HasToItself, Describes, All, Written, Count;
      ghost var items := Items();
      PointsFirst(items);
      assert Count(items) == numPoints;
      assert forall i :: 0 <= i < numPoints ==> items[i] == item[i];
      var found := BinarySearch(retaddr, numPoints);
      FoundIffRecorded(items, ps, fss, retaddr);
      if found.Some? {
        assert IsPoint(items[found.value]);
        layout := item[found.value].layout;
        DescribesRecorded(items, ps, fss, found.value);
        RightForTheOnlyOne(ps, fss, retaddr, layout.value);
      } else {
        layout := None;
      }
      OnlyOneIsRecorded(ps, fss, retaddr);
    }
  
    /** The addresses sml_global_enum_ptr goes through: the tables of top-level objects, behind the safe points. */
    method Tops(ghost ps: seq<Program>, ghost fss: seq<seq<Function>>) returns (tops: seq<int>)
      requires Loaded(ps, fss)
      ensures forall a :: a in tops <==> exists j :: 0 <= j < |ps| && ps[j].tops == Some(a)
    {
      hide All, Written, Count;
      ghost var items := Items();
      PointsFirst(items);
      tops := [];
      for i := numPoints to numPoints + numTops
        invariant forall a :: a in tops <==> exists m :: numPoints <= m < i && items[m].addr == a
      {
        assert items[i] == item[i];
        tops := tops + [item[i].addr];
      }
      forall a ensures a in tops <==> exists j :: 0 <= j < |ps| && ps[j].tops == Some(a) {
        TopsAreItems(items, ps, fss, a);
      }
    }
  }

  // ---------------------------------------------------------------- all modules of a program

  function All(ps: seq<Program>, fss: seq<seq<Function>>, n: nat): seq<Item>
    requires n <= |ps| == |fss|
    decreases n
  {
    if n == 0 then [] else All(ps, fss, n - 1) + Contribution(ps[n - 1], fss[n - 1])
  }

  /** a is the address of safe point i of function k of module j. */
  ghost predicate Recorded(ps: seq<Program>, fss: seq<seq<Function>>, j: nat, k: nat, i: nat, a: int)
    requires |ps| == |fss|
  {
    && j < |ps| && ps[j].ftab.Some? && k < |fss[j]| && i < |fss[j][k].points|
    && a == (ps[j].base + fss[j][k].points[i]) % WORD
  }

  ghost predicate IsRecorded(ps: seq<Program>, fss: seq<seq<Function>>, a: int)
    requires |ps| == |fss|
  {
    exists j: nat, k: nat, i: nat :: Recorded(ps, fss, j, k, i, a)
  }

  /** l describes a function that has a safe point at a. */
  ghost predicate IsRight(ps: seq<Program>, fss: seq<seq<Function>>, a: int, l: Layout)
    requires |ps| == |fss|
  {
    exists j: nat, k: nat, i: nat :: Recorded(ps, fss, j, k, i, a) && Describes(l, fss[j][k])
  }

  /** Function k of module j has a safe point at a, and no other function has. */
  ghost predicate HasToItself(ps: seq<Program>, fss: seq<seq<Function>>, j: nat, k: nat, a: int)
    requires |ps| == |fss|
    ensures HasToItself(ps, fss, j, k, a) ==> j < |fss| && k < |fss[j]|
  {
    && (exists i: nat :: Recorded(ps, fss, j, k, i, a))
    && forall j': nat, k': nat, i: nat :: Recorded(ps, fss, j', k', i, a) ==> j' == j && k' == k
  }

  /** x is the item made for it. */
  ghost predicate ItemFor(ps: seq<Program>, fss: seq<seq<Function>>, j: nat, k: nat, i: nat, x: Item)
    requires |ps| == |fss|
  {
    && Recorded(ps, fss, j, k, i, x.addr)
    && x.layout == Some(Layout(ps[j].ftab.value, Start(fss[j], k)))
  }

  lemma SameSize<T>(a: seq<T>, b: seq<T>)
    requires multiset(a) == multiset(b)
    ensures |a| == |b|
  {
    assert |multiset(a)| == |multiset(b)|;
  }

  lemma {:induction false} CountSum(a: seq<Item>, b: seq<Item>)
    ensures Count(a + b) == Count(a) + Count(b)
  {
    if b == [] {
      assert a + b == a;
    } else {
      var n := |b| - 1;
      CountSum(a, b[..n]);
      assert (a + b)[..|a + b| - 1] == a + b[..n];
    }
  }

  lemma {:induction false} CountSame(s: seq<Item>, point: bool)
    requires forall x :: x in s ==> IsPoint(x) == point
    ensures Count(s) == if point then |s| else 0
  {
    if s != [] { CountSame(s[..|s| - 1], point); }
  }

  lemma {:induction false} AllPoints(base: int, s: seq<int>, fs: seq<Function>, k: nat)
    requires k <= |fs|
    ensures forall x :: x in Points(base, s, fs, k) ==> IsPoint(x)
    decreases k
  {
    hide Start;
    if k > 0 { AllPoints(base, s, fs, k - 1); }
  }

  lemma CountContribution(p: Program, fs: seq<Function>)
    ensures Count(Contribution(p, fs)) + (if p.tops.Some? then 1 else 0) == |Contribution(p, fs)|
  {
    hide Points;
    var points := if p.ftab.Some? then Points(p.base, p.ftab.value, fs, |fs|) else [];
    var tops := if p.tops.Some? then [Item(p.tops.value, None)] else [];
    if p.ftab.Some? { AllPoints(p.base, p.ftab.value, fs, |fs|); }
    CountSame(points, true);
    CountSame(tops, false);
    CountSum(points, tops);
  }

  /** The count depends on the items, not on their order. */
  lemma {:induction false} SameCount(a: seq<Item>, b: seq<Item>)
    requires multiset(a) == multiset(b)
    ensures Count(a) == Count(b)
  {
    if a == [] {
      SameSize(a, b);
    } else {
      var n := |a| - 1;
      var front, x := a[..n], a[n];
      assert Count(a) == Count(front) + if IsPoint(x) then 1 else 0;
      assert x in multiset(a);
      hide Count, IsPoint;
      var p, q := Cut(b, x);
      CountMiddle(p, x, q);
      assert multiset(a) == multiset(front) + multiset{x} by { assert a == front + [x]; }
      assert multiset(p + [x] + q) == multiset(p + q) + multiset{x};
      SumUnique(multiset(front), multiset(p + q), x);
      SameCount(front, p + q);
    }
  }

  lemma SumUnique(m: multiset<Item>, n: multiset<Item>, x: Item)
    requires m + multiset{x} == n + multiset{x}
    ensures m == n
  {
    assert m == m + multiset{x} - multiset{x};
    assert n == n + multiset{x} - multiset{x};
  }

  lemma Cut(b: seq<Item>, x: Item) returns (p: seq<Item>, q: seq<Item>)
    requires x in multiset(b)
    ensures b == p + [x] + q
  {
    var i :| 0 <= i < |b| && b[i] == x;
    p, q := b[..i], b[i + 1..];
  }

  lemma CountMiddle(p: seq<Item>, x: Item, q: seq<Item>)
    ensures Count(p + [x] + q) == Count(p + q) + if IsPoint(x) then 1 else 0
  {
    hide Count;
    CountOne(x);
    CountSum(p + [x], q);
    CountSum(p, [x]);
    CountSum(p, q);
  }

  lemma CountOne(x: Item)
    ensures Count([x]) == if IsPoint(x) then 1 else 0
  {
    assert Count([x]) == Count([]) + if IsPoint(x) then 1 else 0;
  }

  /** In sorted items the safe points fill the front, in the order of their addresses. */
  lemma PointsFirst(s: seq<Item>)
    requires forall i, j :: 0 <= i < j < |s| ==> Before(s[i], s[j])
    ensures forall i :: 0 <= i < |s| ==> (IsPoint(s[i]) <==> i < Count(s))
    ensures forall i, j :: 0 <= i < j < Count(s) ==> s[i].addr <= s[j].addr
  {
    Front(s);
  }

  lemma {:induction false} Front(s: seq<Item>)
    requires forall i, j :: 0 <= i < j < |s| ==> Before(s[i], s[j])
    ensures forall i :: 0 <= i < |s| ==> (IsPoint(s[i]) <==> i < Count(s))
  {
    if s != [] {
      var n := |s| - 1;
      var t := s[..n];
      Front(t);
      if IsPoint(s[n]) {
        forall i | 0 <= i < n ensures IsPoint(t[i]) {
          assert Before(s[i], s[n]);
        }
        CountSame(t, true);
      }
    }
  }

  lemma {:induction false} InPoints(base: int, s: seq<int>, fs: seq<Function>, n: nat, x: Item)
    requires n <= |fs|
    ensures x in Points(base, s, fs, n) <==> exists k: nat, i: nat :: PointItem(base, s, fs, k, i, x) && k < n
    decreases n
  {
    hide Start;
    if n > 0 {
      InPoints(base, s, fs, n - 1, x);
      var last := PointsOf(base, s, fs[n - 1], Start(fs, n - 1));
      if x in last {
        var i :| 0 <= i < |last| && last[i] == x;
        assert PointItem(base, s, fs, n - 1, i, x);
      }
      forall k: nat, i: nat | PointItem(base, s, fs, k, i, x) && k < n ensures x in Points(base, s, fs, n) {
        if k == n - 1 { assert last[i] == x; }
      }
    }
  }

  ghost predicate PointItem(base: int, s: seq<int>, fs: seq<Function>, k: nat, i: nat, x: Item) {
    && k < |fs| && i < |fs[k].points|
    && x == Item((base + fs[k].points[i]) % WORD, Some(Layout(s, Start(fs, k))))
  }

  lemma InContribution(ps: seq<Program>, fss: seq<seq<Function>>, j: nat, x: Item)
    requires |ps| == |fss| && j < |ps| && IsPoint(x)
    ensures x in Contribution(ps[j], fss[j]) <==> exists k: nat, i: nat :: ItemFor(ps, fss, j, k, i, x)
  {
    hide Start, Points;
    var p, fs := ps[j], fss[j];
    if p.ftab.Some? {
      InPoints(p.base, p.ftab.value, fs, |fs|, x);
      forall k: nat, i: nat ensures ItemFor(ps, fss, j, k, i, x) <==> PointItem(p.base, p.ftab.value, fs, k, i, x) {
      }
    }
  }

  lemma {:induction false} InAll(ps: seq<Program>, fss: seq<seq<Function>>, n: nat, x: Item)
    requires n <= |ps| == |fss| && IsPoint(x)
    ensures x in All(ps, fss, n) <==> exists j: nat, k: nat, i: nat :: ItemFor(ps, fss, j, k, i, x) && j < n
    decreases n
  {
    hide ItemFor, Contribution;
    if n > 0 {
      InAll(ps, fss, n - 1, x);
      InContribution(ps, fss, n - 1, x);
    }
  }

  lemma FoundIffRecorded(items: seq<Item>, ps: seq<Program>, fss: seq<seq<Function>>, a: int)
    requires |ps| == |fss| && multiset(items) == multiset(All(ps, fss, |ps|))
    requires forall i :: 0 <= i < |items| ==> (IsPoint(items[i]) <==> i < Count(items))
    ensures (exists m :: 0 <= m < Count(items) && items[m].addr == a) <==> IsRecorded(ps, fss, a)
  {
    hide All, Start, Count, Recorded;
    if m :| 0 <= m < Count(items) && items[m].addr == a {
      InItems(items, All(ps, fss, |ps|), items[m]);
      InAll(ps, fss, |ps|, items[m]);
      var j: nat, k: nat, i: nat :| ItemFor(ps, fss, j, k, i, items[m]);
      assert IsRecorded(ps, fss, a);
    }
    if IsRecorded(ps, fss, a) {
      var j: nat, k: nat, i: nat :| Recorded(ps, fss, j, k, i, a);
      var x := RecordedItem(ps, fss, j, k, i, a);
      InAll(ps, fss, |ps|, x);
      InItems(items, All(ps, fss, |ps|), x);
      var m :| 0 <= m < |items| && items[m] == x;
      assert IsPoint(items[m]);
    }
  }

  lemma RecordedItem(ps: seq<Program>, fss: seq<seq<Function>>, j: nat, k: nat, i: nat, a: int) returns (x: Item)
    requires |ps| == |fss| && Recorded(ps, fss, j, k, i, a)
    ensures j < |ps| && IsPoint(x) && x.addr == a && ItemFor(ps, fss, j, k, i, x)
  {
    hide Start;
    x := Item(a, Some(Layout(ps[j].ftab.value, Start(fss[j], k))));
  }

  lemma InItems(a: seq<Item>, b: seq<Item>, x: Item)
    requires multiset(a) == multiset(b)
    ensures x in a <==> x in b
  {
    assert x in a <==> x in multiset(a);
    assert x in b <==> x in multiset(b);
  }

  lemma DescribesRecorded(items: seq<Item>, ps: seq<Program>, fss: seq<seq<Function>>, m: nat)
    requires |ps| == |fss| && multiset(items) == multiset(All(ps, fss, |ps|))
    requires forall j :: 0 <= j < |ps| ==> Written(ps[j], fss[j])
    requires m < |items| && IsPoint(items[m])
    ensures IsRight(ps, fss, items[m].addr, items[m].layout.value)
  {
    hide All, Written, ItemFor, IsRight;
    var x := items[m];
    InItems(items, All(ps, fss, |ps|), x);
    InAll(ps, fss, |ps|, x);
    var j: nat, k: nat, i: nat :| ItemFor(ps, fss, j, k, i, x) && j < |ps|;
    ItemIsRight(ps, fss, j, k, i, x);
  }

  lemma ItemIsRight(ps: seq<Program>, fss: seq<seq<Function>>, j: nat, k: nat, i: nat, x: Item)
    requires |ps| == |fss| && ItemFor(ps, fss, j, k, i, x) && Written(ps[j], fss[j])
    ensures x.layout.Some? && IsRight(ps, fss, x.addr, x.layout.value)
  {
    hide Table, Start, Describes;
    ReadsBack(ps[j].ftab.value, fss[j], k);
    assert Recorded(ps, fss, j, k, i, x.addr) && Describes(x.layout.value, fss[j][k]);
  }

  lemma Contributed(p: Program, fs: seq<Function>, start: seq<Item>)
    ensures var points := if p.ftab.Some? then Points(p.base, p.ftab.value, fs, |fs|) else [];
            start + Contribution(p, fs) == if p.tops.Some? then start + points + [Item(p.tops.value, None)]
              else start + points
  {
  }

  /** The loop test of the readers: the count is zero at the end of the table and nowhere before. */
  lemma Locate(s: seq<int>, fs: seq<Function>, k: nat)
    requires Table(s, fs) && k <= |fs|
    ensures k == 0 ==> Start(fs, k) == 0
    ensures Start(fs, k) + 2 <= |s| && NumSafePoints(s, Start(fs, k)) >= 0
    ensures k == |fs| <==> NumSafePoints(s, Start(fs, k)) == 0
  {
    hide Encode, NumSafePoints;
    if k == |fs| {
      Terminator(s, fs);
    } else {
      ReadsBack(s, fs, k);
      assert fs[k] in fs;
    }
  }

  lemma PointsOfLength(base: int, s: seq<int>, f: Function, t: nat)
    ensures |PointsOf(base, s, f, t)| == |f.points|
  {
  }

  lemma {:induction false} PointsLength(a: int, b: int, s: seq<int>, fs: seq<Function>, k: nat)
    requires k <= |fs|
    ensures |Points(a, s, fs, k)| == |Points(b, s, fs, k)|
    decreases k
  {
    hide PointsOf, Start;
    if k > 0 {
      PointsLength(a, b, s, fs, k - 1);
      PointsOfLength(a, s, fs[k - 1], Start(fs, k - 1));
      PointsOfLength(b, s, fs[k - 1], Start(fs, k - 1));
    }
  }

  lemma {:induction false} PointsGrow(base: int, s: seq<int>, fs: seq<Function>, k: nat, m: nat)
    requires k <= m <= |fs|
    ensures |Points(base, s, fs, k)| <= |Points(base, s, fs, m)|
    decreases m
  {
    hide PointsOf, Start;
    if k < m { PointsGrow(base, s, fs, k, m - 1); }
  }

  lemma {:induction false} TopInAll(ps: seq<Program>, fss: seq<seq<Function>>, n: nat, a: int)
    requires n <= |ps| == |fss|
    ensures Item(a, None) in All(ps, fss, n) <==> exists j :: 0 <= j < n && ps[j].tops == Some(a)
    decreases n
  {
    hide Points;
    if n > 0 {
      var p, fs := ps[n - 1], fss[n - 1];
      TopInAll(ps, fss, n - 1, a);
      TopIn(p, fs, a);
      hide Contribution;
    }
  }

  lemma TopIn(p: Program, fs: seq<Function>, a: int)
    ensures Item(a, None) in Contribution(p, fs) <==> p.tops == Some(a)
  {
    hide Points;
    if p.ftab.Some? { AllPoints(p.base, p.ftab.value, fs, |fs|); }
  }

  lemma TopsAreItems(items: seq<Item>, ps: seq<Program>, fss: seq<seq<Function>>, a: int)
    requires |ps| == |fss| && multiset(items) == multiset(All(ps, fss, |ps|))
    requires forall i :: 0 <= i < |items| ==> (IsPoint(items[i]) <==> i < Count(items))
    ensures (exists m :: Count(items) <= m < |items| && items[m].addr == a) <==>
            exists j :: 0 <= j < |ps| && ps[j].tops == Some(a)
  {
    hide All, Count;
    var x := Item(a, None);
    TopInAll(ps, fss, |ps|, a);
    InItems(items, All(ps, fss, |ps|), x);
    if m :| Count(items) <= m < |items| && items[m].addr == a {
      assert items[m] == x;
    }
    if x in items {
      var m :| 0 <= m < |items| && items[m] == x;
      assert !IsPoint(items[m]);
    }
  }

  /** Where a function has its address to itself, what is right for the address describes that function. */
  lemma RightForTheOnlyOne(ps: seq<Program>, fss: seq<seq<Function>>, a: int, l: Layout)
    requires |ps| == |fss| && IsRight(ps, fss, a, l)
    ensures forall j: nat, k: nat :: HasToItself(ps, fss, j, k, a) ==> Describes(l, fss[j][k])
  {
    hide Describes;
    var j: nat, k: nat, i: nat :| Recorded(ps, fss, j, k, i, a) && j < |fss| && k < |fss[j]| && Describes(l, fss[j][k]);
    forall j': nat, k': nat | HasToItself(ps, fss, j', k', a) ensures Describes(l, fss[j'][k']) {
      assert j' == j && k' == k;
    }
  }

  lemma OnlyOneIsRecorded(ps: seq<Program>, fss: seq<seq<Function>>, a: int)
    requires |ps| == |fss|
    ensures forall j: nat, k: nat :: HasToItself(ps, fss, j, k, a) ==> IsRecorded(ps, fss, a)
  {
  }
}
