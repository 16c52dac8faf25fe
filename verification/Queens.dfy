/**
 The n queens benchmark: the attacked columns of the next row are three bit masks that are shifted from row to row.
 The masks are proved to mean what they should, and the count is proved to be the number of placements.
 */
module Queens {
  import opened Bits

  // ---------------------------------------------------------------- the problem

  /** Queens in rows 0 .. |s|-1, in the columns s[i], do not attack each other. */
  predicate Peaceful(n: nat, s: seq<nat>) {
    (forall i :: 0 <= i < |s| ==> s[i] < n)
    && forall i, j :: 0 <= i < j < |s| ==> s[i] != s[j] && s[i] + (j - i) != s[j] && s[i] - (j - i) != s[j]
  }

  /** A queen in column c of the next row is attacked by none of s. */
  predicate Safe(s: seq<nat>, c: nat) {
    forall i :: 0 <= i < |s| ==> s[i] != c && s[i] + (|s| - i) != c && s[i] - (|s| - i) != c
  }

  /** All ways to complete s, and those whose next queen stands in column c or to the right of it. */
  function Completions(n: nat, s: seq<nat>): set<seq<nat>>
    decreases n - |s|, 0, n + 1
  {
    if |s| >= n then {s} else CompletionsFrom(n, s, 0)
  }

  function CompletionsFrom(n: nat, s: seq<nat>, c: nat): set<seq<nat>>
    requires |s| < n
    decreases n - |s| - 1, 1, n - c
  {
    if c >= n then {}
    else (if Safe(s, c) then Completions(n, s + [c]) else {}) + CompletionsFrom(n, s, c + 1)
  }

  /** The completions of s are exactly the peaceful placements that begin with s. */
  lemma {:induction false} CompletionsAre(n: nat, s: seq<nat>, p: seq<nat>)
    requires Peaceful(n, s) && |s| <= n
    ensures p in Completions(n, s) <==> |p| == n && s <= p && Peaceful(n, p)
    decreases n - |s|, 0, n + 1
  {
    if |s| < n {
      CompletionsFromAre(n, s, 0, p);
    } else {
      assert |p| == n && s <= p ==> p == s;
    }
  }

  lemma {:induction false} CompletionsFromAre(n: nat, s: seq<nat>, c: nat, p: seq<nat>)
    requires Peaceful(n, s) && |s| < n
    ensures p in CompletionsFrom(n, s, c) <==> |p| == n && s <= p && p[|s|] >= c && Peaceful(n, p)
    decreases n - |s| - 1, 1, n - c
  {
    if c < n {
      CompletionsFromAre(n, s, c + 1, p);
      if Safe(s, c) {
        SafePeaceful(n, s, c);
        CompletionsAre(n, s + [c], p);
      }
      if |p| == n && s <= p && Peaceful(n, p) {
        SafePrefix(n, s, p);
        assert s + [p[|s|]] <= p;
      }
    }
  }

  lemma SafePeaceful(n: nat, s: seq<nat>, c: nat)
    requires Peaceful(n, s) && Safe(s, c) && c < n
    ensures Peaceful(n, s + [c])
  {
  }

  lemma SafePrefix(n: nat, s: seq<nat>, p: seq<nat>)
    requires Peaceful(n, p) && s <= p && |s| < |p|
    ensures Safe(s, p[|s|]) && p[|s|] < n
  {
    forall i | 0 <= i < |s| ensures s[i] != p[|s|] && s[i] + (|s| - i) != p[|s|] && s[i] - (|s| - i) != p[|s|] {
      assert p[i] == s[i];
    }
  }

  /** Completions by different columns are different. */
  lemma CountFrom(n: nat, s: seq<nat>, c: nat)
    requires Peaceful(n, s) && |s| < n && c < n
    ensures |CompletionsFrom(n, s, c)| ==
            (if Safe(s, c) then |Completions(n, s + [c])| else 0) + |CompletionsFrom(n, s, c + 1)|
  {
    var a, b := if Safe(s, c) then Completions(n, s + [c]) else {}, CompletionsFrom(n, s, c + 1);
    forall p | p in a ensures p !in b {
      SafePeaceful(n, s, c);
      CompletionsAre(n, s + [c], p);
      CompletionsFromAre(n, s, c + 1, p);
      assert p[|s|] == (s + [c])[|s|];
    }
    assert a * b == {};
  }

  // ---------------------------------------------------------------- bits

  /** The shifts of masks; Bits.One(c) is the mask of column c. */
  function Up(a: bv32): bv32 { a << 1 }

  function Down(a: bv32): bv32 { a >> 1 }

  lemma UpBits(b: bv32, x: bv32)
    requires x < 0x8000_0000
    ensures Has(Up(b), Up(x)) <==> Has(b, x)
    ensures Has(Down(b), x) <==> Has(b, Up(x))
  {
  }

  lemma UpEnds(b: bv32)
    ensures !Has(Up(b), One(0)) && !Has(Down(b), One(31))
  {
    OneEnds();
  }

  lemma OneEnds()
    ensures One(0) == 1 && One(31) == 0x8000_0000
  {
    OneValues();
  }

  lemma OneUp(c: nat)
    requires c <= 30
    ensures One(c) < 0x8000_0000 && One(c + 1) == Up(One(c))
  {
    assert One(c + 1) == One(c) << 1;
    OneEnds();
    OneGrows(c, 31);
  }

  lemma BitShift(b: bv32, c: nat)
    requires c <= 30
    ensures Bit(Up(b), c + 1) <==> Bit(b, c)
    ensures Bit(Down(b), c) <==> Bit(b, c + 1)
    ensures !Bit(Up(b), 0) && !Bit(Down(b), 31)
  {
    hide One, Has, Up, Down;
    UpEnds(b);
    OneUp(c);
    UpBits(b, One(c));
  }

  // ---------------------------------------------------------------- boards

  datatype Board = Board(queens: nat, limit: bv32, left: bv32, down: bv32, right: bv32, kill: bv32)

  function Init(width: nat): Board
    requires width < 32
  {
    Board(width, One(width), 0, 0, 0, 0)
  }

  function Put(b: Board, bit: bv32): Board
    requires b.queens > 0
  {
    var left, down, right := Down(Or(b.left, bit)), Or(b.down, bit), Up(Or(b.right, bit));
    Board(b.queens - 1, b.limit, left, down, right, Or(Or(left, down), right))
  }

  /** A queen of s attacks column c of the next row: along the column, or along one of the two diagonals. */
  predicate AlongColumn(s: seq<nat>, c: int) { exists i :: 0 <= i < |s| && s[i] == c }

  predicate AlongLeft(s: seq<nat>, c: int) { exists i :: 0 <= i < |s| && s[i] - (|s| - i) == c }

  predicate AlongRight(s: seq<nat>, c: int) { exists i :: 0 <= i < |s| && s[i] + (|s| - i) == c }

  lemma Attacks(s: seq<nat>, c: nat)
    ensures Safe(s, c) <==> !AlongColumn(s, c) && !AlongLeft(s, c) && !AlongRight(s, c)
  {
    if AlongColumn(s, c) { var i :| 0 <= i < |s| && s[i] == c; }
    if AlongLeft(s, c) { var i :| 0 <= i < |s| && s[i] - (|s| - i) == c; }
    if AlongRight(s, c) { var i :| 0 <= i < |s| && s[i] + (|s| - i) == c; }
  }

  /** From row to row an attack along a diagonal moves by one column, and the new queen joins in. */
  lemma AttacksMove(s: seq<nat>, q: nat, c: int)
    ensures AlongColumn(s + [q], c) <==> AlongColumn(s, c) || q == c
    ensures AlongLeft(s + [q], c) <==> AlongLeft(s, c + 1) || q == c + 1
    ensures AlongRight(s + [q], c) <==> AlongRight(s, c - 1) || q == c - 1
  {
    var t := s + [q];
    assert t[|s|] == q;
    if AlongColumn(s, c) { var i :| 0 <= i < |s| && s[i] == c; assert t[i] == c; }
    if AlongLeft(s, c + 1) { var i :| 0 <= i < |s| && s[i] - (|s| - i) == c + 1; assert t[i] - (|t| - i) == c; }
    if AlongRight(s, c - 1) { var i :| 0 <= i < |s| && s[i] + (|s| - i) == c - 1; assert t[i] + (|t| - i) == c; }
    if AlongColumn(t, c) { var i :| 0 <= i < |t| && t[i] == c; if i < |s| { assert s[i] == c; } }
    if AlongLeft(t, c) {
      var i :| 0 <= i < |t| && t[i] - (|t| - i) == c; if i < |s| { assert s[i] - (|s| - i) == c + 1; }
    }
    if AlongRight(t, c) {
      var i :| 0 <= i < |t| && t[i] + (|t| - i) == c; if i < |s| { assert s[i] + (|s| - i) == c - 1; }
    }
  }

  /** The masks of a board with the queens s: which queen attacks column c along which line. */
  predicate Masks(b: Board, s: seq<nat>, c: nat) {
    && (Bit(b.down, c) <==> AlongColumn(s, c))
    && (Bit(b.left, c) <==> AlongLeft(s, c))
    && (Bit(b.right, c) <==> AlongRight(s, c))
    && (Bit(b.kill, c) <==> !Safe(s, c))
  }

  predicate Represents(b: Board, n: nat, s: seq<nat>) {
    && n <= 31 && |s| <= n && b.queens == n - |s| && b.limit == One(n) && Peaceful(n, s)
    && (forall c :: 0 <= c <= 31 ==> Masks(b, s, c))
  }

  lemma ZeroBit(c: nat)
    ensures !Bit(0, c)
  {
    hide One;
  }

  lemma InitRepresents(width: nat)
    requires width < 32
    ensures Represents(Init(width), width, [])
  {
    forall c | 0 <= c <= 31 ensures !Bit(0, c) { ZeroBit(c); }
    hide Bit;
  }

  lemma ShiftLeft(m: bv32, c: nat)
    requires c <= 31
    ensures Bit(Up(m), c) <==> c > 0 && Bit(m, c - 1)
    ensures Bit(Down(m), c) <==> c < 31 && Bit(m, c + 1)
  {
    if c > 0 { BitShift(m, c - 1); }
    if c < 31 { BitShift(m, c); }
    hide One, Has;
  }

  lemma PutBits(b: Board, q: nat, c: nat)
    requires c <= 31 && q <= 31 && b.queens > 0
    ensures var b' := Put(b, One(q));
            && (Bit(b'.left, c) <==> c < 31 && (Bit(b.left, c + 1) || q == c + 1))
            && (Bit(b'.right, c) <==> c > 0 && (Bit(b.right, c - 1) || q == c - 1))
            && (Bit(b'.down, c) <==> Bit(b.down, c) || q == c)
            && (Bit(b'.kill, c) <==> Bit(b'.left, c) || Bit(b'.down, c) || Bit(b'.right, c))
  {
    hide One, Has, Bit, Or, Up, Down;
    var b' := Put(b, One(q));
    ShiftLeft(Or(b.left, One(q)), c);
    ShiftLeft(Or(b.right, One(q)), c);
    if c < 31 { OrBit(b.left, One(q), c + 1); OneBit(q, c + 1); }
    if c > 0 { OrBit(b.right, One(q), c - 1); OneBit(q, c - 1); }
    OrBit(b.down, One(q), c);
    OneBit(q, c);
    OrBit(Or(b'.left, b'.down), b'.right, c);
    OrBit(b'.left, b'.down, c);
  }

  lemma EdgeColumns(n: nat, s: seq<nat>)
    requires n <= 31 && Peaceful(n, s)
    ensures !AlongLeft(s, 32) && !AlongRight(s, -1)
  {
  }

  /** Putting a queen on a safe column moves the masks to the next row. */
  lemma PutRepresents(b: Board, n: nat, s: seq<nat>, q: nat)
    requires Represents(b, n, s) && |s| < n && q < n && Safe(s, q)
    ensures Represents(Put(b, One(q)), n, s + [q])
  {
    var b' := Put(b, One(q));
    SafePeaceful(n, s, q);
    EdgeColumns(n, s);
    hide One, Bit, Safe, AlongColumn, AlongLeft, AlongRight, Peaceful, Or, Up, Down;
    forall c | 0 <= c <= 31 ensures Masks(b', s + [q], c) {
      assert Masks(b, s, c) && (c < 31 ==> Masks(b, s, c + 1)) && (c > 0 ==> Masks(b, s, c - 1));
      hide Put, Masks;
      PutMasks(b, s, q, c);
    }
    hide Masks;
  }

  lemma PutMasks(b: Board, s: seq<nat>, q: nat, c: nat)
    requires c <= 31 && q <= 31 && b.queens > 0
    requires Masks(b, s, c) && (if c < 31 then Masks(b, s, c + 1) else !AlongLeft(s, 32) && q < 32)
    requires if c > 0 then Masks(b, s, c - 1) else !AlongRight(s, -1)
    ensures Masks(Put(b, One(q)), s + [q], c)
  {
    hide One, Bit, Safe, AlongColumn, AlongLeft, AlongRight, Or, Up, Down;
    PutBits(b, q, c);
    AttacksMove(s, q, c);
    Attacks(s + [q], c);
    hide Put;
  }

  // ---------------------------------------------------------------- the search

  /** The test of the loops: bit < limit says that the column lies on the board. */
  lemma BelowLimit(c: nat, n: nat)
    requires c <= n <= 31
    ensures Below(One(c), One(n)) <==> c < n
  {
    if c < n { OneGrows(c, n); }
  }

  /** solve: the number of ways to complete the board, whichever of the two loops counts them. */
  method Solve(b: Board, cutOff: nat, ghost n: nat, ghost s: seq<nat>) returns (r: int)
    requires Represents(b, n, s)
    ensures r == |Completions(n, s)|
    decreases n - |s|, 1, 0
  {
    if b.queens == 0 {
      return 1;
    } else if b.queens <= cutOff {
      r := SSum(b, 1, cutOff, n, s, 0);
    } else {
      r := PSum(b, 1, cutOff, n, s, 0);
    }
  }

  /** ssum: column after column, in a loop. */
  method SSum(b: Board, bit0: bv32, cutOff: nat, ghost n: nat, ghost s: seq<nat>, ghost c0: nat) returns (sum: int)
    requires Represents(b, n, s) && |s| < n && c0 <= n && bit0 == One(c0)
    ensures sum == |CompletionsFrom(n, s, c0)|
    decreases n - |s|, 0, n - c0
  {
    hide One, Bit, Has, Up, Below, Put, Peaceful, Safe, Masks, Completions, CompletionsFrom;
    var bit := bit0;
    ghost var c := c0;
    sum := 0;
    assert b.limit == One(n) && n <= 31 && b.queens > 0;
    NoneLeft(n, s);
    hide Represents;
    BelowLimit(c, n);
    while Below(bit, b.limit)
      invariant c0 <= c <= n && bit == One(c) && (Below(bit, b.limit) <==> c < n)
      invariant sum + |CompletionsFrom(n, s, c)| == |CompletionsFrom(n, s, c0)|
      decreases n - c
    {
      KillMeans(b, n, s, c);
      CountFrom(n, s, c);
      if !Has(b.kill, bit) {
        PutRepresents(b, n, s, c);
        var r := Solve(Put(b, bit), cutOff, n, s + [c]);
        sum := sum + r;
      }
      Doubled(c);
      bit := Up(bit);
      c := c + 1;
      BelowLimit(c, n);
    }
  }

  /** psum: the first safe column is counted by a thread of its own while the rest is counted recursively. */
  method PSum(b: Board, bit0: bv32, cutOff: nat, ghost n: nat, ghost s: seq<nat>, ghost c0: nat) returns (sum: int)
    requires Represents(b, n, s) && |s| < n && c0 <= n && bit0 == One(c0)
    ensures sum == |CompletionsFrom(n, s, c0)|
    decreases n - |s|, 0, n - c0
  {
    hide One, Bit, Has, Up, Below, Put, Peaceful, Safe, Masks, Completions, CompletionsFrom;
    var bit := bit0;
    ghost var c := c0;
    assert b.limit == One(n) && n <= 31 && b.queens > 0;
    NoneLeft(n, s);
    hide Represents;
    BelowLimit(c, n);
    while Below(bit, b.limit)
      invariant c0 <= c <= n && bit == One(c) && (Below(bit, b.limit) <==> c < n)
      invariant |CompletionsFrom(n, s, c)| == |CompletionsFrom(n, s, c0)|
      decreases n - c
    {
      KillMeans(b, n, s, c);
      CountFrom(n, s, c);
      Doubled(c);
      if !Has(b.kill, bit) {
        PutRepresents(b, n, s, c);
        var forked := Solve(Put(b, bit), cutOff, n, s + [c]);
        var rest := PSum(b, Up(bit), cutOff, n, s, c + 1);
        return rest + forked;
      }
      bit := Up(bit);
      c := c + 1;
      BelowLimit(c, n);
    }
    return 0;
  }

  lemma NoneLeft(n: nat, s: seq<nat>)
    requires |s| < n
    ensures |CompletionsFrom(n, s, n)| == 0
  {
  }

  lemma Doubled(c: nat)
    ensures One(c + 1) == Up(One(c))
  {
  }

  lemma KillMeans(b: Board, n: nat, s: seq<nat>, c: nat)
    requires Represents(b, n, s) && c < n
    ensures Has(b.kill, One(c)) <==> !Safe(s, c)
    ensures Peaceful(n, s)
  {
    assert Masks(b, s, c);
  }

  /** The benchmark: for every width below the word size and every cut-off, the number of ways to place so many queens,
      one in each row, so that none attacks another. */
  method DoIt(width: nat, cutOff: nat) returns (r: int)
    requires width < 32
    ensures forall p: seq<nat> :: p in Completions(width, []) <==> |p| == width && Peaceful(width, p)
    ensures r == |Completions(width, [])|
  {
    InitRepresents(width);
    forall p: seq<nat> ensures p in Completions(width, []) <==> |p| == width && Peaceful(width, p) {
      CompletionsAre(width, [], p);
    }
    r := Solve(Init(width), cutOff, width, []);
  }
}
