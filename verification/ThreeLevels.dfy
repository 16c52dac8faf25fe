/**
 Allocation in the segments of heap_bitmap.c: from the bit pointer of the allocation pointer the next clear bit is found
 over the three levels of the bitmap that the marker keeps, up as far as words are full and down again.
 */
module ThreeLevels {
  import opened Bits
  import opened Bitmap
  import opened Wrappers
  import M = Marker

  /** There is a bit above for every word of a level, and one more. */
  lemma MoreAbove(l: M.Level)
    requires l.k == (l.nb + l.s) / 32 && (l.nb + l.s) % 32 == 0
    ensures M.Above(l).nb <= l.k < 32 * M.Above(l).k
  {
    var u := M.Above(l);
    assert 32 * l.k == l.nb + l.s;
    assert 32 * u.k >= u.nb + 1 + l.s / 32;
    assert 32 * u.nb >= l.nb && 32 * (l.s / 32) > l.s - 32;
  }

  lemma Sizes(s: M.Segment)
    requires M.TreeOk(s)
    ensures s.n < 32 * |s.w0| && |s.w0| < 32 * |s.w1| && |s.w1| < 32 * |s.w2|
    ensures M.Level1(s.n).nb <= |s.w0| && M.Level2(s.n).nb <= |s.w1|
  {
    M.LevelSizes(s.n);
    MoreAbove(M.Level0(s.n));
    MoreAbove(M.Level1(s.n));
  }

  /** What the bits from j on of a level say about the words of the level below. */
  lemma WordsBelow(lower: seq<bv32>, upper: seq<bv32>, nb: nat, j: nat, i: nat)
    requires M.Tells(lower, upper) && nb <= |lower| && forall b :: nb <= b < 32 * |upper| ==> BitAt(upper, b)
    ensures Full(upper, j, 32 * |upper|) ==> forall k :: j <= k < |lower| ==> lower[k] == FULL
    ensures Least(upper, j, i) ==>
              i < |lower| && lower[i] != FULL && forall k :: j <= k < i ==> lower[k] == FULL
  {
    hide Bit;
  }

  /** The top level is searched word by word. */
  method FirstClear2(ws: seq<bv32>, j: nat) returns (r: Option<nat>)
    requires j < 32 * |ws|
    ensures if r.None? then Full(ws, j, 32 * |ws|) else Least(ws, j, r.value)
  {
    assert One(0) == 1;
    hide Bit, Next0, One;
    var word, mask := j / 32, One(j % 32);
    SearchWord(ws, word, mask, j);
    mask := Next0(ws[word], mask);
    while mask == 0
      invariant word < |ws|
      invariant if mask == 0 then Full(ws, j, 32 * (word + 1)) else Least(ws, j, Place(word, mask))
      decreases |ws| - word, mask == 0
    {
      word := word + 1;
      if word == |ws| {
        return None;
      }
      SearchWord(ws, word, 1, 32 * word);
      mask := Next0(ws[word], 1);
    }
    r := Some(Place(word, mask));
  }

  lemma AllFull(ws: seq<bv32>, a: nat, w: nat)
    requires w <= |ws| && Full(ws, a, 32 * w) && forall k :: w <= k < |ws| ==> ws[k] == FULL
    ensures Full(ws, a, 32 * |ws|)
  {
    hide Bit;
    forall i | a <= i < 32 * |ws| ensures BitAt(ws, i) {
      if i >= 32 * w { ClearWord(ws, i / 32); }
    }
  }

  /** The rest of the word at bit j is full; up is what has been found above for the words behind it. */
  lemma Descend(ws: seq<bv32>, upper: seq<bv32>, nb: nat, j: nat, up: Option<nat>)
    requires M.Tells(ws, upper) && nb <= |ws| && forall b :: nb <= b < 32 * |upper| ==> BitAt(upper, b)
    requires j < 32 * |ws| && Full(ws, j, 32 * (j / 32 + 1))
    requires if up.None? then Full(upper, j / 32 + 1, 32 * |upper|) else Least(upper, j / 32 + 1, up.value)
    ensures up.None? ==> Full(ws, j, 32 * |ws|)
    ensures up.Some? ==>
              up.value < |ws|
              && var m := Next0(ws[up.value], 1);
                 m != 0 && Least(ws, j, Place(up.value, m)) && AtBit(up.value, m, Place(up.value, m))
  {
    assert One(0) == 1;
    hide Bit, Next0, One, MaskIndex;
    var w := j / 32 + 1;
    if up.None? {
      WordsBelow(ws, upper, nb, w, 0);
      AllFull(ws, j, w);
    } else {
      WordsBelow(ws, upper, nb, w, up.value);
      var m := Next0(ws[up.value], 1);
      SearchWord(ws, up.value, 1, 32 * up.value);
      FirstClear(ws, j, w, up.value, Place(up.value, m), m);
    }
  }

  /** The middle level: if the word at j has no clear bit from j on, the top level leads to the first word that has. */
  method FirstClear1(s: M.Segment, j: nat) returns (r: Option<nat>)
    requires M.TreeOk(s) && j < 32 * |s.w1|
    ensures if r.None? then Full(s.w1, j, 32 * |s.w1|) else Least(s.w1, j, r.value)
  {
    Sizes(s);
    hide Bit, Next0, One, MaskIndex, M.Level2;
    var word, mask := j / 32, One(j % 32);
    SearchWord(s.w1, word, mask, j);
    mask := Next0(s.w1[word], mask);
    if mask == 0 {
      var up := FirstClear2(s.w2, word + 1);
      Descend(s.w1, s.w2, M.Level2(s.n).nb, j, up);
      if up.None? {
        return None;
      }
      word, mask := up.value, Next0(s.w1[up.value], 1);
    }
    r := Some(Place(word, mask));
  }

  lemma NextFree(s: M.Segment, a: nat, i: nat)
    requires M.TreeOk(s) && Least(s.w0, a, i)
    ensures i < s.n && Clear(s.w0, a) == [i] + Clear(s.w0, i + 1)
  {
    hide Bit;
    ClearFromLeast(s.w0, a, i);
  }

  /** The bottom level, from a bit pointer on. */
  method FirstClear0(s: M.Segment, word: nat, mask: bv32, ghost a: nat) returns (w: nat, m: bv32)
    requires M.TreeOk(s) && a <= s.n && AtBit(word, mask, a)
    ensures if m == 0 then Full(s.w0, a, 32 * |s.w0|) else Least(s.w0, a, Place(w, m)) && AtBit(w, m, Place(w, m))
  {
    Sizes(s);
    hide Bit, Next0, One, Place, M.Level1, Least;
    w, m := word, mask;
    SearchWord(s.w0, w, m, a);
    m := Next0(s.w0[w], m);
    if m == 0 {
      var up := FirstClear1(s, w + 1);
      Descend(s.w0, s.w1, M.Level1(s.n).nb, a, up);
      if up.None? {
        return;
      }
      w, m := up.value, Next0(s.w0[up.value], 1);
    }
  }

  /** find_bitmap: the least clear bit from bit a on, the one at word and mask, as a bit pointer; there is none exactly
      when no block from there on is free. */
  method FindBitmap(s: M.Segment, word: nat, mask: bv32, ghost a: nat) returns (w: nat, m: bv32)
    requires M.TreeOk(s) && a <= s.n && AtBit(word, mask, a)
    ensures if m == 0 then Clear(s.w0, a) == []
            else var i := Place(w, m); AtBit(w, m, i) && i < s.n && Clear(s.w0, a) == [i] + Clear(s.w0, i + 1)
  {
    hide M.TreeOk, AtBit, Place, Clear, Least, Full;
    w, m := FirstClear0(s, word, mask, a);
    if m == 0 {
      ClearOfFull(s.w0, a);
    } else {
      NextFree(s, a, Place(w, m));
    }
  }
}
