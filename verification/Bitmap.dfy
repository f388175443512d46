/**
 * Occupancy bitmap of one ladder side (include/flox/book/ladder_book.h:455-458, 515-578).
 *
 * A 64-bit word is the set of the positions of its one bits: or, and-not and the masks of the
 * scans are union, difference and intersection, countl_zero and countr_zero are the largest and
 * smallest position.
 */
module Bitmap {

  type Word = set<nat>

  type Bits = seq<Word>

  ghost predicate WordsOk(v: Bits) {
    forall w :: 0 <= w < |v| ==> forall b :: b in v[w] ==> b < 64
  }

  predicate Bit(v: Bits, i: nat) {
    i / 64 < |v| && i % 64 in v[i / 64]
  }

  function SetBit(v: Bits, i: nat): (r: Bits)
    requires i / 64 < |v|
    ensures forall k: nat :: Bit(r, k) <==> k == i || Bit(v, k)
    ensures WordsOk(v) ==> WordsOk(r)
  {
    v[i / 64 := v[i / 64] + {i % 64}]
  }

  function ClearBit(v: Bits, i: nat): (r: Bits)
    requires i / 64 < |v|
    ensures forall k: nat :: Bit(r, k) <==> k != i && Bit(v, k)
    ensures WordsOk(v) ==> WordsOk(r)
  {
    v[i / 64 := v[i / 64] - {i % 64}]
  }

  /** Largest element (63 - countl_zero). */
  method Highest(w: Word) returns (m: nat)
    requires w != {}
    ensures m in w && forall b :: b in w ==> b <= m
  {
    m :| m in w;
    var rest := w - {m};
    while rest != {}
      invariant m in w && rest <= w
      invariant forall b :: b in w && b !in rest ==> b <= m
      decreases rest
    {
      var b :| b in rest;
      if b > m { m := b; }
      rest := rest - {b};
    }
  }

  /** Smallest element (countr_zero). */
  method Lowest(w: Word) returns (m: nat)
    requires w != {}
    ensures m in w && forall b :: b in w ==> m <= b
  {
    m :| m in w;
    var rest := w - {m};
    while rest != {}
      invariant m in w && rest <= w
      invariant forall b :: b in w && b !in rest ==> m <= b
      decreases rest
    {
      var b :| b in rest;
      if b < m { m := b; }
      rest := rest - {b};
    }
  }

  /** The highest set bit at or below `i`, or -1: one masked word, then whole words. */
  method HighestSetAtOrBelow(v: array<Word>, i: int) returns (r: int)
    requires WordsOk(v[..]) && i / 64 < v.Length
    ensures r == -1 || (0 <= r <= i && Bit(v[..], r))
    ensures forall k: nat :: r < k <= i ==> !Bit(v[..], k)
  {
    if i < 0 { return -1; }
    var w := i / 64;
    var word := set b | b in v[w] && b <= i % 64;
    while true
      invariant 0 <= w < v.Length && 64 * w <= i
      invariant forall b :: b in word <==> b in v[w] && 64 * w + b <= i
      invariant forall k: nat :: 64 * w + 64 <= k <= i ==> !Bit(v[..], k)
      decreases w
    {
      if word != {} {
        var m := Highest(word);
        assert v[..][w] == v[w];
        return 64 * w + m;
      }
      if w == 0 { return -1; }
      w := w - 1;
      word := v[w];
    }
  }

  /** The lowest set bit at or above `i` and below `n`, or -1. */
  method LowestSetAtOrAbove(v: array<Word>, i: int, n: nat) returns (r: int)
    requires WordsOk(v[..]) && 0 < n <= 64 * v.Length
    ensures r == -1 || (0 <= r < n && i <= r && Bit(v[..], r))
    ensures forall k: nat :: i <= k < n && (r == -1 || k < r) ==> !Bit(v[..], k)
  {
    if i >= n { return -1; }
    var from := if i < 0 then 0 else i;
    var w := from / 64;
    var word := set b | b in v[w] && b >= from % 64;
    while true
      invariant 0 <= w < v.Length
      invariant forall b :: b in word <==> b in v[w] && from <= 64 * w + b
      invariant forall k: nat :: from <= k < 64 * w ==> !Bit(v[..], k)
      decreases v.Length - w
    {
      if word != {} {
        var m := Lowest(word);
        assert v[..][w] == v[w];
        return if 64 * w + m < n then 64 * w + m else -1;
      }
      w := w + 1;
      if w >= v.Length { return -1; }
      word := v[w];
    }
  }
}
