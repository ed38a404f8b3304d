/** Cutting a run of elements out of a sequence, as far as there are any. */
module Cuts {
  import opened Prelude

  /** Elements `lo` up to, not including, `hi`. */
  function Cut<T>(s: seq<T>, lo: int, hi: int): seq<T>
    decreases hi - lo
  {
    if 0 <= lo < hi && lo < |s| then [s[lo]] + Cut(s, lo + 1, hi) else []
  }

  lemma {:induction false} CutIsSlice<T>(s: seq<T>, lo: int, hi: int)
    requires 0 <= lo <= hi
    ensures Cut(s, lo, hi) == s[Min(lo, |s|)..Min(hi, |s|)]
    decreases hi - lo
  {
    if lo < hi && lo < |s| {
      CutIsSlice(s, lo + 1, hi);
      var end := if hi <= |s| then hi else |s|;
      assert s[lo..end] == [s[lo]] + s[lo + 1..end];
    }
  }

  lemma CutJoins<T>(s: seq<T>, lo: int, mid: int, hi: int)
    requires 0 <= lo <= mid <= hi
    ensures Cut(s, lo, mid) + Cut(s, mid, hi) == Cut(s, lo, hi)
  {
    CutIsSlice(s, lo, mid);
    CutIsSlice(s, mid, hi);
    CutIsSlice(s, lo, hi);
  }

  /** A cut that lies inside a cut. */
  lemma {:induction false} CutInside<T>(s: seq<T>, x: int, y: int, lo: int, hi: int)
    requires 0 <= x && 0 <= lo <= hi && x + hi <= y
    ensures Cut(Cut(s, x, y), lo, hi) == Cut(s, x + lo, x + hi)
    decreases hi - lo
  {
    if lo < hi {
      CutIsSlice(s, x, y);
      CutInside(s, x, y, lo + 1, hi);
    }
  }

  /** A cut out of what is left from `x` on. */
  lemma {:induction false} CutOfRest<T>(s: seq<T>, x: int, lo: int, hi: int)
    requires 0 <= x && 0 <= lo <= hi
    ensures Cut(Cut(s, x, Max(x, |s|)), lo, hi) == Cut(s, x + lo, x + hi)
    decreases hi - lo
  {
    if lo < hi {
      CutIsSlice(s, x, Max(x, |s|));
      CutOfRest(s, x, lo + 1, hi);
    }
  }

  /** A run taken so far, and its continuation out of a cut that covers it. */
  lemma CutGoesOn<T>(s: seq<T>, start: int, x: int, y: int, lo: int, hi: int)
    requires 0 <= start <= x + lo && 0 <= x && 0 <= lo <= hi && x + hi <= y
    ensures Cut(s, start, x + lo) + Cut(Cut(s, x, y), lo, hi) == Cut(s, start, x + hi)
  {
    CutInside(s, x, y, lo, hi);
    CutJoins(s, start, x + lo, x + hi);
  }
}
