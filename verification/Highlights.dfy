/** Highlighted ranges of a search result: merged, then rendered as parts. */
module Highlights {
  import opened Prelude

  datatype Highlight = Highlight(start: int, end: int)
  datatype Part = Part(text: string, hit: bool)

  ghost predicate Covered(ranges: seq<Highlight>, p: int) {
    exists i :: 0 <= i < |ranges| && ranges[i].start <= p < ranges[i].end
  }

  predicate Ascending(ranges: seq<Highlight>) {
    forall i, j :: 0 <= i < j < |ranges| ==> ranges[i].start <= ranges[j].start
  }

  /** No two touch, and they come in order. */
  predicate Separate(ranges: seq<Highlight>) {
    forall i, j :: 0 <= i < j < |ranges| ==> ranges[i].end < ranges[j].start
  }

  function Insert(r: Highlight, sorted: seq<Highlight>): seq<Highlight> {
    if sorted == [] || r.start < sorted[0].start then [r] + sorted else [sorted[0]] + Insert(r, sorted[1..])
  }

  function Sorted(ranges: seq<Highlight>): seq<Highlight> {
    if ranges == [] then [] else Insert(ranges[|ranges| - 1], Sorted(ranges[..|ranges| - 1]))
  }

  lemma {:induction false} InsertFacts(r: Highlight, sorted: seq<Highlight>)
    requires Ascending(sorted)
    ensures Ascending(Insert(r, sorted)) && forall x :: x in Insert(r, sorted) <==> x == r || x in sorted
  {
    if sorted != [] && r.start >= sorted[0].start {
      var rest := Insert(r, sorted[1..]);
      InsertFacts(r, sorted[1..]);
      assert sorted == [sorted[0]] + sorted[1..];
      forall j | 0 <= j < |rest| ensures sorted[0].start <= rest[j].start {
        assert rest[j] in rest;
      }
    }
  }

  lemma {:induction false} SortedFacts(ranges: seq<Highlight>)
    ensures Ascending(Sorted(ranges)) && forall x :: x in Sorted(ranges) <==> x in ranges
  {
    if ranges != [] {
      var n := |ranges| - 1;
      SortedFacts(ranges[..n]);
      InsertFacts(ranges[n], Sorted(ranges[..n]));
      assert ranges == ranges[..n] + [ranges[n]];
    }
  }

  lemma CoveredByMembers(a: seq<Highlight>, b: seq<Highlight>, p: int)
    requires forall x :: x in a <==> x in b
    ensures Covered(a, p) <==> Covered(b, p)
  {
    if i :| 0 <= i < |a| && a[i].start <= p < a[i].end {
      assert a[i] in b;
    }
    if i :| 0 <= i < |b| && b[i].start <= p < b[i].end {
      assert b[i] in a;
    }
  }

  lemma CoveredSnoc(ranges: seq<Highlight>, r: Highlight, p: int)
    ensures Covered(ranges + [r], p) <==> Covered(ranges, p) || r.start <= p < r.end
  {
    var all := ranges + [r];
    if i :| 0 <= i < |ranges| && ranges[i].start <= p < ranges[i].end {
      assert all[i] == ranges[i];
    }
    assert all[|ranges|] == r;
    if i :| 0 <= i < |all| && all[i].start <= p < all[i].end {
      assert i < |ranges| ==> ranges[i] == all[i];
    }
  }

  /** Extends the last range, or starts another. */
  function Join(merged: seq<Highlight>, r: Highlight): seq<Highlight> {
    if merged != [] && r.start <= merged[|merged| - 1].end then
      var last := merged[|merged| - 1];
      merged[..|merged| - 1] + [last.(end := Max(last.end, r.end))]
    else merged + [r]
  }

  lemma JoinCovers(merged: seq<Highlight>, r: Highlight, p: int)
    requires forall x :: x in merged ==> x.start <= r.start
    ensures Covered(Join(merged, r), p) <==> Covered(merged, p) || r.start <= p < r.end
  {
    if merged != [] && r.start <= merged[|merged| - 1].end {
      var init, last := merged[..|merged| - 1], merged[|merged| - 1];
      assert merged == init + [last];
      assert last in merged;
      CoveredSnoc(init, last, p);
      CoveredSnoc(init, last.(end := Max(last.end, r.end)), p);
    } else {
      CoveredSnoc(merged, r, p);
    }
  }

  /** The merge of the ranges seen so far. */
  ghost predicate Merging(seen: seq<Highlight>, merged: seq<Highlight>) {
    && Ascending(merged) && Separate(merged)
    && (forall p :: Covered(merged, p) <==> Covered(seen, p))
    && (forall x :: x in merged ==> seen != [] && x.start <= seen[|seen| - 1].start)
  }

  lemma MergeOne(seen: seq<Highlight>, merged: seq<Highlight>, r: Highlight)
    requires Merging(seen, merged) && (seen != [] ==> seen[|seen| - 1].start <= r.start)
    ensures Merging(seen + [r], Join(merged, r))
  {
    forall p ensures Covered(Join(merged, r), p) <==> Covered(seen + [r], p) {
      JoinCovers(merged, r, p);
      CoveredSnoc(seen, r, p);
    }
  }

  lemma MergeNext(sorted: seq<Highlight>, i: nat, merged: seq<Highlight>)
    requires Ascending(sorted) && i < |sorted| && Merging(sorted[..i], merged)
    ensures Merging(sorted[..i + 1], Join(merged, sorted[i]))
  {
    MergeOne(sorted[..i], merged, sorted[i]);
    assert sorted[..i + 1] == sorted[..i] + [sorted[i]];
  }

  lemma MergedAll(ranges: seq<Highlight>, merged: seq<Highlight>)
    requires Merging(Sorted(ranges), merged)
    ensures forall p :: Covered(merged, p) <==> Covered(ranges, p)
  {
    SortedFacts(ranges);
    forall p ensures Covered(merged, p) <==> Covered(ranges, p) {
      CoveredByMembers(Sorted(ranges), ranges, p);
    }
  }

  /** The merged ranges cover exactly the same positions, in order, and no two
   *  of them touch. */
  method MergeRanges(ranges: seq<Highlight>) returns (merged: seq<Highlight>)
    ensures forall p :: Covered(merged, p) <==> Covered(ranges, p)
    ensures Ascending(merged) && Separate(merged)
  {
    var sorted := Sorted(ranges);
    SortedFacts(ranges);
    merged := [];
    for i := 0 to |sorted|
      invariant Merging(sorted[..i], merged)
    {
      var range := sorted[i];
      MergeNext(sorted, i, merged);
      var n := |merged|;
      if n > 0 && range.start <= merged[n - 1].end {
        merged := merged[..n - 1] + [merged[n - 1].(end := Max(merged[n - 1].end, range.end))];
      } else {
        merged := merged + [range];
      }
    }
    assert sorted[..|sorted|] == sorted;
    MergedAll(ranges, merged);
  }

  // ---- Rendering ----

  function Text(parts: seq<Part>): string {
    if parts == [] then "" else Text(parts[..|parts| - 1]) + parts[|parts| - 1].text
  }

  /** Per letter, whether it is highlighted. */
  function Marks(parts: seq<Part>): seq<bool> {
    if parts == [] then []
    else Marks(parts[..|parts| - 1]) + seq(|parts[|parts| - 1].text|, _ => parts[|parts| - 1].hit)
  }

  ghost predicate MarksUpTo(ranges: seq<Highlight>, marks: seq<bool>) {
    forall p :: 0 <= p < |marks| ==> (marks[p] <==> Covered(ranges, p))
  }

  /** Where highlighting of a text can start. Ends may lie past the text: a match
   *  in a lower case that is longer than the text gives such ranges. */
  predicate Starts(ranges: seq<Highlight>) {
    forall i :: 0 <= i < |ranges| ==> 0 <= ranges[i].start <= ranges[i].end
  }

  /** The letters from `start` to `end`, as far as there are any. */
  function Slice(value: string, start: nat, end: nat): string
    requires start <= end
  {
    value[Min(start, |value|)..Min(end, |value|)]
  }

  /** The parts spell the value and mark it rightly, up to the cursor. */
  ghost predicate Rendered(value: string, ranges: seq<Highlight>, parts: seq<Part>, cursor: nat) {
    var upTo := Min(cursor, |value|);
    Text(parts) == value[..upTo] && |Marks(parts)| == upTo && MarksUpTo(ranges, Marks(parts))
  }

  lemma RenderMore(value: string, ranges: seq<Highlight>, parts: seq<Part>, cursor: nat, to: nat, hit: bool)
    requires Rendered(value, ranges, parts, cursor) && cursor <= to
    requires forall p :: cursor <= p < to ==> (Covered(ranges, p) <==> hit)
    ensures Rendered(value, ranges, parts + [Part(Slice(value, cursor, to), hit)], to)
  {
    assert value[..Min(cursor, |value|)] + Slice(value, cursor, to) == value[..Min(to, |value|)];
  }

  /** Nothing between a range and the next, or behind the last, is covered. */
  lemma GapIsPlain(ranges: seq<Highlight>, i: nat)
    requires i <= |ranges| && Separate(ranges) && Ascending(ranges) && Starts(ranges)
    ensures forall p :: (if i == 0 then 0 else ranges[i - 1].end) <= p && (i < |ranges| ==> p < ranges[i].start) ==>
      !Covered(ranges, p)
  {
  }

  /** The parts spell the value, and a letter is in a highlighted part exactly
   *  when a range covers it, wherever the ranges end. */
  method HighlightParts(value: string, ranges: seq<Highlight>) returns (parts: seq<Part>)
    requires Separate(ranges) && Ascending(ranges) && Starts(ranges)
    ensures Text(parts) == value && |Marks(parts)| == |value| && MarksUpTo(ranges, Marks(parts))
  {
    if ranges == [] {
      RenderMore(value, ranges, [], 0, |value|, false);
      assert Slice(value, 0, |value|) == value && [] + [Part(value, false)] == [Part(value, false)];
      return [Part(value, false)];
    }
    parts := [];
    var cursor: nat := 0;
    for i := 0 to |ranges|
      invariant cursor == if i == 0 then 0 else ranges[i - 1].end
      invariant Rendered(value, ranges, parts, cursor)
    {
      var range := ranges[i];
      assert i > 0 ==> ranges[i - 1].end < range.start;
      if range.start > cursor {
        GapIsPlain(ranges, i);
        RenderMore(value, ranges, parts, cursor, range.start, false);
        parts := parts + [Part(Slice(value, cursor, range.start), false)];
      }
      assert Rendered(value, ranges, parts, range.start);
      RenderMore(value, ranges, parts, range.start, range.end, true);
      parts := parts + [Part(Slice(value, range.start, range.end), true)];
      cursor := range.end;
    }
    if cursor < |value| {
      GapIsPlain(ranges, |ranges|);
      RenderMore(value, ranges, parts, cursor, |value|, false);
      parts := parts + [Part(Slice(value, cursor, |value|), false)];
    }
  }
}
