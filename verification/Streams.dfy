/** What blob bytes pass through on their way: streams arrive cut into chunks. */
module Streams {
  import opened Cuts
  import opened Prelude

  /** The bytes of a stream, however it is cut. */
  function Flat(chunks: seq<Bytes>): Bytes {
    if chunks == [] then [] else chunks[0] + Flat(chunks[1..])
  }

  lemma {:induction false} FlatSnoc(chunks: seq<Bytes>, chunk: Bytes)
    ensures Flat(chunks + [chunk]) == Flat(chunks) + chunk
  {
    if chunks == [] {
      assert chunks + [chunk] == [chunk] && [chunk][1..] == [];
    } else {
      assert (chunks + [chunk])[1..] == chunks[1..] + [chunk];
      FlatSnoc(chunks[1..], chunk);
    }
  }

  lemma {:induction false} FlatJoin(a: seq<Bytes>, b: seq<Bytes>)
    ensures Flat(a + b) == Flat(a) + Flat(b)
  {
    if a == [] {
      assert a + b == b;
    } else {
      assert (a + b)[1..] == a[1..] + b;
      FlatJoin(a[1..], b);
    }
  }

  /** The chunks read so far are a part of the stream. */
  lemma FlatPrefix(chunks: seq<Bytes>, i: nat)
    requires i < |chunks|
    ensures Flat(chunks[..i + 1]) == Flat(chunks[..i]) + chunks[i]
  {
    assert chunks[..i + 1] == chunks[..i] + [chunks[i]];
    FlatSnoc(chunks[..i], chunks[i]);
  }

  /** More stream does not change a cut that is complete. */
  lemma CutIsDone(a: Bytes, b: Bytes, start: nat, length: nat)
    requires |a| >= start + length
    ensures Cut(a + b, start, start + length) == Cut(a, start, start + length)
  {
    CutIsSlice(a + b, start, start + length);
    CutIsSlice(a, start, start + length);
  }

  /** A chunk's contribution to a cut of the stream: none of what is skipped,
   *  then no more than is still wanted. */
  lemma CutGrows(a: Bytes, chunk: Bytes, start: nat, length: nat, skip: nat, pass: nat)
    requires skip == Min(Max(0, start - |a|), |chunk|)
    requires pass == Min(|chunk| - skip, length - |Cut(a, start, start + length)|)
    ensures Cut(a + chunk, start, start + length) == Cut(a, start, start + length) + chunk[skip..skip + pass]
  {
    var all := a + chunk;
    CutIsSlice(all, start, start + length);
    CutIsSlice(a, start, start + length);
    var lo, hi := Min(start, |all|), Min(start + length, |all|);
    if |a| <= start {
      assert hi == |a| + skip + pass && lo == |a| + skip;
      assert all[lo..hi] == chunk[skip..skip + pass];
    } else if start + length <= |a| {
      assert pass == 0;
      assert all[lo..hi] == a[lo..hi];
    } else {
      assert skip == 0 && hi == |a| + pass;
      assert all[lo..hi] == a[lo..] + chunk[..pass];
    }
  }

  lemma CutLength(a: Bytes, start: nat, length: nat)
    ensures |Cut(a, start, start + length)| == Max(0, Min(length, |a| - start))
  {
    CutIsSlice(a, start, start + length);
  }

  /** Lets one range of the source through, and skips what is before it. */
  method SliceRange(source: seq<Bytes>, start: nat, length: nat) returns (out: seq<Bytes>)
    ensures Flat(out) == Cut(Flat(source), start, start + length)
    ensures forall i :: 0 <= i < |out| ==> out[i] != []
  {
    var toSkip, remaining := start, length;
    var i := 0;
    out := [];
    while i < |source|
      invariant 0 <= i <= |source|
      invariant Flat(out) == Cut(Flat(source[..i]), start, start + length)
      invariant toSkip == Max(0, start - |Flat(source[..i])|)
      invariant remaining == length - |Flat(out)|
      invariant toSkip > 0 ==> out == []
      invariant forall i :: 0 <= i < |out| ==> out[i] != []
    {
      var window := source[i];
      ghost var before := Flat(source[..i]);
      FlatPrefix(source, i);
      var dropped := Min(toSkip, |window|);
      CutLength(before, start, length);
      CutGrows(before, source[i], start, length, dropped, Min(|window| - dropped, remaining));
      toSkip := toSkip - dropped;
      window := window[dropped..];
      i := i + 1;
      if |window| > 0 && remaining > 0 {
        if |window| > remaining {
          window := window[..remaining];
        }
        remaining := remaining - |window|;
        FlatSnoc(out, window);
        out := out + [window];
        if remaining == 0 {
          StreamIsDone(source, i, start, length);
          return;
        }
      }
    }
    assert source[..|source|] == source;
  }

  lemma StreamIsDone(source: seq<Bytes>, i: nat, start: nat, length: nat)
    requires i <= |source| && |Cut(Flat(source[..i]), start, start + length)| == length > 0
    ensures Cut(Flat(source), start, start + length) == Cut(Flat(source[..i]), start, start + length)
  {
    assert source == source[..i] + source[i..];
    FlatJoin(source[..i], source[i..]);
    CutIsSlice(Flat(source[..i]), start, start + length);
    CutIsDone(Flat(source[..i]), Flat(source[i..]), start, length);
  }

  // ---- Buffering ----

  /** The whole source, buffered; or what was read of it and the rest. */
  datatype BufferedOrStream = Buffered(bytes: Bytes) | Stream(chunks: seq<Bytes>)

  lemma FlatLength(source: seq<Bytes>, i: nat)
    requires i <= |source|
    ensures |Flat(source[..i])| <= |Flat(source)|
  {
    assert source == source[..i] + source[i..];
    FlatJoin(source[..i], source[i..]);
  }

  /** Reads a stream whole if it fits, otherwise hands it all back. */
  method BufferUpTo(source: seq<Bytes>, cap: nat) returns (r: BufferedOrStream)
    ensures r.Buffered? <==> |Flat(source)| <= cap
    ensures Flat(source) == match r case Buffered(bytes) => bytes case Stream(chunks) => Flat(chunks)
  {
    var chunks: seq<Bytes> := [];
    var total := 0;
    while |chunks| < |source|
      invariant |chunks| <= |source| && chunks == source[..|chunks|]
      invariant total == |Flat(chunks)| <= cap
    {
      var piece := source[|chunks|];
      FlatPrefix(source, |chunks|);
      FlatLength(source, |chunks| + 1);
      chunks := chunks + [piece];
      total := total + |piece|;
      if total > cap {
        var next := |chunks|;
        var stream := chunks;
        while next < |source|
          invariant |chunks| <= next <= |source| && stream == source[..next]
        {
          stream := stream + [source[next]];
          next := next + 1;
        }
        assert stream == source;
        return Stream(stream);
      }
    }
    assert chunks == source;
    r := Buffered(Flat(chunks));
  }

  // ---- Limits ----

  /** Passes chunks on until they exceed the limit, and then fails. */
  method LimitBytes(source: seq<Bytes>, maxBytes: nat) returns (passed: Option<Bytes>)
    ensures passed == if |Flat(source)| <= maxBytes then Some(Flat(source)) else None
  {
    var written, i := 0, 0;
    var kept: Bytes := [];
    while i < |source|
      invariant 0 <= i <= |source| && written == |kept| <= maxBytes && kept == Flat(source[..i])
    {
      FlatPrefix(source, i);
      FlatLength(source, i + 1);
      written := written + |source[i]|;
      if written > maxBytes {
        return None;
      }
      kept := kept + source[i];
      i := i + 1;
    }
    assert source[..|source|] == source;
    passed := Some(kept);
  }
}
