/** A ranged read of a content blob, through every tier. */
module ReadPath {
  // Ranges go through the window cache, the disk cache (which lets them
  // through), the head and tail bookends, and the sharded primary store. Between
  // any two steps of a read, copies of pieces of the blob are read, land and are
  // lost; content keys are written once.

  import opened Cuts
  import opened Prelude

  type Key = string

  /** Where window `w` starts. */
  function StartOf(w: nat, size: nat): (start: nat) {
    if w == 0 then 0 else StartOf(w - 1, size) + size
  }

  lemma {:induction false} StartOfIsProduct(w: nat, size: nat)
    ensures StartOf(w, size) == w * size
  {
    if w > 0 {
      StartOfIsProduct(w - 1, size);
      assert w * size == (w - 1) * size + size;
    }
  }

  /** The pieces of a blob that are kept apart from it. */
  datatype Spot = Head(key: Key) | Tail(key: Key) | Window(key: Key, number: nat)

  datatype Geometry = Geometry(headBytes: nat, tailBytes: nat, windowBytes: nat)

  function HeadEnd(g: Geometry, total: nat): int {
    Min(g.headBytes, total) - 1
  }

  function TailStart(g: Geometry, total: nat): int {
    Max(0, total - g.tailBytes)
  }

  /** The bytes a copy in the spot must hold, by the true size of the blob. */
  function Piece(g: Geometry, blob: Bytes, spot: Spot): Bytes {
    match spot
    case Head(_) => Cut(blob, 0, HeadEnd(g, |blob|) + 1)
    case Tail(_) => Cut(blob, TailStart(g, |blob|), |blob|)
    case Window(_, w) => Cut(blob, StartOf(w, g.windowBytes), StartOf(w, g.windowBytes) + g.windowBytes)
  }

  datatype Flight = Flight(spot: Spot, bytes: Bytes)

  /** `primary` is the plain map a sharded store stands for; `copies` are the bookends and the
   *  windows that exist, `flights` the copies under way; `blobs` is history,
   *  everything ever stored. */
  datatype Tiers = Tiers(primary: map<Key, Bytes>, copies: map<Spot, Bytes>, flights: set<Flight>, blobs: map<Key, Bytes>)

  // ---- Reads ----

  function PrimaryGet(t: Tiers, key: Key, start: int, end: int): Option<Bytes> {
    if key in t.primary then Some(Cut(t.primary[key], start, end + 1)) else None
  }

  /** A ranged read below the caches: from a bookend when the range lies in
   *  one that exists, else from the primary store. */
  function RoutedGet(g: Geometry, t: Tiers, key: Key, start: int, end: int, total: nat): Option<Bytes> {
    var headEnd, tailStart := HeadEnd(g, total), TailStart(g, total);
    if total > 0 && end <= headEnd && Head(key) in t.copies then
      Some(Cut(t.copies[Head(key)], start, end + 1))
    else if total > 0 && end > headEnd && start >= tailStart > headEnd && Tail(key) in t.copies then
      Some(Cut(t.copies[Tail(key)], start - tailStart, end - tailStart + 1))
    else PrimaryGet(t, key, start, end)
  }

  // ---- Steps of everything else ----

  datatype Step =
    | Put(key: Key, bytes: Bytes)
    | Remove(key: Key)
    | Read(spot: Spot, sized: bool)
    | Land(flight: Flight)
    | Lose(spot: Spot)

  /** What a copy reads on its way to the spot: bookends from the primary
   *  store, windows from below the caches, with or without the size. */
  function Source(g: Geometry, t: Tiers, spot: Spot, sized: bool): Option<Bytes> {
    if spot.key !in t.blobs then None
    else
      var size := |t.blobs[spot.key]|;
      match spot
      case Head(key) => PrimaryGet(t, key, 0, HeadEnd(g, size))
      case Tail(key) => PrimaryGet(t, key, TailStart(g, size), size - 1)
      case Window(key, w) =>
        RoutedGet(g, t, key, StartOf(w, g.windowBytes), StartOf(w, g.windowBytes) + g.windowBytes - 1, if sized then size else 0)
  }

  function Apply(g: Geometry, t: Tiers, step: Step): Tiers {
    match step
    case Put(key, bytes) =>
      if key in t.blobs then t
      else t.(primary := t.primary[key := bytes], blobs := t.blobs[key := bytes])
    case Remove(key) => t.(primary := t.primary - {key}, copies := t.copies - {Head(key), Tail(key)})
    case Read(spot, sized) =>
      var bytes := Source(g, t, spot, sized);
      if bytes.Some? then t.(flights := t.flights + {Flight(spot, bytes.value)}) else t
    case Land(flight) =>
      if flight in t.flights then
        t.(copies := t.copies[flight.spot := flight.bytes], flights := t.flights - {flight})
      else t
    case Lose(spot) => t.(copies := t.copies - {spot})
  }

  function Execute(g: Geometry, t: Tiers, steps: seq<Step>): Tiers
    decreases |steps|
  {
    if steps == [] then t else Execute(g, Apply(g, t, steps[0]), steps[1..])
  }

  const EMPTY := Tiers(map[], map[], {}, map[])

  // ---- Invariant ----

  ghost predicate Right(g: Geometry, t: Tiers, spot: Spot, bytes: Bytes) {
    spot.key in t.blobs && bytes == Piece(g, t.blobs[spot.key], spot)
  }

  /** Whatever exists of a blob, in the primary store, in a copy or on its way
   *  to one, is what was stored. */
  ghost predicate Sound(g: Geometry, t: Tiers) {
    && (forall key :: key in t.primary ==> key in t.blobs && t.primary[key] == t.blobs[key])
    && (forall spot :: spot in t.copies ==> Right(g, t, spot, t.copies[spot]))
    && (forall f :: f in t.flights ==> Right(g, t, f.spot, f.bytes))
  }

  /** A ranged read below the caches answers with the stored bytes, with the
   *  true size or with none, whichever bookends exist and even from one that
   *  outlived its blob. */
  lemma RoutedGetIsExact(g: Geometry, t: Tiers, key: Key, start: int, end: int, sized: bool)
    requires Sound(g, t) && key in t.blobs && 0 <= start <= end + 1
    ensures var r := RoutedGet(g, t, key, start, end, if sized then |t.blobs[key]| else 0);
      && (key in t.primary ==> r.Some?)
      && (r.Some? ==> r.value == Cut(t.blobs[key], start, end + 1))
  {
    var blob := t.blobs[key];
    var headEnd, tailStart := HeadEnd(g, |blob|), TailStart(g, |blob|);
    if sized && |blob| > 0 && end <= headEnd && Head(key) in t.copies {
      assert Right(g, t, Head(key), t.copies[Head(key)]);
      CutInside(blob, 0, headEnd + 1, start, end + 1);
    } else if sized && |blob| > 0 && end > headEnd && start >= tailStart > headEnd && Tail(key) in t.copies {
      assert Right(g, t, Tail(key), t.copies[Tail(key)]);
      CutOfRest(blob, tailStart, start - tailStart, end + 1 - tailStart);
    }
  }

  lemma SourceIsRight(g: Geometry, t: Tiers, spot: Spot, sized: bool)
    requires Sound(g, t) && Source(g, t, spot, sized).Some?
    ensures Right(g, t, spot, Source(g, t, spot, sized).value)
  {
    if spot.Window? {
      var start: int := StartOf(spot.number, g.windowBytes);
      RoutedGetIsExact(g, t, spot.key, start, start + g.windowBytes - 1, sized);
    }
  }

  lemma SoundStep(g: Geometry, t: Tiers, step: Step)
    requires Sound(g, t)
    ensures Sound(g, Apply(g, t, step))
  {
    var t' := Apply(g, t, step);
    if step.Read? && Source(g, t, step.spot, step.sized).Some? {
      SourceIsRight(g, t, step.spot, step.sized);
    }
    forall spot | spot in t'.copies ensures Right(g, t', spot, t'.copies[spot]) {
    }
    forall f | f in t'.flights ensures Right(g, t', f.spot, f.bytes) {
    }
  }

  lemma {:induction false} SoundRun(g: Geometry, t: Tiers, steps: seq<Step>)
    requires Sound(g, t)
    ensures Sound(g, Execute(g, t, steps))
    decreases |steps|
  {
    if steps != [] {
      SoundStep(g, t, steps[0]);
      SoundRun(g, Apply(g, t, steps[0]), steps[1..]);
    }
  }

  /** A blob that is put is there; a copy of it that is read and lands holds the
   *  piece its place must hold, and is under way no more; a remove takes the blob
   *  and its ends, and leaves its windows; a copy that is lost is gone. */
  lemma PutCopiedRemoved(g: Geometry, t: Tiers, key: Key, bytes: Bytes, spot: Spot, sized: bool)
    requires Sound(g, t) && key !in t.blobs && spot.key == key
    ensures var stored := Apply(g, t, Put(key, bytes));
      var copy := Flight(spot, Piece(g, bytes, spot));
      var copied := Apply(g, Apply(g, stored, Read(spot, sized)), Land(copy));
      var removed := Apply(g, copied, Remove(key));
      && stored == t.(primary := t.primary[key := bytes], blobs := t.blobs[key := bytes])
      && copied == stored.(copies := stored.copies[spot := copy.bytes])
      && key !in removed.primary && Head(key) !in removed.copies && Tail(key) !in removed.copies
      && (spot.Window? ==> spot in removed.copies) && removed.blobs == stored.blobs
      && (forall other :: other != key ==> PrimaryGet(removed, other, 0, 0) == PrimaryGet(stored, other, 0, 0))
      && spot !in Apply(g, copied, Lose(spot)).copies
  {
    var stored := Apply(g, t, Put(key, bytes));
    assert key !in t.primary;
    SoundStep(g, t, Put(key, bytes));
    CopyLands(g, stored, spot, sized);
    assert forall f :: f in t.flights ==> Right(g, t, f.spot, f.bytes);
  }

  lemma CopyLands(g: Geometry, t: Tiers, spot: Spot, sized: bool)
    requires Sound(g, t) && spot.key in t.primary
    requires Flight(spot, Piece(g, t.blobs[spot.key], spot)) !in t.flights
    ensures var copy := Flight(spot, Piece(g, t.blobs[spot.key], spot));
      Apply(g, Apply(g, t, Read(spot, sized)), Land(copy)) == t.(copies := t.copies[spot := copy.bytes])
  {
    var copy := Flight(spot, Piece(g, t.blobs[spot.key], spot));
    assert Source(g, t, spot, sized).Some? by {
      if spot.Window? {
        var start: int := StartOf(spot.number, g.windowBytes);
        RoutedGetIsExact(g, t, spot.key, start, start + g.windowBytes - 1, sized);
      }
    }
    SourceIsRight(g, t, spot, sized);
    assert t.flights + {copy} - {copy} == t.flights;
  }

  lemma {:induction false} BlobsStay(g: Geometry, t: Tiers, steps: seq<Step>, key: Key)
    requires key in t.blobs
    ensures var t' := Execute(g, t, steps); key in t'.blobs && t'.blobs[key] == t.blobs[key]
    decreases |steps|
  {
    if steps != [] {
      BlobsStay(g, Apply(g, t, steps[0]), steps[1..], key);
    }
  }

  /** The moments are those of a run from nothing: `before` comes first, and
   *  `between(j)` passes between moment `j` and the next. */
  ghost predicate OfARun(g: Geometry, before: seq<Step>, at: nat -> Tiers, between: nat -> seq<Step>) {
    && at(0) == Execute(g, EMPTY, before)
    && forall j: nat :: at(j + 1) == Execute(g, at(j), between(j))
  }

  /** What a reader may rely on at every moment of a run that starts with the
   *  blob stored: the tiers are sound and the blob is the one stored. */
  lemma {:induction false} MomentsOfARun(g: Geometry, before: seq<Step>, at: nat -> Tiers, between: nat -> seq<Step>, key: Key, i: nat)
    requires OfARun(g, before, at, between) && key in at(0).blobs
    ensures Sound(g, at(i)) && key in at(i).blobs && at(i).blobs[key] == at(0).blobs[key]
  {
    if i == 0 {
      SoundRun(g, EMPTY, before);
    } else {
      MomentsOfARun(g, before, at, between, key, i - 1);
      assert at(i) == at((i - 1) + 1) == Execute(g, at(i - 1), between(i - 1));
      SoundRun(g, at(i - 1), between(i - 1));
      BlobsStay(g, at(i - 1), between(i - 1), key);
    }
  }

  lemma {:induction false} StaysStored(g: Geometry, t: Tiers, steps: seq<Step>, key: Key)
    requires key in t.primary && Remove(key) !in steps
    ensures key in Execute(g, t, steps).primary
    decreases |steps|
  {
    if steps != [] {
      StaysStored(g, Apply(g, t, steps[0]), steps[1..], key);
    }
  }

  lemma {:induction false} StoredAtEveryMoment(g: Geometry, before: seq<Step>, at: nat -> Tiers, between: nat -> seq<Step>, key: Key, i: nat)
    requires OfARun(g, before, at, between) && key in at(0).primary
    requires forall j: nat :: Remove(key) !in between(j)
    ensures key in at(i).primary
  {
    if i > 0 {
      StoredAtEveryMoment(g, before, at, between, key, i - 1);
      assert at((i - 1) + 1) == Execute(g, at(i - 1), between(i - 1));
      StaysStored(g, at(i - 1), between(i - 1), key);
    }
  }

  // ---- The window cache's read ----

  lemma {:induction false} StartsAscend(v: nat, w: nat, size: nat)
    requires v <= w
    ensures StartOf(v, size) <= StartOf(w, size)
  {
    if v < w {
      StartsAscend(v, w - 1, size);
    }
  }

  /** The window a position lies in. */
  method WindowAt(position: nat, size: nat) returns (w: nat)
    requires size > 0
    ensures StartOf(w, size) <= position < StartOf(w, size) + size
  {
    w := position / size;
    StartOfIsProduct(w, size);
    assert position == position / size * size + position % size;
  }

  lemma FirstIsFirst(first: nat, last: nat, start: nat, end: nat, size: nat)
    requires start < StartOf(first, size) + size && StartOf(last, size) <= end && start <= end
    requires StartOf(first, size) <= start && end < StartOf(last, size) + size
    ensures first <= last
  {
    if last < first {
      StartsAscend(last + 1, first, size);
    }
  }

  lemma NextStart(w: nat, size: nat)
    ensures StartOf(w + 1, size) == StartOf(w, size) + size
  {
  }

  /** A window between the first and the last of a range has bytes in it. */
  lemma WindowsMeet(first: nat, w: nat, last: nat, start: nat, end: nat, size: nat)
    requires first <= w <= last && start < StartOf(first, size) + size && StartOf(last, size) <= end
    ensures start < StartOf(w, size) + size && StartOf(w, size) <= end
  {
    StartsAscend(first, w, size);
    StartsAscend(w, last, size);
  }

  /** Where a read has got to when it reaches the window that starts at `s`. */
  function Reached(s: int, start: int, end: int): int {
    if s <= start then start else if s <= end then s else end + 1
  }

  /** The window's share, in its own offsets, takes the read on to the next. */
  lemma Share(s: int, start: int, end: int, size: int)
    requires start <= end && s <= end && start < s + size && 0 < size
    ensures var from, to := Max(start, s) - s, Min(end, s + size - 1) - s;
      && 0 <= from <= to < size
      && s + from == Reached(s, start, end) <= end
      && s + to + 1 == Reached(s + size, start, end)
  {
  }

  /** The moments a read looks at the tiers, in order: any run may pass between
   *  two of them, as long as the blob stays stored. */
  ghost predicate Moments(g: Geometry, at: nat -> Tiers, key: Key, blob: Bytes) {
    forall i :: Sound(g, at(i)) && key in at(i).primary && at(i).blobs[key] == blob
  }

  /** Every run that does not remove the blob gives such moments. */
  lemma MomentsHold(g: Geometry, before: seq<Step>, at: nat -> Tiers, between: nat -> seq<Step>, key: Key)
    requires OfARun(g, before, at, between) && key in at(0).primary
    requires forall j: nat :: Remove(key) !in between(j)
    ensures key in at(0).blobs && Moments(g, at, key, at(0).blobs[key])
  {
    SoundRun(g, EMPTY, before);
    forall i: nat ensures Sound(g, at(i)) && key in at(i).primary && at(i).blobs[key] == at(0).blobs[key] {
      MomentsOfARun(g, before, at, between, key, i);
      StoredAtEveryMoment(g, before, at, between, key, i);
    }
  }

  /** At a window that is not, a request below the cache covers the rest. */
  lemma ServesRest(g: Geometry, now: Tiers, key: Key, start: nat, here: int, end: nat, sized: bool)
    requires Sound(g, now) && key in now.primary && start <= here <= end
    ensures var blob := now.blobs[key];
      var rest := RoutedGet(g, now, key, here, end, if sized then |blob| else 0);
      rest.Some? && Cut(blob, start, here) + rest.value == Cut(blob, start, end + 1)
  {
    RoutedGetIsExact(g, now, key, here, end, sized);
    CutJoins(now.blobs[key], start, here, end + 1);
  }

  /** A share read out of a window's file goes on where the read has got to. */
  lemma ShareGoesOn<T>(blob: seq<T>, s: int, start: int, end: int, size: int)
    requires 0 <= s && 0 <= start <= end && s <= end && start < s + size && 0 < size
    ensures var from, to := Max(start, s) - s, Min(end, s + size - 1) - s;
      Cut(blob, start, Reached(s, start, end)) + Cut(Cut(blob, s, s + size), from, to + 1)
      == Cut(blob, start, Reached(s + size, start, end))
  {
    Share(s, start, end, size);
    CutGoesOn(blob, start, s, s + size, Max(start, s) - s, Min(end, s + size - 1) - s + 1);
  }

  /** Reads a window's share of the range out of its file. */
  method ReadWindow(g: Geometry, now: Tiers, key: Key, w: nat, start: nat, end: nat, ghost out: Bytes) returns (share: Bytes)
    requires Sound(g, now) && Window(key, w) in now.copies && start <= end && g.windowBytes > 0
    requires StartOf(w, g.windowBytes) <= end && start < StartOf(w, g.windowBytes) + g.windowBytes
    requires out == Cut(now.blobs[key], start, Reached(StartOf(w, g.windowBytes), start, end))
    ensures out + share == Cut(now.blobs[key], start, Reached(StartOf(w + 1, g.windowBytes), start, end))
  {
    var windowStart: int := StartOf(w, g.windowBytes);
    var from := Max(start, windowStart) - windowStart;
    var to := Min(end, windowStart + g.windowBytes - 1) - windowStart;
    share := Cut(now.copies[Window(key, w)], from, to + 1);
    assert Right(g, now, Window(key, w), now.copies[Window(key, w)]);
    ShareGoesOn(now.blobs[key], windowStart, start, end, g.windowBytes);
    NextStart(w, g.windowBytes);
  }

  /** Reads the rest of the range from below the cache. */
  method ReadRest(g: Geometry, now: Tiers, key: Key, w: nat, start: nat, end: nat, total: nat, ghost out: Bytes)
      returns (rest: Bytes)
    requires Sound(g, now) && key in now.primary && start <= end && g.windowBytes > 0 && (total == 0 || total == |now.blobs[key]|)
    requires StartOf(w, g.windowBytes) <= end && start < StartOf(w, g.windowBytes) + g.windowBytes
    requires out == Cut(now.blobs[key], start, Reached(StartOf(w, g.windowBytes), start, end))
    ensures out + rest == Cut(now.blobs[key], start, end + 1)
  {
    var windowStart: int := StartOf(w, g.windowBytes);
    var from := Max(start, windowStart) - windowStart;
    Share(windowStart, start, end, g.windowBytes);
    ServesRest(g, now, key, start, windowStart + from, end, total != 0);
    rest := RoutedGet(g, now, key, windowStart + from, end, total).value;
  }

  /** The bytes of the range that the blob has. */
  function Range(blob: Bytes, start: nat, end: nat): Bytes {
    if start < |blob| && start <= end then blob[start..Min(end, |blob| - 1) + 1] else []
  }

  lemma RangeIsCut(blob: Bytes, start: nat, end: nat)
    requires start <= end
    ensures Range(blob, start, end) == Cut(blob, start, end + 1)
  {
    CutIsSlice(blob, start, end + 1);
  }

  /** What has been sent when a window is reached is how the range begins. */
  lemma SoFar(blob: Bytes, s: int, start: nat, end: nat)
    requires start <= end
    ensures Cut(blob, start, Reached(s, start, end)) <= Range(blob, start, end)
  {
    RangeIsCut(blob, start, end);
    CutJoins(blob, start, Reached(s, start, end), end + 1);
  }

  /** The window has bytes of the range. */
  predicate Touches(w: nat, start: nat, end: nat, size: nat) {
    start < StartOf(w, size) + size && StartOf(w, size) <= end
  }

  lemma Ascending(v: nat, w: nat, size: nat)
    ensures v < w ==> StartOf(v, size) + size <= StartOf(w, size)
  {
    if v < w {
      StartsAscend(v + 1, w, size);
    }
  }

  lemma TouchedAreBetween(first: nat, w: nat, last: nat, start: nat, end: nat, size: nat)
    requires StartOf(first, size) <= start && end < StartOf(last, size) + size && Touches(w, start, end, size)
    ensures first <= w <= last
  {
    Ascending(w, first, size);
    Ascending(last, w, size);
  }

  lemma AllBetween(first: nat, last: nat, start: nat, end: nat, size: nat)
    requires StartOf(first, size) <= start && end < StartOf(last, size) + size
    ensures forall w: nat :: Touches(w, start, end, size) ==> first <= w <= last
  {
    forall w: nat | Touches(w, start, end, size) ensures first <= w <= last {
      TouchedAreBetween(first, w, last, start, end, size);
    }
  }

  /** The windows of the range from the given one on. */
  method FillsFrom(w: nat, ghost first: nat, last: nat, ghost start: nat, ghost end: nat, ghost size: nat)
      returns (fills: seq<nat>)
    requires first <= w <= last && start < StartOf(first, size) + size && StartOf(last, size) <= end
    ensures fills != [] && fills[0] == w
    ensures forall i :: 0 <= i < |fills| ==> fills[i] == w + i && Touches(fills[i], start, end, size)
    ensures forall v: nat :: w <= v <= last ==> v in fills
  {
    fills := [];
    for missed := w to last + 1
      invariant |fills| == missed - w && forall i :: 0 <= i < |fills| ==> fills[i] == w + i
      invariant forall i :: 0 <= i < |fills| ==> Touches(fills[i], start, end, size)
      invariant forall v: nat :: w <= v < missed ==> v in fills
    {
      WindowsMeet(first, missed, last, start, end, size);
      fills := fills + [missed];
    }
  }

  /** The window's file was there to be read when its turn came. */
  predicate WasHere(at: nat -> Tiers, opens: nat -> bool, key: Key, w: nat) {
    Window(key, w) in at(w).copies && opens(w)
  }

  /** The windows one after another, from their files as long as they are here;
   *  at the first that is not, one request below the cache covers the rest. */
  method ServeWindows(g: Geometry, at: nat -> Tiers, key: Key, first: nat, last: nat, start: nat, end: nat, total: nat,
        opens: nat -> bool, ghost blob: Bytes)
      returns (out: Bytes, whole: bool, fills: seq<nat>)
    requires g.windowBytes > 0 && start <= end && first <= last && Moments(g, at, key, blob) && (total == 0 || total == |blob|)
    requires StartOf(first, g.windowBytes) <= start < StartOf(first, g.windowBytes) + g.windowBytes
    requires StartOf(last, g.windowBytes) <= end < StartOf(last, g.windowBytes) + g.windowBytes
    ensures whole ==> out == Range(blob, start, end)
    ensures !whole ==> out <= Range(blob, start, end) && fills == []
    ensures !whole ==> exists w: nat :: Window(key, w) in at(w).copies && !opens(w)
    ensures fills != [] ==> Window(key, fills[0]) !in at(fills[0]).copies
    ensures forall i :: 0 <= i < |fills| ==> fills[i] == fills[0] + i && Touches(fills[i], start, end, g.windowBytes)
    ensures forall v: nat :: whole && first <= v <= last && v !in fills ==> WasHere(at, opens, key, v)
  {
    RangeIsCut(blob, start, end);
    var w := first;
    out, fills := [], [];
    while w <= last
      invariant first <= w <= last + 1
      invariant forall v: nat :: first <= v < w ==> WasHere(at, opens, key, v)
      invariant out == Cut(blob, start, Reached(StartOf(w, g.windowBytes), start, end))
      decreases last + 1 - w
    {
      WindowsMeet(first, w, last, start, end, g.windowBytes);
      var now := at(w);
      if Window(key, w) !in now.copies {
        fills := FillsFrom(w, first, last, start, end, g.windowBytes);
        var rest := ReadRest(g, now, key, w, start, end, total, out);
        return out + rest, true, fills;
      }
      if !opens(w) {
        assert Window(key, w) in at(w).copies;
        SoFar(blob, StartOf(w, g.windowBytes), start, end);
        return out, false, [];
      }
      var share := ReadWindow(g, now, key, w, start, end, out);
      out := out + share;
      w := w + 1;
    }
    NextStart(last, g.windowBytes);
    whole := true;
  }

  /** Serves the range window by window, from those that are here at the moment
   *  they are reached; at the first that is not, one request below the cache
   *  covers the rest, and a fill begins for it and for each window after it that
   *  has bytes of the range, in turn. Whatever run came before the read, and
   *  whatever passes between its moments short of removing the blob, the bytes are
   *  the stored ones. A window's file that is gone by the time it is opened breaks
   *  the read off; what has been sent by then is right as far as it goes. */
  method Serve(g: Geometry, at: nat -> Tiers, key: Key, start: nat, end: nat, total: nat,
        opens: nat -> bool, ghost before: seq<Step>, ghost between: nat -> seq<Step>)
      returns (out: Bytes, whole: bool, fills: seq<nat>)
    requires g.windowBytes > 0 && start <= end
    requires OfARun(g, before, at, between) && key in at(0).primary && key in at(0).blobs
    requires forall j: nat :: Remove(key) !in between(j)
    requires total == 0 || total == |at(0).blobs[key]|
    ensures whole ==> out == Range(at(0).blobs[key], start, end)
    ensures !whole ==> out <= Range(at(0).blobs[key], start, end) && fills == []
    ensures !whole ==> exists w: nat :: Window(key, w) in at(w).copies && !opens(w)
    ensures fills != [] ==> Window(key, fills[0]) !in at(fills[0]).copies
    ensures forall i :: 0 <= i < |fills| ==> fills[i] == fills[0] + i && Touches(fills[i], start, end, g.windowBytes)
    ensures forall v: nat :: whole && Touches(v, start, end, g.windowBytes) && v !in fills ==> WasHere(at, opens, key, v)
  {
    MomentsHold(g, before, at, between, key);
    var first := WindowAt(start, g.windowBytes);
    var last := WindowAt(end, g.windowBytes);
    FirstIsFirst(first, last, start, end, g.windowBytes);
    AllBetween(first, last, start, end, g.windowBytes);
    out, whole, fills := ServeWindows(g, at, key, first, last, start, end, total, opens, at(0).blobs[key]);
  }
}
