/**
 * The local file store: blobs land whole under their name or not at all, and
 * large ones are assembled from parts that arrive in any order, and again.
 */
module FsBlobs {
  import opened Prelude
  import opened Streams

  type Key = string

  datatype PartName = PartName(key: Key, session: string, number: int)

  datatype Outcome = Stored(bytes: nat) | Failed

  // ---- Order of assembly ----

  predicate Ascending(s: seq<int>) {
    forall i, j :: 0 <= i < j < |s| ==> s[i] <= s[j]
  }

  function Insert(n: int, s: seq<int>): seq<int> {
    if s == [] || n < s[0] then [n] + s else [s[0]] + Insert(n, s[1..])
  }

  /** The part numbers of a completion in ascending order. */
  function Ordered(numbers: seq<int>): seq<int> {
    if numbers == [] then [] else Insert(numbers[0], Ordered(numbers[1..]))
  }

  lemma {:induction false} InsertElements(n: int, s: seq<int>)
    ensures multiset(Insert(n, s)) == multiset(s) + multiset{n}
  {
    if s != [] && n >= s[0] {
      InsertElements(n, s[1..]);
      assert s == [s[0]] + s[1..];
    }
  }

  lemma {:induction false} InsertAscends(n: int, s: seq<int>)
    requires Ascending(s)
    ensures Ascending(Insert(n, s)) && Insert(n, s)[0] == if s == [] then n else Min(n, s[0])
  {
    if s != [] && n >= s[0] {
      InsertAscends(n, s[1..]);
    }
  }

  lemma {:induction false} OrderedFacts(numbers: seq<int>)
    ensures Ascending(Ordered(numbers)) && multiset(Ordered(numbers)) == multiset(numbers)
  {
    if numbers != [] {
      OrderedFacts(numbers[1..]);
      InsertElements(numbers[0], Ordered(numbers[1..]));
      InsertAscends(numbers[0], Ordered(numbers[1..]));
      assert numbers == [numbers[0]] + numbers[1..];
    }
  }

  lemma LeastIsFirst(a: seq<int>, b: seq<int>)
    requires Ascending(a) && a != [] && b != [] && multiset(a) == multiset(b)
    ensures a[0] <= b[0]
  {
    assert b[0] in multiset(a);
  }

  /** Only one ascending sequence has given elements. */
  lemma {:induction false} AscendingIsUnique(a: seq<int>, b: seq<int>)
    requires Ascending(a) && Ascending(b) && multiset(a) == multiset(b)
    ensures a == b
  {
    assert |a| == |multiset(a)| == |b|;
    if a != [] {
      LeastIsFirst(a, b);
      LeastIsFirst(b, a);
      assert a == [a[0]] + a[1..] && b == [b[0]] + b[1..];
      TailElements(a, b);
      AscendingIsUnique(a[1..], b[1..]);
    }
  }

  lemma TailElements(a: seq<int>, b: seq<int>)
    requires a != [] && b != [] && a[0] == b[0] && multiset(a) == multiset(b)
    ensures multiset(a[1..]) == multiset(b[1..])
  {
    assert a == [a[0]] + a[1..] && b == [b[0]] + b[1..];
    assert multiset(a) == multiset{a[0]} + multiset(a[1..]);
    assert multiset(b) == multiset{b[0]} + multiset(b[1..]);
    assert multiset(a[1..]) == multiset(a) - multiset{a[0]};
  }

  /** However a completion lists its parts, they are assembled in one order. */
  lemma OrderOfListingIsIrrelevant(a: seq<int>, b: seq<int>)
    requires multiset(a) == multiset(b)
    ensures Ordered(a) == Ordered(b)
  {
    OrderedFacts(a);
    OrderedFacts(b);
    AscendingIsUnique(Ordered(a), Ordered(b));
  }

  // ---- Arrivals ----

  datatype Send = Send(number: int, bytes: Bytes)

  /** The parts of a session after more sends: a repeated number replaces. */
  function Landed(parts: map<int, Bytes>, sends: seq<Send>): map<int, Bytes> {
    if sends == [] then parts
    else Landed(parts, sends[..|sends| - 1])[sends[|sends| - 1].number := sends[|sends| - 1].bytes]
  }

  lemma LandedMore(parts: map<int, Bytes>, sends: seq<Send>, i: nat)
    requires i < |sends|
    ensures Landed(parts, sends[..i + 1]) == Landed(parts, sends[..i])[sends[i].number := sends[i].bytes]
  {
    assert sends[..i + 1][..i] == sends[..i];
  }

  function Arrived(sends: seq<Send>): map<int, Bytes> {
    Landed(map[], sends)
  }

  /** The bytes last sent under each number, in ascending order of numbers. */
  function Concatenation(parts: map<int, Bytes>, numbers: seq<int>): Bytes {
    if numbers == [] then []
    else (if numbers[0] in parts then parts[numbers[0]] else []) + Concatenation(parts, numbers[1..])
  }

  lemma {:induction false} ConcatenationSnoc(parts: map<int, Bytes>, numbers: seq<int>, n: int)
    requires n in parts
    ensures Concatenation(parts, numbers + [n]) == Concatenation(parts, numbers) + parts[n]
  {
    if numbers == [] {
      assert numbers + [n] == [n] && [n][1..] == [];
    } else {
      assert (numbers + [n])[1..] == numbers[1..] + [n];
      ConcatenationSnoc(parts, numbers[1..], n);
    }
  }

  /** Two runs of sends that end with the same bytes per number, in whatever
   *  order and however often, complete to the same blob however listed. */
  lemma AssemblyIgnoresArrival(sends1: seq<Send>, sends2: seq<Send>, listed1: seq<int>, listed2: seq<int>)
    requires forall n :: n in listed1 ==> LastSent(sends1, n) == LastSent(sends2, n)
    requires multiset(listed1) == multiset(listed2)
    ensures Concatenation(Arrived(sends1), Ordered(listed1)) == Concatenation(Arrived(sends2), Ordered(listed2))
  {
    OrderOfListingIsIrrelevant(listed1, listed2);
    OrderedFacts(listed1);
    forall n | n in Ordered(listed1)
      ensures n in Arrived(sends1) <==> n in Arrived(sends2)
      ensures n in Arrived(sends1) ==> Arrived(sends1)[n] == Arrived(sends2)[n]
    {
      assert n in multiset(listed1);
      ArrivedIsLast(sends1, n);
      ArrivedIsLast(sends2, n);
    }
    SameParts(Arrived(sends1), Arrived(sends2), Ordered(listed1));
  }

  function LastSent(sends: seq<Send>, n: int): Option<Bytes> {
    if sends == [] then None
    else if sends[|sends| - 1].number == n then Some(sends[|sends| - 1].bytes)
    else LastSent(sends[..|sends| - 1], n)
  }

  lemma ArrivedIsLast(sends: seq<Send>, n: int)
    ensures n in Arrived(sends) <==> LastSent(sends, n).Some?
    ensures n in Arrived(sends) ==> LastSent(sends, n) == Some(Arrived(sends)[n])
  {
    LandedIsLast(map[], sends, n);
  }

  lemma {:induction false} SameParts(a: map<int, Bytes>, b: map<int, Bytes>, numbers: seq<int>)
    requires forall n :: n in numbers ==> (n in a <==> n in b) && (n in a ==> a[n] == b[n])
    ensures Concatenation(a, numbers) == Concatenation(b, numbers)
  {
    if numbers != [] {
      var n := numbers[0];
      assert n in numbers;
      SameParts(a, b, numbers[1..]);
      assert (if n in a then a[n] else []) == (if n in b then b[n] else []);
    }
  }

  // ---- A completion while parts are sent again ----

  // A completion reads its parts one await after another, renames the blob into
  // place, and unlinks the parts one await after another. `landing(i)` are the
  // session's sends that land during the `i`-th of these awaits.

  /** The parts there are when part `i` is read. */
  function PartsAt(parts: map<int, Bytes>, landing: nat -> seq<Send>, i: nat): map<int, Bytes>
    decreases i, 1
  {
    Landed(PartsBefore(parts, landing, i), landing(i))
  }

  function PartsBefore(parts: map<int, Bytes>, landing: nat -> seq<Send>, i: nat): map<int, Bytes>
    decreases i, 0
  {
    if i == 0 then parts else PartsAt(parts, landing, i - 1)
  }

  /** The pieces are the parts of these numbers, each as it is when it is read. */
  ghost predicate ReadInTurn(parts: map<int, Bytes>, landing: nat -> seq<Send>, numbers: seq<int>, pieces: seq<Bytes>) {
    && |pieces| == |numbers|
    && forall j: nat :: j < |numbers| ==> Part(PartsAt(parts, landing, j), numbers[j]) == Some(pieces[j])
  }

  /** The parts that are left when the first `j` have been unlinked. */
  function PartsLeft(parts: map<int, Bytes>, landing: nat -> seq<Send>, ordered: seq<int>, j: nat): map<int, Bytes>
    requires j <= |ordered|
  {
    if j == 0 then PartsAt(parts, landing, |ordered|)
    else Landed(PartsLeft(parts, landing, ordered, j - 1), landing(|ordered| + j)) - {ordered[j - 1]}
  }

  /** What has landed by the time part `i` is read. */
  function SentBy(landing: nat -> seq<Send>, i: nat): seq<Send> {
    (if i == 0 then [] else SentBy(landing, i - 1)) + landing(i)
  }

  lemma {:induction false} LastSentJoins(a: seq<Send>, b: seq<Send>, n: int)
    ensures LastSent(a + b, n) == if LastSent(b, n).Some? then LastSent(b, n) else LastSent(a, n)
  {
    if b == [] {
      assert a + b == a;
    } else {
      assert (a + b)[..|a + b| - 1] == a + b[..|b| - 1];
      LastSentJoins(a, b[..|b| - 1], n);
    }
  }

  lemma {:induction false} LandedIsLast(parts: map<int, Bytes>, sends: seq<Send>, n: int)
    ensures Part(Landed(parts, sends), n) == if LastSent(sends, n).Some? then LastSent(sends, n) else Part(parts, n)
  {
    if sends != [] {
      LandedIsLast(parts, sends[..|sends| - 1], n);
    }
  }

  function Part(parts: map<int, Bytes>, n: int): Option<Bytes> {
    if n in parts then Some(parts[n]) else None
  }

  lemma {:induction false} PartsAtIsLast(parts: map<int, Bytes>, landing: nat -> seq<Send>, i: nat, n: int)
    ensures var sent := SentBy(landing, i);
      Part(PartsAt(parts, landing, i), n) == if LastSent(sent, n).Some? then LastSent(sent, n) else Part(parts, n)
  {
    if i == 0 {
      LandedIsLast(parts, landing(0), n);
      assert [] + landing(0) == landing(0);
    } else {
      PartsAtIsLast(parts, landing, i - 1, n);
      LandedIsLast(PartsAt(parts, landing, i - 1), landing(i), n);
      LastSentJoins(SentBy(landing, i - 1), landing(i), n);
    }
  }

  /** Each piece of the blob is what was last sent under its number by the time it
   *  was read, before the completion or during it. */
  lemma AssemblyTakesTheLastSent(sends: seq<Send>, landing: nat -> seq<Send>, j: nat, n: int)
    ensures Part(PartsAt(Arrived(sends), landing, j), n) == LastSent(sends + SentBy(landing, j), n)
  {
    PartsAtIsLast(Arrived(sends), landing, j, n);
    LandedIsLast(map[], sends, n);
    LastSentJoins(sends, SentBy(landing, j), n);
  }

  /** A completion reads the parts that were there when it began exactly when, of
   *  each number, what lands before it is read ends with the same bytes. */
  lemma ReadsWhatWasThereIff(parts: map<int, Bytes>, landing: nat -> seq<Send>, ordered: seq<int>)
    ensures (forall j :: 0 <= j < |ordered| ==> Part(PartsAt(parts, landing, j), ordered[j]) == Part(parts, ordered[j])) <==>
      forall j :: 0 <= j < |ordered| && LastSent(SentBy(landing, j), ordered[j]).Some? ==>
        LastSent(SentBy(landing, j), ordered[j]) == Part(parts, ordered[j])
  {
    forall j | 0 <= j < |ordered|
      ensures Part(PartsAt(parts, landing, j), ordered[j]) == Part(parts, ordered[j]) <==>
        (LastSent(SentBy(landing, j), ordered[j]).Some? ==> LastSent(SentBy(landing, j), ordered[j]) == Part(parts, ordered[j]))
    {
      PartsAtIsLast(parts, landing, j, ordered[j]);
    }
  }

  lemma {:induction false} FlatIsConcatenation(parts: map<int, Bytes>, numbers: seq<int>, pieces: seq<Bytes>)
    requires |pieces| == |numbers|
    requires forall j :: 0 <= j < |numbers| ==> Part(parts, numbers[j]) == Some(pieces[j])
    ensures Flat(pieces) == Concatenation(parts, numbers)
  {
    if numbers != [] {
      assert Part(parts, numbers[0]) == Some(pieces[0]);
      FlatIsConcatenation(parts, numbers[1..], pieces[1..]);
    }
  }

  /** And then the blob is those parts by number. */
  lemma PiecesOfWhatWasThere(parts: map<int, Bytes>, landing: nat -> seq<Send>, ordered: seq<int>, pieces: seq<Bytes>)
    requires ReadInTurn(parts, landing, ordered, pieces)
    requires forall j :: 0 <= j < |ordered| ==> Part(PartsAt(parts, landing, j), ordered[j]) == Part(parts, ordered[j])
    ensures Flat(pieces) == Concatenation(parts, ordered)
  {
    FlatIsConcatenation(parts, ordered, pieces);
  }

  /** Some send of the number lands during that await. */
  predicate Sends(landing: nat -> seq<Send>, i: nat, n: int) {
    LastSent(landing(i), n).Some?
  }

  /** A part is left behind exactly when it was sent again after its unlink. */
  lemma {:induction false} LeftBehindIff(parts: map<int, Bytes>, landing: nat -> seq<Send>, ordered: seq<int>, j: nat, upTo: nat)
    requires j < upTo <= |ordered| && forall a, b :: 0 <= a < b < |ordered| ==> ordered[a] != ordered[b]
    ensures ordered[j] in PartsLeft(parts, landing, ordered, upTo) <==>
      exists i: nat :: |ordered| + j + 1 < i <= |ordered| + upTo && Sends(landing, i, ordered[j])
    decreases upTo
  {
    var n := ordered[j];
    LandedIsLast(PartsLeft(parts, landing, ordered, upTo - 1), landing(|ordered| + upTo), n);
    if upTo > j + 1 {
      LeftBehindIff(parts, landing, ordered, j, upTo - 1);
      assert Sends(landing, |ordered| + upTo, n) <==> LastSent(landing(|ordered| + upTo), n).Some?;
    }
  }

  /** A part that is sent again once it has been read, and before it has been
   *  unlinked, is acknowledged and lost: the blob has the bytes of before, and
   *  nothing is left of the new ones. */
  lemma ResendIsLost(sends: seq<Send>, landing: nat -> seq<Send>, ordered: seq<int>, j: nat)
    requires j < |ordered| && forall a, b :: 0 <= a < b < |ordered| ==> ordered[a] != ordered[b]
    requires LastSent(SentBy(landing, j), ordered[j]).None?
    requires forall i: nat :: |ordered| + j + 1 < i <= 2 * |ordered| ==> !Sends(landing, i, ordered[j])
    ensures Part(PartsAt(Arrived(sends), landing, j), ordered[j]) == LastSent(sends, ordered[j])
    ensures ordered[j] !in PartsLeft(Arrived(sends), landing, ordered, |ordered|)
  {
    AssemblyTakesTheLastSent(sends, landing, j, ordered[j]);
    LastSentJoins(sends, SentBy(landing, j), ordered[j]);
    LeftBehindIff(Arrived(sends), landing, ordered, j, |ordered|);
  }

  // ---- The size a completion knows ----

  /** The sum of the part sizes, unless one is missing. */
  method PartsTotal(sizes: seq<Option<nat>>) returns (total: Option<nat>)
    ensures total.None? <==> exists i :: 0 <= i < |sizes| && sizes[i].None?
    ensures total.Some? ==> total.value == SumOf(sizes)
  {
    var sum := 0;
    for i := 0 to |sizes|
      invariant forall j :: 0 <= j < i ==> sizes[j].Some?
      invariant sum == SumOf(sizes[..i])
    {
      if sizes[i].None? {
        return None;
      }
      SumSnoc(sizes[..i], sizes[i]);
      assert sizes[..i + 1] == sizes[..i] + [sizes[i]];
      sum := sum + sizes[i].value;
    }
    assert sizes[..|sizes|] == sizes;
    total := Some(sum);
  }

  function SumOf(sizes: seq<Option<nat>>): nat {
    if sizes == [] then 0 else sizes[0].GetOr(0) + SumOf(sizes[1..])
  }

  lemma {:induction false} SumSnoc(sizes: seq<Option<nat>>, size: Option<nat>)
    ensures SumOf(sizes + [size]) == SumOf(sizes) + size.GetOr(0)
  {
    if sizes == [] {
      assert sizes + [size] == [size] && [size][1..] == [];
    } else {
      assert (sizes + [size])[1..] == sizes[1..] + [size];
      SumSnoc(sizes[1..], size);
    }
  }

  /** With the size each part had when it landed, the total is the size of the
   *  blob the parts make, in whatever order they are listed. */
  lemma TotalIsSize(parts: map<int, Bytes>, listed: seq<int>, sizes: seq<Option<nat>>)
    requires |sizes| == |listed|
    requires forall i :: 0 <= i < |listed| ==> listed[i] in parts && sizes[i] == Some(|parts[listed[i]]|)
    ensures SumOf(sizes) == |Concatenation(parts, Ordered(listed))|
  {
    SizeOfListing(parts, listed, sizes);
    OrderedSize(parts, listed);
  }

  lemma {:induction false} SizeOfListing(parts: map<int, Bytes>, listed: seq<int>, sizes: seq<Option<nat>>)
    requires |sizes| == |listed|
    requires forall i :: 0 <= i < |listed| ==> listed[i] in parts && sizes[i] == Some(|parts[listed[i]]|)
    ensures SumOf(sizes) == |Concatenation(parts, listed)|
  {
    if listed != [] {
      SizeOfListing(parts, listed[1..], sizes[1..]);
    }
  }

  lemma {:induction false} OrderedSize(parts: map<int, Bytes>, listed: seq<int>)
    ensures |Concatenation(parts, Ordered(listed))| == |Concatenation(parts, listed)|
  {
    if listed != [] {
      OrderedSize(parts, listed[1..]);
      InsertSize(parts, listed[0], Ordered(listed[1..]));
    }
  }

  lemma {:induction false} InsertSize(parts: map<int, Bytes>, n: int, s: seq<int>)
    ensures |Concatenation(parts, Insert(n, s))| == |Concatenation(parts, [n] + s)|
  {
    assert ([n] + s)[1..] == s;
    if s != [] && n >= s[0] {
      InsertSize(parts, n, s[1..]);
      assert ([n] + s[1..])[1..] == s[1..];
    }
  }

  // ---- The store ----

  /** The session's parts by number are these. */
  ghost predicate PartsAre(partFiles: map<PartName, Bytes>, key: Key, session: string, parts: map<int, Bytes>) {
    forall n :: FileOf(partFiles, PartName(key, session, n)) == Part(parts, n)
  }

  function FileOf(partFiles: map<PartName, Bytes>, name: PartName): Option<Bytes> {
    if name in partFiles then Some(partFiles[name]) else None
  }

  /** The parts of all other sessions are as they were. */
  ghost predicate OthersStay(before: map<PartName, Bytes>, after: map<PartName, Bytes>, key: Key, session: string) {
    forall name: PartName :: name.key != key || name.session != session ==> FileOf(after, name) == FileOf(before, name)
  }

  lemma OnePartLands(files: map<PartName, Bytes>, key: Key, session: string, parts: map<int, Bytes>, number: int, bytes: Bytes)
    requires PartsAre(files, key, session, parts)
    ensures var files' := files[PartName(key, session, number) := bytes];
      && PartsAre(files', key, session, parts[number := bytes])
      && OthersStay(files, files', key, session)
  {
    forall n ensures FileOf(files[PartName(key, session, number) := bytes], PartName(key, session, n)) == Part(parts[number := bytes], n) {
      assert FileOf(files, PartName(key, session, n)) == Part(parts, n);
    }
  }

  lemma OnePartGoes(files: map<PartName, Bytes>, key: Key, session: string, parts: map<int, Bytes>, number: int)
    requires PartsAre(files, key, session, parts)
    ensures var files' := files - {PartName(key, session, number)};
      && PartsAre(files', key, session, parts - {number})
      && OthersStay(files, files', key, session)
  {
    forall n ensures FileOf(files - {PartName(key, session, number)}, PartName(key, session, n)) == Part(parts - {number}, n) {
      assert FileOf(files, PartName(key, session, n)) == Part(parts, n);
    }
  }

  class FsBlobStore {
    var files: map<Key, Bytes>
    var partFiles: map<PartName, Bytes>

    constructor ()
      ensures files == map[] && partFiles == map[]
    {
      files, partFiles := map[], map[];
    }

    /** The session has these parts. */
    ghost predicate Holds(key: Key, session: string, parts: map<int, Bytes>)
      reads this
    {
      PartsAre(partFiles, key, session, parts)
    }

    /** Streams a blob in. It is there in full, or what was there stays. */
    method Put(key: Key, source: seq<Bytes>, maxBytes: nat, breaks: bool) returns (r: Outcome)
      modifies this`files
      ensures r == if |Flat(source)| <= maxBytes && !breaks then Stored(|Flat(source)|) else Failed
      ensures files == if r.Stored? then old(files)[key := Flat(source)] else old(files)
    {
      var passed := LimitBytes(source, maxBytes);
      if passed.None? || breaks {
        return Failed;
      }
      files := files[key := passed.value];
      r := Stored(|passed.value|);
    }

    method Remove(key: Key)
      modifies this`files
      ensures files == old(files) - {key}
    {
      files := files - {key};
    }

    /** Stores one part. Re-sending a number replaces it; a body of any other
     *  length than announced leaves what was there. */
    method PutPart(
          key: Key, session: string, number: int, source: seq<Bytes>, length: nat, breaks: bool, ghost parts: map<int, Bytes>)
        returns (r: Outcome)
      requires Holds(key, session, parts)
      modifies this`partFiles
      ensures r == if |Flat(source)| == length && !breaks then Stored(length) else Failed
      ensures Holds(key, session, if r.Stored? then parts[number := Flat(source)] else parts)
      ensures forall name: PartName :: name.key != key || name.session != session ==>
        FileOf(partFiles, name) == FileOf(old(partFiles), name)
    {
      var passed := LimitBytes(source, length);
      if passed.None? || breaks || |passed.value| != length {
        return Failed;
      }
      OnePartLands(partFiles, key, session, parts, number, passed.value);
      partFiles := partFiles[PartName(key, session, number) := passed.value];
      r := Stored(length);
    }

    /** Sends of the session land, one after another. */
    method LandAll(key: Key, session: string, sends: seq<Send>, ghost parts: map<int, Bytes>)
      requires Holds(key, session, parts)
      modifies this`partFiles
      ensures Holds(key, session, Landed(parts, sends)) && OthersStay(old(partFiles), partFiles, key, session)
    {
      for i := 0 to |sends|
        invariant Holds(key, session, Landed(parts, sends[..i])) && OthersStay(old(partFiles), partFiles, key, session)
      {
        LandedMore(parts, sends, i);
        OnePartLands(partFiles, key, session, Landed(parts, sends[..i]), sends[i].number, sends[i].bytes);
        partFiles := partFiles[PartName(key, session, sends[i].number) := sends[i].bytes];
      }
      assert sends[..|sends|] == sends;
    }

    /** Reads part `i`, if there is one when it is opened. */
    method ReadNext(key: Key, session: string, number: int, landing: nat -> seq<Send>, i: nat, ghost parts: map<int, Bytes>)
        returns (piece: Option<Bytes>)
      requires Holds(key, session, PartsBefore(parts, landing, i))
      modifies this`partFiles
      ensures Holds(key, session, PartsAt(parts, landing, i)) && OthersStay(old(partFiles), partFiles, key, session)
      ensures piece == Part(PartsAt(parts, landing, i), number)
    {
      LandAll(key, session, landing(i), PartsBefore(parts, landing, i));
      piece := FileOf(partFiles, PartName(key, session, number));
    }

    /** Unlinks part `j`, whatever it is by then. */
    method UnlinkNext(key: Key, session: string, ordered: seq<int>, landing: nat -> seq<Send>, j: nat, ghost parts: map<int, Bytes>)
      requires j < |ordered| && Holds(key, session, PartsLeft(parts, landing, ordered, j))
      modifies this`partFiles
      ensures Holds(key, session, PartsLeft(parts, landing, ordered, j + 1))
      ensures OthersStay(old(partFiles), partFiles, key, session)
    {
      ghost var left := PartsLeft(parts, landing, ordered, j);
      LandAll(key, session, landing(|ordered| + j + 1), left);
      OnePartGoes(partFiles, key, session, Landed(left, landing(|ordered| + j + 1)), ordered[j]);
      partFiles := partFiles - {PartName(key, session, ordered[j])};
    }

    /** Pipes the parts, in order, into one file, as far as they exist when their
     *  turn comes; `read` is how many did. */
    method Assemble(key: Key, session: string, ordered: seq<int>, landing: nat -> seq<Send>, ghost parts: map<int, Bytes>)
        returns (sink: Bytes, read: nat, ghost pieces: seq<Bytes>)
      requires Holds(key, session, parts)
      modifies this`partFiles
      ensures read <= |ordered| && ReadInTurn(parts, landing, ordered[..read], pieces) && sink == Flat(pieces)
      ensures read == |ordered| ==> Holds(key, session, PartsBefore(parts, landing, read))
      ensures read < |ordered| ==>
        Part(PartsAt(parts, landing, read), ordered[read]).None? && Holds(key, session, PartsAt(parts, landing, read))
      ensures OthersStay(old(partFiles), partFiles, key, session)
    {
      sink, read, pieces := [], 0, [];
      while read < |ordered|
        invariant read <= |ordered| && ReadInTurn(parts, landing, ordered[..read], pieces) && sink == Flat(pieces)
        invariant Holds(key, session, PartsBefore(parts, landing, read))
        invariant OthersStay(old(partFiles), partFiles, key, session)
      {
        var piece := ReadNext(key, session, ordered[read], landing, read, parts);
        if piece.None? {
          return;
        }
        FlatSnoc(pieces, piece.value);
        pieces := pieces + [piece.value];
        sink := sink + piece.value;
        read := read + 1;
      }
    }

    method UnlinkParts(key: Key, session: string, ordered: seq<int>, landing: nat -> seq<Send>, ghost parts: map<int, Bytes>)
      requires Holds(key, session, PartsLeft(parts, landing, ordered, 0))
      modifies this`partFiles
      ensures Holds(key, session, PartsLeft(parts, landing, ordered, |ordered|))
      ensures OthersStay(old(partFiles), partFiles, key, session)
    {
      for j := 0 to |ordered|
        invariant Holds(key, session, PartsLeft(parts, landing, ordered, j))
        invariant OthersStay(old(partFiles), partFiles, key, session)
      {
        UnlinkNext(key, session, ordered, landing, j, parts);
      }
    }

    /** Assembles the listed parts into the blob, by number, each as it is when it
     *  is read, while the session's sends go on landing. A part that is not there
     *  then fails the completion and leaves the blob as it was. */
    method CompleteParts(key: Key, session: string, listed: seq<int>, landing: nat -> seq<Send>, ghost parts: map<int, Bytes>)
        returns (ok: bool)
      requires Holds(key, session, parts)
      modifies this`files, this`partFiles
      ensures ok <==> forall j: nat :: j < |Ordered(listed)| ==> Part(PartsAt(parts, landing, j), Ordered(listed)[j]).Some?
      ensures ok ==> exists pieces ::
        ReadInTurn(parts, landing, Ordered(listed), pieces) && files == old(files)[key := Flat(pieces)]
      ensures !ok ==> files == old(files)
      ensures ok ==> Holds(key, session, PartsLeft(parts, landing, Ordered(listed), |Ordered(listed)|))
      ensures !ok ==> exists j: nat :: j < |Ordered(listed)| && Holds(key, session, PartsAt(parts, landing, j))
      ensures forall name: PartName :: name.key != key || name.session != session ==>
        FileOf(partFiles, name) == FileOf(old(partFiles), name)
    {
      var ordered := Ordered(listed);
      ghost var pieces;
      var sink, read;
      sink, read, pieces := Assemble(key, session, ordered, landing, parts);
      if read < |ordered| {
        assert Part(PartsAt(parts, landing, read), ordered[read]).None?;
        return false;
      }
      assert ordered[..read] == ordered;
      assert forall j: nat :: j < |ordered| ==> Part(PartsAt(parts, landing, j), ordered[j]) == Some(pieces[j]);
      LandAll(key, session, landing(read), PartsBefore(parts, landing, read));
      files := files[key := sink];
      UnlinkParts(key, session, ordered, landing, parts);
      ok := true;
    }

    /** Discards a session's parts. */
    method AbortParts(key: Key, session: string)
      modifies this`partFiles
      ensures forall name :: name in partFiles <==> name in old(partFiles) && !(name.key == key && name.session == session)
    {
      var names := partFiles.Keys;
      while names != {}
        invariant names <= partFiles.Keys <= old(partFiles.Keys)
        invariant forall name :: name in old(partFiles) && name !in names ==>
          (name in partFiles <==> !(name.key == key && name.session == session))
        decreases names
      {
        var name :| name in names;
        names := names - {name};
        if name.key == key && name.session == session {
          partFiles := partFiles - {name};
        }
      }
    }
  }
}
