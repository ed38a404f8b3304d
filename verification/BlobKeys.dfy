/** The names blobs are stored under, and which class a name belongs to. */
module BlobKeys {
  datatype BlobKind = Data | Thumb | Index

  function Digit(d: nat): char
    requires d < 10
  {
    ['0', '1', '2', '3', '4', '5', '6', '7', '8', '9'][d]
  }

  predicate IsDigit(c: char) {
    '0' <= c <= '9'
  }

  function DigitValue(c: char): nat
    requires IsDigit(c)
  {
    (c - '0') as nat
  }

  /** A number as it prints in decimal. */
  function Decimal(n: nat): string {
    if n < 10 then [Digit(n)] else Decimal(n / 10) + [Digit(n % 10)]
  }

  predicate AllDigits(s: string) {
    forall i :: 0 <= i < |s| ==> IsDigit(s[i])
  }

  /** The number a run of digits reads as. */
  function Number(s: string): nat
    requires AllDigits(s)
  {
    if s == "" then 0 else 10 * Number(s[..|s| - 1]) + DigitValue(s[|s| - 1])
  }

  function BlobKey(fileId: string, kind: BlobKind, generation: nat): string {
    match kind
    case Thumb => fileId + ".thumb"
    case Index => fileId + ".idx"
    case Data => if generation > 0 then fileId + ".g" + Decimal(generation) else fileId
  }

  function GenerationOfKey(fileId: string, key: string): nat {
    var stem := fileId + ".g";
    var suffix := if stem <= key then key[|fileId| + 2..] else "";
    if suffix != "" && AllDigits(suffix) then Number(suffix) else 0
  }

  lemma {:induction false} DecimalReadsBack(n: nat)
    ensures AllDigits(Decimal(n)) && Decimal(n) != "" && Number(Decimal(n)) == n
  {
    if n < 10 {
      assert Decimal(n)[..0] == "";
    } else {
      DecimalReadsBack(n / 10);
      var s := Decimal(n);
      assert s[..|s| - 1] == Decimal(n / 10) && s[|s| - 1] == Digit(n % 10);
    }
  }

  /** The generation a content key names is the one it was made for. */
  lemma GenerationRoundTrip(fileId: string, generation: nat)
    ensures GenerationOfKey(fileId, BlobKey(fileId, Data, generation)) == generation
  {
    DecimalReadsBack(generation);
    var key := BlobKey(fileId, Data, generation);
    if generation > 0 {
      assert key[..|fileId| + 2] == fileId + ".g";
      assert key[|fileId| + 2..] == Decimal(generation);
    } else {
      assert !(fileId + ".g" <= fileId);
    }
  }

  /** A file id, as every upload names one. */
  predicate PlainId(id: string) {
    id != "" && forall i :: 0 <= i < |id| ==> IsWord(id[i])
  }

  predicate IsWord(c: char) {
    'A' <= c <= 'Z' || 'a' <= c <= 'z' || IsDigit(c) || c == '-'
  }

  /** What precedes the first dot. */
  function Stem(key: string): string {
    if key == "" || key[0] == '.' then "" else [key[0]] + Stem(key[1..])
  }

  lemma {:induction false} StemOfDotted(id: string, rest: string)
    requires forall i :: 0 <= i < |id| ==> id[i] != '.'
    requires rest == "" || rest[0] == '.'
    ensures Stem(id + rest) == id
  {
    if id == "" {
      assert id + rest == rest;
    } else {
      assert (id + rest)[1..] == id[1..] + rest;
      StemOfDotted(id[1..], rest);
    }
  }

  predicate DerivedSuffix(s: string) {
    s == ".thumb" || s == ".idx"
  }

  predicate GenerationSuffix(s: string) {
    s == "" || (|s| > 2 && s[..2] == ".g" && AllDigits(s[2..]))
  }

  /** Thumbnails and search indexes, overwritten in place. */
  predicate IsDerivedKey(key: string) {
    var stem := Stem(key);
    |stem| <= |key| && PlainId(stem) && DerivedSuffix(key[|stem|..])
  }

  /** Content: a bare id, or an id and a generation. */
  predicate IsContentKey(key: string) {
    var stem := Stem(key);
    |stem| <= |key| && PlainId(stem) && GenerationSuffix(key[|stem|..])
  }

  const CAPITALS := "ABCDEFGHIJKLMNOPQRSTUVWXYZ"
  const LETTERS := "abcdefghijklmnopqrstuvwxyz"
  const DIGITS := "0123456789"

  /** A run of letters, digits and dashes. */
  ghost predicate Word(id: string) {
    id != "" && forall i :: 0 <= i < |id| ==> id[i] in CAPITALS || id[i] in LETTERS || id[i] in DIGITS || id[i] == '-'
  }

  lemma Capitals(c: char)
    ensures 'A' <= c <= 'Z' <==> c in CAPITALS
  {
    assert 'A' <= c <= 'Z' ==> CAPITALS[c as int - 'A' as int] == c;
  }

  lemma Letters(c: char)
    ensures 'a' <= c <= 'z' <==> c in LETTERS
  {
    assert 'a' <= c <= 'z' ==> LETTERS[c as int - 'a' as int] == c;
  }

  lemma Digits(c: char)
    ensures IsDigit(c) <==> c in DIGITS
  {
    assert IsDigit(c) ==> DIGITS[c as int - '0' as int] == c;
  }

  lemma WordsArePlain(id: string)
    ensures Word(id) <==> PlainId(id)
    ensures Word(id) ==> forall i :: 0 <= i < |id| ==> id[i] != '.'
  {
    forall i | 0 <= i < |id|
      ensures IsWord(id[i]) <==> id[i] in CAPITALS || id[i] in LETTERS || id[i] in DIGITS || id[i] == '-'
    {
      Capitals(id[i]);
      Letters(id[i]);
      Digits(id[i]);
    }
  }

  lemma {:induction false} StemIsBeginning(key: string)
    ensures Stem(key) <= key
  {
    if key != "" && key[0] != '.' {
      StemIsBeginning(key[1..]);
    }
  }

  /** The derived class is the words that end in a thumbnail's or an index' suffix. */
  lemma DerivedKeysIff(key: string)
    ensures IsDerivedKey(key) <==> exists id :: Word(id) && (key == id + ".thumb" || key == id + ".idx")
  {
    var stem := Stem(key);
    StemIsBeginning(key);
    WordsArePlain(stem);
    assert key == stem + key[|stem|..];
    if id :| Word(id) && (key == id + ".thumb" || key == id + ".idx") {
      WordsArePlain(id);
      StemOfDotted(id, key[|id|..]);
      assert key == id + key[|id|..];
    }
  }

  lemma ContentKeyIsMade(key: string)
    requires IsContentKey(key)
    ensures Word(key) || exists id, digits :: Word(id) && digits != "" && AllDigits(digits) && key == id + ".g" + digits
  {
    var stem := Stem(key);
    var rest := key[|stem|..];
    StemIsBeginning(key);
    WordsArePlain(stem);
    assert key == stem + rest;
    if rest != "" {
      assert rest == ".g" + rest[2..];
      assert key == stem + ".g" + rest[2..];
    }
  }

  lemma WordIsContent(key: string)
    requires Word(key)
    ensures IsContentKey(key)
  {
    WordsArePlain(key);
    StemOfDotted(key, "");
    assert key + "" == key;
  }

  lemma NumberedIsContent(id: string, digits: string)
    requires Word(id) && digits != "" && AllDigits(digits)
    ensures IsContentKey(id + ".g" + digits)
  {
    var rest := ".g" + digits;
    WordsArePlain(id);
    assert id + ".g" + digits == id + rest && rest[2..] == digits;
    StemOfDotted(id, rest);
  }

  /** The content class is the words by themselves and those with a generation. */
  lemma ContentKeysIff(key: string)
    ensures IsContentKey(key) <==>
      Word(key) || exists id, digits :: Word(id) && digits != "" && AllDigits(digits) && key == id + ".g" + digits
  {
    if IsContentKey(key) {
      ContentKeyIsMade(key);
    } else if Word(key) {
      WordIsContent(key);
    } else if id, digits :| Word(id) && digits != "" && AllDigits(digits) && key == id + ".g" + digits {
      NumberedIsContent(id, digits);
    }
  }

  /** Two files, kinds or generations never share a name, except that only
   *  content has generations. */
  lemma BlobKeysAreDistinct(id1: string, kind1: BlobKind, g1: nat, id2: string, kind2: BlobKind, g2: nat)
    requires PlainId(id1) && PlainId(id2)
    requires BlobKey(id1, kind1, g1) == BlobKey(id2, kind2, g2)
    ensures id1 == id2 && kind1 == kind2 && (kind1 == Data ==> g1 == g2)
  {
    KeyParts(id1, kind1, g1);
    KeyParts(id2, kind2, g2);
    if kind1 == Data && kind2 == Data {
      GenerationRoundTrip(id1, g1);
      GenerationRoundTrip(id2, g2);
    }
  }

  function Suffix(kind: BlobKind, g: nat): string {
    match kind
    case Thumb => ".thumb"
    case Index => ".idx"
    case Data => if g > 0 then ".g" + Decimal(g) else ""
  }

  lemma KeyParts(id: string, kind: BlobKind, g: nat)
    requires PlainId(id)
    ensures BlobKey(id, kind, g) == id + Suffix(kind, g) && Stem(BlobKey(id, kind, g)) == id
    ensures kind == Data ==> Suffix(kind, g) != ".thumb" && Suffix(kind, g) != ".idx"
    ensures BlobKey(id, kind, g)[|id|..] == Suffix(kind, g)
  {
    assert BlobKey(id, kind, g) == id + Suffix(kind, g);
    StemOfDotted(id, Suffix(kind, g));
    if kind == Data && g > 0 {
      assert Suffix(kind, g)[1] == 'g';
      assert ".thumb"[1] == 't' && ".idx"[1] == 'i';
    }
  }

  /** The caches tell content from derived blobs by name alone. */
  lemma ClassOfKey(id: string, kind: BlobKind, g: nat)
    requires PlainId(id)
    ensures IsContentKey(BlobKey(id, kind, g)) <==> kind == Data
    ensures IsDerivedKey(BlobKey(id, kind, g)) <==> kind != Data
  {
    KeyParts(id, kind, g);
    DecimalReadsBack(g);
    var s := Suffix(kind, g);
    if kind == Data && g > 0 {
      assert s[..2] == ".g" && s[2..] == Decimal(g);
    } else if kind != Data {
      assert s[1] == 't' || s[1] == 'i';
      if |s| > 2 {
        assert s[..2][1] == s[1] && ".g"[1] == 'g';
      }
    }
  }

  // ---- Copies of a blob's pieces ----

  function HeadKey(key: string): string {
    key + ".bhead"
  }

  function TailKey(key: string): string {
    key + ".btail"
  }

  function WindowName(key: string, window: nat): string {
    key + ".w" + Decimal(window) + ".win"
  }

  /** On the fast store bookends keep apart from each other, from thumbnails
   *  and from search indexes. */
  lemma BookendsAreApart(k1: string, k2: string)
    ensures HeadKey(k1) != TailKey(k2)
    ensures HeadKey(k1) == HeadKey(k2) || TailKey(k1) == TailKey(k2) ==> k1 == k2
    ensures HeadKey(k1) != k2 + ".thumb" && HeadKey(k1) != k2 + ".idx"
    ensures TailKey(k1) != k2 + ".thumb" && TailKey(k1) != k2 + ".idx"
  {
    forall k ensures Last(HeadKey(k)) == 'd' && Last(TailKey(k)) == 'l' && Last(k + ".thumb") == 'b' && Last(k + ".idx") == 'x' {
    }
    assert HeadKey(k1)[..|k1|] == k1 && TailKey(k1)[..|k1|] == k1;
    assert HeadKey(k2)[..|k2|] == k2 && TailKey(k2)[..|k2|] == k2;
  }

  function Last(s: string): char
    requires s != ""
  {
    s[|s| - 1]
  }

  /** A window's file names its blob and its number. */
  lemma WindowNamesAreDistinct(k1: string, w1: nat, k2: string, w2: nat)
    requires WindowName(k1, w1) == WindowName(k2, w2)
    ensures k1 == k2 && w1 == w2
  {
    var d1, d2 := Decimal(w1), Decimal(w2);
    DecimalReadsBack(w1);
    DecimalReadsBack(w2);
    var s := WindowName(k1, w1);
    var n := |s| - 4;
    assert s[n - |d1|..n] == d1 && s[n - |d2|..n] == d2;
    assert s[n - |d1| - 1] == 'w' && s[n - |d2| - 1] == 'w';
    assert |d1| == |d2|;
    assert d1 == d2;
    assert s[..|k1|] == k1 && s[..|k2|] == k2;
  }
}
