/**
 * Base32 without padding, with the alphabet of section 6 of RFC 4648, computed
 * the way the server does: in one 32-bit accumulator whose high bits wrap away.
 */
module Base32 {
  import opened Prelude

  const ALPHABET := "ABCDEFGHIJKLMNOPQRSTUVWXYZ234567"

  /** Widths in bits: of a byte, of a character, of the accumulator. */
  const BYTE: nat := 8
  const CHAR: nat := 5
  const WORD: nat := 32

  // ---- Bits of a number ----

  /** The low `w` bits, highest first. */
  function ToBits(v: nat, w: nat): (bits: seq<bool>)
    ensures |bits| == w
  {
    if w == 0 then [] else ToBits(v / 2, w - 1) + [v % 2 == 1]
  }

  /** The number the low `w` bits make: what is left of `v` in `w` bits. */
  function Low(v: nat, w: nat): nat {
    if w == 0 then 0 else 2 * Low(v / 2, w - 1) + v % 2
  }

  function ShiftRight(v: nat, k: nat): nat {
    if k == 0 then v else ShiftRight(v / 2, k - 1)
  }

  /** `v` shifted left by `w` bits, with the low `w` bits of `n` in the gap. */
  function ShiftIn(v: nat, n: nat, w: nat): nat {
    if w == 0 then v else 2 * ShiftIn(v, n / 2, w - 1) + n % 2
  }

  function Pow2(k: nat): (p: nat)
    ensures p > 0
  {
    if k == 0 then 1 else 2 * Pow2(k - 1)
  }

  /** What is left in `w` bits is the remainder by their number of values, and
   *  the shift is the quotient. */
  lemma {:induction false} LowIsRemainder(v: nat, w: nat)
    ensures v == ShiftRight(v, w) * Pow2(w) + Low(v, w) && Low(v, w) < Pow2(w)
  {
    if w > 0 {
      var q, p := ShiftRight(v / 2, w - 1), Pow2(w - 1);
      LowIsRemainder(v / 2, w - 1);
      assert q * (2 * p) == 2 * (q * p);
    }
  }

  lemma {:induction false} LowKeepsBits(v: nat, w: nat, k: nat)
    requires k <= w
    ensures ToBits(Low(v, w), k) == ToBits(v, k)
  {
    if k > 0 {
      assert Low(v, w) / 2 == Low(v / 2, w - 1) && Low(v, w) % 2 == v % 2;
      LowKeepsBits(v / 2, w - 1, k - 1);
    }
  }

  lemma {:induction false} LowIsTold(v: nat, n: nat, w: nat)
    requires ToBits(v, w) == ToBits(n, w)
    ensures Low(v, w) == Low(n, w)
  {
    if w > 0 {
      var a, b := ToBits(v, w), ToBits(n, w);
      assert a[..w - 1] == ToBits(v / 2, w - 1) && b[..w - 1] == ToBits(n / 2, w - 1);
      assert a[w - 1] == (v % 2 == 1) && b[w - 1] == (n % 2 == 1);
      LowIsTold(v / 2, n / 2, w - 1);
    }
  }

  /** Any value splits at any bit. */
  lemma {:induction false} BitsAt(v: nat, a: nat, b: nat)
    ensures ToBits(v, a + b) == ToBits(ShiftRight(v, b), a) + ToBits(v, b)
  {
    if b > 0 {
      BitsAt(v / 2, a, b - 1);
    }
  }

  lemma {:induction false} BitsShiftedIn(v: nat, n: nat, a: nat, w: nat)
    ensures ToBits(ShiftIn(v, n, w), a + w) == ToBits(v, a) + ToBits(n, w)
  {
    if w > 0 {
      var s := ShiftIn(v, n, w);
      assert s / 2 == ShiftIn(v, n / 2, w - 1) && s % 2 == n % 2;
      BitsShiftedIn(v, n / 2, a, w - 1);
    }
  }

  lemma TopBits(v: nat, bits: nat, w: nat)
    requires w <= bits
    ensures ToBits(v, bits) == ToBits(ShiftRight(v, bits - w), w) + ToBits(v, bits - w)
  {
    BitsAt(v, w, bits - w);
  }

  // ---- Numbers of a fixed width ----

  function AllBits(ns: seq<nat>, w: nat): seq<bool> {
    if ns == [] then [] else ToBits(ns[0], w) + AllBits(ns[1..], w)
  }

  /** Every number has no more than `w` bits. */
  predicate Fit(ns: seq<nat>, w: nat) {
    forall i :: 0 <= i < |ns| ==> Low(ns[i], w) == ns[i]
  }

  lemma {:induction false} AllBitsSnoc(ns: seq<nat>, n: nat, w: nat)
    ensures AllBits(ns + [n], w) == AllBits(ns, w) + ToBits(n, w)
  {
    if ns == [] {
      assert [] + [n] == [n] && [n][1..] == [];
    } else {
      assert (ns + [n])[1..] == ns[1..] + [n];
      AllBitsSnoc(ns[1..], n, w);
    }
  }

  lemma HeadsAgree(a: seq<bool>, x: seq<bool>, s: seq<bool>, b: seq<bool>, y: seq<bool>, t: seq<bool>)
    requires |a| == |b| && (a + x) + s == (b + y) + t
    ensures a == b && x + s == y + t
  {
    assert (a + x) + s == a + (x + s) && (b + y) + t == b + (y + t);
    assert a == (a + (x + s))[..|a|] && b == (b + (y + t))[..|b|];
    assert x + s == (a + (x + s))[|a|..] && y + t == (b + (y + t))[|b|..];
  }

  /** Numbers of a width are told by their bits, whatever short tail follows. */
  lemma {:induction false} BitsTellNumbers(a: seq<nat>, b: seq<nat>, w: nat, s: seq<bool>, t: seq<bool>)
    requires Fit(a, w) && Fit(b, w) && |s| < w && |t| < w && AllBits(a, w) + s == AllBits(b, w) + t
    ensures a == b
  {
    if a != [] && b != [] {
      HeadsAgree(ToBits(a[0], w), AllBits(a[1..], w), s, ToBits(b[0], w), AllBits(b[1..], w), t);
      LowIsTold(a[0], b[0], w);
      BitsTellNumbers(a[1..], b[1..], w, s, t);
      assert a == [a[0]] + a[1..] && b == [b[0]] + b[1..];
    }
  }

  // ---- Characters ----

  /** The place of a character in the alphabet, or none. */
  function IndexOf(c: char): Option<nat> {
    if 'A' <= c <= 'Z' then Some((c - 'A') as nat)
    else if '2' <= c <= '7' then Some(26 + (c - '2') as nat)
    else None
  }

  lemma AlphabetIndex(n: nat)
    requires n < 32
    ensures IndexOf(ALPHABET[n]) == Some(n)
  {
  }

  /** The numbers a text stands for, if every character is in the alphabet. */
  function Indices(text: string): Option<seq<nat>> {
    if text == "" then Some([])
    else
      var before, last := Indices(text[..|text| - 1]), IndexOf(text[|text| - 1]);
      if before.Some? && last.Some? then Some(before.value + [last.value]) else None
  }

  lemma {:induction false} IndicesSomeIff(text: string)
    ensures Indices(text).Some? <==> forall i :: 0 <= i < |text| ==> IndexOf(text[i]).Some?
  {
    if text != "" {
      IndicesSomeIff(text[..|text| - 1]);
    }
  }

  function Numbers(bytes: Bytes): (ns: seq<nat>)
    ensures |ns| == |bytes|
  {
    seq(|bytes|, i requires 0 <= i < |bytes| => bytes[i] as nat)
  }

  lemma {:induction false} SmallFits(n: nat, w: nat)
    requires n < Pow2(w)
    ensures Low(n, w) == n
  {
    if w > 0 {
      SmallFits(n / 2, w - 1);
    }
  }

  lemma ByteSize()
    ensures Pow2(BYTE) == 256 && Pow2(CHAR) == 32
  {
    assert Pow2(4) == 16;
  }

  lemma NumbersFit(bytes: Bytes)
    ensures Fit(Numbers(bytes), BYTE)
  {
    ByteSize();
    forall i | 0 <= i < |bytes| ensures Low(Numbers(bytes)[i], BYTE) == Numbers(bytes)[i] {
      SmallFits(bytes[i] as nat, BYTE);
    }
  }

  /** A text encodes bytes: its characters' bits are theirs, and fewer than five
   *  zeros. */
  ghost predicate Encodes(text: string, bytes: Bytes) {
    && Indices(text).Some?
    && exists pad: nat :: pad < CHAR && AllBits(Indices(text).value, CHAR) == AllBits(Numbers(bytes), BYTE) + ToBits(0, pad)
  }

  /** Bytes decode a text: their bits are its characters', but for fewer than
   *  eight left over. */
  ghost predicate Decodes(text: string, bytes: Bytes) {
    && Indices(text).Some?
    && exists tail: seq<bool> :: |tail| < BYTE && AllBits(Indices(text).value, CHAR) == AllBits(Numbers(bytes), BYTE) + tail
  }

  /** A text that encodes bytes decodes to nothing else. */
  lemma RoundTrip(text: string, bytes: Bytes, decoded: Bytes)
    requires Encodes(text, bytes) && Decodes(text, decoded)
    ensures decoded == bytes
  {
    var pad: nat :| pad < CHAR && AllBits(Indices(text).value, CHAR) == AllBits(Numbers(bytes), BYTE) + ToBits(0, pad);
    var tail: seq<bool> :| |tail| < BYTE && AllBits(Indices(text).value, CHAR) == AllBits(Numbers(decoded), BYTE) + tail;
    NumbersFit(bytes);
    NumbersFit(decoded);
    BitsTellNumbers(Numbers(bytes), Numbers(decoded), BYTE, ToBits(0, pad), tail);
    forall i | 0 <= i < |bytes| ensures bytes[i] == decoded[i] {
      assert Numbers(bytes)[i] == Numbers(decoded)[i];
    }
  }

  // ---- Encoding ----

  lemma MoreIn(out: seq<bool>, held: seq<bool>, taken: seq<bool>, more: seq<bool>)
    requires out + held == taken
    ensures out + (held + more) == taken + more
  {
    assert out + (held + more) == (out + held) + more;
  }

  lemma SomeOut(out: seq<bool>, top: seq<bool>, rest: seq<bool>, taken: seq<bool>)
    requires out + (top + rest) == taken
    ensures (out + top) + rest == taken
  {
    assert (out + top) + rest == out + (top + rest);
  }

  /** What has been put out, and the bits still held, are the bits taken in. */
  ghost predicate Held(output: string, value: nat, bits: nat, taken: Bytes) {
    Indices(output).Some? && AllBits(Indices(output).value, CHAR) + ToBits(value, bits) == AllBits(Numbers(taken), BYTE)
  }

  /** The accumulator takes `w` bits in, and wraps. */
  lemma TakenBits(value: nat, bits: nat, n: nat, w: nat)
    requires bits + w <= WORD
    ensures ToBits(Low(ShiftIn(value, n, w), WORD), bits + w) == ToBits(value, bits) + ToBits(n, w)
  {
    LowKeepsBits(ShiftIn(value, n, w), WORD, bits + w);
    BitsShiftedIn(value, n, bits, w);
  }

  lemma TakeByte(output: string, value: nat, bits: nat, taken: Bytes, byte: Byte)
    requires Held(output, value, bits, taken) && bits < CHAR
    ensures Held(output, Low(ShiftIn(value, byte as nat, BYTE), WORD), bits + BYTE, taken + [byte])
  {
    TakenBits(value, bits, byte as nat, BYTE);
    AppendByte(taken, byte as nat);
    MoreIn(AllBits(Indices(output).value, CHAR), ToBits(value, bits), AllBits(Numbers(taken), BYTE), ToBits(byte as nat, BYTE));
  }

  lemma AppendByte(bytes: Bytes, n: nat)
    requires n < 256
    ensures AllBits(Numbers(bytes + [n as Byte]), BYTE) == AllBits(Numbers(bytes), BYTE) + ToBits(n, BYTE)
  {
    assert Numbers(bytes + [n as Byte]) == Numbers(bytes) + [n];
    AllBitsSnoc(Numbers(bytes), n, BYTE);
  }

  /** A character put out for the low bits of `x`. */
  lemma PutChar(output: string, x: nat)
    requires Indices(output).Some?
    ensures Low(x, CHAR) < 32
    ensures var next := output + [ALPHABET[Low(x, CHAR)]];
      && Indices(next).Some?
      && AllBits(Indices(next).value, CHAR) == AllBits(Indices(output).value, CHAR) + ToBits(x, CHAR)
  {
    ByteSize();
    LowIsRemainder(x, CHAR);
    AlphabetIndex(Low(x, CHAR));
    var next := output + [ALPHABET[Low(x, CHAR)]];
    assert next[..|next| - 1] == output;
    AllBitsSnoc(Indices(output).value, Low(x, CHAR), CHAR);
    LowKeepsBits(x, CHAR, CHAR);
  }

  lemma PutDigit(output: string, value: nat, bits: nat, taken: Bytes)
    requires Held(output, value, bits, taken) && bits >= CHAR
    ensures var digit := Low(ShiftRight(value, bits - CHAR), CHAR);
      digit < 32 && Held(output + [ALPHABET[digit]], value, bits - CHAR, taken)
  {
    var x := ShiftRight(value, bits - CHAR);
    PutChar(output, x);
    TopBits(value, bits, CHAR);
    SomeOut(AllBits(Indices(output).value, CHAR), ToBits(x, CHAR), ToBits(value, bits - CHAR), AllBits(Numbers(taken), BYTE));
  }

  /** The bits left over, moved to the front of a last character. */
  lemma PadBits(value: nat, bits: nat)
    requires 0 < bits < CHAR
    ensures ToBits(Low(ShiftIn(value, 0, CHAR - bits), WORD), CHAR) == ToBits(value, bits) + ToBits(0, CHAR - bits)
  {
    LowKeepsBits(ShiftIn(value, 0, CHAR - bits), WORD, CHAR);
    BitsShiftedIn(value, 0, bits, CHAR - bits);
  }

  lemma PutLast(output: string, value: nat, bits: nat, taken: Bytes)
    requires Held(output, value, bits, taken) && 0 < bits < CHAR
    ensures var digit := Low(Low(ShiftIn(value, 0, CHAR - bits), WORD), CHAR);
      digit < 32 && Encodes(output + [ALPHABET[digit]], taken)
  {
    var x, pad: nat := Low(ShiftIn(value, 0, CHAR - bits), WORD), CHAR - bits;
    PutChar(output, x);
    PadBits(value, bits);
    MoreIn(AllBits(Indices(output).value, CHAR), ToBits(value, bits), AllBits(Numbers(taken), BYTE), ToBits(0, pad));
    var next := output + [ALPHABET[Low(x, CHAR)]];
    assert AllBits(Indices(next).value, CHAR) == AllBits(Numbers(taken), BYTE) + ToBits(0, pad);
  }

  lemma NothingLeft(output: string, value: nat, taken: Bytes)
    requires Held(output, value, 0, taken)
    ensures Encodes(output, taken)
  {
    var pad: nat := 0;
    assert AllBits(Indices(output).value, CHAR) == AllBits(Numbers(taken), BYTE) + ToBits(0, pad);
  }

  method Encode(bytes: Bytes) returns (output: string)
    ensures Encodes(output, bytes)
  {
    var bits: nat, value: nat := 0, 0;
    output := "";
    for i := 0 to |bytes|
      invariant bits < CHAR && Held(output, value, bits, bytes[..i])
    {
      TakeByte(output, value, bits, bytes[..i], bytes[i]);
      assert bytes[..i + 1] == bytes[..i] + [bytes[i]];
      value := Low(ShiftIn(value, bytes[i] as nat, BYTE), WORD);
      bits := bits + BYTE;
      while bits >= CHAR
        invariant Held(output, value, bits, bytes[..i + 1])
      {
        PutDigit(output, value, bits, bytes[..i + 1]);
        output := output + [ALPHABET[Low(ShiftRight(value, bits - CHAR), CHAR)]];
        bits := bits - CHAR;
      }
    }
    assert bytes[..|bytes|] == bytes;
    if bits > 0 {
      PutLast(output, value, bits, bytes);
      output := output + [ALPHABET[Low(Low(ShiftIn(value, 0, CHAR - bits), WORD), CHAR)]];
    } else {
      NothingLeft(output, value, bytes);
    }
  }

  // ---- Decoding ----

  predicate IsSpace(c: char) {
    c == ' ' || '\t' <= c <= '\r'
  }

  function Upper(c: char): char {
    if 'a' <= c <= 'z' then 'A' + (c - 'a') else c
  }

  function Uppercase(s: string): string {
    seq(|s|, i requires 0 <= i < |s| => Upper(s[i]))
  }

  function WithoutPadding(s: string): string {
    if s != "" && s[|s| - 1] == '=' then WithoutPadding(s[..|s| - 1]) else s
  }

  function WithoutSpaces(s: string): string {
    if s == "" then ""
    else WithoutSpaces(s[..|s| - 1]) + if IsSpace(s[|s| - 1]) then "" else [s[|s| - 1]]
  }

  /** Case, trailing padding and spaces do not matter, in that order. */
  function Clean(encoded: string): string {
    WithoutSpaces(WithoutPadding(Uppercase(encoded)))
  }

  /** What has been put out, and the bits still held, are those of the text. */
  ghost predicate Kept(out: Bytes, value: nat, bits: nat, text: string) {
    Indices(text).Some? && AllBits(Numbers(out), BYTE) + ToBits(value, bits) == AllBits(Indices(text).value, CHAR)
  }

  lemma AppendChar(text: string, c: char)
    requires Indices(text).Some? && IndexOf(c).Some?
    ensures Indices(text + [c]).Some?
    ensures AllBits(Indices(text + [c]).value, CHAR) == AllBits(Indices(text).value, CHAR) + ToBits(IndexOf(c).value, CHAR)
  {
    assert (text + [c])[..|text + [c]| - 1] == text;
    AllBitsSnoc(Indices(text).value, IndexOf(c).value, CHAR);
  }

  lemma TakeChar(out: Bytes, value: nat, bits: nat, text: string, c: char)
    requires Kept(out, value, bits, text) && bits < BYTE && IndexOf(c).Some?
    ensures Kept(out, Low(ShiftIn(value, IndexOf(c).value, CHAR), WORD), bits + CHAR, text + [c])
  {
    TakenBits(value, bits, IndexOf(c).value, CHAR);
    AppendChar(text, c);
    MoreIn(AllBits(Numbers(out), BYTE), ToBits(value, bits), AllBits(Indices(text).value, CHAR), ToBits(IndexOf(c).value, CHAR));
  }

  lemma LowByte(x: nat)
    ensures Low(x, BYTE) < 256 && ToBits(Low(x, BYTE), BYTE) == ToBits(x, BYTE)
  {
    ByteSize();
    LowIsRemainder(x, BYTE);
    LowKeepsBits(x, BYTE, BYTE);
  }

  lemma PutByte(out: Bytes, value: nat, bits: nat, text: string)
    requires Kept(out, value, bits, text) && bits >= BYTE
    ensures var b := Low(ShiftRight(value, bits - BYTE), BYTE);
      b < 256 && Kept(out + [b as Byte], value, bits - BYTE, text)
  {
    var b := Low(ShiftRight(value, bits - BYTE), BYTE);
    LowByte(ShiftRight(value, bits - BYTE));
    AppendByte(out, b);
    TopBits(value, bits, BYTE);
    SomeOut(AllBits(Numbers(out), BYTE), ToBits(b, BYTE), ToBits(value, bits - BYTE), AllBits(Indices(text).value, CHAR));
  }

  /** Decodes a text, or refuses one with a character outside the alphabet. */
  method Decode(encoded: string) returns (out: Option<Bytes>)
    ensures out.Some? <==> forall i :: 0 <= i < |Clean(encoded)| ==> IndexOf(Clean(encoded)[i]).Some?
    ensures out.Some? ==> Decodes(Clean(encoded), out.value)
  {
    var clean := Clean(encoded);
    var bits: nat, value: nat := 0, 0;
    var bytes: Bytes := [];
    for i := 0 to |clean|
      invariant bits < BYTE && Kept(bytes, value, bits, clean[..i])
      invariant forall j :: 0 <= j < i ==> IndexOf(clean[j]).Some?
    {
      var index := IndexOf(clean[i]);
      if index.None? {
        return None;
      }
      TakeChar(bytes, value, bits, clean[..i], clean[i]);
      assert clean[..i + 1] == clean[..i] + [clean[i]];
      value := Low(ShiftIn(value, index.value, CHAR), WORD);
      bits := bits + CHAR;
      if bits >= BYTE {
        PutByte(bytes, value, bits, clean[..i + 1]);
        bytes := bytes + [Low(ShiftRight(value, bits - BYTE), BYTE) as Byte];
        bits := bits - BYTE;
      }
    }
    assert clean[..|clean|] == clean;
    assert AllBits(Indices(clean).value, CHAR) == AllBits(Numbers(bytes), BYTE) + ToBits(value, bits);
    out := Some(bytes);
  }

  // ---- Together ----

  /** A text in the alphabet is clean as it is. */
  lemma {:induction false} AlphabetIsClean(text: string)
    requires forall i :: 0 <= i < |text| ==> IndexOf(text[i]).Some?
    ensures Clean(text) == text
  {
    assert Uppercase(text) == text;
    assert WithoutPadding(text) == text;
    NoSpaces(text);
  }

  lemma {:induction false} NoSpaces(text: string)
    requires forall i :: 0 <= i < |text| ==> IndexOf(text[i]).Some?
    ensures WithoutSpaces(text) == text
  {
    if text != "" {
      NoSpaces(text[..|text| - 1]);
      assert text == text[..|text| - 1] + [text[|text| - 1]];
    }
  }

  /** Every sequence of bytes survives encoding and decoding. */
  method EncodeThenDecode(bytes: Bytes) returns (decoded: Option<Bytes>)
    ensures decoded == Some(bytes)
  {
    var text := Encode(bytes);
    IndicesSomeIff(text);
    AlphabetIsClean(text);
    decoded := Decode(text);
    RoundTrip(text, bytes, decoded.value);
  }
}
