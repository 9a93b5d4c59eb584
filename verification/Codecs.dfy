/**
 Percent coding and base64url decoding (`src/web/search/decode.rs`), on bytes.

 Reading bytes as UTF-8 text is the standard library's; it enters as a function.
 */
module Codecs {
  import opened Prelude

  type bytes = seq<byte>

  // ----- Percent coding -----

  const PERCENT: byte := 0x25
  const PLUS: byte := 0x2B
  const SPACE: byte := 0x20

  /** Letters, digits, `-`, `_`, `.` and `~`: the unreserved set of section 2.3 of RFC 3986. */
  predicate IsUnreserved(b: byte) {
    0x41 <= b <= 0x5A || 0x61 <= b <= 0x7A || 0x30 <= b <= 0x39 || b in {0x2D, 0x5F, 0x2E, 0x7E}
  }

  function HexDigit(n: nat): byte
    requires n < 16
  {
    if n < 10 then 0x30 + n else 0x41 + n - 10
  }

  function HexVal(b: byte): (v: Option<nat>)
    ensures v.Some? ==> v.value < 16
  {
    if 0x30 <= b <= 0x39 then Some(b - 0x30)
    else if 0x61 <= b <= 0x66 then Some(b - 0x61 + 10)
    else if 0x41 <= b <= 0x46 then Some(b - 0x41 + 10)
    else None
  }

  function EncodedByte(b: byte): bytes {
    if IsUnreserved(b) then [b]
    else if b == SPACE then [PLUS]
    else [PERCENT, HexDigit(b / 16), HexDigit(b % 16)]
  }

  function Encoded(raw: bytes): bytes {
    if raw == [] then [] else Encoded(raw[..|raw| - 1]) + EncodedByte(raw[|raw| - 1])
  }

  /** The byte a percent triple stands for, if the text starts with one. */
  function Triple(s: bytes): (b: Option<byte>)
    ensures b.Some? ==> |s| > 2
  {
    if |s| > 2 && s[0] == PERCENT && HexVal(s[1]).Some? && HexVal(s[2]).Some? then
      Some(HexVal(s[1]).value * 16 + HexVal(s[2]).value)
    else None
  }

  function Decoded(s: bytes): bytes {
    if s == [] then []
    else if Triple(s).Some? then [Triple(s).value] + Decoded(s[3..])
    else [if s[0] == PLUS then SPACE else s[0]] + Decoded(s[1..])
  }

  method PercentEncode(raw: bytes) returns (out: bytes)
    ensures out == Encoded(raw)
  {
    out := [];
    for i := 0 to |raw|
      invariant out == Encoded(raw[..i])
    {
      assert raw[..i + 1][..i] == raw[..i];
      var b := raw[i];
      if IsUnreserved(b) {
        out := out + [b];
      } else if b == SPACE {
        out := out + [PLUS];
      } else {
        out := out + [PERCENT, HexDigit(b / 16), HexDigit(b % 16)];
      }
    }
    assert raw[..|raw|] == raw;
  }

  method PercentDecode(lossy: bytes -> string, raw: bytes) returns (text: string)
    ensures text == lossy(Decoded(raw))
  {
    hide Decoded, HexVal;
    var out: bytes := [];
    var i := 0;
    assert raw[0..] == raw;
    while i < |raw|
      invariant 0 <= i <= |raw|
      invariant out + Decoded(raw[i..]) == Decoded(raw)
    {
      DecodedAt(raw, i);
      if raw[i] == PERCENT && i + 2 < |raw| {
        var h, l := HexVal(raw[i + 1]), HexVal(raw[i + 2]);
        if h.Some? && l.Some? {
          ConcatAssociates(out, [h.value * 16 + l.value], Decoded(raw[i + 3..]));
          out := out + [h.value * 16 + l.value];
          i := i + 3;
          continue;
        }
      }
      var b := if raw[i] == PLUS then SPACE else raw[i];
      ConcatAssociates(out, [b], Decoded(raw[i + 1..]));
      out := out + [b];
      i := i + 1;
    }
    NothingDecoded();
    assert raw[|raw|..] == [] && out + [] == out;
    return lossy(out);
  }

  lemma NothingDecoded()
    ensures Decoded([]) == []
  {
  }

  /** The reading of what is left at `i`: a triple at once, else one byte. */
  lemma {:induction false} DecodedAt(raw: bytes, i: nat)
    requires i < |raw|
    ensures var triple := raw[i] == PERCENT && i + 2 < |raw| && HexVal(raw[i + 1]).Some? && HexVal(raw[i + 2]).Some?;
            && (triple ==>
                  Decoded(raw[i..])
                  == [HexVal(raw[i + 1]).value * 16 + HexVal(raw[i + 2]).value] + Decoded(raw[i + 3..]))
            && (!triple ==>
                  Decoded(raw[i..]) == [if raw[i] == PLUS then SPACE else raw[i]] + Decoded(raw[i + 1..]))
  {
    hide HexVal;
    var rest := raw[i..];
    assert rest[0] == raw[i] && rest[1..] == raw[i + 1..];
    if |rest| > 2 {
      assert rest[1] == raw[i + 1] && rest[2] == raw[i + 2] && rest[3..] == raw[i + 3..];
    }
  }

  lemma {:induction false} EncodedAppend(a: bytes, b: bytes)
    ensures Encoded(a + b) == Encoded(a) + Encoded(b)
  {
    hide EncodedByte;
    if b == [] {
      assert a + b == a && Encoded(a) + [] == Encoded(a);
    } else {
      var n, last := |b| - 1, b[|b| - 1];
      EncodedAppend(a, b[..n]);
      EncodedSnoc(a + b[..n], last);
      EncodedSnoc(b[..n], last);
      assert a + b == a + b[..n] + [last] && b == b[..n] + [last];
      hide Encoded;
      ConcatAssociates(Encoded(a), Encoded(b[..n]), EncodedByte(last));
    }
  }

  lemma {:induction false} EncodedSnoc(raw: bytes, last: byte)
    ensures Encoded(raw + [last]) == Encoded(raw) + EncodedByte(last)
  {
    hide EncodedByte;
    assert (raw + [last])[..|raw|] == raw;
  }

  lemma EncodedByteDecodes(b: byte, rest: bytes)
    ensures Decoded(EncodedByte(b) + rest) == [b] + Decoded(rest)
  {
    var code := EncodedByte(b);
    assert (code + rest)[|code|..] == rest;
  }

  /** Decoding undoes encoding on every byte string. */
  lemma {:induction false} PercentRoundTrip(raw: bytes)
    ensures Decoded(Encoded(raw)) == raw
  {
    if raw == [] {
      NothingDecoded();
    } else {
      var first, rest := raw[0], raw[1..];
      assert Encoded([]) == [];
      hide *;
      assert raw == [first] + rest;
      EncodedAppend([first], rest);
      assert [] + [first] == [first];
      EncodedSnoc([], first);
      assert Encoded([first]) == EncodedByte(first);
      EncodedByteDecodes(first, Encoded(rest));
      PercentRoundTrip(rest);
    }
  }

  /** Unreserved characters, `+` and whole percent triples one after the other, and nothing else. */
  predicate IsSafe(text: bytes) {
    text == []
    || ((IsUnreserved(text[0]) || text[0] == PLUS) && IsSafe(text[1..]))
    || (Triple(text).Some? && IsSafe(text[3..]))
  }

  lemma {:induction false} SafeAppend(a: bytes, b: bytes)
    requires IsSafe(a) && IsSafe(b)
    ensures IsSafe(a + b)
  {
    if a == [] {
      assert a + b == b;
    } else if (IsUnreserved(a[0]) || a[0] == PLUS) && IsSafe(a[1..]) {
      assert (a + b)[1..] == a[1..] + b;
      SafeAppend(a[1..], b);
    } else {
      assert (a + b)[3..] == a[3..] + b;
      SafeAppend(a[3..], b);
    }
  }

  /** Encoded text is safe, so a `%` in it always starts a whole triple. */
  lemma {:induction false} EncodedIsSafe(raw: bytes)
    ensures IsSafe(Encoded(raw))
  {
    if raw != [] {
      var last := raw[|raw| - 1];
      EncodedIsSafe(raw[..|raw| - 1]);
      assert EncodedByte(last)[|EncodedByte(last)|..] == [];
      assert IsSafe(EncodedByte(last));
      SafeAppend(Encoded(raw[..|raw| - 1]), EncodedByte(last));
    }
  }

  // ----- base64url -----

  const EQUALS: byte := 0x3D

  function Value(b: byte): (v: Option<nat>)
    ensures v.Some? ==> v.value < 64
  {
    if 0x41 <= b <= 0x5A then Some(b - 0x41)
    else if 0x61 <= b <= 0x7A then Some(b - 0x61 + 26)
    else if 0x30 <= b <= 0x39 then Some(b - 0x30 + 52)
    else if b == 0x2D then Some(62)
    else if b == 0x5F then Some(63)
    else None
  }

  /** The alphabet of section 5 of RFC 4648. */
  function Letter(n: nat): byte
    requires n < 64
  {
    if n < 26 then 0x41 + n
    else if n < 52 then 0x61 + n - 26
    else if n < 62 then 0x30 + n - 52
    else if n == 62 then 0x2D
    else 0x5F
  }

  /** The unpadded encoding: three bytes in four letters, one or two left over in two or three. */
  function Base64url(raw: bytes): bytes {
    if raw == [] then []
    else if |raw| == 1 then [Letter(raw[0] / 4), Letter(raw[0] % 4 * 16)]
    else if |raw| == 2 then
      [Letter(raw[0] / 4), Letter(raw[0] % 4 * 16 + raw[1] / 16), Letter(raw[1] % 16 * 4)]
    else
      [Letter(raw[0] / 4), Letter(raw[0] % 4 * 16 + raw[1] / 16),
       Letter(raw[1] % 16 * 4 + raw[2] / 64), Letter(raw[2] % 64)] + Base64url(raw[3..])
  }

  function Pow2(bits: nat): nat {
    if bits == 0 then 1 else if bits == 2 then 4 else if bits == 4 then 16 else 64
  }

  /**
   The bytes of a run of sextets, on exact arithmetic: `rest` holds the `bits` bits read but
   not yet emitted. `None` on a letter outside the alphabet; `=` is skipped.
   */
  function Sextets(input: bytes, bits: nat, rest: nat): Option<bytes>
    requires bits in {0, 2, 4, 6} && rest < Pow2(bits)
  {
    if input == [] then Some([])
    else if input[0] == EQUALS then Sextets(input[1..], bits, rest)
    else
      var v := Value(input[0]);
      if v.None? then None
      else
        var x := rest * 64 + v.value;
        if bits == 0 then Sextets(input[1..], 6, x)
        else
          var tail := Sextets(input[1..], bits - 2, x % Pow2(bits - 2));
          if tail.None? then None else Some([x / Pow2(bits - 2)] + tail.value)
  }

  const U32 := 0x1_0000_0000

  /** The accumulator after one more sextet: a 32-bit shift that drops its high bits, then the sextet. */
  function Shifted(buffer: nat, v: nat): nat {
    buffer * 64 % U32 + v
  }

  lemma DropHigh(n: nat, high: nat, low: nat)
    requires n == U32 * high + low && low < U32
    ensures n % U32 == low
  {
  }

  /** The 32-bit shift of a number cut at its 26 low bits. */
  lemma ShiftedIs(buffer: nat, v: nat)
    requires v < 64
    ensures Shifted(buffer, v) == 64 * (buffer % 0x400_0000) + v < U32
  {
    DropHigh(buffer * 64, buffer / 0x400_0000, 64 * (buffer % 0x400_0000));
  }

  lemma ShiftFrom0(buffer: nat, v: nat)
    requires v < 64
    ensures Shifted(buffer, v) % 64 == v && Shifted(buffer, v) < U32
  {
    ShiftedIs(buffer, v);
    hide Shifted;
  }

  lemma LowByte(q: nat, x: nat)
    requires x < 256
    ensures (256 * q + x) % 256 == x
  {
  }

  lemma ShiftFrom2(buffer: nat, v: nat)
    requires v < 64
    ensures var x := buffer % 4 * 64 + v;
            Shifted(buffer, v) % 256 == x < 256 && Shifted(buffer, v) < U32
  {
    ShiftedIs(buffer, v);
    hide Shifted;
    var low := buffer % 0x400_0000;
    assert low % 4 == buffer % 4;
    assert 64 * low + v == 256 * (low / 4) + (64 * (low % 4) + v);
    LowByte(low / 4, 64 * (low % 4) + v);
  }

  lemma Quarter(q: nat, x: nat)
    ensures (1024 * q + x) / 4 == 256 * q + x / 4 && (1024 * q + x) % 4 == x % 4
  {
  }

  lemma LowFour(n: nat, high: nat, low: nat)
    requires n == 16 * high + low && low < 16
    ensures n % 16 == low
  {
  }

  lemma LastFourBits(n: nat)
    ensures n % 0x400_0000 == 16 * (n % 0x400_0000 / 16) + n % 16
  {
    var high, low := n / 0x400_0000, n % 0x400_0000;
    LowFour(n, 0x40_0000 * high + low / 16, low % 16);
  }

  lemma EmitFour(q: nat, low: nat, v: nat)
    requires low < 16 && v < 64
    ensures var s, x := 64 * (16 * q + low) + v, low * 64 + v;
            s / 4 % 256 == x / 4 < 256 && s % 4 == x % 4
  {
    var x := low * 64 + v;
    assert 64 * (16 * q + low) + v == 1024 * q + x;
    Quarter(q, x);
    LowByte(q, x / 4);
  }

  lemma ShiftFrom4(buffer: nat, v: nat)
    requires v < 64
    ensures var x := buffer % 16 * 64 + v;
            Shifted(buffer, v) / 4 % 256 == x / 4 < 256
            && Shifted(buffer, v) % 4 == x % 4 && Shifted(buffer, v) < U32
  {
    ShiftedIs(buffer, v);
    hide Shifted;
    LastFourBits(buffer);
    EmitFour(buffer % 0x400_0000 / 16, buffer % 16, v);
  }

  lemma Sixteenth(q: nat, x: nat)
    ensures (4096 * q + x) / 16 == 256 * q + x / 16 && (4096 * q + x) % 16 == x % 16
  {
  }

  lemma LowSix(n: nat, high: nat, low: nat)
    requires n == 64 * high + low && low < 64
    ensures n % 64 == low
  {
  }

  lemma LastSixBits(n: nat)
    ensures n % 0x400_0000 == 64 * (n % 0x400_0000 / 64) + n % 64
  {
    var high, low := n / 0x400_0000, n % 0x400_0000;
    LowSix(n, 0x10_0000 * high + low / 64, low % 64);
  }

  lemma EmitSix(q: nat, low: nat, v: nat)
    requires low < 64 && v < 64
    ensures var s, x := 64 * (64 * q + low) + v, low * 64 + v;
            s / 16 % 256 == x / 16 < 256 && s % 16 == x % 16
  {
    var x := low * 64 + v;
    assert 64 * (64 * q + low) + v == 4096 * q + x;
    Sixteenth(q, x);
    LowByte(q, x / 16);
  }

  lemma ShiftFrom6(buffer: nat, v: nat)
    requires v < 64
    ensures var x := buffer % 64 * 64 + v;
            Shifted(buffer, v) / 16 % 256 == x / 16 < 256
            && Shifted(buffer, v) % 16 == x % 16 && Shifted(buffer, v) < U32
  {
    ShiftedIs(buffer, v);
    hide Shifted;
    LastSixBits(buffer);
    EmitSix(buffer % 0x400_0000 / 64, buffer % 64, v);
  }

  /** Dropped high bits never show: below the pending bits the 32-bit accumulator is exact. */
  lemma ShiftIsExact(buffer: nat, bits: nat, v: nat)
    requires bits in {0, 2, 4, 6} && v < 64
    ensures Shifted(buffer, v) < U32
    ensures var x := buffer % Pow2(bits) * 64 + v;
            && (bits == 0 ==> Shifted(buffer, v) % 64 == x)
            && (bits > 0 ==>
                  && Shifted(buffer, v) / Pow2(bits - 2) % 256 == x / Pow2(bits - 2) < 256
                  && Shifted(buffer, v) % Pow2(bits - 2) == x % Pow2(bits - 2))
  {
    hide Shifted;
    ShiftFrom0(buffer, v);
    ShiftFrom2(buffer, v);
    ShiftFrom4(buffer, v);
    ShiftFrom6(buffer, v);
  }

  function After(out: bytes, tail: Option<bytes>): Option<bytes> {
    if tail.None? then None else Some(out + tail.value)
  }

  lemma AfterTwice(a: bytes, b: bytes, tail: Option<bytes>)
    ensures After(a, After(b, tail)) == After(a + b, tail)
  {
    if tail.Some? {
      ConcatAssociates(a, b, tail.value);
    }
  }

  lemma AfterNothing(tail: Option<bytes>)
    ensures After([], tail) == tail
  {
    if tail.Some? {
      assert [] + tail.value == tail.value;
    }
  }

  /** What one letter of the input does to the reading of it. */
  lemma LetterRead(input: bytes, bits: nat, rest: nat, out: bytes)
    requires bits in {0, 2, 4, 6} && rest < Pow2(bits)
    requires input != [] && input[0] != EQUALS && Value(input[0]).Some?
    ensures var x := rest * 64 + Value(input[0]).value;
            After(out, Sextets(input, bits, rest)) ==
              if bits == 0 then After(out, Sextets(input[1..], 6, x))
              else After(out + [x / Pow2(bits - 2)], Sextets(input[1..], bits - 2, x % Pow2(bits - 2)))
  {
    if bits != 0 {
      var x := rest * 64 + Value(input[0]).value;
      AfterTwice(out, [x / Pow2(bits - 2)], Sextets(input[1..], bits - 2, x % Pow2(bits - 2)));
    }
  }

  method Base64urlDecode(utf8: bytes -> Option<string>, input: bytes) returns (text: Option<string>)
    ensures text == match Sextets(input, 0, 0) case None => None case Some(out) => utf8(out)
  {
    hide Pow2, Shifted, Sextets, After, Value;
    var out: bytes := [];
    var buffer, bits := 0, 0;
    PowersOfTwo();
    assert input[0..] == input;
    AfterNothing(Sextets(input, 0, 0));
    for i := 0 to |input|
      invariant 0 <= buffer < U32 && bits in {0, 2, 4, 6}
      invariant Sextets(input, 0, 0) == After(out, Sextets(input[i..], bits, buffer % Pow2(bits)))
    {
      PowersOfTwo();
      ghost var rest := input[i..];
      assert rest[1..] == input[i + 1..];
      if input[i] == EQUALS {
        SkippedRead(rest, bits, buffer % Pow2(bits));
        continue;
      }
      var v := Value(input[i]);
      if v.None? {
        SkippedRead(rest, bits, buffer % Pow2(bits));
        return None;
      }
      ShiftIsExact(buffer, bits, v.value);
      LetterRead(rest, bits, buffer % Pow2(bits), out);
      buffer := Shifted(buffer, v.value);
      bits := bits + 6;
      if bits >= 8 {
        bits := bits - 8;
        out := out + [buffer / Pow2(bits) % 256];
      }
    }
    assert input[|input|..] == [];
    AllRead(out, bits, buffer % Pow2(bits));
    return utf8(out);
  }

  lemma SkippedRead(input: bytes, bits: nat, rest: nat)
    requires bits in {0, 2, 4, 6} && rest < Pow2(bits)
    ensures input != [] && input[0] == EQUALS ==> Sextets(input, bits, rest) == Sextets(input[1..], bits, rest)
    ensures input != [] && input[0] != EQUALS && Value(input[0]).None? ==>
              forall out :: After(out, Sextets(input, bits, rest)) == None
  {
  }

  lemma AllRead(out: bytes, bits: nat, rest: nat)
    requires bits in {0, 2, 4, 6} && rest < Pow2(bits)
    ensures After(out, Sextets([], bits, rest)) == Some(out)
  {
    assert out + [] == out;
  }

  lemma PowersOfTwo()
    ensures Pow2(0) == 1 && Pow2(2) == 4 && Pow2(4) == 16 && Pow2(6) == 64
    ensures forall bits :: 0 < Pow2(bits)
  {
  }

  // ----- Decoding undoes encoding -----

  lemma LettersHaveValues(n: nat)
    requires n < 64
    ensures Value(Letter(n)) == Some(n) && Letter(n) != EQUALS
  {
  }

  lemma OneSextet(n: nat, rest: bytes, bits: nat, pending: nat)
    requires n < 64 && bits in {0, 2, 4, 6} && pending < Pow2(bits)
    ensures Sextets([Letter(n)] + rest, bits, pending) ==
              if bits == 0 then Sextets(rest, 6, pending * 64 + n)
              else
                After([(pending * 64 + n) / Pow2(bits - 2)],
                      Sextets(rest, bits - 2, (pending * 64 + n) % Pow2(bits - 2)))
  {
    LettersHaveValues(n);
    assert ([Letter(n)] + rest)[1..] == rest;
  }

  /** The unpadded encoding of every byte string decodes to it. */
  lemma {:induction false} Base64urlRoundTrip(raw: bytes)
    ensures Sextets(Base64url(raw), 0, 0) == Some(raw)
  {
    if raw == [] {
      hide Letter, Value;
    } else if |raw| == 1 {
      var a := raw[0];
      assert Base64url(raw) == [Letter(a / 4), Letter(a % 4 * 16)];
      hide *;
      TwoLetters(a);
      assert raw == [a];
    } else if |raw| == 2 {
      var a, b := raw[0], raw[1];
      assert Base64url(raw) == [Letter(a / 4), Letter(a % 4 * 16 + b / 16), Letter(b % 16 * 4)];
      hide *;
      ThreeLetters(a, b);
      assert raw == [a, b];
    } else {
      var a, b, c, rest := raw[0], raw[1], raw[2], raw[3..];
      assert Base64url(raw)
          == [Letter(a / 4), Letter(a % 4 * 16 + b / 16), Letter(b % 16 * 4 + c / 64), Letter(c % 64)]
             + Base64url(rest);
      hide Sextets, Base64url, Letter;
      FourLetters(a, b, c, Base64url(rest));
      Base64urlRoundTrip(rest);
      assert raw == [a, b, c] + rest;
    }
  }

  lemma FourLetters(a: byte, b: byte, c: byte, rest: bytes)
    ensures Sextets([Letter(a / 4), Letter(a % 4 * 16 + b / 16), Letter(b % 16 * 4 + c / 64), Letter(c % 64)]
              + rest, 0, 0)
         == After([a, b, c], Sextets(rest, 0, 0))
  {
    hide Sextets, Letter;
    var w, x, y, z := a / 4, a % 4 * 16 + b / 16, b % 16 * 4 + c / 64, c % 64;
    var l1, l2, l3 := [Letter(z)] + rest, [Letter(y)] + ([Letter(z)] + rest),
        [Letter(x)] + ([Letter(y)] + ([Letter(z)] + rest));
    assert [Letter(w), Letter(x), Letter(y), Letter(z)] + rest == [Letter(w)] + l3;
    OneSextet(w, l3, 0, 0);
    OneSextet(x, l2, 6, w);
    assert (w * 64 + x) / 16 == a && (w * 64 + x) % 16 == b / 16;
    OneSextet(y, l1, 4, b / 16);
    assert (b / 16 * 64 + y) / 4 == b && (b / 16 * 64 + y) % 4 == c / 64;
    OneSextet(z, rest, 2, c / 64);
    assert c / 64 * 64 + z == c;
    AfterTwice([b], [c], Sextets(rest, 0, 0));
    AfterTwice([a], [b] + [c], Sextets(rest, 0, 0));
    assert [a] + ([b] + [c]) == [a, b, c];
  }

  lemma ThreeLetters(a: byte, b: byte)
    ensures Sextets([Letter(a / 4), Letter(a % 4 * 16 + b / 16), Letter(b % 16 * 4)], 0, 0) == Some([a, b])
  {
    hide Letter;
    var w, x, y := a / 4, a % 4 * 16 + b / 16, b % 16 * 4;
    assert [Letter(w), Letter(x), Letter(y)] == [Letter(w)] + ([Letter(x)] + ([Letter(y)] + []));
    OneSextet(w, [Letter(x)] + ([Letter(y)] + []), 0, 0);
    OneSextet(x, [Letter(y)] + [], 6, w);
    assert (w * 64 + x) / 16 == a && (w * 64 + x) % 16 == b / 16;
    OneSextet(y, [], 4, b / 16);
    assert [a] + ([b] + []) == [a, b];
    assert (b / 16 * 64 + y) / 4 == b && (b / 16 * 64 + y) % 4 == 0;
  }

  lemma TwoLetters(a: byte)
    ensures Sextets([Letter(a / 4), Letter(a % 4 * 16)], 0, 0) == Some([a])
  {
    hide Letter;
    var w, x := a / 4, a % 4 * 16;
    assert [Letter(w), Letter(x)] == [Letter(w)] + ([Letter(x)] + []);
    OneSextet(w, [Letter(x)] + [], 0, 0);
    OneSextet(x, [], 6, w);
    assert [a] + [] == [a];
    assert (w * 64 + x) / 16 == a && (w * 64 + x) % 16 == 0;
  }

  function Unpadded(input: bytes): bytes {
    if input == [] then []
    else (if input[0] == EQUALS then [] else [input[0]]) + Unpadded(input[1..])
  }

  /** Stray `=` signs change nothing wherever they stand. */
  lemma {:induction false} PaddingIsIgnored(input: bytes, bits: nat, rest: nat)
    requires bits in {0, 2, 4, 6} && rest < Pow2(bits)
    ensures Sextets(input, bits, rest) == Sextets(Unpadded(input), bits, rest)
  {
    hide Value;
    if input != [] {
      var later := input[1..];
      if input[0] == EQUALS {
        assert [] + Unpadded(later) == Unpadded(later);
        PaddingIsIgnored(later, bits, rest);
      } else {
        assert Unpadded(input) == [input[0]] + Unpadded(later) && Unpadded(input)[1..] == Unpadded(later);
        hide Unpadded;
        if Value(input[0]).Some? {
          var x := rest * 64 + Value(input[0]).value;
          if bits == 0 {
            PaddingIsIgnored(later, 6, x);
          } else {
            PaddingIsIgnored(later, bits - 2, x % Pow2(bits - 2));
          }
        }
      }
    }
  }

  // ----- The alphabets -----

  /** Unreserved characters are letters, digits and four marks (section 2.3 of RFC 3986). */
  lemma {:induction false} UnreservedTells(c: char)
    requires c as int < 256
    ensures IsUnreserved(c as int) <==>
              'a' <= c <= 'z' || 'A' <= c <= 'Z' || '0' <= c <= '9' || c == '-' || c == '.' || c == '_' || c == '~'
  {
  }

  /** A byte is written as it is, as a plus sign for a space, or as its two upper-case hexadecimal digits. */
  lemma {:induction false} EncodedByteTells(b: byte)
    ensures IsUnreserved(b) ==> EncodedByte(b) == [b]
    ensures b == ' ' as int ==> EncodedByte(b) == ['+' as int]
    ensures !IsUnreserved(b) && b != ' ' as int ==>
              EncodedByte(b)
              == ['%' as int, "0123456789ABCDEF"[b / 16] as int, "0123456789ABCDEF"[b % 16] as int]
  {
  }

  /** A hexadecimal digit is read in either case, and nothing else is one. */
  lemma {:induction false} HexTells(b: byte, v: nat)
    requires v < 16
    ensures HexVal(b) == Some(v) <==>
              b == "0123456789ABCDEF"[v] as int || b == "0123456789abcdef"[v] as int
  {
  }

  /**
   What a byte of encoded text is read as: a percent sign and two hexadecimal digits as their
   byte, a plus sign as a space, and anything else, a lone percent sign among it, as it stands.
   */
  lemma {:induction false} DecodedTells(first: byte, rest: bytes)
    ensures var triple :=
              first == '%' as int && |rest| >= 2 && HexVal(rest[0]).Some? && HexVal(rest[1]).Some?;
            && (triple ==>
                  Decoded([first] + rest)
                  == [16 * HexVal(rest[0]).value + HexVal(rest[1]).value] + Decoded(rest[2..]))
            && (!triple ==>
                  Decoded([first] + rest) == [if first == '+' as int then ' ' as int else first] + Decoded(rest))
  {
    hide HexVal;
    var text := [first] + rest;
    assert text[1..] == rest;
    if |rest| >= 2 {
      assert text[1] == rest[0] && text[2] == rest[1] && text[3..] == rest[2..];
    }
  }

  /** The letters of the URL-safe alphabet, in order (section 5 of RFC 4648). */
  lemma {:induction false} LettersTell(n: nat)
    requires n < 64
    ensures Letter(n)
         == (if n < 26 then 'A' as int + n else if n < 52 then 'a' as int + (n - 26)
             else if n < 62 then '0' as int + (n - 52) else if n == 62 then '-' as int else '_' as int)
    ensures Value(Letter(n)) == Some(n)
  {
  }

  lemma {:induction false} OnlyLettersHaveValues(b: byte)
    ensures Value(b).Some? ==> Letter(Value(b).value) == b
  {
  }

  /** Every three bytes are four letters of six bits each, first bits first. */
  lemma {:induction false} FourLettersTell(a: byte, b: byte, c: byte, rest: bytes)
    ensures var bits := 65_536 * a + 256 * b + c;
            Base64url([a, b, c] + rest)
            == [Letter(bits / 262_144), Letter(bits / 4096 % 64), Letter(bits / 64 % 64), Letter(bits % 64)]
               + Base64url(rest)
  {
    hide Letter;
    var raw := [a, b, c] + rest;
    assert raw[3..] == rest && raw[0] == a && raw[1] == b && raw[2] == c;
    SixBits(a, b, c);
  }

  lemma {:induction false} CutAt262144(n: nat, high: nat, low: nat)
    requires n == 262_144 * high + low && low < 262_144
    ensures n / 262_144 == high
  {
  }

  lemma {:induction false} CutAt4096(n: nat, high: nat, low: nat)
    requires n == 4096 * high + low && low < 4096
    ensures n / 4096 == high
  {
  }

  lemma {:induction false} CutAt64(n: nat, high: nat, low: nat)
    requires n == 64 * high + low && low < 64
    ensures n / 64 == high && n % 64 == low
  {
  }

  lemma {:induction false} SixBits(a: byte, b: byte, c: byte)
    ensures var bits := 65_536 * a + 256 * b + c;
            && bits / 262_144 == a / 4 && bits / 4096 % 64 == a % 4 * 16 + b / 16
            && bits / 64 % 64 == b % 16 * 4 + c / 64 && bits % 64 == c % 64
  {
    var bits := 65_536 * a + 256 * b + c;
    CutAt262144(bits, a / 4, 65_536 * (a % 4) + 256 * b + c);
    CutAt4096(bits, 16 * a + b / 16, 256 * (b % 16) + c);
    CutAt64(bits, 1024 * a + 4 * b + c / 64, c % 64);
    CutAt64(16 * a + b / 16, a / 4, a % 4 * 16 + b / 16);
    CutAt64(1024 * a + 4 * b + c / 64, 16 * a + b / 16, b % 16 * 4 + c / 64);
  }
}
