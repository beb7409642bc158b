/**
 * Base32 without padding (RFC 4648, section 6) as the worker's TOTP code
 * implements it: a 32-bit shift accumulator that is never masked.
 */
module Base32 {
  import opened BitStreams
  import opened Words
  import opened Text

  const BASE32_CHARS := "ABCDEFGHIJKLMNOPQRSTUVWXYZ234567"

  /** Letter(d) */
  function Letter(d: nat): char
    requires d < 32
  {
    if d < 26 then 'A' + d as char else '2' + (d - 26) as char
  }

  /** BASE32_CHARS.indexOf(c) */
  function LetterIndex(c: char): (idx: int)
    ensures -1 <= idx < 32
  {
    if 'A' <= c <= 'Z' then c as int - 'A' as int
    else if '2' <= c <= '7' then c as int - '2' as int + 26
    else -1
  }

  /** The two functions are the lookups in the alphabet the source spells out. */
  lemma {:induction false} AlphabetLookup(d: nat, c: char)
    requires d < 32
    ensures |BASE32_CHARS| == 32 && BASE32_CHARS[d] == Letter(d)
    ensures LetterIndex(c) == if c in BASE32_CHARS then IndexOf(BASE32_CHARS, c) else -1
  {
    AlphabetAt(d);
    AlphabetIndex(BASE32_CHARS, c);
  }

  lemma {:induction false} AlphabetIndex(chars: string, c: char)
    requires chars == BASE32_CHARS
    ensures LetterIndex(c) == if c in chars then IndexOf(chars, c) else -1
  {
    AlphabetHas(c);
    if c in chars {
      AlphabetAt(IndexOf(chars, c));
    }
  }

  lemma AlphabetAt(d: nat)
    requires d < 32
    ensures |BASE32_CHARS| == 32 && BASE32_CHARS[d] == Letter(d)
  {
    if d < 8 {} else if d < 16 {} else if d < 24 {} else {}
  }

  lemma AlphabetHas(c: char)
    ensures LetterIndex(c) >= 0 ==> c in BASE32_CHARS
  {
    if LetterIndex(c) >= 0 {
      AlphabetAt(LetterIndex(c));
      assert BASE32_CHARS[LetterIndex(c)] == c;
    }
  }

  function Letters(digits: seq<nat>): (s: string)
    requires AllBelow(digits, 32)
    ensures |s| == |digits|
  {
    if digits == [] then [] else [Letter(digits[0])] + Letters(digits[1..])
  }

  /** Digits of a text; characters outside the alphabet are skipped. */
  function Digits(s: string): (digits: seq<nat>)
    ensures AllBelow(digits, 32)
  {
    if s == [] then []
    else
      var idx := LetterIndex(s[0]);
      (if idx == -1 then [] else [idx]) + Digits(s[1..])
  }

  lemma {:induction false} DigitsOfLetters(digits: seq<nat>)
    requires AllBelow(digits, 32)
    ensures Digits(Letters(digits)) == digits
  {
    if digits != [] {
      DigitsOfLetters(digits[1..]);
      assert Letters(digits)[1..] == Letters(digits[1..]);
    }
  }

  /** The text of a bit stream: five bits a letter. */
  function Spell(bits: Bits): (text: string)
    ensures 5 * |text| == |bits| + Padding(|bits|, 5)
  {
    UnstreamRegroup(bits, 5);
    UnstreamLength(Regroup(bits, 5), 5);
    Power2Of8();
    Letters(Regroup(bits, 5))
  }

  /** RFC 4648, section 6: the bits of the bytes, five at a time. */
  function Encode(bytes: seq<Byte>): (text: string)
    ensures |text| == (8 * |bytes| + 4) / 5
  {
    Spell(Stream(bytes))
  }

  /** The inverse reading, tolerant of case and of characters outside the alphabet. */
  function Decode(text: string): seq<Byte> {
    Pack(Unstream(Digits(Upper(text)), 5))
  }

  lemma {:induction false} LettersUpper(digits: seq<nat>)
    requires AllBelow(digits, 32)
    ensures Upper(Letters(digits)) == Letters(digits)
  {
    if digits != [] {
      LettersUpper(digits[1..]);
      assert Letters(digits)[1..] == Letters(digits[1..]);
      assert Upper(Letters(digits))[1..] == Upper(Letters(digits)[1..]);
    }
  }

  /**
   * Any text whose alphabet characters, read without regard to case, are those
   * of the encoding decodes to the encoded bytes: grouping spaces, hyphens, lower
   * case and '=' padding are all harmless.
   */
  lemma DecodeTolerant(bytes: seq<Byte>, text: string)
    requires Digits(Upper(text)) == Digits(Upper(Encode(bytes)))
    ensures Decode(text) == bytes
  {
    var bits := Stream(bytes);
    var digits := Regroup(bits, 5);
    UnstreamRegroup(bits, 5);
    Power2Of8();
    LettersUpper(digits);
    DigitsOfLetters(digits);
    PackStream(bytes, Zeros(Padding(|bits|, 5)));
  }

  /** Decoding undoes encoding, for every byte string. */
  lemma RoundTrip(bytes: seq<Byte>)
    ensures Decode(Encode(bytes)) == bytes
  {
    DecodeTolerant(bytes, Encode(bytes));
  }

  /** Two byte strings with the same text are the same. */
  lemma EncodeInjective(a: seq<Byte>, b: seq<Byte>)
    requires Encode(a) == Encode(b)
    ensures a == b
  {
    RoundTrip(a);
    RoundTrip(b);
  }

  // ---- The worker's loops ----------------------------------------------------
  // `value` is a 32-bit word that is never masked: `<<` drops what passes bit 31. The
  // digits read are always inside the low 13 bits.

  lemma SmallCount(c: Count, k: nat)
    requires c as int == k && k <= 8
    ensures c <= 8
  {
  }

  method Places(k: nat) returns (c: Count)
    requires k <= 8
    ensures c as int == k && c <= 8
  {
    CountOf(k);
    SmallCount(k as Count, k);
    c := k as Count;
  }

  /** (value << 8) | byte: the n + 8 low bits are right although the word overflows. */
  method ByteIn(value: Word, ghost n: nat, b: bv8) returns (w: Word)
    requires n <= 8
    ensures Window(w, n + 8) == Window(value, n) + Digit(b as int, 8)
  {
    w := (value << 8) | (b as bv32);
    WindowByteIn(value, b, w, n);
  }

  /** (value << 5) | digit */
  method DigitIn(value: Word, ghost n: nat, d: bv5) returns (w: Word)
    requires n <= 8
    ensures Window(w, n + 5) == Window(value, n) + Digit(d as int, 5)
  {
    w := (value << 5) | (d as bv32);
    WindowDigitIn(value, d, w, n);
  }

  /** (value >>> k) & 31 */
  method DigitOut(value: Word, k: nat) returns (d: nat)
    requires k <= 8
    ensures d < 32 && Window(value, 5 + k) == Digit(d, 5) + Window(value, k)
  {
    var c := Places(k);
    WindowRight(value, 5, c);
    d := LowFive(value >> c);
  }

  /** (value >>> k) & 255 */
  method ByteOut(value: Word, k: nat) returns (b: Byte)
    requires k <= 8
    ensures Window(value, 8 + k) == Digit(b, 8) + Window(value, k)
  {
    var c := Places(k);
    WindowRight(value, 8, c);
    b := LowEight(value >> c);
  }

  /** (value << k) & 31 */
  method LastDigit(value: Word, k: nat) returns (d: nat)
    requires 1 <= k <= 5
    ensures d < 32 && Digit(d, 5) == Window(value, 5 - k) + Zeros(k)
  {
    var c := Places(k);
    WindowLeft(value, value << c, 5 - k, c);
    d := LowFive(value << c);
  }

  lemma {:induction false} DigitValue(d: nat, k: nat)
    requires d < Power2(k)
    ensures Value(Digit(d, k)) == d
  {
    ValueOfDigit(d, k);
    SmallRemainder(d, Power2(k));
  }

  lemma SmallRemainder(d: nat, p: nat)
    requires d < p
    ensures d % p == d
  {
  }

  /** Writing a digit out takes it off the front of what is still to be spelled. */
  lemma {:induction false} EmitDigit(bits: Bits, d: nat, below: Bits, later: Bits)
    requires d < 32 && bits == Digit(d, 5) + below
    ensures Spell(bits + later) == [Letter(d)] + Spell(below + later)
  {
    var rest := bits + later;
    assert rest[..5] == Digit(d, 5) && rest[5..] == below + later;
    Power2Of8();
    DigitValue(d, 5);
    SpellStep(rest);
  }

  lemma SpellStep(bits: Bits)
    requires |bits| >= 5
    ensures Value(bits[..5]) < 32
    ensures Spell(bits) == [Letter(Value(bits[..5]))] + Spell(bits[5..])
  {
    ValueBound(bits[..5]);
    Power2Of8();
    UnstreamRegroup(bits, 5);
    UnstreamRegroup(bits[5..], 5);
    assert Regroup(bits, 5)[1..] == Regroup(bits[5..], 5);
  }

  /** The last, incomplete digit. */
  lemma {:induction false} EmitLast(bits: Bits, d: nat)
    requires 1 <= |bits| <= 4 && d < 32 && Digit(d, 5) == bits + Zeros(5 - |bits|)
    ensures Spell(bits) == [Letter(d)]
  {
    Power2Of8();
    DigitValue(d, 5);
    SpellShort(bits);
  }

  lemma {:induction false} SpellShort(bits: Bits)
    requires 0 < |bits| < 5
    ensures Value(bits + Zeros(5 - |bits|)) < 32
    ensures Spell(bits) == [Letter(Value(bits + Zeros(5 - |bits|)))]
  {
    var d := Value(bits + Zeros(5 - |bits|));
    ValueBound(bits + Zeros(5 - |bits|));
    Power2Of8();
    assert Regroup(bits, 5) == [d];
    assert Letters([d]) == [Letter(d)] + Letters([]);
  }

  /** Writing a byte out takes it off the front of the packed stream. */
  lemma {:induction false} EmitByte(bits: Bits, b: Byte, below: Bits, later: Bits)
    requires bits == Digit(b, 8) + below
    ensures Pack(bits + later) == [b] + Pack(below + later)
  {
    var rest := bits + later;
    assert rest[..8] == Digit(b, 8) && rest[8..] == below + later;
    ByteOfDigit(b);
  }

  lemma {:induction false} NextOctet(bytes: seq<bv8>, i: nat)
    requires i < |bytes|
    ensures Stream(Values(bytes)[i..]) == Digit(bytes[i] as int, 8) + Stream(Values(bytes)[i + 1..])
  {
    var ints := Values(bytes);
    assert ints[i..][1..] == ints[i + 1..];
  }

  lemma Regrouped(a: Bits, b: Bits, c: Bits)
    ensures a + (b + c) == a + b + c
  {
  }

  /** The inner loop: write out digits while five bits or more are pending. */
  method DrainDigits(value: Word, pending: nat, written: string, ghost later: Bits) returns (bits: nat, output: string)
    requires pending <= 13
    ensures bits < 5 && bits <= pending
    ensures written + Spell(Window(value, pending) + later) == output + Spell(Window(value, bits) + later)
  {
    bits, output := pending, written;
    while bits >= 5
      invariant bits <= pending
      invariant written + Spell(Window(value, pending) + later) == output + Spell(Window(value, bits) + later)
    {
      var d := DigitOut(value, bits - 5);
      EmitDigit(Window(value, bits), d, Window(value, bits - 5), later);
      output := output + [Letter(d)];
      bits := bits - 5;
    }
  }

  /** What is still to be written when `n` bits are pending and the bytes from `i` on are unread. */
  function LeftToSpell(v: Word, n: nat, bytes: seq<bv8>, i: nat): string
    requires i <= |bytes|
  {
    Spell(Window(v, n) + Stream(Values(bytes)[i..]))
  }

  lemma LeftAtStart(bytes: seq<bv8>)
    ensures Encode(Values(bytes)) == "" + LeftToSpell(0, 0, bytes, 0)
  {
    assert Values(bytes)[0..] == Values(bytes);
    assert Window(0, 0) + Stream(Values(bytes)) == Stream(Values(bytes));
  }

  /** A byte shifted in moves from the input to the register. */
  lemma LeftPushed(v: Word, w: Word, n: nat, bytes: seq<bv8>, i: nat)
    requires i < |bytes| && Window(w, n + 8) == Window(v, n) + Digit(bytes[i] as int, 8)
    ensures LeftToSpell(v, n, bytes, i) == LeftToSpell(w, n + 8, bytes, i + 1)
  {
    NextOctet(bytes, i);
    Regrouped(Window(v, n), Digit(bytes[i] as int, 8), Stream(Values(bytes)[i + 1..]));
  }

  lemma {:induction false} LeftAtEnd(v: Word, n: nat, bytes: seq<bv8>)
    ensures LeftToSpell(v, n, bytes, |bytes|) == Spell(Window(v, n))
  {
    assert Values(bytes)[|bytes|..] == [];
    assert Window(v, n) + Stream(Values(bytes)[|bytes|..]) == Window(v, n);
  }

  /** The worker's encoder: bytes are shifted in, five-bit digits are shifted out. */
  method Base32Encode(bytes: seq<bv8>) returns (output: string)
    ensures output == Encode(Values(bytes))
  {
    var bits := 0;
    var value: Word := 0;
    output := "";
    LeftAtStart(bytes);
    for i := 0 to |bytes|
      invariant 0 <= bits < 5
      invariant Encode(Values(bytes)) == output + LeftToSpell(value, bits, bytes, i)
    {
      var w := ByteIn(value, bits, bytes[i]);
      LeftPushed(value, w, bits, bytes, i);
      value := w;
      bits := bits + 8;
      bits, output := DrainDigits(value, bits, output, Stream(Values(bytes)[i + 1..]));
    }
    LeftAtEnd(value, bits, bytes);
    if bits > 0 {
      var d := LastDigit(value, 5 - bits);
      EmitLast(Window(value, bits), d);
      output := output + [Letter(d)];
    }
  }

  /** The five bits a letter stands for; none for a character outside the alphabet. */
  function LetterBits(c: char): Bits {
    if LetterIndex(c) == -1 then [] else Digit(LetterIndex(c), 5)
  }

  lemma {:induction false} TextBits(s: string)
    requires s != []
    ensures Unstream(Digits(s), 5) == LetterBits(s[0]) + Unstream(Digits(s[1..]), 5)
  {
    if LetterIndex(s[0]) == -1 {
      assert Digits(s) == Digits(s[1..]);
    } else {
      UnstreamCons(LetterIndex(s[0]), Digits(s[1..]), 5);
    }
  }

  /** The body of the decoder's loop: one letter in, at most one byte out. */
  method ReadLetter(c: char, value0: Word, bits0: nat, output0: seq<Byte>, ghost later: Bits)
      returns (value: Word, bits: nat, output: seq<Byte>)
    requires bits0 < 8
    ensures bits < 8
    ensures output0 + Pack(Window(value0, bits0) + LetterBits(c) + later) == output + Pack(Window(value, bits) + later)
  {
    value, bits, output := value0, bits0, output0;
    var idx := LetterIndex(c);
    if idx == -1 {
      assert Window(value, bits) + LetterBits(c) == Window(value, bits);
      return;
    }
    CountOf(idx);
    value := DigitIn(value, bits, idx as bv5);
    bits := bits + 5;
    bits, output := FlushByte(value, bits, output, later);
  }

  /** One byte out as soon as eight bits are pending. */
  method FlushByte(value: Word, pending: nat, written: seq<Byte>, ghost later: Bits) returns (bits: nat, output: seq<Byte>)
    requires pending < 16
    ensures bits < 8
    ensures written + Pack(Window(value, pending) + later) == output + Pack(Window(value, bits) + later)
  {
    bits, output := pending, written;
    if bits >= 8 {
      var b := ByteOut(value, bits - 8);
      EmitByte(Window(value, bits), b, Window(value, bits - 8), later);
      output := output + [b];
      bits := bits - 8;
    }
  }

  /** The worker's decoder: five-bit digits are shifted in, bytes are shifted out. */
  method Base32Decode(input: string) returns (output: seq<Byte>)
    ensures output == Decode(input)
  {
    var str := StripPadding(Upper(input));
    StripPaddingDigits(Upper(input));
    var bits := 0;
    var value: Word := 0;
    output := [];
    ghost var goal := Pack(Unstream(Digits(str), 5));
    DecodeStarts(str);
    for i := 0 to |str|
      invariant 0 <= bits < 8
      invariant goal == output + Pack(Window(value, bits) + Unstream(Digits(str[i..]), 5))
    {
      DecodeStep(value, bits, str, i);
      value, bits, output := ReadLetter(str[i], value, bits, output, Unstream(Digits(str[i + 1..]), 5));
    }
    DecodeEnds(value, bits, str);
  }

  lemma {:induction false} DecodeStarts(str: string)
    ensures Window(0, 0) + Unstream(Digits(str[0..]), 5) == Unstream(Digits(str), 5)
  {
    assert str[0..] == str;
  }

  lemma {:induction false} DecodeStep(value: Word, bits: nat, str: string, i: nat)
    requires i < |str|
    ensures Window(value, bits) + Unstream(Digits(str[i..]), 5)
         == Window(value, bits) + LetterBits(str[i]) + Unstream(Digits(str[i + 1..]), 5)
  {
    TextBits(str[i..]);
    assert str[i..][1..] == str[i + 1..];
  }

  lemma {:induction false} DecodeEnds(value: Word, bits: nat, str: string)
    requires bits < 8
    ensures Pack(Window(value, bits) + Unstream(Digits(str[|str|..]), 5)) == []
  {
    assert str[|str|..] == [];
  }

  /** Trailing '=' characters are cut off before decoding starts. */
  function StripPadding(s: string): string {
    if s != [] && s[|s| - 1] == '=' then StripPadding(s[..|s| - 1]) else s
  }

  /** They are not in the alphabet, so cutting them off loses no digit. */
  lemma {:induction false} StripPaddingDigits(s: string)
    ensures Digits(StripPadding(s)) == Digits(s)
  {
    if s != [] && s[|s| - 1] == '=' {
      StripPaddingDigits(s[..|s| - 1]);
      DigitsSkipLast(s);
    }
  }

  lemma {:induction false} DigitsSkipLast(s: string)
    requires s != [] && s[|s| - 1] == '='
    ensures Digits(s[..|s| - 1]) == Digits(s)
  {
    if |s| == 1 {
    } else {
      DigitsSkipLast(s[1..]);
      assert s[..|s| - 1][1..] == s[1..][..|s| - 2];
    }
  }
}
