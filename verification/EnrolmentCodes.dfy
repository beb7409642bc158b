/**
 * Codes that people type: drawing them without bias, showing them with hyphens, and
 * reading them back.
 */
module EnrolmentCodes {
  import opened BitStreams
  import opened Common
  import opened Text
  import opened Decimals

  const CODE_LENGTH := 12
  const SYMBOLS := 32

  /** The alphabet: A to Z without I and O, and 2 to 9. */
  function Symbol(i: nat): (c: char)
    requires i < SYMBOLS
    ensures InAlphabet(c)
  {
    if i < 8 then 'A' + i as char
    else if i < 13 then 'J' + (i - 8) as char
    else if i < 24 then 'P' + (i - 13) as char
    else '2' + (i - 24) as char
  }

  predicate InAlphabet(c: char) {
    ('A' <= c <= 'Z' && c != 'I' && c != 'O') || '2' <= c <= '9'
  }

  // ---- Normal form -----------------------------------------------------------------

  predicate IsPlain(c: char) {
    'A' <= c <= 'Z' || '0' <= c <= '9'
  }

  /** .replace(/[^A-Z0-9]/g, "") */
  function Plain(s: string): (r: string)
    ensures forall i | 0 <= i < |r| :: IsPlain(r[i])
  {
    if s == [] then [] else (if IsPlain(s[0]) then [s[0]] else []) + Plain(s[1..])
  }

  /** normalizeEnrollmentCode, and the transform of the request schema. */
  function NormalizeCode(code: string): string {
    Plain(Upper(Trim(code)))
  }

  predicate IsValidCode(normalized: string) {
    if |normalized| == CODE_LENGTH then forall i | 0 <= i < |normalized| :: InAlphabet(normalized[i])
    else |normalized| == 6 && AllDigits(normalized)
  }

  /** Valid are twelve symbols of the alphabet, and the six digits that older consoles showed. */
  lemma ValidExactly(n: string)
    ensures IsValidCode(n) <==>
              || (|n| == 12 && forall i | 0 <= i < |n| :: InAlphabet(n[i]))
              || (|n| == 6 && forall i | 0 <= i < |n| :: '0' <= n[i] && n[i] <= '9')
  {
  }

  lemma {:induction false} PlainFixed(s: string)
    requires forall i | 0 <= i < |s| :: IsPlain(s[i])
    ensures Plain(s) == s
  {
    if s != [] {
      PlainFixed(s[1..]);
    }
  }

  lemma {:induction false} PlainConcat(a: string, b: string)
    ensures Plain(a + b) == Plain(a) + Plain(b)
  {
    if a == [] {
      assert a + b == b;
    } else {
      assert (a + b)[1..] == a[1..] + b;
      PlainConcat(a[1..], b);
    }
  }

  lemma UpperFixed(s: string)
    requires forall i | 0 <= i < |s| :: IsPlain(s[i])
    ensures Upper(s) == s
  {
  }

  lemma PlainTrim(s: string)
    requires forall i | 0 <= i < |s| :: IsPlain(s[i])
    ensures Trim(s) == s
  {
  }

  /** The route normalises what the schema has normalised already: nothing changes, for any text. */
  lemma NormalizeTwice(code: string)
    ensures NormalizeCode(NormalizeCode(code)) == NormalizeCode(code)
  {
    var n := NormalizeCode(code);
    PlainTrim(n);
    UpperFixed(n);
    PlainFixed(n);
  }

  lemma UpperConcat(a: string, b: string)
    ensures Upper(a + b) == Upper(a) + Upper(b)
  {
  }

  lemma PlainSpace(c: char)
    requires IsSpace(c)
    ensures Plain(Upper([c])) == []
  {
    assert Upper([c]) == [c];
  }

  lemma {:induction false} PlainTrimStart(s: string)
    ensures Plain(Upper(TrimStart(s))) == Plain(Upper(s))
  {
    if s != [] && IsSpace(s[0]) {
      PlainTrimStart(s[1..]);
      PlainSpace(s[0]);
      assert s == [s[0]] + s[1..];
      UpperConcat([s[0]], s[1..]);
      PlainConcat(Upper([s[0]]), Upper(s[1..]));
    }
  }

  lemma {:induction false} PlainTrimEnd(s: string)
    ensures Plain(Upper(TrimEnd(s))) == Plain(Upper(s))
  {
    var last := |s| - 1;
    if s != [] && IsSpace(s[last]) {
      PlainTrimEnd(s[..last]);
      PlainSpace(s[last]);
      assert s == s[..last] + [s[last]];
      UpperConcat(s[..last], [s[last]]);
      PlainConcat(Upper(s[..last]), Upper([s[last]]));
    }
  }

  /** Trimming is for show: white space anywhere is dropped. */
  lemma NormalizeIsPlainUpper(code: string)
    ensures NormalizeCode(code) == Plain(Upper(code))
  {
    PlainTrimStart(code);
    PlainTrimEnd(TrimStart(code));
  }

  // ---- Drawing a code --------------------------------------------------------------

  function RawCode(bytes: seq<Byte>): (raw: string)
    ensures |raw| == |bytes|
    ensures forall i | 0 <= i < |raw| :: raw[i] == Symbol(bytes[i] as int % SYMBOLS)
  {
    seq(|bytes|, i requires 0 <= i < |bytes| => Symbol(bytes[i] as int % SYMBOLS))
  }

  function Hyphenated(raw: string): string
    requires |raw| == CODE_LENGTH
  {
    raw[..4] + "-" + raw[4..8] + "-" + raw[8..]
  }

  /** generateEnrollmentCode, from its twelve random bytes: what is shown reads back as what was drawn. */
  method GenerateEnrolmentCode(bytes: seq<Byte>) returns (code: string)
    requires |bytes| == CODE_LENGTH
    ensures code == Hyphenated(RawCode(bytes))
    ensures NormalizeCode(code) == RawCode(bytes) && IsValidCode(NormalizeCode(code))
  {
    code := ShowCode(bytes);
    ShownCodeReadsBack(bytes);
  }

  method ShowCode(bytes: seq<Byte>) returns (code: string)
    requires |bytes| == CODE_LENGTH
    ensures code == Hyphenated(RawCode(bytes))
  {
    var raw := "";
    for i := 0 to CODE_LENGTH
      invariant raw == RawCode(bytes)[..i]
    {
      raw := raw + [Symbol(bytes[i] as int % SYMBOLS)];
    }
    assert raw == RawCode(bytes);
    code := raw[..4] + "-" + raw[4..8] + "-" + raw[8..12];
  }

  lemma {:induction false} PlainPieces(a: string, b: string, c: string)
    ensures Plain(a + "-" + b + "-" + c) == Plain(a) + Plain(b) + Plain(c)
  {
    assert Plain("-") == "";
    PlainConcat(a + "-" + b + "-", c);
    PlainConcat(a + "-" + b, "-");
    PlainConcat(a + "-", b);
    PlainConcat(a, "-");
  }

  lemma UpperHyphenated(raw: string)
    requires |raw| == CODE_LENGTH && forall i | 0 <= i < |raw| :: IsPlain(raw[i])
    ensures Upper(Hyphenated(raw)) == Hyphenated(raw)
    ensures Upper(Lower(Hyphenated(raw))) == Hyphenated(raw)
  {
  }

  /**
   * The code round trip: whatever was drawn, the code as shown, or typed in lower case,
   * normalises to the drawn symbols, and these are a valid code.
   */
  lemma ShownCodeReadsBack(bytes: seq<Byte>)
    requires |bytes| == CODE_LENGTH
    ensures var shown := Hyphenated(RawCode(bytes));
            && NormalizeCode(shown) == RawCode(bytes) && NormalizeCode(Lower(shown)) == RawCode(bytes)
            && IsValidCode(RawCode(bytes)) && 6 <= |shown| <= 40
  {
    var raw := RawCode(bytes);
    UpperHyphenated(raw);
    NormalizeIsPlainUpper(Hyphenated(raw));
    NormalizeIsPlainUpper(Lower(Hyphenated(raw)));
    PlainHyphenated(raw);
  }

  lemma PlainHyphenated(raw: string)
    requires |raw| == CODE_LENGTH && forall i | 0 <= i < |raw| :: IsPlain(raw[i])
    ensures Plain(Hyphenated(raw)) == raw
  {
    PlainPieces(raw[..4], raw[4..8], raw[8..]);
    PlainFixed(raw[..4]);
    PlainFixed(raw[4..8]);
    PlainFixed(raw[8..]);
    assert raw == raw[..4] + raw[4..8] + raw[8..];
  }

  // ---- No bias ---------------------------------------------------------------------

  /** How many numbers below n leave the remainder r. */
  function CountResidues(n: nat, m: nat, r: nat): nat
    requires m > 0
  {
    if n == 0 then 0 else CountResidues(n - 1, m, r) + if (n - 1) % m == r then 1 else 0
  }

  /** Within one period, the remainder r occurs once it has been reached. */
  lemma {:induction false} CountWithin(start: nat, m: nat, r: nat, k: nat)
    requires r < m && k <= m && start % m == 0
    ensures CountResidues(start + k, m, r) == CountResidues(start, m, r) + if r < k then 1 else 0
    decreases k
  {
    if k > 0 {
      CountWithin(start, m, r, k - 1);
      RemainderIn(start, m, k - 1);
      CountOne(start + k, m, r);
    }
  }

  lemma CountOne(n: nat, m: nat, r: nat)
    requires n > 0 && m > 0
    ensures CountResidues(n, m, r) == CountResidues(n - 1, m, r) + if (n - 1) % m == r then 1 else 0
  {
  }

  lemma RemainderIn(start: nat, m: nat, k: nat)
    requires k < m && start % m == 0
    ensures (start + k) % m == k
  {
    var x := start + k;
    var d := x / m - start / m;
    assert x == (x / m) * m + x % m && start == (start / m) * m;
    assert d * m == k - x % m;
    MultipleBounds(d, m);
  }

  lemma NextPeriod(q: nat, m: nat)
    requires q > 0
    ensures q * m == (q - 1) * m + m
  {
  }

  /** Over whole periods every remainder is equally frequent. */
  lemma {:induction false} UniformResidues(n: nat, q: nat, m: nat, r: nat)
    requires r < m && n == q * m
    ensures CountResidues(n, m, r) == q
    decreases q
  {
    if q > 0 {
      NextPeriod(q, m);
      WholePeriods(q - 1, m);
      UniformResidues(n - m, q - 1, m, r);
      CountWithin(n - m, m, r, m);
    }
  }

  lemma WholePeriods(q: nat, m: nat)
    requires m > 0
    ensures (q * m) % m == 0
  {
    var d := (q * m) / m - q;
    assert q * m == ((q * m) / m) * m + (q * m) % m;
    assert d * m == -((q * m) % m);
    MultipleBounds(d, m);
  }

  /** Each position of the alphabet comes from exactly 8 of the 256 bytes. */
  lemma {:induction false} UnbiasedSymbols(i: nat)
    requires i < SYMBOLS
    ensures CountResidues(256, SYMBOLS, i) == 8
  {
    UniformResidues(256, 8, SYMBOLS, i);
  }

  const CODES := 1_000_000
  const LIMIT := (0x1_0000_0000 / CODES) * CODES

  /** Each six-digit code comes from exactly 4294 of the words that are not rejected, and nearly all words are kept. */
  lemma {:induction false} UnbiasedSixDigits(code: nat)
    requires code < CODES
    ensures CountResidues(LIMIT, CODES, code) == 4294
    ensures 0 <= 0x1_0000_0000 - LIMIT < CODES
  {
    UniformResidues(LIMIT, 4294, CODES, code);
  }

  /** The value comes from the first word that is not rejected. */
  ghost predicate FromFirstKept(words: seq<nat>, value: nat) {
    exists i | 0 <= i < |words| :: words[i] < LIMIT && words[i] % CODES == value && forall j | 0 <= j < i :: words[j] >= LIMIT
  }

  /** sixDigitCode, over the 32-bit words that are drawn; None if all of them are rejected. */
  method SixDigitCode(words: seq<nat>) returns (code: Option<string>)
    ensures code.None? <==> forall i | 0 <= i < |words| :: words[i] >= LIMIT
    ensures code.Some? ==> |code.value| == 6 && AllDigits(code.value) && FromFirstKept(words, DecimalValue(code.value))
  {
    for i := 0 to |words|
      invariant forall j | 0 <= j < i :: words[j] >= LIMIT
    {
      var n := words[i];
      if n < LIMIT {
        assert PowerOf10(3) == 1000 && PowerOf10(6) == CODES;
        DecimalLength(n % CODES, 6);
        PadStartValue(Decimal(n % CODES), 6);
        DecimalRoundTrip(n % CODES);
        return Some(PadStart(Decimal(n % CODES), 6));
      }
    }
    return None;
  }
}
