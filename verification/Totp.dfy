/**
 * HOTP truncation (RFC 4226, section 5.3) and TOTP (RFC 6238, sections 4.2 and
 * 5.2) as the worker computes them. HMAC-SHA-1 is an arbitrary function to
 * 20-byte strings.
 */
module Totp {
  import opened BitStreams
  import opened Text
  import opened Decimals
  import Base32

  type Mac = m: seq<bv8> | |m| == 20 witness seq(20, _ => 0)
  type Hmac = (seq<Byte>, seq<Byte>) -> Mac

  const STEP_MS := 30_000

  // ---- The counter -----------------------------------------------------------

  /** Big-endian value of a byte string. */
  function BigEndian(bytes: seq<Byte>): nat {
    if bytes == [] then 0 else 256 * BigEndian(bytes[..|bytes| - 1]) + bytes[|bytes| - 1]
  }

  function Power256(k: nat): (p: nat)
    ensures p >= 1
  {
    if k == 0 then 1 else 256 * Power256(k - 1)
  }

  /** The n low bytes of a counter, most significant first (two's complement below zero). */
  function CounterTail(counter: int, n: nat): (bytes: seq<Byte>)
    ensures |bytes| == n
    decreases n
  {
    if n == 0 then [] else CounterTail(counter / 256, n - 1) + [counter % 256]
  }

  /**
   * counterToBytes: the buffer is filled from its last byte backwards. Dafny's
   * `/` and `%` by 256 are the source's `Math.floor(c / 256)` and `c & 0xff`,
   * for negative counters too.
   */
  method CounterToBytes(counter: int) returns (buf: array<Byte>)
    ensures fresh(buf) && buf[..] == CounterTail(counter, 8)
  {
    buf := new Byte[8](_ => 0);
    var c := counter;
    var i := 7;
    while i >= 0
      invariant -1 <= i <= 7
      invariant CounterTail(counter, 8) == CounterTail(c, i + 1) + buf[i + 1..]
    {
      ghost var before := buf[i + 1..];
      buf[i] := c % 256;
      assert buf[i..] == [c % 256] + before;
      c := c / 256;
      i := i - 1;
    }
    assert CounterTail(c, 0) + buf[0..] == buf[..];
  }

  lemma FloorMod(c: int, p: nat)
    requires p > 0
    ensures c % (256 * p) == 256 * ((c / 256) % p) + c % 256
  {
    var q := (c / 256) / p;
    var r := (c / 256) % p;
    assert c / 256 == q * p + r;
    assert c == q * (256 * p) + (256 * r + c % 256);
    RemainderUnique(c, q, 256 * r + c % 256, 256 * p);
  }

  lemma RemainderUnique(x: int, q: int, r: int, p: int)
    requires 0 <= r < p && x == q * p + r
    ensures x % p == r
  {
    var d := x / p - q;
    assert x == (x / p) * p + x % p;
    assert d * p == r - x % p;
    MultipleBounds(d, p);
  }

  /** Eight bytes carry the counter modulo 2^64; every counter in that range exactly. */
  lemma {:induction false} CounterValue(counter: int, n: nat)
    ensures BigEndian(CounterTail(counter, n)) == counter % Power256(n)
    decreases n
  {
    if n > 0 {
      CounterValue(counter / 256, n - 1);
      assert CounterTail(counter, n)[..n - 1] == CounterTail(counter / 256, n - 1);
      FloorMod(counter, Power256(n - 1));
    }
  }

  lemma {:induction false} CounterExact(counter: nat)
    requires counter < 0x1_0000_0000_0000_0000
    ensures BigEndian(CounterTail(counter, 8)) == counter
  {
    CounterValue(counter, 8);
    assert Power256(4) == 0x1_0000_0000;
    assert Power256(6) == 0x1_0000_0000_0000;
    assert Power256(8) == 0x1_0000_0000_0000_0000;
  }

  // ---- Truncation ------------------------------------------------------------

  /** The low four bits of the last octet. */
  function Offset(mac: Mac): (o: nat)
    ensures o < 16
  {
    mac[19] as int % 16
  }

  /** RFC 4226, section 5.3, steps 2 and 3: Snum mod 10^6. */
  function HotpValue(mac: Mac): (v: nat)
    ensures v < 1_000_000
  {
    BigEndian(Values(mac[Offset(mac)..Offset(mac) + 4])) % 0x8000_0000 % 1_000_000
  }

  /** mac[19] & 0x0f */
  function MaskedOffset(b: bv8): (o: nat)
    ensures o == b as int % 16
  {
    LowNibble(b);
    (b & 0x0f) as int
  }

  lemma LowNibble(b: bv8)
    ensures (b & 0x0f) as int == b as int % 16
  {
  }

  /** The worker's masks, shifts and ors. The top bit is clear, so the 32-bit result is not negative. */
  function TruncatedBits(a: bv8, b: bv8, c: bv8, d: bv8): bv32 {
    (((a as bv32) & 0x7f) << 24) | (((b as bv32) & 0xff) << 16) | (((c as bv32) & 0xff) << 8) | ((d as bv32) & 0xff)
  }

  lemma FullMasks(a: bv8, b: bv8, c: bv8, d: bv8)
    ensures TruncatedBits(a, b, c, d) == ((((a as bv32) & 0x7f) << 24) | ((b as bv32) << 16) | ((c as bv32) << 8) | (d as bv32))
  {
  }

  lemma PlacesAdd(a: bv8, b: bv8, c: bv8, d: bv8)
    ensures ((((a as bv32) & 0x7f) << 24) | ((b as bv32) << 16) | ((c as bv32) << 8) | (d as bv32)) as int
         == (a as int % 128) * 0x100_0000 + b as int * 0x1_0000 + c as int * 0x100 + d as int
  {
  }

  /** Disjoint places: the or is a sum. */
  lemma BitsAreArithmetic(a: bv8, b: bv8, c: bv8, d: bv8)
    ensures TruncatedBits(a, b, c, d) as int
         == (a as int % 128) * 0x100_0000 + b as int * 0x1_0000 + c as int * 0x100 + d as int
  {
    FullMasks(a, b, c, d);
    PlacesAdd(a, b, c, d);
  }

  /** The worker's expression. */
  function TruncatedCode(mac: Mac): nat {
    var offset := MaskedOffset(mac[19]);
    TruncatedBits(mac[offset], mac[offset + 1], mac[offset + 2], mac[offset + 3]) as int % 1_000_000
  }

  lemma {:induction false} BigEndian4(b: seq<Byte>)
    requires |b| == 4
    ensures BigEndian(b) == b[0] as int * 0x100_0000 + b[1] as int * 0x1_0000 + b[2] as int * 0x100 + b[3] as int
  {
    assert b[..3][..2] == b[..2] && b[..2][..1] == b[..1] && b[..1][..0] == [];
    assert BigEndian(b[..1]) == b[0];
    assert BigEndian(b[..2]) == 256 * b[0] as int + b[1] as int;
    assert BigEndian(b[..3]) == 256 * (256 * b[0] as int + b[1] as int) + b[2] as int;
  }

  lemma DropTopBit(b: Byte, rest: nat)
    requires rest < 0x100_0000
    ensures (b as int * 0x100_0000 + rest) % 0x8000_0000 == (b as int % 128) * 0x100_0000 + rest
  {
  }

  /** The four bytes lie inside the MAC and give the 31-bit number of the standard. */
  lemma TruncationIsHotp(mac: Mac)
    ensures TruncatedCode(mac) == HotpValue(mac)
  {
    var o := Offset(mac);
    BitsAreArithmetic(mac[o], mac[o + 1], mac[o + 2], mac[o + 3]);
    FourOctets(mac[o..o + 4]);
  }

  lemma FourOctets(b: seq<bv8>)
    requires |b| == 4
    ensures BigEndian(Values(b)) % 0x8000_0000
         == (b[0] as int % 128) * 0x100_0000 + b[1] as int * 0x1_0000 + b[2] as int * 0x100 + b[3] as int
  {
    BigEndian4(Values(b));
    DropTopBit(b[0] as int, b[1] as int * 0x1_0000 + b[2] as int * 0x100 + b[3] as int);
  }

  // ---- Codes -----------------------------------------------------------------

  function TimeStep(timestampMs: int): int {
    timestampMs / STEP_MS
  }

  function HotpCode(secret: string, step: int, hmac: Hmac): string {
    PadStart(Decimal(TruncatedCode(hmac(Base32.Decode(secret), CounterTail(step, 8)))), 6)
  }

  function ComputeTotp(secret: string, timestampMs: int, hmac: Hmac): string {
    HotpCode(secret, TimeStep(timestampMs), hmac)
  }

  /** Exactly six digits that spell the HOTP value of the step. */
  lemma {:induction false} SixDigits(secret: string, step: int, hmac: Hmac)
    ensures var code := HotpCode(secret, step, hmac);
            |code| == 6 && AllDigits(code)
            && DecimalValue(code) == HotpValue(hmac(Base32.Decode(secret), CounterTail(step, 8)))
  {
    var mac := hmac(Base32.Decode(secret), CounterTail(step, 8));
    TruncationIsHotp(mac);
    assert PowerOf10(3) == 1000;
    assert PowerOf10(6) == 1_000_000;
    DecimalLength(TruncatedCode(mac), 6);
    PadStartValue(Decimal(TruncatedCode(mac)), 6);
    DecimalRoundTrip(TruncatedCode(mac));
  }

  function RemoveSpaces(s: string): string {
    if s == [] then [] else (if IsSpace(s[0]) then [] else [s[0]]) + RemoveSpaces(s[1..])
  }

  function Clean(code: string): string {
    RemoveSpaces(Trim(code))
  }

  predicate IsSixDigits(s: string) {
    |s| == 6 && AllDigits(s)
  }

  /** The six digits are the HOTP value of the step. */
  predicate MatchesStep(clean: string, secret: string, step: int, hmac: Hmac)
    requires IsSixDigits(clean)
  {
    DecimalValue(clean) == HotpValue(hmac(Base32.Decode(secret), CounterTail(step, 8)))
  }

  /** RFC 6238, section 5.2: at most one step of drift either way. */
  predicate Accepts(secret: string, code: string, step: int, hmac: Hmac) {
    var clean := Clean(code);
    IsSixDigits(clean)
    && (MatchesStep(clean, secret, step - 1, hmac)
        || MatchesStep(clean, secret, step, hmac)
        || MatchesStep(clean, secret, step + 1, hmac))
  }

  /** The same, by comparing texts: what the worker's loop over the three windows finds. */
  predicate AcceptsText(secret: string, clean: string, step: int, hmac: Hmac) {
    IsSixDigits(clean)
    && (HotpCode(secret, step - 1, hmac) == clean
        || HotpCode(secret, step, hmac) == clean
        || HotpCode(secret, step + 1, hmac) == clean)
  }

  lemma TextIsValue(secret: string, code: string, step: int, hmac: Hmac)
    ensures AcceptsText(secret, Clean(code), step, hmac) <==> Accepts(secret, code, step, hmac)
  {
    var clean := Clean(code);
    if IsSixDigits(clean) {
      CodeIsValue(clean, secret, step - 1, hmac);
      CodeIsValue(clean, secret, step, hmac);
      CodeIsValue(clean, secret, step + 1, hmac);
    }
  }

  /** The loop over the three windows, for any way of computing a code. */
  method FindWindow(clean: string, timestampMs: int, totp: int -> string) returns (ok: bool)
    ensures ok <==> totp(timestampMs - STEP_MS) == clean || totp(timestampMs) == clean || totp(timestampMs + STEP_MS) == clean
  {
    for w := -1 to 2
      invariant w > -1 ==> totp(timestampMs - STEP_MS) != clean
      invariant w > 0 ==> totp(timestampMs) != clean
      invariant w > 1 ==> totp(timestampMs + STEP_MS) != clean
    {
      var expected := totp(timestampMs + w * STEP_MS);
      if expected == clean { return true; }
    }
    return false;
  }

  /** The worker's check. */
  method VerifyTotp(secret: string, code: string, timestampMs: int, hmac: Hmac) returns (ok: bool)
    ensures ok <==> Accepts(secret, code, timestampMs / 30_000, hmac)
  {
    var clean := Clean(code);
    TextIsValue(secret, code, TimeStep(timestampMs), hmac);
    if !IsSixDigits(clean) { return false; }
    var totp := t => ComputeTotp(secret, t, hmac);
    ok := FindWindow(clean, timestampMs, totp);
    WindowsAreSteps(secret, clean, timestampMs, hmac);
  }

  lemma WindowsAreSteps(secret: string, clean: string, timestampMs: int, hmac: Hmac)
    requires IsSixDigits(clean)
    ensures AcceptsText(secret, clean, TimeStep(timestampMs), hmac)
       <==> ComputeTotp(secret, timestampMs - STEP_MS, hmac) == clean
            || ComputeTotp(secret, timestampMs, hmac) == clean
            || ComputeTotp(secret, timestampMs + STEP_MS, hmac) == clean
  {
    StepOffset(timestampMs, -1);
    StepOffset(timestampMs, 1);
  }

  /** Moving the clock by whole periods moves the step by as many. */
  lemma StepOffset(timestampMs: int, w: int)
    ensures TimeStep(timestampMs + w * STEP_MS) == TimeStep(timestampMs) + w
  {
  }

  lemma CodeIsValue(clean: string, secret: string, step: int, hmac: Hmac)
    requires IsSixDigits(clean)
    ensures HotpCode(secret, step, hmac) == clean
       <==> MatchesStep(clean, secret, step, hmac)
  {
    SixDigits(secret, step, hmac);
    if DecimalValue(clean) == DecimalValue(HotpCode(secret, step, hmac)) {
      DecimalInjective(clean, HotpCode(secret, step, hmac));
    }
  }

  /** The key that is used is the one that was generated, however the parent's app spelled it back. */
  lemma {:induction false} SecretRoundTrip(key: seq<Byte>, step: int, hmac: Hmac)
    ensures HotpCode(Base32.Encode(key), step, hmac)
         == PadStart(Decimal(TruncatedCode(hmac(key, CounterTail(step, 8)))), 6)
  {
    Base32.RoundTrip(key);
  }

  /** A code is accepted at every moment at most one period after or before it was shown. */
  lemma DriftTolerance(secret: string, shownAt: int, checkedAt: int, hmac: Hmac)
    requires -STEP_MS <= checkedAt - shownAt <= STEP_MS
    ensures Accepts(secret, ComputeTotp(secret, shownAt, hmac), TimeStep(checkedAt), hmac)
  {
    var code := ComputeTotp(secret, shownAt, hmac);
    SixDigits(secret, TimeStep(shownAt), hmac);
    CleanDigits(code);
    StepsClose(shownAt, checkedAt);
    AcceptsNearby(secret, code, TimeStep(shownAt), TimeStep(checkedAt), hmac);
    TextIsValue(secret, code, TimeStep(checkedAt), hmac);
  }

  lemma AcceptsNearby(secret: string, code: string, step: int, at: int, hmac: Hmac)
    requires IsSixDigits(code) && code == HotpCode(secret, step, hmac) && -1 <= step - at <= 1
    ensures AcceptsText(secret, code, at, hmac)
  {
    var codeAt := s => HotpCode(secret, s, hmac);
    OneOfThree(codeAt, step, at);
  }

  lemma OneOfThree(codeAt: int -> string, step: int, at: int)
    requires -1 <= step - at <= 1
    ensures codeAt(step) == codeAt(at - 1) || codeAt(step) == codeAt(at) || codeAt(step) == codeAt(at + 1)
  {
    if step == at - 1 {} else if step == at {} else {}
  }

  lemma StepsClose(a: int, b: int)
    requires -STEP_MS <= b - a <= STEP_MS
    ensures -1 <= TimeStep(a) - TimeStep(b) <= 1
  {
  }

  lemma {:induction false} RemoveNone(s: string)
    requires AllDigits(s)
    ensures RemoveSpaces(s) == s
  {
    if s != [] {
      RemoveNone(s[1..]);
    }
  }

  lemma {:induction false} RemoveInside(a: string, b: string)
    requires AllDigits(a) && AllDigits(b)
    ensures RemoveSpaces(a + " " + b) == a + b
  {
    var s := a + " " + b;
    if a == [] {
      assert s[1..] == b;
      RemoveNone(b);
    } else {
      assert s[1..] == a[1..] + " " + b;
      RemoveInside(a[1..], b);
    }
  }

  /** A space that the user types between the digits does not matter. */
  lemma {:induction false} SpacedCode(a: string, b: string, secret: string, step: int, hmac: Hmac)
    requires AllDigits(a) && AllDigits(b) && a != [] && b != []
    ensures Accepts(secret, a + " " + b, step, hmac) <==> Accepts(secret, a + b, step, hmac)
  {
    var s := a + " " + b;
    assert !IsSpace(s[0]) && !IsSpace(s[|s| - 1]);
    assert TrimStart(s) == s && Trim(s) == s;
    RemoveInside(a, b);
    CleanDigits(a + b);
  }

  lemma CleanDigits(s: string)
    requires AllDigits(s)
    ensures Clean(s) == s
  {
    RemoveNone(s);
  }
}
