/**
 * Base64 and its URL-safe form (RFC 4648, sections 4 and 5), as the worker
 * derives the second from the first, and as the Windows agent reads it back.
 */
module Base64Url {
  import opened BitStreams
  import opened Common
  import opened Text

  /** Letter of the standard alphabet. */
  function StdLetter(d: nat): char
    requires d < 64
  {
    if d < 26 then 'A' + d as char
    else if d < 52 then 'a' + (d - 26) as char
    else if d < 62 then '0' + (d - 52) as char
    else if d == 62 then '+' else '/'
  }

  function StdIndex(c: char): (idx: int)
    ensures -1 <= idx < 64
  {
    if 'A' <= c <= 'Z' then c as int - 'A' as int
    else if 'a' <= c <= 'z' then c as int - 'a' as int + 26
    else if '0' <= c <= '9' then c as int - '0' as int + 52
    else if c == '+' then 62 else if c == '/' then 63 else -1
  }

  function StdLetters(digits: seq<nat>): (s: string)
    requires AllBelow(digits, 64)
    ensures |s| == |digits|
    ensures forall i | 0 <= i < |s| :: s[i] == StdLetter(digits[i])
  {
    seq(|digits|, i requires 0 <= i < |digits| && AllBelow(digits, 64) => StdLetter(digits[i]))
  }

  predicate AllStd(s: string) {
    forall i | 0 <= i < |s| :: StdIndex(s[i]) >= 0
  }

  function StdDigits(s: string): (digits: seq<nat>)
    requires AllStd(s)
    ensures |digits| == |s|
    ensures forall i | 0 <= i < |s| :: digits[i] == StdIndex(s[i])
  {
    seq(|s|, i requires 0 <= i < |s| && AllStd(s) => StdIndex(s[i]))
  }

  /** The unpadded standard text of a byte string. */
  function StdText(bytes: seq<Byte>): (s: string)
    ensures AllStd(s)
    ensures 6 * |s| == 8 * |bytes| + Padding(8 * |bytes|, 6)
    ensures |s| % 4 != 1
  {
    var bits := Stream(bytes);
    UnstreamRegroup(bits, 6);
    UnstreamLength(Regroup(bits, 6), 6);
    Power2Of8();
    StdLetters(Regroup(bits, 6))
  }

  lemma StdDigitsOfLetters(digits: seq<nat>)
    requires AllBelow(digits, 64)
    ensures AllStd(StdLetters(digits)) && StdDigits(StdLetters(digits)) == digits
  {
  }

  /** Reading the unpadded text gives the bytes back. */
  lemma StdTextRoundTrip(bytes: seq<Byte>)
    ensures DecodeLetters(StdText(bytes)) == Some(bytes)
  {
    var bits := Stream(bytes);
    UnstreamRegroup(bits, 6);
    Power2Of8();
    StdDigitsOfLetters(Regroup(bits, 6));
    PackStream(bytes, Zeros(Padding(|bits|, 6)));
  }

  function Equals(n: nat): (s: string)
    ensures |s| == n
    ensures forall i | 0 <= i < n :: s[i] == '='
  {
    seq(n, _ => '=')
  }

  /** How many '=' complete a text of n letters. */
  function PadCount(n: nat): (p: nat)
    ensures p < 4 && (n + p) % 4 == 0
  {
    if n % 4 == 0 then 0 else 4 - n % 4
  }

  /** RFC 4648, section 4: the text is completed with '=' to a multiple of four. */
  function Btoa(bytes: seq<Byte>): (s: string)
    ensures |s| % 4 == 0
  {
    StdText(bytes) + Equals(PadCount(|StdText(bytes)|))
  }

  function ReplaceAll(s: string, from: char, to: char): (r: string)
    ensures |r| == |s|
    ensures forall i | 0 <= i < |s| :: r[i] == if s[i] == from then to else s[i]
  {
    seq(|s|, i requires 0 <= i < |s| => if s[i] == from then to else s[i])
  }

  function StripEquals(s: string): (r: string)
    ensures r <= s
  {
    if s != [] && s[|s| - 1] == '=' then StripEquals(s[..|s| - 1]) else s
  }

  function ToUrlLetters(s: string): string {
    ReplaceAll(ReplaceAll(s, '+', '-'), '/', '_')
  }

  function ToStdLetters(s: string): string {
    ReplaceAll(ReplaceAll(s, '-', '+'), '_', '/')
  }

  /** bytesToBase64Url */
  function ToBase64Url(bytes: seq<Byte>): string {
    StripEquals(ToUrlLetters(Btoa(bytes)))
  }

  /** What a URL-safe text can contain: in particular neither '=' nor '$'. */
  predicate IsUrlLetter(c: char) {
    'A' <= c <= 'Z' || 'a' <= c <= 'z' || '0' <= c <= '9' || c == '-' || c == '_'
  }

  lemma {:induction false} StripEqualsTail(s: string, n: nat)
    requires s == [] || s[|s| - 1] != '='
    ensures StripEquals(s + Equals(n)) == s
  {
    if n == 0 {
      assert s + Equals(0) == s;
    } else {
      var t := s + Equals(n);
      assert t[..|t| - 1] == s + Equals(n - 1);
      StripEqualsTail(s, n - 1);
    }
  }

  /** Stripping after the letter exchange leaves the exchanged unpadded text. */
  lemma UrlText(bytes: seq<Byte>)
    ensures ToBase64Url(bytes) == ToUrlLetters(StdText(bytes))
    ensures forall i | 0 <= i < |ToBase64Url(bytes)| :: IsUrlLetter(ToBase64Url(bytes)[i])
  {
    var t := StdText(bytes);
    var n := PadCount(|t|);
    assert ToUrlLetters(t + Equals(n)) == ToUrlLetters(t) + Equals(n);
    StripEqualsTail(ToUrlLetters(t), n);
  }

  /** The two letter exchanges are inverse on standard text. */
  lemma LettersBack(s: string)
    requires AllStd(s)
    ensures ToStdLetters(ToUrlLetters(s)) == s
  {
  }

  function RemoveSpaces(s: string): string {
    if s == [] then [] else (if IsSpace(s[0]) then [] else [s[0]]) + RemoveSpaces(s[1..])
  }

  lemma {:induction false} RemoveNoSpaces(s: string)
    requires forall i | 0 <= i < |s| :: !IsSpace(s[i])
    ensures RemoveSpaces(s) == s
  {
    if s != [] {
      RemoveNoSpaces(s[1..]);
    }
  }

  /** Decoding after white space and padding have been dealt with. */
  function DecodeLetters(s: string): Option<seq<Byte>> {
    if |s| % 4 != 1 && AllStd(s) then Some(Pack(Unstream(StdDigits(s), 6))) else None
  }

  /** Up to two '=' are removed from a text whose length is a multiple of four. */
  function AtobClean(t: string): Option<seq<Byte>> {
    if |t| % 4 == 0 && EndsWith(t, "==") then DecodeLetters(t[..|t| - 2])
    else if |t| % 4 == 0 && EndsWith(t, "=") then DecodeLetters(t[..|t| - 1])
    else DecodeLetters(t)
  }

  /** atob: the forgiving-base64 decoder; None is the exception. */
  function Atob(s: string): Option<seq<Byte>> {
    AtobClean(RemoveSpaces(s))
  }

  /** Convert.FromBase64String: as atob, but padding is compulsory. */
  function FromBase64String(s: string): Option<seq<Byte>> {
    if |RemoveSpaces(s)| % 4 == 0 then Atob(s) else None
  }

  const THREE_EQUALS := "==="

  /** base64UrlToBytes */
  function FromBase64Url(value: string): Option<seq<Byte>> {
    Atob(ToStdLetters(value) + THREE_EQUALS[(|value| + 3) % 4..])
  }

  /** The agent's PadBase64. */
  function PadBase64(value: string): (r: string)
    ensures |r| % 4 == 0
  {
    value + Equals((4 - |value| % 4) % 4)
  }

  lemma PadIndex(n: nat)
    requires n % 4 != 1
    ensures (n + 3) % 4 == 3 - PadCount(n) && (4 - n % 4) % 4 == PadCount(n)
  {
  }

  /** The worker's and the agent's padding arithmetic both complete to a multiple of four. */
  lemma PaddingArithmetic(s: string)
    requires |s| % 4 != 1
    ensures THREE_EQUALS[(|s| + 3) % 4..] == Equals(PadCount(|s|))
    ensures PadBase64(s) == s + Equals(PadCount(|s|))
  {
    PadIndex(|s|);
    var k := PadCount(|s|);
    assert THREE_EQUALS == Equals(3);
    assert Equals(3)[3 - k..] == Equals(k);
  }

  /** The letter exchange undone: what both readers start from. */
  lemma UrlTextBack(bytes: seq<Byte>)
    ensures ToStdLetters(ToBase64Url(bytes)) == StdText(bytes)
    ensures |ToBase64Url(bytes)| == |StdText(bytes)|
  {
    UrlText(bytes);
    LettersBack(StdText(bytes));
  }

  lemma {:induction false} NoSpaces(t: string, n: nat)
    requires AllStd(t)
    ensures RemoveSpaces(t + Equals(n)) == t + Equals(n)
  {
    var s := t + Equals(n);
    forall i | 0 <= i < |s| ensures !IsSpace(s[i]) {
      if i < |t| {
        assert StdIndex(t[i]) >= 0;
      }
    }
    RemoveNoSpaces(s);
  }

  lemma UnpadClean(t: string, n: nat)
    requires AllStd(t) && n <= 2 && (|t| + n) % 4 == 0
    ensures AtobClean(t + Equals(n)) == DecodeLetters(t)
  {
    var s := t + Equals(n);
    assert s[..|t|] == t;
    if n == 0 {
      if t != [] {
        assert StdIndex(t[|t| - 1]) >= 0;
        assert !EndsWith(s, "=") by {
          assert s[|s| - 1..][0] == t[|t| - 1];
        }
        assert !EndsWith(s, "==") by {
          assert s[|s| - 2..][1] == t[|t| - 1];
        }
      }
      assert s == t;
    } else if n == 1 {
      assert StdIndex(t[|t| - 1]) >= 0;
      assert s[|s| - 1..] == "=";
      assert s[|s| - 2..][0] == t[|t| - 1];
    } else {
      assert s[|s| - 2..] == "==";
    }
  }

  /** Padding is recognised and removed again. */
  lemma AtobPadded(t: string)
    requires AllStd(t) && |t| % 4 != 1
    ensures Atob(t + Equals(PadCount(|t|))) == DecodeLetters(t)
    ensures FromBase64String(t + Equals(PadCount(|t|))) == DecodeLetters(t)
  {
    NoSpaces(t, PadCount(|t|));
    UnpadClean(t, PadCount(|t|));
  }

  lemma AtobBtoa(bytes: seq<Byte>)
    ensures Atob(Btoa(bytes)) == Some(bytes)
    ensures FromBase64String(Btoa(bytes)) == Some(bytes)
  {
    AtobPadded(StdText(bytes));
    StdTextRoundTrip(bytes);
  }

  /** Decoding undoes encoding, for every byte string (worker to worker). */
  lemma UrlRoundTrip(bytes: seq<Byte>)
    ensures FromBase64Url(ToBase64Url(bytes)) == Some(bytes)
  {
    UrlTextBack(bytes);
    PaddingArithmetic(StdText(bytes));
    AtobBtoa(bytes);
  }

  /** The agent reads what the list compiler wrote with `toString("base64url")`. */
  lemma AgentReadsUrlText(bytes: seq<Byte>)
    ensures FromBase64String(PadBase64(ToStdLetters(ToBase64Url(bytes)))) == Some(bytes)
  {
    UrlTextBack(bytes);
    PaddingArithmetic(StdText(bytes));
    AtobBtoa(bytes);
  }

  // ---- The worker's loops ----------------------------------------------------

  /** A binary string: one character per byte. */
  function CharsOf(bytes: seq<Byte>): (s: string)
    ensures |s| == |bytes|
    ensures forall i | 0 <= i < |bytes| :: s[i] as int == bytes[i]
  {
    seq(|bytes|, i requires 0 <= i < |bytes| => bytes[i] as char)
  }

  predicate IsBinary(s: string) {
    forall i | 0 <= i < |s| :: s[i] as int < 256
  }

  function CodesOf(s: string): (bytes: seq<Byte>)
    requires IsBinary(s)
    ensures |bytes| == |s|
    ensures forall i | 0 <= i < |s| :: bytes[i] == s[i] as int
  {
    seq(|s|, i requires 0 <= i < |s| && IsBinary(s) => s[i] as int)
  }

  method BytesToBase64Url(bytes: seq<Byte>) returns (text: string)
    ensures text == ToBase64Url(bytes)
  {
    var binary := "";
    for i := 0 to |bytes|
      invariant binary == CharsOf(bytes[..i])
    {
      assert bytes[..i + 1] == bytes[..i] + [bytes[i]];
      binary := binary + [bytes[i] as char];
    }
    assert bytes[..|bytes|] == bytes;
    assert CodesOf(binary) == bytes;
    text := StripEquals(ReplaceAll(ReplaceAll(Btoa(CodesOf(binary)), '+', '-'), '/', '_'));
  }

  method Base64UrlToBytes(value: string) returns (result: Option<seq<Byte>>)
    ensures result == FromBase64Url(value)
  {
    var padded := ReplaceAll(ReplaceAll(value, '-', '+'), '_', '/') + THREE_EQUALS[(|value| + 3) % 4..];
    var decoded := Atob(padded);
    if decoded == None { return None; }
    var binary := CharsOf(decoded.value);
    var bytes: seq<Byte> := Zero(|binary|);
    for i := 0 to |binary|
      invariant |bytes| == |binary|
      invariant bytes[..i] == decoded.value[..i]
    {
      bytes := bytes[i := binary[i] as int];
      assert bytes[..i + 1] == bytes[..i] + [bytes[i]];
    }
    assert bytes == bytes[..|binary|] == decoded.value[..|binary|] == decoded.value;
    return Some(bytes);
  }

  function Zero(n: nat): (bytes: seq<Byte>)
    ensures |bytes| == n
  {
    seq(n, _ => 0)
  }
}
