/**
 * Byte strings as streams of bits, most significant bit first, and their
 * regrouping into k-bit digits (the description used by RFC 4648). Base32,
 * Base64 and the HOTP counter are stated on top of it.
 */
module BitStreams {
  type Byte = b: int | 0 <= b < 256
  type Bits = seq<bool>

  /** Octets as numbers. */
  function Values(octets: seq<bv8>): (r: seq<Byte>)
    ensures |r| == |octets|
  {
    seq(|octets|, i requires 0 <= i < |octets| => octets[i] as int)
  }

  function Bit(b: bool): nat {
    if b then 1 else 0
  }

  function Power2(k: nat): (p: nat)
    ensures p >= 1
  {
    if k == 0 then 1 else 2 * Power2(k - 1)
  }

  /** The number a bit string spells. */
  function Value(bits: Bits): nat {
    if bits == [] then 0 else 2 * Value(bits[..|bits| - 1]) + Bit(bits[|bits| - 1])
  }

  /** The k low bits of a number, most significant first. */
  function Digit(d: nat, k: nat): (bits: Bits)
    ensures |bits| == k
  {
    if k == 0 then [] else Digit(d / 2, k - 1) + [d % 2 == 1]
  }

  lemma {:induction false} ValueBound(bits: Bits)
    ensures Value(bits) < Power2(|bits|)
  {
    if bits != [] {
      ValueBound(bits[..|bits| - 1]);
    }
  }

  lemma {:induction false} DigitOfValue(bits: Bits)
    ensures Digit(Value(bits), |bits|) == bits
  {
    if bits != [] {
      DigitOfValue(bits[..|bits| - 1]);
    }
  }

  lemma HalfMod(x: nat, p: nat)
    requires p > 0
    ensures x % (2 * p) == 2 * ((x / 2) % p) + x % 2
  {
    var q := (x / 2) / p;
    var r := (x / 2) % p;
    assert x / 2 == q * p + r;
    assert x == q * (2 * p) + (2 * r + x % 2);
    ModUnique(x, q, 2 * r + x % 2, 2 * p);
  }

  lemma ModUnique(x: nat, q: nat, r: nat, p: nat)
    requires r < p && x == q * p + r
    ensures x % p == r && x / p == q
  {
    var d := x / p - q;
    assert x == (x / p) * p + x % p;
    assert d * p == r - x % p;
    MultipleBounds(d, p);
  }

  lemma MultipleBounds(d: int, p: int)
    requires p > 0
    ensures d > 0 ==> d * p >= p
    ensures d < 0 ==> d * p <= -p
  {
  }

  /** Reading k bits and spelling them out is reduction modulo 2^k. */
  lemma {:induction false} ValueOfDigit(d: nat, k: nat)
    ensures Value(Digit(d, k)) == d % Power2(k)
  {
    if k > 0 {
      ValueOfDigit(d / 2, k - 1);
      ValueOfLast(d, k);
      HalfMod(d, Power2(k - 1));
    }
  }

  lemma {:induction false} ValueOfLast(d: nat, k: nat)
    requires k > 0
    ensures Value(Digit(d, k)) == 2 * Value(Digit(d / 2, k - 1)) + d % 2
  {
    assert Digit(d, k)[..k - 1] == Digit(d / 2, k - 1);
  }

  /** Bits that fell off a w-bit register cannot be seen through a k-bit window. */
  lemma {:induction false} DigitOfWrapped(d: nat, k: nat, w: nat)
    requires k <= w
    ensures Digit(d % Power2(w), k) == Digit(d, k)
  {
    if k > 0 {
      HalfMod(d, Power2(w - 1));
      assert (d % Power2(w)) / 2 == (d / 2) % Power2(w - 1);
      assert (d % Power2(w)) % 2 == d % 2;
      DigitOfWrapped(d / 2, k - 1, w - 1);
    }
  }

  /** The bit stream of a byte string. */
  function Stream(bytes: seq<Byte>): (bits: Bits)
    ensures |bits| == 8 * |bytes|
  {
    if bytes == [] then [] else Digit(bytes[0], 8) + Stream(bytes[1..])
  }

  function Zeros(n: nat): (bits: Bits)
    ensures |bits| == n
    ensures forall b | b in bits :: !b
  {
    seq(n, _ => false)
  }

  /** k-bit digits of a stream; the last one is completed with zero bits. */
  function Regroup(bits: Bits, k: nat): (digits: seq<nat>)
    requires k > 0
    decreases |bits|
  {
    if bits == [] then []
    else if |bits| < k then [Value(bits + Zeros(k - |bits|))]
    else [Value(bits[..k])] + Regroup(bits[k..], k)
  }

  function Unstream(digits: seq<nat>, k: nat): Bits {
    if digits == [] then [] else Digit(digits[0], k) + Unstream(digits[1..], k)
  }

  lemma {:induction false} UnstreamLength(digits: seq<nat>, k: nat)
    ensures |Unstream(digits, k)| == k * |digits|
  {
    if digits != [] {
      UnstreamLength(digits[1..], k);
      assert k * |digits| == k * (|digits| - 1) + k;
    }
  }

  lemma Power2Of8()
    ensures Power2(8) == 256 && Power2(5) == 32 && Power2(6) == 64
  {
    assert Power2(2) == 4;
    assert Power2(4) == 16;
    assert Power2(6) == 64;
  }

  function ToByte(bits: Bits): Byte
    requires |bits| == 8
  {
    ValueBound(bits);
    Power2Of8();
    Value(bits)
  }

  /** Whole bytes of a stream; up to seven left-over bits are dropped. */
  function Pack(bits: Bits): (bytes: seq<Byte>)
    ensures |bytes| == |bits| / 8
    decreases |bits|
  {
    if |bits| < 8 then [] else [ToByte(bits[..8])] + Pack(bits[8..])
  }

  lemma {:induction false} ByteOfDigit(b: Byte)
    ensures ToByte(Digit(b, 8)) == b
  {
    ValueOfDigit(b, 8);
    Power2Of8();
  }

  lemma {:induction false} PackStream(bytes: seq<Byte>, tail: Bits)
    requires |tail| < 8
    ensures Pack(Stream(bytes) + tail) == bytes
  {
    if bytes == [] {
      assert Stream(bytes) + tail == tail;
    } else {
      var all := Stream(bytes) + tail;
      assert all[..8] == Digit(bytes[0], 8);
      assert all[8..] == Stream(bytes[1..]) + tail;
      ByteOfDigit(bytes[0]);
      PackStream(bytes[1..], tail);
    }
  }

  /** Number of zero bits that complete the last digit: n + Padding(n, k) is a multiple of k. */
  function Padding(n: nat, k: nat): (p: nat)
    requires k > 0
    ensures p < k
  {
    if n == 0 then 0 else if n < k then k - n else Padding(n - k, k)
  }

  predicate AllBelow(digits: seq<nat>, bound: nat) {
    forall i | 0 <= i < |digits| :: digits[i] < bound
  }

  lemma {:induction false} UnstreamCons(d: nat, rest: seq<nat>, k: nat)
    ensures Unstream([d] + rest, k) == Digit(d, k) + Unstream(rest, k)
  {
    assert ([d] + rest)[1..] == rest;
  }

  /** A chunk of exactly k bits survives the trip through its digit. */
  lemma {:induction false} ChunkDigit(chunk: Bits, rest: seq<nat>, k: nat)
    requires |chunk| == k
    ensures Value(chunk) < Power2(k)
    ensures Unstream([Value(chunk)] + rest, k) == chunk + Unstream(rest, k)
  {
    DigitOfValue(chunk);
    ValueBound(chunk);
    UnstreamCons(Value(chunk), rest, k);
  }

  lemma {:induction false} RegroupShort(bits: Bits, k: nat)
    requires 0 < |bits| < k
    ensures Unstream(Regroup(bits, k), k) == bits + Zeros(k - |bits|)
    ensures AllBelow(Regroup(bits, k), Power2(k))
  {
    var whole := bits + Zeros(k - |bits|);
    ChunkDigit(whole, [], k);
    assert Regroup(bits, k) == [Value(whole)] + [];
    assert whole + Unstream([], k) == whole;
  }

  lemma {:induction false} RegroupStep(bits: Bits, k: nat)
    requires 0 < k <= |bits|
    ensures Unstream(Regroup(bits, k), k) == bits[..k] + Unstream(Regroup(bits[k..], k), k)
    ensures Regroup(bits, k)[0] < Power2(k) && Regroup(bits, k)[1..] == Regroup(bits[k..], k)
  {
    ChunkDigit(bits[..k], Regroup(bits[k..], k), k);
  }

  lemma {:induction false} RegroupBelow(bits: Bits, k: nat)
    requires k > 0
    ensures AllBelow(Regroup(bits, k), Power2(k))
    decreases |bits|
  {
    if bits == [] {
    } else if |bits| < k {
      RegroupShort(bits, k);
    } else {
      RegroupStep(bits, k);
      RegroupBelow(bits[k..], k);
      forall i | 0 <= i < |Regroup(bits, k)| ensures Regroup(bits, k)[i] < Power2(k) {
        assert i > 0 ==> Regroup(bits, k)[i] == Regroup(bits, k)[1..][i - 1];
      }
    }
  }

  lemma Rejoined(bits: Bits, k: nat, tail: Bits)
    requires k <= |bits|
    ensures bits[..k] + (bits[k..] + tail) == bits + tail
  {
  }

  lemma {:induction false} RegroupStream(bits: Bits, k: nat)
    requires k > 0
    ensures Unstream(Regroup(bits, k), k) == bits + Zeros(Padding(|bits|, k))
    decreases |bits|
  {
    if bits == [] {
    } else if |bits| < k {
      RegroupShort(bits, k);
    } else {
      RegroupStream(bits[k..], k);
      RegroupStep(bits, k);
      Rejoined(bits, k, Zeros(Padding(|bits|, k)));
    }
  }

  /** Regrouping loses nothing and adds fewer than k zero bits. */
  lemma {:induction false} UnstreamRegroup(bits: Bits, k: nat)
    requires k > 0
    ensures Unstream(Regroup(bits, k), k) == bits + Zeros(Padding(|bits|, k))
    ensures AllBelow(Regroup(bits, k), Power2(k))
  {
    RegroupStream(bits, k);
    RegroupBelow(bits, k);
  }
}
