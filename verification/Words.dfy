/**
 * The 32-bit words of the worker's accumulators: what `<<`, `>>>`, `|` and `&` do to the
 * bits that are still pending. Words are taken apart into two or three pieces; each fact
 * is proved on the pieces, and for a word by cutting it up.
 */
module Words {
  import opened BitStreams

  type Word = bv32

  /** A shift takes the low five bits of its count. */
  type Count = bv5

  /** The n low bits of a word, most significant first. */
  function Window(w: Word, n: nat): (bits: Bits)
    ensures |bits| == n
  {
    if n == 0 then [] else Window(w >> 1, n - 1) + [w & 1 == 1]
  }

  // ---- Pieces ----------------------------------------------------------------

  lemma EvenOdd(high: bv31, low: bv1)
    ensures (((high as bv32) << 1) | (low as bv32)) as int == 2 * high as int + low as int
    ensures ((((high as bv32) << 1) | (low as bv32)) >> 1) as int == high as int
  {
  }

  lemma HalvedPieces(w: Word, high: bv31, low: bv1)
    requires w == ((high as bv32) << 1) | (low as bv32)
    ensures (w >> 1) as int == w as int / 2
  {
    EvenOdd(high, low);
  }

  lemma Halved(w: Word)
    ensures (w >> 1) as int == w as int / 2
  {
    HalvedPieces(w, (w >> 1) as bv31, (w & 1) as bv1);
  }

  lemma LastBit(high: bv31, low: bv1)
    ensures (((high as bv32) << 1) | (low as bv32)) & 1 == 1 <==> low == 1
  {
  }

  lemma OneBit(low: bv1)
    ensures low == 1 <==> low as int == 1
  {
  }

  lemma OddEven(w: nat, high: nat, low: nat)
    requires w == 2 * high + low && low < 2
    ensures w % 2 == 1 <==> low == 1
  {
  }

  lemma LastBitOdd(high: bv31, low: bv1)
    ensures (((high as bv32) << 1) | (low as bv32)) & 1 == 1 <==> (((high as bv32) << 1) | (low as bv32)) as int % 2 == 1
  {
    EvenOdd(high, low);
    LastBit(high, low);
    OneBit(low);
    OddEven((((high as bv32) << 1) | (low as bv32)) as int, high as int, low as int);
  }

  lemma OddPieces(w: Word, high: bv31, low: bv1)
    requires w == ((high as bv32) << 1) | (low as bv32)
    ensures w & 1 == 1 <==> w as int % 2 == 1
  {
    LastBitOdd(high, low);
  }

  lemma Odd(w: Word)
    ensures w & 1 == 1 <==> w as int % 2 == 1
  {
    OddPieces(w, (w >> 1) as bv31, (w & 1) as bv1);
  }

  lemma FiveLow(high: bv27, low: bv5)
    ensures (((high as bv32) << 5) | (low as bv32)) as int == 32 * high as int + low as int
    ensures ((((high as bv32) << 5) | (low as bv32)) & 31) as int == low as int
  {
  }

  lemma FivePieces(w: Word, high: bv27, low: bv5)
    requires w == ((high as bv32) << 5) | (low as bv32)
    ensures (w & 31) as int == w as int % 32
  {
    FiveLow(high, low);
  }

  lemma Mask31(w: Word)
    ensures (w & 31) as int == w as int % 32
  {
    FivePieces(w, (w >> 5) as bv27, (w & 31) as bv5);
  }

  lemma EightLow(high: bv24, low: bv8)
    ensures (((high as bv32) << 8) | (low as bv32)) as int == 256 * high as int + low as int
    ensures ((((high as bv32) << 8) | (low as bv32)) & 255) as int == low as int
  {
  }

  lemma EightPieces(w: Word, high: bv24, low: bv8)
    requires w == ((high as bv32) << 8) | (low as bv32)
    ensures (w & 255) as int == w as int % 256
  {
    EightLow(high, low);
  }

  lemma Mask255(w: Word)
    ensures (w & 255) as int == w as int % 256
  {
    EightPieces(w, (w >> 8) as bv24, (w & 255) as bv8);
  }

  // ---- Windows ---------------------------------------------------------------

  lemma {:induction false} WindowIsDigit(w: Word, n: nat)
    ensures Window(w, n) == Digit(w as int, n)
  {
    if n > 0 {
      WindowIsDigit(w >> 1, n - 1);
      Halved(w);
      Odd(w);
    }
  }

  lemma RightFirst(w: Word, s: Count)
    requires 0 < s <= 13
    ensures w >> s == (w >> 1) >> (s - 1)
  {
  }

  lemma CountDown(s: Count)
    requires s > 0
    ensures (s - 1) as int == s as int - 1
  {
  }

  /** `>>> s` moves the window up by s bits. */
  lemma {:induction false} WindowRight(w: Word, a: nat, s: Count)
    requires s <= 8
    ensures Window(w, a + s as int) == Window(w >> s, a) + Window(w, s as int)
    decreases s
  {
    if s > 0 {
      RightFirst(w, s);
      CountDown(s);
      WindowRight(w >> 1, a, s - 1);
    }
  }

  lemma CountUnder(i: Count, n: nat)
    requires i as int < n
    ensures i > 0 ==> (i - 1) as int < n - 1 && n - 1 - i as int == n - 2 - (i - 1) as int
  {
    if i > 0 { CountDown(i); }
  }

  /** A window bit by bit, from its low end. */
  lemma {:induction false} WindowAt(w: Word, n: nat, i: Count)
    requires i as int < n && i <= 13
    ensures Window(w, n)[n - 1 - i as int] <==> (w >> i) & 1 == 1
    decreases n
  {
    CountUnder(i, n);
    if i > 0 {
      RightFirst(w, i);
      WindowAt(w >> 1, n - 1, i - 1);
    }
  }

  lemma {:induction false} SameRemainder(x: nat, y: nat, n: nat, m: nat)
    requires x % Power2(m) == y % Power2(m) && n <= m
    ensures Digit(x, n) == Digit(y, n)
  {
    DigitOfWrapped(x, n, m);
    DigitOfWrapped(y, n, m);
  }

  lemma EightBitsOf(w: Word, low: Word)
    requires low == w & 255
    ensures low as int == w as int % 256
  {
    Mask255(w);
  }

  lemma FiveBitsOf(w: Word, low: Word)
    requires low == w & 31
    ensures low as int == w as int % 32
  {
    Mask31(w);
  }

  lemma {:induction false} SameInWindow(x: Word, y: Word, n: nat, m: nat)
    requires x as int % Power2(m) == y as int % Power2(m) && n <= m
    ensures Window(x, n) == Window(y, n)
  {
    WindowIsDigit(x, n);
    WindowIsDigit(y, n);
    SameRemainder(x as int, y as int, n, m);
  }

  /** Words with the same low eight bits look the same through a window of at most eight. */
  lemma {:induction false} SameEight(x: Word, y: Word, low: Word, n: nat)
    requires low == x & 255 && low == y & 255 && n <= 8
    ensures Window(x, n) == Window(y, n)
  {
    EightBitsOf(x, low);
    EightBitsOf(y, low);
    Power2Of8();
    SameInWindow(x, y, n, 8);
  }

  lemma {:induction false} SameFive(x: Word, y: Word, low: Word, n: nat)
    requires low == x & 31 && low == y & 31 && n <= 5
    ensures Window(x, n) == Window(y, n)
  {
    FiveBitsOf(x, low);
    FiveBitsOf(y, low);
    Power2Of8();
    SameInWindow(x, y, n, 5);
  }

  lemma LeftZero(w: Word, k: Count, i: Count)
    requires i < k <= 8
    ensures ((w << k) >> i) & 1 == 0
  {
  }

  lemma CountOf(k: nat)
    requires k < 32
    ensures (k as Count) as int == k
  {
  }

  lemma CountBelow(i: Count, k: Count)
    requires i as int < k as int
    ensures i < k
  {
  }

  lemma LeftZeroAt(w: Word, moved: Word, k: Count, j: nat)
    requires moved == w << k && j < k as int && k <= 8
    ensures !Window(moved, k as int)[j]
  {
    var i := (k as int - 1 - j) as Count;
    CountOf(k as int - 1 - j);
    CountBelow(i, k);
    WindowAt(moved, k as int, i);
    LeftZero(w, k, i);
  }

  /** The k bits that `<< k` brings in are zero. */
  lemma LeftZeros(w: Word, moved: Word, k: Count)
    requires moved == w << k && k <= 8
    ensures Window(moved, k as int) == Zeros(k as int)
  {
    var bits, n := Window(moved, k as int), k as int;
    forall j | 0 <= j < n ensures bits[j] == Zeros(n)[j] {
      LeftZeroAt(w, moved, k, j);
    }
  }

  /** What stands above the k low bits is what `>>>` brings down. */
  lemma WindowAbove(v: Word, whole: Word, high: Word, low: Word, n: nat, k: Count)
    requires high == whole >> k && low == high & 255 && low == v & 255 && n <= 8 && k <= 8
    ensures Window(whole, n + k as int) == Window(v, n) + Window(whole, k as int)
  {
    WindowRight(whole, n, k);
    SameEight(high, v, low, n);
  }

  lemma LeftThenRight(v: Word, moved: Word, k: Count) returns (high: Word, low: Word)
    requires moved == v << k && k <= 8
    ensures high == moved >> k && low == high & 255 && low == v & 255
  {
    high, low := moved >> k, v & 255;
  }

  lemma LeftAbove(v: Word, moved: Word, n: nat, k: Count)
    requires moved == v << k && n <= 8 && k <= 8
    ensures Window(moved, n + k as int) == Window(v, n) + Window(moved, k as int)
  {
    var high, low := LeftThenRight(v, moved, k);
    WindowAbove(v, moved, high, low, n, k);
  }

  /** `<< k` appends k zero bits, and what passes bit 31 is out of the window. */
  lemma WindowLeft(v: Word, moved: Word, n: nat, k: Count)
    requires moved == v << k && n <= 8 && k <= 8
    ensures Window(moved, n + k as int) == Window(v, n) + Zeros(k as int)
  {
    LeftAbove(v, moved, n, k);
    LeftZeros(v, moved, k);
  }

  lemma BehindByte(v: Word, b: bv8, whole: Word) returns (high: Word, low: Word)
    requires whole == (v << 8) | (b as bv32)
    ensures high == whole >> 8 && low == high & 255 && low == v & 255
  {
    high, low := whole >> 8, v & 255;
  }

  lemma ByteAbove(v: Word, b: bv8, whole: Word, n: nat)
    requires whole == (v << 8) | (b as bv32) && n <= 8
    ensures Window(whole, n + 8) == Window(v, n) + Window(whole, 8)
  {
    var high, low := BehindByte(v, b, whole);
    WindowAbove(v, whole, high, low, n, 8);
  }

  lemma {:induction false} ByteBelow(v: Word, b: bv8, whole: Word, wide: Word)
    requires whole == (v << 8) | (b as bv32) && wide == b as bv32
    ensures Window(whole, 8) == Window(wide, 8)
  {
    SameEight(whole, wide, wide & 255, 8);
  }

  /** A byte shifted in: the n + 8 low bits are right although the word may overflow. */
  lemma WindowByteIn(v: Word, b: bv8, whole: Word, n: nat)
    requires whole == (v << 8) | (b as bv32) && n <= 8
    ensures Window(whole, n + 8) == Window(v, n) + Digit(b as int, 8)
  {
    ByteAbove(v, b, whole, n);
    ByteBelow(v, b, whole, b as bv32);
    WideByte(b);
  }

  lemma ByteNumber(b: bv8, wide: Word)
    requires wide == b as bv32
    ensures wide as int == b as int
  {
  }

  lemma WideByte(b: bv8)
    ensures Window(b as bv32, 8) == Digit(b as int, 8)
  {
    WindowIsDigit(b as bv32, 8);
    ByteNumber(b, b as bv32);
  }

  lemma BehindDigit(v: Word, d: bv5, whole: Word) returns (high: Word, low: Word)
    requires whole == (v << 5) | (d as bv32)
    ensures high == whole >> 5 && low == high & 255 && low == v & 255
  {
    high, low := whole >> 5, v & 255;
  }

  lemma DigitAbove(v: Word, d: bv5, whole: Word, n: nat)
    requires whole == (v << 5) | (d as bv32) && n <= 8
    ensures Window(whole, n + 5) == Window(v, n) + Window(whole, 5)
  {
    var high, low := BehindDigit(v, d, whole);
    WindowAbove(v, whole, high, low, n, 5);
  }

  lemma {:induction false} DigitBelow(v: Word, d: bv5, whole: Word, wide: Word)
    requires whole == (v << 5) | (d as bv32) && wide == d as bv32
    ensures Window(whole, 5) == Window(wide, 5)
  {
    SameFive(whole, wide, wide & 31, 5);
  }

  /** The same for a five-bit digit. */
  lemma WindowDigitIn(v: Word, d: bv5, whole: Word, n: nat)
    requires whole == (v << 5) | (d as bv32) && n <= 8
    ensures Window(whole, n + 5) == Window(v, n) + Digit(d as int, 5)
  {
    DigitAbove(v, d, whole, n);
    DigitBelow(v, d, whole, d as bv32);
    WideDigit(d);
  }

  lemma DigitNumber(d: bv5, wide: Word)
    requires wide == d as bv32
    ensures wide as int == d as int
  {
  }

  lemma WideDigit(d: bv5)
    ensures Window(d as bv32, 5) == Digit(d as int, 5)
  {
    WindowIsDigit(d as bv32, 5);
    DigitNumber(d, d as bv32);
  }

  // ---- Reading -----------------------------------------------------------------

  lemma {:induction false} DigitOfRemainder(w: nat, r: nat, m: nat)
    requires r == w % Power2(m)
    ensures Digit(r, m) == Digit(w, m)
  {
    DigitOfWrapped(w, m, m);
  }

  /** `& 31`: the number that the five low bits spell. */
  method LowFive(w: Word) returns (d: nat)
    ensures d < 32 && Digit(d, 5) == Window(w, 5)
  {
    d := (w & 31) as int;
    Mask31(w);
    WindowIsDigit(w, 5);
    Power2Of8();
    DigitOfRemainder(w as int, d, 5);
  }

  /** `& 255`: the number that the eight low bits spell. */
  method LowEight(w: Word) returns (b: Byte)
    ensures Digit(b, 8) == Window(w, 8)
  {
    Mask255(w);
    b := (w & 255) as int;
    WindowIsDigit(w, 8);
    Power2Of8();
    DigitOfRemainder(w as int, b, 8);
  }
}
