/**
 * The stored form of a parent PIN: `pbkdf2$sha256$<iterations>$<salt>$<hash>`,
 * how it is written and how it is checked. The key-derivation function and the
 * legacy digest are arbitrary functions.
 */
module PasswordRecord {
  import opened BitStreams
  import opened Common
  import opened Text
  import opened Decimals
  import opened Base64Url

  const PBKDF2_ITERS: nat := 80_000
  const MIN_ITERS: nat := 10_000
  const PBKDF2_PREFIX := "pbkdf2$sha256$"

  /** password, salt, iterations -> derived key */
  type Kdf = (string, seq<Byte>, nat) -> seq<Byte>

  datatype Verdict = Verdict(ok: bool, needsRehash: bool)

  // ---- Comparison ------------------------------------------------------------

  /** Bitwise exclusive or and or on character codes. */
  function Xor(a: nat, b: nat): nat {
    if a == 0 && b == 0 then 0
    else Bit(a % 2 != b % 2) + 2 * Xor(a / 2, b / 2)
  }

  function Or(a: nat, b: nat): nat {
    if a == 0 && b == 0 then 0
    else Bit(a % 2 == 1 || b % 2 == 1) + 2 * Or(a / 2, b / 2)
  }

  lemma {:induction false} XorZero(a: nat, b: nat)
    ensures Xor(a, b) == 0 <==> a == b
  {
    if a != 0 || b != 0 {
      XorZero(a / 2, b / 2);
    }
  }

  lemma {:induction false} OrZero(a: nat, b: nat)
    ensures Or(a, b) == 0 <==> a == 0 && b == 0
  {
    if a != 0 || b != 0 {
      OrZero(a / 2, b / 2);
    }
  }

  /**
   * The comparison looks at every character of two texts of one length, whatever
   * it finds, and is exactly equality.
   */
  method TimingSafeEqual(a: string, b: string) returns (equal: bool)
    ensures equal <==> a == b
  {
    if |a| != |b| { return false; }
    var diff := 0;
    for i := 0 to |a|
      invariant diff >= 0
      invariant diff == 0 <==> a[..i] == b[..i]
    {
      XorZero(a[i] as nat, b[i] as nat);
      OrZero(diff, Xor(a[i] as nat, b[i] as nat));
      assert a[..i + 1] == a[..i] + [a[i]] && b[..i + 1] == b[..i] + [b[i]];
      diff := Or(diff, Xor(a[i] as nat, b[i] as nat));
    }
    assert a[..|a|] == a && b[..|a|] == b;
    return diff == 0;
  }

  // ---- Writing and checking --------------------------------------------------

  /** A record with an explicit iteration count, as older deployments wrote it. */
  function Record(iterations: nat, salt: seq<Byte>, derived: seq<Byte>): string {
    PBKDF2_PREFIX + Decimal(iterations) + "$" + ToBase64Url(salt) + "$" + ToBase64Url(derived)
  }

  function HashPassword(password: string, salt: seq<Byte>, kdf: Kdf): string {
    Record(PBKDF2_ITERS, salt, kdf(password, salt, PBKDF2_ITERS))
  }

  /** Number(text) for plain digits; None stands for NaN. */
  function NumberOf(text: string): Option<nat> {
    if AllDigits(text) then Some(DecimalValue(text)) else None
  }

  /** The check of a record already split; None is the exception that a malformed salt raises. */
  function VerifyFields(password: string, parts: seq<string>, kdf: Kdf): Option<Verdict> {
    if |parts| != 5 then Some(Verdict(false, false))
    else
      var iterations := NumberOf(parts[2]);
      match FromBase64Url(parts[3])
      case None => None
      case Some(salt) =>
        if iterations.None? || iterations.value < MIN_ITERS then Some(Verdict(false, false))
        else
          var ok := ToBase64Url(kdf(password, salt, iterations.value)) == parts[4];
          Some(Verdict(ok, ok && iterations.value < PBKDF2_ITERS))
  }

  function VerifyPassword(password: string, stored: Option<string>, kdf: Kdf, legacy: string -> string): Option<Verdict> {
    if stored.None? || stored.value == "" then Some(Verdict(false, false))
    else if StartsWith(stored.value, PBKDF2_PREFIX) then VerifyFields(password, Split(stored.value, '$'), kdf)
    else
      var ok := legacy("sb_salt_" + password) == stored.value;
      Some(Verdict(ok, ok))
  }

  lemma {:induction false} PrependField(head: string, tail: string, fields: seq<string>)
    requires '$' !in head && Split(tail, '$') == fields
    ensures Split(head + ['$'] + tail, '$') == [head] + fields
  {
    SplitCons(head, '$', tail);
  }

  lemma {:induction false} TwoFields(first: string, second: string, tail: string, fields: seq<string>)
    requires '$' !in first && '$' !in second && Split(tail, '$') == fields
    ensures Split(first + ['$'] + (second + ['$'] + tail), '$') == [first, second] + fields
  {
    PrependField(second, tail, fields);
    PrependField(first, second + ['$'] + tail, [second] + fields);
    assert [first] + ([second] + fields) == [first, second] + fields;
  }

  lemma {:induction false} FiveFields(p: string, q: string, n: string, s: string, h: string)
    requires '$' !in p && '$' !in q && '$' !in n && '$' !in s && '$' !in h
    ensures Split(p + ['$'] + (q + ['$'] + (n + ['$'] + (s + ['$'] + h))), '$') == [p, q, n, s, h]
  {
    SplitWhole(h, '$');
    TwoFields(n, s, h, [h]);
    TwoFields(p, q, n + ['$'] + (s + ['$'] + h), [n, s] + [h]);
    assert [p, q] + ([n, s] + [h]) == [p, q, n, s, h];
  }

  lemma Regrouped(p: string, q: string, n: string, s: string, h: string)
    ensures (p + ['$'] + q + ['$']) + n + ['$'] + s + ['$'] + h
         == p + ['$'] + (q + ['$'] + (n + ['$'] + (s + ['$'] + h)))
  {
  }

  lemma PrefixParts()
    ensures PBKDF2_PREFIX == "pbkdf2" + ['$'] + "sha256" + ['$']
    ensures '$' !in "pbkdf2" && '$' !in "sha256"
  {
  }

  lemma {:induction false} NoDollar(iterations: nat, bytes: seq<Byte>)
    ensures '$' !in Decimal(iterations) && '$' !in ToBase64Url(bytes)
  {
    UrlText(bytes);
  }

  /** A record splits into exactly its five fields. */
  lemma {:induction false} RecordParts(iterations: nat, salt: seq<Byte>, derived: seq<Byte>)
    ensures StartsWith(Record(iterations, salt, derived), PBKDF2_PREFIX)
    ensures Split(Record(iterations, salt, derived), '$')
         == ["pbkdf2", "sha256", Decimal(iterations), ToBase64Url(salt), ToBase64Url(derived)]
  {
    NoDollar(iterations, salt);
    NoDollar(iterations, derived);
    PrefixParts();
    FiveFields("pbkdf2", "sha256", Decimal(iterations), ToBase64Url(salt), ToBase64Url(derived));
    Regrouped("pbkdf2", "sha256", Decimal(iterations), ToBase64Url(salt), ToBase64Url(derived));
  }

  /** Only the split record matters once the prefix has been seen. */
  lemma {:induction false} VerifyBySplit(tried: string, iterations: nat, salt: seq<Byte>, derived: seq<Byte>, kdf: Kdf, legacy: string -> string)
    ensures VerifyPassword(tried, Some(Record(iterations, salt, derived)), kdf, legacy)
         == VerifyFields(tried, ["pbkdf2", "sha256", Decimal(iterations), ToBase64Url(salt), ToBase64Url(derived)], kdf)
  {
    RecordParts(iterations, salt, derived);
    assert |Record(iterations, salt, derived)| > 0;
  }

  /** Records compare as their derived keys do, whatever the password tried. */
  lemma VerifyRecord(tried: string, iterations: nat, salt: seq<Byte>, derived: seq<Byte>, kdf: Kdf, legacy: string -> string)
    requires iterations >= 10_000
    ensures var ok := kdf(tried, salt, iterations) == derived;
            VerifyPassword(tried, Some(Record(iterations, salt, derived)), kdf, legacy)
            == Some(Verdict(ok, ok && iterations < 80_000))
  {
    VerifyBySplit(tried, iterations, salt, derived, kdf, legacy);
    DecimalRoundTrip(iterations);
    UrlRoundTrip(salt);
    UrlRoundTrip(derived);
    UrlRoundTrip(kdf(tried, salt, iterations));
  }

  /** A fresh record accepts its own password and asks for no rehash. */
  lemma OwnRecord(password: string, salt: seq<Byte>, kdf: Kdf, legacy: string -> string)
    ensures VerifyPassword(password, Some(HashPassword(password, salt, kdf)), kdf, legacy) == Some(Verdict(true, false))
  {
    VerifyRecord(password, PBKDF2_ITERS, salt, kdf(password, salt, PBKDF2_ITERS), kdf, legacy);
  }

  /** It accepts another password exactly when the derived keys collide. */
  lemma OtherPassword(password: string, tried: string, salt: seq<Byte>, kdf: Kdf, legacy: string -> string)
    ensures var v := VerifyPassword(tried, Some(HashPassword(password, salt, kdf)), kdf, legacy);
            v.Some? && (v.value.ok <==> kdf(tried, salt, PBKDF2_ITERS) == kdf(password, salt, PBKDF2_ITERS))
  {
    VerifyRecord(tried, PBKDF2_ITERS, salt, kdf(password, salt, PBKDF2_ITERS), kdf, legacy);
  }

  /** Upgrading: an accepted record that asks for a rehash is replaced by one that does not. */
  lemma RehashOnce(password: string, stored: Option<string>, salt: seq<Byte>, kdf: Kdf, legacy: string -> string)
    requires VerifyPassword(password, stored, kdf, legacy) == Some(Verdict(true, true))
    ensures VerifyPassword(password, Some(HashPassword(password, salt, kdf)), kdf, legacy) == Some(Verdict(true, false))
    ensures stored.Some? && stored != Some(HashPassword(password, salt, kdf))
  {
    OwnRecord(password, salt, kdf, legacy);
  }

  /** A record from before the prefix compares its salted digest, and asks for the upgrade when it fits. */
  lemma LegacyRecord(tried: string, stored: string, kdf: Kdf, legacy: string -> string)
    requires stored != "" && !StartsWith(stored, PBKDF2_PREFIX)
    ensures VerifyPassword(tried, Some(stored), kdf, legacy) ==
              if legacy("sb_salt_" + tried) == stored then Some(Verdict(true, true)) else Some(Verdict(false, false))
  {
  }

  /** A row without a PIN lets nobody in. */
  lemma NoRecordRefused(tried: string, kdf: Kdf, legacy: string -> string)
    ensures VerifyPassword(tried, None, kdf, legacy) == Some(Verdict(false, false))
    ensures VerifyPassword(tried, Some(""), kdf, legacy) == Some(Verdict(false, false))
  {
  }

  /** Below 10,000 iterations even the right password is refused. */
  lemma WeakRecordRefused(password: string, iterations: nat, salt: seq<Byte>, derived: seq<Byte>, kdf: Kdf, legacy: string -> string)
    requires iterations < 10_000
    ensures VerifyPassword(password, Some(Record(iterations, salt, derived)), kdf, legacy) == Some(Verdict(false, false))
  {
    VerifyBySplit(password, iterations, salt, derived, kdf, legacy);
    DecimalRoundTrip(iterations);
    UrlRoundTrip(salt);
  }
}
