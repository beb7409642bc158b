/**
 * The durable rate limiter: one row per bucket, a fixed window that a failure opens,
 * and a nightly job that deletes rows it takes to be stale. Times are milliseconds.
 */
module RateLimit {
  import opened Common
  import opened Text

  datatype Limits = Limits(maxAttempts: nat, windowMs: nat)

  datatype Row = Row(count: int, windowStart: int, updatedAt: int)

  datatype Verdict = Allowed(remaining: int) | Locked(retryAfterSec: int)

  const MINUTE_MS := 60_000
  const DAY_MS := 24 * 60 * MINUTE_MS

  /** The configured limits; an action without an entry gets the limits of a login. */
  function LimitsOf(action: string): Limits {
    if action == "enroll" then Limits(10, 15 * MINUTE_MS)
    else if action == "setup" || action == "signup" then Limits(10, 60 * MINUTE_MS)
    else Limits(5, 15 * MINUTE_MS)
  }

  function BucketKey(action: string, ip: string): string {
    action + ":" + ip
  }

  /** Buckets of actions without a colon are not shared, whatever the addresses contain. */
  lemma KeysApart(action: string, ip: string, action': string, ip': string)
    requires ':' !in action && ':' !in action'
    requires BucketKey(action, ip) == BucketKey(action', ip')
    ensures action == action' && ip == ip'
  {
    var key := BucketKey(action, ip);
    assert key[..|action|] == action && key[..|action'|] == action';
    IndexOfAt(key, ':', |action|);
    IndexOfAt(key, ':', |action'|);
    assert key[|action| + 1..] == ip && key[|action| + 1..] == ip';
  }

  /** Math.ceil(ms / 1000) */
  function CeilSeconds(ms: int): (s: int)
    ensures 1000 * (s - 1) < ms <= 1000 * s
  {
    -((-ms) / 1000)
  }

  function RetryAfter(windowStart: int, limits: Limits, now: int): int {
    Max(1, CeilSeconds(windowStart + limits.windowMs - now))
  }

  /** The window of a row includes its last millisecond. */
  predicate InWindow(row: Row, limits: Limits, now: int) {
    now - row.windowStart <= limits.windowMs
  }

  function CheckRow(row: Option<Row>, limits: Limits, now: int): Verdict {
    if row.None? || !InWindow(row.value, limits, now) then Allowed(limits.maxAttempts)
    else if row.value.count >= limits.maxAttempts then Locked(RetryAfter(row.value.windowStart, limits, now))
    else Allowed(limits.maxAttempts - row.value.count)
  }

  function RecordRow(row: Option<Row>, limits: Limits, now: int): Row {
    if row.Some? && InWindow(row.value, limits, now) then Row(row.value.count + 1, row.value.windowStart, now)
    else Row(1, now, now)
  }

  function RecordVerdict(row: Row, limits: Limits, now: int): Verdict {
    if row.count >= limits.maxAttempts then Locked(RetryAfter(row.windowStart, limits, now))
    else Allowed(limits.maxAttempts - row.count)
  }

  type Rows = map<string, Row>

  function Find(rows: Rows, key: string): Option<Row> {
    if key in rows then Some(rows[key]) else None
  }

  function Purged(rows: Rows, now: int): Rows {
    map key | key in rows && rows[key].updatedAt >= now - DAY_MS :: rows[key]
  }

  // ---- The table ---------------------------------------------------------------

  class RateLimitTable {
    var rows: Rows

    constructor ()
      ensures rows == map[]
    {
      rows := map[];
    }

    method Check(action: string, ip: string, now: int) returns (r: Verdict)
      ensures r == CheckRow(Find(rows, BucketKey(action, ip)), LimitsOf(action), now)
    {
      var limits := LimitsOf(action);
      var row := Find(rows, BucketKey(action, ip));
      if row.None? { return Allowed(limits.maxAttempts); }
      if now - row.value.windowStart > limits.windowMs { return Allowed(limits.maxAttempts); }
      if row.value.count >= limits.maxAttempts {
        return Locked(Max(1, CeilSeconds(row.value.windowStart + limits.windowMs - now)));
      }
      return Allowed(limits.maxAttempts - row.value.count);
    }

    method RecordFailure(action: string, ip: string, now: int) returns (r: Verdict)
      modifies this
      ensures var key := BucketKey(action, ip);
              rows == old(rows)[key := RecordRow(Find(old(rows), key), LimitsOf(action), now)]
              && r == CheckRow(Find(rows, key), LimitsOf(action), now)
    {
      var limits := LimitsOf(action);
      var key := BucketKey(action, ip);
      var row := Find(rows, key);
      var count, windowStart := 1, now;
      if row.Some? && now - row.value.windowStart <= limits.windowMs {
        count := row.value.count + 1;
        windowStart := row.value.windowStart;
      }
      rows := rows[key := Row(count, windowStart, now)];
      if count >= limits.maxAttempts {
        return Locked(Max(1, CeilSeconds(windowStart + limits.windowMs - now)));
      }
      return Allowed(limits.maxAttempts - count);
    }

    method Clear(action: string, ip: string)
      modifies this
      ensures rows == old(rows) - {BucketKey(action, ip)}
    {
      rows := rows - {BucketKey(action, ip)};
    }

    method Purge(now: int)
      modifies this
      ensures rows == Purged(old(rows), now)
      ensures forall key :: key in rows <==> key in old(rows) && old(rows)[key].updatedAt >= now - DAY_MS
      ensures forall key | key in rows :: rows[key] == old(rows)[key]
    {
      var cutoff := now - DAY_MS;
      rows := map key | key in rows && rows[key].updatedAt >= cutoff :: rows[key];
    }

    /** One request of a guarded route: check first, then count a failure or clear after a success. */
    method Serve(op: Op) returns (answers: seq<Verdict>)
      requires op.Request?
      modifies this
      ensures rows == After(old(rows), op) && answers == Answers(old(rows), op)
    {
      var first := Check(op.action, op.ip, op.at);
      answers := [first];
      if first.Locked? { return; }
      match op.outcome {
        case Failed =>
          var second := RecordFailure(op.action, op.ip, op.recordedAt);
          answers := answers + [second];
        case Succeeded =>
          Clear(op.action, op.ip);
        case Neutral =>
      }
    }
  }

  // ---- Runs --------------------------------------------------------------------

  datatype Outcome = Failed | Succeeded | Neutral

  /** A guarded request reads the clock when it is checked, and again when its failure is recorded. */
  datatype Op = Request(action: string, ip: string, at: int, recordedAt: int, outcome: Outcome) | Purge(at: int)

  /** When an operation has had its last look at the clock. */
  function End(op: Op): int {
    if op.Request? then op.recordedAt else op.at
  }

  predicate Refused(rows: Rows, op: Op)
    requires op.Request?
  {
    CheckRow(Find(rows, BucketKey(op.action, op.ip)), LimitsOf(op.action), op.at).Locked?
  }

  function After(rows: Rows, op: Op): Rows {
    match op
    case Purge(at) => Purged(rows, at)
    case Request(action, ip, _, recordedAt, outcome) =>
      var key := BucketKey(action, ip);
      if Refused(rows, op) || outcome.Neutral? then rows
      else if outcome.Succeeded? then rows - {key}
      else rows[key := RecordRow(Find(rows, key), LimitsOf(action), recordedAt)]
  }

  function Answers(rows: Rows, op: Op): seq<Verdict>
    requires op.Request?
  {
    var key := BucketKey(op.action, op.ip);
    var limits := LimitsOf(op.action);
    [CheckRow(Find(rows, key), limits, op.at)]
    + if Refused(rows, op) || !op.outcome.Failed? then []
      else [RecordVerdict(RecordRow(Find(rows, key), limits, op.recordedAt), limits, op.recordedAt)]
  }

  function Run(rows: Rows, ops: seq<Op>): Rows
    decreases |ops|
  {
    if ops == [] then rows else Run(After(rows, ops[0]), ops[1..])
  }

  /** Everything that clients are told during a run. */
  function Told(rows: Rows, ops: seq<Op>): seq<Verdict>
    decreases |ops|
  {
    if ops == [] then []
    else (if ops[0].Request? then Answers(rows, ops[0]) else []) + Told(After(rows, ops[0]), ops[1..])
  }

  /** The clock never goes back, and operations follow one another. */
  predicate Clocked(ops: seq<Op>, since: int)
    decreases |ops|
  {
    ops == [] || (since <= ops[0].at <= End(ops[0]) && Clocked(ops[1..], End(ops[0])))
  }

  lemma ConfiguredLimits(action: string)
    ensures LimitsOf(action).maxAttempts >= 1 && LimitsOf(action).windowMs < DAY_MS
    ensures action == "enroll" ==> LimitsOf(action) == Limits(10, 900_000)
    ensures action == "login" || action == "recover" ==> LimitsOf(action) == Limits(5, 900_000)
    ensures action == "setup" || action == "signup" ==> LimitsOf(action) == Limits(10, 3_600_000)
  {
  }

  // ---- The answer to a failure ---------------------------------------------------

  /** The row after k failures at one instant. */
  function AfterFailures(row: Option<Row>, limits: Limits, now: int, k: nat): Option<Row> {
    if k == 0 then row else Some(RecordRow(AfterFailures(row, limits, now, k - 1), limits, now))
  }

  /** What a client is told after a failure is what the next check would tell it: the lock and its wait, or the rest. */
  lemma {:induction false} FailureAnswer(rows: Rows, op: Op)
    requires op.Request? && op.outcome.Failed? && !Refused(rows, op)
    ensures var key := BucketKey(op.action, op.ip);
            && |Answers(rows, op)| == 2 && key in After(rows, op)
            && Answers(rows, op)[1] == CheckRow(Some(After(rows, op)[key]), LimitsOf(op.action), op.recordedAt)
            && Answers(rows, op)[1] == Answers(After(rows, op), op.(at := op.recordedAt))[0]
  {
  }

  lemma {:induction false} FailuresAdd(row: Option<Row>, limits: Limits, now: int, k: nat)
    requires k > 0
    ensures var r := AfterFailures(row, limits, now, k);
            && r.Some? && InWindow(r.value, limits, now)
            && r.value.count == k + (if row.Some? && InWindow(row.value, limits, now) then row.value.count else 0)
    decreases k
  {
    if k > 1 { FailuresAdd(row, limits, now, k - 1); }
  }

  /** The announced remainder is exactly the number of further failures that lock the bucket. */
  lemma {:induction false} RemainingExact(row: Option<Row>, limits: Limits, now: int, k: nat)
    requires limits.maxAttempts >= 1 && CheckRow(row, limits, now).Allowed?
    ensures CheckRow(row, limits, now).remaining >= 1
    ensures CheckRow(AfterFailures(row, limits, now, k), limits, now).Locked? <==> k >= CheckRow(row, limits, now).remaining
  {
    if k > 0 { FailuresAdd(row, limits, now, k); }
  }

  /** A success that is let in starts the bucket over; a request that is neither leaves it alone. */
  lemma SuccessStartsOver(rows: Rows, op: Op, next: Op)
    requires op.Request? && next.Request? && !Refused(rows, op) && BucketKey(next.action, next.ip) == BucketKey(op.action, op.ip)
    ensures op.outcome.Succeeded? ==> Answers(After(rows, op), next)[0] == Allowed(LimitsOf(next.action).maxAttempts)
    ensures op.outcome.Neutral? ==> After(rows, op) == rows
    ensures forall key | key != BucketKey(op.action, op.ip) :: Find(After(rows, op), key) == Find(rows, key)
  {
  }

  // ---- The purge is invisible ----------------------------------------------------

  function WithoutPurges(ops: seq<Op>): seq<Op> {
    if ops == [] then [] else (if ops[0].Purge? then [] else [ops[0]]) + WithoutPurges(ops[1..])
  }

  /** Nothing was updated before its window began, nor after now. */
  predicate Sane(rows: Rows, now: int) {
    forall key | key in rows :: rows[key].windowStart <= rows[key].updatedAt <= now
  }

  /** Same row, or none against one whose window is over for every configured action. */
  predicate Alike(a: Rows, b: Rows, key: string, now: int) {
    Find(a, key) == Find(b, key) || (key !in a && key in b && b[key].windowStart + DAY_MS < now)
  }

  ghost predicate AllAlike(a: Rows, b: Rows, now: int) {
    forall key: string :: Alike(a, b, key, now)
  }

  lemma AfterSane(rows: Rows, op: Op, since: int)
    requires Sane(rows, since) && since <= op.at <= End(op)
    ensures Sane(After(rows, op), End(op))
  {
  }

  lemma SameAnswers(a: Rows, b: Rows, op: Op)
    requires op.Request? && op.at <= op.recordedAt && Alike(a, b, BucketKey(op.action, op.ip), op.at)
    ensures Answers(a, op) == Answers(b, op) && Refused(a, op) == Refused(b, op)
  {
    ConfiguredLimits(op.action);
  }

  lemma RequestAlike(a: Rows, b: Rows, op: Op)
    requires op.Request? && op.at <= op.recordedAt && AllAlike(a, b, op.at)
    ensures AllAlike(After(a, op), After(b, op), op.recordedAt)
  {
    var own := BucketKey(op.action, op.ip);
    assert Alike(a, b, own, op.at);
    SameAnswers(a, b, op);
    ConfiguredLimits(op.action);
    forall key: string ensures Alike(After(a, op), After(b, op), key, op.recordedAt) {
      assert Alike(a, b, key, op.at);
    }
  }

  lemma PurgeAlike(a: Rows, b: Rows, now: int)
    requires Sane(b, now) && AllAlike(a, b, now)
    ensures AllAlike(Purged(a, now), b, now)
  {
    forall key: string ensures Alike(Purged(a, now), b, key, now) {
      assert Alike(a, b, key, now);
    }
  }

  lemma {:induction false} AlikeTold(a: Rows, b: Rows, ops: seq<Op>, since: int)
    requires Clocked(ops, since) && Sane(b, since) && AllAlike(a, b, since)
    ensures Told(a, ops) == Told(b, WithoutPurges(ops))
    decreases |ops|
  {
    if ops != [] {
      var op := ops[0];
      forall key: string ensures Alike(a, b, key, op.at) {
        assert Alike(a, b, key, since);
      }
      if op.Purge? {
        PurgeAlike(a, b, op.at);
        AlikeTold(Purged(a, op.at), b, ops[1..], op.at);
        assert Told(a, ops) == Told(After(a, op), ops[1..]);
        assert WithoutPurges(ops) == WithoutPurges(ops[1..]);
      } else {
        assert Alike(a, b, BucketKey(op.action, op.ip), op.at);
        SameAnswers(a, b, op);
        RequestAlike(a, b, op);
        AfterSane(b, op, since);
        AlikeTold(After(a, op), After(b, op), ops[1..], op.recordedAt);
        assert WithoutPurges(ops)[1..] == WithoutPurges(ops[1..]);
      }
    }
  }

  /** Deleting rows that were not updated for a day changes nothing that any client is ever told. */
  lemma {:induction false} InvisiblePurge(rows: Rows, ops: seq<Op>, since: int)
    requires Sane(rows, since) && Clocked(ops, since)
    ensures Told(rows, ops) == Told(rows, WithoutPurges(ops))
  {
    AlikeTold(rows, rows, ops, since);
  }

  // ---- Recorded failures ---------------------------------------------------------

  /** A recorded failure: when, in which window, and the how-manieth of it. */
  datatype Entry = Entry(at: int, windowStart: int, count: int)

  predicate For(op: Op, key: string) {
    op.Request? && BucketKey(op.action, op.ip) == key
  }

  predicate Records(rows: Rows, op: Op, key: string) {
    For(op, key) && op.outcome.Failed? && !Refused(rows, op)
  }

  /** The failures that a run records in one bucket. */
  function Failures(rows: Rows, ops: seq<Op>, key: string): seq<Entry>
    decreases |ops|
  {
    if ops == [] then []
    else
      var rows' := After(rows, ops[0]);
      (if Records(rows, ops[0], key) then [Entry(rows'[key].updatedAt, rows'[key].windowStart, rows'[key].count)] else [])
      + Failures(rows', ops[1..], key)
  }

  /** The bucket is used under these limits and not cleared. */
  predicate Uncleared(ops: seq<Op>, key: string, limits: Limits) {
    forall op | op in ops && For(op, key) :: LimitsOf(op.action) == limits && !op.outcome.Succeeded?
  }

  /** `e` may be recorded right after `before`: the next of the same window, or the first of a later one. */
  predicate Follows(before: Entry, e: Entry, limits: Limits) {
    && before.at <= e.at
    && if e.count == 1 then e.windowStart > before.windowStart + limits.windowMs
       else e.windowStart == before.windowStart && e.count == before.count + 1
  }

  predicate WellFormed(e: Entry, limits: Limits) {
    && 1 <= e.count <= limits.maxAttempts
    && e.windowStart <= e.at <= e.windowStart + limits.windowMs
    && (e.count == 1 ==> e.at == e.windowStart)
  }

  /** A log of failures that begins with an open window. */
  predicate GoodLog(log: seq<Entry>, limits: Limits) {
    && (forall i | 0 <= i < |log| :: WellFormed(log[i], limits))
    && (log != [] ==> log[0].count == 1)
    && (forall i | 0 < i < |log| :: Follows(log[i - 1], log[i], limits))
  }

  /** The bucket's row is the last entry, or it has been purged and that window is over. */
  predicate Reflects(rows: Rows, key: string, log: seq<Entry>, limits: Limits, now: int) {
    if log == [] then key !in rows
    else
      var last := log[|log| - 1];
      last.at <= now
      && if key in rows then rows[key] == Row(last.count, last.windowStart, last.at)
         else last.windowStart + limits.windowMs < now
  }

  /** One operation appends at most one good entry. */
  lemma {:induction false} FailureStep(rows: Rows, op: Op, key: string, limits: Limits, log: seq<Entry>, since: int)
    requires limits.maxAttempts >= 1 && limits.windowMs < DAY_MS
    requires GoodLog(log, limits) && Reflects(rows, key, log, limits, since) && since <= op.at <= End(op)
    requires For(op, key) ==> LimitsOf(op.action) == limits && !op.outcome.Succeeded?
    ensures var log' := log + Failures(rows, [op], key);
            GoodLog(log', limits) && Reflects(After(rows, op), key, log', limits, End(op))
  {
    var rows' := After(rows, op);
    assert Failures(rows', [op][1..], key) == [];
    if Records(rows, op, key) {
      var e := Entry(rows'[key].updatedAt, rows'[key].windowStart, rows'[key].count);
      assert WellFormed(e, limits);
      assert log != [] ==> Follows(log[|log| - 1], e, limits);
      assert Failures(rows, [op], key) == [e];
    } else {
      assert log + Failures(rows, [op], key) == log;
    }
  }

  lemma {:induction false} FailuresCons(rows: Rows, ops: seq<Op>, key: string)
    requires ops != []
    ensures Failures(rows, ops, key) == Failures(rows, [ops[0]], key) + Failures(After(rows, ops[0]), ops[1..], key)
  {
    assert [ops[0]][1..] == [];
  }

  lemma {:induction false} FailuresGood(rows: Rows, ops: seq<Op>, key: string, limits: Limits, log: seq<Entry>, since: int)
    requires limits.maxAttempts >= 1 && limits.windowMs < DAY_MS
    requires GoodLog(log, limits) && Reflects(rows, key, log, limits, since)
    requires Clocked(ops, since) && Uncleared(ops, key, limits)
    ensures GoodLog(log + Failures(rows, ops, key), limits)
    decreases |ops|
  {
    if ops == [] {
      assert log + [] == log;
    } else {
      assert ops[0] in ops;
      FailureStep(rows, ops[0], key, limits, log, since);
      var log' := log + Failures(rows, [ops[0]], key);
      FailuresGood(After(rows, ops[0]), ops[1..], key, limits, log', End(ops[0]));
      FailuresCons(rows, ops, key);
      Rejoined(log, Failures(rows, [ops[0]], key), Failures(After(rows, ops[0]), ops[1..], key));
    }
  }

  lemma Rejoined(a: seq<Entry>, b: seq<Entry>, c: seq<Entry>)
    ensures a + b + c == a + (b + c)
  {
  }

  lemma {:induction false} Ordered(log: seq<Entry>, limits: Limits, i: nat, j: nat)
    requires GoodLog(log, limits) && i <= j < |log|
    ensures log[i].at <= log[j].at
    decreases j
  {
    if i < j {
      Ordered(log, limits, i, j - 1);
      assert Follows(log[j - 1], log[j], limits);
    }
  }

  /** The entry that opened the window of the j-th failure. */
  lemma {:induction false} WindowOpened(log: seq<Entry>, limits: Limits, j: nat)
    requires GoodLog(log, limits) && j < |log|
    ensures var k := j - log[j].count + 1;
            0 <= k <= j && log[k].count == 1 && log[k].at == log[j].windowStart
    decreases j
  {
    assert WellFormed(log[j], limits);
    if log[j].count > 1 && j > 0 {
      assert Follows(log[j - 1], log[j], limits);
      WindowOpened(log, limits, j - 1);
    }
  }

  /** Entries of one fixed window are numbered, so there are at most maxAttempts of them. */
  lemma {:induction false} SameWindow(log: seq<Entry>, limits: Limits, i: nat, j: nat)
    requires GoodLog(log, limits) && i <= j < |log| && log[i].windowStart == log[j].windowStart
    ensures log[j].count == log[i].count + (j - i)
    decreases j
  {
    assert WellFormed(log[i], limits) && WellFormed(log[j], limits);
    if i < j {
      assert Follows(log[j - 1], log[j], limits);
      WindowOpened(log, limits, j);
      if log[j].count == 1 {
        WindowsGrow(log, limits, i, j - 1);
        assert false;
      } else {
        SameWindow(log, limits, i, j - 1);
      }
    }
  }

  lemma {:induction false} WindowsGrow(log: seq<Entry>, limits: Limits, i: nat, j: nat)
    requires GoodLog(log, limits) && i <= j < |log|
    ensures log[i].windowStart <= log[j].windowStart
    decreases j
  {
    if i < j {
      WindowsGrow(log, limits, i, j - 1);
      assert Follows(log[j - 1], log[j], limits);
    }
  }

  /** Failures that are 2 * maxAttempts - 1 places apart are more than a window apart. */
  lemma SpreadOut(log: seq<Entry>, limits: Limits, i: nat)
    requires GoodLog(log, limits) && limits.maxAttempts >= 1 && i + 2 * limits.maxAttempts - 1 < |log|
    ensures log[i + 2 * limits.maxAttempts - 1].at > log[i].at + limits.windowMs
  {
    var j := i + 2 * limits.maxAttempts - 1;
    WindowOpened(log, limits, j);
    assert WellFormed(log[j], limits);
    var k := j - log[j].count + 1;
    assert WellFormed(log[k - 1], limits) && Follows(log[k - 1], log[k], limits);
    WindowOpened(log, limits, k - 1);
    Ordered(log, limits, i, k - 1 - log[k - 1].count + 1);
    Ordered(log, limits, k, j);
  }

  /**
   * The sliding bound: while a bucket is not cleared, no span of windowMs, wherever it
   * begins, holds more than 2 * maxAttempts - 1 recorded failures, and no fixed window
   * more than maxAttempts. Purges and requests on other buckets may interleave.
   */
  lemma {:induction false} SlidingBound(rows: Rows, ops: seq<Op>, key: string, limits: Limits, since: int, i: nat, j: nat)
    requires limits.maxAttempts >= 1 && limits.windowMs < DAY_MS
    requires key !in rows && Clocked(ops, since) && Uncleared(ops, key, limits)
    requires i <= j < |Failures(rows, ops, key)|
    ensures var log := Failures(rows, ops, key);
            && (log[j].at - log[i].at <= limits.windowMs ==> j - i + 1 <= 2 * limits.maxAttempts - 1)
            && (log[i].windowStart == log[j].windowStart ==> j - i + 1 <= limits.maxAttempts)
  {
    FailuresGood(rows, ops, key, limits, [], since);
    assert [] + Failures(rows, ops, key) == Failures(rows, ops, key);
    LogBound(Failures(rows, ops, key), limits, i, j);
  }

  lemma LogBound(log: seq<Entry>, limits: Limits, i: nat, j: nat)
    requires GoodLog(log, limits) && limits.maxAttempts >= 1 && i <= j < |log|
    ensures log[j].at - log[i].at <= limits.windowMs ==> j - i + 1 <= 2 * limits.maxAttempts - 1
    ensures log[i].windowStart == log[j].windowStart ==> j - i + 1 <= limits.maxAttempts
  {
    if j - i >= 2 * limits.maxAttempts - 1 {
      SpreadOut(log, limits, i);
      Ordered(log, limits, i + 2 * limits.maxAttempts - 1, j);
    }
    if log[i].windowStart == log[j].windowStart {
      SameWindow(log, limits, i, j);
      assert WellFormed(log[i], limits) && WellFormed(log[j], limits);
    }
  }

  // ---- Lockout -------------------------------------------------------------------

  /** A locked bucket refuses everything up to the end of its window, and nothing changes it before. */
  lemma {:induction false} LockedOut(rows: Rows, ops: seq<Op>, key: string, limits: Limits, op: Op)
    requires limits.windowMs < DAY_MS
    requires key in rows && rows[key].count >= limits.maxAttempts && rows[key].windowStart <= rows[key].updatedAt
    requires forall o | o in ops + [op] :: o.at <= rows[key].windowStart + limits.windowMs
    requires forall o | o in ops + [op] && For(o, key) :: LimitsOf(o.action) == limits
    ensures Find(Run(rows, ops), key) == Some(rows[key])
    ensures For(op, key) ==> Refused(Run(rows, ops), op)
    decreases |ops|
  {
    assert op in ops + [op];
    if ops != [] {
      assert ops[0] in ops + [op];
      forall o | o in ops[1..] + [op] ensures o in ops + [op] {}
      LockedOut(After(rows, ops[0]), ops[1..], key, limits, op);
    }
  }

  /**
   * The lock lasts exactly as long as its window: whatever is requested and purged up to
   * the window's last millisecond, the next request is refused if it comes by then and
   * admitted with all its attempts if it comes later.
   */
  lemma {:induction false} LockEnds(rows: Rows, ops: seq<Op>, key: string, limits: Limits, op: Op)
    requires limits.windowMs < DAY_MS && For(op, key)
    requires key in rows && rows[key].count >= limits.maxAttempts && rows[key].windowStart <= rows[key].updatedAt
    requires forall o | o in ops :: o.at <= rows[key].windowStart + limits.windowMs
    requires forall o | o in ops + [op] && For(o, key) :: LimitsOf(o.action) == limits
    ensures var answer := Answers(Run(rows, ops), op)[0];
            && (answer.Locked? <==> op.at <= rows[key].windowStart + limits.windowMs)
            && (answer.Allowed? ==> answer.remaining == limits.maxAttempts)
  {
    assert op in ops + [op];
    var early := op.(at := Min(op.at, rows[key].windowStart + limits.windowMs));
    forall o | o in ops + [early] && For(o, key) ensures LimitsOf(o.action) == limits {
      assert o in ops ==> o in ops + [op];
    }
    LockedOut(rows, ops, key, limits, early);
  }

  /**
   * What the client is told to wait is a second short exactly when the rest of the
   * window is a positive whole number of seconds: then the window still includes the
   * moment it comes back. One second more is always enough, one second less never.
   */
  lemma RetryAfterExact(row: Row, limits: Limits, now: int)
    requires limits.maxAttempts >= 1 && CheckRow(Some(row), limits, now).Locked?
    ensures var wait := CheckRow(Some(row), limits, now).retryAfterSec;
            var rest := row.windowStart + limits.windowMs - now;
            && (CheckRow(Some(row), limits, now + 1000 * wait).Allowed? <==> rest == 0 || rest % 1000 != 0)
            && CheckRow(Some(row), limits, now + 1000 * (wait + 1)).Allowed?
            && CheckRow(Some(row), limits, now + 1000 * (wait - 1)).Locked?
  {
  }
}
