/**
 * Session lifetime: the three session columns of a parent row, the sliding idle
 * window that is written at most once an hour, and the absolute cap.
 */
module Sessions {
  import opened Common

  type Token = nat

  const HOUR_MS := 60 * 60 * 1000
  const DAY_MS := 24 * HOUR_MS
  const SESSION_IDLE_MS := 7 * DAY_MS
  const SESSION_ABSOLUTE_MS := 30 * DAY_MS
  const SESSION_TOUCH_AFTER_MS := HOUR_MS

  /** A time-stamp column: null, text that is not a date, or an instant. */
  datatype Stamp = Null | Malformed | At(ms: int)

  datatype SessionRow = SessionRow(token: Option<Token>, expiresAt: Stamp, lastUsedAt: Stamp)

  predicate IsSessionLive(row: SessionRow, now: int) {
    row.expiresAt.At? && row.lastUsedAt.At?
    && now < row.expiresAt.ms && now - row.lastUsedAt.ms < SESSION_IDLE_MS
  }

  function NewSession(token: Token, now: int): SessionRow {
    SessionRow(Some(token), At(now + SESSION_ABSOLUTE_MS), At(now))
  }

  function Cleared(row: SessionRow): SessionRow {
    SessionRow(None, Null, Null)
  }

  /** A malformed stamp makes the comparison false, and so the write happens. */
  predicate TouchIsDue(row: SessionRow, now: int) {
    match row.lastUsedAt
    case Null => now >= SESSION_TOUCH_AFTER_MS
    case Malformed => true
    case At(ms) => now - ms >= SESSION_TOUCH_AFTER_MS
  }

  function Touched(row: SessionRow, now: int): SessionRow {
    if TouchIsDue(row, now) then row.(lastUsedAt := At(now)) else row
  }

  // ---- Requests ------------------------------------------------------------------

  /** Console requests slide the window and drop a dead session; set-up routes only look. */
  datatype Op =
    | Login(token: Token, at: int)
    | Console(token: Token, at: int)
    | SetUp(token: Token, at: int)
    | Logout(token: Token, at: int)

  predicate Holds(row: SessionRow, token: Token) {
    row.token == Some(token)
  }

  predicate Admits(row: SessionRow, op: Op) {
    (op.Console? || op.SetUp?) && Holds(row, op.token) && IsSessionLive(row, op.at)
  }

  function After(row: SessionRow, op: Op): SessionRow {
    match op
    case Login(token, at) => NewSession(token, at)
    case Console(token, at) =>
      if !Holds(row, token) then row else if IsSessionLive(row, at) then Touched(row, at) else Cleared(row)
    case SetUp(token, at) => row
    case Logout(token, at) => if Holds(row, token) then Cleared(row) else row
  }

  /** The session columns of one parent row, updated in place. */
  class ParentSession {
    var row: SessionRow

    constructor ()
      ensures row == SessionRow(None, Null, Null)
    {
      row := SessionRow(None, Null, Null);
    }

    method Issue(token: Token, now: int)
      modifies this
      ensures row == NewSession(token, now)
      ensures forall at, other | now <= at < now + SESSION_IDLE_MS :: Admits(row, Console(other, at)) <==> other == token
    {
      row := SessionRow(Some(token), At(now + SESSION_ABSOLUTE_MS), At(now));
    }

    method Touch(token: Token, seen: SessionRow, now: int)
      modifies this
      ensures row == if Holds(old(row), token) && TouchIsDue(seen, now) then old(row).(lastUsedAt := At(now)) else old(row)
      ensures seen.lastUsedAt.At? && now - seen.lastUsedAt.ms < HOUR_MS ==> row == old(row)
    {
      if seen.lastUsedAt.At? && now - seen.lastUsedAt.ms < SESSION_TOUCH_AFTER_MS { return; }
      if seen.lastUsedAt.Null? && now < SESSION_TOUCH_AFTER_MS { return; }
      if row.token == Some(token) { row := row.(lastUsedAt := At(now)); }
    }

    method Clear(token: Token)
      modifies this
      ensures row == if Holds(old(row), token) then Cleared(old(row)) else old(row)
    {
      if row.token == Some(token) { row := SessionRow(None, Null, Null); }
    }

    /** The bearer path of parentAuth. */
    method Authenticate(token: Token, now: int) returns (admitted: bool)
      modifies this
      ensures admitted == Admits(old(row), Console(token, now))
      ensures row == After(old(row), Console(token, now))
      ensures admitted ==> Holds(row, token) && row.expiresAt == old(row).expiresAt
      ensures admitted && now - old(row).lastUsedAt.ms < HOUR_MS ==> row == old(row)
      ensures admitted && now - old(row).lastUsedAt.ms >= HOUR_MS ==> row.lastUsedAt == At(now)
      ensures !admitted ==> !Holds(row, token)
      ensures old(row).token != Some(token) ==> row == old(row)
    {
      if row.token != Some(token) { return false; }
      if IsSessionLive(row, now) {
        Touch(token, row, now);
        return true;
      }
      Clear(token);
      return false;
    }

    /** requireSession of the set-up routes. */
    method Require(token: Token, now: int) returns (admitted: bool)
      ensures admitted == Admits(row, SetUp(token, now))
      ensures admitted == Admits(row, Console(token, now))
    {
      admitted := row.token == Some(token) && IsSessionLive(row, now);
    }
  }

  // ---- Runs ----------------------------------------------------------------------

  function Run(row: SessionRow, ops: seq<Op>): SessionRow
    decreases |ops|
  {
    if ops == [] then row else Run(After(row, ops[0]), ops[1..])
  }

  /** The clock never goes back, from since to until. */
  predicate Clocked(ops: seq<Op>, since: int, until: int)
    decreases |ops|
  {
    if ops == [] then since <= until else since <= ops[0].at && Clocked(ops[1..], ops[0].at, until)
  }

  /** Tokens are random: the token is not issued again. */
  predicate NotReissued(ops: seq<Op>, token: Token) {
    forall op | op in ops :: !(op.Login? && op.token == token)
  }

  /** Nobody else logs in, and this session is not logged out. */
  predicate Undisturbed(ops: seq<Op>, token: Token) {
    forall op | op in ops :: !op.Login? && !(op.Logout? && op.token == token)
  }

  /** The true time of last use: of the last admitted console request, or `last` if there is none. */
  function LastUse(row: SessionRow, ops: seq<Op>, token: Token, last: int): int
    decreases |ops|
  {
    if ops == [] then last
    else
      var op := ops[0];
      LastUse(After(row, op), ops[1..], token, if op.Console? && op.token == token && Admits(row, op) then op.at else last)
  }

  /** While the row holds the session, its cap is right and its last use less than an hour behind. */
  predicate Good(row: SessionRow, token: Token, created: int, last: int) {
    Holds(row, token) ==>
      && row.expiresAt == At(created + SESSION_ABSOLUTE_MS)
      && row.lastUsedAt.At? && 0 <= last - row.lastUsedAt.ms < SESSION_TOUCH_AFTER_MS
  }

  lemma {:induction false} StaysGood(row: SessionRow, ops: seq<Op>, token: Token, created: int, last: int, since: int, until: int)
    requires Good(row, token, created, last) && last <= since
    requires Clocked(ops, since, until) && NotReissued(ops, token)
    ensures Good(Run(row, ops), token, created, LastUse(row, ops, token, last))
    ensures LastUse(row, ops, token, last) <= until
    decreases |ops|
  {
    if ops != [] {
      var op := ops[0];
      assert op in ops;
      var last' := if op.Console? && op.token == token && Admits(row, op) then op.at else last;
      StaysGood(After(row, op), ops[1..], token, created, last', op.at, until);
    }
  }

  lemma {:induction false} NoUseWithoutToken(row: SessionRow, ops: seq<Op>, token: Token, last: int)
    requires !Holds(row, token) && NotReissued(ops, token)
    ensures !Holds(Run(row, ops), token) && LastUse(row, ops, token, last) == last
    decreases |ops|
  {
    if ops != [] {
      assert ops[0] in ops;
      NoUseWithoutToken(After(row, ops[0]), ops[1..], token, last);
    }
  }

  /** An undisturbed session is gone only once it was idle for long enough, or too old. */
  lemma {:induction false} GoneOnlyWhenDue(row: SessionRow, ops: seq<Op>, token: Token, created: int, last: int, since: int, until: int)
    requires Holds(row, token) && Good(row, token, created, last) && last <= since
    requires Clocked(ops, since, until) && Undisturbed(ops, token)
    ensures var use := LastUse(row, ops, token, last);
            || Holds(Run(row, ops), token)
            || until - use > SESSION_IDLE_MS - SESSION_TOUCH_AFTER_MS
            || until >= created + SESSION_ABSOLUTE_MS
    decreases |ops|
  {
    if ops != [] {
      var op := ops[0];
      assert op in ops;
      ClockedUntil(ops[1..], op.at, until);
      if op.Console? && op.token == token && !Admits(row, op) {
        NoUseWithoutToken(After(row, op), ops[1..], token, last);
      } else {
        var last' := if op.Console? && op.token == token then op.at else last;
        GoneOnlyWhenDue(After(row, op), ops[1..], token, created, last', op.at, until);
      }
    }
  }

  lemma {:induction false} ClockedUntil(ops: seq<Op>, since: int, until: int)
    requires Clocked(ops, since, until)
    ensures since <= until
    decreases |ops|
  {
    if ops != [] {
      ClockedUntil(ops[1..], ops[0].at, until);
    }
  }

  /**
   * Session lifetime, over any requests that follow a login: an admitted request comes
   * before the cap and less than seven days after the last use; and before the cap, a
   * session idle for at most seven days less an hour is admitted.
   */
  lemma {:induction false} SessionLifetime(before: SessionRow, token: Token, created: int, ops: seq<Op>, op: Op)
    requires (op.Console? || op.SetUp?) && op.token == token
    requires Clocked(ops, created, op.at) && NotReissued(ops, token)
    ensures var start := After(before, Login(token, created));
            var row := Run(start, ops);
            var use := LastUse(start, ops, token, created);
            && (Admits(row, op) ==> op.at < created + 30 * 86_400_000 && op.at - use < 7 * 86_400_000)
            && (Holds(row, token) ==> row.lastUsedAt.At? && 0 <= use - row.lastUsedAt.ms < 3_600_000)
            && (Undisturbed(ops, token) && op.at - use <= 7 * 86_400_000 - 3_600_000 && op.at < created + 30 * 86_400_000
                ==> Admits(row, op))
  {
    var start := After(before, Login(token, created));
    StaysGood(start, ops, token, created, created, created, op.at);
    if Undisturbed(ops, token) {
      GoneOnlyWhenDue(start, ops, token, created, created, created, op.at);
    }
  }

  predicate Dead(row: SessionRow, token: Token, now: int) {
    !Holds(row, token) || !IsSessionLive(row, now)
  }

  lemma {:induction false} StaysDead(row: SessionRow, ops: seq<Op>, token: Token, since: int, until: int)
    requires Dead(row, token, since) && Clocked(ops, since, until) && NotReissued(ops, token)
    ensures Dead(Run(row, ops), token, until)
    decreases |ops|
  {
    if ops != [] {
      assert ops[0] in ops;
      StaysDead(After(row, ops[0]), ops[1..], token, ops[0].at, until);
    }
  }

  /** Whatever is rejected once stays rejected, whatever the row held and whoever logs in. */
  lemma {:induction false} RejectedStaysRejected(row: SessionRow, rejected: Op, ops: seq<Op>, op: Op)
    requires (rejected.Console? || rejected.SetUp?) && !Admits(row, rejected)
    requires op.token == rejected.token
    requires Clocked(ops, rejected.at, op.at) && NotReissued(ops, op.token)
    ensures !Admits(Run(After(row, rejected), ops), op)
  {
    StaysDead(After(row, rejected), ops, op.token, rejected.at, op.at);
  }

  /** A row from before the expiry columns, or with stamps that are not dates, admits nobody until there is a new login. */
  lemma {:induction false} UndatedSessionRejected(row: SessionRow, token: Token, ops: seq<Op>, since: int, op: Op)
    requires !row.expiresAt.At? || !row.lastUsedAt.At?
    requires op.token == token && Clocked(ops, since, op.at) && NotReissued(ops, token)
    ensures !Admits(Run(row, ops), op)
  {
    StaysDead(row, ops, token, since, op.at);
  }

  /** A session that is logged out is out for good; logging out with another token changes nothing. */
  lemma {:induction false} LoggedOutForGood(row: SessionRow, token: Token, at: int, ops: seq<Op>, op: Op)
    requires op.token == token && Clocked(ops, at, op.at) && NotReissued(ops, token)
    ensures !Admits(Run(After(row, Logout(token, at)), ops), op)
    ensures !Holds(row, token) ==> After(row, Logout(token, at)) == row
  {
    StaysDead(After(row, Logout(token, at)), ops, token, at, op.at);
  }
}
