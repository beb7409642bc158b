/**
 * The account ladder: sign-up gives a PIN and a session, the session links an
 * authenticator, and only a row with both reaches the console. The routes run one at
 * a time; password verification and authenticator codes are arbitrary functions.
 */
module AccountLadder {
  import opened Common
  import opened Sessions

  type Id = nat

  datatype Account = Account(
    email: string, password: Option<string>, recovery: Option<string>, totp: Option<string>, session: SessionRow)

  type Accounts = map<Id, Account>

  /** Password against stored record; authenticator secret and code at an instant. */
  datatype Oracle = Oracle(verify: (string, string) -> bool, accepts: (string, string, int) -> bool)

  const FAMILY_EMAIL := "parent@family.local"

  /** What a credential route writes besides the session. */
  datatype Credentials = Credentials(password: string, recovery: string)

  /**
   * Requests. `id` is the row that the route's query finds or, when there is none, the
   * fresh id it inserts. Tokens are the random ones that the server mints.
   */
  datatype Op =
    | SignUp(id: Id, email: string, credentials: Credentials, token: Token, at: int)
    | FamilySetUp(id: Id, credentials: Credentials, token: Token, at: int)
    | AccessProvision(id: Id, email: string)
    | LogIn(id: Id, pin: string, rehashed: Option<string>, token: Token, at: int)
    | Recover(id: Id, key: string, credentials: Credentials, token: Token, at: int)
    | ConfirmTotp(id: Id, bearer: Token, secret: string, code: string, at: int)
    | RecoverByTotp(id: Id, code: string, password: string, token: Token, at: int)
    | SignOut(id: Id, bearer: Token)
    | Console(id: Id, bearer: Token, at: int)

  predicate HasEmail(rows: Accounts, email: string) {
    exists id :: id in rows && rows[id].email == email
  }

  predicate IsRowOf(rows: Accounts, id: Id, email: string) {
    id in rows && rows[id].email == email
  }

  predicate AnyPassword(rows: Accounts) {
    exists id :: id in rows && rows[id].password.Some?
  }

  const NO_SESSION := SessionRow(None, Null, Null)

  function Bare(email: string): Account {
    Account(email, None, None, None, NO_SESSION)
  }

  /** The update that sign-up and the family set-up share; it nulls the authenticator. */
  function Attached(account: Account, credentials: Credentials, token: Token, at: int): Account {
    Account(account.email, Some(credentials.password), Some(credentials.recovery), None, NewSession(token, at))
  }

  /** ensureParent */
  function Ensured(rows: Accounts, id: Id, email: string): Accounts {
    if HasEmail(rows, email) || id in rows then rows else rows[id := Bare(email)]
  }

  function SignedUp(rows: Accounts, op: Op): Accounts
    requires op.SignUp?
  {
    if IsRowOf(rows, op.id, op.email) then
      if rows[op.id].password.Some? then rows
      else rows[op.id := Attached(rows[op.id], op.credentials, op.token, op.at)]
    else if HasEmail(rows, op.email) || op.id in rows then rows
    else rows[op.id := Attached(Bare(op.email), op.credentials, op.token, op.at)]
  }

  function FamilySet(rows: Accounts, op: Op): Accounts
    requires op.FamilySetUp?
  {
    if AnyPassword(rows) then rows
    else
      var ensured := Ensured(rows, op.id, FAMILY_EMAIL);
      if IsRowOf(ensured, op.id, FAMILY_EMAIL) then
        ensured[op.id := Attached(ensured[op.id], op.credentials, op.token, op.at)]
      else rows
  }

  predicate PinMatches(rows: Accounts, id: Id, pin: string, oracle: Oracle) {
    id in rows && rows[id].password.Some? && oracle.verify(pin, rows[id].password.value)
  }

  predicate KeyMatches(rows: Accounts, id: Id, key: string) {
    id in rows && rows[id].recovery == Some(key)
  }

  predicate CodeMatches(rows: Accounts, id: Id, code: string, at: int, oracle: Oracle) {
    id in rows && rows[id].totp.Some? && oracle.accepts(rows[id].totp.value, code, at)
  }

  /** requireSession and the bearer lookup of parentAuth: the row whose token this is. */
  predicate BearerIs(rows: Accounts, id: Id, bearer: Token) {
    id in rows && Holds(rows[id].session, bearer)
  }

  predicate Confirms(rows: Accounts, op: Op, oracle: Oracle)
    requires op.ConfirmTotp?
  {
    BearerIs(rows, op.id, op.bearer) && IsSessionLive(rows[op.id].session, op.at)
    && rows[op.id].totp.None? && oracle.accepts(op.secret, op.code, op.at)
  }

  /** The console gate after the bearer path. */
  predicate Admitted(rows: Accounts, op: Op) {
    op.Console? && BearerIs(rows, op.id, op.bearer) && IsSessionLive(rows[op.id].session, op.at)
    && !(rows[op.id].password.Some? && rows[op.id].totp.None?)
  }

  function AfterRequest(rows: Accounts, op: Op, oracle: Oracle): Accounts {
    match op
    case SignUp(_, _, _, _, _) => SignedUp(rows, op)
    case FamilySetUp(_, _, _, _) => FamilySet(rows, op)
    case AccessProvision(id, email) => Ensured(rows, id, email)
    case LogIn(id, pin, rehashed, token, at) =>
      if PinMatches(rows, id, pin, oracle) then
        rows[id := rows[id].(password := if rehashed.Some? then rehashed else rows[id].password, session := NewSession(token, at))]
      else rows
    case Recover(id, key, credentials, token, at) =>
      if KeyMatches(rows, id, key) then
        rows[id := rows[id].(password := Some(credentials.password), recovery := Some(credentials.recovery), session := NewSession(token, at))]
      else rows
    case ConfirmTotp(id, _, secret, _, _) =>
      if Confirms(rows, op, oracle) then rows[id := rows[id].(totp := Some(secret))] else rows
    case RecoverByTotp(id, code, password, token, at) =>
      if CodeMatches(rows, id, code, at, oracle) then
        rows[id := rows[id].(password := Some(password), session := NewSession(token, at))]
      else rows
    case SignOut(id, bearer) =>
      if BearerIs(rows, id, bearer) then rows[id := rows[id].(session := Cleared(rows[id].session))] else rows
    case Console(id, bearer, at) =>
      if BearerIs(rows, id, bearer) then
        rows[id := rows[id].(session := Sessions.After(rows[id].session, Sessions.Console(bearer, at)))]
      else rows
  }

  /** The parents table, with one method for each route that writes it. */
  class ParentsTable {
    var rows: Accounts

    constructor ()
      ensures rows == map[]
    {
      rows := map[];
    }

    method IssueSession(id: Id, token: Token, at: int)
      modifies this
      ensures rows == if id in old(rows) then old(rows)[id := old(rows)[id].(session := NewSession(token, at))] else old(rows)
    {
      if id in rows { rows := rows[id := rows[id].(session := NewSession(token, at))]; }
    }

    method Provision(op: Op, oracle: Oracle) returns (taken: bool)
      requires op.SignUp?
      modifies this
      ensures rows == AfterRequest(old(rows), op, oracle)
      ensures taken <==> IsRowOf(old(rows), op.id, op.email) && old(rows)[op.id].password.Some?
      ensures taken ==> rows == old(rows)
      ensures !taken && (IsRowOf(old(rows), op.id, op.email) || (op.id !in old(rows) && !HasEmail(old(rows), op.email))) ==>
                rows == old(rows)[op.id := Account(op.email, Some(op.credentials.password), Some(op.credentials.recovery), None, NewSession(op.token, op.at))]
    {
      var existing := IsRowOf(rows, op.id, op.email);
      if existing && rows[op.id].password.Some? { return true; }
      if existing {
        rows := rows[op.id := Attached(rows[op.id], op.credentials, op.token, op.at)];
      } else if !HasEmail(rows, op.email) && op.id !in rows {
        rows := rows[op.id := Attached(Bare(op.email), op.credentials, op.token, op.at)];
      }
      return false;
    }

    method EnsureParent(id: Id, email: string)
      modifies this
      ensures rows == Ensured(old(rows), id, email)
      ensures HasEmail(rows, email) || (id in old(rows) && rows == old(rows))
      ensures forall other | other in old(rows) :: other in rows && rows[other] == old(rows)[other]
    {
      if HasEmail(rows, email) { return; }
      if id !in rows {
        rows := rows[id := Bare(email)];
        assert rows[id].email == email;
      }
    }

    method SetUpFamily(op: Op, oracle: Oracle)
      requires op.FamilySetUp?
      requires IsRowOf(Ensured(rows, op.id, FAMILY_EMAIL), op.id, FAMILY_EMAIL)
      modifies this
      ensures rows == AfterRequest(old(rows), op, oracle)
      ensures AnyPassword(old(rows)) ==> rows == old(rows)
      ensures !AnyPassword(old(rows)) ==>
                forall id | id in rows && rows[id].password.Some? :: id == op.id && OnLadder(rows[id]) && Holds(rows[id].session, op.token)
    {
      if AnyPassword(rows) { return; }
      EnsureParent(op.id, FAMILY_EMAIL);
      rows := rows[op.id := Attached(rows[op.id], op.credentials, op.token, op.at)];
    }

    /** Login: upgrade a weak record first, then issue the session. */
    method Login(op: Op, oracle: Oracle) returns (ok: bool)
      requires op.LogIn?
      modifies this
      ensures rows == AfterRequest(old(rows), op, oracle)
      ensures ok <==> op.id in old(rows) && old(rows)[op.id].password.Some? && oracle.verify(op.pin, old(rows)[op.id].password.value)
      ensures !ok ==> rows == old(rows)
      ensures ok ==> var a := old(rows)[op.id];
                     rows == old(rows)[op.id := a.(password := if op.rehashed.Some? then op.rehashed else a.password, session := NewSession(op.token, op.at))]
    {
      ok := PinMatches(rows, op.id, op.pin, oracle);
      if !ok { return; }
      if op.rehashed.Some? { rows := rows[op.id := rows[op.id].(password := op.rehashed)]; }
      IssueSession(op.id, op.token, op.at);
    }

    /** Forgotten PIN: the session is issued before the new PIN is stored. */
    method RecoverWithCode(op: Op, oracle: Oracle) returns (ok: bool)
      requires op.RecoverByTotp?
      modifies this
      ensures rows == AfterRequest(old(rows), op, oracle)
      ensures ok <==> op.id in old(rows) && old(rows)[op.id].totp.Some? && oracle.accepts(old(rows)[op.id].totp.value, op.code, op.at)
      ensures !ok ==> rows == old(rows)
      ensures ok ==> rows == old(rows)[op.id := old(rows)[op.id].(password := Some(op.password), session := NewSession(op.token, op.at))]
    {
      ok := CodeMatches(rows, op.id, op.code, op.at, oracle);
      if !ok { return; }
      IssueSession(op.id, op.token, op.at);
      rows := rows[op.id := rows[op.id].(password := Some(op.password))];
    }

    /** Paper key: PIN, key and session are replaced together. */
    method RecoverWithKey(op: Op, oracle: Oracle) returns (ok: bool)
      requires op.Recover?
      modifies this
      ensures rows == AfterRequest(old(rows), op, oracle)
      ensures ok <==> op.id in old(rows) && old(rows)[op.id].recovery == Some(op.key)
      ensures !ok ==> rows == old(rows)
      ensures ok ==> rows[op.id] == old(rows)[op.id].(password := Some(op.credentials.password),
                                                      recovery := Some(op.credentials.recovery), session := NewSession(op.token, op.at))
      ensures forall id | id in rows && id != op.id :: id in old(rows) && rows[id] == old(rows)[id]
    {
      if op.id !in rows || rows[op.id].recovery != Some(op.key) { return false; }
      rows := rows[op.id := rows[op.id].(password := Some(op.credentials.password), recovery := Some(op.credentials.recovery),
                                         session := NewSession(op.token, op.at))];
      return true;
    }

    method Confirm(op: Op, oracle: Oracle) returns (ok: bool)
      requires op.ConfirmTotp?
      modifies this
      ensures rows == AfterRequest(old(rows), op, oracle)
      ensures ok <==> op.id in old(rows) && old(rows)[op.id].session.token == Some(op.bearer) && IsSessionLive(old(rows)[op.id].session, op.at)
                      && old(rows)[op.id].totp.None? && oracle.accepts(op.secret, op.code, op.at)
      ensures rows == if ok then old(rows)[op.id := old(rows)[op.id].(totp := Some(op.secret))] else old(rows)
    {
      if !BearerIs(rows, op.id, op.bearer) || !IsSessionLive(rows[op.id].session, op.at) { return false; }
      if rows[op.id].totp.Some? { return false; }
      if !oracle.accepts(op.secret, op.code, op.at) { return false; }
      rows := rows[op.id := rows[op.id].(totp := Some(op.secret))];
      return true;
    }
  }

  function Run(rows: Accounts, ops: seq<Op>, oracle: Oracle): Accounts
    decreases |ops|
  {
    if ops == [] then rows else Run(AfterRequest(rows, ops[0], oracle), ops[1..], oracle)
  }

  predicate Mints(op: Op) {
    op.SignUp? || op.FamilySetUp? || op.LogIn? || op.Recover? || op.RecoverByTotp?
  }

  /** Server tokens are random: never one that a row holds, nor minted twice in the run. */
  predicate FreshTokens(rows: Accounts, ops: seq<Op>) {
    && (forall op, id | op in ops && Mints(op) && id in rows :: !Holds(rows[id].session, op.token))
    && (forall i, j | 0 <= i < j < |ops| && Mints(ops[i]) && Mints(ops[j]) :: ops[i].token != ops[j].token)
  }

  // ---- The ladder ----------------------------------------------------------------

  /** A session needs a PIN, and so does an authenticator. */
  predicate OnLadder(a: Account) {
    (a.session.token.Some? ==> a.password.Some?) && (a.totp.Some? ==> a.password.Some?)
  }

  predicate Ladder(rows: Accounts) {
    forall id | id in rows :: OnLadder(rows[id])
  }

  /** One row for an address, one row for a token. */
  predicate Unique(rows: Accounts) {
    forall i, j | i in rows && j in rows && i != j ::
      rows[i].email != rows[j].email && (rows[i].session.token.Some? ==> rows[i].session.token != rows[j].session.token)
  }

  /** What may become of a row: once there is a PIN it stays, and an authenticator beside a PIN stays the same. */
  predicate Climbs(a: Account, b: Account) {
    && a.email == b.email
    && (a.password.Some? ==> b.password.Some?)
    && (a.password.Some? && a.totp.Some? ==> b.totp == a.totp)
  }

  lemma StepClimbs(rows: Accounts, op: Op, oracle: Oracle)
    requires Ladder(rows)
    ensures Ladder(AfterRequest(rows, op, oracle))
    ensures forall id | id in rows :: id in AfterRequest(rows, op, oracle) && Climbs(rows[id], AfterRequest(rows, op, oracle)[id])
  {
  }

  lemma {:induction false} RunClimbs(rows: Accounts, ops: seq<Op>, oracle: Oracle, id: Id)
    requires Ladder(rows)
    ensures Ladder(Run(rows, ops, oracle))
    ensures id in rows ==> id in Run(rows, ops, oracle) && Climbs(rows[id], Run(rows, ops, oracle)[id])
    decreases |ops|
  {
    if ops != [] {
      StepClimbs(rows, ops[0], oracle);
      RunClimbs(AfterRequest(rows, ops[0], oracle), ops[1..], oracle, id);
    }
  }

  /** In every run, a live session implies a PIN, and a row with PIN and authenticator keeps both, the same secret. */
  lemma {:induction false} BothRungsStay(rows: Accounts, ops: seq<Op>, oracle: Oracle, id: Id)
    requires Ladder(rows)
    ensures var end := Run(rows, ops, oracle);
            && (id in end && end[id].session.token.Some? ==> end[id].password.Some?)
            && (id in rows && rows[id].password.Some? && rows[id].totp.Some? ==>
                  id in end && end[id].password.Some? && end[id].totp == rows[id].totp)
  {
    RunClimbs(rows, ops, oracle, id);
  }

  /** Every console request that the bearer path admits comes from a row with both. */
  lemma {:induction false} ConsoleNeedsBoth(rows: Accounts, ops: seq<Op>, oracle: Oracle, op: Op)
    requires Ladder(rows)
    ensures var end := Run(rows, ops, oracle);
            Admitted(end, op) ==> end[op.id].password.Some? && end[op.id].totp.Some?
  {
    RunClimbs(rows, ops, oracle, 0);
  }

  // ---- One token -----------------------------------------------------------------

  lemma StepUnique(rows: Accounts, op: Op, oracle: Oracle)
    requires Unique(rows) && FreshTokens(rows, [op])
    ensures Unique(AfterRequest(rows, op, oracle))
  {
    assert op in [op];
    match op
    case SignUp(_, _, _, _, _) => SignUpUnique(rows, op);
    case FamilySetUp(_, _, _, _) => FamilyUnique(rows, op);
    case Console(_, _, _) => ConsoleUnique(rows, op, oracle);
    case _ =>
  }

  lemma ConsoleUnique(rows: Accounts, op: Op, oracle: Oracle)
    requires op.Console? && Unique(rows)
    ensures Unique(AfterRequest(rows, op, oracle))
  {
  }

  lemma SignUpUnique(rows: Accounts, op: Op)
    requires op.SignUp? && Unique(rows) && forall id | id in rows :: !Holds(rows[id].session, op.token)
    ensures Unique(SignedUp(rows, op))
  {
    if op.id !in rows && !HasEmail(rows, op.email) {
      forall id | id in rows ensures rows[id].email != op.email {}
    }
  }

  lemma FamilyUnique(rows: Accounts, op: Op)
    requires op.FamilySetUp? && Unique(rows) && forall id | id in rows :: !Holds(rows[id].session, op.token)
    ensures Unique(FamilySet(rows, op))
  {
  }

  lemma TokensAfter(rows: Accounts, op: Op, oracle: Oracle, id: Id, token: Token)
    requires id in AfterRequest(rows, op, oracle) && Holds(AfterRequest(rows, op, oracle)[id].session, token)
    ensures (id in rows && Holds(rows[id].session, token)) || (Mints(op) && op.token == token)
  {
  }

  lemma StillFresh(rows: Accounts, ops: seq<Op>, oracle: Oracle)
    requires ops != [] && FreshTokens(rows, ops)
    ensures FreshTokens(rows, [ops[0]]) && FreshTokens(AfterRequest(rows, ops[0], oracle), ops[1..])
  {
    var rows' := AfterRequest(rows, ops[0], oracle);
    forall op, id | op in ops[1..] && Mints(op) && id in rows' ensures !Holds(rows'[id].session, op.token) {
      var j :| 0 < j < |ops| && ops[j] == op;
      if Holds(rows'[id].session, op.token) {
        TokensAfter(rows, ops[0], oracle, id, op.token);
      }
    }
  }

  lemma {:induction false} RunUnique(rows: Accounts, ops: seq<Op>, oracle: Oracle)
    requires Unique(rows) && FreshTokens(rows, ops)
    ensures Unique(Run(rows, ops, oracle))
    decreases |ops|
  {
    if ops != [] {
      StillFresh(rows, ops, oracle);
      StepUnique(rows, ops[0], oracle);
      RunUnique(AfterRequest(rows, ops[0], oracle), ops[1..], oracle);
    }
  }

  /** In every run a parent has at most one valid token, and a token at most one parent. */
  lemma {:induction false} OneToken(rows: Accounts, ops: seq<Op>, oracle: Oracle, i: Id, j: Id, a: Token, b: Token)
    requires Unique(rows) && FreshTokens(rows, ops)
    ensures var end := Run(rows, ops, oracle);
            BearerIs(end, i, a) && BearerIs(end, j, b) ==> (i == j <==> a == b)
  {
    RunUnique(rows, ops, oracle);
  }

  // ---- Credentials are needed ------------------------------------------------------

  /** The request proves knowledge of the PIN, the recovery key or the authenticator of this row. */
  predicate Presents(rows: Accounts, op: Op, id: Id, oracle: Oracle) {
    match op
    case LogIn(row, pin, _, _, _) => row == id && id in rows && rows[id].password.Some? && oracle.verify(pin, rows[id].password.value)
    case Recover(row, key, _, _, _) => row == id && id in rows && rows[id].recovery == Some(key)
    case RecoverByTotp(row, code, _, _, at) =>
      row == id && id in rows && rows[id].totp.Some? && oracle.accepts(rows[id].totp.value, code, at)
    case _ => false
  }

  ghost predicate NobodyPresents(rows: Accounts, ops: seq<Op>, id: Id, oracle: Oracle)
    decreases |ops|
  {
    ops == [] || (!Presents(rows, ops[0], id, oracle) && NobodyPresents(AfterRequest(rows, ops[0], oracle), ops[1..], id, oracle))
  }

  /** The credentials are the same, and the session is the same or gone. */
  predicate Untouched(a: Account, b: Account) {
    && b == a.(session := b.session)
    && (b.session.token == a.session.token || b.session.token.None?)
  }

  lemma UntouchedStep(rows: Accounts, op: Op, id: Id, oracle: Oracle)
    requires id in rows && rows[id].password.Some? && rows[id].totp.Some?
    requires !Presents(rows, op, id, oracle)
    ensures id in AfterRequest(rows, op, oracle) && Untouched(rows[id], AfterRequest(rows, op, oracle)[id])
  {
    if op.FamilySetUp? {
      assert AnyPassword(rows);
    }
  }

  /**
   * A finished account changes hands only through one of its own credentials: as long
   * as nobody presents any, its PIN, recovery key and authenticator stay as they are and
   * no new session of it appears, whatever else is requested.
   */
  lemma {:induction false} TakeoverNeedsCredential(rows: Accounts, ops: seq<Op>, id: Id, oracle: Oracle)
    requires id in rows && rows[id].password.Some? && rows[id].totp.Some?
    requires NobodyPresents(rows, ops, id, oracle)
    ensures id in Run(rows, ops, oracle) && Untouched(rows[id], Run(rows, ops, oracle)[id])
    decreases |ops|
  {
    if ops != [] {
      UntouchedStep(rows, ops[0], id, oracle);
      TakeoverNeedsCredential(AfterRequest(rows, ops[0], oracle), ops[1..], id, oracle);
    }
  }

  // ---- What the credentials are good for -----------------------------------------------

  /** The request writes a new PIN record into this row. */
  predicate SetsPin(rows: Accounts, op: Op, id: Id, record: string, oracle: Oracle) {
    match op
    case SignUp(row, email, credentials, _, _) =>
      row == id && credentials.password == record
      && (if id in rows then rows[id].email == email && rows[id].password.None? else !HasEmail(rows, email))
    case Recover(row, key, credentials, _, _) =>
      row == id && credentials.password == record && id in rows && rows[id].recovery == Some(key)
    case RecoverByTotp(row, code, password, _, at) =>
      row == id && password == record && id in rows && rows[id].totp.Some? && oracle.accepts(rows[id].totp.value, code, at)
    case _ => false
  }

  lemma PinIsSet(rows: Accounts, op: Op, id: Id, record: string, oracle: Oracle)
    requires SetsPin(rows, op, id, record, oracle)
    ensures id in AfterRequest(rows, op, oracle) && AfterRequest(rows, op, oracle)[id].password == Some(record)
  {
  }

  lemma PinStaysStep(rows: Accounts, op: Op, id: Id, oracle: Oracle)
    requires id in rows && rows[id].password.Some? && !Presents(rows, op, id, oracle)
    ensures id in AfterRequest(rows, op, oracle) && AfterRequest(rows, op, oracle)[id].password == rows[id].password
    ensures AfterRequest(rows, op, oracle)[id].recovery == rows[id].recovery
  {
    if op.FamilySetUp? {
      assert AnyPassword(rows);
    }
  }

  lemma {:induction false} PinStays(rows: Accounts, ops: seq<Op>, id: Id, oracle: Oracle)
    requires id in rows && rows[id].password.Some? && NobodyPresents(rows, ops, id, oracle)
    ensures id in Run(rows, ops, oracle) && Run(rows, ops, oracle)[id].password == rows[id].password
    decreases |ops|
  {
    if ops != [] {
      PinStaysStep(rows, ops[0], id, oracle);
      PinStays(AfterRequest(rows, ops[0], oracle), ops[1..], id, oracle);
    }
  }

  /**
   * The PIN that was set is the one that logs in: after a sign-up or a recovery, and until
   * somebody presents another credential, a login gets a session if and only if its PIN
   * verifies against the record that was stored then.
   */
  lemma {:induction false} SetPinLogsIn(rows: Accounts, op: Op, ops: seq<Op>, id: Id, record: string, oracle: Oracle,
                                        pin: string, rehashed: Option<string>, token: Token, at: int)
    requires SetsPin(rows, op, id, record, oracle) && NobodyPresents(AfterRequest(rows, op, oracle), ops, id, oracle)
    requires var end := Run(AfterRequest(rows, op, oracle), ops, oracle); id in end ==> !Holds(end[id].session, token)
    ensures var end := Run(AfterRequest(rows, op, oracle), ops, oracle);
            var after := AfterRequest(end, LogIn(id, pin, rehashed, token, at), oracle);
            id in after && (Holds(after[id].session, token) <==> oracle.verify(pin, record))
            && (!oracle.verify(pin, record) ==> after == end)
  {
    PinIsSet(rows, op, id, record, oracle);
    PinStays(AfterRequest(rows, op, oracle), ops, id, oracle);
  }

  /** The ladder can be climbed: a new account reaches the console after linking an authenticator, and not before. */
  lemma LadderCanBeClimbed(rows: Accounts, id: Id, email: string, credentials: Credentials, token: Token, oracle: Oracle,
                           secret: string, code: string, signedUp: int, linked: int, at: int)
    requires id !in rows && !HasEmail(rows, email) && oracle.accepts(secret, code, linked)
    requires signedUp <= linked <= at < signedUp + SESSION_IDLE_MS
    ensures var joined := AfterRequest(rows, SignUp(id, email, credentials, token, signedUp), oracle);
            var done := AfterRequest(joined, ConfirmTotp(id, token, secret, code, linked), oracle);
            && !Admitted(joined, Op.Console(id, token, at)) && Admitted(done, Op.Console(id, token, at))
            && done[id].totp == Some(secret)
  {
  }

  /** A console request that is admitted changes no credential, and the next one within a week less an hour is admitted too. */
  lemma ConsoleStaysOpen(rows: Accounts, id: Id, bearer: Token, at: int, again: int, oracle: Oracle)
    requires Admitted(rows, Op.Console(id, bearer, at)) && at <= again < rows[id].session.expiresAt.ms
    requires again - at < SESSION_IDLE_MS - HOUR_MS
    ensures var after := AfterRequest(rows, Op.Console(id, bearer, at), oracle);
            && id in after && after[id] == rows[id].(session := after[id].session) && Admitted(after, Op.Console(id, bearer, again))
            && forall other | other in rows && other != id :: other in after && after[other] == rows[other]
  {
  }

  // ---- Signing out -----------------------------------------------------------------------

  ghost predicate Nowhere(rows: Accounts, token: Token) {
    forall id | id in rows :: !Holds(rows[id].session, token)
  }

  lemma {:induction false} StaysNowhere(rows: Accounts, ops: seq<Op>, token: Token, oracle: Oracle)
    requires Nowhere(rows, token) && forall op | op in ops && Mints(op) :: op.token != token
    ensures Nowhere(Run(rows, ops, oracle), token)
    decreases |ops|
  {
    if ops != [] {
      assert ops[0] in ops;
      var rows' := AfterRequest(rows, ops[0], oracle);
      forall id | id in rows' ensures !Holds(rows'[id].session, token) {
        if Holds(rows'[id].session, token) { TokensAfter(rows, ops[0], oracle, id, token); }
      }
      StaysNowhere(rows', ops[1..], token, oracle);
    }
  }

  /** A token that has been signed out opens nothing again, and the credentials of its row stay. */
  lemma {:induction false} SignedOutForGood(rows: Accounts, id: Id, bearer: Token, ops: seq<Op>, oracle: Oracle, op: Op)
    requires Unique(rows) && BearerIs(rows, id, bearer)
    requires forall o | o in ops && Mints(o) :: o.token != bearer
    requires op.Console? && op.bearer == bearer
    ensures var out := AfterRequest(rows, SignOut(id, bearer), oracle);
            && out[id] == rows[id].(session := out[id].session)
            && !Admitted(Run(out, ops, oracle), op)
  {
    var out := AfterRequest(rows, SignOut(id, bearer), oracle);
    forall other | other in out ensures !Holds(out[other].session, bearer) {}
    StaysNowhere(out, ops, bearer, oracle);
  }
}
