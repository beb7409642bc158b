/**
 * One child's rows in the worker's store, and what each SQL statement or batch
 * does to them.
 */
module PolicyTables {
  import opened Common
  import opened Queries
  import opened Ordering
  import opened PolicyModels
  import opened RuleExpiry

  datatype ChildRow = ChildRow(
    version: nat, ageBand: AgeBand, timezone: string, safeSearch: bool, youtubeRestricted: bool, paused: bool)

  datatype ScheduleRow = ScheduleRow(id: string, schedule: CategorySchedule)
  datatype RuleRow = RuleRow(id: string, rule: DomainRule)
  datatype Status = Pending | Approved | Denied
  datatype Duration = Session | Hour | Day | Permanent | Deny
  datatype RequestRow = RequestRow(domain: string, status: Status, requestedAt: int)

  /** `rules` is kept in domain order, the order every query asks for. */
  datatype Tables = Tables(
    child: ChildRow, categories: map<Category, bool>, schedules: seq<ScheduleRow>,
    rules: seq<RuleRow>, requests: map<string, RequestRow>)

  const CATEGORY_COUNT := 10

  /** The categories in the order in which policies list them. */
  function CategoryAt(i: nat): Category
    requires i < CATEGORY_COUNT
  {
    if i == 0 then Adult else if i == 1 then Anime else if i == 2 then Bypass else if i == 3 then Drugs
    else if i == 4 then Gambling else if i == 5 then Gaming else if i == 6 then Piracy
    else if i == 7 then Social else if i == 8 then Streaming else Threats
  }

  function CategoryRank(c: Category): (i: nat)
    ensures i < CATEGORY_COUNT && CategoryAt(i) == c
  {
    match c
    case Adult => 0 case Anime => 1 case Bypass => 2 case Drugs => 3 case Gambling => 4
    case Gaming => 5 case Piracy => 6 case Social => 7 case Streaming => 8 case Threats => 9
  }

  function CategoryName(c: Category): string {
    match c
    case Adult => "adult" case Anime => "anime" case Bypass => "bypass" case Drugs => "drugs" case Gambling => "gambling"
    case Gaming => "gaming" case Piracy => "piracy" case Social => "social" case Streaming => "streaming" case Threats => "threats"
  }

  /** The rank is the order of the names, which is what ORDER BY category sorts by. */
  lemma {:induction false} RankIsAlphabetical(c: Category, d: Category)
    requires CategoryRank(d) == CategoryRank(c) + 1
    ensures Less(CategoryName(c), CategoryName(d))
  {
    match c
    case Adult => FirstDifference("adult", "anime", 1);
    case Anime => FirstDifference("anime", "bypass", 0);
    case Bypass => FirstDifference("bypass", "drugs", 0);
    case Drugs => FirstDifference("drugs", "gambling", 0);
    case Gambling => FirstDifference("gambling", "gaming", 3);
    case Gaming => FirstDifference("gaming", "piracy", 0);
    case Piracy => FirstDifference("piracy", "social", 0);
    case Social => FirstDifference("social", "streaming", 1);
    case Streaming => FirstDifference("streaming", "threats", 0);
  }

  lemma {:induction false} FirstDifference(a: string, b: string, i: nat)
    requires i < |a| && i < |b| && a[..i] == b[..i] && a[i] < b[i]
    ensures Less(a, b)
  {
    if i > 0 {
      assert a[0] == a[..i][0] == b[..i][0] == b[0];
      assert a[1..][..i - 1] == a[..i][1..] == b[1..][..i - 1];
      FirstDifference(a[1..], b[1..], i - 1);
    }
  }

  const SAFETY: set<Category> := {Threats, Adult, Gambling, Drugs, Piracy, Bypass}

  function Preset(ageBand: AgeBand): set<Category> {
    match ageBand
    case Under10 => SAFETY + {Anime, Social, Gaming, Streaming}
    case Age10To12 => SAFETY + {Anime}
    case Age13To15 => SAFETY
    case Age16To17 => SAFETY
  }

  /** A younger child's preset blocks whatever an older one's does, and every preset the unsafe categories. */
  lemma PresetsNest()
    ensures Preset(Age16To17) == Preset(Age13To15) < Preset(Age10To12) < Preset(Under10)
    ensures Preset(Age16To17) == {Threats, Adult, Gambling, Drugs, Piracy, Bypass}
    ensures Preset(Age10To12) == Preset(Age13To15) + {Anime} && forall c: Category :: c in Preset(Under10)
  {
    forall c: Category ensures c in Preset(Under10) {
      match c
      case Threats => case Adult => case Gambling => case Drugs => case Piracy => case Bypass =>
      case Anime => case Social => case Gaming => case Streaming =>
    }
    assert Anime in Preset(Age10To12) && Social in Preset(Under10);
    assert Anime !in Preset(Age13To15) && Social !in Preset(Age10To12);
  }

  // ---- Statements ------------------------------------------------------------

  function Bumped(t: Tables): Tables {
    t.(child := t.child.(version := t.child.version + 1))
  }

  /** Upsert of one row per category. */
  function AllEnabled(enabled: set<Category>): map<Category, bool> {
    map c: Category | true :: c in enabled
  }

  /** Update of the rows that exist. */
  function ResetEnabled(categories: map<Category, bool>, enabled: set<Category>): map<Category, bool> {
    map c | c in categories :: c in enabled
  }

  function PutPolicy(t: Tables, child: ChildRow, enabled: set<Category>): Tables {
    t.(child := child.(version := t.child.version + 1), categories := AllEnabled(enabled + {Threats}))
  }

  /** Upsert on (child, domain): an existing row keeps its id. */
  function UpsertRule(rules: seq<RuleRow>, row: RuleRow): seq<RuleRow> {
    if rules == [] then [row]
    else if rules[0].rule.domain == row.rule.domain then [rules[0].(rule := row.rule)] + rules[1..]
    else if Less(row.rule.domain, rules[0].rule.domain) then [row] + rules
    else [rules[0]] + UpsertRule(rules[1..], row)
  }

  function OtherThan(id: string): RuleRow -> bool {
    (row: RuleRow) => row.id != id
  }

  function DeleteRule(rules: seq<RuleRow>, id: string): seq<RuleRow> {
    Where(rules, OtherThan(id))
  }

  function DeleteSchedule(schedules: seq<ScheduleRow>, id: string): seq<ScheduleRow> {
    Where(schedules, OtherScheduleThan(id))
  }

  function OtherScheduleThan(id: string): ScheduleRow -> bool {
    (row: ScheduleRow) => row.id != id
  }

  function KeptRow(t: int): RuleRow -> bool {
    (row: RuleRow) => KeptAt(t)(row.rule)
  }

  function PurgeRules(rules: seq<RuleRow>, t: int): seq<RuleRow> {
    Where(rules, KeptRow(t))
  }

  const RETENTION_MS := 30 * 24 * 60 * 60 * 1000

  function PurgeRequests(requests: map<string, RequestRow>, t: int): map<string, RequestRow> {
    map id | id in requests && requests[id].requestedAt >= t - RETENTION_MS :: requests[id]
  }

  const DAY_MS := 24 * 60 * 60 * 1000

  /** Milliseconds to the end of the UTC day, but at least a minute. */
  function EndOfDayMs(now: int): int {
    Max(now - now % DAY_MS + DAY_MS - 1 - now, 60_000)
  }

  function GrantExpiry(duration: Duration, now: int): Option<int> {
    match duration
    case Session => Some(now + 600_000)
    case Hour => Some(now + 3_600_000)
    case Day => Some(now + EndOfDayMs(now))
    case _ => None
  }

  /** The batch of a resolve: guarded status, unguarded allow rule, bump. */
  function Resolve(t: Tables, request: string, domain: string, duration: Duration, ruleId: string, now: int): Tables {
    var requests :=
      if request in t.requests && t.requests[request].status == Pending then
        t.requests[request := t.requests[request].(status := if duration == Deny then Denied else Approved)]
      else t.requests;
    var rules :=
      if duration == Deny then t.rules
      else UpsertRule(t.rules, RuleRow(ruleId, DomainRule(domain, "allow", GrantExpiry(duration, now))));
    Bumped(t.(requests := requests, rules := rules))
  }

  // ---- Reads -----------------------------------------------------------------

  /** SELECT category ... WHERE enabled = 1 ORDER BY category. */
  function EnabledInOrder(categories: map<Category, bool>): seq<Category> {
    EnabledFrom(categories, 0)
  }

  function EnabledFrom(categories: map<Category, bool>, i: nat): seq<Category>
    decreases CATEGORY_COUNT - i
  {
    if i >= CATEGORY_COUNT then []
    else
      var c := CategoryAt(i);
      (if c in categories && categories[c] then [c] else []) + EnabledFrom(categories, i + 1)
  }

  lemma {:induction false} EnabledFromMembers(categories: map<Category, bool>, i: nat, c: Category)
    ensures c in EnabledFrom(categories, i) <==> i <= CategoryRank(c) && c in categories && categories[c]
    decreases CATEGORY_COUNT - i
  {
    if i < CATEGORY_COUNT {
      EnabledFromMembers(categories, i + 1, c);
      RankOfCategoryAt(i);
      if c != CategoryAt(i) { OtherRank(c, i); }
    }
  }

  predicate Ranked(categories: seq<Category>) {
    forall j, k | 0 <= j < k < |categories| :: CategoryRank(categories[j]) < CategoryRank(categories[k])
  }

  lemma RankedCons(first: Category, rest: seq<Category>)
    requires Ranked(rest) && forall c | c in rest :: CategoryRank(first) < CategoryRank(c)
    ensures Ranked([first] + rest)
  {
    var all := [first] + rest;
    forall j, k | 0 <= j < k < |all| ensures CategoryRank(all[j]) < CategoryRank(all[k]) {
      assert all[k] == rest[k - 1];
    }
  }

  lemma {:induction false} EnabledFromLater(categories: map<Category, bool>, i: nat)
    ensures forall c | c in EnabledFrom(categories, i) :: i <= CategoryRank(c)
  {
    forall c | c in EnabledFrom(categories, i) ensures i <= CategoryRank(c) {
      EnabledFromMembers(categories, i, c);
    }
  }

  lemma {:induction false} EnabledFromRanked(categories: map<Category, bool>, i: nat)
    ensures Ranked(EnabledFrom(categories, i))
    decreases CATEGORY_COUNT - i
  {
    if i < CATEGORY_COUNT {
      EnabledFromRanked(categories, i + 1);
      EnabledFromLater(categories, i + 1);
      RankOfCategoryAt(i);
      RankedCons(CategoryAt(i), EnabledFrom(categories, i + 1));
    }
  }

  /** Policies list exactly the categories whose row is enabled. */
  lemma EnabledExact(categories: map<Category, bool>, c: Category)
    ensures c in EnabledInOrder(categories) <==> c in categories && categories[c]
  {
    EnabledFromMembers(categories, 0, c);
  }

  /** Each once, in the order of the names. */
  lemma EnabledRanked(categories: map<Category, bool>)
    ensures Ranked(EnabledInOrder(categories))
  {
    EnabledFromRanked(categories, 0);
  }

  function RuleList(rules: seq<RuleRow>): (r: seq<DomainRule>)
    ensures |r| == |rules|
  {
    if rules == [] then [] else [rules[0].rule] + RuleList(rules[1..])
  }

  predicate HasRule(rows: seq<RuleRow>, rule: DomainRule) {
    exists row :: row in rows && row.rule == rule
  }

  lemma {:induction false} RuleListMembers(rows: seq<RuleRow>, rule: DomainRule)
    ensures rule in RuleList(rows) <==> HasRule(rows, rule)
  {
    if rows != [] {
      RuleListMembers(rows[1..], rule);
      assert rows == [rows[0]] + rows[1..];
    }
  }

  predicate ScheduleBefore(a: CategorySchedule, b: CategorySchedule) {
    CategoryRank(a.category) < CategoryRank(b.category)
    || (a.category == b.category && a.startMinutes < b.startMinutes)
  }

  function InsertSchedule(sorted: seq<CategorySchedule>, s: CategorySchedule): (r: seq<CategorySchedule>)
    ensures |r| == |sorted| + 1
  {
    if sorted == [] || ScheduleBefore(s, sorted[0]) then [s] + sorted
    else [sorted[0]] + InsertSchedule(sorted[1..], s)
  }

  /** ORDER BY category, start_minutes. */
  function ScheduleList(schedules: seq<ScheduleRow>): (r: seq<CategorySchedule>)
    ensures |r| == |schedules|
  {
    if schedules == [] then []
    else InsertSchedule(ScheduleList(schedules[..|schedules| - 1]), schedules[|schedules| - 1].schedule)
  }

  /** The schedules of the rows, each as often as there are rows with it. */
  function ScheduleBag(schedules: seq<ScheduleRow>): multiset<CategorySchedule> {
    if schedules == [] then multiset{}
    else ScheduleBag(schedules[..|schedules| - 1]) + multiset{schedules[|schedules| - 1].schedule}
  }

  predicate InOrder(a: CategorySchedule, b: CategorySchedule) {
    CategoryRank(a.category) < CategoryRank(b.category) || (a.category == b.category && a.startMinutes <= b.startMinutes)
  }

  predicate AllInOrder(sorted: seq<CategorySchedule>) {
    forall i, j | 0 <= i < j < |sorted| :: InOrder(sorted[i], sorted[j])
  }

  lemma SameRank(a: Category, b: Category)
    requires CategoryRank(a) == CategoryRank(b)
    ensures a == b
  {
    assert CategoryAt(CategoryRank(a)) == a;
  }

  lemma InOrderTotal(a: CategorySchedule, b: CategorySchedule)
    ensures if ScheduleBefore(a, b) then InOrder(a, b) else InOrder(b, a)
  {
    if CategoryRank(a.category) == CategoryRank(b.category) { SameRank(a.category, b.category); }
  }

  lemma InOrderChain(s: CategorySchedule, sorted: seq<CategorySchedule>)
    requires AllInOrder(sorted) && sorted != [] && InOrder(s, sorted[0])
    ensures AllInOrder([s] + sorted)
  {
    var all := [s] + sorted;
    forall i, j | 0 <= i < j < |all| ensures InOrder(all[i], all[j]) {
      assert all[j] == sorted[j - 1] && (i > 0 ==> all[i] == sorted[i - 1]);
    }
  }

  lemma {:induction false} InsertInOrder(sorted: seq<CategorySchedule>, s: CategorySchedule)
    requires AllInOrder(sorted)
    ensures AllInOrder(InsertSchedule(sorted, s)) && multiset(InsertSchedule(sorted, s)) == multiset(sorted) + multiset{s}
    ensures sorted != [] ==> InsertSchedule(sorted, s)[0] == s || InsertSchedule(sorted, s)[0] == sorted[0]
  {
    if sorted == [] {
    } else {
      InOrderTotal(s, sorted[0]);
      if ScheduleBefore(s, sorted[0]) {
        InOrderChain(s, sorted);
      } else {
        var head, rest := sorted[0], sorted[1..];
        assert sorted == [head] + rest;
        InsertInOrder(rest, s);
        InOrderChain(head, InsertSchedule(rest, s));
      }
    }
  }

  /** Policies list every schedule, ordered by category and start. */
  lemma {:induction false} SchedulesExact(schedules: seq<ScheduleRow>)
    ensures multiset(ScheduleList(schedules)) == ScheduleBag(schedules) && AllInOrder(ScheduleList(schedules))
  {
    if schedules != [] {
      var last := |schedules| - 1;
      SchedulesExact(schedules[..last]);
      InsertInOrder(ScheduleList(schedules[..last]), schedules[last].schedule);
    }
  }

  /** The policy that one instantaneous look at the tables would give. */
  function SnapshotPolicy(t: Tables, listVersion: string, now: int): Policy {
    Policy(t.child.version, t.child.ageBand, t.child.timezone, EnabledInOrder(t.categories), ScheduleList(t.schedules),
           LiveRules(RuleList(t.rules), now), t.child.safeSearch, t.child.youtubeRestricted, t.child.paused, listVersion, now)
  }

  // ---- Facts about the rule rows ----------------------------------------------

  function Domains(rules: seq<RuleRow>): (r: seq<string>)
    ensures |r| == |rules|
    ensures forall i | 0 <= i < |r| :: r[i] == rules[i].rule.domain
  {
    seq(|rules|, i requires 0 <= i < |rules| => rules[i].rule.domain)
  }

  lemma DomainsCons(row: RuleRow, rest: seq<RuleRow>)
    ensures Domains([row] + rest) == [row.rule.domain] + Domains(rest)
  {
  }

  lemma {:induction false} UpsertDomains(rules: seq<RuleRow>, row: RuleRow, d: string)
    ensures d in Domains(UpsertRule(rules, row)) <==> d in Domains(rules) || d == row.rule.domain
  {
    if rules == [] {
      DomainsCons(row, []);
      assert [row] + [] == UpsertRule(rules, row);
    } else {
      var head, rest := rules[0], rules[1..];
      assert rules == [head] + rest;
      DomainsCons(head, rest);
      if head.rule.domain == row.rule.domain {
        DomainsCons(head.(rule := row.rule), rest);
      } else if Less(row.rule.domain, head.rule.domain) {
        DomainsCons(row, rules);
      } else {
        UpsertDomains(rest, row, d);
        DomainsCons(head, UpsertRule(rest, row));
      }
    }
  }

  /** The row of the domain gets the new rule and keeps its id; every other row stays. */
  lemma {:induction false} UpsertRows(rules: seq<RuleRow>, row: RuleRow, other: RuleRow)
    requires Ascending(Domains(rules))
    ensures other.rule.domain != row.rule.domain ==> (other in UpsertRule(rules, row) <==> other in rules)
    ensures other.rule.domain == row.rule.domain && other in UpsertRule(rules, row) ==>
              other.rule == row.rule && (row.rule.domain !in Domains(rules) ==> other.id == row.id)
    ensures other in rules && other.rule.domain == row.rule.domain ==> other.(rule := row.rule) in UpsertRule(rules, row)
  {
    if rules != [] {
      var head, rest := rules[0], rules[1..];
      assert rules == [head] + rest;
      DomainsCons(head, rest);
      AscendingTail(Domains(rules));
      assert Domains(rules)[1..] == Domains(rest);
      if head.rule.domain == row.rule.domain {
        NotBehind(rules, 0, row.rule.domain);
      } else if Less(row.rule.domain, head.rule.domain) {
        NotAtAll(rules, row.rule.domain);
      } else {
        UpsertRows(rest, row, other);
        assert UpsertRule(rules, row) == [head] + UpsertRule(rest, row);
      }
    }
  }

  lemma {:induction false} UpsertHas(rules: seq<RuleRow>, row: RuleRow)
    requires Ascending(Domains(rules))
    ensures HasRule(UpsertRule(rules, row), row.rule)
  {
    UpsertDomains(rules, row, row.rule.domain);
    var after := UpsertRule(rules, row);
    var i :| 0 <= i < |after| && Domains(after)[i] == row.rule.domain;
    UpsertRows(rules, row, after[i]);
    assert after[i] in after;
  }

  lemma NotBehind(rules: seq<RuleRow>, i: nat, domain: string)
    requires Ascending(Domains(rules)) && i < |rules| && rules[i].rule.domain == domain
    ensures forall j | i < j < |rules| :: rules[j].rule.domain != domain
  {
    forall j | i < j < |rules| ensures rules[j].rule.domain != domain {
      assert Less(Domains(rules)[i], Domains(rules)[j]);
      LessIrreflexive(domain);
    }
  }

  lemma {:induction false} NotAtAll(rules: seq<RuleRow>, domain: string)
    requires Ascending(Domains(rules)) && rules != [] && Less(domain, rules[0].rule.domain)
    ensures forall j | 0 <= j < |rules| :: rules[j].rule.domain != domain
  {
    forall j | 0 <= j < |rules| ensures rules[j].rule.domain != domain {
      LessIrreflexive(domain);
      if j > 0 && rules[j].rule.domain == domain {
        assert Less(Domains(rules)[0], Domains(rules)[j]);
        LessTransitive(domain, rules[0].rule.domain, domain);
      }
    }
  }

  /** The uniqueness rule on (child, domain) and the query order are kept by upserts. */
  lemma {:induction false} UpsertAscending(rules: seq<RuleRow>, row: RuleRow)
    requires Ascending(Domains(rules))
    ensures Ascending(Domains(UpsertRule(rules, row)))
  {
    var d := row.rule.domain;
    if rules == [] {
    } else {
      AscendingTail(Domains(rules));
      assert Domains(rules)[1..] == Domains(rules[1..]);
      var head := rules[0].rule.domain;
      if head == d {
        assert Domains(UpsertRule(rules, row)) == [d] + Domains(rules[1..]);
        AscendingCons(d, Domains(rules[1..]));
      } else if Less(d, head) {
        assert Domains(UpsertRule(rules, row)) == [d] + Domains(rules);
        forall e | e in Domains(rules) ensures Less(d, e) {
          if e != head {
            assert Domains(rules) == [head] + Domains(rules[1..]);
            LessTransitive(d, head, e);
          }
        }
        AscendingCons(d, Domains(rules));
      } else {
        UpsertAscending(rules[1..], row);
        LessTotal(d, head);
        forall e | e in Domains(UpsertRule(rules[1..], row)) ensures Less(head, e) {
          UpsertDomains(rules[1..], row, e);
        }
        assert Domains(UpsertRule(rules, row)) == [head] + Domains(UpsertRule(rules[1..], row));
        AscendingCons(head, Domains(UpsertRule(rules[1..], row)));
      }
    }
  }

  lemma {:induction false} WhereAscending(rules: seq<RuleRow>, keep: RuleRow -> bool)
    requires Ascending(Domains(rules))
    ensures Ascending(Domains(Where(rules, keep)))
  {
    if rules != [] {
      AscendingTail(Domains(rules));
      assert Domains(rules)[1..] == Domains(rules[1..]);
      WhereAscending(rules[1..], keep);
      var rest := Where(rules[1..], keep);
      if keep(rules[0]) {
        DomainsCons(rules[0], rest);
        forall e | e in Domains(rest) ensures Less(rules[0].rule.domain, e) {
          var i :| 0 <= i < |rest| && e == rest[i].rule.domain;
          assert rest[i] in rules[1..];
          var j :| 0 <= j < |rules[1..]| && rules[1..][j] == rest[i];
          assert Domains(rules[1..])[j] == e;
        }
        AscendingCons(rules[0].rule.domain, Domains(rest));
      }
    }
  }

  /** Purging rows is purging rules. */
  lemma {:induction false} PurgeRuleList(rules: seq<RuleRow>, t: int)
    ensures RuleList(PurgeRules(rules, t)) == PurgedRules(RuleList(rules), t)
  {
    if rules != [] {
      PurgeRuleList(rules[1..], t);
      assert RuleList(rules)[1..] == RuleList(rules[1..]);
      if KeptAt(t)(rules[0].rule) {
        assert PurgeRules(rules, t) == [rules[0]] + PurgeRules(rules[1..], t);
        assert PurgeRules(rules, t)[1..] == PurgeRules(rules[1..], t);
      }
    }
  }

  /** What the nightly batch leaves of the tables. */
  function Purged(t: Tables, now: int): Tables {
    t.(rules := PurgeRules(t.rules, now), requests := PurgeRequests(t.requests, now))
  }

  lemma PurgeMembers(rules: seq<RuleRow>, now: int, row: RuleRow)
    ensures row in PurgeRules(rules, now) <==> row in rules && !(row.rule.expiresAt.Some? && row.rule.expiresAt.value < now)
  {
    WhereMembers(rules, KeptRow(now), row);
    assert KeptRow(now)(row) == KeptAt(now)(row.rule);
    assert KeptAt(now)(row.rule) == (row.rule.expiresAt.None? || row.rule.expiresAt.value >= now);
  }

  /** The purge shows in no policy of any later instant. */
  lemma PurgeIsInvisible(t: Tables, now: int, at: int, list: string)
    requires now <= at
    ensures SnapshotPolicy(Purged(t, now), list, at) == SnapshotPolicy(t, list, at)
  {
    PurgeRuleList(t.rules, now);
    LiveTwice(RuleList(t.rules), now, at);
  }

  // ---- The tables, changed in place ----------------------------------------------

  /** The values written so far by a loop over the categories. */
  predicate WrittenUpTo(categories: map<Category, bool>, enabled: set<Category>, n: nat) {
    forall c | c in categories && CategoryRank(c) < n :: categories[c] == (c in enabled)
  }

  lemma RankOfCategoryAt(i: nat)
    requires i < CATEGORY_COUNT
    ensures CategoryRank(CategoryAt(i)) == i
  {
  }

  lemma OtherRank(c: Category, i: nat)
    requires i < CATEGORY_COUNT && c != CategoryAt(i)
    ensures CategoryRank(c) != i
  {
  }

  /** One child's rows. Each handler of the parent routes, run without interruption. */
  class ChildStore {
    var child: ChildRow
    var categories: map<Category, bool>
    var schedules: seq<ScheduleRow>
    var rules: seq<RuleRow>
    var requests: map<string, RequestRow>

    function Contents(): Tables
      reads this
    {
      Tables(child, categories, schedules, rules, requests)
    }

    constructor (row: ChildRow)
      ensures Contents() == Tables(row, map[], [], [], map[])
    {
      child, categories, schedules, rules, requests := row, map[], [], [], map[];
    }

    method IncrementPolicy()
      modifies this`child
      ensures Contents() == Bumped(old(Contents()))
    {
      child := child.(version := child.version + 1);
    }

    /** createDefaultCategories, and the upserts of a policy update: one statement per category. */
    method WriteCategories(enabled: set<Category>)
      modifies this`categories
      ensures categories == AllEnabled(enabled)
    {
      for i := 0 to CATEGORY_COUNT
        invariant forall c: Category :: CategoryRank(c) < i ==> c in categories
        invariant WrittenUpTo(categories, enabled, i)
      {
        var c := CategoryAt(i);
        RankOfCategoryAt(i);
        forall d: Category | d != c ensures CategoryRank(d) != i { OtherRank(d, i); }
        categories := categories[c := c in enabled];
      }
    }

    /** The updates of a preset reset: rows that do not exist stay absent. */
    method UpdateCategories(enabled: set<Category>)
      modifies this`categories
      ensures categories == ResetEnabled(old(categories), enabled)
    {
      for i := 0 to CATEGORY_COUNT
        invariant categories.Keys == old(categories).Keys
        invariant WrittenUpTo(categories, enabled, i)
      {
        var c := CategoryAt(i);
        RankOfCategoryAt(i);
        forall d: Category | d != c ensures CategoryRank(d) != i { OtherRank(d, i); }
        if c in categories { categories := categories[c := c in enabled]; }
      }
    }

    /** PUT /children/:id/policy: one batch. */
    method UpdatePolicy(settings: ChildRow, enabled: set<Category>)
      modifies this
      ensures Contents() == PutPolicy(old(Contents()), settings, enabled)
      ensures child == settings.(version := old(child).version + 1)
      ensures forall c: Category :: c in categories && (categories[c] <==> c in enabled || c == Threats)
      ensures schedules == old(schedules) && rules == old(rules) && requests == old(requests)
    {
      child := settings.(version := child.version + 1);
      WriteCategories(enabled + {Threats});
    }

    /** POST /children/:id/reset-preset: content first, version after. */
    method ResetPreset()
      modifies this
      ensures var t := old(Contents());
              Contents() == Bumped(t.(categories := ResetEnabled(t.categories, Preset(t.child.ageBand))))
      ensures child == old(child).(version := old(child).version + 1)
      ensures forall c :: c in categories <==> c in old(categories)
      ensures forall c | c in categories :: categories[c] <==> c in Preset(old(child).ageBand)
      ensures schedules == old(schedules) && rules == old(rules) && requests == old(requests)
    {
      UpdateCategories(Preset(child.ageBand));
      IncrementPolicy();
    }

    method AddSchedule(row: ScheduleRow)
      modifies this
      ensures Contents() == Bumped(old(Contents()).(schedules := old(schedules) + [row]))
    {
      schedules := schedules + [row];
      IncrementPolicy();
    }

    method RemoveSchedule(id: string)
      modifies this
      ensures Contents() == Bumped(old(Contents()).(schedules := DeleteSchedule(old(schedules), id)))
      ensures forall row :: row in schedules <==> row in old(schedules) && row.id != id
    {
      forall row ensures row in DeleteSchedule(schedules, id) <==> row in schedules && row.id != id {
        WhereMembers(schedules, OtherScheduleThan(id), row);
      }
      schedules := DeleteSchedule(schedules, id);
      IncrementPolicy();
    }

    method AddRule(row: RuleRow)
      modifies this
      ensures Contents() == Bumped(old(Contents()).(rules := UpsertRule(old(rules), row)))
      ensures Ascending(Domains(old(rules))) ==> Ascending(Domains(rules))
    {
      if Ascending(Domains(rules)) { UpsertAscending(rules, row); }
      rules := UpsertRule(rules, row);
      IncrementPolicy();
    }

    method RemoveRule(id: string)
      modifies this
      ensures Contents() == Bumped(old(Contents()).(rules := DeleteRule(old(rules), id)))
      ensures Ascending(Domains(old(rules))) ==> Ascending(Domains(rules))
      ensures forall row :: row in rules <==> row in old(rules) && row.id != id
    {
      forall row ensures row in DeleteRule(rules, id) <==> row in rules && row.id != id {
        WhereMembers(rules, OtherThan(id), row);
      }
      if Ascending(Domains(rules)) { WhereAscending(rules, OtherThan(id)); }
      rules := DeleteRule(rules, id);
      IncrementPolicy();
    }

    /** POST /requests/:id/resolve: the lookup, then the batch. The answers are the source's status codes. */
    method ResolveRequest(request: string, duration: Duration, ruleId: string, now: int) returns (status: int)
      modifies this
      ensures status == if request !in old(requests) then 404
                        else if old(requests)[request].status != Pending then 409 else 200
      ensures Contents() == if status == 200 then Resolve(old(Contents()), request, old(requests)[request].domain, duration, ruleId, now)
                            else old(Contents())
      ensures status == 200 ==>
                && request in requests && requests[request].status == (if duration == Deny then Denied else Approved)
                && (forall id | id != request :: (id in requests <==> id in old(requests)) && (id in requests ==> requests[id] == old(requests)[id]))
                && child == old(child).(version := old(child).version + 1)
                && (duration == Deny ==> rules == old(rules))
    {
      if request !in requests { return 404; }
      var row := requests[request];
      if row.status != Pending { return 409; }
      requests := requests[request := row.(status := if duration == Deny then Denied else Approved)];
      if duration != Deny {
        rules := UpsertRule(rules, RuleRow(ruleId, DomainRule(row.domain, "allow", GrantExpiry(duration, now))));
      }
      IncrementPolicy();
      return 200;
    }

    /**
     * The nightly batch, as far as it touches these tables: exactly the expired rules and
     * the old requests go, and no policy built from now on is different for it.
     */
    method PurgeExpired(now: int)
      modifies this
      ensures Contents() == Purged(old(Contents()), now)
      ensures forall row :: row in rules <==> row in old(rules) && !(row.rule.expiresAt.Some? && row.rule.expiresAt.value < now)
      ensures forall id :: id in requests <==> id in old(requests) && old(requests)[id].requestedAt >= now - RETENTION_MS
      ensures forall at, list | now <= at :: SnapshotPolicy(Contents(), list, at) == SnapshotPolicy(old(Contents()), list, at)
    {
      ghost var before := Contents();
      rules := PurgeRules(rules, now);
      requests := PurgeRequests(requests, now);
      forall row ensures row in rules <==> row in old(rules) && !(row.rule.expiresAt.Some? && row.rule.expiresAt.value < now) {
        PurgeMembers(old(rules), now, row);
      }
      forall at, list: string | now <= at ensures SnapshotPolicy(Purged(before, now), list, at) == SnapshotPolicy(before, list, at) {
        PurgeIsInvisible(before, now, at, list);
      }
    }

    /** buildPolicy without interruption: the policy of that moment. */
    method BuildPolicy(listVersion: string, now: int) returns (policy: Policy)
      ensures policy == SnapshotPolicy(Contents(), listVersion, now)
      ensures policy.version == child.version && policy.ageBand == child.ageBand && policy.timezone == child.timezone
      ensures policy.safeSearch == child.safeSearch && policy.youtubeRestricted == child.youtubeRestricted
      ensures policy.paused == child.paused && policy.listVersion == listVersion && policy.generatedAt == now
      ensures forall c :: c in policy.enabledCategories <==> c in categories && categories[c]
      ensures Ranked(policy.enabledCategories)
      ensures multiset(policy.schedules) == ScheduleBag(schedules) && AllInOrder(policy.schedules)
      ensures forall rule :: rule in policy.domainRules <==> HasRule(rules, rule) && (rule.expiresAt.None? || now < rule.expiresAt.value)
    {
      forall rule ensures rule in LiveRules(RuleList(rules), now) <==> HasRule(rules, rule) && (rule.expiresAt.None? || now < rule.expiresAt.value) {
        WhereMembers(RuleList(rules), LiveAt(now), rule);
        RuleListMembers(rules, rule);
      }
      forall c ensures c in EnabledInOrder(categories) <==> c in categories && categories[c] { EnabledExact(categories, c); }
      EnabledRanked(categories);
      SchedulesExact(schedules);
      var row := child;
      var enabled := EnabledInOrder(categories);
      var windows := ScheduleList(schedules);
      var live := LiveRules(RuleList(rules), now);
      policy := Policy(row.version, row.ageBand, row.timezone, enabled, windows, live,
                       row.safeSearch, row.youtubeRestricted, row.paused, listVersion, now);
    }
  }
}
