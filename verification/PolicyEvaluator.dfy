/** The policy a device holds, as the worker sends it. */
module PolicyModels {
  import opened Common

  datatype Category = Threats | Adult | Gambling | Drugs | Piracy | Bypass | Anime | Social | Gaming | Streaming

  datatype AgeBand = Under10 | Age10To12 | Age13To15 | Age16To17

  datatype DomainRule = DomainRule(domain: string, action: string, expiresAt: Option<int>)

  datatype CategorySchedule = CategorySchedule(category: Category, days: seq<int>, startMinutes: int, endMinutes: int)

  datatype Policy = Policy(
    version: int, ageBand: AgeBand, timezone: string,
    enabledCategories: seq<Category>, schedules: seq<CategorySchedule>, domainRules: seq<DomainRule>,
    safeSearch: bool, youtubeRestricted: bool, paused: bool, listVersion: string, generatedAt: int)

  datatype FilterDecision = FilterDecision(blocked: bool, domain: string, category: Option<Category>, reason: string)

  function Allow(domain: string, reason: string): FilterDecision {
    FilterDecision(false, domain, None, reason)
  }

  function Block(domain: string, category: Option<Category>, reason: string): FilterDecision {
    FilterDecision(true, domain, category, reason)
  }

  /** Local day of the week (0 is Sunday) and minute of the day. */
  datatype LocalTime = LocalTime(day: int, minutes: int)

  /** The time-zone table: zone name and instant to local time. */
  type Clock = (string, int) -> LocalTime

  /** Loaded block lists; entries are folded to lower case, as their comparer ignores case. */
  type Lists = map<Category, set<string>>
}

/** The agent's decision for a name, and what it means. */
module PolicyEvaluator {
  import opened Common
  import opened Text
  import opened Queries
  import opened DomainNames
  import opened PolicyModels

  /** The `Where` filter on rules: unexpired and not blank. */
  function Applies(now: int): DomainRule -> bool {
    (rule: DomainRule) => Trim(rule.domain) != "" && (rule.expiresAt.None? || rule.expiresAt.value > now)
  }

  datatype Test = Miss | Hit | Malformed

  /** What the search makes of a rule; normalising a malformed domain raises. */
  function TestRule(rule: DomainRule, domain: string): Test {
    match Normalize(rule.domain)
    case None => Malformed
    case Some(d) => if d in SuffixList(domain) then Hit else Miss
  }

  /** The search stops at a rule that matches or raises. */
  function Stops(domain: string): DomainRule -> bool {
    (rule: DomainRule) => TestRule(rule, domain) != Miss
  }

  function RuleVerdict(rule: DomainRule, domain: string): Option<FilterDecision> {
    if TestRule(rule, domain) == Malformed then None
    else if Lower(rule.action) == "allow" then Some(Allow(domain, "custom_allow"))
    else Some(Block(domain, None, "custom_block"))
  }

  predicate InWindow(schedule: CategorySchedule, local: LocalTime) {
    local.day in schedule.days && schedule.startMinutes <= local.minutes < schedule.endMinutes
  }

  predicate IsInsideAllowedWindow(policy: Policy, category: Category, now: int, clock: Clock) {
    exists i | 0 <= i < |policy.schedules| ::
      policy.schedules[i].category == category && InWindow(policy.schedules[i], clock(policy.timezone, now))
  }

  predicate ListHit(entries: set<string>, domain: string) {
    exists i | 0 <= i < |SuffixList(domain)| :: SuffixList(domain)[i] in entries
  }

  /** The category loop returns at a category for which this holds. */
  function Blocks(policy: Policy, lists: Lists, domain: string, now: int, clock: Clock): Category -> bool {
    (category: Category) =>
      category in lists && ListHit(lists[category], domain) && !IsInsideAllowedWindow(policy, category, now, clock)
  }

  function DecideByCategory(policy: Policy, lists: Lists, domain: string, now: int, clock: Clock): FilterDecision {
    var i := FirstIndex(policy.enabledCategories, Blocks(policy, lists, domain, now, clock));
    if i < |policy.enabledCategories| then Block(domain, Some(policy.enabledCategories[i]), "category")
    else Allow(domain, "allowed")
  }

  /** The decision for a normalised name; None is the exception of a malformed rule. */
  function Decide(policy: Policy, lists: Lists, domain: string, now: int, clock: Clock): Option<FilterDecision> {
    if policy.paused then Some(Block(domain, None, "internet_paused"))
    else
      var rules := Where(policy.domainRules, Applies(now));
      var i := FirstIndex(rules, Stops(domain));
      if i < |rules| then RuleVerdict(rules[i], domain)
      else Some(DecideByCategory(policy, lists, domain, now, clock))
  }

  /** Evaluate; None is the ArgumentException of a malformed name. */
  function Evaluate(policy: Policy, lists: Lists, input: string, now: int, clock: Clock): Option<FilterDecision> {
    match Normalize(input)
    case None => None
    case Some(domain) => Decide(policy, lists, domain, now, clock)
  }

  // ---- The plain meaning -----------------------------------------------------

  /** Live: not expired and not blank. For: malformed, or the name or a parent of it. */
  predicate RuleLive(rule: DomainRule, now: int) {
    Trim(rule.domain) != "" && (rule.expiresAt.Some? ==> now < rule.expiresAt.value)
  }

  predicate RuleFor(rule: DomainRule, domain: string) {
    Normalize(rule.domain).None? || EqualOrParent(Normalize(rule.domain).value, domain)
  }

  predicate Decisive(rule: DomainRule, domain: string, now: int) {
    RuleLive(rule, now) && RuleFor(rule, domain)
  }

  ghost predicate FirstDecisive(rules: seq<DomainRule>, i: nat, domain: string, now: int) {
    i < |rules| && Decisive(rules[i], domain, now)
    && forall j | 0 <= j < i :: !Decisive(rules[j], domain, now)
  }

  ghost predicate NoneDecisive(rules: seq<DomainRule>, domain: string, now: int) {
    forall j | 0 <= j < |rules| :: !Decisive(rules[j], domain, now)
  }

  /** Some entry of the list is the name or a parent of it. */
  ghost predicate Listed(entries: set<string>, domain: string) {
    exists e | e in entries :: EqualOrParent(e, domain)
  }

  /** Some schedule of the category has the child's local day, and its minute from the start up to but not at the end. */
  ghost predicate Scheduled(policy: Policy, category: Category, now: int, clock: Clock) {
    var local := clock(policy.timezone, now);
    exists s | s in policy.schedules ::
      s.category == category && local.day in s.days && s.startMinutes <= local.minutes && local.minutes < s.endMinutes
  }

  ghost predicate Blocking(policy: Policy, lists: Lists, category: Category, domain: string, now: int, clock: Clock) {
    category in lists && Listed(lists[category], domain) && !Scheduled(policy, category, now, clock)
  }

  ghost predicate FirstBlocking(policy: Policy, lists: Lists, i: nat, domain: string, now: int, clock: Clock) {
    i < |policy.enabledCategories| && Blocking(policy, lists, policy.enabledCategories[i], domain, now, clock)
    && forall j | 0 <= j < i :: !Blocking(policy, lists, policy.enabledCategories[j], domain, now, clock)
  }

  ghost predicate NoneBlocking(policy: Policy, lists: Lists, domain: string, now: int, clock: Clock) {
    forall j | 0 <= j < |policy.enabledCategories| ::
      !Blocking(policy, lists, policy.enabledCategories[j], domain, now, clock)
  }

  /** A malformed decisive rule raises; an allow rule allows; any other blocks. */
  ghost predicate SaysRule(rule: DomainRule, domain: string, r: Option<FilterDecision>) {
    if Normalize(rule.domain).None? then r == None
    else if Lower(rule.action) == "allow" then r == Some(Allow(domain, "custom_allow"))
    else r == Some(Block(domain, None, "custom_block"))
  }

  ghost predicate DecidedByRule(policy: Policy, domain: string, now: int, r: Option<FilterDecision>) {
    exists i: nat :: FirstDecisive(policy.domainRules, i, domain, now) && SaysRule(policy.domainRules[i], domain, r)
  }

  ghost predicate DecidedByCategory(policy: Policy, lists: Lists, domain: string, now: int, clock: Clock, r: Option<FilterDecision>) {
    (exists i: nat :: FirstBlocking(policy, lists, i, domain, now, clock)
                      && r == Some(Block(domain, Some(policy.enabledCategories[i]), "category")))
    || (NoneBlocking(policy, lists, domain, now, clock) && r == Some(Allow(domain, "allowed")))
  }

  /**
   * The specification: a paused child gets nothing; otherwise the first decisive
   * rule decides; otherwise the first enabled category that lists the name outside
   * its allowed windows blocks it; otherwise it is allowed.
   */
  ghost predicate IsDecision(policy: Policy, lists: Lists, domain: string, now: int, clock: Clock, r: Option<FilterDecision>) {
    if policy.paused then r == Some(Block(domain, None, "internet_paused"))
    else DecidedByRule(policy, domain, now, r)
         || (NoneDecisive(policy.domainRules, domain, now) && DecidedByCategory(policy, lists, domain, now, clock, r))
  }

  /** Hash lookups along the suffix walk find exactly the listed names. */
  lemma HitIsListed(entries: set<string>, domain: string)
    ensures ListHit(entries, domain) <==> Listed(entries, domain)
  {
    if ListHit(entries, domain) {
      var i :| 0 <= i < |SuffixList(domain)| && SuffixList(domain)[i] in entries;
      SuffixesExact(SuffixList(domain)[i], domain);
    }
    if Listed(entries, domain) {
      var e :| e in entries && EqualOrParent(e, domain);
      SuffixesExact(e, domain);
      assert e in SuffixList(domain);
    }
  }

  lemma WindowIsScheduled(policy: Policy, category: Category, now: int, clock: Clock)
    ensures IsInsideAllowedWindow(policy, category, now, clock) <==> Scheduled(policy, category, now, clock)
  {
    if IsInsideAllowedWindow(policy, category, now, clock) {
      var i :| 0 <= i < |policy.schedules| && policy.schedules[i].category == category
               && InWindow(policy.schedules[i], clock(policy.timezone, now));
      assert policy.schedules[i] in policy.schedules;
    }
  }

  /**
   * One enabled category that lists the name, and one allowed window: the name is blocked
   * on every other day, before the window begins, and from its end on.
   */
  lemma {:induction false} WindowLaw(policy: Policy, lists: Lists, domain: string, now: int, clock: Clock, c: Category, s: CategorySchedule)
    requires !policy.paused && NoneDecisive(policy.domainRules, domain, now)
    requires policy.enabledCategories == [c] && policy.schedules == [s] && s.category == c
    requires c in lists && Listed(lists[c], domain)
    ensures var local, r := clock(policy.timezone, now), Decide(policy, lists, domain, now, clock);
            if local.day !in s.days || local.minutes < s.startMinutes || local.minutes >= s.endMinutes
            then r == Some(Block(domain, Some(c), "category")) else r == Some(Allow(domain, "allowed"))
  {
    DecideMeetsSpec(policy, lists, domain, now, clock);
    var r := Decide(policy, lists, domain, now, clock);
    NoRuleDecides(policy, lists, domain, now, clock, r);
    OneSchedule(policy, c, s, now, clock);
    OneCategory(policy, lists, domain, now, clock, c, r);
  }

  lemma NoRuleDecides(policy: Policy, lists: Lists, domain: string, now: int, clock: Clock, r: Option<FilterDecision>)
    requires !policy.paused && NoneDecisive(policy.domainRules, domain, now) && IsDecision(policy, lists, domain, now, clock, r)
    ensures DecidedByCategory(policy, lists, domain, now, clock, r)
  {
  }

  lemma OneSchedule(policy: Policy, c: Category, s: CategorySchedule, now: int, clock: Clock)
    requires policy.schedules == [s] && s.category == c
    ensures var local := clock(policy.timezone, now);
            Scheduled(policy, c, now, clock) <==> local.day in s.days && s.startMinutes <= local.minutes < s.endMinutes
  {
    assert s in policy.schedules;
  }

  lemma OneCategory(policy: Policy, lists: Lists, domain: string, now: int, clock: Clock, c: Category, r: Option<FilterDecision>)
    requires policy.enabledCategories == [c] && DecidedByCategory(policy, lists, domain, now, clock, r)
    ensures r == if Blocking(policy, lists, c, domain, now, clock) then Some(Block(domain, Some(c), "category"))
                 else Some(Allow(domain, "allowed"))
  {
    assert policy.enabledCategories[0] == c;
  }

  lemma BlocksIsBlocking(policy: Policy, lists: Lists, category: Category, domain: string, now: int, clock: Clock)
    ensures Blocks(policy, lists, domain, now, clock)(category) <==> Blocking(policy, lists, category, domain, now, clock)
  {
    if category in lists {
      HitIsListed(lists[category], domain);
    }
    WindowIsScheduled(policy, category, now, clock);
  }

  /** The walk meets a rule's domain exactly when the rule is for the name. */
  lemma StopsIsFor(rule: DomainRule, domain: string)
    ensures Stops(domain)(rule) <==> RuleFor(rule, domain)
    ensures TestRule(rule, domain) == Malformed <==> Normalize(rule.domain).None?
  {
    if Normalize(rule.domain).Some? {
      SuffixesExact(Normalize(rule.domain).value, domain);
    }
  }

  lemma VerdictSays(rule: DomainRule, domain: string)
    ensures SaysRule(rule, domain, RuleVerdict(rule, domain))
  {
    StopsIsFor(rule, domain);
  }

  /** The search over the filtered rules ends at the first decisive rule of the policy. */
  lemma RuleSearch(rules: seq<DomainRule>, domain: string, now: int) returns (i: nat)
    ensures var live := Where(rules, Applies(now));
            var k := FirstIndex(live, Stops(domain));
            if i == |rules| then k == |live| else i < |rules| && k < |live| && live[k] == rules[i]
    ensures if i == |rules| then NoneDecisive(rules, domain, now) else FirstDecisive(rules, i, domain, now)
  {
    BothTests(domain, now);
    FirstOfWhere(rules, Applies(now), Stops(domain), DecisiveFor(domain, now));
    i := FirstIndex(rules, DecisiveFor(domain, now));
    FirstIsDecisive(rules, i, domain, now, DecisiveFor(domain, now));
  }

  function DecisiveFor(domain: string, now: int): DomainRule -> bool {
    (rule: DomainRule) => Decisive(rule, domain, now)
  }

  lemma BothForRule(rule: DomainRule, domain: string, now: int)
    requires Stops(domain)(rule) <==> RuleFor(rule, domain)
    ensures DecisiveFor(domain, now)(rule) == (Applies(now)(rule) && Stops(domain)(rule))
  {
    assert Applies(now)(rule) == RuleLive(rule, now);
  }

  lemma BothTests(domain: string, now: int)
    ensures forall rule :: DecisiveFor(domain, now)(rule) == (Applies(now)(rule) && Stops(domain)(rule))
  {
    forall rule ensures DecisiveFor(domain, now)(rule) == (Applies(now)(rule) && Stops(domain)(rule)) {
      StopsIsFor(rule, domain);
      BothForRule(rule, domain, now);
    }
  }

  lemma {:induction false} FirstIsDecisive(rules: seq<DomainRule>, i: nat, domain: string, now: int, decisive: DomainRule -> bool)
    requires forall rule :: decisive(rule) == Decisive(rule, domain, now)
    requires i == FirstIndex(rules, decisive)
    ensures if i == |rules| then NoneDecisive(rules, domain, now) else FirstDecisive(rules, i, domain, now)
  {
    assert forall j | 0 <= j < i :: !decisive(rules[j]);
  }

  lemma CategorySearch(policy: Policy, lists: Lists, domain: string, now: int, clock: Clock)
    ensures DecidedByCategory(policy, lists, domain, now, clock, Some(DecideByCategory(policy, lists, domain, now, clock)))
  {
    var blocks := Blocks(policy, lists, domain, now, clock);
    var i := FirstIndex(policy.enabledCategories, blocks);
    forall j | 0 <= j < |policy.enabledCategories|
      ensures blocks(policy.enabledCategories[j]) <==> Blocking(policy, lists, policy.enabledCategories[j], domain, now, clock)
    {
      BlocksIsBlocking(policy, lists, policy.enabledCategories[j], domain, now, clock);
    }
    if i < |policy.enabledCategories| {
      assert FirstBlocking(policy, lists, i, domain, now, clock);
    }
  }

  /** Decide meets the specification. */
  lemma DecideMeetsSpec(policy: Policy, lists: Lists, domain: string, now: int, clock: Clock)
    ensures IsDecision(policy, lists, domain, now, clock, Decide(policy, lists, domain, now, clock))
  {
    if !policy.paused {
      var i := RuleSearch(policy.domainRules, domain, now);
      if i < |policy.domainRules| {
        VerdictSays(policy.domainRules[i], domain);
      } else {
        CategorySearch(policy, lists, domain, now, clock);
      }
    }
  }

  lemma FirstDecisiveUnique(rules: seq<DomainRule>, i: nat, j: nat, domain: string, now: int)
    requires FirstDecisive(rules, i, domain, now) && FirstDecisive(rules, j, domain, now)
    ensures i == j
  {
  }

  lemma FirstBlockingUnique(policy: Policy, lists: Lists, i: nat, j: nat, domain: string, now: int, clock: Clock)
    requires FirstBlocking(policy, lists, i, domain, now, clock) && FirstBlocking(policy, lists, j, domain, now, clock)
    ensures i == j
  {
  }

  lemma CategoryDecisionUnique(policy: Policy, lists: Lists, domain: string, now: int, clock: Clock, r: Option<FilterDecision>, q: Option<FilterDecision>)
    requires DecidedByCategory(policy, lists, domain, now, clock, r) && DecidedByCategory(policy, lists, domain, now, clock, q)
    ensures r == q
  {
    if !NoneBlocking(policy, lists, domain, now, clock) {
      var i: nat :| FirstBlocking(policy, lists, i, domain, now, clock)
                    && r == Some(Block(domain, Some(policy.enabledCategories[i]), "category"));
      var j: nat :| FirstBlocking(policy, lists, j, domain, now, clock)
                    && q == Some(Block(domain, Some(policy.enabledCategories[j]), "category"));
      FirstBlockingUnique(policy, lists, i, j, domain, now, clock);
    }
  }

  lemma RuleDecisionUnique(policy: Policy, domain: string, now: int, r: Option<FilterDecision>, q: Option<FilterDecision>)
    requires DecidedByRule(policy, domain, now, r) && DecidedByRule(policy, domain, now, q)
    ensures r == q
  {
    var i: nat :| FirstDecisive(policy.domainRules, i, domain, now) && SaysRule(policy.domainRules[i], domain, r);
    var j: nat :| FirstDecisive(policy.domainRules, j, domain, now) && SaysRule(policy.domainRules[j], domain, q);
    FirstDecisiveUnique(policy.domainRules, i, j, domain, now);
    SaysOnce(policy.domainRules[i], domain, r, q);
  }

  lemma SaysOnce(rule: DomainRule, domain: string, r: Option<FilterDecision>, q: Option<FilterDecision>)
    requires SaysRule(rule, domain, r) && SaysRule(rule, domain, q)
    ensures r == q
  {
  }

  lemma RuleOrCategory(policy: Policy, domain: string, now: int, r: Option<FilterDecision>)
    ensures DecidedByRule(policy, domain, now, r) ==> !NoneDecisive(policy.domainRules, domain, now)
  {
    if DecidedByRule(policy, domain, now, r) {
      var i: nat :| FirstDecisive(policy.domainRules, i, domain, now) && SaysRule(policy.domainRules[i], domain, r);
    }
  }

  /** The specification leaves no choice. */
  lemma DecisionUnique(policy: Policy, lists: Lists, domain: string, now: int, clock: Clock, r: Option<FilterDecision>, q: Option<FilterDecision>)
    requires IsDecision(policy, lists, domain, now, clock, r) && IsDecision(policy, lists, domain, now, clock, q)
    ensures r == q
  {
    if !policy.paused {
      RuleOrCategory(policy, domain, now, r);
      RuleOrCategory(policy, domain, now, q);
      if DecidedByRule(policy, domain, now, r) {
        RuleDecisionUnique(policy, domain, now, r, q);
      } else {
        CategoryDecisionUnique(policy, lists, domain, now, clock, r, q);
      }
    }
  }

  /** Evaluate refines the specification: it returns r exactly when the specification asks for r. */
  lemma EvaluateIsSpec(policy: Policy, lists: Lists, input: string, now: int, clock: Clock, r: Option<FilterDecision>)
    ensures Evaluate(policy, lists, input, now, clock) == r
       <==> if Normalize(input).None? then r == None
            else IsDecision(policy, lists, Normalize(input).value, now, clock, r)
  {
    if Normalize(input).Some? {
      DecideIsSpec(policy, lists, Normalize(input).value, now, clock, r);
    }
  }

  lemma DecideIsSpec(policy: Policy, lists: Lists, domain: string, now: int, clock: Clock, r: Option<FilterDecision>)
    ensures Decide(policy, lists, domain, now, clock) == r <==> IsDecision(policy, lists, domain, now, clock, r)
  {
    DecideMeetsSpec(policy, lists, domain, now, clock);
    if IsDecision(policy, lists, domain, now, clock, r) {
      DecisionUnique(policy, lists, domain, now, clock, r, Decide(policy, lists, domain, now, clock));
    }
  }
}

/** Expired rules may be dropped early or late: decisions do not notice. */
module RuleExpiry {
  import opened Queries
  import opened DomainNames
  import opened PolicyModels
  import opened PolicyEvaluator

  /** The rows the worker puts into a policy at time t: `expires_at IS NULL OR expires_at > t`. */
  function LiveAt(t: int): DomainRule -> bool {
    (rule: DomainRule) => rule.expiresAt.None? || rule.expiresAt.value > t
  }

  /** The rows the nightly job leaves at time t: it deletes those with `expires_at < t`. */
  function KeptAt(t: int): DomainRule -> bool {
    (rule: DomainRule) => rule.expiresAt.None? || rule.expiresAt.value >= t
  }

  function LiveRules(rules: seq<DomainRule>, t: int): seq<DomainRule> {
    Where(rules, LiveAt(t))
  }

  function PurgedRules(rules: seq<DomainRule>, t: int): seq<DomainRule> {
    Where(rules, KeptAt(t))
  }

  /** Filtering at t and again at a later now is filtering at now. */
  lemma LiveTwice(rules: seq<DomainRule>, t: int, now: int)
    requires t <= now
    ensures LiveRules(LiveRules(rules, t), now) == LiveRules(rules, now)
    ensures LiveRules(PurgedRules(rules, t), now) == LiveRules(rules, now)
  {
    WhereTwice(rules, LiveAt(t), LiveAt(now));
    WhereTwice(rules, KeptAt(t), LiveAt(now));
  }

  /** Only the rules that apply matter to a decision. */
  lemma SameRulesSameDecision(p: Policy, q: Policy, lists: Lists, domain: string, now: int, clock: Clock)
    requires p.paused == q.paused && p.schedules == q.schedules && p.timezone == q.timezone
    requires p.enabledCategories == q.enabledCategories
    requires Where(p.domainRules, Applies(now)) == Where(q.domainRules, Applies(now))
    ensures Decide(p, lists, domain, now, clock) == Decide(q, lists, domain, now, clock)
  {
    forall c ensures Blocks(p, lists, domain, now, clock)(c) == Blocks(q, lists, domain, now, clock)(c) {
      BlocksIsBlocking(p, lists, c, domain, now, clock);
      BlocksIsBlocking(q, lists, c, domain, now, clock);
      assert Scheduled(p, c, now, clock) == Scheduled(q, c, now, clock);
    }
    FirstIndexSame(p.enabledCategories, Blocks(p, lists, domain, now, clock), Blocks(q, lists, domain, now, clock));
  }

  lemma SameRulesSameEvaluation(p: Policy, q: Policy, lists: Lists, input: string, now: int, clock: Clock)
    requires p.paused == q.paused && p.schedules == q.schedules && p.timezone == q.timezone
    requires p.enabledCategories == q.enabledCategories
    requires Where(p.domainRules, Applies(now)) == Where(q.domainRules, Applies(now))
    ensures Evaluate(p, lists, input, now, clock) == Evaluate(q, lists, input, now, clock)
  {
    if Normalize(input).Some? {
      SameRulesSameDecision(p, q, lists, Normalize(input).value, now, clock);
    }
  }

  /** Building the policy at t, or purging at t, changes no decision made at t or later. */
  lemma ExpiryFiltersAgree(policy: Policy, t: int, lists: Lists, input: string, now: int, clock: Clock)
    requires t <= now
    ensures Evaluate(policy.(domainRules := LiveRules(policy.domainRules, t)), lists, input, now, clock)
         == Evaluate(policy, lists, input, now, clock)
    ensures Evaluate(policy.(domainRules := PurgedRules(policy.domainRules, t)), lists, input, now, clock)
         == Evaluate(policy, lists, input, now, clock)
  {
    WhereTwice(policy.domainRules, LiveAt(t), Applies(now));
    WhereTwice(policy.domainRules, KeptAt(t), Applies(now));
    SameRulesSameEvaluation(policy.(domainRules := LiveRules(policy.domainRules, t)), policy, lists, input, now, clock);
    SameRulesSameEvaluation(policy.(domainRules := PurgedRules(policy.domainRules, t)), policy, lists, input, now, clock);
  }

  /** Policies that agree up to rules expired now decide alike now. */
  lemma LiveAgreementSuffices(p: Policy, q: Policy, lists: Lists, input: string, now: int, clock: Clock)
    requires p.paused == q.paused && p.schedules == q.schedules && p.timezone == q.timezone
    requires p.enabledCategories == q.enabledCategories
    requires LiveRules(p.domainRules, now) == LiveRules(q.domainRules, now)
    ensures Evaluate(p, lists, input, now, clock) == Evaluate(q, lists, input, now, clock)
  {
    WhereTwice(p.domainRules, LiveAt(now), Applies(now));
    WhereTwice(q.domainRules, LiveAt(now), Applies(now));
    SameRulesSameEvaluation(p, q, lists, input, now, clock);
  }

  /** From its expiry on, a timed rule is as good as absent, on a device that never syncs again. */
  lemma TimedGrantEnds(policy: Policy, i: nat, lists: Lists, input: string, now: int, clock: Clock)
    requires i < |policy.domainRules| && policy.domainRules[i].expiresAt.Some?
    requires policy.domainRules[i].expiresAt.value <= now
    ensures Evaluate(policy, lists, input, now, clock)
         == Evaluate(policy.(domainRules := policy.domainRules[..i] + policy.domainRules[i + 1..]), lists, input, now, clock)
  {
    WhereWithout(policy.domainRules, Applies(now), i);
    SameRulesSameEvaluation(policy, policy.(domainRules := policy.domainRules[..i] + policy.domainRules[i + 1..]),
                            lists, input, now, clock);
  }
}
