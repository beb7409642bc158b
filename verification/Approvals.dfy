/**
 * What a rule that a parent stores does to the filter. Policies list rules in domain
 * order and the agent takes the first that fits, so a rule for a parent domain that
 * sorts earlier goes first, whichever was meant to be the exception.
 */
module Approvals {
  import opened Common
  import opened Text
  import opened Ordering
  import opened DomainNames
  import opened PolicyModels
  import opened PolicyEvaluator
  import opened RuleExpiry
  import opened PolicyTables

  // ---- First rules in an ordered list, for any test -----------------------------------

  type RuleTest = DomainRule -> bool

  ghost predicate FirstThat(rules: seq<DomainRule>, test: RuleTest, i: nat) {
    i < |rules| && test(rules[i]) && forall j | 0 <= j < i :: !test(rules[j])
  }

  /** Rule k is the first that passes, and sorts before the domain. */
  ghost predicate EarlierThat(rules: seq<DomainRule>, test: RuleTest, domain: string, k: nat) {
    FirstThat(rules, test, k) && Less(rules[k].domain, domain)
  }

  ghost predicate SomeEarlier(rules: seq<DomainRule>, test: RuleTest, domain: string) {
    exists k: nat :: EarlierThat(rules, test, domain, k)
  }

  /** In `stored` rule i is the first that passes: rule k of `before` if that comes earlier, else the new rule. */
  ghost predicate StoredFirst(stored: seq<DomainRule>, before: seq<DomainRule>, rule: DomainRule, test: RuleTest, i: nat, k: nat) {
    && FirstThat(stored, test, i)
    && (SomeEarlier(before, test, rule.domain) ==> EarlierThat(before, test, rule.domain, k) && stored[i] == before[k])
    && (!SomeEarlier(before, test, rule.domain) ==> stored[i] == rule)
  }

  lemma {:induction false} NothingBefore(rows: seq<RuleRow>, test: RuleTest, domain: string)
    requires Ascending(Domains(rows)) && rows != []
    requires rows[0].rule.domain == domain || Less(domain, rows[0].rule.domain)
    ensures !SomeEarlier(RuleList(rows), test, domain)
  {
    forall k: nat ensures !EarlierThat(RuleList(rows), test, domain, k) {
      if k < |rows| {
        RuleListAt(rows, k);
        NotLessThanHead(rows, k, domain);
      }
    }
  }

  lemma {:induction false} RuleListAt(rows: seq<RuleRow>, k: nat)
    requires k < |rows|
    ensures RuleList(rows)[k] == rows[k].rule
  {
    if k > 0 {
      RuleListAt(rows[1..], k - 1);
    }
  }

  lemma {:induction false} NotLessThanHead(rows: seq<RuleRow>, k: nat, domain: string)
    requires Ascending(Domains(rows)) && k < |rows|
    requires rows[0].rule.domain == domain || Less(domain, rows[0].rule.domain)
    ensures !Less(rows[k].rule.domain, domain)
  {
    var d := rows[k].rule.domain;
    if k > 0 {
      assert Less(Domains(rows)[0], Domains(rows)[k]);
    }
    if Less(d, domain) && d != rows[0].rule.domain {
      LessTransitive(rows[0].rule.domain, d, domain);
    }
    if Less(d, domain) && Less(domain, rows[0].rule.domain) {
      LessTransitive(d, domain, rows[0].rule.domain);
      if d != rows[0].rule.domain { LessTransitive(rows[0].rule.domain, d, rows[0].rule.domain); }
    }
    LessIrreflexive(domain);
    LessIrreflexive(d);
    LessIrreflexive(rows[0].rule.domain);
  }

  lemma FirstOfRest(rule: DomainRule, rest: seq<DomainRule>, test: RuleTest, k: nat)
    requires !test(rule)
    ensures FirstThat([rule] + rest, test, k + 1) <==> FirstThat(rest, test, k)
  {
    var rules := [rule] + rest;
    if FirstThat(rules, test, k + 1) {
      forall j | 0 <= j < k ensures !test(rest[j]) {
        assert rules[j + 1] == rest[j];
      }
    }
  }

  lemma EarlierOfRest(rule: DomainRule, rest: seq<DomainRule>, test: RuleTest, domain: string)
    requires !test(rule)
    ensures SomeEarlier([rule] + rest, test, domain) <==> SomeEarlier(rest, test, domain)
  {
    if k: nat :| EarlierThat(rest, test, domain, k) {
      FirstOfRest(rule, rest, test, k);
      assert EarlierThat([rule] + rest, test, domain, k + 1);
    }
    if k: nat :| EarlierThat([rule] + rest, test, domain, k) {
      if k > 0 {
        FirstOfRest(rule, rest, test, k - 1);
        assert EarlierThat(rest, test, domain, k - 1);
      }
    }
  }

  lemma HeadDecides(head: DomainRule, stored: seq<DomainRule>, before: seq<DomainRule>, rule: DomainRule, test: RuleTest)
    requires test(head) && Less(head.domain, rule.domain)
    ensures StoredFirst([head] + stored, [head] + before, rule, test, 0, 0)
  {
    assert EarlierThat([head] + before, test, rule.domain, 0);
  }

  lemma RestDecides(head: DomainRule, stored: seq<DomainRule>, before: seq<DomainRule>, rule: DomainRule, test: RuleTest, i: nat, k: nat)
    requires !test(head) && StoredFirst(stored, before, rule, test, i, k)
    ensures StoredFirst([head] + stored, [head] + before, rule, test, i + 1, k + 1)
  {
    FirstOfRest(head, stored, test, i);
    EarlierOfRest(head, before, test, rule.domain);
    FirstOfRest(head, before, test, k);
  }

  lemma {:induction false} RuleListCons(head: RuleRow, rest: seq<RuleRow>)
    ensures RuleList([head] + rest) == [head.rule] + RuleList(rest)
  {
    assert ([head] + rest)[1..] == rest;
  }

  lemma {:induction false} NewRuleFirst(rows: seq<RuleRow>, row: RuleRow, test: RuleTest)
    requires Ascending(Domains(rows)) && test(row.rule)
    requires rows == [] || rows[0].rule.domain == row.rule.domain || Less(row.rule.domain, rows[0].rule.domain)
    ensures StoredFirst(RuleList(UpsertRule(rows, row)), RuleList(rows), row.rule, test, 0, 0)
  {
    if rows != [] {
      NothingBefore(rows, test, row.rule.domain);
    }
  }

  lemma {:induction false} UpsertBehind(rows: seq<RuleRow>, row: RuleRow)
    requires Ascending(Domains(rows)) && rows != []
    requires rows[0].rule.domain != row.rule.domain && !Less(row.rule.domain, rows[0].rule.domain)
    ensures Less(rows[0].rule.domain, row.rule.domain) && Ascending(Domains(rows[1..]))
    ensures RuleList(UpsertRule(rows, row)) == [rows[0].rule] + RuleList(UpsertRule(rows[1..], row))
    ensures RuleList(rows) == [rows[0].rule] + RuleList(rows[1..])
  {
    LessTotal(row.rule.domain, rows[0].rule.domain);
    assert Domains(rows)[1..] == Domains(rows[1..]);
    RuleListCons(rows[0], UpsertRule(rows[1..], row));
  }

  /** After an upsert the stored rule is the first to pass, unless one that sorts before it does. */
  lemma {:induction false} FirstAfterUpsert(rows: seq<RuleRow>, row: RuleRow, test: RuleTest) returns (i: nat, k: nat)
    requires Ascending(Domains(rows)) && test(row.rule)
    ensures StoredFirst(RuleList(UpsertRule(rows, row)), RuleList(rows), row.rule, test, i, k)
  {
    i, k := 0, 0;
    if rows == [] || rows[0].rule.domain == row.rule.domain || Less(row.rule.domain, rows[0].rule.domain) {
      NewRuleFirst(rows, row, test);
    } else {
      UpsertBehind(rows, row);
      var head := rows[0].rule;
      var stored, before := RuleList(UpsertRule(rows[1..], row)), RuleList(rows[1..]);
      if test(head) {
        HeadDecides(head, stored, before, row.rule, test);
      } else {
        var i', k' := FirstAfterUpsert(rows[1..], row, test);
        RestDecides(head, stored, before, row.rule, test, i', k');
        return i' + 1, k' + 1;
      }
    }
  }

  // ---- Rules that decide for a name ----------------------------------------------------

  /** The filter's test of a rule: live, and for the name. */
  function DecisiveAt(domain: string, at: int): RuleTest {
    (rule: DomainRule) => Decisive(rule, domain, at)
  }

  lemma FirstDecisiveIs(rules: seq<DomainRule>, i: nat, domain: string, at: int)
    ensures FirstDecisive(rules, i, domain, at) <==> FirstThat(rules, DecisiveAt(domain, at), i)
  {
  }

  /** The first live rule for the name sorts before the name, and does not allow. */
  ghost predicate EarlierBlock(rules: seq<DomainRule>, domain: string, at: int) {
    exists k: nat :: FirstDecisive(rules, k, domain, at) && Less(rules[k].domain, domain) && Lower(rules[k].action) != "allow"
  }

  // ---- The decision ----------------------------------------------------------------

  /** The verdict of the first decisive rule, when the filter is not paused. */
  lemma FirstRuleDecides(policy: Policy, i: nat, lists: Lists, domain: string, at: int, clock: Clock)
    requires !policy.paused && FirstDecisive(policy.domainRules, i, domain, at)
    ensures SaysRule(policy.domainRules[i], domain, Decide(policy, lists, domain, at, clock))
  {
    DecideMeetsSpec(policy, lists, domain, at, clock);
    var r := Decide(policy, lists, domain, at, clock);
    RuleNotCategory(policy, i, domain, at);
    var j: nat :| FirstDecisive(policy.domainRules, j, domain, at) && SaysRule(policy.domainRules[j], domain, r);
    FirstDecisiveUnique(policy.domainRules, i, j, domain, at);
  }

  lemma RuleNotCategory(policy: Policy, i: nat, domain: string, at: int)
    requires FirstDecisive(policy.domainRules, i, domain, at)
    ensures !NoneDecisive(policy.domainRules, domain, at)
  {
  }

  lemma LiveAndFor(rule: DomainRule, name: string, at: int)
    requires Trim(rule.domain) != "" && (rule.expiresAt.None? || at < rule.expiresAt.value)
    requires Normalize(rule.domain) == Some(rule.domain) && EqualOrParent(rule.domain, name)
    ensures Decisive(rule, name, at)
  {
  }

  lemma OwnRuleIsFor(rule: DomainRule, at: int)
    requires Canonical(rule.domain) && RuleLive(rule, at)
    ensures Decisive(rule, rule.domain, at)
  {
    CanonicalFixed(rule.domain);
  }

  /**
   * The stored rule's allowance: while it lives, its own domain is allowed exactly when
   * the child is not paused and no rule that sorts before it decides otherwise.
   */
  lemma {:induction false} StoredAllowance(policy: Policy, rows: seq<RuleRow>, row: RuleRow, lists: Lists, at: int, clock: Clock)
    requires Ascending(Domains(rows)) && policy.domainRules == RuleList(UpsertRule(rows, row))
    requires Canonical(row.rule.domain) && RuleLive(row.rule, at) && Lower(row.rule.action) == "allow"
    requires forall k | 0 <= k < |rows| :: Canonical(rows[k].rule.domain)
    ensures var domain := row.rule.domain;
            Decide(policy, lists, domain, at, clock) == Some(Allow(domain, "custom_allow"))
            <==> !policy.paused && !EarlierBlock(RuleList(rows), domain, at)
  {
    var domain := row.rule.domain;
    var test := DecisiveAt(domain, at);
    OwnRuleIsFor(row.rule, at);
    var i, k := FirstAfterUpsert(rows, row, test);
    FirstDecisiveIs(policy.domainRules, i, domain, at);
    if !policy.paused {
      FirstRuleDecides(policy, i, lists, domain, at, clock);
      if SomeEarlier(RuleList(rows), test, domain) {
        RuleListAt(rows, k);
        FirstDecisiveIs(RuleList(rows), k, domain, at);
        EarlierDecides(RuleList(rows), k, domain, at, Decide(policy, lists, domain, at, clock));
      } else {
        BlockIsEarlier(RuleList(rows), domain, at);
        CanonicalFixed(domain);
      }
    }
  }

  lemma BlockIsEarlier(rules: seq<DomainRule>, domain: string, at: int)
    ensures EarlierBlock(rules, domain, at) ==> SomeEarlier(rules, DecisiveAt(domain, at), domain)
  {
    if k: nat :| FirstDecisive(rules, k, domain, at) && Less(rules[k].domain, domain) && Lower(rules[k].action) != "allow" {
      FirstDecisiveIs(rules, k, domain, at);
      assert EarlierThat(rules, DecisiveAt(domain, at), domain, k);
    }
  }

  lemma {:induction false} EarlierDecides(rules: seq<DomainRule>, k: nat, domain: string, at: int, r: Option<FilterDecision>)
    requires FirstDecisive(rules, k, domain, at) && Less(rules[k].domain, domain)
    requires Canonical(rules[k].domain) && SaysRule(rules[k], domain, r)
    ensures r == Some(Allow(domain, "custom_allow")) <==> !EarlierBlock(rules, domain, at)
  {
    CanonicalFixed(rules[k].domain);
    if j: nat :| FirstDecisive(rules, j, domain, at) && Less(rules[j].domain, domain) && Lower(rules[j].action) != "allow" {
      FirstDecisiveUnique(rules, j, k, domain, at);
    }
  }

  // ---- Approving a request -----------------------------------------------------------

  /** A grant is live when it is made; one for the day ends with the UTC day, or in a minute if that is later. */
  lemma GrantWindow(duration: Duration, now: int)
    ensures var expiry := GrantExpiry(duration, now);
            && (expiry.Some? ==> now + 60_000 <= expiry.value < now + DAY_MS)
            && (duration == Session ==> expiry == Some(now + 10 * 60_000)) && (duration == Hour ==> expiry == Some(now + 60 * 60_000))
            && (duration == Day ==> expiry.value == now + 60_000 || (expiry.value + 1) % DAY_MS == 0)
            && (expiry.None? <==> duration == Permanent || duration == Deny)
  {
  }

  predicate GrantLive(duration: Duration, now: int, at: int) {
    GrantExpiry(duration, now).None? || at < GrantExpiry(duration, now).value
  }

  /** The policy that is built right after the request has been approved. */
  function ApprovedPolicy(t: Tables, request: string, duration: Duration, ruleId: string, now: int, list: string): Policy
    requires request in t.requests
  {
    SnapshotPolicy(Resolve(t, request, t.requests[request].domain, duration, ruleId, now), list, now)
  }

  /**
   * What approving a request achieves: with the policy built at that moment, and at any
   * later instant before the grant ends, the requested name is allowed if and only if
   * the child is not paused and no live rule for a parent domain that sorts before the
   * name blocks it. An approval does not override a block of a parent domain that comes
   * first in the alphabet.
   */
  lemma ApprovalEffect(t: Tables, request: string, duration: Duration, ruleId: string, now: int, at: int,
                       list: string, lists: Lists, clock: Clock)
    requires request in t.requests && t.requests[request].status == Pending && duration != Deny
    requires Ascending(Domains(t.rules)) && Canonical(t.requests[request].domain)
    requires forall k | 0 <= k < |t.rules| :: Canonical(t.rules[k].rule.domain)
    requires now <= at && GrantLive(duration, now, at)
    ensures var domain := t.requests[request].domain;
            var policy := ApprovedPolicy(t, request, duration, ruleId, now, list);
            Evaluate(policy, lists, domain, at, clock) == Some(Allow(domain, "custom_allow"))
            <==> !t.child.paused && !EarlierBlock(RuleList(t.rules), domain, at)
  {
    var domain := t.requests[request].domain;
    var t' := Resolve(t, request, domain, duration, ruleId, now);
    var row := Granted(t, t', request, domain, duration, ruleId, now);
    SnapshotLater(t', list, now, at, lists, domain, clock);
    EvaluateCanonical(Unfiltered(t', list, now), lists, domain, at, clock);
    CanonicalNotBlank(domain);
    GrantAllows(row.rule, duration, now, at);
    AllowIsAllow();
    StoredAllowance(Unfiltered(t', list, now), t.rules, row, lists, at, clock);
  }

  /** The policy with the rules that have expired already. */
  function Unfiltered(t: Tables, list: string, now: int): Policy {
    SnapshotPolicy(t, list, now).(domainRules := RuleList(t.rules))
  }

  lemma SnapshotLater(t: Tables, list: string, now: int, at: int, lists: Lists, input: string, clock: Clock)
    requires now <= at
    ensures Evaluate(SnapshotPolicy(t, list, now), lists, input, at, clock) == Evaluate(Unfiltered(t, list, now), lists, input, at, clock)
  {
    ExpiryFiltersAgree(Unfiltered(t, list, now), now, lists, input, at, clock);
    assert SnapshotPolicy(t, list, now)
        == Unfiltered(t, list, now).(domainRules := LiveRules(Unfiltered(t, list, now).domainRules, now));
  }

  lemma EvaluateCanonical(policy: Policy, lists: Lists, domain: string, at: int, clock: Clock)
    requires Canonical(domain)
    ensures Evaluate(policy, lists, domain, at, clock) == Decide(policy, lists, domain, at, clock)
  {
    CanonicalFixed(domain);
  }

  lemma Granted(t: Tables, t': Tables, request: string, domain: string, duration: Duration, ruleId: string, now: int) returns (row: RuleRow)
    requires t' == Resolve(t, request, domain, duration, ruleId, now) && duration != Deny
    ensures row == RuleRow(ruleId, DomainRule(domain, "allow", GrantExpiry(duration, now)))
    ensures t'.rules == UpsertRule(t.rules, row) && t'.child.paused == t.child.paused
  {
    row := RuleRow(ruleId, DomainRule(domain, "allow", GrantExpiry(duration, now)));
  }

  lemma AllowIsAllow()
    ensures Lower("allow") == "allow"
  {
  }

  lemma GrantAllows(rule: DomainRule, duration: Duration, now: int, at: int)
    requires Trim(rule.domain) != "" && rule.expiresAt == GrantExpiry(duration, now) && GrantLive(duration, now, at)
    ensures RuleLive(rule, at)
  {
  }

  lemma CanonicalNotBlank(domain: string)
    requires Canonical(domain)
    ensures Trim(domain) != ""
  {
    TrimNothing(domain);
  }

  lemma {:induction false} BlockFirst(rules: seq<DomainRule>, k: nat, name: string, at: int)
    requires FirstDecisive(rules, k, name, at) && Lower(rules[k].action) != "allow"
    ensures EarlierBlock(rules, name, at) <==> Less(rules[k].domain, name)
  {
    if j: nat :| FirstDecisive(rules, j, name, at) && Less(rules[j].domain, name) && Lower(rules[j].action) != "allow" {
      FirstDecisiveUnique(rules, j, k, name, at);
    }
  }

  /**
   * A request for a blocked name: if the first live rule for it is a block of the name
   * or of a parent domain, approving the request allows the name exactly when the child
   * is not paused and the blocked domain does not sort before the name.
   */
  lemma BlockedParent(t: Tables, request: string, k: nat, duration: Duration, ruleId: string, now: int, at: int,
                      list: string, lists: Lists, clock: Clock)
    requires request in t.requests && t.requests[request].status == Pending && duration != Deny
    requires Ascending(Domains(t.rules)) && Canonical(t.requests[request].domain)
    requires forall i | 0 <= i < |t.rules| :: Canonical(t.rules[i].rule.domain)
    requires now <= at && GrantLive(duration, now, at)
    requires k < |t.rules| && Lower(t.rules[k].rule.action) != "allow"
    requires FirstDecisive(RuleList(t.rules), k, t.requests[request].domain, at)
    ensures var domain := t.requests[request].domain;
            var policy := ApprovedPolicy(t, request, duration, ruleId, now, list);
            Evaluate(policy, lists, domain, at, clock) == Some(Allow(domain, "custom_allow"))
            <==> !t.child.paused && !Less(t.rules[k].rule.domain, domain)
  {
    RuleListAt(t.rules, k);
    ApprovalEffect(t, request, duration, ruleId, now, at, list, lists, clock);
    BlockFirst(RuleList(t.rules), k, t.requests[request].domain, at);
  }

  /** One rule, which blocks the name or a parent of it for good. */
  predicate SoleBlock(rows: seq<RuleRow>, name: string) {
    |rows| == 1 && Canonical(rows[0].rule.domain) && Lower(rows[0].rule.action) != "allow" && rows[0].rule.expiresAt.None?
    && EqualOrParent(rows[0].rule.domain, name)
  }

  lemma {:induction false} SoleBlockFirst(rows: seq<RuleRow>, name: string, at: int)
    requires SoleBlock(rows, name)
    ensures FirstDecisive(RuleList(rows), 0, name, at)
  {
    CanonicalFixed(rows[0].rule.domain);
    CanonicalNotBlank(rows[0].rule.domain);
    LiveAndFor(rows[0].rule, name, at);
    RuleListAt(rows, 0);
  }

  lemma {:induction false} SoleBlockListed(rows: seq<RuleRow>, name: string)
    requires SoleBlock(rows, name)
    ensures |rows| == 1 && Ascending(Domains(rows)) && Lower(rows[0].rule.action) != "allow"
    ensures forall i | 0 <= i < |rows| :: Canonical(rows[i].rule.domain)
  {
  }

  /** Under one lasting block the alphabet decides which subdomains an approval reaches. */
  lemma {:induction false} LoneBlock(t: Tables, request: string, duration: Duration, ruleId: string, now: int, at: int,
                                     list: string, lists: Lists, clock: Clock)
    requires request in t.requests && t.requests[request].status == Pending && duration != Deny
    requires Canonical(t.requests[request].domain) && SoleBlock(t.rules, t.requests[request].domain)
    requires now <= at && GrantLive(duration, now, at)
    ensures var domain := t.requests[request].domain;
            var policy := ApprovedPolicy(t, request, duration, ruleId, now, list);
            Evaluate(policy, lists, domain, at, clock) == Some(Allow(domain, "custom_allow"))
            <==> !t.child.paused && !Less(t.rules[0].rule.domain, domain)
  {
    SoleBlockListed(t.rules, t.requests[request].domain);
    SoleBlockFirst(t.rules, t.requests[request].domain, at);
    BlockedParent(t, request, 0, duration, ruleId, now, at, list, lists, clock);
  }

  lemma SubdomainOf(c: char, domain: string)
    ensures EqualOrParent(domain, [c, '.'] + domain)
  {
    var name := [c, '.'] + domain;
    assert name[1..] == "." + domain;
  }

  lemma {:induction false} LessByFirst(a: string, b: string)
    requires a != [] && b != [] && a[0] != b[0]
    ensures Less(a, b) <==> a[0] < b[0]
  {
  }

  lemma {:induction false} SubdomainCanonical(c: char, domain: string)
    requires 'a' <= c <= 'z' && Canonical(domain) && |domain| <= 251
    ensures Canonical([c, '.'] + domain)
  {
    SubdomainLabels(c, domain);
    LowerLonger(c, domain);
    SubdomainChars(c, domain);
  }

  lemma {:induction false} SubdomainLabels(c: char, domain: string)
    requires 'a' <= c <= 'z' && LabelsFit(Split(domain, '.'))
    ensures LabelsFit(Split([c, '.'] + domain, '.'))
  {
    assert [c, '.'] + domain == [c] + ['.'] + domain;
    SplitCons([c], '.', domain);
  }

  lemma SubdomainChars(c: char, domain: string)
    requires 'a' <= c <= 'z' && NoControls(domain)
    ensures NoControls([c, '.'] + domain)
    ensures forall x: char :: x in [c, '.'] + domain <==> x == c || x == '.' || x in domain
  {
    var name := [c, '.'] + domain;
    assert name[0] == c && name[1] == '.' && forall i | 0 <= i < |domain| :: name[i + 2] == domain[i];
  }

  lemma {:induction false} LowerLonger(c: char, domain: string)
    requires 'a' <= c <= 'z' && Lower(domain) == domain
    ensures Lower([c, '.'] + domain) == [c, '.'] + domain
  {
    var name := [c, '.'] + domain;
    forall i | 0 <= i < |name| ensures Lower(name)[i] == name[i] {
      assert i >= 2 ==> name[i] == domain[i - 2] == Lower(domain)[i - 2];
    }
  }

  /** A domain that starts with a letter strictly inside the alphabet, short enough for a longer name. */
  predicate Inside(domain: string) {
    Canonical(domain) && |domain| <= 251 && 'a' < domain[0] < 'z'
  }

  /** Such a domain has canonical subdomains on both sides of it. */
  lemma {:induction false} AlphabetMatters(domain: string)
    requires Inside(domain)
    ensures var before, after := "a." + domain, "z." + domain;
            && Canonical(before) && EqualOrParent(domain, before) && !Less(domain, before)
            && Canonical(after) && EqualOrParent(domain, after) && Less(domain, after)
  {
    SubdomainCanonical('a', domain);
    SubdomainCanonical('z', domain);
    SubdomainOf('a', domain);
    SubdomainOf('z', domain);
    LessByFirst(domain, "a." + domain);
    LessByFirst(domain, "z." + domain);
  }

  /**
   * A run that goes wrong, for every such domain under a lasting block: the approval of
   * one subdomain allows it, the approval of another leaves it as it was.
   */
  lemma {:induction false} SubdomainsDiffer(t: Tables, request: string, duration: Duration, ruleId: string, now: int, at: int,
                                            list: string, lists: Lists, clock: Clock)
    requires request in t.requests && t.requests[request].status == Pending && duration != Deny
    requires !t.child.paused && now <= at && GrantLive(duration, now, at)
    requires |t.rules| == 1 && Inside(t.rules[0].rule.domain)
    requires Lower(t.rules[0].rule.action) != "allow" && t.rules[0].rule.expiresAt.None?
    ensures var domain, policy := t.requests[request].domain, ApprovedPolicy(t, request, duration, ruleId, now, list);
            var allowed := Evaluate(policy, lists, domain, at, clock) == Some(Allow(domain, "custom_allow"));
            (domain == "a." + t.rules[0].rule.domain ==> allowed) && (domain == "z." + t.rules[0].rule.domain ==> !allowed)
  {
    var domain, blocked := t.requests[request].domain, t.rules[0].rule.domain;
    AlphabetMatters(blocked);
    if domain == "a." + blocked || domain == "z." + blocked {
      LoneBlock(t, request, duration, ruleId, now, at, list, lists, clock);
    }
  }
}
