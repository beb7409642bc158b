/**
 * Policy sync as a step machine. Parent handlers, the nightly job, the device's
 * sync handler and the agent interleave at every await: one step is one SQL
 * statement or batch, one message, or one assignment of the agent.
 *
 * Most writers change content in one statement and bump `policy_version` in the
 * next; the sync handler reads the version first and the content later. The
 * invariant says why comparing version numbers alone is nevertheless sound.
 */
module PolicySync {
  import opened Common
  import opened Queries
  import opened Ordering
  import opened PolicyModels
  import opened PolicyEvaluator
  import opened RuleExpiry
  import opened PolicyTables

  type Pid = nat

  /** What a sync handler has read so far. `since` is the instant bound into the rule query. */
  datatype Reader = Reader(
    knownVersion: int, knownList: string,
    list: Option<string>, child: Option<ChildRow>, since: Option<int>,
    categories: Option<seq<Category>>, schedules: Option<seq<CategorySchedule>>, rules: Option<seq<DomainRule>>)

  /** A 304 carries nothing; the policy it withholds is kept for the statements below. */
  datatype Reply = NotModified(withheld: Policy) | Body(policy: Policy)

  datatype Proc =
    | PresetRead(ageBand: AgeBand)
    | NeedsBump
    | RequestSeen(request: string, domain: string, duration: Duration)
    | Reading(reader: Reader)
    | Answered(reply: Reply)

  /** `current` is AgentState's policy, `saved` is policy.json, `received` a body not installed yet. */
  datatype Agent = Agent(current: Option<Policy>, saved: Option<Policy>, received: Option<Policy>, waiting: Option<Pid>)

  /** `drifted`: what policies show has changed since the last bump. No step looks at it. */
  datatype State = State(tables: Tables, list: string, now: int, procs: map<Pid, Proc>, agent: Agent, drifted: bool)

  datatype Step =
    | Tick(ms: nat)
    | PublishList(version: string)
    // parent handlers
    | PutPolicyBatch(child: ChildRow, enabled: set<Category>)
    | ReadPreset(pid: Pid)
    | WritePreset(pid: Pid)
    | AddSchedule(pid: Pid, schedule: ScheduleRow)
    | RemoveSchedule(pid: Pid, id: string)
    | AddRule(pid: Pid, rule: RuleRow)
    | RemoveRule(pid: Pid, id: string)
    | Bump(pid: Pid)
    | ReadRequest(pid: Pid, request: string, duration: Duration)
    | ResolveBatch(pid: Pid, ruleId: string)
    // any handler
    | Crash(pid: Pid)
    // device and nightly job
    | AskAccess(request: string, domain: string)
    | Purge(cutoff: int)
    // sync handler
    | StartSync(pid: Pid)
    | ReadList(pid: Pid)
    | ReadChild(pid: Pid)
    | IssueReads(pid: Pid)
    | ReadCategories(pid: Pid)
    | ReadSchedules(pid: Pid)
    | ReadRules(pid: Pid)
    | Respond(pid: Pid)
    // agent
    | Deliver
    | LoseReply
    | SavePolicy
    | UpdateState
    | AbandonUpdate
    | Restart

  function WithTables(s: State, t: Tables): State {
    s.(tables := t)
  }

  /** A change whose bump is left for the handler's next statement. */
  function Changed(s: State, pid: Pid, t: Tables): State {
    WithProc(s.(tables := t, drifted := s.drifted || !SameShown(s.tables, t, s.now)), pid, NeedsBump)
  }

  /** A statement or batch that bumps the version. */
  function BumpedTo(s: State, t: Tables): State {
    s.(tables := t, drifted := false)
  }

  function WithProc(s: State, pid: Pid, p: Proc): State {
    s.(procs := s.procs[pid := p])
  }

  function WithoutProc(s: State, pid: Pid): State {
    s.(procs := s.procs - {pid})
  }

  predicate Fresh(s: State, pid: Pid) {
    pid !in s.procs
  }

  predicate IsReading(s: State, pid: Pid) {
    pid in s.procs && s.procs[pid].Reading?
  }

  function KnownVersion(a: Agent): int {
    if a.current.None? then -1 else a.current.value.version
  }

  function KnownList(a: Agent): string {
    if a.current.None? then "" else a.current.value.listVersion
  }

  predicate AllRead(r: Reader) {
    r.list.Some? && r.child.Some? && r.since.Some? && r.categories.Some? && r.schedules.Some? && r.rules.Some?
  }

  function BuiltPolicy(r: Reader, now: int): Policy
    requires AllRead(r)
  {
    var c := r.child.value;
    Policy(c.version, c.ageBand, c.timezone, r.categories.value, r.schedules.value, r.rules.value,
           c.safeSearch, c.youtubeRestricted, c.paused, r.list.value, now)
  }

  function ReplyTo(r: Reader, now: int): Reply
    requires AllRead(r)
  {
    var p := BuiltPolicy(r, now);
    if r.knownVersion == p.version && r.knownList == p.listVersion then NotModified(p) else Body(p)
  }

  /** The change shows in no policy: an update to the same values, a deletion of nothing, a rule already expired. */
  predicate SameShown(t: Tables, t': Tables, now: int) {
    && EnabledInOrder(t.categories) == EnabledInOrder(t'.categories)
    && ScheduleList(t.schedules) == ScheduleList(t'.schedules)
    && LiveRules(RuleList(t.rules), now) == LiveRules(RuleList(t'.rules), now)
  }

  /** One step; a step that is not enabled changes nothing. */
  function Apply(s: State, step: Step): State {
    var t := s.tables;
    match step
    case Tick(ms) => s.(now := s.now + ms)
    case PublishList(version) => s.(list := version)
    case PutPolicyBatch(child, enabled) => BumpedTo(s, PutPolicy(t, child, enabled))
    case ReadPreset(pid) =>
      if Fresh(s, pid) then WithProc(s, pid, PresetRead(t.child.ageBand)) else s
    case WritePreset(pid) =>
      if pid in s.procs && s.procs[pid].PresetRead? then
        Changed(s, pid, t.(categories := ResetEnabled(t.categories, Preset(s.procs[pid].ageBand))))
      else s
    case AddSchedule(pid, row) =>
      if Fresh(s, pid) then Changed(s, pid, t.(schedules := t.schedules + [row])) else s
    case RemoveSchedule(pid, id) =>
      if Fresh(s, pid) then Changed(s, pid, t.(schedules := DeleteSchedule(t.schedules, id))) else s
    case AddRule(pid, row) =>
      if Fresh(s, pid) then Changed(s, pid, t.(rules := UpsertRule(t.rules, row))) else s
    case RemoveRule(pid, id) =>
      if Fresh(s, pid) then Changed(s, pid, t.(rules := DeleteRule(t.rules, id))) else s
    case Bump(pid) =>
      if pid in s.procs && s.procs[pid].NeedsBump? then WithoutProc(BumpedTo(s, Bumped(t)), pid) else s
    case ReadRequest(pid, request, duration) =>
      if Fresh(s, pid) && request in t.requests && t.requests[request].status == Pending then
        WithProc(s, pid, RequestSeen(request, t.requests[request].domain, duration))
      else s
    case ResolveBatch(pid, ruleId) =>
      if pid in s.procs && s.procs[pid].RequestSeen? then
        var p := s.procs[pid];
        WithoutProc(BumpedTo(s, Resolve(t, p.request, p.domain, p.duration, ruleId, s.now)), pid)
      else s
    case Crash(pid) => WithoutProc(s, pid)
    case AskAccess(request, domain) =>
      if request in t.requests then s
      else WithTables(s, t.(requests := t.requests[request := RequestRow(domain, Pending, s.now)]))
    case Purge(cutoff) =>
      if cutoff <= s.now then
        WithTables(s, t.(rules := PurgeRules(t.rules, cutoff), requests := PurgeRequests(t.requests, cutoff)))
      else s
    case StartSync(pid) =>
      if Fresh(s, pid) && s.agent.waiting.None? && s.agent.received.None? then
        WithProc(s.(agent := s.agent.(waiting := Some(pid))), pid,
                 Reading(Reader(KnownVersion(s.agent), KnownList(s.agent), None, None, None, None, None, None)))
      else s
    case ReadList(pid) =>
      if IsReading(s, pid) && s.procs[pid].reader.list.None? then
        WithProc(s, pid, Reading(s.procs[pid].reader.(list := Some(s.list))))
      else s
    case ReadChild(pid) =>
      if IsReading(s, pid) && s.procs[pid].reader.list.Some? && s.procs[pid].reader.child.None? then
        WithProc(s, pid, Reading(s.procs[pid].reader.(child := Some(t.child))))
      else s
    case IssueReads(pid) =>
      if IsReading(s, pid) && s.procs[pid].reader.child.Some? && s.procs[pid].reader.since.None? then
        WithProc(s, pid, Reading(s.procs[pid].reader.(since := Some(s.now))))
      else s
    case ReadCategories(pid) =>
      if IsReading(s, pid) && s.procs[pid].reader.since.Some? && s.procs[pid].reader.categories.None? then
        WithProc(s, pid, Reading(s.procs[pid].reader.(categories := Some(EnabledInOrder(t.categories)))))
      else s
    case ReadSchedules(pid) =>
      if IsReading(s, pid) && s.procs[pid].reader.since.Some? && s.procs[pid].reader.schedules.None? then
        WithProc(s, pid, Reading(s.procs[pid].reader.(schedules := Some(ScheduleList(t.schedules)))))
      else s
    case ReadRules(pid) =>
      if IsReading(s, pid) && s.procs[pid].reader.since.Some? && s.procs[pid].reader.rules.None? then
        WithProc(s, pid, Reading(s.procs[pid].reader.(rules := Some(LiveRules(RuleList(t.rules), s.procs[pid].reader.since.value)))))
      else s
    case Respond(pid) =>
      if IsReading(s, pid) && AllRead(s.procs[pid].reader) then
        WithProc(s, pid, Answered(ReplyTo(s.procs[pid].reader, s.now)))
      else s
    case Deliver =>
      if s.agent.waiting.Some? && s.agent.waiting.value in s.procs && s.procs[s.agent.waiting.value].Answered? then
        var reply := s.procs[s.agent.waiting.value].reply;
        WithoutProc(s, s.agent.waiting.value).(agent :=
          s.agent.(waiting := None, received := if reply.Body? then Some(reply.policy) else None))
      else s
    case LoseReply => s.(agent := s.agent.(waiting := None))
    case SavePolicy => if s.agent.received.Some? then s.(agent := s.agent.(saved := s.agent.received)) else s
    case UpdateState =>
      if s.agent.received.Some? && s.agent.saved == s.agent.received then
        s.(agent := s.agent.(current := s.agent.received, received := None))
      else s
    case AbandonUpdate => s.(agent := s.agent.(received := None))
    case Restart => s.(agent := Agent(s.agent.saved, s.agent.saved, None, None))
  }

  function Run(s: State, steps: seq<Step>): State
    decreases |steps|
  {
    if steps == [] then s else Run(Apply(s, steps[0]), steps[1..])
  }

  /** A child whose creation is finished, before any device knows it. */
  predicate Initial(s: State) {
    s.procs == map[] && s.agent == Agent(None, None, None, None) && !s.drifted
  }

  // ---- The invariant ---------------------------------------------------------

  predicate SameSettings(p: Policy, c: ChildRow) {
    p.ageBand == c.ageBand && p.timezone == c.timezone && p.safeSearch == c.safeSearch
    && p.youtubeRestricted == c.youtubeRestricted && p.paused == c.paused
  }

  /** The policy is the tables' content, up to rules that have expired by now. */
  ghost predicate Agrees(p: Policy, t: Tables, now: int) {
    && SameSettings(p, t.child)
    && p.enabledCategories == EnabledInOrder(t.categories)
    && p.schedules == ScheduleList(t.schedules)
    && LiveRules(p.domainRules, now) == LiveRules(RuleList(t.rules), now)
  }

  /** Nothing shown has changed since the last bump, and the version is still v. */
  ghost predicate Settled(s: State, v: int) {
    v == s.tables.child.version && !s.drifted
  }

  ghost predicate GoodPolicy(s: State, p: Policy) {
    && p.version <= s.tables.child.version
    && (Settled(s, p.version) ==> Agrees(p, s.tables, s.now))
  }

  ghost predicate GoodReader(s: State, r: Reader) {
    && (r.since.Some? ==> r.child.Some? && r.since.value <= s.now)
    && (r.categories.Some? || r.schedules.Some? || r.rules.Some? ==> r.since.Some?)
    && (r.child.Some? ==> r.child.value.version <= s.tables.child.version)
    && (r.child.Some? && Settled(s, r.child.value.version) ==>
          && r.child.value == s.tables.child
          && (r.categories.Some? ==> r.categories.value == EnabledInOrder(s.tables.categories))
          && (r.schedules.Some? ==> r.schedules.value == ScheduleList(s.tables.schedules))
          && (r.rules.Some? ==> LiveRules(r.rules.value, s.now) == LiveRules(RuleList(s.tables.rules), s.now)))
  }

  ghost predicate GoodProc(s: State, p: Proc) {
    match p
    case Reading(r) => GoodReader(s, r)
    case Answered(reply) => GoodPolicy(s, if reply.Body? then reply.policy else reply.withheld)
    case _ => true
  }

  ghost predicate GoodOption(s: State, p: Option<Policy>) {
    p.Some? ==> GoodPolicy(s, p.value)
  }

  /** The handler the agent waits for compares with what the agent holds. */
  ghost predicate GoodWait(s: State) {
    s.agent.waiting.Some? && s.agent.waiting.value in s.procs ==>
      ComparesWith(s.procs[s.agent.waiting.value], s.agent)
  }

  ghost predicate Inv(s: State) {
    && (forall pid | pid in s.procs :: GoodProc(s, s.procs[pid]))
    && GoodOption(s, s.agent.current) && GoodOption(s, s.agent.saved) && GoodOption(s, s.agent.received)
    && GoodWait(s)
    && (s.agent.received.Some? ==> s.agent.waiting.None?)
  }

  /**
   * How the store may move: the version and the clock never go back, and where the
   * version stands still and nothing has drifted the content stands still.
   */
  ghost predicate Evolves(s: State, s': State) {
    && s.tables.child.version <= s'.tables.child.version
    && s.now <= s'.now
    && (s.tables.child.version == s'.tables.child.version && !s'.drifted ==>
          && !s.drifted
          && s.tables.child == s'.tables.child
          && EnabledInOrder(s.tables.categories) == EnabledInOrder(s'.tables.categories)
          && ScheduleList(s.tables.schedules) == ScheduleList(s'.tables.schedules)
          && LiveRules(RuleList(s.tables.rules), s'.now) == LiveRules(RuleList(s'.tables.rules), s'.now))
  }

  lemma LiveLater(a: seq<DomainRule>, b: seq<DomainRule>, t: int, now: int)
    requires t <= now && LiveRules(a, t) == LiveRules(b, t)
    ensures LiveRules(a, now) == LiveRules(b, now)
  {
    LiveTwice(a, t, now);
    LiveTwice(b, t, now);
  }

  lemma GoodPolicyEvolves(s: State, s': State, p: Policy)
    requires Evolves(s, s') && GoodPolicy(s, p)
    ensures GoodPolicy(s', p)
  {
    if Settled(s', p.version) {
      LiveLater(p.domainRules, RuleList(s.tables.rules), s.now, s'.now);
    }
  }

  lemma GoodReaderEvolves(s: State, s': State, r: Reader)
    requires Evolves(s, s') && GoodReader(s, r)
    ensures GoodReader(s', r)
  {
    if r.child.Some? && Settled(s', r.child.value.version) && r.rules.Some? {
      LiveLater(r.rules.value, RuleList(s.tables.rules), s.now, s'.now);
    }
  }

  lemma GoodProcEvolves(s: State, s': State, p: Proc)
    requires Evolves(s, s') && GoodProc(s, p)
    ensures GoodProc(s', p)
  {
    match p
    case Reading(r) => GoodReaderEvolves(s, s', r);
    case Answered(reply) => GoodPolicyEvolves(s, s', if reply.Body? then reply.policy else reply.withheld);
    case _ =>
  }

  // ---- Every step evolves the store -------------------------------------------

  predicate IsWriter(step: Step) {
    step.WritePreset? || step.AddSchedule? || step.RemoveSchedule? || step.AddRule? || step.RemoveRule?
    || step.Bump? || step.PutPolicyBatch? || step.ResolveBatch? || step.Purge? || step.AskAccess?
  }

  lemma WriterEvolves(s: State, step: Step)
    requires IsWriter(step)
    ensures Evolves(s, Apply(s, step))
  {
    match step
    case WritePreset(pid) => HalfEvolves(s, step, pid);
    case AddSchedule(pid, row) => HalfEvolves(s, step, pid);
    case RemoveSchedule(pid, id) => HalfEvolves(s, step, pid);
    case AddRule(pid, row) => HalfEvolves(s, step, pid);
    case RemoveRule(pid, id) => HalfEvolves(s, step, pid);
    case Purge(cutoff) =>
      if cutoff <= s.now { PurgeEvolves(s, cutoff); }
    case _ =>
  }

  lemma PurgeEvolves(s: State, cutoff: int)
    requires cutoff <= s.now
    ensures Evolves(s, Apply(s, Purge(cutoff)))
  {
    PurgeRuleList(s.tables.rules, cutoff);
    LiveTwice(RuleList(s.tables.rules), cutoff, s.now);
  }

  /** The writers that leave the bump for later. */
  lemma HalfEvolves(s: State, step: Step, pid: Pid)
    requires step.WritePreset? || step.AddSchedule? || step.RemoveSchedule? || step.AddRule? || step.RemoveRule?
    requires step.pid == pid
    ensures Evolves(s, Apply(s, step))
  {
  }

  lemma OtherEvolves(s: State, step: Step)
    requires !IsWriter(step)
    ensures Evolves(s, Apply(s, step))
  {
    UnchangedEvolves(s, Apply(s, step));
  }

  lemma UnchangedEvolves(s: State, s': State)
    requires s'.tables == s.tables && s.now <= s'.now && s'.drifted == s.drifted
    ensures Evolves(s, s')
  {
  }

  lemma StepEvolves(s: State, step: Step)
    ensures Evolves(s, Apply(s, step))
  {
    if IsWriter(step) { WriterEvolves(s, step); } else { OtherEvolves(s, step); }
  }

  // ---- Every step keeps the invariant -----------------------------------------

  predicate IsRead(step: Step, pid: Pid) {
    || step == ReadList(pid) || step == ReadChild(pid) || step == IssueReads(pid) || step == ReadCategories(pid)
    || step == ReadSchedules(pid) || step == ReadRules(pid) || step == Respond(pid)
  }

  /** A handler that has just read something, or answered, is good in the new state. */
  lemma ReadKeepsGood(s: State, step: Step, pid: Pid)
    requires Inv(s) && pid in s.procs && s.procs[pid].Reading? && IsRead(step, pid)
    ensures pid in Apply(s, step).procs && GoodProc(Apply(s, step), Apply(s, step).procs[pid])
  {
    assert GoodReader(s, s.procs[pid].reader);
    if step == ReadRules(pid) {
      RulesReadGood(s, pid);
    } else {
      OtherReadGood(s, step, pid);
    }
  }

  lemma OtherReadGood(s: State, step: Step, pid: Pid)
    requires pid in s.procs && s.procs[pid].Reading? && GoodReader(s, s.procs[pid].reader)
    requires IsRead(step, pid) && step != ReadRules(pid)
    ensures var s' := Apply(s, step); pid in s'.procs && GoodProc(s', s'.procs[pid])
  {
    if step == Respond(pid) { AnswerGood(s, pid); }
  }

  lemma AnswerGood(s: State, pid: Pid)
    requires pid in s.procs && s.procs[pid].Reading? && GoodReader(s, s.procs[pid].reader)
    ensures var s' := Apply(s, Respond(pid)); pid in s'.procs && GoodProc(s', s'.procs[pid])
  {
  }

  lemma RulesReadGood(s: State, pid: Pid)
    requires pid in s.procs && s.procs[pid].Reading? && GoodReader(s, s.procs[pid].reader)
    ensures var s' := Apply(s, ReadRules(pid)); pid in s'.procs && GoodProc(s', s'.procs[pid])
  {
    if Apply(s, ReadRules(pid)) != s {
      LiveTwice(RuleList(s.tables.rules), s.procs[pid].reader.since.value, s.now);
    }
  }

  /** A process that a step leaves as it was, or that only writers and crashes touch. */
  predicate Untouched(s: State, s': State, pid: Pid) {
    pid in s'.procs && ((pid in s.procs && s.procs[pid] == s'.procs[pid])
                        || (!s'.procs[pid].Reading? && !s'.procs[pid].Answered?))
  }

  lemma OnlyOneTouched(s: State, step: Step, pid: Pid)
    requires pid in Apply(s, step).procs
    ensures Untouched(s, Apply(s, step), pid)
         || (IsRead(step, pid) && pid in s.procs && s.procs[pid].Reading?)
         || (step == StartSync(pid) && pid !in s.procs)
  {
  }

  lemma ProcsKeepGood(s: State, step: Step)
    requires Inv(s)
    ensures var s' := Apply(s, step); forall pid | pid in s'.procs :: GoodProc(s', s'.procs[pid])
  {
    var s' := Apply(s, step);
    StepEvolves(s, step);
    forall pid | pid in s'.procs ensures GoodProc(s', s'.procs[pid]) {
      OnlyOneTouched(s, step, pid);
      if Untouched(s, s', pid) {
        if pid in s.procs && s.procs[pid] == s'.procs[pid] {
          GoodProcEvolves(s, s', s.procs[pid]);
        }
      } else if IsRead(step, pid) {
        ReadKeepsGood(s, step, pid);
      }
    }
  }

  predicate DeliversBody(s: State, step: Step, p: Policy) {
    step == Deliver && s.agent.waiting.Some? && s.agent.waiting.value in s.procs
    && s.procs[s.agent.waiting.value] == Answered(Body(p))
  }

  /** Every policy the agent holds afterwards it held before, or the answer carried it. */
  lemma AgentSources(s: State, step: Step)
    ensures var a, a' := s.agent, Apply(s, step).agent;
            && (a'.current == a.current || a'.current == a.saved || a'.current == a.received)
            && (a'.saved == a.saved || a'.saved == a.received)
            && (a'.received == a.received || a'.received.None? || DeliversBody(s, step, a'.received.value))
  {
  }

  lemma AgentKeepsGood(s: State, step: Step)
    requires Inv(s)
    ensures var s' := Apply(s, step);
            GoodOption(s', s'.agent.current) && GoodOption(s', s'.agent.saved) && GoodOption(s', s'.agent.received)
  {
    var s' := Apply(s, step);
    StepEvolves(s, step);
    AgentSources(s, step);
    OptionEvolves(s, s', s.agent.current);
    OptionEvolves(s, s', s.agent.saved);
    OptionEvolves(s, s', s.agent.received);
    if s'.agent.received.Some? && DeliversBody(s, step, s'.agent.received.value) {
      GoodProcEvolves(s, s', s.procs[s.agent.waiting.value]);
    }
  }

  lemma OptionEvolves(s: State, s': State, p: Option<Policy>)
    requires Evolves(s, s') && GoodOption(s, p)
    ensures GoodOption(s', p)
  {
    if p.Some? {
      GoodPolicyEvolves(s, s', p.value);
    }
  }

  /** A handler compares with what the agent holds as long as the agent waits for it. */
  ghost predicate ComparesWith(p: Proc, a: Agent) {
    match p
    case Reading(r) => r.knownVersion == KnownVersion(a) && r.knownList == KnownList(a)
    case Answered(NotModified(withheld)) => withheld.version == KnownVersion(a) && withheld.listVersion == KnownList(a)
    case _ => true
  }

  lemma StillWaiting(s: State, step: Step)
    requires s.agent.received.Some? ==> s.agent.waiting.None?
    ensures var a, a' := s.agent, Apply(s, step).agent;
            && (a'.received.Some? ==> a'.waiting.None?)
            && (a'.waiting.Some? ==> a'.current == a.current && (a'.waiting == a.waiting || step == StartSync(a'.waiting.value)))
  {
  }

  lemma ReadKeepsComparison(s: State, step: Step, pid: Pid, a: Agent)
    requires pid in s.procs && s.procs[pid].Reading? && IsRead(step, pid) && ComparesWith(s.procs[pid], a)
    ensures pid in Apply(s, step).procs && ComparesWith(Apply(s, step).procs[pid], a)
  {
  }

  lemma WaitKeepsGood(s: State, step: Step)
    requires Inv(s)
    ensures GoodWait(Apply(s, step))
    ensures Apply(s, step).agent.received.Some? ==> Apply(s, step).agent.waiting.None?
  {
    var s' := Apply(s, step);
    StillWaiting(s, step);
    if s'.agent.waiting.Some? && s'.agent.waiting.value in s'.procs {
      var pid := s'.agent.waiting.value;
      OnlyOneTouched(s, step, pid);
      if IsRead(step, pid) && pid in s.procs && s.procs[pid].Reading? {
        ReadKeepsComparison(s, step, pid, s.agent);
      }
    }
  }

  lemma StepKeepsInv(s: State, step: Step)
    requires Inv(s)
    ensures Inv(Apply(s, step))
  {
    ProcsKeepGood(s, step);
    AgentKeepsGood(s, step);
    WaitKeepsGood(s, step);
  }

  /** The invariant holds in every reachable state. */
  lemma {:induction false} RunKeepsInv(s: State, steps: seq<Step>)
    requires Inv(s)
    ensures Inv(Run(s, steps))
    decreases |steps|
  {
    if steps != [] {
      StepKeepsInv(s, steps[0]);
      RunKeepsInv(Apply(s, steps[0]), steps[1..]);
    }
  }

  // ---- What follows ------------------------------------------------------------

  /**
   * Sync agreement: in every reachable state in which what policies show is what it
   * was at the last bump, an agent that holds the server's version and list version holds the server's
   * policy, up to rules that have expired; so it decides alike for every name.
   */
  lemma {:induction false} SyncAgreement(init: State, steps: seq<Step>, lists: Lists, input: string, clock: Clock)
    requires Initial(init)
    ensures var s := Run(init, steps);
            s.agent.current.Some? && !s.drifted
            && s.agent.current.value.version == s.tables.child.version
            && s.agent.current.value.listVersion == s.list ==>
              var held := s.agent.current.value;
              var built := SnapshotPolicy(s.tables, s.list, s.now);
              held.(domainRules := LiveRules(held.domainRules, s.now), generatedAt := s.now) == built
              && Evaluate(held, lists, input, s.now, clock) == Evaluate(built, lists, input, s.now, clock)
  {
    RunKeepsInv(init, steps);
    var s := Run(init, steps);
    if s.agent.current.Some? && Settled(s, s.agent.current.value.version) {
      AgreementDecides(s.agent.current.value, s.tables, s.list, lists, input, s.now, clock);
    }
  }

  lemma AgreementDecides(p: Policy, t: Tables, list: string, lists: Lists, input: string, now: int, clock: Clock)
    requires Agrees(p, t, now)
    ensures Evaluate(p, lists, input, now, clock) == Evaluate(SnapshotPolicy(t, list, now), lists, input, now, clock)
  {
    LiveTwice(RuleList(t.rules), now, now);
    LiveAgreementSuffices(p, SnapshotPolicy(t, list, now), lists, input, now, clock);
  }

  /**
   * A 304 only withholds a policy the agent already has: same version and list
   * version always, and once the version is settled the same content, both being
   * the server's.
   */
  lemma {:induction false} NotModifiedIsHarmless(init: State, steps: seq<Step>, pid: Pid)
    requires Initial(init)
    ensures var s := Run(init, steps);
            s.agent.waiting == Some(pid) && pid in s.procs && s.procs[pid].Answered? && s.procs[pid].reply.NotModified? ==>
              var withheld := s.procs[pid].reply.withheld;
              withheld.version == KnownVersion(s.agent) && withheld.listVersion == KnownList(s.agent)
              && (s.agent.current.Some? && Settled(s, withheld.version) ==>
                    Agrees(s.agent.current.value, s.tables, s.now) && Agrees(withheld, s.tables, s.now))
  {
    RunKeepsInv(init, steps);
    var s := Run(init, steps);
    if s.agent.waiting == Some(pid) && pid in s.procs && s.procs[pid].Answered? && s.procs[pid].reply.NotModified? {
      assert GoodProc(s, s.procs[pid]);
    }
  }

  /** The agent never holds a version from the future, and versions never go back. */
  lemma {:induction false} VersionsMonotone(init: State, steps: seq<Step>, more: seq<Step>)
    requires Initial(init)
    ensures var s := Run(init, steps);
            s.tables.child.version <= Run(s, more).tables.child.version
            && (s.agent.current.Some? ==> s.agent.current.value.version <= s.tables.child.version)
  {
    RunKeepsInv(init, steps);
    RunEvolves(Run(init, steps), more);
  }

  lemma {:induction false} RunEvolves(s: State, steps: seq<Step>)
    ensures s.tables.child.version <= Run(s, steps).tables.child.version
    decreases |steps|
  {
    if steps != [] {
      StepEvolves(s, steps[0]);
      RunEvolves(Apply(s, steps[0]), steps[1..]);
    }
  }

  lemma {:induction false} RunCons(s: State, step: Step, rest: seq<Step>)
    ensures Run(s, [step] + rest) == Run(Apply(s, step), rest)
  {
    assert ([step] + rest)[1..] == rest;
  }

  lemma {:induction false} RunConcat(s: State, a: seq<Step>, b: seq<Step>)
    ensures Run(s, a + b) == Run(Run(s, a), b)
    decreases |a|
  {
    if a == [] {
      assert a + b == b;
    } else {
      assert (a + b)[1..] == a[1..] + b;
      RunConcat(Apply(s, a[0]), a[1..], b);
    }
  }

  /** One undisturbed sync: the handler's reads, then the agent's installation. */
  function HandlerSteps(pid: Pid): seq<Step> {
    [ReadList(pid)] + ([ReadChild(pid)] + ([IssueReads(pid)] + ([ReadCategories(pid)] + ([ReadSchedules(pid)] + ([ReadRules(pid)] + [Respond(pid)])))))
  }

  function InstallSteps(): seq<Step> {
    [Deliver] + ([SavePolicy] + [UpdateState])
  }

  function QuietSync(pid: Pid): seq<Step> {
    [StartSync(pid)] + (HandlerSteps(pid) + InstallSteps())
  }

  lemma {:induction false} RunOne(s: State, step: Step)
    ensures Run(s, [step]) == Apply(s, step)
  {
    assert [step][1..] == [];
  }

  function StartReader(a: Agent): Reader {
    Reader(KnownVersion(a), KnownList(a), None, None, None, None, None, None)
  }

  function FullReader(s: State): Reader {
    Reader(KnownVersion(s.agent), KnownList(s.agent), Some(s.list), Some(s.tables.child), Some(s.now),
           Some(EnabledInOrder(s.tables.categories)), Some(ScheduleList(s.tables.schedules)),
           Some(LiveRules(RuleList(s.tables.rules), s.now)))
  }

  /** s with the handler pid at r. */
  function At(s: State, pid: Pid, r: Reader): State {
    WithProc(s, pid, Reading(r))
  }

  lemma ReadListStep(s: State, pid: Pid, r: Reader)
    requires r.list.None?
    ensures Apply(At(s, pid, r), ReadList(pid)) == At(s, pid, r.(list := Some(s.list)))
  {
  }

  lemma ReadChildStep(s: State, pid: Pid, r: Reader)
    requires r.list.Some? && r.child.None?
    ensures Apply(At(s, pid, r), ReadChild(pid)) == At(s, pid, r.(child := Some(s.tables.child)))
  {
  }

  lemma IssueReadsStep(s: State, pid: Pid, r: Reader)
    requires r.child.Some? && r.since.None?
    ensures Apply(At(s, pid, r), IssueReads(pid)) == At(s, pid, r.(since := Some(s.now)))
  {
  }

  lemma ReadCategoriesStep(s: State, pid: Pid, r: Reader)
    requires r.since.Some? && r.categories.None?
    ensures Apply(At(s, pid, r), ReadCategories(pid)) == At(s, pid, r.(categories := Some(EnabledInOrder(s.tables.categories))))
  {
  }

  lemma ReadSchedulesStep(s: State, pid: Pid, r: Reader)
    requires r.since.Some? && r.schedules.None?
    ensures Apply(At(s, pid, r), ReadSchedules(pid)) == At(s, pid, r.(schedules := Some(ScheduleList(s.tables.schedules))))
  {
  }

  lemma ReadRulesStep(s: State, pid: Pid, r: Reader)
    requires r.since.Some? && r.rules.None?
    ensures Apply(At(s, pid, r), ReadRules(pid)) == At(s, pid, r.(rules := Some(LiveRules(RuleList(s.tables.rules), r.since.value))))
  {
  }

  lemma RespondStep(s: State, pid: Pid, r: Reader)
    requires AllRead(r)
    ensures Apply(At(s, pid, r), Respond(pid)) == WithProc(s, pid, Answered(ReplyTo(r, s.now)))
  {
  }

  lemma {:induction false} Advance(s: State, pid: Pid, r: Reader, r': Reader, step: Step, rest: seq<Step>)
    requires Apply(At(s, pid, r), step) == At(s, pid, r')
    ensures Run(At(s, pid, r), [step] + rest) == Run(At(s, pid, r'), rest)
  {
    RunCons(At(s, pid, r), step, rest);
  }

  /** Undisturbed, the handler answers from one state of the tables. */
  lemma {:induction false} HandlerRun(s: State, pid: Pid)
    requires pid in s.procs && s.procs[pid] == Reading(StartReader(s.agent))
    ensures Run(s, HandlerSteps(pid)) == WithProc(s, pid, Answered(ReplyTo(FullReader(s), s.now)))
  {
    var r0 := StartReader(s.agent);
    var r1 := r0.(list := Some(s.list));
    var r2 := r1.(child := Some(s.tables.child));
    var r3 := r2.(since := Some(s.now));
    var rest := [ReadCategories(pid)] + ([ReadSchedules(pid)] + ([ReadRules(pid)] + [Respond(pid)]));
    assert At(s, pid, r0) == s;
    ReadListStep(s, pid, r0);
    Advance(s, pid, r0, r1, ReadList(pid), [ReadChild(pid)] + ([IssueReads(pid)] + rest));
    ReadChildStep(s, pid, r1);
    Advance(s, pid, r1, r2, ReadChild(pid), [IssueReads(pid)] + rest);
    IssueReadsStep(s, pid, r2);
    Advance(s, pid, r2, r3, IssueReads(pid), rest);
    ContentReads(s, pid, r3);
  }

  lemma ContentReads(s: State, pid: Pid, r3: Reader)
    requires r3 == FullReader(s).(categories := None, schedules := None, rules := None)
    ensures Run(At(s, pid, r3), [ReadCategories(pid)] + ([ReadSchedules(pid)] + ([ReadRules(pid)] + [Respond(pid)])))
         == WithProc(s, pid, Answered(ReplyTo(FullReader(s), s.now)))
  {
    var r4 := r3.(categories := Some(EnabledInOrder(s.tables.categories)));
    var r5 := r4.(schedules := Some(ScheduleList(s.tables.schedules)));
    ReadCategoriesStep(s, pid, r3);
    Advance(s, pid, r3, r4, ReadCategories(pid), [ReadSchedules(pid)] + ([ReadRules(pid)] + [Respond(pid)]));
    ReadSchedulesStep(s, pid, r4);
    Advance(s, pid, r4, r5, ReadSchedules(pid), [ReadRules(pid)] + [Respond(pid)]);
    ReadRulesStep(s, pid, r5);
    Advance(s, pid, r5, FullReader(s), ReadRules(pid), [Respond(pid)]);
    RespondStep(s, pid, FullReader(s));
    RunOne(At(s, pid, FullReader(s)), Respond(pid));
  }

  /** Installing an answer: a body replaces both copies, a 304 leaves them. */
  lemma {:induction false} InstallRun(s: State, pid: Pid, reply: Reply)
    requires pid in s.procs && s.procs[pid] == Answered(reply) && s.agent.waiting == Some(pid)
    ensures var s' := Run(s, InstallSteps());
            s'.tables == s.tables && s'.now == s.now && s'.list == s.list && s'.procs == s.procs - {pid} && s'.drifted == s.drifted
            && s'.agent == if reply.Body? then Agent(Some(reply.policy), Some(reply.policy), None, None)
                           else s.agent.(waiting := None, received := None)
  {
    RunCons(s, Deliver, [SavePolicy] + [UpdateState]);
    var s1 := Apply(s, Deliver);
    RunCons(s1, SavePolicy, [UpdateState]);
    RunOne(Apply(s1, SavePolicy), UpdateState);
  }

  /**
   * Convergence: from every reachable state with an idle agent, one undisturbed
   * sync brings the agent to the server's version, and, unless the content has
   * drifted since the last bump, to the server's policy.
   */
  lemma {:induction false} QuietSyncConverges(init: State, steps: seq<Step>, pid: Pid)
    requires Initial(init)
    ensures var s := Run(init, steps);
            var s' := Run(s, QuietSync(pid));
            s.agent.waiting.None? && s.agent.received.None? && pid !in s.procs ==>
              s'.tables == s.tables && s'.agent.current.Some?
              && s'.agent.current.value.version == s.tables.child.version
              && s'.agent.current.value.listVersion == s.list
              && (!s.drifted ==> Agrees(s'.agent.current.value, s'.tables, s'.now))
  {
    var s := Run(init, steps);
    if s.agent.waiting.None? && s.agent.received.None? && pid !in s.procs {
      RunKeepsInv(init, steps);
      QuietSyncFrom(s, pid);
    }
  }

  lemma {:induction false} QuietSyncFrom(s: State, pid: Pid)
    requires Inv(s) && s.agent.waiting.None? && s.agent.received.None? && pid !in s.procs
    ensures var s' := Run(s, QuietSync(pid));
            s'.tables == s.tables && s'.now == s.now && s'.procs == s.procs && s'.drifted == s.drifted && s'.agent.current.Some?
            && s'.agent.current.value.version == s.tables.child.version
            && s'.agent.current.value.listVersion == s.list
            && (!s.drifted ==> Agrees(s'.agent.current.value, s'.tables, s'.now))
  {
    var s1 := Apply(s, StartSync(pid));
    var reply := ReplyTo(FullReader(s1), s1.now);
    QuietRun(s, pid);
    var s' := Run(s, QuietSync(pid));
    RunKeepsInv(s, QuietSync(pid));
    QuietVersion(s, reply, s');
    assert GoodPolicy(s', s'.agent.current.value);
  }

  lemma {:induction false} QuietRun(s: State, pid: Pid)
    requires s.agent.waiting.None? && s.agent.received.None? && pid !in s.procs
    ensures var s' := Run(s, QuietSync(pid));
            var reply := ReplyTo(FullReader(Apply(s, StartSync(pid))), s.now);
            s'.tables == s.tables && s'.now == s.now && s'.procs == s.procs && s'.drifted == s.drifted
            && s'.agent == if reply.Body? then Agent(Some(reply.policy), Some(reply.policy), None, None) else s.agent
  {
    var s1 := Apply(s, StartSync(pid));
    RunCons(s, StartSync(pid), HandlerSteps(pid) + InstallSteps());
    RunConcat(s1, HandlerSteps(pid), InstallSteps());
    StartAlone(s, pid);
    HandlerRun(s1, pid);
    var reply := ReplyTo(FullReader(s1), s1.now);
    InstallRun(WithProc(s1, pid, Answered(reply)), pid, reply);
    assert WithProc(s1, pid, Answered(reply)).procs - {pid} == s.procs;
  }

  lemma StartAlone(s: State, pid: Pid)
    requires s.agent.waiting.None? && s.agent.received.None? && pid !in s.procs
    ensures var s1 := Apply(s, StartSync(pid));
            && s1.procs == s.procs[pid := Reading(StartReader(s.agent))] && StartReader(s1.agent) == StartReader(s.agent)
            && s1.tables == s.tables && s1.now == s.now && s1.drifted == s.drifted && s1.agent == s.agent.(waiting := Some(pid))
  {
  }

  lemma QuietVersion(s: State, reply: Reply, s': State)
    requires reply == ReplyTo(FullReader(s), s.now)
    requires s'.agent == if reply.Body? then Agent(Some(reply.policy), Some(reply.policy), None, None) else s.agent
    ensures s'.agent.current.Some?
    ensures s'.agent.current.value.version == s.tables.child.version && s'.agent.current.value.listVersion == s.list
  {
  }

  /** The handlers that change content in one statement and bump the version in the next. */
  predicate IsHalfWriter(step: Step) {
    step.WritePreset? || step.AddSchedule? || step.RemoveSchedule? || step.AddRule? || step.RemoveRule?
  }

  predicate Writable(s: State, step: Step)
    requires IsHalfWriter(step)
  {
    if step.WritePreset? then step.pid in s.procs && s.procs[step.pid].PresetRead? else Fresh(s, step.pid)
  }

  /**
   * The proviso is needed, for every one of these handlers: if it dies between its
   * change and its bump, an agent that was up to date still has the right version, and
   * the right policy if and only if the change shows in no policy.
   */
  lemma {:induction false} CrashLeavesStale(s: State, step: Step)
    requires IsHalfWriter(step) && Writable(s, step) && s.agent.current.Some?
    requires Agrees(s.agent.current.value, s.tables, s.now) && s.agent.current.value.version == s.tables.child.version
    ensures var s' := Run(s, [step] + [Crash(step.pid)]);
            && s'.agent == s.agent && step.pid !in s'.procs
            && s'.agent.current.value.version == s'.tables.child.version
            && (Agrees(s'.agent.current.value, s'.tables, s'.now) <==> SameShown(s.tables, s'.tables, s.now))
            && (s'.drifted <==> s.drifted || !SameShown(s.tables, s'.tables, s.now))
  {
    RunCons(s, step, [Crash(step.pid)]);
    RunOne(Apply(s, step), Crash(step.pid));
    CrashedHalf(s, step);
  }

  lemma CrashedHalf(s: State, step: Step)
    requires IsHalfWriter(step) && Writable(s, step)
    ensures var s' := Apply(Apply(s, step), Crash(step.pid));
            && step.pid !in s'.procs && s'.agent == s.agent && s'.now == s.now && s'.tables.child == s.tables.child
            && (s'.drifted <==> s.drifted || !SameShown(s.tables, s'.tables, s.now))
  {
    HalfStep(s, step);
    CrashAlone(Apply(s, step), step.pid);
  }

  lemma CrashAlone(s: State, pid: Pid)
    ensures Apply(s, Crash(pid)) == WithoutProc(s, pid)
  {
  }

  lemma HalfStep(s: State, step: Step)
    requires IsHalfWriter(step) && Writable(s, step)
    ensures var s' := Apply(s, step); s' == Changed(s, step.pid, s'.tables) && s'.tables.child == s.tables.child
  {
    if step.WritePreset? { PresetStep(s, step.pid); } else { RowStep(s, step); }
  }

  lemma PresetStep(s: State, pid: Pid)
    requires pid in s.procs && s.procs[pid].PresetRead?
    ensures var s' := Apply(s, WritePreset(pid)); s' == Changed(s, pid, s'.tables) && s'.tables.child == s.tables.child
  {
  }

  lemma RowStep(s: State, step: Step)
    requires IsHalfWriter(step) && !step.WritePreset? && Fresh(s, step.pid)
    ensures var s' := Apply(s, step); s' == Changed(s, step.pid, s'.tables) && s'.tables.child == s.tables.child
  {
    if step.AddSchedule? || step.RemoveSchedule? { ScheduleStep(s, step); } else { RuleStep(s, step); }
  }

  lemma ScheduleStep(s: State, step: Step)
    requires (step.AddSchedule? || step.RemoveSchedule?) && Fresh(s, step.pid)
    ensures var s' := Apply(s, step); s' == Changed(s, step.pid, s'.tables) && s'.tables.child == s.tables.child
  {
  }

  lemma RuleStep(s: State, step: Step)
    requires (step.AddRule? || step.RemoveRule?) && Fresh(s, step.pid)
    ensures var s' := Apply(s, step); s' == Changed(s, step.pid, s'.tables) && s'.tables.child == s.tables.child
  {
  }

  // ---- How long a stale policy can stay ------------------------------------------

  lemma StepBumps(s: State, step: Step)
    ensures var s' := Apply(s, step);
            s'.tables.child == s.tables.child || (s'.tables.child.version > s.tables.child.version && !s'.drifted)
  {
  }

  lemma {:induction false} VersionFixesChild(s: State, steps: seq<Step>)
    ensures Run(s, steps).tables.child.version == s.tables.child.version ==> Run(s, steps).tables.child == s.tables.child
    decreases |steps|
  {
    if steps != [] {
      StepBumps(s, steps[0]);
      StepEvolves(s, steps[0]);
      RunEvolves(Apply(s, steps[0]), steps[1..]);
      VersionFixesChild(Apply(s, steps[0]), steps[1..]);
    }
  }

  lemma {:induction false} RunClock(s: State, steps: seq<Step>)
    ensures s.now <= Run(s, steps).now
    decreases |steps|
  {
    if steps != [] {
      StepEvolves(s, steps[0]);
      RunClock(Apply(s, steps[0]), steps[1..]);
    }
  }

  /**
   * The exact condition over runs: an agent that was up to date, and still holds that
   * policy under a version that has not moved, is up to date if and only if policies
   * built now show what they showed then.
   */
  lemma {:induction false} StaleExactly(s: State, steps: seq<Step>)
    requires s.agent.current.Some? && Agrees(s.agent.current.value, s.tables, s.now)
    ensures var s' := Run(s, steps);
            s'.agent.current == s.agent.current && s'.tables.child.version == s.tables.child.version ==>
              (Agrees(s'.agent.current.value, s'.tables, s'.now) <==> SameShown(s.tables, s'.tables, s'.now))
  {
    VersionFixesChild(s, steps);
    RunClock(s, steps);
    LiveLater(s.agent.current.value.domainRules, RuleList(s.tables.rules), s.now, Run(s, steps).now);
  }

  lemma NoNewDrift(s: State, step: Step)
    requires !IsHalfWriter(step) && !s.drifted
    ensures !Apply(s, step).drifted
  {
  }

  lemma {:induction false} StaysSettled(s: State, steps: seq<Step>)
    requires !s.drifted && forall step | step in steps :: !IsHalfWriter(step)
    ensures !Run(s, steps).drifted
    decreases |steps|
  {
    if steps != [] {
      assert steps[0] in steps;
      NoNewDrift(s, steps[0]);
      StaysSettled(Apply(s, steps[0]), steps[1..]);
    }
  }

  /**
   * Any bump heals: whatever crashed before, once some handler has raised the version and
   * until content changes again, an agent with the server's version has its content, and
   * one undisturbed sync gets it there.
   */
  lemma {:induction false} BumpHeals(init: State, steps: seq<Step>, bump: Step, more: seq<Step>, pid: Pid)
    requires Initial(init) && forall step | step in more :: !IsHalfWriter(step)
    requires Apply(Run(init, steps), bump).tables.child.version > Run(init, steps).tables.child.version
    ensures var s := Run(init, steps + ([bump] + more));
            && (s.agent.current.Some? && s.agent.current.value.version == s.tables.child.version ==>
                  Agrees(s.agent.current.value, s.tables, s.now))
            && (s.agent.waiting.None? && s.agent.received.None? && pid !in s.procs ==>
                  var s' := Run(s, QuietSync(pid)); s'.agent.current.Some? && Agrees(s'.agent.current.value, s'.tables, s'.now))
  {
    var before := Run(init, steps);
    RunConcat(init, steps, [bump] + more);
    RunCons(before, bump, more);
    StepBumps(before, bump);
    StaysSettled(Apply(before, bump), more);
    var s := Run(init, steps + ([bump] + more));
    RunKeepsInv(init, steps + ([bump] + more));
    if s.agent.waiting.None? && s.agent.received.None? && pid !in s.procs {
      QuietSyncFrom(s, pid);
    }
  }

  /** A new schedule always shows. */
  lemma AddedScheduleShows(t: Tables, row: ScheduleRow, now: int)
    ensures !SameShown(t, t.(schedules := t.schedules + [row]), now)
  {
    assert |ScheduleList(t.schedules + [row])| == |ScheduleList(t.schedules)| + 1;
  }

  // ---- What a parent stores reaches the child --------------------------------------

  predicate Idle(s: State, pid: Pid) {
    s.agent.waiting.None? && s.agent.received.None? && pid !in s.procs
  }

  /** The rules of the agent's policy that live now are the live ones that are stored. */
  lemma {:induction false} SyncedContent(s: State, pid: Pid, c: Category, rule: DomainRule)
    requires Inv(s) && Idle(s, pid) && !s.drifted
    ensures var s' := Run(s, QuietSync(pid));
            && s'.agent.current.Some?
            && (c in s'.agent.current.value.enabledCategories <==> c in s.tables.categories && s.tables.categories[c])
            && multiset(s'.agent.current.value.schedules) == ScheduleBag(s.tables.schedules)
            && (HasRule(s.tables.rules, rule) && LiveAt(s.now)(rule) ==> rule in s'.agent.current.value.domainRules)
            && (rule in s'.agent.current.value.domainRules && LiveAt(s.now)(rule) ==> HasRule(s.tables.rules, rule))
            && SameSettings(s'.agent.current.value, s.tables.child)
  {
    QuietSyncFrom(s, pid);
    var p := Run(s, QuietSync(pid)).agent.current.value;
    EnabledExact(s.tables.categories, c);
    SchedulesExact(s.tables.schedules);
    LiveMembers(p.domainRules, s.tables.rules, s.now, rule);
  }

  lemma {:induction false} LiveMembers(held: seq<DomainRule>, rows: seq<RuleRow>, now: int, rule: DomainRule)
    requires LiveRules(held, now) == LiveRules(RuleList(rows), now)
    ensures LiveAt(now)(rule) ==> (rule in held <==> HasRule(rows, rule))
  {
    WhereMembers(held, LiveAt(now), rule);
    WhereMembers(RuleList(rows), LiveAt(now), rule);
    RuleListMembers(rows, rule);
  }

  /** A policy update reaches the child with the next sync: its settings, and the chosen categories and threats. */
  lemma {:induction false} UpdateReachesAgent(init: State, steps: seq<Step>, child: ChildRow, enabled: set<Category>, pid: Pid, c: Category)
    requires Initial(init) && Idle(Run(init, steps), pid)
    ensures var s' := Run(Apply(Run(init, steps), PutPolicyBatch(child, enabled)), QuietSync(pid));
            && s'.agent.current.Some? && SameSettings(s'.agent.current.value, child)
            && (c in s'.agent.current.value.enabledCategories <==> c in enabled || c == Threats)
  {
    var s := Run(init, steps);
    RunKeepsInv(init, steps);
    StepKeepsInv(s, PutPolicyBatch(child, enabled));
    SyncedContent(Apply(s, PutPolicyBatch(child, enabled)), pid, c, DomainRule("", "", None));
  }

  /** A rule that a parent adds is in the child's policy after the next sync, while it lives. */
  lemma {:induction false} RuleReachesAgent(init: State, steps: seq<Step>, writer: Pid, row: RuleRow, pid: Pid)
    requires Initial(init) && Ascending(Domains(init.tables.rules))
    requires Idle(Run(init, steps), pid) && writer !in Run(init, steps).procs && LiveAt(Run(init, steps).now)(row.rule)
    ensures var s' := Run(Apply(Apply(Run(init, steps), AddRule(writer, row)), Bump(writer)), QuietSync(pid));
            s'.agent.current.Some? && row.rule in s'.agent.current.value.domainRules
  {
    var s := Run(init, steps);
    var s1 := Apply(s, AddRule(writer, row));
    var s2 := Apply(s1, Bump(writer));
    RunKeepsInv(init, steps);
    StepKeepsInv(s, AddRule(writer, row));
    StepKeepsInv(s1, Bump(writer));
    RulesStayOrdered(init, steps);
    UpsertHas(s.tables.rules, row);
    AddedAndBumped(s, writer, row, pid);
    SyncedContent(s2, pid, Adult, row.rule);
  }

  /** A removed rule is gone from the child's policy after the next sync, unless another row has it. */
  lemma {:induction false} RemovalReachesAgent(init: State, steps: seq<Step>, writer: Pid, id: string, pid: Pid, rule: DomainRule)
    requires Initial(init) && Idle(Run(init, steps), pid) && writer !in Run(init, steps).procs && LiveAt(Run(init, steps).now)(rule)
    ensures var s := Run(init, steps);
            var s' := Run(Apply(Apply(s, RemoveRule(writer, id)), Bump(writer)), QuietSync(pid));
            && s'.agent.current.Some?
            && (rule in s'.agent.current.value.domainRules <==> exists row :: row in s.tables.rules && row.id != id && row.rule == rule)
  {
    var s := Run(init, steps);
    var s1 := Apply(s, RemoveRule(writer, id));
    var s2 := Apply(s1, Bump(writer));
    RunKeepsInv(init, steps);
    StepKeepsInv(s, RemoveRule(writer, id));
    StepKeepsInv(s1, Bump(writer));
    RemovedAndBumped(s, writer, id, pid);
    SyncedContent(s2, pid, Adult, rule);
    RemovedRule(s.tables.rules, id, rule);
  }

  lemma RemovedAndBumped(s: State, writer: Pid, id: string, pid: Pid)
    requires Idle(s, pid) && writer !in s.procs
    ensures var s2 := Apply(Apply(s, RemoveRule(writer, id)), Bump(writer));
            s2.tables.rules == DeleteRule(s.tables.rules, id) && s2.now == s.now && !s2.drifted && Idle(s2, pid)
  {
  }

  lemma RemovedRule(rows: seq<RuleRow>, id: string, rule: DomainRule)
    ensures HasRule(DeleteRule(rows, id), rule) <==> exists row :: row in rows && row.id != id && row.rule == rule
  {
    if row :| row in rows && row.id != id && row.rule == rule {
      WhereMembers(rows, OtherThan(id), row);
      assert row in DeleteRule(rows, id);
    }
    if HasRule(DeleteRule(rows, id), rule) {
      var row :| row in DeleteRule(rows, id) && row.rule == rule;
      WhereMembers(rows, OtherThan(id), row);
    }
  }

  /** Schedules that a parent adds reach the child, and schedules that it removes leave it. */
  lemma {:induction false} SchedulesReachAgent(init: State, steps: seq<Step>, writer: Pid, row: ScheduleRow, id: string, pid: Pid)
    requires Initial(init) && Idle(Run(init, steps), pid) && writer !in Run(init, steps).procs
    ensures var s := Run(init, steps);
            var added := Run(Apply(Apply(s, AddSchedule(writer, row)), Bump(writer)), QuietSync(pid));
            && added.agent.current.Some?
            && multiset(added.agent.current.value.schedules) == ScheduleBag(s.tables.schedules) + multiset{row.schedule}
    ensures var s := Run(init, steps);
            var removed := Run(Apply(Apply(s, RemoveSchedule(writer, id)), Bump(writer)), QuietSync(pid));
            && removed.agent.current.Some?
            && multiset(removed.agent.current.value.schedules) == ScheduleBag(DeleteSchedule(s.tables.schedules, id))
  {
    var s := Run(init, steps);
    RunKeepsInv(init, steps);
    ScheduleSteps(s, writer, row, id, pid);
    StepKeepsInv(s, AddSchedule(writer, row));
    StepKeepsInv(Apply(s, AddSchedule(writer, row)), Bump(writer));
    SyncedContent(Apply(Apply(s, AddSchedule(writer, row)), Bump(writer)), pid, Adult, DomainRule("", "", None));
    BagNext(s.tables.schedules, row);
    StepKeepsInv(s, RemoveSchedule(writer, id));
    StepKeepsInv(Apply(s, RemoveSchedule(writer, id)), Bump(writer));
    SyncedContent(Apply(Apply(s, RemoveSchedule(writer, id)), Bump(writer)), pid, Adult, DomainRule("", "", None));
  }

  lemma {:induction false} BagNext(schedules: seq<ScheduleRow>, row: ScheduleRow)
    ensures ScheduleBag(schedules + [row]) == ScheduleBag(schedules) + multiset{row.schedule}
  {
    assert (schedules + [row])[..|schedules|] == schedules;
  }

  lemma ScheduleSteps(s: State, writer: Pid, row: ScheduleRow, id: string, pid: Pid)
    requires Idle(s, pid) && writer !in s.procs
    ensures var s2 := Apply(Apply(s, AddSchedule(writer, row)), Bump(writer));
            s2.tables.schedules == s.tables.schedules + [row] && !s2.drifted && Idle(s2, pid)
    ensures var s2 := Apply(Apply(s, RemoveSchedule(writer, id)), Bump(writer));
            s2.tables.schedules == DeleteSchedule(s.tables.schedules, id) && !s2.drifted && Idle(s2, pid)
  {
  }

  /** A reset reaches the child: of the categories it has rows for, exactly those of its age band's preset. */
  lemma {:induction false} ResetReachesAgent(init: State, steps: seq<Step>, writer: Pid, pid: Pid, c: Category)
    requires Initial(init) && Idle(Run(init, steps), pid) && writer !in Run(init, steps).procs
    ensures var s := Run(init, steps);
            var s' := Run(Apply(Apply(Apply(s, ReadPreset(writer)), WritePreset(writer)), Bump(writer)), QuietSync(pid));
            && s'.agent.current.Some?
            && (c in s'.agent.current.value.enabledCategories <==> c in s.tables.categories && c in Preset(s.tables.child.ageBand))
  {
    var s := Run(init, steps);
    var s1 := Apply(s, ReadPreset(writer));
    var s2 := Apply(s1, WritePreset(writer));
    var s3 := Apply(s2, Bump(writer));
    RunKeepsInv(init, steps);
    StepKeepsInv(s, ReadPreset(writer));
    StepKeepsInv(s1, WritePreset(writer));
    StepKeepsInv(s2, Bump(writer));
    ResetSteps(s, writer, pid);
    SyncedContent(s3, pid, c, DomainRule("", "", None));
  }

  lemma BumpAlone(s: State, pid: Pid)
    requires pid in s.procs && s.procs[pid].NeedsBump?
    ensures Apply(s, Bump(pid)) == WithoutProc(BumpedTo(s, Bumped(s.tables)), pid)
  {
  }

  lemma ReadPresetAlone(s: State, pid: Pid)
    requires pid !in s.procs
    ensures Apply(s, ReadPreset(pid)) == WithProc(s, pid, PresetRead(s.tables.child.ageBand))
  {
  }

  lemma WritePresetAlone(s: State, pid: Pid)
    requires pid in s.procs && s.procs[pid].PresetRead?
    ensures Apply(s, WritePreset(pid))
         == Changed(s, pid, s.tables.(categories := ResetEnabled(s.tables.categories, Preset(s.procs[pid].ageBand))))
  {
  }

  lemma ResetSteps(s: State, writer: Pid, pid: Pid)
    requires Idle(s, pid) && writer !in s.procs
    ensures var s3 := Apply(Apply(Apply(s, ReadPreset(writer)), WritePreset(writer)), Bump(writer));
            s3.tables.categories == ResetEnabled(s.tables.categories, Preset(s.tables.child.ageBand)) && !s3.drifted && Idle(s3, pid)
  {
    ReadPresetAlone(s, writer);
    var s1 := Apply(s, ReadPreset(writer));
    WritePresetAlone(s1, writer);
    BumpAlone(Apply(s1, WritePreset(writer)), writer);
  }

  /** A list version that is published reaches the agent with the next sync. */
  lemma {:induction false} ListReachesAgent(init: State, steps: seq<Step>, version: string, pid: Pid)
    requires Initial(init) && Idle(Run(init, steps), pid)
    ensures var s' := Run(Apply(Run(init, steps), PublishList(version)), QuietSync(pid));
            s'.agent.current.Some? && s'.agent.current.value.listVersion == version
  {
    var s := Run(init, steps);
    RunKeepsInv(init, steps);
    StepKeepsInv(s, PublishList(version));
    QuietSyncFrom(Apply(s, PublishList(version)), pid);
  }

  /** The nightly job deletes exactly the rules that have expired and the requests of more than 30 days ago. */
  lemma PurgeDeletes(s: State, cutoff: int, row: RuleRow, request: string)
    requires cutoff <= s.now
    ensures var t := Apply(s, Purge(cutoff)).tables;
            && (row in t.rules <==> row in s.tables.rules && !(row.rule.expiresAt.Some? && row.rule.expiresAt.value < cutoff))
            && (request in t.requests <==> request in s.tables.requests && s.tables.requests[request].requestedAt >= cutoff - RETENTION_MS)
  {
    PurgeMembers(s.tables.rules, cutoff, row);
  }

  /** A request for access waits for an answer, and the handler that resolves it records that answer and the rule. */
  lemma AccessAskedAndResolved(s: State, request: string, domain: string, writer: Pid, duration: Duration, ruleId: string)
    requires request !in s.tables.requests && writer !in s.procs
    ensures var asked := Apply(s, AskAccess(request, domain));
            var done := Apply(Apply(asked, ReadRequest(writer, request, duration)), ResolveBatch(writer, ruleId));
            && request in asked.tables.requests && asked.tables.requests[request] == RequestRow(domain, Pending, s.now)
            && request in done.tables.requests
            && done.tables.requests[request].status == (if duration == Deny then Denied else Approved)
            && done.tables.rules == (if duration == Deny then s.tables.rules
                                     else UpsertRule(s.tables.rules, RuleRow(ruleId, DomainRule(domain, "allow", GrantExpiry(duration, s.now)))))
            && done.tables.child.version == s.tables.child.version + 1
  {
    var asked := Apply(s, AskAccess(request, domain));
    assert Apply(asked, ReadRequest(writer, request, duration)).procs[writer] == RequestSeen(request, domain, duration);
  }

  // ---- A restart never goes back --------------------------------------------------------

  predicate NoNewer(p: Option<Policy>, version: int) {
    p.Some? ==> p.value.version <= version
  }

  /** What the agent waits for, or has received, is no older than what it has saved; and it has saved what it uses, or something newer. */
  ghost predicate SavedInv(s: State) {
    && (s.agent.current.Some? ==> s.agent.saved.Some? && s.agent.current.value.version <= s.agent.saved.value.version)
    && (s.agent.received.Some? ==> NoNewer(s.agent.saved, s.agent.received.value.version))
    && (s.agent.waiting.Some? && s.agent.waiting.value in s.procs ==> NotBehind(s.procs[s.agent.waiting.value], s.agent.saved))
  }

  ghost predicate NotBehind(p: Proc, saved: Option<Policy>) {
    match p
    case Reading(r) => r.child.Some? ==> NoNewer(saved, r.child.value.version)
    case Answered(reply) => NoNewer(saved, if reply.Body? then reply.policy.version else reply.withheld.version)
    case _ => true
  }

  lemma ReadNotBehind(s: State, step: Step, pid: Pid)
    requires pid in s.procs && s.procs[pid].Reading? && IsRead(step, pid) && NotBehind(s.procs[pid], s.agent.saved)
    requires GoodOption(s, s.agent.saved)
    ensures pid in Apply(s, step).procs && NotBehind(Apply(s, step).procs[pid], s.agent.saved)
  {
    if step == Respond(pid) {
      AnswerNotBehind(s, pid);
    }
  }

  lemma AnswerNotBehind(s: State, pid: Pid)
    requires pid in s.procs && s.procs[pid].Reading? && NotBehind(s.procs[pid], s.agent.saved)
    ensures pid in Apply(s, Respond(pid)).procs && NotBehind(Apply(s, Respond(pid)).procs[pid], s.agent.saved)
  {
  }

  /** While the agent waits, what it has saved stays as it is. */
  lemma WaitingKeepsSaved(s: State, step: Step)
    requires s.agent.received.Some? ==> s.agent.waiting.None?
    ensures Apply(s, step).agent.waiting.Some? ==> Apply(s, step).agent.saved == s.agent.saved
  {
  }

  lemma WaitNotBehind(s: State, step: Step)
    requires Inv(s) && SavedInv(s)
    ensures var s' := Apply(s, step);
            s'.agent.waiting.Some? && s'.agent.waiting.value in s'.procs ==> NotBehind(s'.procs[s'.agent.waiting.value], s'.agent.saved)
  {
    var s' := Apply(s, step);
    StillWaiting(s, step);
    WaitingKeepsSaved(s, step);
    if s'.agent.waiting.Some? && s'.agent.waiting.value in s'.procs {
      var pid := s'.agent.waiting.value;
      OnlyOneTouched(s, step, pid);
      if IsRead(step, pid) && pid in s.procs && s.procs[pid].Reading? {
        ReadNotBehind(s, step, pid);
      }
    }
  }

  lemma SavedFollows(s: State, step: Step)
    requires Inv(s) && SavedInv(s)
    ensures var a := Apply(s, step).agent;
            && (a.current.Some? ==> a.saved.Some? && a.current.value.version <= a.saved.value.version)
            && (a.received.Some? ==> NoNewer(a.saved, a.received.value.version))
  {
    match step
    case Deliver => DeliveredFollows(s);
    case SavePolicy => SavingFollows(s);
    case UpdateState => UpdateFollows(s);
    case AbandonUpdate =>
    case Restart =>
    case _ => HoldingsKept(s, step);
  }

  lemma HoldingsKept(s: State, step: Step)
    requires !step.Deliver? && !step.SavePolicy? && !step.UpdateState? && !step.AbandonUpdate? && !step.Restart?
    ensures var a := Apply(s, step).agent; a.current == s.agent.current && a.saved == s.agent.saved && a.received == s.agent.received
  {
  }

  lemma SavingFollows(s: State)
    requires SavedInv(s)
    ensures var a := Apply(s, SavePolicy).agent;
            && (a.current.Some? ==> a.saved.Some? && a.current.value.version <= a.saved.value.version)
            && (a.received.Some? ==> NoNewer(a.saved, a.received.value.version))
  {
  }

  lemma UpdateFollows(s: State)
    requires SavedInv(s)
    ensures var a := Apply(s, UpdateState).agent;
            && (a.current.Some? ==> a.saved.Some? && a.current.value.version <= a.saved.value.version)
            && (a.received.Some? ==> NoNewer(a.saved, a.received.value.version))
  {
  }

  lemma DeliveredFollows(s: State)
    requires SavedInv(s)
    ensures var a := Apply(s, Deliver).agent;
            a.saved == s.agent.saved && a.current == s.agent.current && (a.received.Some? ==> NoNewer(a.saved, a.received.value.version))
  {
  }

  lemma {:induction false} RunKeepsSaved(s: State, steps: seq<Step>)
    requires Inv(s) && SavedInv(s)
    ensures SavedInv(Run(s, steps))
    decreases |steps|
  {
    if steps != [] {
      StepKeepsInv(s, steps[0]);
      SavedFollows(s, steps[0]);
      WaitNotBehind(s, steps[0]);
      RunKeepsSaved(Apply(s, steps[0]), steps[1..]);
    }
  }

  /** In every run, what is on disk is at least as new as what the agent uses: a restart never takes it back. */
  lemma {:induction false} RestartNeverOlder(init: State, steps: seq<Step>)
    requires Initial(init)
    ensures var s := Run(init, steps);
            s.agent.current.Some? ==>
              var after := Apply(s, Restart).agent;
              after.current.Some? && s.agent.current.value.version <= after.current.value.version
  {
    RunKeepsSaved(init, steps);
  }

  /** Whatever became of an answer, the agent can ask again; a restart begins with what was saved. */
  lemma AgentRecovers(s: State)
    ensures var s' := Apply(Apply(s, LoseReply), AbandonUpdate);
            s'.agent == s.agent.(waiting := None, received := None) && s'.tables == s.tables && s'.procs == s.procs
    ensures Apply(s, Restart).agent == Agent(s.agent.saved, s.agent.saved, None, None)
    ensures s.agent.received.Some? ==>
              Apply(Apply(s, SavePolicy), Restart).agent.current == s.agent.received
  {
  }

  lemma {:induction false} AddedAndBumped(s: State, writer: Pid, row: RuleRow, pid: Pid)
    requires Idle(s, pid) && writer !in s.procs
    ensures var s2 := Apply(Apply(s, AddRule(writer, row)), Bump(writer));
            s2.tables.rules == UpsertRule(s.tables.rules, row) && s2.now == s.now && !s2.drifted && Idle(s2, pid)
  {
  }

  // ---- Request status and rule rows over runs ----------------------------------

  predicate Resolved(s: State, request: string, status: Status) {
    status != Pending && request in s.tables.requests && s.tables.requests[request].status == status
  }

  /** A resolved request keeps its answer, however resolves interleave, until retention deletes it for good. */
  lemma {:induction false} ResolutionIsFinal(s: State, steps: seq<Step>, request: string, status: Status)
    requires Resolved(s, request, status)
    requires forall step | step in steps :: !(step.AskAccess? && step.request == request)
    ensures var s' := Run(s, steps); Resolved(s', request, status) || request !in s'.tables.requests
    decreases |steps|
  {
    if steps != [] {
      var s1 := Apply(s, steps[0]);
      StepKeepsResolution(s, steps[0], request, status);
      if request in s1.tables.requests {
        ResolutionIsFinal(s1, steps[1..], request, status);
      } else {
        GoneStaysGone(s1, steps[1..], request);
      }
    }
  }

  lemma StepKeepsResolution(s: State, step: Step, request: string, status: Status)
    requires Resolved(s, request, status)
    ensures var s' := Apply(s, step); Resolved(s', request, status) || request !in s'.tables.requests
  {
    if !step.ResolveBatch? && !step.Purge? && !step.AskAccess? { RequestsKept(s, step); }
  }

  lemma RequestsKept(s: State, step: Step)
    requires !step.ResolveBatch? && !step.Purge? && !step.AskAccess?
    ensures Apply(s, step).tables.requests == s.tables.requests
  {
  }

  lemma {:induction false} GoneStaysGone(s: State, steps: seq<Step>, request: string)
    requires request !in s.tables.requests
    requires forall step | step in steps :: !(step.AskAccess? && step.request == request)
    ensures request !in Run(s, steps).tables.requests
    decreases |steps|
  {
    if steps != [] {
      assert steps[0] in steps;
      GoneStaysGone(Apply(s, steps[0]), steps[1..], request);
    }
  }

  /** One rule per domain, in the order policies list them, in every reachable state. */
  lemma {:induction false} RulesStayOrdered(s: State, steps: seq<Step>)
    requires Ascending(Domains(s.tables.rules))
    ensures Ascending(Domains(Run(s, steps).tables.rules))
    decreases |steps|
  {
    if steps != [] {
      StepKeepsOrder(s, steps[0]);
      RulesStayOrdered(Apply(s, steps[0]), steps[1..]);
    }
  }

  lemma ResolveKeepsOrder(t: Tables, request: string, domain: string, duration: Duration, ruleId: string, now: int)
    requires Ascending(Domains(t.rules))
    ensures Ascending(Domains(Resolve(t, request, domain, duration, ruleId, now).rules))
  {
    UpsertAscending(t.rules, RuleRow(ruleId, DomainRule(domain, "allow", GrantExpiry(duration, now))));
  }

  /** Where the rule rows after a step come from. */
  ghost predicate RuleSource(s: State, step: Step, rules: seq<RuleRow>) {
    || rules == s.tables.rules
    || (step.AddRule? && rules == UpsertRule(s.tables.rules, step.rule))
    || (step.RemoveRule? && rules == DeleteRule(s.tables.rules, step.id))
    || (step.Purge? && rules == PurgeRules(s.tables.rules, step.cutoff))
    || (exists request, domain, duration, ruleId ::
          rules == Resolve(s.tables, request, domain, duration, ruleId, s.now).rules)
  }

  lemma RuleSources(s: State, step: Step)
    ensures RuleSource(s, step, Apply(s, step).tables.rules)
  {
  }

  lemma SourceKeepsOrder(s: State, step: Step, rules: seq<RuleRow>)
    requires Ascending(Domains(s.tables.rules)) && RuleSource(s, step, rules)
    ensures Ascending(Domains(rules))
  {
    if rules == s.tables.rules {
    } else if step.AddRule? && rules == UpsertRule(s.tables.rules, step.rule) {
      UpsertAscending(s.tables.rules, step.rule);
    } else if step.RemoveRule? && rules == DeleteRule(s.tables.rules, step.id) {
      WhereAscending(s.tables.rules, OtherThan(step.id));
    } else if step.Purge? && rules == PurgeRules(s.tables.rules, step.cutoff) {
      WhereAscending(s.tables.rules, KeptRow(step.cutoff));
    } else {
      var request, domain, duration, ruleId :| rules == Resolve(s.tables, request, domain, duration, ruleId, s.now).rules;
      ResolveKeepsOrder(s.tables, request, domain, duration, ruleId, s.now);
    }
  }

  lemma StepKeepsOrder(s: State, step: Step)
    requires Ascending(Domains(s.tables.rules))
    ensures Ascending(Domains(Apply(s, step).tables.rules))
  {
    RuleSources(s, step);
    SourceKeepsOrder(s, step, Apply(s, step).tables.rules);
  }
}
