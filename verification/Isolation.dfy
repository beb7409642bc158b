/**
 * Household isolation. All households share the tables; every parent route checks who
 * owns the child, request or device before it writes, and the later statements of the
 * handler go by ids alone. A step is one statement or batch of a parent handler, or one
 * device request.
 */
module Isolation {
  import opened Common

  type Id = nat
  type Household = nat

  /** Ids are random: one that is minted for a household is used by no other. */
  type Home = Id -> Household

  datatype Child = Child(household: Household, name: string, ageBand: string, settings: string, categories: string, version: nat)
  datatype Schedule = Schedule(child: Id, text: string)
  datatype Rule = Rule(child: Id, domain: string, action: string)
  datatype Code = Code(child: Id, consumed: bool)
  datatype Device = Device(child: Id, revoked: bool, status: string)
  datatype Event = Event(household: Household, child: Id, device: Id, text: string)
  datatype AccessRequest = AccessRequest(household: Household, child: Id, device: Id, domain: string, status: string)

  /** Requests of a parent, as the routes accept them. New ids are part of the request. */
  datatype Request =
    | ListChildren
    | CreateChild(child: Id, name: string, ageBand: string)
    | GetPolicy(child: Id)
    | PutPolicy(child: Id, settings: string, categories: string)
    | ResetPreset(child: Id)
    | NewCode(child: Id, code: Id)
    | AddSchedule(child: Id, schedule: Id, text: string)
    | DeleteSchedule(child: Id, schedule: Id)
    | AddRule(child: Id, rule: Id, domain: string, action: string)
    | DeleteRule(child: Id, rule: Id)
    | ListEvents(filter: Option<Id>)
    | ListRequests
    | Resolve(request: Id, deny: bool, rule: Id)
    | RevokeDevice(device: Id)

  datatype Policy = Policy(child: Child, schedules: map<Id, Schedule>, rules: map<Id, Rule>)

  datatype Reply =
    | NotFound
    | AlreadyResolved
    | Done
    | ChildRows(children: map<Id, Child>, devices: map<Id, Device>)
    | PolicyRows(policy: Policy)
    | EventRows(events: map<Id, Event>)
    | RequestRows(requests: map<Id, AccessRequest>)
    | Refused
    | Accepted
    | Enrolled(device: Id, policy: Policy)
    | NotModified
    | Asked(access: Id, duplicate: bool)
    | Status(request: AccessRequest)

  /** A parent handler between two awaits, after its check. */
  datatype Pending =
    | ToInsertChild(child: Id, row: Child)
    | ToFillCategories(child: Id, categories: string)
    | ToWritePolicy(child: Id, settings: string, categories: string)
    | ToReset(child: Id, categories: string)
    | ToInsertCode(child: Id, code: Id)
    | ToInsertSchedule(child: Id, schedule: Id, text: string)
    | ToDeleteSchedule(child: Id, schedule: Id)
    | ToUpsertRule(child: Id, rule: Id, domain: string, action: string)
    | ToDeleteRule(child: Id, rule: Id)
    | ToResolve(child: Id, request: Id, domain: string, deny: bool, rule: Id)
    | ToBump(child: Id)

  datatype State = State(
    children: map<Id, Child>, schedules: map<Id, Schedule>, rules: map<Id, Rule>, codes: map<Id, Code>,
    devices: map<Id, Device>, events: map<Id, Event>, requests: map<Id, AccessRequest>, handlers: map<Id, Pending>)

  datatype Step =
    | Begin(handler: Id, household: Household, request: Request)
    | Continue(handler: Id)
    | Crash(handler: Id)
    | Enrol(code: Id, device: Id)
    | PostEvent(device: Id, event: Id, text: string)
    | AskAccess(device: Id, access: Id, domain: string)
    | AskStatus(device: Id, access: Id)
    | Sync(device: Id, known: nat, sameLists: bool)
    | Heartbeat(device: Id, status: string)

  // ---- Statements ----------------------------------------------------------------

  predicate Owns(s: State, household: Household, child: Id) {
    child in s.children && s.children[child].household == household
  }

  function Bumped(children: map<Id, Child>, child: Id): map<Id, Child> {
    if child in children then children[child := children[child].(version := children[child].version + 1)] else children
  }

  predicate HasRule(rules: map<Id, Rule>, child: Id, domain: string) {
    exists id :: id in rules && rules[id].child == child && rules[id].domain == domain
  }

  /** Upsert on (child, domain). */
  function UpsertRule(rules: map<Id, Rule>, rule: Id, child: Id, domain: string, action: string): map<Id, Rule> {
    if HasRule(rules, child, domain) then
      map id | id in rules :: if rules[id].child == child && rules[id].domain == domain then rules[id].(action := action) else rules[id]
    else rules[rule := Rule(child, domain, action)]
  }

  function Preset(ageBand: string): string {
    "preset " + ageBand
  }

  function Resolved(requests: map<Id, AccessRequest>, request: Id, deny: bool): map<Id, AccessRequest> {
    if request in requests && requests[request].status == "pending" then
      requests[request := requests[request].(status := if deny then "denied" else "approved")]
    else requests
  }

  // ---- Handlers ------------------------------------------------------------------

  /** What the check of a route leads to: an answer at once, or the handler's next statement. */
  datatype Checked = Answer(reply: Reply) | Next(pending: Pending)

  function IfOwned(s: State, household: Household, child: Id, next: Pending): Checked {
    if Owns(s, household, child) then Next(next) else Answer(NotFound)
  }

  function ChildrenOf(children: map<Id, Child>, h: Household): map<Id, Child> {
    map id | id in children && children[id].household == h :: children[id]
  }

  /** The active devices that the list of children shows with their children. */
  function ActiveOf(devices: map<Id, Device>, children: map<Id, Child>, h: Household): map<Id, Device> {
    map id | id in devices && !devices[id].revoked
             && devices[id].child in children && children[devices[id].child].household == h :: devices[id]
  }

  function SchedulesOf(schedules: map<Id, Schedule>, child: Id): map<Id, Schedule> {
    map id | id in schedules && schedules[id].child == child :: schedules[id]
  }

  function RulesOf(rules: map<Id, Rule>, child: Id): map<Id, Rule> {
    map id | id in rules && rules[id].child == child :: rules[id]
  }

  /** Joined with the child, and restricted to it if the query names one. */
  function EventsOf(s: State, h: Household, filter: Option<Id>): map<Id, Event> {
    map id | id in s.events && s.events[id].household == h && s.events[id].child in s.children
             && (filter.None? || s.events[id].child == filter.value) :: s.events[id]
  }

  function RequestsOf(s: State, h: Household): map<Id, AccessRequest> {
    map id | id in s.requests && s.requests[id].household == h && s.requests[id].child in s.children :: s.requests[id]
  }

  predicate CanRevoke(s: State, h: Household, device: Id) {
    device in s.devices && Owns(s, h, s.devices[device].child)
  }

  function PolicyOf(s: State, child: Id): Policy
    requires child in s.children
  {
    Policy(s.children[child], SchedulesOf(s.schedules, child), RulesOf(s.rules, child))
  }

  function Check(s: State, household: Household, request: Request): Checked {
    match request
    case ListChildren => Answer(ChildRows(ChildrenOf(s.children, household), ActiveOf(s.devices, s.children, household)))
    case CreateChild(child, name, ageBand) => Next(ToInsertChild(child, Child(household, name, ageBand, "", "", 1)))
    case GetPolicy(child) => if Owns(s, household, child) then Answer(PolicyRows(PolicyOf(s, child))) else Answer(NotFound)
    case PutPolicy(child, settings, categories) => IfOwned(s, household, child, ToWritePolicy(child, settings, categories))
    case ResetPreset(child) =>
      if Owns(s, household, child) then Next(ToReset(child, Preset(s.children[child].ageBand))) else Answer(NotFound)
    case NewCode(child, code) => IfOwned(s, household, child, ToInsertCode(child, code))
    case AddSchedule(child, schedule, text) => IfOwned(s, household, child, ToInsertSchedule(child, schedule, text))
    case DeleteSchedule(child, schedule) => IfOwned(s, household, child, ToDeleteSchedule(child, schedule))
    case AddRule(child, rule, domain, action) => IfOwned(s, household, child, ToUpsertRule(child, rule, domain, action))
    case DeleteRule(child, rule) => IfOwned(s, household, child, ToDeleteRule(child, rule))
    case ListEvents(filter) =>
      Answer(EventRows(EventsOf(s, household, filter)))
    case ListRequests =>
      Answer(RequestRows(RequestsOf(s, household)))
    case Resolve(request, deny, rule) =>
      if request !in s.requests || s.requests[request].household != household then Answer(NotFound)
      else if s.requests[request].status != "pending" then Answer(AlreadyResolved)
      else Next(ToResolve(s.requests[request].child, request, s.requests[request].domain, deny, rule))
    case RevokeDevice(device) =>
      if CanRevoke(s, household, device) then Answer(Done) else Answer(NotFound)
  }

  /** The one route whose first statement already writes. */
  function Revoked(s: State, household: Household, request: Request): State {
    if request.RevokeDevice? && CanRevoke(s, household, request.device) then
      s.(devices := s.devices[request.device := s.devices[request.device].(revoked := true)])
    else s
  }

  function BeginStep(s: State, handler: Id, household: Household, request: Request): State {
    if handler in s.handlers then s
    else
      match Check(s, household, request)
      case Answer(_) => Revoked(s, household, request)
      case Next(pending) => s.(handlers := s.handlers[handler := pending])
  }

  // The next statement of a handler, table by table; it no longer looks at the household.

  function WithCategories(children: map<Id, Child>, child: Id, categories: string): map<Id, Child> {
    if child in children then children[child := children[child].(categories := categories)] else children
  }

  function WithSettings(children: map<Id, Child>, child: Id, settings: string): map<Id, Child> {
    if child in children then children[child := children[child].(settings := settings)] else children
  }

  function ChildrenAfter(children: map<Id, Child>, p: Pending): map<Id, Child> {
    match p
    case ToInsertChild(child, row) => if child in children then children else children[child := row]
    case ToFillCategories(child, categories) => WithCategories(children, child, categories)
    case ToWritePolicy(child, settings, categories) =>
      Bumped(WithSettings(WithCategories(children, child, categories), child, settings), child)
    case ToReset(child, categories) => WithCategories(children, child, categories)
    case ToResolve(child, _, _, _, _) => Bumped(children, child)
    case ToBump(child) => Bumped(children, child)
    case _ => children
  }

  function SchedulesAfter(schedules: map<Id, Schedule>, p: Pending): map<Id, Schedule> {
    match p
    case ToInsertSchedule(child, schedule, text) =>
      if schedule in schedules then schedules else schedules[schedule := Schedule(child, text)]
    case ToDeleteSchedule(child, schedule) =>
      if schedule in schedules && schedules[schedule].child == child then schedules - {schedule} else schedules
    case _ => schedules
  }

  function RulesAfter(rules: map<Id, Rule>, p: Pending): map<Id, Rule> {
    match p
    case ToUpsertRule(child, rule, domain, action) => UpsertRule(rules, rule, child, domain, action)
    case ToDeleteRule(child, rule) => if rule in rules && rules[rule].child == child then rules - {rule} else rules
    case ToResolve(child, _, domain, deny, rule) => if deny then rules else UpsertRule(rules, rule, child, domain, "allow")
    case _ => rules
  }

  function CodesAfter(codes: map<Id, Code>, p: Pending): map<Id, Code> {
    if p.ToInsertCode? && p.code !in codes then codes[p.code := Code(p.child, false)] else codes
  }

  function RequestsAfter(requests: map<Id, AccessRequest>, p: Pending): map<Id, AccessRequest> {
    if p.ToResolve? then Resolved(requests, p.request, p.deny) else requests
  }

  /** What is left to do after a statement. */
  function Rest(p: Pending): Option<Pending> {
    match p
    case ToInsertChild(child, row) => Some(ToFillCategories(child, Preset(row.ageBand)))
    case ToReset(child, _) => Some(ToBump(child))
    case ToInsertSchedule(child, _, _) => Some(ToBump(child))
    case ToDeleteSchedule(child, _) => Some(ToBump(child))
    case ToUpsertRule(child, _, _, _) => Some(ToBump(child))
    case ToDeleteRule(child, _) => Some(ToBump(child))
    case _ => None
  }

  function HandlersAfter(handlers: map<Id, Pending>, handler: Id): map<Id, Pending>
    requires handler in handlers
  {
    var p := handlers[handler];
    if Rest(p).Some? then handlers[handler := Rest(p).value] else handlers - {handler}
  }

  function ContinueStep(s: State, handler: Id): State {
    if handler !in s.handlers then s
    else
      var p := s.handlers[handler];
      State(ChildrenAfter(s.children, p), SchedulesAfter(s.schedules, p), RulesAfter(s.rules, p), CodesAfter(s.codes, p),
            s.devices, s.events, RequestsAfter(s.requests, p),
            HandlersAfter(s.handlers, handler))
  }

  predicate DeviceAdmitted(s: State, device: Id) {
    device in s.devices && !s.devices[device].revoked && s.devices[device].child in s.children
  }

  function PendingFor(requests: map<Id, AccessRequest>, child: Id, domain: string): set<Id> {
    set id | id in requests && requests[id].child == child && requests[id].domain == domain && requests[id].status == "pending"
  }

  predicate HasPending(s: State, child: Id, domain: string) {
    PendingFor(s.requests, child, domain) != {}
  }

  /** Which of several pending requests the query meets first is left open. */
  ghost function FirstOf(ids: set<Id>): (id: Id)
    requires ids != {}
    ensures id in ids
  {
    var id :| id in ids;
    id
  }

  predicate CanEnrol(s: State, code: Id, device: Id) {
    code in s.codes && !s.codes[code].consumed && s.codes[code].child in s.children && device !in s.devices
  }

  /** Revoke what the child has, insert the new device. */
  function Registered(devices: map<Id, Device>, device: Id, child: Id): map<Id, Device> {
    (map id | id in devices :: if devices[id].child == child then devices[id].(revoked := true) else devices[id])[device := Device(child, false, "healthy")]
  }

  function EnrolStep(s: State, code: Id, device: Id): State {
    if CanEnrol(s, code, device) then
      var child := s.codes[code].child;
      s.(codes := s.codes[code := s.codes[code].(consumed := true)],
         devices := Registered(s.devices, device, child))
    else s
  }

  function PostEventStep(s: State, device: Id, event: Id, text: string): State {
    if DeviceAdmitted(s, device) && event !in s.events then
      var child := s.devices[device].child;
      s.(events := s.events[event := Event(s.children[child].household, child, device, text)])
    else s
  }

  function AskAccessStep(s: State, device: Id, request: Id, domain: string): State {
    if DeviceAdmitted(s, device) && request !in s.requests && !HasPending(s, s.devices[device].child, domain) then
      var child := s.devices[device].child;
      s.(requests := s.requests[request := AccessRequest(s.children[child].household, child, device, domain, "pending")])
    else s
  }

  function HeartbeatStep(s: State, device: Id, status: string): State {
    if DeviceAdmitted(s, device) then s.(devices := s.devices[device := s.devices[device].(status := status)]) else s
  }

  // What the device requests are told.

  function EnrolReply(s: State, code: Id, device: Id): Reply {
    if CanEnrol(s, code, device) then Enrolled(device, PolicyOf(s, s.codes[code].child)) else Refused
  }

  ghost function AskReply(s: State, device: Id, access: Id, domain: string): Reply {
    if !DeviceAdmitted(s, device) then Refused
    else if HasPending(s, s.devices[device].child, domain) then
      Asked(FirstOf(PendingFor(s.requests, s.devices[device].child, domain)), true)
    else Asked(access, false)
  }

  function StatusReply(s: State, device: Id, access: Id): Reply {
    if !DeviceAdmitted(s, device) then Refused
    else if access in s.requests && s.requests[access].device == device then Status(s.requests[access])
    else NotFound
  }

  /** The policy of the device's own child, unless the device has its version already. */
  function SyncReply(s: State, device: Id, known: nat, sameLists: bool): Reply {
    if !DeviceAdmitted(s, device) then Refused
    else
      var policy := PolicyOf(s, s.devices[device].child);
      if known == policy.child.version && sameLists then NotModified else PolicyRows(policy)
  }

  function Apply(s: State, step: Step): State {
    match step
    case Begin(handler, household, request) => BeginStep(s, handler, household, request)
    case Continue(handler) => ContinueStep(s, handler)
    case Crash(handler) => s.(handlers := s.handlers - {handler})
    case Enrol(code, device) => EnrolStep(s, code, device)
    case PostEvent(device, event, text) => PostEventStep(s, device, event, text)
    case AskAccess(device, request, domain) => AskAccessStep(s, device, request, domain)
    case AskStatus(_, _) => s
    case Sync(_, _, _) => s
    case Heartbeat(device, status) => HeartbeatStep(s, device, status)
  }

  /** What the client of this step is told, if the step ends its request. */
  ghost function Response(s: State, step: Step): Option<Reply> {
    match step
    case Begin(handler, household, request) =>
      if handler in s.handlers then None
      else
        var checked := Check(s, household, request);
        if checked.Answer? then Some(checked.reply) else None
    case Continue(handler) =>
      if handler in s.handlers && Rest(s.handlers[handler]).None? then Some(Done) else None
    case Crash(_) => None
    case Enrol(code, device) => Some(EnrolReply(s, code, device))
    case PostEvent(device, _, _) => Some(if DeviceAdmitted(s, device) then Accepted else Refused)
    case AskAccess(device, request, domain) => Some(AskReply(s, device, request, domain))
    case AskStatus(device, request) => Some(StatusReply(s, device, request))
    case Sync(device, known, sameLists) => Some(SyncReply(s, device, known, sameLists))
    case Heartbeat(device, _) => Some(if DeviceAdmitted(s, device) then Accepted else Refused)
  }

  // ---- Whose step, whose row -------------------------------------------------------

  function Owner(step: Step, home: Home): Household {
    match step
    case Begin(_, household, _) => household
    case Continue(handler) => home(handler)
    case Crash(handler) => home(handler)
    case Enrol(code, _) => home(code)
    case PostEvent(device, _, _) => home(device)
    case AskAccess(device, _, _) => home(device)
    case AskStatus(device, _) => home(device)
    case Sync(device, _, _) => home(device)
    case Heartbeat(device, _) => home(device)
  }

  /** The ids that the worker draws for a step are its owner's. Ids that a request merely names are not restricted. */
  predicate Minted(step: Step, home: Home) {
    match step
    case Begin(handler, household, request) =>
      home(handler) == household
      && (match request
          case CreateChild(child, _, _) => home(child) == household
          case NewCode(_, code) => home(code) == household
          case AddSchedule(_, schedule, _) => home(schedule) == household
          case AddRule(_, rule, _, _) => home(rule) == household
          case Resolve(_, _, rule) => home(rule) == household
          case _ => true)
    case Enrol(code, device) => home(device) == home(code)
    case AskAccess(device, request, _) => home(request) == home(device)
    case _ => true
  }

  predicate AllMinted(steps: seq<Step>, home: Home) {
    forall step | step in steps :: Minted(step, home)
  }

  /** A pending statement stays within one household. */
  predicate PendingAtHome(p: Pending, h: Household, home: Home) {
    && home(p.child) == h
    && (p.ToInsertChild? ==> p.row.household == h)
    && (p.ToInsertCode? ==> home(p.code) == h)
    && (p.ToInsertSchedule? ==> home(p.schedule) == h)
    && (p.ToUpsertRule? ==> home(p.rule) == h)
    && (p.ToResolve? ==> home(p.request) == h && home(p.rule) == h)
  }

  predicate ChildrenInv(children: map<Id, Child>, home: Home) {
    forall id | id in children :: children[id].household == home(id)
  }

  predicate SchedulesInv(schedules: map<Id, Schedule>, home: Home) {
    forall id | id in schedules :: home(schedules[id].child) == home(id)
  }

  predicate RulesInv(rules: map<Id, Rule>, home: Home) {
    forall id | id in rules :: home(rules[id].child) == home(id)
  }

  predicate CodesInv(codes: map<Id, Code>, home: Home) {
    forall id | id in codes :: home(codes[id].child) == home(id)
  }

  predicate DevicesInv(devices: map<Id, Device>, home: Home) {
    forall id | id in devices :: home(devices[id].child) == home(id)
  }

  predicate EventsInv(events: map<Id, Event>, home: Home) {
    forall id | id in events :: events[id].household == home(events[id].child)
  }

  /** The event ids of household h are those of its own events. */
  predicate EventIds(events: map<Id, Event>, h: Household, home: Home) {
    forall id | id in events :: home(id) == h <==> events[id].household == h
  }

  /**
   * Event ids are drawn by the devices, and nothing stops one from naming an id of another
   * household. For household h it is harmless as long as its own devices use ids of their
   * own, and a stranger names an id of h only after its event is stored.
   */
  predicate Regular(s: State, step: Step, h: Household, home: Home) {
    step.PostEvent? ==>
      (home(step.event) == h <==> home(step.device) == h) || (home(step.device) != h && step.event in s.events)
  }

  predicate RegularRun(s: State, steps: seq<Step>, h: Household, home: Home)
    decreases |steps|
  {
    steps != [] ==> Regular(s, steps[0], h, home) && RegularRun(Apply(s, steps[0]), steps[1..], h, home)
  }

  predicate RequestsInv(requests: map<Id, AccessRequest>, home: Home) {
    forall id | id in requests ::
      requests[id].household == home(id) && home(requests[id].child) == home(id) && home(requests[id].device) == home(id)
  }

  predicate HandlersInv(handlers: map<Id, Pending>, home: Home) {
    forall id | id in handlers :: PendingAtHome(handlers[id], home(id), home)
  }

  /** Every row carries the household of its child, and every handler stays within one. */
  predicate Inv(s: State, home: Home) {
    && ChildrenInv(s.children, home) && SchedulesInv(s.schedules, home) && RulesInv(s.rules, home) && CodesInv(s.codes, home)
    && DevicesInv(s.devices, home) && EventsInv(s.events, home) && RequestsInv(s.requests, home) && HandlersInv(s.handlers, home)
  }

  /** What household h relies on: the invariant, and that its event ids are its own. */
  predicate InvFor(s: State, h: Household, home: Home) {
    Inv(s, home) && EventIds(s.events, h, home)
  }

  predicate SameIn<T(==)>(a: map<Id, T>, b: map<Id, T>, h: Household, home: Home) {
    (forall id | id in a && home(id) == h :: id in b && b[id] == a[id])
    && (forall id | id in b && home(id) == h :: id in a)
  }

  /** The two states hold the same rows of household h. */
  predicate SameView(a: State, b: State, h: Household, home: Home) {
    && SameIn(a.children, b.children, h, home) && SameIn(a.schedules, b.schedules, h, home)
    && SameIn(a.rules, b.rules, h, home) && SameIn(a.codes, b.codes, h, home)
    && SameIn(a.devices, b.devices, h, home) && SameIn(a.events, b.events, h, home)
    && SameIn(a.requests, b.requests, h, home) && SameIn(a.handlers, b.handlers, h, home)
  }

  // ---- A statement and one table -----------------------------------------------------

  lemma ChildrenStatement(a: map<Id, Child>, b: map<Id, Child>, p: Pending, owner: Household, h: Household, home: Home)
    requires ChildrenInv(a, home) && PendingAtHome(p, owner, home)
    ensures ChildrenInv(ChildrenAfter(a, p), home)
    ensures owner != h ==> SameIn(a, ChildrenAfter(a, p), h, home)
    ensures owner == h && SameIn(a, b, h, home) ==> SameIn(ChildrenAfter(a, p), ChildrenAfter(b, p), h, home)
  {
    if owner == h && SameIn(a, b, h, home) { ChildrenStatementSame(a, b, p, h, home); }
  }

  lemma ChildrenStatementSame(a: map<Id, Child>, b: map<Id, Child>, p: Pending, h: Household, home: Home)
    requires home(p.child) == h && SameIn(a, b, h, home)
    ensures SameIn(ChildrenAfter(a, p), ChildrenAfter(b, p), h, home)
  {
    assert p.child in a <==> p.child in b;
  }

  lemma SchedulesStatement(a: map<Id, Schedule>, b: map<Id, Schedule>, p: Pending, owner: Household, h: Household, home: Home)
    requires SchedulesInv(a, home) && SchedulesInv(b, home) && PendingAtHome(p, owner, home)
    ensures SchedulesInv(SchedulesAfter(a, p), home)
    ensures owner != h ==> SameIn(a, SchedulesAfter(a, p), h, home)
    ensures owner == h && SameIn(a, b, h, home) ==> SameIn(SchedulesAfter(a, p), SchedulesAfter(b, p), h, home)
  {
  }

  lemma UpsertStatement(a: map<Id, Rule>, b: map<Id, Rule>, rule: Id, child: Id, domain: string, action: string, h: Household, home: Home)
    requires RulesInv(a, home) && RulesInv(b, home) && home(rule) == home(child)
    ensures RulesInv(UpsertRule(a, rule, child, domain, action), home)
    ensures home(child) != h ==> SameIn(a, UpsertRule(a, rule, child, domain, action), h, home)
    ensures home(child) == h && SameIn(a, b, h, home) ==>
              SameIn(UpsertRule(a, rule, child, domain, action), UpsertRule(b, rule, child, domain, action), h, home)
  {
  }

  lemma RulesStatement(a: map<Id, Rule>, b: map<Id, Rule>, p: Pending, owner: Household, h: Household, home: Home)
    requires RulesInv(a, home) && RulesInv(b, home) && PendingAtHome(p, owner, home)
    ensures RulesInv(RulesAfter(a, p), home)
    ensures owner != h ==> SameIn(a, RulesAfter(a, p), h, home)
    ensures owner == h && SameIn(a, b, h, home) ==> SameIn(RulesAfter(a, p), RulesAfter(b, p), h, home)
  {
    if p.ToUpsertRule? {
      UpsertStatement(a, b, p.rule, p.child, p.domain, p.action, h, home);
    } else if p.ToResolve? {
      UpsertStatement(a, b, p.rule, p.child, p.domain, "allow", h, home);
    }
  }

  lemma CodesStatement(a: map<Id, Code>, b: map<Id, Code>, p: Pending, owner: Household, h: Household, home: Home)
    requires CodesInv(a, home) && PendingAtHome(p, owner, home)
    ensures CodesInv(CodesAfter(a, p), home)
    ensures owner != h ==> SameIn(a, CodesAfter(a, p), h, home)
    ensures owner == h && SameIn(a, b, h, home) ==> SameIn(CodesAfter(a, p), CodesAfter(b, p), h, home)
  {
  }

  lemma RequestsStatement(a: map<Id, AccessRequest>, b: map<Id, AccessRequest>, p: Pending, owner: Household, h: Household, home: Home)
    requires RequestsInv(a, home) && PendingAtHome(p, owner, home)
    ensures RequestsInv(RequestsAfter(a, p), home)
    ensures owner != h ==> SameIn(a, RequestsAfter(a, p), h, home)
    ensures owner == h && SameIn(a, b, h, home) ==> SameIn(RequestsAfter(a, p), RequestsAfter(b, p), h, home)
  {
  }

  lemma HandlersStatement(a: map<Id, Pending>, b: map<Id, Pending>, handler: Id, h: Household, home: Home)
    requires HandlersInv(a, home) && handler in a
    ensures HandlersInv(HandlersAfter(a, handler), home)
    ensures home(handler) != h ==> SameIn(a, HandlersAfter(a, handler), h, home)
    ensures home(handler) == h && SameIn(a, b, h, home) ==>
              handler in b && SameIn(HandlersAfter(a, handler), HandlersAfter(b, handler), h, home)
  {
    assert PendingAtHome(a[handler], home(handler), home);
  }

  lemma Statement(a: State, b: State, handler: Id, h: Household, home: Home)
    requires Inv(a, home) && Inv(b, home) && handler in a.handlers
    ensures Inv(ContinueStep(a, handler), home)
    ensures home(handler) != h ==> SameView(a, ContinueStep(a, handler), h, home)
    ensures home(handler) == h && SameView(a, b, h, home) ==> SameView(ContinueStep(a, handler), ContinueStep(b, handler), h, home)
  {
    var p, owner := a.handlers[handler], home(handler);
    assert PendingAtHome(p, owner, home);
    ChildrenStatement(a.children, b.children, p, owner, h, home);
    SchedulesStatement(a.schedules, b.schedules, p, owner, h, home);
    RulesStatement(a.rules, b.rules, p, owner, h, home);
    CodesStatement(a.codes, b.codes, p, owner, h, home);
    RequestsStatement(a.requests, b.requests, p, owner, h, home);
    HandlersStatement(a.handlers, b.handlers, handler, h, home);
  }

  // ---- The check of a route ----------------------------------------------------------

  lemma CheckAtHome(s: State, household: Household, request: Request, handler: Id, home: Home)
    requires Inv(s, home) && Minted(Begin(handler, household, request), home)
    ensures var checked := Check(s, household, request);
            checked.Next? ==> PendingAtHome(checked.pending, household, home)
  {
  }

  lemma SameOwner(a: State, b: State, child: Id, h: Household, home: Home)
    requires ChildrenInv(a.children, home) && ChildrenInv(b.children, home) && SameIn(a.children, b.children, h, home)
    ensures Owns(a, h, child) == Owns(b, h, child)
    ensures Owns(a, h, child) ==> home(child) == h && a.children[child] == b.children[child]
  {
  }

  lemma SameChildrenOf(a: map<Id, Child>, b: map<Id, Child>, h: Household, home: Home)
    requires ChildrenInv(a, home) && ChildrenInv(b, home) && SameIn(a, b, h, home)
    ensures ChildrenOf(a, h) == ChildrenOf(b, h)
  {
  }

  lemma SameActive(a: map<Id, Device>, b: map<Id, Device>, ac: map<Id, Child>, bc: map<Id, Child>, h: Household, home: Home)
    requires DevicesInv(a, home) && DevicesInv(b, home) && SameIn(a, b, h, home)
    requires ChildrenInv(ac, home) && ChildrenInv(bc, home) && SameIn(ac, bc, h, home)
    ensures ActiveOf(a, ac, h) == ActiveOf(b, bc, h)
  {
    var x, y := ActiveOf(a, ac, h), ActiveOf(b, bc, h);
    assert forall id | id in x :: home(id) == h;
    assert forall id | id in y :: home(id) == h;
  }

  lemma SameEvents(a: State, b: State, h: Household, filter: Option<Id>, home: Home)
    requires EventIds(a.events, h, home) && EventIds(b.events, h, home) && SameIn(a.events, b.events, h, home)
    requires EventsInv(a.events, home) && EventsInv(b.events, home)
    requires SameIn(a.children, b.children, h, home)
    ensures EventsOf(a, h, filter) == EventsOf(b, h, filter)
  {
  }

  lemma SameRequests(a: State, b: State, h: Household, home: Home)
    requires RequestsInv(a.requests, home) && RequestsInv(b.requests, home) && SameIn(a.requests, b.requests, h, home)
    requires SameIn(a.children, b.children, h, home)
    ensures RequestsOf(a, h) == RequestsOf(b, h)
  {
  }

  lemma SamePolicy(a: State, b: State, child: Id, h: Household, home: Home)
    requires Inv(a, home) && Inv(b, home) && SameView(a, b, h, home) && Owns(a, h, child) && Owns(b, h, child)
    ensures PolicyOf(a, child) == PolicyOf(b, child)
  {
    SameOwner(a, b, child, h, home);
    SameSchedulesOf(a.schedules, b.schedules, child, h, home);
    SameRulesOf(a.rules, b.rules, child, h, home);
  }

  lemma SameSchedulesOf(a: map<Id, Schedule>, b: map<Id, Schedule>, child: Id, h: Household, home: Home)
    requires SchedulesInv(a, home) && SchedulesInv(b, home) && SameIn(a, b, h, home) && home(child) == h
    ensures SchedulesOf(a, child) == SchedulesOf(b, child)
  {
  }

  lemma SameRulesOf(a: map<Id, Rule>, b: map<Id, Rule>, child: Id, h: Household, home: Home)
    requires RulesInv(a, home) && RulesInv(b, home) && SameIn(a, b, h, home) && home(child) == h
    ensures RulesOf(a, child) == RulesOf(b, child)
  {
  }

  predicate IsRead(request: Request) {
    request.ListChildren? || request.GetPolicy? || request.ListEvents? || request.ListRequests?
  }

  lemma ReadSame(a: State, b: State, h: Household, request: Request, home: Home)
    requires InvFor(a, h, home) && InvFor(b, h, home) && SameView(a, b, h, home) && IsRead(request)
    ensures Check(a, h, request) == Check(b, h, request)
  {
    match request
    case ListChildren =>
      SameChildrenOf(a.children, b.children, h, home);
      SameActive(a.devices, b.devices, a.children, b.children, h, home);
    case GetPolicy(child) =>
      SameOwner(a, b, child, h, home);
      if Owns(a, h, child) { SamePolicy(a, b, child, h, home); }
    case ListEvents(filter) => SameEvents(a, b, h, filter, home);
    case ListRequests => SameRequests(a, b, h, home);
  }

  /** The check, and what a read is told, depend on the household's own rows only. */
  lemma CheckSame(a: State, b: State, h: Household, request: Request, home: Home)
    requires InvFor(a, h, home) && InvFor(b, h, home) && SameView(a, b, h, home)
    ensures Check(a, h, request) == Check(b, h, request)
  {
    if IsRead(request) {
      ReadSame(a, b, h, request, home);
    } else if request.RevokeDevice? {
      SameRevocable(a, b, request.device, h, home);
    } else if request.Resolve? {
      SameRequest(a.requests, b.requests, request.request, h, home);
    } else {
      SameOwner(a, b, request.child, h, home);
    }
  }

  lemma SameRequest(a: map<Id, AccessRequest>, b: map<Id, AccessRequest>, request: Id, h: Household, home: Home)
    requires RequestsInv(a, home) && RequestsInv(b, home) && SameIn(a, b, h, home)
    ensures (request in a && a[request].household == h) == (request in b && b[request].household == h)
    ensures request in a && a[request].household == h ==> request in b && a[request] == b[request]
  {
  }

  lemma SameRevocable(a: State, b: State, device: Id, h: Household, home: Home)
    requires Inv(a, home) && Inv(b, home) && SameView(a, b, h, home)
    ensures CanRevoke(a, h, device) == CanRevoke(b, h, device)
    ensures CanRevoke(a, h, device) ==> home(device) == h && a.devices[device] == b.devices[device]
  {
    if device in a.devices {
      SameOwner(a, b, a.devices[device].child, h, home);
    }
    if device in b.devices {
      SameOwner(a, b, b.devices[device].child, h, home);
    }
  }

  lemma BeginOwn(a: State, b: State, handler: Id, h: Household, request: Request, home: Home)
    requires InvFor(a, h, home) && InvFor(b, h, home) && SameView(a, b, h, home) && Minted(Begin(handler, h, request), home)
    ensures SameView(BeginStep(a, handler, h, request), BeginStep(b, handler, h, request), h, home)
    ensures Response(a, Begin(handler, h, request)) == Response(b, Begin(handler, h, request))
  {
    CheckSame(a, b, h, request, home);
    if handler in a.handlers {
    } else if Check(a, h, request).Next? {
      PutSame(a.handlers, b.handlers, handler, Check(a, h, request).pending, h, home);
      ReplaceHandlers(a, b, BeginStep(a, handler, h, request).handlers, BeginStep(b, handler, h, request).handlers, h, home);
    } else if request.RevokeDevice? {
      SameRevocable(a, b, request.device, h, home);
      if CanRevoke(a, h, request.device) { RevokeOwn(a, b, request.device, h, home); }
    }
  }

  lemma RevokeOwn(a: State, b: State, device: Id, h: Household, home: Home)
    requires SameView(a, b, h, home)
    requires CanRevoke(a, h, device) && CanRevoke(b, h, device) && a.devices[device] == b.devices[device]
    ensures SameView(Revoked(a, h, RevokeDevice(device)), Revoked(b, h, RevokeDevice(device)), h, home)
  {
    var row := a.devices[device].(revoked := true);
    PutSame(a.devices, b.devices, device, row, h, home);
    ReplaceDevices(a, b, a.devices[device := row], b.devices[device := row], h, home);
  }

  lemma BeginInv(s: State, handler: Id, household: Household, request: Request, home: Home)
    requires Inv(s, home) && Minted(Begin(handler, household, request), home)
    ensures Inv(BeginStep(s, handler, household, request), home)
  {
    CheckAtHome(s, household, request, handler, home);
  }

  lemma BeginElsewhere(s: State, handler: Id, other: Household, request: Request, h: Household, home: Home)
    requires Inv(s, home) && Minted(Begin(handler, other, request), home) && other != h
    ensures SameView(s, BeginStep(s, handler, other, request), h, home)
  {
    RevokeElsewhere(s, other, request, h, home);
    var checked := Check(s, other, request);
    if checked.Next? {
      HandlerElsewhere(s, handler, checked.pending, h, home);
    }
  }

  lemma HandlerElsewhere(s: State, handler: Id, pending: Pending, h: Household, home: Home)
    requires home(handler) != h
    ensures SameView(s, s.(handlers := s.handlers[handler := pending]), h, home)
  {
    PutElsewhere(s.handlers, handler, pending, h, home);
    ReplaceHandlers(s, s, s.handlers, s.handlers[handler := pending], h, home);
  }

  lemma RevokeElsewhere(s: State, other: Household, request: Request, h: Household, home: Home)
    requires ChildrenInv(s.children, home) && DevicesInv(s.devices, home) && other != h
    ensures SameView(s, Revoked(s, other, request), h, home)
  {
    if request.RevokeDevice? && CanRevoke(s, other, request.device) {
      var device := request.device;
      var row := s.devices[device].(revoked := true);
      assert home(device) == other;
      PutElsewhere(s.devices, device, row, h, home);
      ReplaceDevices(s, s, s.devices, s.devices[device := row], h, home);
    }
  }

  // ---- Changing one table --------------------------------------------------------------

  lemma PutElsewhere<T>(t: map<Id, T>, id: Id, row: T, h: Household, home: Home)
    requires home(id) != h
    ensures SameIn(t, t[id := row], h, home)
  {
  }

  lemma PutSame<T>(a: map<Id, T>, b: map<Id, T>, id: Id, row: T, h: Household, home: Home)
    requires SameIn(a, b, h, home)
    ensures SameIn(a[id := row], b[id := row], h, home)
  {
  }

  lemma ReplaceHandlers(a: State, b: State, x: map<Id, Pending>, y: map<Id, Pending>, h: Household, home: Home)
    requires SameView(a, b, h, home) && SameIn(x, y, h, home)
    ensures SameView(a.(handlers := x), b.(handlers := y), h, home)
  {
  }

  lemma ReplaceDevices(a: State, b: State, x: map<Id, Device>, y: map<Id, Device>, h: Household, home: Home)
    requires SameView(a, b, h, home) && SameIn(x, y, h, home)
    ensures SameView(a.(devices := x), b.(devices := y), h, home)
  {
  }

  lemma ReplaceCodes(a: State, b: State, x: map<Id, Code>, y: map<Id, Code>, h: Household, home: Home)
    requires SameView(a, b, h, home) && SameIn(x, y, h, home)
    ensures SameView(a.(codes := x), b.(codes := y), h, home)
  {
  }

  lemma ReplaceEvents(a: State, b: State, x: map<Id, Event>, y: map<Id, Event>, h: Household, home: Home)
    requires SameView(a, b, h, home) && SameIn(x, y, h, home)
    ensures SameView(a.(events := x), b.(events := y), h, home)
  {
  }

  lemma ReplaceRequests(a: State, b: State, x: map<Id, AccessRequest>, y: map<Id, AccessRequest>, h: Household, home: Home)
    requires SameView(a, b, h, home) && SameIn(x, y, h, home)
    ensures SameView(a.(requests := x), b.(requests := y), h, home)
  {
  }

  // ---- Device requests ---------------------------------------------------------------

  lemma RegisterDevices(a: map<Id, Device>, b: map<Id, Device>, device: Id, child: Id, h: Household, home: Home)
    requires DevicesInv(a, home) && DevicesInv(b, home) && home(device) == home(child)
    ensures DevicesInv(Registered(a, device, child), home)
    ensures home(child) != h ==> SameIn(a, Registered(a, device, child), h, home)
    ensures SameIn(a, b, h, home) ==> SameIn(Registered(a, device, child), Registered(b, device, child), h, home)
  {
  }

  lemma SpendCode(a: map<Id, Code>, code: Id, home: Home)
    requires CodesInv(a, home) && code in a
    ensures CodesInv(a[code := a[code].(consumed := true)], home)
  {
  }

  lemma EnrolInv(s: State, code: Id, device: Id, home: Home)
    requires Inv(s, home) && home(device) == home(code)
    ensures Inv(EnrolStep(s, code, device), home)
  {
    if CanEnrol(s, code, device) {
      SpendCode(s.codes, code, home);
      RegisterDevices(s.devices, s.devices, device, s.codes[code].child, 0, home);
    }
  }

  lemma EnrolElsewhere(s: State, code: Id, device: Id, h: Household, home: Home)
    requires Inv(s, home) && home(device) == home(code) != h
    ensures SameView(s, EnrolStep(s, code, device), h, home)
  {
    if CanEnrol(s, code, device) {
      var s' := EnrolStep(s, code, device);
      RegisterDevices(s.devices, s.devices, device, s.codes[code].child, h, home);
      PutElsewhere(s.codes, code, s.codes[code].(consumed := true), h, home);
      ReplaceCodes(s, s, s.codes, s'.codes, h, home);
      ReplaceDevices(s, s.(codes := s'.codes), s.devices, s'.devices, h, home);
    }
  }

  lemma EnrolOwn(a: State, b: State, code: Id, device: Id, h: Household, home: Home)
    requires Inv(a, home) && Inv(b, home) && home(device) == home(code) == h && SameView(a, b, h, home)
    ensures CanEnrol(a, code, device) == CanEnrol(b, code, device)
    ensures SameView(EnrolStep(a, code, device), EnrolStep(b, code, device), h, home)
    ensures EnrolReply(a, code, device) == EnrolReply(b, code, device)
  {
    SameCanEnrol(a, b, code, device, h, home);
    if CanEnrol(a, code, device) {
      assert Owns(a, h, a.codes[code].child) && Owns(b, h, a.codes[code].child);
      SamePolicy(a, b, a.codes[code].child, h, home);
      var a', b' := EnrolStep(a, code, device), EnrolStep(b, code, device);
      RegisterDevices(a.devices, b.devices, device, a.codes[code].child, h, home);
      PutSame(a.codes, b.codes, code, a.codes[code].(consumed := true), h, home);
      ReplaceCodes(a, b, a'.codes, b'.codes, h, home);
      ReplaceDevices(a.(codes := a'.codes), b.(codes := b'.codes), a'.devices, b'.devices, h, home);
    }
  }

  lemma SameCanEnrol(a: State, b: State, code: Id, device: Id, h: Household, home: Home)
    requires CodesInv(a.codes, home) && CodesInv(b.codes, home)
    requires home(device) == home(code) == h && SameView(a, b, h, home)
    ensures CanEnrol(a, code, device) == CanEnrol(b, code, device)
    ensures CanEnrol(a, code, device) ==> a.codes[code] == b.codes[code]
  {
  }

  lemma SameAdmitted(a: State, b: State, device: Id, h: Household, home: Home)
    requires DevicesInv(a.devices, home) && DevicesInv(b.devices, home) && SameView(a, b, h, home) && home(device) == h
    ensures DeviceAdmitted(a, device) == DeviceAdmitted(b, device)
    ensures DeviceAdmitted(a, device) ==>
              a.devices[device] == b.devices[device] && a.children[a.devices[device].child] == b.children[b.devices[device].child]
  {
  }

  lemma PostEventInv(s: State, device: Id, event: Id, text: string, home: Home)
    requires Inv(s, home)
    ensures Inv(PostEventStep(s, device, event, text), home)
  {
  }

  lemma PostEventElsewhere(s: State, device: Id, event: Id, text: string, h: Household, home: Home)
    requires home(device) != h && (home(event) == h ==> event in s.events)
    ensures SameView(s, PostEventStep(s, device, event, text), h, home)
  {
    var s' := PostEventStep(s, device, event, text);
    if s' != s {
      PutElsewhere(s.events, event, s'.events[event], h, home);
      ReplaceEvents(s, s, s.events, s'.events, h, home);
    }
  }

  lemma PostEventOwn(a: State, b: State, device: Id, event: Id, text: string, h: Household, home: Home)
    requires InvFor(a, h, home) && InvFor(b, h, home) && home(event) == home(device) == h && SameView(a, b, h, home)
    ensures DeviceAdmitted(a, device) == DeviceAdmitted(b, device)
    ensures SameView(PostEventStep(a, device, event, text), PostEventStep(b, device, event, text), h, home)
  {
    SameAdmitted(a, b, device, h, home);
    var a', b' := PostEventStep(a, device, event, text), PostEventStep(b, device, event, text);
    if DeviceAdmitted(a, device) && event !in a.events {
      PutSame(a.events, b.events, event, a'.events[event], h, home);
      ReplaceEvents(a, b, a'.events, b'.events, h, home);
    }
  }

  lemma AskAccessInv(s: State, device: Id, access: Id, domain: string, home: Home)
    requires Inv(s, home) && home(access) == home(device)
    ensures Inv(AskAccessStep(s, device, access, domain), home)
  {
  }

  lemma AskAccessElsewhere(s: State, device: Id, access: Id, domain: string, h: Household, home: Home)
    requires home(access) == home(device) != h
    ensures SameView(s, AskAccessStep(s, device, access, domain), h, home)
  {
    var s' := AskAccessStep(s, device, access, domain);
    if s' != s {
      PutElsewhere(s.requests, access, s'.requests[access], h, home);
      ReplaceRequests(s, s, s.requests, s'.requests, h, home);
    }
  }

  lemma SamePendingFor(a: map<Id, AccessRequest>, b: map<Id, AccessRequest>, child: Id, domain: string, h: Household, home: Home)
    requires RequestsInv(a, home) && RequestsInv(b, home) && SameIn(a, b, h, home) && home(child) == h
    ensures PendingFor(a, child, domain) == PendingFor(b, child, domain)
  {
  }

  lemma AskReplySame(a: State, b: State, device: Id, access: Id, domain: string, h: Household, home: Home)
    requires Inv(a, home) && Inv(b, home) && home(device) == h && SameView(a, b, h, home)
    ensures DeviceAdmitted(a, device) == DeviceAdmitted(b, device)
    ensures AskReply(a, device, access, domain) == AskReply(b, device, access, domain)
  {
    SameAdmitted(a, b, device, h, home);
    if DeviceAdmitted(a, device) {
      var child := a.devices[device].child;
      assert b.devices[device].child == child && home(child) == h;
      SamePendingFor(a.requests, b.requests, child, domain, h, home);
    }
  }

  lemma AskAccessOwn(a: State, b: State, device: Id, access: Id, domain: string, h: Household, home: Home)
    requires Inv(a, home) && Inv(b, home) && home(access) == home(device) == h && SameView(a, b, h, home)
    ensures SameView(AskAccessStep(a, device, access, domain), AskAccessStep(b, device, access, domain), h, home)
  {
    SameAdmitted(a, b, device, h, home);
    var a', b' := AskAccessStep(a, device, access, domain), AskAccessStep(b, device, access, domain);
    if DeviceAdmitted(a, device) && access !in a.requests {
      SamePendingFor(a.requests, b.requests, a.devices[device].child, domain, h, home);
      if !HasPending(a, a.devices[device].child, domain) {
        PutSame(a.requests, b.requests, access, a'.requests[access], h, home);
        ReplaceRequests(a, b, a'.requests, b'.requests, h, home);
      }
    }
  }

  lemma StatusSame(a: State, b: State, device: Id, access: Id, h: Household, home: Home)
    requires Inv(a, home) && Inv(b, home) && home(device) == h && SameView(a, b, h, home)
    ensures StatusReply(a, device, access) == StatusReply(b, device, access)
  {
    SameAdmitted(a, b, device, h, home);
  }

  lemma SyncSame(a: State, b: State, device: Id, known: nat, sameLists: bool, h: Household, home: Home)
    requires Inv(a, home) && Inv(b, home) && home(device) == h && SameView(a, b, h, home)
    ensures SyncReply(a, device, known, sameLists) == SyncReply(b, device, known, sameLists)
  {
    SameAdmitted(a, b, device, h, home);
    if DeviceAdmitted(a, device) {
      SamePolicy(a, b, a.devices[device].child, h, home);
    }
  }

  lemma HeartbeatInv(s: State, device: Id, status: string, home: Home)
    requires Inv(s, home)
    ensures Inv(HeartbeatStep(s, device, status), home)
  {
  }

  lemma HeartbeatElsewhere(s: State, device: Id, status: string, h: Household, home: Home)
    requires home(device) != h
    ensures SameView(s, HeartbeatStep(s, device, status), h, home)
  {
    if DeviceAdmitted(s, device) {
      var row := s.devices[device].(status := status);
      PutElsewhere(s.devices, device, row, h, home);
      ReplaceDevices(s, s, s.devices, s.devices[device := row], h, home);
    }
  }

  lemma HeartbeatOwn(a: State, b: State, device: Id, status: string, h: Household, home: Home)
    requires Inv(a, home) && Inv(b, home) && home(device) == h && SameView(a, b, h, home)
    ensures DeviceAdmitted(a, device) == DeviceAdmitted(b, device)
    ensures SameView(HeartbeatStep(a, device, status), HeartbeatStep(b, device, status), h, home)
  {
    SameAdmitted(a, b, device, h, home);
    if DeviceAdmitted(a, device) {
      var row := a.devices[device].(status := status);
      PutSame(a.devices, b.devices, device, row, h, home);
      ReplaceDevices(a, b, a.devices[device := row], b.devices[device := row], h, home);
    }
  }

  // ---- All steps ---------------------------------------------------------------------

  lemma StepKeepsInv(s: State, step: Step, home: Home)
    requires Inv(s, home) && Minted(step, home)
    ensures Inv(Apply(s, step), home)
  {
    match step
    case Begin(handler, household, request) => BeginInv(s, handler, household, request, home);
    case Continue(handler) => if handler in s.handlers { Statement(s, s, handler, 0, home); }
    case Crash(handler) =>
    case Enrol(code, device) => EnrolInv(s, code, device, home);
    case PostEvent(device, event, text) => PostEventInv(s, device, event, text, home);
    case AskAccess(device, access, domain) => AskAccessInv(s, device, access, domain, home);
    case AskStatus(_, _) =>
    case Sync(_, _, _) =>
    case Heartbeat(device, status) => HeartbeatInv(s, device, status, home);
  }

  lemma PostEventIds(s: State, device: Id, event: Id, text: string, h: Household, home: Home)
    requires InvFor(s, h, home) && Regular(s, PostEvent(device, event, text), h, home)
    ensures EventIds(PostEventStep(s, device, event, text).events, h, home)
  {
  }

  lemma OthersKeepEvents(s: State, step: Step)
    requires !step.PostEvent?
    ensures Apply(s, step).events == s.events
  {
    match step
    case Begin(handler, household, request) => BeginKeepsEvents(s, handler, household, request);
    case _ =>
  }

  lemma BeginKeepsEvents(s: State, handler: Id, household: Household, request: Request)
    ensures BeginStep(s, handler, household, request).events == s.events
  {
    var checked := Check(s, household, request);
    if checked.Answer? { assert Revoked(s, household, request).events == s.events; }
  }

  lemma StepKeepsInvFor(s: State, step: Step, h: Household, home: Home)
    requires InvFor(s, h, home) && Minted(step, home) && Regular(s, step, h, home)
    ensures InvFor(Apply(s, step), h, home)
  {
    StepKeepsInv(s, step, home);
    if step.PostEvent? {
      PostEventIds(s, step.device, step.event, step.text, h, home);
    } else {
      OthersKeepEvents(s, step);
    }
  }

  /** Where the rows of h are the same, the same steps are regular for it. */
  lemma SameRegular(a: State, b: State, step: Step, h: Household, home: Home)
    requires SameIn(a.events, b.events, h, home) && Regular(a, step, h, home)
    ensures Regular(b, step, h, home)
  {
  }

  /** Whatever a household does, the rows of another stay as they are. */
  lemma StrangerStep(s: State, step: Step, h: Household, home: Home)
    requires Inv(s, home) && Minted(step, home) && Owner(step, home) != h && Regular(s, step, h, home)
    ensures SameView(s, Apply(s, step), h, home)
  {
    match step
    case Begin(handler, household, request) => BeginElsewhere(s, handler, household, request, h, home);
    case Continue(handler) => if handler in s.handlers { Statement(s, s, handler, h, home); }
    case Crash(handler) =>
    case Enrol(code, device) => EnrolElsewhere(s, code, device, h, home);
    case PostEvent(device, event, text) => PostEventElsewhere(s, device, event, text, h, home);
    case AskAccess(device, access, domain) => AskAccessElsewhere(s, device, access, domain, h, home);
    case AskStatus(_, _) =>
    case Sync(_, _, _) =>
    case Heartbeat(device, status) => HeartbeatElsewhere(s, device, status, h, home);
  }

  lemma DeviceOwn(a: State, b: State, step: Step, h: Household, home: Home)
    requires InvFor(a, h, home) && InvFor(b, h, home) && SameView(a, b, h, home)
    requires Minted(step, home) && Owner(step, home) == h && Regular(a, step, h, home) && !IsParentStep(step)
    ensures SameView(Apply(a, step), Apply(b, step), h, home)
    ensures Response(a, step) == Response(b, step)
  {
    match step
    case Enrol(code, device) => EnrolOwn(a, b, code, device, h, home);
    case PostEvent(device, event, text) => PostEventOwn(a, b, device, event, text, h, home);
    case AskAccess(device, access, domain) =>
      AskAccessOwn(a, b, device, access, domain, h, home);
      AskReplySame(a, b, device, access, domain, h, home);
    case AskStatus(device, access) => StatusSame(a, b, device, access, h, home);
    case Sync(device, known, sameLists) => SyncSame(a, b, device, known, sameLists, h, home);
    case Heartbeat(device, status) => HeartbeatOwn(a, b, device, status, h, home);
  }

  lemma ContinueOwn(a: State, b: State, handler: Id, h: Household, home: Home)
    requires Inv(a, home) && Inv(b, home) && SameView(a, b, h, home) && home(handler) == h
    ensures SameView(ContinueStep(a, handler), ContinueStep(b, handler), h, home)
    ensures Response(a, Continue(handler)) == Response(b, Continue(handler))
  {
    if handler in a.handlers { Statement(a, b, handler, h, home); }
  }

  /** A household's own step does the same and is told the same wherever its own rows are the same. */
  lemma OwnStep(a: State, b: State, step: Step, h: Household, home: Home)
    requires InvFor(a, h, home) && InvFor(b, h, home) && SameView(a, b, h, home)
    requires Minted(step, home) && Owner(step, home) == h && Regular(a, step, h, home)
    ensures SameView(Apply(a, step), Apply(b, step), h, home)
    ensures Response(a, step) == Response(b, step)
  {
    if IsParentStep(step) { ParentOwn(a, b, step, h, home); } else { DeviceOwn(a, b, step, h, home); }
  }

  lemma ParentOwn(a: State, b: State, step: Step, h: Household, home: Home)
    requires InvFor(a, h, home) && InvFor(b, h, home) && SameView(a, b, h, home)
    requires Minted(step, home) && Owner(step, home) == h && IsParentStep(step)
    ensures SameView(Apply(a, step), Apply(b, step), h, home)
    ensures Response(a, step) == Response(b, step)
  {
    match step
    case Begin(handler, household, request) => BeginOwn(a, b, handler, h, request, home);
    case Continue(handler) => ContinueOwn(a, b, handler, h, home);
    case Crash(handler) =>
  }

  // ---- Runs --------------------------------------------------------------------------

  function Run(s: State, steps: seq<Step>): State
    decreases |steps|
  {
    if steps == [] then s else Run(Apply(s, steps[0]), steps[1..])
  }

  /** What the clients of household h are told, in order. */
  ghost function Told(s: State, steps: seq<Step>, h: Household, home: Home): seq<Option<Reply>>
    decreases |steps|
  {
    if steps == [] then []
    else (if Owner(steps[0], home) == h then [Response(s, steps[0])] else []) + Told(Apply(s, steps[0]), steps[1..], h, home)
  }

  /** The run without the steps to drop. */
  function Without(steps: seq<Step>, drop: Step -> bool): seq<Step> {
    if steps == [] then [] else (if drop(steps[0]) then [] else [steps[0]]) + Without(steps[1..], drop)
  }

  lemma SameTransitive(a: State, b: State, c: State, h: Household, home: Home)
    requires SameView(a, b, h, home) && SameView(b, c, h, home)
    ensures SameView(a, c, h, home)
  {
  }

  lemma SameSymmetric(a: State, b: State, h: Household, home: Home)
    requires SameView(a, b, h, home)
    ensures SameView(b, a, h, home)
  {
  }

  lemma {:induction false} IsolatedRuns(a: State, b: State, steps: seq<Step>, drop: Step -> bool, h: Household, home: Home)
    requires InvFor(a, h, home) && InvFor(b, h, home) && SameView(a, b, h, home)
    requires AllMinted(steps, home) && RegularRun(a, steps, h, home)
    requires forall step | step in steps && drop(step) :: Owner(step, home) != h
    ensures SameView(Run(a, steps), Run(b, Without(steps, drop)), h, home)
    ensures Told(a, steps, h, home) == Told(b, Without(steps, drop), h, home)
    decreases |steps|
  {
    if steps != [] {
      var step := steps[0];
      assert step in steps;
      NextViews(a, b, step, h, home);
      if drop(step) {
        IsolatedRuns(Apply(a, step), b, steps[1..], drop, h, home);
        assert Without(steps, drop) == Without(steps[1..], drop);
      } else {
        IsolatedRuns(Apply(a, step), Apply(b, step), steps[1..], drop, h, home);
        assert Without(steps, drop)[1..] == Without(steps[1..], drop);
      }
    }
  }

  /** One step on both sides, or on one side if it is another household's. */
  lemma NextViews(a: State, b: State, step: Step, h: Household, home: Home)
    requires InvFor(a, h, home) && InvFor(b, h, home) && SameView(a, b, h, home)
    requires Minted(step, home) && Regular(a, step, h, home)
    ensures InvFor(Apply(a, step), h, home) && InvFor(Apply(b, step), h, home)
    ensures SameView(Apply(a, step), Apply(b, step), h, home)
    ensures Owner(step, home) == h ==> Response(a, step) == Response(b, step)
    ensures Owner(step, home) != h ==> SameView(Apply(a, step), b, h, home)
  {
    SameRegular(a, b, step, h, home);
    StepKeepsInvFor(a, step, h, home);
    StepKeepsInvFor(b, step, h, home);
    if Owner(step, home) == h {
      OwnStep(a, b, step, h, home);
    } else {
      StrangerStep(a, step, h, home);
      StrangerStep(b, step, h, home);
      SameSymmetric(a, Apply(a, step), h, home);
      SameTransitive(Apply(a, step), a, b, h, home);
      SameTransitive(Apply(a, step), b, Apply(b, step), h, home);
    }
  }

  predicate IsParentStep(step: Step) {
    step.Begin? || step.Continue? || step.Crash?
  }

  function OthersParentSteps(h: Household, home: Home): Step -> bool {
    (step: Step) => IsParentStep(step) && Owner(step, home) != h
  }

  function OthersSteps(h: Household, home: Home): Step -> bool {
    (step: Step) => Owner(step, home) != h
  }

  /**
   * Household isolation: taking every parent step of the other households out of a run,
   * or everything that they and their devices do, changes neither the rows of household
   * h nor anything that its parents and devices are told.
   */
  lemma {:induction false} HouseholdIsolation(s: State, steps: seq<Step>, h: Household, home: Home)
    requires InvFor(s, h, home) && AllMinted(steps, home) && RegularRun(s, steps, h, home)
    ensures var less := Without(steps, OthersParentSteps(h, home));
            SameView(Run(s, steps), Run(s, less), h, home) && Told(s, steps, h, home) == Told(s, less, h, home)
    ensures var alone := Without(steps, OthersSteps(h, home));
            SameView(Run(s, steps), Run(s, alone), h, home) && Told(s, steps, h, home) == Told(s, alone, h, home)
  {
    IsolatedRuns(s, s, steps, OthersParentSteps(h, home), h, home);
    IsolatedRuns(s, s, steps, OthersSteps(h, home), h, home);
  }

  /** The invariant holds in every run, so a child never changes household and its rows stay with it. */
  lemma {:induction false} OwnershipIsStable(s: State, steps: seq<Step>, home: Home)
    requires Inv(s, home) && AllMinted(steps, home)
    ensures Inv(Run(s, steps), home)
    decreases |steps|
  {
    if steps != [] {
      assert steps[0] in steps;
      StepKeepsInv(s, steps[0], home);
      OwnershipIsStable(Apply(s, steps[0]), steps[1..], home);
    }
  }

  /** Runs in which every device uses ids of its own household are regular for everybody. */
  lemma {:induction false} OwnIdsAreRegular(s: State, steps: seq<Step>, h: Household, home: Home)
    requires forall step | step in steps && step.PostEvent? :: home(step.event) == home(step.device)
    ensures RegularRun(s, steps, h, home)
    decreases |steps|
  {
    if steps != [] {
      assert steps[0] in steps;
      OwnIdsAreRegular(Apply(s, steps[0]), steps[1..], h, home);
    }
  }

  /**
   * Events are where households meet: a device names the id, and an id that is taken is
   * ignored. That is why runs have to be regular. If a device of another household has posted the id first, the event of the
   * own device is told accepted as before, but its parents never see it.
   */
  lemma {:induction false} ReusedEventId(s: State, own: Id, other: Id, event: Id, text: string, otherText: string)
    requires DeviceAdmitted(s, own) && DeviceAdmitted(s, other) && event !in s.events
    requires s.children[s.devices[own].child].household != s.children[s.devices[other].child].household
    ensures var h := s.children[s.devices[own].child].household;
            var alone, after := [PostEvent(own, event, text)], [PostEvent(other, event, otherText), PostEvent(own, event, text)];
            && event in EventsOf(Run(s, alone), h, None) && event !in EventsOf(Run(s, after), h, None)
            && Response(s, alone[0]) == Response(Apply(s, after[0]), after[1]) == Some(Accepted)
  {
    var first, second := PostEvent(other, event, otherText), PostEvent(own, event, text);
    RunOne(s, second);
    RunTwo(s, first, second);
  }

  lemma {:induction false} RunOne(s: State, x: Step)
    ensures Run(s, [x]) == Apply(s, x)
  {
    assert [x][1..] == [];
  }

  lemma {:induction false} RunTwo(s: State, x: Step, y: Step)
    ensures Run(s, [x, y]) == Apply(Apply(s, x), y)
  {
    assert [x, y][1..] == [y];
    RunOne(Apply(s, x), y);
  }

  // ---- What a household's own requests do ----------------------------------------------
  // The laws above say what a household cannot do to another. These say what its own
  // requests achieve, so that refusing everything is no way to keep households apart.

  /** A request that is checked and then runs its n statements undisturbed. */
  function Handled(s: State, handler: Id, h: Household, request: Request, n: nat): State {
    Continued(BeginStep(s, handler, h, request), handler, n)
  }

  function Continued(s: State, handler: Id, n: nat): State
    decreases n
  {
    if n == 0 then s else Continued(ContinueStep(s, handler), handler, n - 1)
  }

  lemma {:induction false} TwoStatements(s: State, handler: Id)
    ensures Continued(s, handler, 1) == ContinueStep(s, handler)
    ensures Continued(s, handler, 2) == ContinueStep(ContinueStep(s, handler), handler)
  {
    assert Continued(ContinueStep(s, handler), handler, 1) == Continued(ContinueStep(ContinueStep(s, handler), handler), handler, 0);
  }

  /** The list of children: exactly the household's own, with exactly their active devices. */
  lemma ListedChildren(s: State, h: Household)
    ensures var r := Check(s, h, ListChildren);
            && r.Answer? && r.reply.ChildRows?
            && (forall id :: id in r.reply.children <==> id in s.children && s.children[id].household == h)
            && (forall id | id in r.reply.children :: r.reply.children[id] == s.children[id])
            && (forall id :: id in r.reply.devices <==>
                  id in s.devices && !s.devices[id].revoked
                  && s.devices[id].child in s.children && s.children[s.devices[id].child].household == h)
            && (forall id | id in r.reply.devices :: r.reply.devices[id] == s.devices[id])
  {
  }

  /** The event list: exactly the household's events, of one child if the query names it. */
  lemma ListedEvents(s: State, h: Household, filter: Option<Id>)
    ensures var r := Check(s, h, ListEvents(filter));
            && r.Answer? && r.reply.EventRows?
            && (forall id :: id in r.reply.events <==>
                  id in s.events && s.events[id].household == h && s.events[id].child in s.children
                  && (filter.Some? ==> s.events[id].child == filter.value))
            && (forall id | id in r.reply.events :: r.reply.events[id] == s.events[id])
  {
  }

  lemma ListedRequests(s: State, h: Household)
    ensures var r := Check(s, h, ListRequests);
            && r.Answer? && r.reply.RequestRows?
            && (forall id :: id in r.reply.requests <==>
                  id in s.requests && s.requests[id].household == h && s.requests[id].child in s.children)
            && (forall id | id in r.reply.requests :: r.reply.requests[id] == s.requests[id])
  {
  }

  /** The policy has the child's row, and exactly the schedules and rules of the child. */
  lemma PolicyExact(s: State, child: Id)
    requires child in s.children
    ensures var p := PolicyOf(s, child);
            && p.child == s.children[child]
            && (forall id :: id in p.schedules <==> id in s.schedules && s.schedules[id].child == child)
            && (forall id :: id in p.rules <==> id in s.rules && s.rules[id].child == child)
            && (forall id | id in p.schedules :: p.schedules[id] == s.schedules[id])
            && (forall id | id in p.rules :: p.rules[id] == s.rules[id])
  {
  }

  /** The owner sees it; nobody else does, whatever the child. */
  lemma PolicyForOwner(s: State, h: Household, child: Id)
    ensures Check(s, h, GetPolicy(child)) ==
              if child in s.children && s.children[child].household == h then Answer(PolicyRows(PolicyOf(s, child))) else Answer(NotFound)
  {
  }

  /** Every request about a child that is not the household's is answered with not found, and does nothing. */
  lemma ForeignChildNotFound(s: State, handler: Id, h: Household, request: Request)
    requires handler !in s.handlers
    requires request.PutPolicy? || request.ResetPreset? || request.NewCode? || request.AddSchedule? || request.DeleteSchedule?
             || request.AddRule? || request.DeleteRule?
    requires !(request.child in s.children && s.children[request.child].household == h)
    ensures BeginStep(s, handler, h, request) == s && Response(s, Begin(handler, h, request)) == Some(NotFound)
  {
  }

  /** A new child has its name, age band, the preset of the band, and version 1. */
  lemma {:induction false} ChildCreated(s: State, handler: Id, h: Household, child: Id, name: string, ageBand: string)
    requires handler !in s.handlers && child !in s.children
    ensures var s' := Handled(s, handler, h, CreateChild(child, name, ageBand), 2);
            child in s'.children && s'.children == s.children[child := Child(h, name, ageBand, "", Preset(ageBand), 1)] && s'.handlers == s.handlers
  {
    TwoStatements(BeginStep(s, handler, h, CreateChild(child, name, ageBand)), handler);
    var s0 := BeginStep(s, handler, h, CreateChild(child, name, ageBand));
    var s1 := ContinueStep(s0, handler);
    assert s1.handlers[handler] == ToFillCategories(child, Preset(ageBand));
    assert s1.handlers - {handler} == s.handlers;
  }

  lemma {:induction false} OwnedBegins(s: State, handler: Id, h: Household, request: Request, next: Pending)
    requires handler !in s.handlers && Check(s, h, request) == Next(next)
    ensures BeginStep(s, handler, h, request) == s.(handlers := s.handlers[handler := next])
  {
  }

  /** An update writes settings and categories, and one bump. */
  lemma {:induction false} PolicyUpdated(s: State, handler: Id, h: Household, child: Id, settings: string, categories: string)
    requires handler !in s.handlers && Owns(s, h, child)
    ensures var s', row := Handled(s, handler, h, PutPolicy(child, settings, categories), 1), s.children[child];
            && s'.children == s.children[child := row.(settings := settings, categories := categories, version := row.version + 1)]
            && s'.handlers == s.handlers && s'.schedules == s.schedules && s'.rules == s.rules && s'.devices == s.devices
  {
    OwnedBegins(s, handler, h, PutPolicy(child, settings, categories), ToWritePolicy(child, settings, categories));
    TwoStatements(BeginStep(s, handler, h, PutPolicy(child, settings, categories)), handler);
    assert s.handlers[handler := ToWritePolicy(child, settings, categories)] - {handler} == s.handlers;
  }

  /** A device that has the old version is sent the policy, one that has the new version and list is not. */
  lemma SyncedPolicy(s: State, device: Id, known: nat, sameLists: bool)
    requires device in s.devices && !s.devices[device].revoked && s.devices[device].child in s.children
    ensures var child := s.devices[device].child;
            Response(s, Sync(device, known, sameLists)) ==
              Some(if known == s.children[child].version && sameLists then NotModified else PolicyRows(PolicyOf(s, child)))
  {
  }

  /** A reset gives the preset of the child's age band, and one bump. */
  lemma {:induction false} PresetReset(s: State, handler: Id, h: Household, child: Id)
    requires handler !in s.handlers && Owns(s, h, child)
    ensures var s', row := Handled(s, handler, h, ResetPreset(child), 2), s.children[child];
            s'.children == s.children[child := row.(categories := Preset(row.ageBand), version := row.version + 1)] && s'.handlers == s.handlers
  {
    var p := ToReset(child, Preset(s.children[child].ageBand));
    OwnedBegins(s, handler, h, ResetPreset(child), p);
    ThenBump(s, handler, p);
  }

  /** A statement that leaves the bump to the next one. */
  lemma {:induction false} ThenBump(s: State, handler: Id, p: Pending)
    requires handler !in s.handlers && Rest(p) == Some(ToBump(p.child))
    ensures var s0 := s.(handlers := s.handlers[handler := p]);
            var s2 := Continued(s0, handler, 2);
            && s2.children == Bumped(ChildrenAfter(s.children, p), p.child) && s2.handlers == s.handlers
            && s2.schedules == SchedulesAfter(s.schedules, p) && s2.rules == RulesAfter(s.rules, p)
  {
    var s0 := s.(handlers := s.handlers[handler := p]);
    TwoStatements(s0, handler);
    var s1 := ContinueStep(s0, handler);
    assert s1.handlers == s0.handlers[handler := ToBump(p.child)];
    assert s1.handlers - {handler} == s.handlers;
  }

  lemma {:induction false} ScheduleAdded(s: State, handler: Id, h: Household, child: Id, schedule: Id, text: string)
    requires handler !in s.handlers && Owns(s, h, child) && schedule !in s.schedules
    ensures var s' := Handled(s, handler, h, AddSchedule(child, schedule, text), 2);
            && s'.schedules == s.schedules[schedule := Schedule(child, text)]
            && child in s'.children && s'.children[child].version == s.children[child].version + 1
  {
    OwnedBegins(s, handler, h, AddSchedule(child, schedule, text), ToInsertSchedule(child, schedule, text));
    ThenBump(s, handler, ToInsertSchedule(child, schedule, text));
  }

  /** Deleting works on schedules of the named child only. */
  lemma {:induction false} ScheduleDeleted(s: State, handler: Id, h: Household, child: Id, schedule: Id)
    requires handler !in s.handlers && Owns(s, h, child)
    ensures var s' := Handled(s, handler, h, DeleteSchedule(child, schedule), 2);
            && (forall id :: id in s'.schedules <==> id in s.schedules && !(id == schedule && s.schedules[id].child == child))
            && (forall id | id in s'.schedules :: s'.schedules[id] == s.schedules[id])
            && child in s'.children && s'.children[child].version == s.children[child].version + 1
  {
    OwnedBegins(s, handler, h, DeleteSchedule(child, schedule), ToDeleteSchedule(child, schedule));
    ThenBump(s, handler, ToDeleteSchedule(child, schedule));
  }

  lemma {:induction false} RuleDeleted(s: State, handler: Id, h: Household, child: Id, rule: Id)
    requires handler !in s.handlers && Owns(s, h, child)
    ensures var s' := Handled(s, handler, h, DeleteRule(child, rule), 2);
            && (forall id :: id in s'.rules <==> id in s.rules && !(id == rule && s.rules[id].child == child))
            && (forall id | id in s'.rules :: s'.rules[id] == s.rules[id])
            && child in s'.children && s'.children[child].version == s.children[child].version + 1
  {
    OwnedBegins(s, handler, h, DeleteRule(child, rule), ToDeleteRule(child, rule));
    ThenBump(s, handler, ToDeleteRule(child, rule));
  }

  /** After an upsert the child has the rule for the domain, under its old id if it had one; all other rules stay. */
  lemma UpsertExact(rules: map<Id, Rule>, rule: Id, child: Id, domain: string, action: string)
    requires rule !in rules
    ensures var after := UpsertRule(rules, rule, child, domain, action);
            && (exists id :: id in after && after[id] == Rule(child, domain, action))
            && (forall id | id in after && after[id].child == child && after[id].domain == domain :: after[id].action == action)
            && (forall id | id in rules :: id in after && (!(rules[id].child == child && rules[id].domain == domain) ==> after[id] == rules[id]))
            && (forall id | id in after :: id in rules || id == rule)
  {
    var after := UpsertRule(rules, rule, child, domain, action);
    if HasRule(rules, child, domain) {
      var id :| id in rules && rules[id].child == child && rules[id].domain == domain;
      assert after[id] == Rule(child, domain, action);
    } else {
      assert after[rule] == Rule(child, domain, action);
    }
  }

  lemma {:induction false} RuleAdded(s: State, handler: Id, h: Household, child: Id, rule: Id, domain: string, action: string)
    requires handler !in s.handlers && Owns(s, h, child) && rule !in s.rules
    ensures var s' := Handled(s, handler, h, AddRule(child, rule, domain, action), 2);
            && s'.rules == UpsertRule(s.rules, rule, child, domain, action)
            && child in s'.children && s'.children[child].version == s.children[child].version + 1
  {
    OwnedBegins(s, handler, h, AddRule(child, rule, domain, action), ToUpsertRule(child, rule, domain, action));
    ThenBump(s, handler, ToUpsertRule(child, rule, domain, action));
  }

  /** A last statement. */
  lemma {:induction false} ThenDone(s: State, handler: Id, p: Pending)
    requires handler !in s.handlers && Rest(p).None?
    ensures var s1 := Continued(s.(handlers := s.handlers[handler := p]), handler, 1);
            && s1.children == ChildrenAfter(s.children, p) && s1.requests == RequestsAfter(s.requests, p)
            && s1.rules == RulesAfter(s.rules, p) && s1.codes == CodesAfter(s.codes, p) && s1.handlers == s.handlers
  {
    var s0 := s.(handlers := s.handlers[handler := p]);
    TwoStatements(s0, handler);
    assert s0.handlers - {handler} == s.handlers;
  }

  lemma ResolvedTables(s: State, p: Pending)
    requires p.ToResolve? && p.request in s.requests && s.requests[p.request].status == "pending" && p.child in s.children
    ensures RequestsAfter(s.requests, p)
         == s.requests[p.request := s.requests[p.request].(status := if p.deny then "denied" else "approved")]
    ensures RulesAfter(s.rules, p) == (if p.deny then s.rules else UpsertRule(s.rules, p.rule, p.child, p.domain, "allow"))
    ensures p.child in ChildrenAfter(s.children, p) && ChildrenAfter(s.children, p)[p.child].version == s.children[p.child].version + 1
  {
  }

  /**
   * Resolving an own pending request: the answer is recorded, an approval adds the allow
   * rule and a refusal none, one bump; a second attempt is told that it is too late.
   */
  lemma {:induction false} RequestResolved(s: State, handler: Id, h: Household, request: Id, deny: bool, rule: Id)
    requires handler !in s.handlers && request in s.requests && s.requests[request].household == h
    requires s.requests[request].status == "pending" && s.requests[request].child in s.children
    ensures var s', row := Handled(s, handler, h, Resolve(request, deny, rule), 1), s.requests[request];
            && s'.requests == s.requests[request := row.(status := if deny then "denied" else "approved")]
            && s'.rules == (if deny then s.rules else UpsertRule(s.rules, rule, row.child, row.domain, "allow"))
            && row.child in s'.children && s'.children[row.child].version == s.children[row.child].version + 1
            && Check(s', h, Resolve(request, deny, rule)) == Answer(AlreadyResolved)
  {
    var row := s.requests[request];
    var p := ToResolve(row.child, request, row.domain, deny, rule);
    OwnedBegins(s, handler, h, Resolve(request, deny, rule), p);
    ThenDone(s, handler, p);
    ResolvedTables(s, p);
  }

  /** Revoking an own device: it is told no at every request from then on. */
  lemma DeviceRevoked(s: State, handler: Id, h: Household, device: Id, step: Step)
    requires handler !in s.handlers && device in s.devices && Owns(s, h, s.devices[device].child)
    ensures var s' := BeginStep(s, handler, h, RevokeDevice(device));
            && Response(s, Begin(handler, h, RevokeDevice(device))) == Some(Done)
            && s'.devices == s.devices[device := s.devices[device].(revoked := true)]
    ensures (step.Sync? || step.PostEvent? || step.AskAccess? || step.AskStatus? || step.Heartbeat?) && step.device == device ==>
              Response(BeginStep(s, handler, h, RevokeDevice(device)), step) == Some(Refused)
  {
    assert !DeviceAdmitted(BeginStep(s, handler, h, RevokeDevice(device)), device);
  }

  /** A code enrols one device, which takes the place of the child's other devices; a second try is refused. */
  lemma DeviceEnrolled(s: State, code: Id, device: Id, again: Id)
    requires code in s.codes && !s.codes[code].consumed && s.codes[code].child in s.children && device !in s.devices
    ensures var s', child := EnrolStep(s, code, device), s.codes[code].child;
            && Response(s, Enrol(code, device)) == Some(Enrolled(device, PolicyOf(s, child)))
            && DeviceAdmitted(s', device) && s'.devices[device].child == child
            && (forall id | id in s'.devices && s'.devices[id].child == child && id != device :: s'.devices[id].revoked)
            && (forall id | id in s.devices && s.devices[id].child != child :: id in s'.devices && s'.devices[id] == s.devices[id])
            && Response(s', Enrol(code, again)) == Some(Refused)
  {
  }

  lemma CodeIssued(s: State, handler: Id, h: Household, child: Id, code: Id)
    requires handler !in s.handlers && Owns(s, h, child) && code !in s.codes
    ensures var s' := Handled(s, handler, h, NewCode(child, code), 1);
            s'.codes == s.codes[code := Code(child, false)]
  {
    OwnedBegins(s, handler, h, NewCode(child, code), ToInsertCode(child, code));
    TwoStatements(BeginStep(s, handler, h, NewCode(child, code)), handler);
  }

  /** An event is stored for the device's own child and household, and a status shows with the device. */
  lemma EventStored(s: State, device: Id, event: Id, text: string, status: string)
    requires DeviceAdmitted(s, device) && event !in s.events
    ensures var child := s.devices[device].child;
            && PostEventStep(s, device, event, text).events
               == s.events[event := Event(s.children[child].household, child, device, text)]
            && HeartbeatStep(s, device, status).devices == s.devices[device := s.devices[device].(status := status)]
  {
  }

  /** A first request for a domain is stored as pending; as long as it is, further ones name it and store nothing. */
  lemma AccessAsked(s: State, device: Id, access: Id, domain: string, again: Id)
    requires DeviceAdmitted(s, device) && access !in s.requests
    requires !exists id :: id in s.requests && s.requests[id].child == s.devices[device].child && s.requests[id].domain == domain
                           && s.requests[id].status == "pending"
    ensures var s', child := AskAccessStep(s, device, access, domain), s.devices[device].child;
            && Response(s, AskAccess(device, access, domain)) == Some(Asked(access, false))
            && s'.requests == s.requests[access := AccessRequest(s.children[child].household, child, device, domain, "pending")]
            && Response(s', AskAccess(device, again, domain)) == Some(Asked(access, true))
            && AskAccessStep(s', device, again, domain) == s'
  {
    var s', child := AskAccessStep(s, device, access, domain), s.devices[device].child;
    assert PendingFor(s.requests, child, domain) == {};
    assert PendingFor(s'.requests, child, domain) == {access};
  }

  /** A device may ask about its own requests only. */
  lemma StatusTold(s: State, device: Id, access: Id)
    requires DeviceAdmitted(s, device)
    ensures Response(s, AskStatus(device, access)) ==
              Some(if access in s.requests && s.requests[access].device == device then Status(s.requests[access]) else NotFound)
  {
  }
}
