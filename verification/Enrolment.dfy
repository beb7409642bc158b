/**
 * Enrolment: a parent issues a single-use code, a device exchanges it for a
 * credential, and any earlier device of the child is revoked. Handlers interleave at
 * every await; a step is one SQL statement or batch.
 */
module Enrolment {

  type Pid = nat
  type ChildId = nat
  type HouseholdId = nat
  type CodeId = nat
  type DeviceId = nat

  const CODE_TTL_MS := 24 * 60 * 60 * 1000

  datatype Code = Code(child: ChildId, expiresAt: int, consumed: bool)

  /** `code` is the code that the device was enrolled with, looked up at `seenAt`; the row itself does not keep them. */
  datatype Device = Device(child: ChildId, revoked: bool, code: CodeId, seenAt: int)

  type Codes = map<CodeId, Code>
  type Devices = map<DeviceId, Device>

  // ---- Statements ----------------------------------------------------------------

  predicate Usable(codes: Codes, id: CodeId, now: int) {
    id in codes && !codes[id].consumed && codes[id].expiresAt > now
  }

  /** UPDATE ... SET consumed_at WHERE id = ? AND consumed_at IS NULL: whether a row changed. */
  predicate CanConsume(codes: Codes, id: CodeId) {
    id in codes && !codes[id].consumed
  }

  function Consume(codes: Codes, id: CodeId): Codes {
    if CanConsume(codes, id) then codes[id := codes[id].(consumed := true)] else codes
  }

  function PurgeCodes(codes: Codes, now: int): Codes {
    map id | id in codes && codes[id].expiresAt >= now :: codes[id]
  }

  function RevokeAll(devices: Devices, child: ChildId): Devices {
    map id | id in devices :: if devices[id].child == child then devices[id].(revoked := true) else devices[id]
  }

  /** The handler's batch: revoke what the child has, insert the new device. */
  function Register(devices: Devices, id: DeviceId, child: ChildId, code: CodeId, seenAt: int): Devices {
    RevokeAll(devices, child)[id := Device(child, false, code, seenAt)]
  }

  predicate CanRevoke(devices: Devices, children: map<ChildId, HouseholdId>, id: DeviceId, household: HouseholdId) {
    id in devices && devices[id].child in children && children[devices[id].child] == household
  }

  function Revoke(devices: Devices, children: map<ChildId, HouseholdId>, id: DeviceId, household: HouseholdId): Devices {
    if CanRevoke(devices, children, id, household) then devices[id := devices[id].(revoked := true)] else devices
  }

  /** deviceAuth lets the bearer of this device's credential in. */
  predicate DeviceAdmitted(devices: Devices, id: DeviceId) {
    id in devices && !devices[id].revoked
  }

  /** The two tables, changed in place, and each handler run without interruption. */
  class EnrolmentTables {
    var codes: Codes
    var devices: Devices

    constructor ()
      ensures codes == map[] && devices == map[]
    {
      codes, devices := map[], map[];
    }

    method IssueCode(id: CodeId, child: ChildId, now: int)
      modifies this`codes
      ensures codes == old(codes)[id := Code(child, now + CODE_TTL_MS, false)]
    {
      codes := codes[id := Code(child, now + CODE_TTL_MS, false)];
    }

    /** /enroll: afterwards the code is spent and the new device is the child's only active one. */
    method Enrol(code: CodeId, now: int, device: DeviceId) returns (ok: bool)
      requires device !in devices
      modifies this
      ensures ok <==> code in old(codes) && !old(codes)[code].consumed && now < old(codes)[code].expiresAt
      ensures !ok ==> codes == old(codes) && devices == old(devices)
      ensures ok ==> codes == old(codes)[code := old(codes)[code].(consumed := true)]
      ensures ok ==> device in devices && devices[device].child == old(codes)[code].child
      ensures ok ==> forall id :: DeviceAdmitted(devices, id) <==>
                       id == device || (DeviceAdmitted(old(devices), id) && old(devices)[id].child != old(codes)[code].child)
    {
      if !Usable(codes, code, now) { return false; }
      var child := codes[code].child;
      codes := codes[code := codes[code].(consumed := true)];
      devices := map id | id in devices :: if devices[id].child == child then devices[id].(revoked := true) else devices[id];
      devices := devices[device := Device(child, false, code, now)];
      return true;
    }

    method RevokeDevice(children: map<ChildId, HouseholdId>, id: DeviceId, household: HouseholdId) returns (found: bool)
      modifies this`devices
      ensures found <==> id in old(devices) && old(devices)[id].child in children && children[old(devices)[id].child] == household
      ensures found ==> !DeviceAdmitted(devices, id)
      ensures devices == if found then old(devices)[id := old(devices)[id].(revoked := true)] else old(devices)
      ensures devices == Revoke(old(devices), children, id, household)
    {
      if id !in devices || devices[id].child !in children || children[devices[id].child] != household { return false; }
      devices := devices[id := devices[id].(revoked := true)];
      return true;
    }
  }

  // ---- The machine ---------------------------------------------------------------

  /** An enrol handler after its lookup, and after it has consumed the code. */
  datatype Proc = Found(code: CodeId, child: ChildId, seenAt: int) | Holding(code: CodeId, child: ChildId, seenAt: int)

  /** `issued` and `issuedAt` remember every code; no step looks at them but for the freshness of ids. */
  datatype State = State(
    children: map<ChildId, HouseholdId>, codes: Codes, devices: Devices, procs: map<Pid, Proc>, now: int,
    issued: map<CodeId, ChildId>, issuedAt: map<CodeId, int>)

  datatype Step =
    | Tick(ms: nat)
    | IssueCode(id: CodeId, child: ChildId)
    | LookUp(pid: Pid, code: CodeId)
    | ConsumeCode(pid: Pid)
    | RegisterDevice(pid: Pid, device: DeviceId)
    | Crash(pid: Pid)
    | RevokeStep(device: DeviceId, household: HouseholdId)
    | Purge(cutoff: int)

  predicate Is(s: State, pid: Pid, holding: bool) {
    pid in s.procs && s.procs[pid].Holding? == holding
  }

  /** One step; a step that is not enabled changes nothing. Ids are random and so never repeat. */
  function Apply(s: State, step: Step): State {
    match step
    case Tick(ms) => s.(now := s.now + ms)
    case IssueCode(id, child) =>
      if id in s.issued || child !in s.children then s
      else s.(codes := s.codes[id := Code(child, s.now + CODE_TTL_MS, false)], issued := s.issued[id := child],
              issuedAt := s.issuedAt[id := s.now])
    case LookUp(pid, code) =>
      if pid !in s.procs && Usable(s.codes, code, s.now) then s.(procs := s.procs[pid := Found(code, s.codes[code].child, s.now)]) else s
    case ConsumeCode(pid) =>
      if !Is(s, pid, false) then s
      else if CanConsume(s.codes, s.procs[pid].code) then
        s.(codes := Consume(s.codes, s.procs[pid].code),
           procs := s.procs[pid := Holding(s.procs[pid].code, s.procs[pid].child, s.procs[pid].seenAt)])
      else s.(procs := s.procs - {pid})
    case RegisterDevice(pid, device) =>
      if Is(s, pid, true) && device !in s.devices then
        s.(devices := Register(s.devices, device, s.procs[pid].child, s.procs[pid].code, s.procs[pid].seenAt), procs := s.procs - {pid})
      else s
    case Crash(pid) => s.(procs := s.procs - {pid})
    case RevokeStep(device, household) => s.(devices := Revoke(s.devices, s.children, device, household))
    case Purge(cutoff) => if cutoff <= s.now then s.(codes := PurgeCodes(s.codes, cutoff)) else s
  }

  function Run(s: State, steps: seq<Step>): State
    decreases |steps|
  {
    if steps == [] then s else Run(Apply(s, steps[0]), steps[1..])
  }

  predicate Initial(s: State) {
    s.codes == map[] && s.devices == map[] && s.procs == map[] && s.issued == map[] && s.issuedAt == map[]
  }

  // ---- The invariant -------------------------------------------------------------

  /** The code is spent: it cannot be consumed any more, now or later. */
  predicate Spent(s: State, code: CodeId) {
    code in s.issued && (code in s.codes ==> s.codes[code].consumed)
  }

  predicate CodesInv(s: State) {
    forall c | c in s.codes :: c in s.issued && s.codes[c].child == s.issued[c]
  }

  predicate ProcsInv(s: State) {
    && (forall p | p in s.procs :: s.procs[p].code in s.issued && s.procs[p].child == s.issued[s.procs[p].code])
    && (forall p | p in s.procs && s.procs[p].Holding? :: Spent(s, s.procs[p].code))
    && (forall p, q | p in s.procs && q in s.procs && p != q && s.procs[p].Holding? && s.procs[q].Holding? ::
          s.procs[p].code != s.procs[q].code)
  }

  predicate DevicesInv(s: State) {
    && (forall d | d in s.devices ::
          Spent(s, s.devices[d].code) && s.devices[d].child == s.issued[s.devices[d].code])
    && (forall p, d | p in s.procs && d in s.devices && s.procs[p].Holding? :: s.procs[p].code != s.devices[d].code)
    && (forall d, e | d in s.devices && e in s.devices && d != e :: s.devices[d].code != s.devices[e].code)
  }

  ghost predicate OneActive(devices: Devices) {
    forall d, e | DeviceAdmitted(devices, d) && DeviceAdmitted(devices, e) && devices[d].child == devices[e].child :: d == e
  }

  /** The instant lies in the day that the code is good for. */
  predicate InTime(s: State, code: CodeId, at: int) {
    code in s.issuedAt && s.issuedAt[code] <= at < s.issuedAt[code] + CODE_TTL_MS
  }

  predicate TimesInv(s: State) {
    && s.issuedAt.Keys == s.issued.Keys
    && (forall c | c in s.issuedAt :: s.issuedAt[c] <= s.now)
    && (forall c | c in s.codes :: c in s.issuedAt && s.codes[c].expiresAt == s.issuedAt[c] + CODE_TTL_MS)
    && (forall p | p in s.procs :: InTime(s, s.procs[p].code, s.procs[p].seenAt))
    && (forall d | d in s.devices :: InTime(s, s.devices[d].code, s.devices[d].seenAt))
  }

  ghost predicate Inv(s: State) {
    CodesInv(s) && ProcsInv(s) && DevicesInv(s) && TimesInv(s) && OneActive(s.devices)
  }

  lemma StepKeepsProcs(s: State, step: Step)
    requires CodesInv(s) && ProcsInv(s) && DevicesInv(s)
    ensures CodesInv(Apply(s, step)) && ProcsInv(Apply(s, step))
  {
    if step.ConsumeCode? { ConsumeKeepsProcs(s, step.pid); }
  }

  lemma ConsumeKeepsProcs(s: State, pid: Pid)
    requires CodesInv(s) && ProcsInv(s)
    ensures CodesInv(Apply(s, ConsumeCode(pid))) && ProcsInv(Apply(s, ConsumeCode(pid)))
  {
  }

  lemma StepKeepsDevices(s: State, step: Step)
    requires CodesInv(s) && ProcsInv(s) && DevicesInv(s)
    ensures DevicesInv(Apply(s, step))
  {
    match step
    case ConsumeCode(pid) => ConsumeKeepsDevices(s, pid);
    case RegisterDevice(pid, device) => RegisterKeepsDevices(s, pid, device);
    case _ =>
  }

  lemma ConsumeKeepsDevices(s: State, pid: Pid)
    requires CodesInv(s) && ProcsInv(s) && DevicesInv(s)
    ensures DevicesInv(Apply(s, ConsumeCode(pid)))
  {
  }

  lemma RegisterKeepsDevices(s: State, pid: Pid, device: DeviceId)
    requires CodesInv(s) && ProcsInv(s) && DevicesInv(s)
    ensures DevicesInv(Apply(s, RegisterDevice(pid, device)))
  {
  }

  lemma StepKeepsTimes(s: State, step: Step)
    requires TimesInv(s)
    ensures TimesInv(Apply(s, step))
  {
    match step
    case LookUp(pid, code) => LookUpInTime(s, pid, code);
    case RegisterDevice(pid, device) => RegisterInTime(s, pid, device);
    case IssueCode(id, child) => IssueInTime(s, id, child);
    case ConsumeCode(pid) => ConsumeInTime(s, pid);
    case _ =>
  }

  lemma IssueInTime(s: State, id: CodeId, child: ChildId)
    requires TimesInv(s)
    ensures TimesInv(Apply(s, IssueCode(id, child)))
  {
  }

  lemma ConsumeInTime(s: State, pid: Pid)
    requires TimesInv(s)
    ensures TimesInv(Apply(s, ConsumeCode(pid)))
  {
  }

  lemma LookUpInTime(s: State, pid: Pid, code: CodeId)
    requires TimesInv(s)
    ensures TimesInv(Apply(s, LookUp(pid, code)))
  {
  }

  lemma RegisterInTime(s: State, pid: Pid, device: DeviceId)
    requires TimesInv(s)
    ensures TimesInv(Apply(s, RegisterDevice(pid, device)))
  {
  }

  lemma StepKeepsOneActive(s: State, step: Step)
    requires OneActive(s.devices)
    ensures OneActive(Apply(s, step).devices)
  {
  }

  lemma {:induction false} RunKeepsInv(s: State, steps: seq<Step>)
    requires Inv(s)
    ensures Inv(Run(s, steps))
    decreases |steps|
  {
    if steps != [] {
      StepKeepsProcs(s, steps[0]);
      StepKeepsDevices(s, steps[0]);
      StepKeepsTimes(s, steps[0]);
      StepKeepsOneActive(s, steps[0]);
      RunKeepsInv(Apply(s, steps[0]), steps[1..]);
    }
  }

  /**
   * Enrolment safety, in every interleaving: a child has at most one active device, a
   * code made at most one device, and that device belongs to the child the code was
   * issued for and came with it within a day.
   */
  lemma {:induction false} EnrolmentSafety(init: State, steps: seq<Step>, d: DeviceId, e: DeviceId)
    requires Initial(init)
    ensures var s := Run(init, steps);
            && (DeviceAdmitted(s.devices, d) && DeviceAdmitted(s.devices, e) && s.devices[d].child == s.devices[e].child ==> d == e)
            && (d in s.devices && e in s.devices && s.devices[d].code == s.devices[e].code ==> d == e)
            && (d in s.devices ==>
                  var code := s.devices[d].code;
                  && code in s.issued && s.devices[d].child == s.issued[code]
                  && code in s.issuedAt && s.issuedAt[code] <= s.devices[d].seenAt < s.issuedAt[code] + CODE_TTL_MS)
  {
    RunKeepsInv(init, steps);
  }

  /** A day after it was issued, a code admits nobody. */
  lemma {:induction false} ExpiredCodeRefused(init: State, steps: seq<Step>, pid: Pid, code: CodeId)
    requires Initial(init)
    ensures var s := Run(init, steps);
            code in s.issuedAt && s.now >= s.issuedAt[code] + CODE_TTL_MS ==> Apply(s, LookUp(pid, code)) == s
  {
    RunKeepsInv(init, steps);
  }

  lemma CodeLastsStep(s: State, step: Step, code: CodeId)
    requires TimesInv(s) && code in s.codes
    requires Apply(s, step).now < s.codes[code].expiresAt
    requires step.ConsumeCode? && step.pid in s.procs ==> s.procs[step.pid].code != code
    ensures code in Apply(s, step).codes && Apply(s, step).codes[code] == s.codes[code]
  {
  }

  predicate LeavesCode(s: State, steps: seq<Step>, code: CodeId)
    decreases |steps|
  {
    steps != [] ==>
      && (steps[0].ConsumeCode? && steps[0].pid in s.procs ==> s.procs[steps[0].pid].code != code)
      && LeavesCode(Apply(s, steps[0]), steps[1..], code)
  }

  lemma {:induction false} RunClock(s: State, steps: seq<Step>)
    ensures s.now <= Run(s, steps).now
    decreases |steps|
  {
    if steps != [] {
      RunClock(Apply(s, steps[0]), steps[1..]);
    }
  }

  /** Until then, and until somebody uses it, it stays as it is, also through the nightly job. */
  lemma {:induction false} CodeLasts(s: State, steps: seq<Step>, code: CodeId)
    requires Inv(s) && code in s.codes && LeavesCode(s, steps, code)
    requires Run(s, steps).now < s.codes[code].expiresAt
    ensures code in Run(s, steps).codes && Run(s, steps).codes[code] == s.codes[code]
    decreases |steps|
  {
    if steps != [] {
      var s' := Apply(s, steps[0]);
      RunClock(s', steps[1..]);
      RunKeepsInv(s, [steps[0]]);
      assert Run(s, [steps[0]]) == s' by { assert [steps[0]][1..] == []; }
      CodeLastsStep(s, steps[0], code);
      CodeLasts(s', steps[1..], code);
    }
  }

  // ---- Revocation is forever -----------------------------------------------------

  lemma RevokedStep(s: State, step: Step, d: DeviceId)
    requires d in s.devices
    ensures d in Apply(s, step).devices
    ensures s.devices[d].revoked ==> Apply(s, step).devices[d].revoked
    ensures Apply(s, step).devices[d].child == s.devices[d].child
  {
  }

  /** A revoked device never becomes active again, and no device changes its child. */
  lemma {:induction false} RevokedForever(s: State, steps: seq<Step>, d: DeviceId)
    requires d in s.devices
    ensures d in Run(s, steps).devices
    ensures s.devices[d].revoked ==> !DeviceAdmitted(Run(s, steps).devices, d)
    ensures Run(s, steps).devices[d].child == s.devices[d].child
    decreases |steps|
  {
    if steps != [] {
      RevokedStep(s, steps[0], d);
      RevokedForever(Apply(s, steps[0]), steps[1..], d);
    }
  }

  /** Once a later device of the same child is active, the earlier one is locked out for good. */
  lemma {:induction false} ReplacedForever(init: State, before: seq<Step>, after: seq<Step>, d: DeviceId, e: DeviceId)
    requires Initial(init)
    ensures var s := Run(init, before);
            DeviceAdmitted(s.devices, e) && d in s.devices && d != e && s.devices[d].child == s.devices[e].child
            ==> !DeviceAdmitted(Run(s, after).devices, d)
  {
    var s := Run(init, before);
    RunKeepsInv(init, before);
    if d in s.devices {
      RevokedForever(s, after, d);
    }
  }

  // ---- Progress ------------------------------------------------------------------

  /** An undisturbed handler with a usable code does enrol its device. */
  lemma QuietEnrolment(s: State, pid: Pid, code: CodeId, device: DeviceId)
    requires Inv(s) && pid !in s.procs && device !in s.devices
    requires code in s.codes && !s.codes[code].consumed && s.now < s.issuedAt[code] + CODE_TTL_MS
    ensures var s' := Apply(Apply(Apply(s, LookUp(pid, code)), ConsumeCode(pid)), RegisterDevice(pid, device));
            && DeviceAdmitted(s'.devices, device) && s'.devices[device].child == s.issued[code]
            && s'.codes[code].consumed && s'.procs == s.procs && s'.devices[device].seenAt == s.now
  {
    var s1 := Apply(s, LookUp(pid, code));
    var s2 := Apply(s1, ConsumeCode(pid));
    assert s2.procs[pid] == Holding(code, s.codes[code].child, s.now);
    assert s2.procs - {pid} == s.procs;
  }
}
