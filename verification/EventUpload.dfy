/** The agent's bounded in-memory queues. */
module EventQueues {
  import opened Common

  type EventId = nat

  datatype AgentEvent = AgentEvent(id: EventId, occurredAt: int, kind: string, domain: Option<string>, detail: Option<string>)

  const CAPACITY := 50_000
  const BATCH := 100

  /** The newest events, as many as fit. */
  function Newest(events: seq<AgentEvent>): (r: seq<AgentEvent>)
    ensures |r| <= CAPACITY
    ensures |r| == Min(|events|, CAPACITY) && r == events[|events| - |r|..]
  {
    if |events| <= CAPACITY then events else events[|events| - CAPACITY..]
  }

  function FirstOf<T>(s: seq<T>, count: nat): (r: seq<T>)
    ensures r <= s && |r| == Min(count, |s|)
  {
    s[..Min(count, |s|)]
  }

  function AfterFirst<T>(s: seq<T>, count: nat): (r: seq<T>)
    ensures s == FirstOf(s, count) + r
  {
    s[Min(count, |s|)..]
  }

  class EventQueue {
    var events: seq<AgentEvent>

    constructor ()
      ensures events == []
    {
      events := [];
    }

    /** Enqueue, then drop the oldest while there are too many. */
    method Add(item: AgentEvent)
      modifies this
      ensures events == Newest(old(events) + [item])
      ensures |events| == Min(|old(events)| + 1, 50_000) && events[|events| - 1] == item
    {
      events := events + [item];
      while |events| > CAPACITY
        invariant Newest(events) == Newest(old(events) + [item])
      {
        events := events[1..];
      }
    }

    method Peek(count: nat) returns (batch: seq<AgentEvent>)
      ensures batch == FirstOf(events, count)
    {
      batch := events[..Min(count, |events|)];
    }

    /** `count` attempts to dequeue; an empty queue is left alone. */
    method Remove(count: nat)
      modifies this
      ensures events == AfterFirst(old(events), count)
    {
      for i := 0 to count
        invariant events == AfterFirst(old(events), i)
      {
        if events != [] { events := events[1..]; }
      }
    }

    /** UploadEvents, nothing else running: a batch is removed once it is accepted, and not otherwise. */
    method Upload(accepted: bool) returns (sent: seq<AgentEvent>)
      modifies this
      ensures sent == FirstOf(old(events), BATCH) && |sent| == Min(|old(events)|, 100)
      ensures events == if accepted then AfterFirst(old(events), BATCH) else old(events)
    {
      sent := Peek(BATCH);
      if sent == [] { return; }
      if accepted { Remove(|sent|); }
    }
  }

  datatype PendingRequest = PendingRequest(localId: nat, domain: string, reason: Option<string>)

  /** Answers of the server to the requests sent in one round, in order; a missing answer is a failed call. */
  function AcceptedPrefix(answers: seq<bool>): (n: nat)
    ensures n <= |answers|
    ensures forall i | 0 <= i < n :: answers[i]
    ensures n < |answers| ==> !answers[n]
  {
    if answers == [] || !answers[0] then 0 else 1 + AcceptedPrefix(answers[1..])
  }

  class AccessRequestQueue {
    var requests: seq<PendingRequest>

    constructor ()
      ensures requests == []
    {
      requests := [];
    }

    method Add(item: PendingRequest)
      modifies this
      ensures requests == old(requests) + [item]
    {
      requests := requests + [item];
    }

    method Remove()
      modifies this
      ensures requests == AfterFirst(old(requests), 1)
    {
      if requests != [] { requests := requests[1..]; }
    }

    /**
     * UploadAccessRequests: send the head and remove it once it is accepted; stop at the
     * first refusal. The posted requests are the accepted prefix and the refused one.
     */
    method Upload(answers: seq<bool>) returns (posted: seq<PendingRequest>)
      modifies this
      ensures requests == AfterFirst(old(requests), AcceptedPrefix(answers))
      ensures posted == FirstOf(old(requests), AcceptedPrefix(answers) + 1)
    {
      posted := [];
      var i := 0;
      while requests != []
        invariant i <= |answers| && i <= |old(requests)|
        invariant forall j | 0 <= j < i :: answers[j]
        invariant requests == old(requests)[i..] && posted == old(requests)[..i]
        decreases |requests|
      {
        assert old(requests)[..i + 1] == old(requests)[..i] + [requests[0]];
        posted := posted + [requests[0]];
        if i == |answers| || !answers[i] {
          PrefixIs(answers, i);
          return;
        }
        Remove();
        i := i + 1;
      }
      PrefixAtLeast(answers, i);
    }
  }

  lemma {:induction false} PrefixAtLeast(answers: seq<bool>, i: nat)
    requires i <= |answers| && forall j | 0 <= j < i :: answers[j]
    ensures AcceptedPrefix(answers) >= i
  {
    if i > 0 {
      PrefixAtLeast(answers[1..], i - 1);
    }
  }

  lemma {:induction false} PrefixIs(answers: seq<bool>, i: nat)
    requires i <= |answers| && forall j | 0 <= j < i :: answers[j]
    requires i == |answers| || !answers[i]
    ensures AcceptedPrefix(answers) == i
  {
    PrefixAtLeast(answers, i);
  }
}

/**
 * Event upload as a step machine: adders that enqueue and then trim, one uploader
 * that peeks, sends, and removes by count, requests that can be delayed, repeated or
 * lost, and the server's handler with its idempotency keys.
 */
module EventUpload {
  import opened Common
  import opened EventQueues
  import ContractDomains
  import DomainNames

  type Pid = nat
  type Key = nat

  /** normalizeDomain of the worker, None where it throws. */
  type Normalizer = string -> Option<string>

  /** An adder between its enqueue and its last look at the count. */
  datatype Adder = Looking | Dropping

  datatype Uploader =
    | Idle
    | Waiting(key: Key, batch: seq<AgentEvent>)
    | Removing(batch: seq<AgentEvent>, left: nat)

  datatype Stage = Received | Unseen | Succeeded | Failed

  datatype Flight = Flight(key: Key, batch: seq<AgentEvent>, stage: Stage)

  /** What happened so far; no step looks at it except for the freshness of ids and keys. */
  datatype History = History(
    added: seq<AgentEvent>, dropped: set<EventId>, drops: nat, removed: set<EventId>,
    stored: set<EventId>, issued: set<Key>, peekedAt: int)

  datatype State = State(
    queue: seq<AgentEvent>, adders: map<Pid, Adder>, uploader: Uploader,
    flights: map<nat, Flight>, table: seq<AgentEvent>, keys: set<Key>, past: History, normalize: Normalizer)

  datatype Step =
    // the filter's threads
    | Enqueue(pid: Pid, item: AgentEvent)
    | LookAtCount(pid: Pid)
    | DropOne(pid: Pid)
    // the uploader
    | Send(flight: nat, key: Key)
    | Deliver(flight: nat)
    | GiveUp
    | RemoveOne
    // the network and the server
    | Repeat(flight: nat, copy: nat)
    | LookForKey(flight: nat)
    | StoreBatch(flight: nat)
    | Refuse(flight: nat)
    | PurgeEvents(cutoff: int)
    | PurgeKeys(expired: set<Key>)

  function IdSet(s: seq<AgentEvent>): (r: set<EventId>)
    ensures forall e | e in s :: e.id in r
  {
    if s == [] then {} else IdSet(s[..|s| - 1]) + {s[|s| - 1].id}
  }

  lemma {:induction false} IdsWithin(s: seq<AgentEvent>, bound: set<EventId>)
    requires forall e | e in s :: e.id in bound
    ensures IdSet(s) <= bound
  {
    if s != [] {
      IdsWithin(s[..|s| - 1], bound);
    }
  }

  /** The ids at positions i to j - 1. */
  function Range(s: seq<AgentEvent>, i: nat, j: nat): set<EventId>
    requires j <= |s|
    decreases j
  {
    if i >= j then {} else Range(s, i, j - 1) + {s[j - 1].id}
  }

  /** INSERT OR IGNORE of each event in turn. */
  function InsertAll(table: seq<AgentEvent>, batch: seq<AgentEvent>): seq<AgentEvent>
    decreases |batch|
  {
    if batch == [] then table
    else InsertAll(if batch[0].id in IdSet(table) then table else table + [batch[0]], batch[1..])
  }

  /** The row for an event: a domain that is not empty is normalised again, and left out if that fails. */
  function AsStored(normalize: Normalizer, e: AgentEvent): AgentEvent {
    if e.domain.Some? && e.domain.value != "" then e.(domain := normalize(e.domain.value)) else e
  }

  function Rows(normalize: Normalizer, batch: seq<AgentEvent>): (rows: seq<AgentEvent>)
    ensures |rows| == |batch| && forall i | 0 <= i < |rows| :: rows[i] == AsStored(normalize, batch[i])
  {
    if batch == [] then [] else Rows(normalize, batch[..|batch| - 1]) + [AsStored(normalize, batch[|batch| - 1])]
  }

  function Recent(table: seq<AgentEvent>, cutoff: int): (r: seq<AgentEvent>)
    ensures forall e | e in r :: e in table
  {
    if table == [] then []
    else (if table[0].occurredAt < cutoff then [] else [table[0]]) + Recent(table[1..], cutoff)
  }

  predicate InStage(s: State, flight: nat, stage: Stage) {
    flight in s.flights && s.flights[flight].stage == stage
  }

  function ToStage(s: State, flight: nat, stage: Stage): State
    requires flight in s.flights
  {
    s.(flights := s.flights[flight := s.flights[flight].(stage := stage)])
  }

  predicate Answers(s: State, flight: nat) {
    flight in s.flights && s.uploader.Waiting? && s.flights[flight].key == s.uploader.key
    && (s.flights[flight].stage == Succeeded || s.flights[flight].stage == Failed)
  }

  /** How many events have left the queue. */
  function Departed(s: State): int {
    |s.past.added| - |s.queue|
  }

  function WithDropped(p: History, id: EventId): History {
    p.(dropped := p.dropped + {id}, drops := p.drops + 1)
  }

  function WithRemoved(p: History, id: EventId): History {
    p.(removed := p.removed + {id})
  }

  function EnqueueStep(s: State, pid: Pid, item: AgentEvent): State {
    if pid !in s.adders && item.id !in IdSet(s.past.added) then
      s.(queue := s.queue + [item], adders := s.adders[pid := Looking],
         past := s.past.(added := s.past.added + [item]))
    else s
  }

  function LookStep(s: State, pid: Pid): State {
    if pid in s.adders && s.adders[pid] == Looking then
      if |s.queue| > CAPACITY then s.(adders := s.adders[pid := Dropping]) else s.(adders := s.adders - {pid})
    else s
  }

  function DropStep(s: State, pid: Pid): State {
    if pid in s.adders && s.adders[pid] == Dropping then
      if s.queue == [] then s.(adders := s.adders[pid := Looking])
      else
        s.(queue := s.queue[1..], adders := s.adders[pid := Looking],
           past := WithDropped(s.past, s.queue[0].id))
    else s
  }

  function SendStep(s: State, flight: nat, key: Key): State {
    if s.uploader.Idle? && s.queue != [] && flight !in s.flights && key !in s.past.issued then
      var batch := FirstOf(s.queue, BATCH);
      s.(uploader := Waiting(key, batch), flights := s.flights[flight := Flight(key, batch, Received)],
         past := s.past.(issued := s.past.issued + {key}, peekedAt := |s.past.added| - |s.queue|))
    else s
  }

  function DeliverStep(s: State, flight: nat): State {
    if Answers(s, flight) then
      s.(uploader := if s.flights[flight].stage == Succeeded then Removing(s.uploader.batch, |s.uploader.batch|) else Idle)
    else s
  }

  function RemoveStep(s: State): State {
    if s.uploader.Removing? then
      if s.uploader.left == 0 then s.(uploader := Idle)
      else if s.queue == [] then s.(uploader := Removing(s.uploader.batch, s.uploader.left - 1))
      else
        s.(queue := s.queue[1..], uploader := Removing(s.uploader.batch, s.uploader.left - 1),
           past := WithRemoved(s.past, s.queue[0].id))
    else s
  }

  /** A key that has been used is answered as a duplicate. */
  function LookForKeyStep(s: State, flight: nat): State {
    if InStage(s, flight, Received) then
      ToStage(s, flight, if s.flights[flight].key in s.keys then Succeeded else Unseen)
    else s
  }

  /** The handler's batch: a key that has arrived meanwhile rolls everything back. */
  function StoreStep(s: State, flight: nat): State {
    if InStage(s, flight, Unseen) then
      var f := s.flights[flight];
      if f.key in s.keys then ToStage(s, flight, Failed)
      else
        ToStage(s, flight, Succeeded).(
          table := InsertAll(s.table, Rows(s.normalize, f.batch)), keys := s.keys + {f.key},
          past := s.past.(stored := s.past.stored + IdSet(f.batch)))
    else s
  }

  /** One step; a step that is not enabled changes nothing. */
  function Apply(s: State, step: Step): State {
    match step
    case Enqueue(pid, item) => EnqueueStep(s, pid, item)
    case LookAtCount(pid) => LookStep(s, pid)
    case DropOne(pid) => DropStep(s, pid)
    case Send(flight, key) => SendStep(s, flight, key)
    case Deliver(flight) => DeliverStep(s, flight)
    case GiveUp => if s.uploader.Waiting? then s.(uploader := Idle) else s
    case RemoveOne => RemoveStep(s)
    case Repeat(flight, copy) =>
      if flight in s.flights && copy !in s.flights then
        s.(flights := s.flights[copy := s.flights[flight].(stage := Received)])
      else s
    case LookForKey(flight) => LookForKeyStep(s, flight)
    case StoreBatch(flight) => StoreStep(s, flight)
    case Refuse(flight) =>
      if flight in s.flights && s.flights[flight].stage != Succeeded then ToStage(s, flight, Failed) else s
    case PurgeEvents(cutoff) => s.(table := Recent(s.table, cutoff))
    case PurgeKeys(expired) => s.(keys := s.keys - expired)
  }

  function Run(s: State, steps: seq<Step>): State
    decreases |steps|
  {
    if steps == [] then s else Run(Apply(s, steps[0]), steps[1..])
  }

  /** Nothing added yet. */
  ghost predicate Initial(s: State) {
    s == State([], map[], Idle, map[], [], {}, History([], {}, 0, {}, {}, {}, 0), s.normalize)
  }

  // ---- The invariant ---------------------------------------------------------

  predicate Distinct(s: seq<AgentEvent>) {
    forall i, j | 0 <= i < j < |s| :: s[i].id != s[j].id
  }

  /** What has left the queue was dropped or removed. */
  ghost predicate Accounted(p: History, departed: int) {
    && 0 <= departed <= |p.added|
    && p.dropped !! p.removed
    && p.dropped + p.removed == Range(p.added, 0, departed)
    && p.drops == |p.dropped|
  }

  /** The queue is the rest of what was added. */
  ghost predicate QueueInv(queue: seq<AgentEvent>, p: History) {
    && Distinct(p.added)
    && |queue| <= |p.added|
    && queue == p.added[|p.added| - |queue|..]
    && Accounted(p, |p.added| - |queue|)
  }

  /** The row of some event that was added. */
  predicate RowOfAdded(normalize: Normalizer, added: seq<AgentEvent>, row: AgentEvent) {
    exists e | e in added :: row == AsStored(normalize, e)
  }

  ghost predicate TableInv(s: State) {
    && Distinct(s.table)
    && IdSet(s.table) <= s.past.stored
    && (forall row | row in s.table :: RowOfAdded(s.normalize, s.past.added, row))
  }

  ghost predicate FlightInv(s: State, f: Flight) {
    && f.key in s.past.issued
    && (forall e | e in f.batch :: e in s.past.added)
    && (f.stage == Succeeded || f.key in s.keys ==> IdSet(f.batch) <= s.past.stored)
    && (s.uploader.Waiting? && s.uploader.key == f.key ==> f.batch == s.uploader.batch)
  }

  ghost predicate ServerInv(s: State) {
    && s.keys <= s.past.issued
    && (forall i | i in s.flights :: FlightInv(s, s.flights[i]))
    && (forall i, j | i in s.flights && j in s.flights && s.flights[i].key == s.flights[j].key ::
          s.flights[i].batch == s.flights[j].batch)
  }

  /** The batch in hand stands where it was peeked. */
  predicate PlaceInv(s: State) {
    var p := s.past;
    !s.uploader.Idle? ==>
      && 0 <= p.peekedAt && p.peekedAt + |s.uploader.batch| <= |p.added|
      && s.uploader.batch == p.added[p.peekedAt..p.peekedAt + |s.uploader.batch|]
  }

  predicate Positions(n: nat, p: History, departed: int) {
    0 <= p.peekedAt <= departed <= |p.added| && p.peekedAt + n <= |p.added|
  }

  /** The ids of the next n events from the peek on. */
  function Peeked(p: History, n: nat): set<EventId>
    requires 0 <= p.peekedAt && p.peekedAt + n <= |p.added|
  {
    Range(p.added, p.peekedAt, p.peekedAt + n)
  }

  /**
   * The account: an event that was removed without having been stored is paid for by
   * one that was dropped although it has been stored; `extra` more are paid in advance.
   */
  predicate Paid(removed: set<EventId>, dropped: set<EventId>, stored: set<EventId>, extra: nat) {
    |removed - stored| + extra <= |dropped * stored|
  }

  /** Removals still to come that will not find an event of the batch in the queue. */
  function Excess(size: nat, left: nat, sincePeek: int): nat {
    Max(0, left - Max(0, size - sincePeek))
  }

  ghost predicate Account(u: Uploader, p: History, departed: int) {
    match u
    case Idle => Paid(p.removed, p.dropped, p.stored, 0)
    case Waiting(key, batch) =>
      && Positions(|batch|, p, departed) && Peeked(p, departed - p.peekedAt) <= p.dropped
      && Paid(p.removed, p.dropped - Peeked(p, |batch|), p.stored, 0)
    case Removing(batch, left) =>
      && Positions(|batch|, p, departed) && Peeked(p, |batch|) <= p.stored
      && Paid(p.removed, p.dropped, p.stored, Excess(|batch|, left, departed - p.peekedAt))
  }

  ghost predicate AccountInv(s: State) {
    Account(s.uploader, s.past, Departed(s))
  }

  ghost predicate Inv(s: State) {
    QueueInv(s.queue, s.past) && TableInv(s) && ServerInv(s) && PlaceInv(s) && AccountInv(s)
  }

  // ---- The queue ---------------------------------------------------------------

  lemma {:induction false} IdSetOf(s: seq<AgentEvent>, e: AgentEvent)
    ensures IdSet(s + [e]) == IdSet(s) + {e.id}
  {
    assert (s + [e])[..|s|] == s;
  }

  lemma {:induction false} IdSetCons(e: AgentEvent, s: seq<AgentEvent>)
    ensures IdSet([e] + s) == {e.id} + IdSet(s)
  {
    forall x | x in [e] + s ensures x.id in {e.id} + IdSet(s) {
      assert x == e || x in s;
    }
    IdsWithin([e] + s, {e.id} + IdSet(s));
    forall x | x in s ensures x.id in IdSet([e] + s) {
      assert x in [e] + s;
    }
    IdsWithin(s, IdSet([e] + s));
    assert e in [e] + s;
  }

  lemma {:induction false} RangeAt(s: seq<AgentEvent>, i: nat, j: nat, k: nat)
    requires i <= k < j <= |s|
    ensures s[k].id in Range(s, i, j)
    decreases j
  {
    if k < j - 1 {
      RangeAt(s, i, j - 1, k);
    }
  }

  /** Distinct ids: what stands outside a range is not in it. */
  lemma {:induction false} RangeOutside(s: seq<AgentEvent>, i: nat, j: nat, k: nat)
    requires Distinct(s) && j <= |s| && k < |s| && (k < i || j <= k)
    ensures s[k].id !in Range(s, i, j)
    decreases j
  {
    if i < j {
      RangeOutside(s, i, j - 1, k);
    }
  }

  lemma {:induction false} RangeGrows(s: seq<AgentEvent>, i: nat, j: nat, k: nat)
    requires j <= k <= |s|
    ensures Range(s, i, j) <= Range(s, i, k)
    decreases k
  {
    if j < k {
      RangeGrows(s, i, j, k - 1);
    }
  }

  lemma {:induction false} RangeSize(s: seq<AgentEvent>, i: nat, j: nat)
    requires Distinct(s) && i <= j <= |s|
    ensures |Range(s, i, j)| == j - i
    decreases j
  {
    if i < j {
      RangeSize(s, i, j - 1);
      RangeOutside(s, i, j - 1, j - 1);
    }
  }

  lemma {:induction false} RangesDisjoint(s: seq<AgentEvent>, i: nat, j: nat)
    requires Distinct(s) && i <= j <= |s|
    ensures Range(s, 0, i) !! Range(s, i, j)
    decreases j
  {
    if i < j {
      RangesDisjoint(s, i, j - 1);
      RangeOutside(s, 0, i, j - 1);
    }
  }

  lemma {:induction false} RangeOfLonger(s: seq<AgentEvent>, item: AgentEvent, i: nat, j: nat)
    requires j <= |s|
    ensures Range(s + [item], i, j) == Range(s, i, j)
    decreases j
  {
    if i < j {
      RangeOfLonger(s, item, i, j - 1);
    }
  }

  lemma {:induction false} RangeIsIdSet(s: seq<AgentEvent>, i: nat, j: nat)
    requires i <= j <= |s|
    ensures IdSet(s[i..j]) == Range(s, i, j)
    decreases j
  {
    if i < j {
      RangeIsIdSet(s, i, j - 1);
      assert s[i..j] == s[i..j - 1] + [s[j - 1]];
      IdSetOf(s[i..j - 1], s[j - 1]);
    }
  }

  /** The head leaves, for one of the two causes. */
  lemma HeadDropped(queue: seq<AgentEvent>, p: History)
    requires QueueInv(queue, p) && queue != []
    ensures queue[0].id !in p.dropped + p.removed
    ensures QueueInv(queue[1..], WithDropped(p, queue[0].id))
  {
    var d := |p.added| - |queue|;
    RangeOutside(p.added, 0, d, d);
    var id := queue[0].id;
    assert p.dropped + {id} + p.removed == p.dropped + p.removed + {id};
  }

  lemma HeadRemoved(queue: seq<AgentEvent>, p: History)
    requires QueueInv(queue, p) && queue != []
    ensures queue[0].id !in p.dropped + p.removed
    ensures QueueInv(queue[1..], WithRemoved(p, queue[0].id))
  {
    var d := |p.added| - |queue|;
    RangeOutside(p.added, 0, d, d);
    var id := queue[0].id;
    assert p.dropped + (p.removed + {id}) == p.dropped + p.removed + {id};
  }

  lemma OneAdded(queue: seq<AgentEvent>, p: History, item: AgentEvent)
    requires QueueInv(queue, p) && item.id !in IdSet(p.added)
    ensures QueueInv(queue + [item], p.(added := p.added + [item]))
  {
    var d := |p.added| - |queue|;
    var added := p.added + [item];
    assert added[d..] == p.added[d..] + [item];
    RangeOfLonger(p.added, item, 0, d);
    forall i | 0 <= i < |p.added| ensures p.added[i].id != item.id {
      assert p.added[i] in p.added;
    }
  }

  /** Same queue, and nothing departs. */
  predicate SameDepartures(s: State, s': State) {
    s'.queue == s.queue && s'.past.added == s.past.added && s'.past.dropped == s.past.dropped
    && s'.past.removed == s.past.removed && s'.past.drops == s.past.drops
  }

  lemma OthersKeepQueue(s: State, step: Step)
    requires !step.Enqueue? && !step.DropOne? && !step.RemoveOne?
    ensures SameDepartures(s, Apply(s, step))
  {
  }

  lemma SameKeepsQueue(s: State, s': State)
    requires QueueInv(s.queue, s.past) && SameDepartures(s, s')
    ensures QueueInv(s'.queue, s'.past)
  {
  }

  lemma EnqueueQueue(s: State, pid: Pid, item: AgentEvent)
    requires QueueInv(s.queue, s.past)
    ensures QueueInv(EnqueueStep(s, pid, item).queue, EnqueueStep(s, pid, item).past)
  {
    if item.id !in IdSet(s.past.added) {
      OneAdded(s.queue, s.past, item);
    }
  }

  lemma DropQueue(s: State, pid: Pid)
    requires QueueInv(s.queue, s.past)
    ensures QueueInv(DropStep(s, pid).queue, DropStep(s, pid).past)
  {
    if s.queue != [] {
      HeadDropped(s.queue, s.past);
    }
  }

  lemma RemoveQueue(s: State)
    requires QueueInv(s.queue, s.past)
    ensures QueueInv(RemoveStep(s).queue, RemoveStep(s).past)
  {
    if s.queue != [] {
      HeadRemoved(s.queue, s.past);
    }
  }

  lemma StepKeepsQueue(s: State, step: Step)
    requires QueueInv(s.queue, s.past)
    ensures QueueInv(Apply(s, step).queue, Apply(s, step).past)
  {
    match step
    case Enqueue(pid, item) => EnqueueQueue(s, pid, item);
    case DropOne(pid) => DropQueue(s, pid);
    case RemoveOne => RemoveQueue(s);
    case _ =>
      OthersKeepQueue(s, step);
      SameKeepsQueue(s, Apply(s, step));
  }

  // ---- The table ---------------------------------------------------------------

  lemma {:induction false} AppendDistinct(table: seq<AgentEvent>, e: AgentEvent)
    requires Distinct(table) && e.id !in IdSet(table)
    ensures Distinct(table + [e])
  {
    forall i | 0 <= i < |table| ensures table[i].id != e.id {
      assert table[i] in table;
    }
  }

  /** Insertion keeps ids unique, whatever the batch repeats, and leaves every id of it in the table. */
  lemma {:induction false} InsertDistinct(table: seq<AgentEvent>, batch: seq<AgentEvent>)
    requires Distinct(table)
    ensures Distinct(InsertAll(table, batch))
    ensures IdSet(InsertAll(table, batch)) == IdSet(table) + IdSet(batch)
    ensures forall e | e in InsertAll(table, batch) :: e in table || e in batch
    decreases |batch|
  {
    if batch != [] {
      var e := batch[0];
      assert batch == [e] + batch[1..];
      IdSetCons(e, batch[1..]);
      if e.id in IdSet(table) {
        InsertDistinct(table, batch[1..]);
      } else {
        AppendDistinct(table, e);
        IdSetOf(table, e);
        InsertDistinct(table + [e], batch[1..]);
      }
    }
  }

  lemma {:induction false} RecentDistinct(table: seq<AgentEvent>, cutoff: int)
    requires Distinct(table)
    ensures Distinct(Recent(table, cutoff))
  {
    if table != [] {
      RecentDistinct(table[1..], cutoff);
      var rest := Recent(table[1..], cutoff);
      forall i | 0 <= i < |rest| ensures rest[i].id != table[0].id {
        assert rest[i] in table[1..];
        var j :| 0 <= j < |table[1..]| && table[1..][j] == rest[i];
        assert table[j + 1] == rest[i];
      }
    }
  }

  lemma {:induction false} RowIds(normalize: Normalizer, batch: seq<AgentEvent>)
    ensures IdSet(Rows(normalize, batch)) == IdSet(batch)
  {
    if batch != [] {
      var last := |batch| - 1;
      RowIds(normalize, batch[..last]);
      IdSetOf(Rows(normalize, batch[..last]), AsStored(normalize, batch[last]));
    }
  }

  lemma {:induction false} RowsOfAdded(normalize: Normalizer, batch: seq<AgentEvent>, added: seq<AgentEvent>)
    requires forall e | e in batch :: e in added
    ensures forall row | row in Rows(normalize, batch) :: RowOfAdded(normalize, added, row)
  {
    forall row | row in Rows(normalize, batch) ensures RowOfAdded(normalize, added, row) {
      var i :| 0 <= i < |batch| && Rows(normalize, batch)[i] == row;
      assert batch[i] in added;
    }
  }

  lemma {:induction false} InsertKeepsTable(s: State, batch: seq<AgentEvent>)
    requires TableInv(s) && forall e | e in batch :: e in s.past.added
    ensures TableInv(s.(table := InsertAll(s.table, Rows(s.normalize, batch)), past := s.past.(stored := s.past.stored + IdSet(batch))))
  {
    RowIds(s.normalize, batch);
    RowsOfAdded(s.normalize, batch, s.past.added);
    InsertDistinct(s.table, Rows(s.normalize, batch));
  }

  lemma StepKeepsTable(s: State, step: Step)
    requires TableInv(s) && ServerInv(s)
    ensures TableInv(Apply(s, step))
  {
    match step
    case StoreBatch(flight) =>
      if InStage(s, flight, Unseen) {
        assert FlightInv(s, s.flights[flight]);
        InsertKeepsTable(s, s.flights[flight].batch);
      }
    case PurgeEvents(cutoff) =>
      RecentDistinct(s.table, cutoff);
      IdsWithin(Recent(s.table, cutoff), IdSet(s.table));
    case _ => OthersKeepTable(s, step);
  }

  lemma OthersKeepTable(s: State, step: Step)
    requires TableInv(s) && !step.StoreBatch? && !step.PurgeEvents?
    ensures TableInv(Apply(s, step))
  {
    var s' := Apply(s, step);
    assert s'.table == s.table && s.past.stored == s'.past.stored && s.past.added <= s'.past.added;
    assert s'.normalize == s.normalize;
    forall row | row in s.table ensures RowOfAdded(s.normalize, s'.past.added, row) {
      var e :| e in s.past.added && row == AsStored(s.normalize, e);
      assert e in s'.past.added;
    }
  }

  // ---- The server --------------------------------------------------------------

  /** Facts about a request only get better while the uploader waits for the same one or for none. */
  lemma FlightGrows(s: State, s': State, f: Flight)
    requires FlightInv(s, f)
    requires s.past.issued <= s'.past.issued && s.past.added <= s'.past.added && s.past.stored <= s'.past.stored
    requires s'.keys <= s.keys && (s'.uploader == s.uploader || !s'.uploader.Waiting?)
    ensures FlightInv(s', f)
  {
    forall e | e in f.batch ensures e in s'.past.added {
      assert e in s.past.added;
    }
  }

  /** Steps that leave the requests alone. */
  predicate LeavesFlights(step: Step) {
    step.Enqueue? || step.LookAtCount? || step.DropOne? || step.Deliver? || step.GiveUp? || step.RemoveOne?
    || step.PurgeEvents? || step.PurgeKeys?
  }

  lemma QuietServer(s: State, step: Step)
    requires ServerInv(s) && LeavesFlights(step)
    ensures ServerInv(Apply(s, step))
  {
    var s' := Apply(s, step);
    QuietTouches(s, step);
    forall i | i in s'.flights ensures FlightInv(s', s'.flights[i]) {
      FlightGrows(s, s', s.flights[i]);
    }
  }

  lemma QuietTouches(s: State, step: Step)
    requires LeavesFlights(step)
    ensures var s' := Apply(s, step);
            s'.flights == s.flights && s'.keys <= s.keys && s'.past.issued == s.past.issued && s'.past.stored == s.past.stored
            && s.past.added <= s'.past.added && (s'.uploader == s.uploader || !s'.uploader.Waiting?)
  {
  }

  lemma SendServer(s: State, flight: nat, key: Key)
    requires ServerInv(s) && QueueInv(s.queue, s.past)
    ensures ServerInv(SendStep(s, flight, key))
  {
    var s' := SendStep(s, flight, key);
    if s' != s {
      forall i | i in s'.flights ensures FlightInv(s', s'.flights[i]) {
        if i != flight {
          assert FlightInv(s, s.flights[i]);
        } else {
          forall e | e in s'.flights[i].batch ensures e in s.past.added {
            assert e in s.queue;
          }
        }
      }
      forall i, j | i in s'.flights && j in s'.flights && s'.flights[i].key == s'.flights[j].key
        ensures s'.flights[i].batch == s'.flights[j].batch
      {
        if i != flight { assert FlightInv(s, s.flights[i]); }
        if j != flight { assert FlightInv(s, s.flights[j]); }
      }
    }
  }

  /** Moving one request to another stage, or copying it. */
  lemma StageServer(s: State, i: nat, j: nat, stage: Stage)
    requires ServerInv(s) && i in s.flights && (j == i || j !in s.flights)
    requires stage == Succeeded ==> s.flights[i].key in s.keys
    ensures ServerInv(s.(flights := s.flights[j := s.flights[i].(stage := stage)]))
  {
    var s' := s.(flights := s.flights[j := s.flights[i].(stage := stage)]);
    forall k | k in s'.flights ensures FlightInv(s', s'.flights[k]) {
      assert FlightInv(s, s.flights[if k == j then i else k]);
    }
  }

  lemma StoreServer(s: State, flight: nat)
    requires ServerInv(s) && InStage(s, flight, Unseen) && s.flights[flight].key !in s.keys
    ensures ServerInv(StoreStep(s, flight))
  {
    var s' := StoreStep(s, flight);
    var f := s.flights[flight];
    assert FlightInv(s, f);
    forall i | i in s'.flights ensures FlightInv(s', s'.flights[i]) {
      assert FlightInv(s, s.flights[i]);
    }
  }

  lemma StepKeepsServer(s: State, step: Step)
    requires ServerInv(s) && QueueInv(s.queue, s.past)
    ensures ServerInv(Apply(s, step))
  {
    match step
    case Send(flight, key) => SendServer(s, flight, key);
    case Repeat(flight, copy) =>
      if flight in s.flights && copy !in s.flights { StageServer(s, flight, copy, Received); }
    case LookForKey(flight) =>
      if InStage(s, flight, Received) {
        StageServer(s, flight, flight, if s.flights[flight].key in s.keys then Succeeded else Unseen);
      }
    case StoreBatch(flight) =>
      if InStage(s, flight, Unseen) {
        if s.flights[flight].key in s.keys {
          StageServer(s, flight, flight, Failed);
        } else {
          StoreServer(s, flight);
        }
      }
    case Refuse(flight) =>
      if flight in s.flights { StageServer(s, flight, flight, Failed); }
    case _ => QuietServer(s, step);
  }

  // ---- The account -------------------------------------------------------------

  lemma SubsetSize<T>(a: set<T>, b: set<T>)
    requires a <= b
    ensures |a| <= |b|
  {
    assert b == a + (b - a);
  }

  lemma PaidStored(r: set<EventId>, d: set<EventId>, s: set<EventId>, extra: nat, more: set<EventId>)
    requires Paid(r, d, s, extra)
    ensures Paid(r, d, s + more, extra)
  {
    SubsetSize(r - (s + more), r - s);
    SubsetSize(d * s, d * (s + more));
  }

  lemma PaidDropped(r: set<EventId>, d: set<EventId>, s: set<EventId>, extra: nat, d': set<EventId>, id: EventId)
    requires Paid(r, d, s, extra) && d <= d'
    ensures Paid(r, d', s, extra)
    ensures id in s && id !in d && id in d' ==> Paid(r, d', s, extra + 1)
  {
    SubsetSize(d * s, d' * s);
    if id in s && id !in d && id in d' {
      assert |d * s + {id}| == |d * s| + 1;
      SubsetSize(d * s + {id}, d' * s);
    }
  }

  lemma PaidRemoved(r: set<EventId>, d: set<EventId>, s: set<EventId>, extra: nat, id: EventId)
    requires Paid(r, d, s, extra)
    ensures id in s ==> Paid(r + {id}, d, s, extra)
    ensures extra > 0 ==> Paid(r + {id}, d, s, extra - 1)
  {
    if id in s {
      assert r + {id} - s == r - s;
    }
    SubsetSize(r + {id} - s, (r - s) + {id});
  }

  /** Drops that were not counted and turn out to be stored pay for as many removals. */
  lemma PaidCovers(r: set<EventId>, d: set<EventId>, s: set<EventId>, early: set<EventId>, d': set<EventId>)
    requires Paid(r, d, s, 0) && d <= d' && early <= d' && early !! d && early <= s
    ensures Paid(r, d', s, |early|)
  {
    assert |d * s + early| == |d * s| + |early|;
    SubsetSize(d * s + early, d' * s);
  }

  lemma AddAccount(u: Uploader, p: History, departed: nat, item: AgentEvent)
    requires Account(u, p, departed) && departed <= |p.added|
    ensures Account(u, p.(added := p.added + [item]), departed)
  {
    if !u.Idle? {
      RangeOfLonger(p.added, item, p.peekedAt, p.peekedAt + |u.batch|);
      RangeOfLonger(p.added, item, p.peekedAt, departed);
    }
  }

  lemma StoreAccount(u: Uploader, p: History, departed: nat, more: set<EventId>)
    requires Account(u, p, departed)
    ensures Account(u, p.(stored := p.stored + more), departed)
  {
    match u
    case Idle => PaidStored(p.removed, p.dropped, p.stored, 0, more);
    case Waiting(key, batch) => PaidStored(p.removed, p.dropped - Peeked(p, |batch|), p.stored, 0, more);
    case Removing(batch, left) =>
      PaidStored(p.removed, p.dropped, p.stored, Excess(|batch|, left, departed - p.peekedAt), more);
  }

  lemma DropWaiting(key: Key, batch: seq<AgentEvent>, p: History, departed: nat)
    requires departed < |p.added| && Account(Waiting(key, batch), p, departed)
    ensures Account(Waiting(key, batch), WithDropped(p, p.added[departed].id), departed + 1)
  {
    var id := p.added[departed].id;
    PaidDropped(p.removed, p.dropped - Peeked(p, |batch|), p.stored, 0, p.dropped + {id} - Peeked(p, |batch|), id);
  }

  /** A drop during the removals costs one of them its event, but then that event has been stored. */
  lemma DropRemoving(batch: seq<AgentEvent>, left: nat, p: History, departed: nat)
    requires departed < |p.added| && Account(Removing(batch, left), p, departed) && p.added[departed].id !in p.dropped
    ensures Account(Removing(batch, left), WithDropped(p, p.added[departed].id), departed + 1)
  {
    var id := p.added[departed].id;
    PaidDropped(p.removed, p.dropped, p.stored, Excess(|batch|, left, departed - p.peekedAt), p.dropped + {id}, id);
    if departed < p.peekedAt + |batch| {
      RangeAt(p.added, p.peekedAt, p.peekedAt + |batch|, departed);
    }
  }

  lemma DropAccount(u: Uploader, p: History, departed: nat)
    requires departed < |p.added| && Account(u, p, departed) && p.added[departed].id !in p.dropped
    ensures Account(u, WithDropped(p, p.added[departed].id), departed + 1)
  {
    match u
    case Idle => PaidDropped(p.removed, p.dropped, p.stored, 0, p.dropped + {p.added[departed].id}, 0);
    case Waiting(key, batch) => DropWaiting(key, batch, p, departed);
    case Removing(batch, left) => DropRemoving(batch, left, p, departed);
  }

  /** A removal takes an event of the batch, or one beyond it, which has been paid for. */
  lemma RemoveAccount(batch: seq<AgentEvent>, left: nat, p: History, departed: nat)
    requires departed < |p.added| && left > 0 && Account(Removing(batch, left), p, departed)
    ensures Account(Removing(batch, left - 1), WithRemoved(p, p.added[departed].id), departed + 1)
  {
    PaidRemoved(p.removed, p.dropped, p.stored, Excess(|batch|, left, departed - p.peekedAt), p.added[departed].id);
    if departed < p.peekedAt + |batch| {
      RangeAt(p.added, p.peekedAt, p.peekedAt + |batch|, departed);
    }
  }

  lemma EmptyRemoveAccount(batch: seq<AgentEvent>, left: nat, p: History, departed: nat)
    requires left > 0 && Account(Removing(batch, left), p, departed)
    ensures Account(Removing(batch, left - 1), p, departed)
  {
  }

  lemma PaidWithout(r: set<EventId>, d: set<EventId>, s: set<EventId>, x: set<EventId>)
    requires Paid(r, d, s, 0) && d !! x
    ensures Paid(r, d - x, s, 0)
  {
    assert d - x == d;
  }

  lemma NoneDropped(p: History, d: nat, n: nat)
    requires Distinct(p.added) && Accounted(p, d) && d + n <= |p.added|
    ensures p.dropped !! Range(p.added, d, d + n)
  {
    RangesDisjoint(p.added, d, d + n);
  }

  /** Nothing of the batch has been dropped when it is peeked. */
  lemma SendAccount(p: History, p': History, d: nat, key: Key, batch: seq<AgentEvent>)
    requires Distinct(p.added) && Accounted(p, d) && d + |batch| <= |p.added|
    requires Account(Idle, p, d)
    requires p' == p.(issued := p'.issued, peekedAt := d)
    ensures Account(Waiting(key, batch), p', d)
  {
    NoneDropped(p, d, |batch|);
    PaidWithout(p.removed, p.dropped, p.stored, Range(p.added, d, d + |batch|));
    assert Peeked(p', |batch|) == Range(p.added, d, d + |batch|);
    assert Peeked(p', 0) == {};
  }

  /** What has left of the batch while the uploader was waiting: so many events, dropped and stored. */
  lemma EarlyDrops(p: History, n: nat, departed: nat, k: nat)
    requires Distinct(p.added) && Positions(n, p, departed) && k <= n && k <= departed - p.peekedAt
    ensures Peeked(p, k) <= Peeked(p, n) && Peeked(p, k) <= Peeked(p, departed - p.peekedAt) && |Peeked(p, k)| == k
  {
    RangeSize(p.added, p.peekedAt, p.peekedAt + k);
    RangeGrows(p.added, p.peekedAt, p.peekedAt + k, p.peekedAt + n);
    RangeGrows(p.added, p.peekedAt, p.peekedAt + k, departed);
  }

  /** A success: the drops among the batch turn out to be of stored events. */
  lemma DeliverAccount(key: Key, batch: seq<AgentEvent>, p: History, departed: nat)
    requires Distinct(p.added) && Account(Waiting(key, batch), p, departed) && Peeked(p, |batch|) <= p.stored
    ensures Account(Removing(batch, |batch|), p, departed)
  {
    var k := Min(|batch|, departed - p.peekedAt);
    EarlyDrops(p, |batch|, departed, k);
    PaidCovers(p.removed, p.dropped - Peeked(p, |batch|), p.stored, Peeked(p, k), p.dropped);
  }

  lemma IdleAccount(u: Uploader, p: History, departed: nat)
    requires Account(u, p, departed)
    ensures Account(Idle, p, departed)
  {
    if u.Waiting? {
      PaidDropped(p.removed, p.dropped - Peeked(p, |u.batch|), p.stored, 0, p.dropped, 0);
    }
  }

  /** Steps that change neither the uploader nor what the account counts. */
  predicate OutsideAccount(step: Step) {
    step.LookAtCount? || step.Repeat? || step.LookForKey? || step.Refuse? || step.PurgeEvents? || step.PurgeKeys?
  }

  lemma OutsideKeepsAccount(s: State, step: Step)
    requires OutsideAccount(step)
    ensures var s' := Apply(s, step); s'.uploader == s.uploader && s'.past == s.past && s'.queue == s.queue
  {
  }

  /** Only the uploader, the history and the number of departures matter. */
  lemma SameAccount(u: Uploader, p: History, d: int, s': State)
    requires Account(u, p, d) && s'.uploader == u && s'.past == p && Departed(s') == d
    ensures AccountInv(s')
  {
  }

  lemma EnqueueStepAccount(s: State, pid: Pid, item: AgentEvent)
    requires QueueInv(s.queue, s.past) && AccountInv(s)
    ensures AccountInv(EnqueueStep(s, pid, item))
  {
    var d := Departed(s);
    if pid !in s.adders && item.id !in IdSet(s.past.added) {
      AddAccount(s.uploader, s.past, d, item);
      SameAccount(s.uploader, s.past.(added := s.past.added + [item]), d, EnqueueStep(s, pid, item));
    } else {
      SameAccount(s.uploader, s.past, d, EnqueueStep(s, pid, item));
    }
  }

  lemma DropStepAccount(s: State, pid: Pid)
    requires QueueInv(s.queue, s.past) && AccountInv(s)
    ensures AccountInv(DropStep(s, pid))
  {
    var d := Departed(s);
    if pid in s.adders && s.adders[pid] == Dropping && s.queue != [] {
      HeadDropped(s.queue, s.past);
      DropAccount(s.uploader, s.past, d);
      DropDeparts(s, pid);
      SameAccount(s.uploader, WithDropped(s.past, s.past.added[d].id), d + 1, DropStep(s, pid));
    } else {
      SameAccount(s.uploader, s.past, d, DropStep(s, pid));
    }
  }

  lemma DropDeparts(s: State, pid: Pid)
    requires pid in s.adders && s.adders[pid] == Dropping && s.queue != []
    ensures var s' := DropStep(s, pid);
            s'.uploader == s.uploader && s'.past == WithDropped(s.past, s.queue[0].id) && Departed(s') == Departed(s) + 1
  {
  }

  lemma RemoveStepAccount(s: State)
    requires QueueInv(s.queue, s.past) && AccountInv(s)
    ensures AccountInv(RemoveStep(s))
  {
    var d := Departed(s);
    if !s.uploader.Removing? {
      SameAccount(s.uploader, s.past, d, RemoveStep(s));
    } else if s.uploader.left == 0 {
      IdleAccount(s.uploader, s.past, d);
      SameAccount(Idle, s.past, d, RemoveStep(s));
    } else {
      RemoveOneAccount(s, s.uploader.batch, s.uploader.left);
    }
  }

  lemma RemoveOneAccount(s: State, batch: seq<AgentEvent>, left: nat)
    requires QueueInv(s.queue, s.past) && s.uploader == Removing(batch, left) && left > 0 && AccountInv(s)
    ensures AccountInv(RemoveStep(s))
  {
    var d := Departed(s);
    if s.queue == [] {
      EmptyRemoveAccount(batch, left, s.past, d);
      SameAccount(Removing(batch, left - 1), s.past, d, RemoveStep(s));
    } else {
      RemoveAccount(batch, left, s.past, d);
      SameAccount(Removing(batch, left - 1), WithRemoved(s.past, s.past.added[d].id), d + 1, RemoveStep(s));
    }
  }

  lemma SendStepAccount(s: State, flight: nat, key: Key)
    requires QueueInv(s.queue, s.past) && AccountInv(s)
    ensures AccountInv(SendStep(s, flight, key))
  {
    var s' := SendStep(s, flight, key);
    if s' == s {
    } else {
      SendAccount(s.past, s'.past, Departed(s), key, s'.uploader.batch);
      SameAccount(s'.uploader, s'.past, Departed(s), s');
    }
  }

  lemma DeliverStepAccount(s: State, flight: nat)
    requires QueueInv(s.queue, s.past) && ServerInv(s) && PlaceInv(s) && AccountInv(s)
    ensures AccountInv(DeliverStep(s, flight))
  {
    var d := Departed(s);
    if Answers(s, flight) && s.flights[flight].stage == Succeeded {
      BatchStored(s, flight);
      DeliverAccount(s.uploader.key, s.uploader.batch, s.past, d);
      SameAccount(Removing(s.uploader.batch, |s.uploader.batch|), s.past, d, DeliverStep(s, flight));
    } else if Answers(s, flight) {
      IdleAccount(s.uploader, s.past, d);
      SameAccount(Idle, s.past, d, DeliverStep(s, flight));
    } else {
      SameAccount(s.uploader, s.past, d, DeliverStep(s, flight));
    }
  }

  /** The answer is about the batch in hand. */
  lemma BatchStored(s: State, flight: nat)
    requires ServerInv(s) && PlaceInv(s) && Answers(s, flight) && s.flights[flight].stage == Succeeded
    ensures Peeked(s.past, |s.uploader.batch|) <= s.past.stored
  {
    assert FlightInv(s, s.flights[flight]);
    RangeIsIdSet(s.past.added, s.past.peekedAt, s.past.peekedAt + |s.uploader.batch|);
  }

  lemma StoreStepAccount(s: State, flight: nat)
    requires QueueInv(s.queue, s.past) && AccountInv(s)
    ensures AccountInv(StoreStep(s, flight))
  {
    var d := Departed(s);
    if InStage(s, flight, Unseen) && s.flights[flight].key !in s.keys {
      var more := IdSet(s.flights[flight].batch);
      StoreAccount(s.uploader, s.past, d, more);
      SameAccount(s.uploader, s.past.(stored := s.past.stored + more), d, StoreStep(s, flight));
    } else {
      SameAccount(s.uploader, s.past, d, StoreStep(s, flight));
    }
  }

  lemma GiveUpAccount(s: State)
    requires QueueInv(s.queue, s.past) && AccountInv(s)
    ensures AccountInv(Apply(s, GiveUp))
  {
    IdleAccount(s.uploader, s.past, Departed(s));
    SameAccount(if s.uploader.Waiting? then Idle else s.uploader, s.past, Departed(s), Apply(s, GiveUp));
  }

  lemma QueueStepKeepsAccount(s: State, step: Step)
    requires QueueInv(s.queue, s.past) && AccountInv(s)
    requires step.Enqueue? || step.DropOne? || step.RemoveOne?
    ensures AccountInv(Apply(s, step))
  {
    match step
    case Enqueue(pid, item) => EnqueueStepAccount(s, pid, item);
    case DropOne(pid) => DropStepAccount(s, pid);
    case RemoveOne => RemoveStepAccount(s);
  }

  lemma StepKeepsAccount(s: State, step: Step)
    requires QueueInv(s.queue, s.past) && ServerInv(s) && PlaceInv(s) && AccountInv(s)
    ensures AccountInv(Apply(s, step))
  {
    if step.Enqueue? || step.DropOne? || step.RemoveOne? {
      QueueStepKeepsAccount(s, step);
    } else if OutsideAccount(step) {
      OutsideKeepsAccount(s, step);
      SameAccount(s.uploader, s.past, Departed(s), Apply(s, step));
    } else {
      match step
      case Send(flight, key) => SendStepAccount(s, flight, key);
      case Deliver(flight) => DeliverStepAccount(s, flight);
      case GiveUp => GiveUpAccount(s);
      case StoreBatch(flight) => StoreStepAccount(s, flight);
    }
  }

  lemma StepKeepsPlace(s: State, step: Step)
    requires QueueInv(s.queue, s.past) && PlaceInv(s)
    ensures PlaceInv(Apply(s, step))
  {
    if step.Send? {
      var d := Departed(s);
      var batch := FirstOf(s.queue, BATCH);
      assert batch == s.past.added[d..d + |batch|];
    } else {
      OthersKeepPlace(s, step);
    }
  }

  lemma OthersKeepPlace(s: State, step: Step)
    requires PlaceInv(s) && !step.Send?
    ensures PlaceInv(Apply(s, step))
  {
    OthersLeavePlace(s, step);
  }

  lemma OthersLeavePlace(s: State, step: Step)
    requires !step.Send?
    ensures var s' := Apply(s, step);
            && s.past.added <= s'.past.added && s'.past.peekedAt == s.past.peekedAt
            && (s'.uploader.Idle? || (!s.uploader.Idle? && s'.uploader.batch == s.uploader.batch))
  {
  }

  lemma StepKeepsInv(s: State, step: Step)
    requires Inv(s)
    ensures Inv(Apply(s, step))
  {
    StepKeepsQueue(s, step);
    StepKeepsTable(s, step);
    StepKeepsServer(s, step);
    StepKeepsPlace(s, step);
    StepKeepsAccount(s, step);
  }

  lemma {:induction false} RunKeepsInv(s: State, steps: seq<Step>)
    requires Inv(s)
    ensures Inv(Run(s, steps))
    decreases |steps|
  {
    if steps != [] {
      StepKeepsInv(s, steps[0]);
      RunKeepsInv(Apply(s, steps[0]), steps[1..]);
    }
  }

  lemma InitialInv(s: State)
    requires Initial(s)
    ensures Inv(s)
  {
  }

  // ---- What every run keeps ----------------------------------------------------

  /** Added, and now neither queued nor ever stored. */
  function Lost(s: State): set<EventId> {
    IdSet(s.past.added) - IdSet(s.queue) - s.past.stored
  }

  lemma {:induction false} IdSetConcat(a: seq<AgentEvent>, b: seq<AgentEvent>)
    ensures IdSet(a + b) == IdSet(a) + IdSet(b)
  {
    if b == [] {
      assert a + b == a;
    } else {
      var last := |b| - 1;
      IdSetConcat(a, b[..last]);
      assert (a + b)[..|a + b| - 1] == a + b[..last];
    }
  }

  lemma StepKeepsNormalizer(s: State, step: Step)
    ensures Apply(s, step).normalize == s.normalize
  {
  }

  lemma {:induction false} RunKeepsNormalizer(s: State, steps: seq<Step>)
    ensures Run(s, steps).normalize == s.normalize
    decreases |steps|
  {
    if steps != [] {
      StepKeepsNormalizer(s, steps[0]);
      RunKeepsNormalizer(Apply(s, steps[0]), steps[1..]);
    }
  }

  /** At any moment each event is stored at most once, as it was added but for its domain, which is normalised again or left out. */
  lemma {:induction false} StoredOnce(init: State, steps: seq<Step>)
    requires Initial(init)
    ensures var s := Run(init, steps);
            Distinct(s.table) && forall row | row in s.table :: RowOfAdded(init.normalize, s.past.added, row)
  {
    InitialInv(init);
    RunKeepsInv(init, steps);
    RunKeepsNormalizer(init, steps);
  }

  /** INSERT OR IGNORE only appends. */
  lemma {:induction false} InsertAppends(table: seq<AgentEvent>, batch: seq<AgentEvent>)
    ensures table <= InsertAll(table, batch)
    decreases |batch|
  {
    if batch != [] {
      InsertAppends(if batch[0].id in IdSet(table) then table else table + [batch[0]], batch[1..]);
    }
  }

  lemma {:induction false} RecentKeeps(table: seq<AgentEvent>, cutoff: int, row: AgentEvent)
    requires row in table && row.occurredAt >= cutoff
    ensures row in Recent(table, cutoff)
  {
    if row != table[0] {
      assert row in table[1..];
      RecentKeeps(table[1..], cutoff, row);
    }
  }

  lemma StepKeepsRow(s: State, step: Step, row: AgentEvent)
    requires row in s.table && (step.PurgeEvents? ==> row.occurredAt >= step.cutoff)
    ensures row in Apply(s, step).table
  {
    match step
    case StoreBatch(flight) =>
      if InStage(s, flight, Unseen) {
        InsertAppends(s.table, Rows(s.normalize, s.flights[flight].batch));
      }
    case PurgeEvents(cutoff) => RecentKeeps(s.table, cutoff, row);
    case _ =>
  }

  /**
   * A stored row stays, unchanged, until retention reaches it. Ids in the table are
   * distinct, so until then its id is not stored again.
   */
  lemma {:induction false} RowStays(s: State, steps: seq<Step>, row: AgentEvent)
    requires row in s.table
    requires forall step | step in steps && step.PurgeEvents? :: row.occurredAt >= step.cutoff
    ensures row in Run(s, steps).table
    decreases |steps|
  {
    if steps != [] {
      assert steps[0] in steps;
      StepKeepsRow(s, steps[0], row);
      RowStays(Apply(s, steps[0]), steps[1..], row);
    }
  }

  /** A row that has the id of an earlier row is that row, unless retention has deleted the earlier one. */
  lemma {:induction false} StoredOnceUntilPurge(init: State, before: seq<Step>, after: seq<Step>, row: AgentEvent, later: AgentEvent)
    requires Initial(init) && row in Run(init, before).table && later in Run(Run(init, before), after).table
    requires forall step | step in after && step.PurgeEvents? :: row.occurredAt >= step.cutoff
    ensures later.id == row.id ==> later == row
  {
    var s := Run(init, before);
    RowStays(s, after, row);
    InitialInv(init);
    RunKeepsInv(init, before);
    RunKeepsInv(s, after);
    DistinctRows(Run(s, after).table, row, later);
  }

  lemma DistinctRows(table: seq<AgentEvent>, a: AgentEvent, b: AgentEvent)
    requires Distinct(table) && a in table && b in table
    ensures a.id == b.id ==> a == b
  {
  }

  function ServerNormalizer(host: ContractDomains.HostParser): Normalizer {
    (domain: string) => ContractDomains.NormalizeDomain(domain, host)
  }

  /** An event about a domain that the agent's normaliser leaves alone, and the worker's host parser keeps. */
  predicate Plain(e: AgentEvent, host: ContractDomains.HostParser) {
    e.domain.None? || e.domain.value == ""
    || (DomainNames.Canonical(e.domain.value) && host(e.domain.value) == Some(e.domain.value))
  }

  lemma PlainIsStored(e: AgentEvent, host: ContractDomains.HostParser)
    requires Plain(e, host)
    ensures AsStored(ServerNormalizer(host), e) == e
  {
    if e.domain.Some? && e.domain.value != "" {
      ContractDomains.NormalizersAgree(e.domain.value, host);
    }
  }

  /** Events about canonical domains are stored exactly as they were added. */
  lemma {:induction false} PlainEventsUnchanged(init: State, steps: seq<Step>, host: ContractDomains.HostParser)
    requires Initial(init) && init.normalize == ServerNormalizer(host)
    requires forall e | e in Run(init, steps).past.added :: Plain(e, host)
    ensures forall row | row in Run(init, steps).table :: row in Run(init, steps).past.added
  {
    StoredOnce(init, steps);
    var s := Run(init, steps);
    forall row | row in s.table ensures row in s.past.added {
      assert RowOfAdded(init.normalize, s.past.added, row);
      var e :| e in s.past.added && row == AsStored(init.normalize, e);
      PlainIsStored(e, host);
    }
  }

  lemma LostBound(p: History, lost: set<EventId>)
    requires lost <= p.dropped + p.removed - p.stored
    requires Paid(p.removed, p.dropped, p.stored, 0)
    ensures |lost| <= |p.dropped|
  {
    SubsetSize(lost, (p.dropped - p.stored) + (p.removed - p.stored));
    assert p.dropped == (p.dropped - p.stored) + (p.dropped * p.stored);
  }

  /** What is lost has left the queue. */
  lemma {:induction false} LostLeft(queue: seq<AgentEvent>, p: History)
    requires QueueInv(queue, p)
    ensures IdSet(p.added) - IdSet(queue) - p.stored <= p.dropped + p.removed - p.stored
  {
    var d := |p.added| - |queue|;
    assert p.added == p.added[0..d] + queue;
    IdSetConcat(p.added[0..d], queue);
    RangeIsIdSet(p.added, 0, d);
  }

  /** Conservation: however adds, uploads, retries and removals interleave, events are lost only one for a drop. */
  lemma {:induction false} Conservation(init: State, steps: seq<Step>)
    requires Initial(init)
    ensures var s := Run(init, steps); |Lost(s)| <= s.past.drops
  {
    InitialInv(init);
    RunKeepsInv(init, steps);
    var s := Run(init, steps);
    LostLeft(s.queue, s.past);
    IdleAccount(s.uploader, s.past, Departed(s));
    LostBound(s.past, Lost(s));
  }

  /** Drops need more events than fit, and trimming keeps up with the adders. */
  predicate Trimmed(s: State) {
    && |s.queue| <= CAPACITY + |s.adders|
    && |s.queue| <= |s.past.added|
    && (|s.past.added| <= CAPACITY ==> s.past.drops == 0 && forall pid | pid in s.adders :: s.adders[pid] == Looking)
  }

  lemma EnqueueTrimmed(s: State, pid: Pid, item: AgentEvent)
    requires Trimmed(s)
    ensures Trimmed(EnqueueStep(s, pid, item))
  {
  }

  lemma LookTrimmed(s: State, pid: Pid)
    requires Trimmed(s)
    ensures Trimmed(LookStep(s, pid))
  {
  }

  lemma DropTrimmed(s: State, pid: Pid)
    requires Trimmed(s)
    ensures Trimmed(DropStep(s, pid))
  {
  }

  lemma RemoveTrimmed(s: State)
    requires Trimmed(s)
    ensures Trimmed(RemoveStep(s))
  {
  }

  lemma OthersTrimmed(s: State, step: Step)
    requires Trimmed(s) && !step.Enqueue? && !step.LookAtCount? && !step.DropOne? && !step.RemoveOne?
    ensures Trimmed(Apply(s, step))
  {
    OthersKeepQueue(s, step);
    assert Apply(s, step).adders == s.adders;
  }

  lemma StepKeepsTrimmed(s: State, step: Step)
    requires Trimmed(s)
    ensures Trimmed(Apply(s, step))
  {
    match step
    case Enqueue(pid, item) => EnqueueTrimmed(s, pid, item);
    case LookAtCount(pid) => LookTrimmed(s, pid);
    case DropOne(pid) => DropTrimmed(s, pid);
    case RemoveOne => RemoveTrimmed(s);
    case _ => OthersTrimmed(s, step);
  }

  lemma {:induction false} RunKeepsTrimmed(s: State, steps: seq<Step>)
    requires Trimmed(s)
    ensures Trimmed(Run(s, steps))
    decreases |steps|
  {
    if steps != [] {
      StepKeepsTrimmed(s, steps[0]);
      RunKeepsTrimmed(Apply(s, steps[0]), steps[1..]);
    }
  }

  /** The queue exceeds its capacity only by adders that have not finished. */
  lemma {:induction false} QueueBounded(init: State, steps: seq<Step>)
    requires Initial(init)
    ensures var s := Run(init, steps); |s.queue| <= CAPACITY + |s.adders|
  {
    RunKeepsTrimmed(init, steps);
  }

  /** Until more events were added than fit, every event is queued or stored, whatever the network does. */
  lemma {:induction false} NothingLostBelowCapacity(init: State, steps: seq<Step>)
    requires Initial(init)
    ensures var s := Run(init, steps);
            |s.past.added| <= CAPACITY ==> Lost(s) == {}
  {
    Conservation(init, steps);
    RunKeepsTrimmed(init, steps);
  }

  // ---- Retries -------------------------------------------------------------------

  /** A request that has been stored, sent once more: it is answered as done, and stores nothing more. */
  lemma RepeatIsDuplicate(s: State, flight: nat, copy: nat)
    requires InStage(s, flight, Unseen) && s.flights[flight].key !in s.keys && copy !in s.flights
    ensures var stored := StoreStep(s, flight);
            var again := LookForKeyStep(Apply(stored, Repeat(flight, copy)), copy);
            && stored.flights[flight].stage == Succeeded && s.flights[flight].key in stored.keys
            && InStage(again, copy, Succeeded) && again.table == stored.table && StoreStep(again, copy) == again
  {
    var stored := StoreStep(s, flight);
    var sent := Apply(stored, Repeat(flight, copy));
    assert InStage(sent, copy, Received);
  }

  /** Once its key has been purged a late repeat is inserted again, and adds no row for an event that is still there. */
  lemma {:induction false} LateRepeatAddsNothing(s: State, expired: set<Key>, flight: nat)
    requires InStage(s, flight, Unseen) && s.flights[flight].key in expired && IdSet(s.flights[flight].batch) <= IdSet(s.table)
    ensures var s' := StoreStep(Apply(s, PurgeKeys(expired)), flight); InStage(s', flight, Succeeded) && s'.table == s.table
  {
    RowIds(s.normalize, s.flights[flight].batch);
    InsertKnown(s.table, Rows(s.normalize, s.flights[flight].batch));
  }

  lemma {:induction false} InsertKnown(table: seq<AgentEvent>, batch: seq<AgentEvent>)
    requires IdSet(batch) <= IdSet(table)
    ensures InsertAll(table, batch) == table
    decreases |batch|
  {
    if batch != [] {
      assert batch == [batch[0]] + batch[1..];
      IdSetCons(batch[0], batch[1..]);
      InsertKnown(table, batch[1..]);
    }
  }

  /** Two copies that both missed the key: the second batch is rolled back as a whole. */
  lemma RaceIsRolledBack(s: State, flight: nat)
    requires InStage(s, flight, Unseen) && s.flights[flight].key in s.keys
    ensures var s' := StoreStep(s, flight); InStage(s', flight, Failed) && s'.table == s.table && s'.keys == s.keys
  {
  }

  /** A refusal ends the upload and leaves the batch in the queue. */
  lemma RefusedUploadKeeps(s: State, flight: nat)
    requires flight in s.flights && s.flights[flight].stage != Succeeded && s.uploader.Waiting? && s.uploader.key == s.flights[flight].key
    ensures var s' := DeliverStep(Apply(s, Refuse(flight)), flight); s'.uploader.Idle? && s'.queue == s.queue && s'.table == s.table
  {
    var refused := Apply(s, Refuse(flight));
    assert refused.flights[flight].stage == Failed && refused.uploader == s.uploader;
  }

  // ---- Undisturbed operations ---------------------------------------------------

  lemma {:induction false} RunCons(s: State, step: Step, rest: seq<Step>)
    ensures Run(s, [step] + rest) == Run(Apply(s, step), rest)
  {
    assert ([step] + rest)[1..] == rest;
  }

  lemma {:induction false} RunOne(s: State, step: Step)
    ensures Run(s, [step]) == Apply(s, step)
  {
    assert [step][1..] == [];
  }

  lemma {:induction false} RunFour(s: State, a: Step, b: Step, c: Step, d: Step, rest: seq<Step>)
    ensures Run(s, [a] + ([b] + ([c] + ([d] + rest)))) == Run(Apply(Apply(Apply(Apply(s, a), b), c), d), rest)
  {
    RunCons(s, a, [b] + ([c] + ([d] + rest)));
    RunCons(Apply(s, a), b, [c] + ([d] + rest));
    RunCons(Apply(Apply(s, a), b), c, [d] + rest);
    RunCons(Apply(Apply(Apply(s, a), b), c), d, rest);
  }

  lemma AddThenTrim(s: State, pid: Pid, item: AgentEvent)
    requires |s.queue| <= CAPACITY && pid !in s.adders && item.id !in IdSet(s.past.added)
    ensures var s' := LookStep(DropStep(LookStep(EnqueueStep(s, pid, item), pid), pid), pid);
            s'.queue == Newest(s.queue + [item]) && s'.adders == s.adders
  {
    var s1 := EnqueueStep(s, pid, item);
    assert s1.adders - {pid} == s.adders;
    if |s1.queue| > CAPACITY {
      assert DropStep(LookStep(s1, pid), pid).queue == s1.queue[1..];
    } else {
      assert LookStep(s1, pid).adders == s.adders;
    }
  }

  /** The machine's adder alone is the queue's Add. */
  lemma {:induction false} AddAlone(s: State, pid: Pid, item: AgentEvent)
    requires |s.queue| <= CAPACITY && pid !in s.adders && item.id !in IdSet(s.past.added)
    ensures var s' := Run(s, [Enqueue(pid, item)] + ([LookAtCount(pid)] + ([DropOne(pid)] + ([LookAtCount(pid)] + []))));
            s'.queue == Newest(s.queue + [item]) && s'.adders == s.adders
  {
    RunFour(s, Enqueue(pid, item), LookAtCount(pid), DropOne(pid), LookAtCount(pid), []);
    AddThenTrim(s, pid, item);
  }

  function Removals(n: nat): seq<Step> {
    if n == 0 then [] else [RemoveOne] + Removals(n - 1)
  }

  lemma {:induction false} RemovalsRun(s: State, left: nat)
    requires s.uploader.Removing? && s.uploader.left == left
    ensures var s' := Run(s, Removals(left + 1));
            s'.uploader.Idle? && s'.queue == AfterFirst(s.queue, left) && s'.table == s.table
            && s'.past == s.past.(removed := s'.past.removed)
    decreases left
  {
    RunCons(s, RemoveOne, Removals(left));
    if left > 0 {
      RemovalsRun(Apply(s, RemoveOne), left - 1);
    }
  }

  function QuietUpload(flight: nat, key: Key, size: nat): seq<Step> {
    [Send(flight, key)] + ([LookForKey(flight)] + ([StoreBatch(flight)] + ([Deliver(flight)] + Removals(size + 1))))
  }

  /** Progress: an undisturbed upload takes the first hundred events from the queue, and they are all in the table. */
  lemma {:induction false} QuietUploadStores(s: State, flight: nat, key: Key)
    requires Inv(s) && s.uploader.Idle? && s.queue != [] && flight !in s.flights && key !in s.past.issued
    ensures var batch := FirstOf(s.queue, BATCH);
            var s' := Run(s, QuietUpload(flight, key, |batch|));
            s'.uploader.Idle? && s'.queue == AfterFirst(s.queue, BATCH)
            && IdSet(batch) <= IdSet(s'.table) && s'.past.drops == s.past.drops
  {
    var size := |FirstOf(s.queue, BATCH)|;
    UnusedKey(s, key);
    RunExchange(s, flight, key, size);
    QuietExchange(s, flight, key);
    RemovalsRun(AfterExchange(s, flight, key), size);
  }

  lemma UnusedKey(s: State, key: Key)
    requires Inv(s) && key !in s.past.issued
    ensures key !in s.keys && Distinct(s.table)
  {
  }

  lemma {:induction false} RunExchange(s: State, flight: nat, key: Key, size: nat)
    ensures Run(s, QuietUpload(flight, key, size)) == Run(AfterExchange(s, flight, key), Removals(size + 1))
  {
    RunFour(s, Send(flight, key), LookForKey(flight), StoreBatch(flight), Deliver(flight), Removals(size + 1));
    ApplyFour(s, flight, key);
  }

  lemma ApplyFour(s: State, flight: nat, key: Key)
    ensures Apply(Apply(Apply(Apply(s, Send(flight, key)), LookForKey(flight)), StoreBatch(flight)), Deliver(flight))
         == AfterExchange(s, flight, key)
  {
  }

  lemma SendAndLook(s: State, flight: nat, key: Key)
    requires s.uploader.Idle? && s.queue != [] && flight !in s.flights && key !in s.past.issued && key !in s.keys
    ensures var batch := FirstOf(s.queue, BATCH);
            var s2 := LookForKeyStep(SendStep(s, flight, key), flight);
            s2 == s.(uploader := Waiting(key, batch), flights := s.flights[flight := Flight(key, batch, Unseen)], past := s2.past)
            && s2.past.drops == s.past.drops
  {
    var s1 := SendStep(s, flight, key);
    assert InStage(s1, flight, Received);
    assert s1.flights[flight := Flight(key, FirstOf(s.queue, BATCH), Unseen)] == s.flights[flight := Flight(key, FirstOf(s.queue, BATCH), Unseen)];
  }

  lemma StoreAlone(s: State, flight: nat)
    requires InStage(s, flight, Unseen) && s.flights[flight].key !in s.keys
    ensures var f, s' := s.flights[flight], StoreStep(s, flight);
            s'.uploader == s.uploader && s'.queue == s.queue && s'.table == InsertAll(s.table, Rows(s.normalize, f.batch))
            && s'.past.drops == s.past.drops && s'.flights == s.flights[flight := f.(stage := Succeeded)]
  {
  }

  lemma DeliverAlone(s: State, flight: nat)
    requires InStage(s, flight, Succeeded) && s.uploader.Waiting? && s.uploader.key == s.flights[flight].key
    ensures DeliverStep(s, flight) == s.(uploader := Removing(s.uploader.batch, |s.uploader.batch|))
  {
  }

  lemma {:induction false} StoreAndDeliver(s: State, flight: nat, key: Key, batch: seq<AgentEvent>)
    requires s.uploader == Waiting(key, batch) && key !in s.keys
    requires flight in s.flights && s.flights[flight] == Flight(key, batch, Unseen)
    ensures var s4 := DeliverStep(StoreStep(s, flight), flight);
            s4.uploader == Removing(batch, |batch|) && s4.queue == s.queue
            && s4.table == InsertAll(s.table, Rows(s.normalize, batch)) && s4.past.drops == s.past.drops
  {
    StoreAlone(s, flight);
    DeliverAlone(StoreStep(s, flight), flight);
  }

  lemma QuietExchange(s: State, flight: nat, key: Key)
    requires Distinct(s.table) && s.uploader.Idle? && s.queue != [] && flight !in s.flights && key !in s.past.issued && key !in s.keys
    ensures var batch := FirstOf(s.queue, BATCH);
            var s4 := AfterExchange(s, flight, key);
            s4.uploader == Removing(batch, |batch|) && s4.queue == s.queue
            && IdSet(batch) <= IdSet(s4.table) && s4.past.drops == s.past.drops
  {
    var batch := FirstOf(s.queue, BATCH);
    SendAndLook(s, flight, key);
    StoreAndDeliver(LookForKeyStep(SendStep(s, flight, key), flight), flight, key, batch);
    RowIds(s.normalize, batch);
    InsertDistinct(s.table, Rows(s.normalize, batch));
  }

  function AfterExchange(s: State, flight: nat, key: Key): State {
    DeliverStep(StoreStep(LookForKeyStep(SendStep(s, flight, key), flight), flight), flight)
  }
}
