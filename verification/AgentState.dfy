/** What the Windows agent holds in memory, and how a sync changes it. */
module AgentState {
  import opened Common
  import opened Text
  import opened PolicyModels
  import PolicyEvaluator
  import ListInstall

  const RECENT_LIMIT := 512
  const BYPASS_MS := 15 * 60 * 1000

  /** A decision that was made: for which name, and what it was. */
  datatype Made = Made(name: string, decision: FilterDecision)

  /** The last decision made for a name, ignoring case. */
  function Latest(history: seq<Made>, key: string): Option<FilterDecision> {
    if history == [] then None
    else
      var last := history[|history| - 1];
      if Lower(last.name) == key then Some(last.decision) else Latest(history[..|history| - 1], key)
  }

  lemma {:induction false} LatestNext(history: seq<Made>, made: Made, key: string)
    ensures Latest(history + [made], key) == if Lower(made.name) == key then Some(made.decision) else Latest(history, key)
  {
    assert (history + [made])[..|history|] == history;
  }

  /** Every cached decision is the last one made for its name. */
  ghost predicate Agrees(recent: map<string, FilterDecision>, history: seq<Made>) {
    forall key | key in recent :: Latest(history, key) == Some(recent[key])
  }

  lemma AgreesNext(recent: map<string, FilterDecision>, history: seq<Made>, made: Made)
    requires Agrees(recent, history)
    ensures Agrees(recent[Lower(made.name) := made.decision], history + [made])
  {
    var recent' := recent[Lower(made.name) := made.decision];
    forall key | key in recent' ensures Latest(history + [made], key) == Some(recent'[key]) {
      LatestNext(history, made, key);
    }
  }

  class State {
    var policy: Option<Policy>
    var lists: Lists
    var emergencyUntil: Option<int>
    /** Keys are folded to lower case, as the dictionary's comparer ignores case. */
    var recent: map<string, FilterDecision>
    ghost var history: seq<Made>

    ghost predicate Valid()
      reads this
    {
      |recent| <= RECENT_LIMIT && Agrees(recent, history)
    }

    constructor ()
      ensures Valid() && policy == None && emergencyUntil == None && recent == map[]
    {
      policy, lists, emergencyUntil, recent, history := None, map[], None, map[], [];
    }

    method Update(p: Policy, l: Lists)
      requires Valid()
      modifies this`policy, this`lists
      ensures Valid() && policy == Some(p) && lists == l
    {
      policy, lists := Some(p), l;
    }

    predicate Bypassed(now: int)
      reads this
    {
      emergencyUntil.Some? && emergencyUntil.value > now
    }

    /** What the evaluator says; an agent without a policy allows. None is an exception. */
    function Judged(domain: string, now: int, clock: Clock): Option<FilterDecision>
      reads this
    {
      if policy.None? then Some(Allow(domain, "bootstrap_unenrolled"))
      else PolicyEvaluator.Evaluate(policy.value, lists, domain, now, clock)
    }

    /** Cache a decision, then drop any one entry if there are too many: the dictionary promises no order. */
    method Remember(domain: string, decision: FilterDecision)
      requires Valid()
      modifies this`recent, this`history
      ensures Valid()
      ensures history == old(history) + [Made(domain, decision)]
      ensures forall key | key in recent && key != Lower(domain) :: key in old(recent) && recent[key] == old(recent)[key]
      ensures Lower(domain) in recent ==> recent[Lower(domain)] == decision
      ensures |old(recent)| < RECENT_LIMIT ==> recent == old(recent)[Lower(domain) := decision]
      ensures |recent| >= |old(recent)|
    {
      AgreesNext(recent, history, Made(domain, decision));
      recent := recent[Lower(domain) := decision];
      history := history + [Made(domain, decision)];
      if |recent| > RECENT_LIMIT {
        var victim :| victim in recent;
        recent := recent - {victim};
      }
    }

    method Evaluate(domain: string, now: int, clock: Clock) returns (r: Option<FilterDecision>)
      requires Valid()
      modifies this`recent, this`history
      ensures Valid()
      ensures r == if Bypassed(now) then Some(Allow(domain, "emergency_bypass")) else Judged(domain, now, clock)
      ensures history == if Bypassed(now) || r.None? then old(history) else old(history) + [Made(domain, r.value)]
      ensures Bypassed(now) || r.None? ==> recent == old(recent)
      ensures emergencyUntil.Some? && now < emergencyUntil.value ==> r == Some(Allow(domain, "emergency_bypass"))
      ensures !(emergencyUntil.Some? && now < emergencyUntil.value) ==>
                r == if policy.None? then Some(Allow(domain, "bootstrap_unenrolled"))
                     else PolicyEvaluator.Evaluate(policy.value, lists, domain, now, clock)
      ensures !Bypassed(now) && r.Some? && |old(recent)| < RECENT_LIMIT ==> recent == old(recent)[Lower(domain) := r.value]
    {
      if emergencyUntil.Some? && emergencyUntil.value > now { return Some(Allow(domain, "emergency_bypass")); }
      r := Judged(domain, now, clock);
      if r.Some? { Remember(domain, r.value); }
    }

    /** A cached answer is the last decision made for that name, whatever its case and whatever was dropped. */
    method Recent(domain: string) returns (r: Option<FilterDecision>)
      requires Valid()
      ensures r.Some? ==> Latest(history, Lower(domain)) == r
      ensures r == if Lower(domain) in recent then Some(recent[Lower(domain)]) else None
    {
      if Lower(domain) in recent { return Some(recent[Lower(domain)]); }
      return None;
    }

    method BeginEmergencyBypass(now: int) returns (until: int)
      requires Valid()
      modifies this`emergencyUntil
      ensures Valid() && until == now + BYPASS_MS && emergencyUntil == Some(until)
      ensures forall t | now <= t < now + 900_000 :: Bypassed(t)
      ensures forall t | t >= now + 900_000 :: !Bypassed(t)
    {
      until := now + BYPASS_MS;
      emergencyUntil := Some(until);
    }
  }

  /** What a sync request brings back. */
  datatype Answer = Unreachable | NotModified | Body(policy: Policy)

  const BOOTSTRAP := "bootstrap"

  /** The part of the worker that installs a policy: memory, policy.json and the list store. */
  class ProtectionWorker {
    const state: State
    const store: ListInstall.ListStore
    var saved: Option<Policy>

    constructor (state: State, store: ListInstall.ListStore)
      ensures this.state == state && this.store == store && saved == None
    {
      this.state, this.store, saved := state, store, None;
    }

    /**
     * SyncOnce up to the policy: a list sync that fails, at a file operation or elsewhere,
     * is caught, and the policy is saved and used all the same, with the lists that are on
     * disk. `loader` is LoadLists.
     */
    method SyncOnce(answer: Answer, server: ListInstall.Server, crypto: ListInstall.Crypto, fault: ListInstall.Fault,
                    loader: map<string, ListInstall.Bytes> -> Lists) returns (lists: ListInstall.Outcome)
      requires state.Valid() && ListInstall.AllVouched(crypto, store.files)
      modifies this`saved, state, store
      ensures state.Valid() && ListInstall.AllVouched(crypto, store.files)
      ensures !answer.Body? ==> saved == old(saved) && state.policy == old(state.policy) && state.lists == old(state.lists)
                                && store.files == old(store.files) && store.marker == old(store.marker)
      ensures answer.Body? && lists != ListInstall.PowerLost ==>
                saved == Some(answer.policy) && state.policy == Some(answer.policy) && state.lists == loader(store.files)
      ensures answer.Body? && lists == ListInstall.Returned && answer.policy.listVersion != BOOTSTRAP ==>
                store.marker == Some(answer.policy.listVersion)
      ensures answer.Body? && lists == ListInstall.Failed ==> store.marker == old(store.marker)
      ensures lists == ListInstall.PowerLost ==> fault.fatal && saved == old(saved)
    {
      lists := ListInstall.Returned;
      if !answer.Body? { return; }
      if answer.policy.listVersion != BOOTSTRAP {
        var outcome := store.Sync(answer.policy.listVersion, server, crypto, fault);
        lists := outcome;
        if lists == ListInstall.PowerLost { return; }
      }
      saved := Some(answer.policy);
      state.Update(answer.policy, loader(store.files));
    }
  }
}
