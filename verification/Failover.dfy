/**
 Choosing between two providers. The manager object probes both, compares them at a common block, and keeps
 away from a primary that failed; what it answers over a whole run is a matter of a small control state.
 */
module Failover {

  import opened Wrappers
  import opened Chain
  import opened Provider

  type ErrorCode = string

  datatype Name = Primary | Secondary
  datatype Health = Healthy | Degraded | Unavailable

  datatype ProviderState = ProviderState(
    status: Health,
    lastCheckedAt: nat,
    lastSuccessAt: Option<nat>,
    lastErrorCode: Option<ErrorCode>,
    head: Option<Header>)

  /** What one provider answers during one selection; the last answer is asked for only when both are probed. */
  datatype Answers = Answers(
    chainId: Result<nat, ErrorCode>,
    headNumber: Result<nat, ErrorCode>,
    head: Result<Header, ErrorCode>,
    common: Result<Header, ErrorCode>)

  // ----- what a selection answers

  /** Configured: the chain both providers must serve, and how long a failed primary is avoided. */
  datatype Policy = Policy(chainId: nat, wait: nat)

  datatype Control = Control(suppressedUntil: nat, forceSecondaryOnce: bool)

  datatype Pick = Picked(name: Name) | Refused(code: ErrorCode)

  predicate Probed(a: Answers, policy: Policy) {
    && a.chainId == Ok(policy.chainId) && a.headNumber.Ok?
    && a.head.Ok? && a.head.value.number == a.headNumber.value
  }

  predicate BothProbed(p: Answers, s: Answers, policy: Policy) {
    Probed(p, policy) && Probed(s, policy)
  }

  /** Probed, and readable at the common block when there is one. */
  predicate Usable(own: Answers, other: Answers, policy: Policy) {
    Probed(own, policy) && (Probed(other, policy) ==> own.common.Ok?)
  }

  predicate Disagree(p: Answers, s: Answers, policy: Policy) {
    && BothProbed(p, s, policy) && p.common.Ok? && s.common.Ok?
    && (p.common.value.hash != s.common.value.hash || p.common.value.parent != s.common.value.parent
        || p.common.value.timestamp != s.common.value.timestamp)
  }

  function AfterPrimaryFailure(at: nat, policy: Policy): Control {
    Control(at + policy.wait, true)
  }

  /** The control state once the providers have been compared. */
  function Compared(c: Control, p: Answers, s: Answers, at: nat, policy: Policy): Control {
    if BothProbed(p, s, policy) && p.common.Err? then AfterPrimaryFailure(at, policy) else c
  }

  function Choose(c: Control, p: Answers, s: Answers, at: nat, policy: Policy): Pick {
    if Disagree(p, s, policy) then Refused("INCONSISTENT_BLOCK_DATA")
    else if Usable(s, p, policy) && (!Usable(p, s, policy) || at < c.suppressedUntil || c.forceSecondaryOnce) then
      Picked(Secondary)
    else if Usable(p, s, policy) then Picked(Primary)
    else Refused("RPC_UNAVAILABLE")
  }

  function AfterChoice(c: Control, pick: Pick): Control {
    if pick == Picked(Secondary) then c.(forceSecondaryOnce := false) else c
  }

  // ----- runs

  /** A runtime failure reported by a tracked client, or a selection comparing and then choosing. */
  datatype Step =
    | Failure(name: Name, at: nat)
    | Selection(primary: Answers, secondary: Answers, comparedAt: nat, at: nat)

  function Answer(c: Control, step: Step, policy: Policy): Option<Pick> {
    match step
    case Failure(_, _) => None
    case Selection(p, s, comparedAt, at) => Some(Choose(Compared(c, p, s, comparedAt, policy), p, s, at, policy))
  }

  function Next(c: Control, step: Step, policy: Policy): Control {
    match step
    case Failure(name, at) => if name == Primary then AfterPrimaryFailure(at, policy) else c
    case Selection(p, s, comparedAt, at) =>
      var compared := Compared(c, p, s, comparedAt, policy);
      AfterChoice(compared, Choose(compared, p, s, at, policy))
  }

  function After(steps: seq<Step>, policy: Policy): Control {
    if steps == [] then Control(0, false) else Next(After(steps[..|steps| - 1], policy), steps[|steps| - 1], policy)
  }

  function AnswerAt(steps: seq<Step>, k: nat, policy: Policy): Option<Pick>
    requires k < |steps|
  {
    Answer(After(steps[..k], policy), steps[k], policy)
  }

  /** When the primary failed in this step, at run time or when it was compared. */
  function PrimaryFailedAt(step: Step, policy: Policy): Option<nat> {
    match step
    case Failure(name, at) => if name == Primary then Some(at) else None
    case Selection(p, s, comparedAt, _) => if BothProbed(p, s, policy) && p.common.Err? then Some(comparedAt) else None
  }

  function First(step: Step): nat {
    if step.Failure? then step.at else step.comparedAt
  }

  /** The clock never goes back. */
  ghost predicate InOrder(steps: seq<Step>) {
    && (forall i :: 0 <= i < |steps| ==> First(steps[i]) <= steps[i].at)
    && (forall i, j :: 0 <= i < j < |steps| ==> steps[i].at <= First(steps[j]))
  }

  /** Secondary has not been chosen since the primary failed in step i. */
  ghost predicate Owed(steps: seq<Step>, i: nat, policy: Policy) {
    && i < |steps| && PrimaryFailedAt(steps[i], policy).Some?
    && forall k :: i <= k < |steps| ==> AnswerAt(steps, k, policy) != Some(Picked(Secondary))
  }

  /** The wait for the failure in step i is still running. */
  ghost predicate Waiting(steps: seq<Step>, i: nat, at: nat, policy: Policy) {
    && i < |steps| && PrimaryFailedAt(steps[i], policy).Some?
    && at < PrimaryFailedAt(steps[i], policy).value + policy.wait
  }

  lemma AnswerBefore(steps: seq<Step>, k: nat, policy: Policy)
    requires k + 1 < |steps|
    ensures AnswerAt(steps[..|steps| - 1], k, policy) == AnswerAt(steps, k, policy)
  {
    assert steps[..|steps| - 1][..k] == steps[..k];
  }

  lemma OwedBefore(steps: seq<Step>, i: nat, policy: Policy)
    requires i + 1 < |steps|
    ensures Owed(steps, i, policy)
            <==> Owed(steps[..|steps| - 1], i, policy)
                 && AnswerAt(steps, |steps| - 1, policy) != Some(Picked(Secondary))
  {
    var last, before := |steps| - 1, steps[..|steps| - 1];
    assert before[i] == steps[i];
    forall k: nat | k < last ensures AnswerAt(before, k, policy) == AnswerAt(steps, k, policy) {
      AnswerBefore(steps, k, policy);
    }
    assert Owed(before, i, policy) ==> forall k: nat :: i <= k < last ==>
            AnswerAt(steps, k, policy) != Some(Picked(Secondary));
    assert Owed(steps, i, policy) ==> forall k: nat :: i <= k < last ==>
            AnswerAt(before, k, policy) != Some(Picked(Secondary));
  }

  /** The flag is set exactly while a failure of the primary is still owed one secondary selection. */
  lemma {:induction false} FlagMeansOwed(steps: seq<Step>, policy: Policy)
    ensures After(steps, policy).forceSecondaryOnce <==> exists i: nat :: Owed(steps, i, policy)
  {
    if steps != [] {
      var last, before := |steps| - 1, steps[..|steps| - 1];
      FlagMeansOwed(before, policy);
      assert Owed(steps, last, policy)
          <==> PrimaryFailedAt(steps[last], policy).Some? && AnswerAt(steps, last, policy) != Some(Picked(Secondary));
      if i: nat :| Owed(before, i, policy) {
        OwedBefore(steps, i, policy);
      }
      if i: nat :| Owed(steps, i, policy) && i < last {
        OwedBefore(steps, i, policy);
      }
    }
  }

  /** The suppression time covers exactly the waits of all failures so far. */
  lemma {:induction false} SuppressionMeansWaiting(steps: seq<Step>, at: nat, policy: Policy)
    requires InOrder(steps)
    ensures at < After(steps, policy).suppressedUntil <==> exists i: nat :: Waiting(steps, i, at, policy)
  {
    if steps != [] {
      var last, before := |steps| - 1, steps[..|steps| - 1];
      SuppressionMeansWaiting(before, at, policy);
      if i: nat :| Waiting(before, i, at, policy) {
        assert steps[i] == before[i] && steps[i].at <= First(steps[last]);
        assert Waiting(steps, i, at, policy);
        if PrimaryFailedAt(steps[last], policy).Some? {
          assert Waiting(steps, last, at, policy);
        }
      }
      if i: nat :| Waiting(steps, i, at, policy) && i < last {
        assert Waiting(before, i, at, policy);
      }
      assert PrimaryFailedAt(steps[last], policy).Some? ==>
        (Waiting(steps, last, at, policy) <==> at < After(steps, policy).suppressedUntil);
    }
  }

  /**
   With both providers usable and in agreement, the primary is selected exactly when for every failure of it
   so far the wait is over and secondary has been selected at least once.
   */
  lemma PrimaryRegained(steps: seq<Step>, p: Answers, s: Answers, comparedAt: nat, at: nat, policy: Policy)
    requires InOrder(steps) && Usable(p, s, policy) && Usable(s, p, policy) && !Disagree(p, s, policy)
    ensures var answer := Answer(After(steps, policy), Selection(p, s, comparedAt, at), policy);
            && (answer == Some(Picked(Primary)) || answer == Some(Picked(Secondary)))
            && (answer == Some(Picked(Primary))
                <==> forall i :: 0 <= i < |steps| ==> !Waiting(steps, i, at, policy) && !Owed(steps, i, policy))
  {
    FlagMeansOwed(steps, policy);
    SuppressionMeansWaiting(steps, at, policy);
    if i: nat :| Owed(steps, i, policy) {
      assert i < |steps|;
    }
    if i: nat :| Waiting(steps, i, at, policy) {
      assert i < |steps|;
    }
  }

  // ----- the manager

  class RpcFailoverManager {
    const policy: Policy
    const clock: Clock
    var states: map<Name, ProviderState>
    var primarySuppressedUntil: nat
    var forceSecondaryOnce: bool
    // Every selection made and every failure reported so far.
    ghost var history: seq<Step>

    function Current(): Control
      reads this
    {
      Control(primarySuppressedUntil, forceSecondaryOnce)
    }

    /** The control fields are what the history leaves, and the clock has not fallen behind it. */
    ghost predicate Valid()
      reads this, clock
    {
      && Current() == After(history, policy) && InOrder(history)
      && (history != [] ==> history[|history| - 1].at <= clock.time)
    }

    constructor (policy: Policy, clock: Clock)
      ensures this.policy == policy && this.clock == clock
      ensures Valid() && history == [] && states == map[]
    {
      this.policy, this.clock := policy, clock;
      states, primarySuppressedUntil, forceSecondaryOnce, history := map[], 0, false, [];
    }

    method Probe(name: Name, a: Answers) returns (ok: bool)
      modifies this`states, clock
      ensures ok == Probed(a, policy) && old(clock.time) <= clock.time
      ensures name in states && states == old(states)[name := states[name]]
      ensures ok ==> states[name].status == Healthy && states[name].head == Some(a.head.value)
      ensures !ok ==> states[name].status == Unavailable
    {
      var now := clock.Now();
      var error: ErrorCode;
      if a.chainId.Err? {
        error := a.chainId.error;
      } else if a.chainId.value != policy.chainId {
        error := "CHAIN_ID_MISMATCH";
      } else if a.headNumber.Err? {
        error := a.headNumber.error;
      } else if a.head.Err? {
        error := a.head.error;
      } else if a.head.value.number != a.headNumber.value {
        error := "RPC_ERROR";
      } else {
        states := states[name := ProviderState(Healthy, now, Some(now), None, Some(a.head.value))];
        return true;
      }
      states := states[name := ProviderState(Unavailable, now, None, Some(error), None)];
      return false;
    }

    method MarkRuntimeFailure(name: Name) returns (ghost at: nat)
      modifies this, clock
      ensures old(clock.time) <= at <= clock.time
      ensures Current() == Next(old(Current()), Failure(name, at), policy)
      ensures name in states && states == old(states)[name := states[name]] && states[name].status == Unavailable
      ensures history == old(history)
    {
      var now := clock.Now();
      var head := if name in states then states[name].head else None;
      var lastSuccess := if name in states then states[name].lastSuccessAt else None;
      states := states[name := ProviderState(Unavailable, now, lastSuccess, Some("RPC_UNAVAILABLE"), head)];
      if name == Primary {
        primarySuppressedUntil := now + policy.wait;
        forceSecondaryOnce := true;
      }
      at := now;
    }

    method Degrade(name: Name, now: nat)
      modifies this`states
      ensures name in states && states == old(states)[name := states[name]] && states[name].status == Degraded
    {
      var prior := if name in states then states[name] else ProviderState(Unavailable, now, None, None, None);
      var error := Some("INCONSISTENT_BLOCK_DATA");
      states := states[name := ProviderState(Degraded, now, prior.lastSuccessAt, error, prior.head)];
    }

    /** Compares the two probed providers at the lower of their heads. */
    method CrossCheck(p: Answers, s: Answers)
      returns (agreed: bool, primaryUsable: bool, secondaryUsable: bool, ghost at: nat)
      requires BothProbed(p, s, policy)
      requires Primary in states && Secondary in states
      modifies this, clock
      ensures old(clock.time) <= at <= clock.time
      ensures agreed == !Disagree(p, s, policy)
      ensures agreed ==> primaryUsable == Usable(p, s, policy) && secondaryUsable == Usable(s, p, policy)
      ensures Current() == Compared(old(Current()), p, s, at, policy)
      ensures Primary in states && Secondary in states
      ensures primaryUsable ==> states[Primary] == old(states[Primary])
      ensures secondaryUsable ==> states[Secondary] == old(states[Secondary])
      ensures history == old(history)
      ensures !agreed ==> !primaryUsable && !secondaryUsable
                          && states[Primary].status == Degraded && states[Secondary].status == Degraded
    {
      at := clock.time;
      if p.common.Err? || s.common.Err? {
        if p.common.Err? {
          at := MarkRuntimeFailure(Primary);
        }
        if s.common.Err? {
          ghost var later := MarkRuntimeFailure(Secondary);
        }
        return true, p.common.Ok?, s.common.Ok?, at;
      }
      var left, right := p.common.value, s.common.value;
      if left.hash != right.hash || left.parent != right.parent || left.timestamp != right.timestamp {
        var now := clock.Now();
        Degrade(Primary, now);
        Degrade(Secondary, now);
        return false, false, false, at;
      }
      return true, true, true, at;
    }

    /**
     One selection is one step of the run. A provider is selected exactly when one is usable and the two do not
     disagree, and only one that was probed and readable in this very call. Of two usable providers that agree, the
     primary is selected exactly when for each of its failures so far the wait is over and secondary has been selected
     since.
     */
    method Select(p: Answers, s: Answers) returns (r: Result<Name, ErrorCode>, ghost comparedAt: nat, ghost at: nat)
      requires Valid()
      modifies this, clock
      ensures Valid() && history == old(history) + [Selection(p, s, comparedAt, at)]
      ensures old(clock.time) <= comparedAt <= at <= clock.time
      ensures AnswerAt(history, |history| - 1, policy) == Some(if r.Ok? then Picked(r.value) else Refused(r.error))
      ensures r.Ok? ==> r.value in states && states[r.value].status == Healthy
      ensures r.Ok? <==> !Disagree(p, s, policy) && (Usable(p, s, policy) || Usable(s, p, policy))
      ensures r.Ok? ==> if r.value == Primary then Usable(p, s, policy) else Usable(s, p, policy)
      ensures Usable(p, s, policy) && Usable(s, p, policy) && !Disagree(p, s, policy) ==>
                r.Ok? && (r.value == Primary
                          <==> forall i :: 0 <= i < |old(history)| ==>
                                 !Waiting(old(history), i, at, policy) && !Owed(old(history), i, policy))
    {
      hide Probed, Disagree, Usable, InOrder;
      r, comparedAt, at := Decide(p, s);
      HistoryGrows(old(history), Selection(p, s, comparedAt, at), policy);
      history := history + [Selection(p, s, comparedAt, at)];
      if Usable(p, s, policy) && Usable(s, p, policy) && !Disagree(p, s, policy) {
        PrimaryRegained(old(history), p, s, comparedAt, at, policy);
      }
    }

    method Decide(p: Answers, s: Answers) returns (r: Result<Name, ErrorCode>, ghost comparedAt: nat, ghost at: nat)
      modifies this, clock
      ensures old(clock.time) <= comparedAt <= at <= clock.time && history == old(history)
      ensures Answer(old(Current()), Selection(p, s, comparedAt, at), policy)
              == Some(if r.Ok? then Picked(r.value) else Refused(r.error))
      ensures Current() == Next(old(Current()), Selection(p, s, comparedAt, at), policy)
      ensures r.Ok? ==> r.value in states && states[r.value].status == Healthy
    {
      var primaryProbed := Probe(Primary, p);
      var secondaryProbed := Probe(Secondary, s);
      var primaryUsable, secondaryUsable := primaryProbed, secondaryProbed;
      comparedAt := clock.time;
      if primaryProbed && secondaryProbed {
        var agreed: bool;
        agreed, primaryUsable, secondaryUsable, comparedAt := CrossCheck(p, s);
        if !agreed {
          at := clock.time;
          return Err("INCONSISTENT_BLOCK_DATA"), comparedAt, at;
        }
      }
      var now := clock.Now();
      at := now;
      var primarySuppressed := now < primarySuppressedUntil;
      if secondaryProbed && secondaryUsable && (!primaryUsable || primarySuppressed || forceSecondaryOnce) {
        forceSecondaryOnce := false;
        return Ok(Secondary), comparedAt, at;
      }
      if primaryProbed && primaryUsable {
        return Ok(Primary), comparedAt, at;
      }
      // The source tests the secondary once more here; no run can get that far with it usable.
      assert !(secondaryProbed && secondaryUsable);
      return Err("RPC_UNAVAILABLE"), comparedAt, at;
    }

    /** What a tracked client reports: one failure step of the run. */
    method ReportFailure(name: Name) returns (ghost at: nat)
      requires Valid()
      modifies this, clock
      ensures Valid() && history == old(history) + [Failure(name, at)]
      ensures old(clock.time) <= at <= clock.time
    {
      at := MarkRuntimeFailure(name);
      HistoryGrows(old(history), Failure(name, at), policy);
      history := history + [Failure(name, at)];
    }
  }

  lemma HistoryGrows(steps: seq<Step>, step: Step, policy: Policy)
    requires InOrder(steps) && First(step) <= step.at
    requires steps != [] ==> steps[|steps| - 1].at <= First(step)
    ensures InOrder(steps + [step])
    ensures After(steps + [step], policy) == Next(After(steps, policy), step, policy)
    ensures AnswerAt(steps + [step], |steps|, policy) == Answer(After(steps, policy), step, policy)
  {
    assert (steps + [step])[..|steps|] == steps;
    forall i | 0 <= i < |steps| ensures steps[i].at <= First(step) {
      if i < |steps| - 1 {
        assert steps[i].at <= First(steps[|steps| - 1]) <= steps[|steps| - 1].at;
      }
    }
  }

  /** A client handed out by a selection: however often it fails, the manager hears of it once. */
  class TrackedRpc {
    const name: Name
    const manager: RpcFailoverManager
    var failed: bool

    constructor (name: Name, manager: RpcFailoverManager)
      ensures this.name == name && this.manager == manager && !failed
    {
      this.name, this.manager, failed := name, manager, false;
    }

    method Call<T>(outcome: Result<T, ErrorCode>) returns (r: Result<T, ErrorCode>, ghost at: nat)
      requires manager.Valid()
      modifies this, manager, manager.clock
      ensures manager.Valid() && r == outcome && failed == (old(failed) || outcome.Err?)
      ensures manager.history == if outcome.Err? && !old(failed) then old(manager.history) + [Failure(name, at)]
                                 else old(manager.history)
      ensures outcome.Ok? || old(failed) ==> manager.states == old(manager.states)
    {
      at := manager.clock.time;
      if outcome.Err? && !failed {
        failed := true;
        at := manager.ReportFailure(name);
      }
      return outcome, at;
    }
  }
}
