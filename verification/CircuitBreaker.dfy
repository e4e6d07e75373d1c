/** The circuit breaker with bulkhead. One breaker is shared by overlapping calls: admitting a call is one
    synchronous step, and settling it is another, any amount of time and any number of other steps later. */
module CircuitBreaker {
  import opened Basics

  datatype CircuitState = CLOSED | OPEN | HALF_OPEN

  /** `concurrencyLimit` 0 stands for an absent limit: both are falsy. */
  datatype Options = Options(failureThreshold: int, cooldownPeriodMs: int, concurrencyLimit: int)

  /** `leaving` is a history variable: calls whose failure has been counted and that are still active, because
      `execute` runs the synchronous part of their fallback before it counts them out. */
  datatype Breaker = Breaker(state: CircuitState, failureCount: nat, lastStateChange: int, activeExecutions: nat,
                             leaving: nat)

  datatype Admission = Admitted | BulkheadFull | CircuitOpen

  /** What happens to a breaker, in order. A timeout settles the call as a failure. */
  datatype Event =
    | Execute(at: int)
    | Succeed(at: int)
    | Fail(at: int)
    | Leave             // a failed call is counted out

  predicate AtLimit(o: Options, b: Breaker) {
    o.concurrencyLimit != 0 && b.activeExecutions >= o.concurrencyLimit
  }

  function AdmissionAt(o: Options, b: Breaker, at: int): Admission {
    if AtLimit(o, b) then BulkheadFull
    else if b.state == OPEN && at - b.lastStateChange <= o.cooldownPeriodMs then CircuitOpen
    else Admitted
  }

  /** A settlement needs a call that was admitted and has not settled. */
  predicate Possible(b: Breaker, e: Event) {
    e.Execute? || if e.Leave? then 0 < b.leaving <= b.activeExecutions else b.leaving < b.activeExecutions
  }

  function Step(o: Options, b: Breaker, e: Event): Breaker
    requires Possible(b, e)
  {
    match e
    case Execute(at) =>
      if AdmissionAt(o, b, at) != Admitted then b
      else if b.state == OPEN then Breaker(HALF_OPEN, b.failureCount, at, b.activeExecutions + 1, b.leaving)
      else b.(activeExecutions := b.activeExecutions + 1)
    case Succeed(at) =>
      Breaker(CLOSED, 0, if b.state == CLOSED then b.lastStateChange else at, b.activeExecutions - 1, b.leaving)
    case Fail(at) =>
      var n := b.failureCount + 1;
      if (b.state == CLOSED && n >= o.failureThreshold) || b.state == HALF_OPEN
      then Breaker(OPEN, n, at, b.activeExecutions, b.leaving + 1)
      else b.(failureCount := n, leaving := b.leaving + 1)
    case Leave => b.(activeExecutions := b.activeExecutions - 1, leaving := b.leaving - 1)
  }

  function Fresh(at: int): Breaker {
    Breaker(CLOSED, 0, at, 0, 0)
  }

  ghost predicate Feasible(o: Options, b: Breaker, es: seq<Event>)
    decreases |es|
  {
    es == [] || (Possible(b, es[0]) && Feasible(o, Step(o, b, es[0]), es[1..]))
  }

  function Run(o: Options, b: Breaker, es: seq<Event>): Breaker
    requires Feasible(o, b, es)
    decreases |es|
  {
    if es == [] then b else Run(o, Step(o, b, es[0]), es[1..])
  }

  lemma {:induction false} RunAppend(o: Options, b: Breaker, es: seq<Event>, e: Event)
    requires Feasible(o, b, es) && Possible(Run(o, b, es), e)
    ensures Feasible(o, b, es + [e])
    ensures Run(o, b, es + [e]) == Step(o, Run(o, b, es), e)
    decreases |es|
  {
    if es == [] {
      assert [e][1..] == [];
      assert Feasible(o, Step(o, b, e), []);
    } else {
      assert (es + [e])[1..] == es[1..] + [e];
      RunAppend(o, Step(o, b, es[0]), es[1..], e);
    }
  }

  // ---- what the counters mean ----

  /** The settlements of a history, in order: true for a success. */
  function Settlements(es: seq<Event>): seq<bool> {
    if es == [] then []
    else if es[0].Execute? || es[0].Leave? then Settlements(es[1..])
    else [es[0].Succeed?] + Settlements(es[1..])
  }

  /** A threshold below 1 acts as 1: the check runs only after a failure has been counted. */
  function EffectiveThreshold(o: Options): int {
    if o.failureThreshold < 1 then 1 else o.failureThreshold
  }

  /** How many of these settlements were such. */
  function Count(outcomes: seq<bool>, success: bool): nat {
    if outcomes == [] then 0
    else Count(outcomes[..|outcomes| - 1], success) + if outcomes[|outcomes| - 1] == success then 1 else 0
  }

  lemma CountAppend(outcomes: seq<bool>, last: bool, success: bool)
    ensures Count(outcomes + [last], success) == Count(outcomes, success) + if last == success then 1 else 0
  {
    assert (outcomes + [last])[..|outcomes|] == outcomes;
  }

  /** Failed calls that have been counted out. */
  function Departures(es: seq<Event>): nat {
    if es == [] then 0 else (if es[0].Leave? then 1 else 0) + Departures(es[1..])
  }

  /** The breaker's fields, given the settlements so far and the numbers of calls admitted and counted out: a call
      is active until its success or, after a failure, until it is counted out. */
  predicate Explains(o: Options, b: Breaker, outcomes: seq<bool>, admitted: nat, left: nat) {
    && TrailingFailures(outcomes, b.failureCount)
    && (b.state == CLOSED <==> b.failureCount < EffectiveThreshold(o))
    && b.activeExecutions == admitted - Count(outcomes, true) - left
    && b.leaving == Count(outcomes, false) - left
    && (o.concurrencyLimit > 0 ==> b.activeExecutions <= o.concurrencyLimit)
  }

  /** Calls let through to their function. */
  function AdmittedCount(o: Options, b: Breaker, es: seq<Event>): nat
    requires Feasible(o, b, es)
    decreases |es|
  {
    if es == [] then 0
    else Admits(o, b, es[0]) + AdmittedCount(o, Step(o, b, es[0]), es[1..])
  }

  lemma ExplainsMove(o: Options, b: Breaker, e: Event, outcomes: seq<bool>, admitted: nat, left: nat)
    requires Explains(o, b, outcomes, admitted, left) && Possible(b, e) && (e.Execute? || e.Leave?)
    ensures Explains(o, Step(o, b, e), outcomes, admitted + Admits(o, b, e), left + if e.Leave? then 1 else 0)
  {
  }

  lemma ExplainsSettlement(o: Options, b: Breaker, e: Event, outcomes: seq<bool>, admitted: nat, left: nat)
    requires Explains(o, b, outcomes, admitted, left) && Possible(b, e) && (e.Succeed? || e.Fail?)
    ensures Explains(o, Step(o, b, e), outcomes + [e.Succeed?], admitted, left)
  {
    CountAppend(outcomes, e.Succeed?, true);
    CountAppend(outcomes, e.Succeed?, false);
  }

  lemma ExplainsStep(o: Options, b: Breaker, e: Event, outcomes: seq<bool>, admitted: nat, left: nat)
    requires Explains(o, b, outcomes, admitted, left) && Possible(b, e)
    ensures Explains(o, Step(o, b, e), outcomes + Settlements([e]),
                     admitted + Admits(o, b, e), left + if e.Leave? then 1 else 0)
  {
    assert [e][1..] == [] && Settlements([]) == [];
    if e.Execute? || e.Leave? {
      assert outcomes + Settlements([e]) == outcomes;
      ExplainsMove(o, b, e, outcomes, admitted, left);
    } else {
      assert Settlements([e]) == [e.Succeed?] + [] == [e.Succeed?];
      ExplainsSettlement(o, b, e, outcomes, admitted, left);
    }
  }

  lemma SettlementsCons(outcomes: seq<bool>, es: seq<Event>)
    requires es != []
    ensures (outcomes + Settlements([es[0]])) + Settlements(es[1..]) == outcomes + Settlements(es)
  {
    var rest := Settlements(es[1..]);
    assert [es[0]][1..] == [] && Settlements([]) == [];
    if es[0].Execute? || es[0].Leave? {
      assert Settlements([es[0]]) == [] && outcomes + [] == outcomes;
    } else {
      var first := [es[0].Succeed?];
      assert Settlements([es[0]]) == first + [] == first;
      assert (outcomes + first) + rest == outcomes + (first + rest);
    }
  }

  function Admits(o: Options, b: Breaker, e: Event): nat {
    if e.Execute? && AdmissionAt(o, b, e.at) == Admitted then 1 else 0
  }

  lemma {:induction false} ExplainsRun(o: Options, b: Breaker, es: seq<Event>, outcomes: seq<bool>,
                                       admitted: nat, left: nat)
    requires Explains(o, b, outcomes, admitted, left) && Feasible(o, b, es)
    ensures Explains(o, Run(o, b, es), outcomes + Settlements(es), admitted + AdmittedCount(o, b, es),
                     left + Departures(es))
    decreases |es|
  {
    if es == [] {
      assert outcomes + [] == outcomes;
    } else {
      var e := es[0];
      var left' := left + if e.Leave? then 1 else 0;
      ExplainsStep(o, b, e, outcomes, admitted, left);
      ExplainsRun(o, Step(o, b, e), es[1..], outcomes + Settlements([e]), admitted + Admits(o, b, e), left');
      SettlementsCons(outcomes, es);
    }
  }

  /** For every interleaving of overlapping calls: the failure count is the trailing run of failures in
      settlement order, the circuit is closed exactly while that run is below the threshold, and the active count
      is the calls admitted but for those that have succeeded and those that have failed and been counted out; it
      is never above a positive limit. */
  lemma CountersMeanWhatTheySay(o: Options, created: int, es: seq<Event>)
    requires Feasible(o, Fresh(created), es)
    ensures Explains(o, Run(o, Fresh(created), es), Settlements(es), AdmittedCount(o, Fresh(created), es),
                     Departures(es))
  {
    ExplainsRun(o, Fresh(created), es, [], 0, 0);
    assert [] + Settlements(es) == Settlements(es);
  }

  /** Calls admitted, and neither succeeded nor counted out after a failure. */
  function Active(o: Options, created: int, es: seq<Event>): int
    requires Feasible(o, Fresh(created), es)
  {
    AdmittedCount(o, Fresh(created), es) - Count(Settlements(es), true) - Departures(es)
  }

  /** After every history: the bulkhead turns a call away exactly if there is a limit and it is reached by the
      calls active; and while fewer failures than the threshold end the history, every other call is admitted. */
  lemma AdmittedBelowThresholdIff(o: Options, created: int, es: seq<Event>, failures: nat, at: int)
    requires Feasible(o, Fresh(created), es) && TrailingFailures(Settlements(es), failures)
    ensures var a := AdmissionAt(o, Run(o, Fresh(created), es), at);
            && (a == BulkheadFull <==> o.concurrencyLimit != 0 && Active(o, created, es) >= o.concurrencyLimit)
            && (failures < EffectiveThreshold(o) ==>
                  (a == Admitted <==> o.concurrencyLimit == 0 || Active(o, created, es) < o.concurrencyLimit))
  {
    CountersMeanWhatTheySay(o, created, es);
    TrailingFailuresUnique(Settlements(es), failures, Run(o, Fresh(created), es).failureCount);
  }

  // ---- the cooldown ----

  /** No success, and every call of `execute` comes within the cooldown that began at `openedAt`. */
  predicate Quiet(o: Options, es: seq<Event>, openedAt: int) {
    forall i :: 0 <= i < |es| ==> !es[i].Succeed? && (es[i].Execute? ==> es[i].at <= openedAt + o.cooldownPeriodMs)
  }

  /** While open and without a success, calls within the cooldown change nothing but the failure and
      activity counters: stragglers that fail do not restart the cooldown, and nothing is admitted. */
  lemma {:induction false} CooldownHolds(o: Options, b: Breaker, es: seq<Event>)
    requires b.state == OPEN && Feasible(o, b, es) && Quiet(o, es, b.lastStateChange)
    ensures Run(o, b, es).state == OPEN && Run(o, b, es).lastStateChange == b.lastStateChange
    ensures AdmittedCount(o, b, es) == 0
    ensures Run(o, b, es).activeExecutions - Run(o, b, es).leaving == b.activeExecutions - b.leaving - |Settlements(es)|
    decreases |es|
  {
    if es != [] {
      CooldownHolds(o, Step(o, b, es[0]), es[1..]);
    }
  }

  /** After an opening at `b.lastStateChange` and any quiet stretch, a call that finds room in the bulkhead
      is refused exactly within the cooldown; the first one after it becomes the probe. */
  lemma ProbeExactlyAfterCooldown(o: Options, b: Breaker, es: seq<Event>, at: int)
    requires b.state == OPEN && Feasible(o, b, es) && Quiet(o, es, b.lastStateChange)
    ensures var b' := Run(o, b, es);
            !AtLimit(o, b') ==>
              && (AdmissionAt(o, b', at) == CircuitOpen <==> at <= b.lastStateChange + o.cooldownPeriodMs)
              && (Step(o, b', Execute(at)).state == HALF_OPEN <==> at > b.lastStateChange + o.cooldownPeriodMs)
  {
    CooldownHolds(o, b, es);
  }

  /** A failure opens the circuit exactly when it is the one that reaches the threshold or comes while half
      open, and then the cooldown runs from that failure on: nothing is admitted within it. */
  lemma OpeningStartsCooldown(o: Options, b: Breaker, at: int, es: seq<Event>)
    requires b.state != OPEN && b.leaving < b.activeExecutions
    ensures Step(o, b, Fail(at)).state == OPEN <==> b.state == HALF_OPEN || b.failureCount + 1 >= o.failureThreshold
    ensures Step(o, b, Fail(at)).state == OPEN && Feasible(o, Step(o, b, Fail(at)), es) && Quiet(o, es, at) ==>
              var b' := Run(o, Step(o, b, Fail(at)), es);
              b'.state == OPEN && b'.lastStateChange == at && AdmittedCount(o, Step(o, b, Fail(at)), es) == 0
  {
    var after := Step(o, b, Fail(at));
    if after.state == OPEN && Feasible(o, after, es) && Quiet(o, es, at) {
      CooldownHolds(o, after, es);
    }
  }

  /** Half open does not mean a single probe: until something settles, every further call is let through
      for which the bulkhead has room. */
  lemma {:induction false} HalfOpenAdmitsEveryone(o: Options, b: Breaker, es: seq<Event>)
    requires b.state == HALF_OPEN && Feasible(o, b, es)
    requires forall i :: 0 <= i < |es| ==> es[i].Execute?
    requires o.concurrencyLimit == 0 || b.activeExecutions + |es| <= o.concurrencyLimit
    ensures AdmittedCount(o, b, es) == |es|
    ensures Run(o, b, es) == b.(activeExecutions := b.activeExecutions + |es|)
    decreases |es|
  {
    if es != [] {
      HalfOpenAdmitsEveryone(o, Step(o, b, es[0]), es[1..]);
    }
  }

  /** Any success closes the circuit, also that of a call admitted before it opened. */
  lemma SuccessAlwaysCloses(o: Options, created: int, es: seq<Event>, at: int)
    requires Feasible(o, Fresh(created), es) && Possible(Run(o, Fresh(created), es), Succeed(at))
    ensures Feasible(o, Fresh(created), es + [Succeed(at)])
    ensures Run(o, Fresh(created), es + [Succeed(at)]).state == CLOSED
    ensures TrailingFailures(Settlements(es + [Succeed(at)]), 0)
  {
    RunAppend(o, Fresh(created), es, Succeed(at));
    CountersMeanWhatTheySay(o, created, es + [Succeed(at)]);
  }

  // ---- the object ----

  class CircuitBreaker {
    const options: Options
    var state: CircuitState
    var failureCount: nat
    var lastStateChange: int
    var activeExecutions: nat

    ghost const created: int
    ghost var leaving: nat
    ghost var history: seq<Event>

    ghost function Snapshot(): Breaker
      reads this
    {
      Breaker(state, failureCount, lastStateChange, activeExecutions, leaving)
    }

    ghost predicate Valid()
      reads this
    {
      Feasible(options, Fresh(created), history) && Snapshot() == Run(options, Fresh(created), history)
    }

    constructor (options: Options, now: int)
      ensures Valid() && history == [] && this.options == options && Snapshot() == Fresh(now)
    {
      this.options := options;
      state, failureCount, lastStateChange, activeExecutions := CLOSED, 0, now, 0;
      created, leaving, history := now, 0, [];
    }

    /** `execute` up to the call of its function. A refused call never reaches the function. */
    method Execute(now: int) returns (a: Admission)
      requires Valid()
      modifies this
      ensures Valid() && history == old(history) + [Event.Execute(now)]
      ensures Snapshot() == Step(options, old(Snapshot()), Event.Execute(now))
      ensures a == if options.concurrencyLimit != 0 && old(activeExecutions) >= options.concurrencyLimit
                   then BulkheadFull
                   else if old(state) == OPEN && now <= old(lastStateChange) + options.cooldownPeriodMs
                   then CircuitOpen
                   else Admitted
      ensures a == AdmissionAt(options, old(Snapshot()), now)
      ensures activeExecutions == old(activeExecutions) + if a == Admitted then 1 else 0
      ensures state == if a == Admitted && old(state) == OPEN then HALF_OPEN else old(state)
      ensures lastStateChange == if a == Admitted && old(state) == OPEN then now else old(lastStateChange)
      ensures failureCount == old(failureCount)
      ensures options.concurrencyLimit > 0 ==> activeExecutions <= options.concurrencyLimit
    {
      RunAppend(options, Fresh(created), history, Event.Execute(now));
      history := history + [Event.Execute(now)];
      CountersMeanWhatTheySay(options, created, history);
      if options.concurrencyLimit != 0 && activeExecutions >= options.concurrencyLimit {
        return BulkheadFull;
      }
      CheckState(now);
      if state == OPEN {
        return CircuitOpen;
      }
      activeExecutions := activeExecutions + 1;
      return Admitted;
    }

    method CheckState(now: int)
      modifies this`state, this`lastStateChange
      ensures if old(state) == OPEN && now - old(lastStateChange) > options.cooldownPeriodMs
              then state == HALF_OPEN && lastStateChange == now
              else state == old(state) && lastStateChange == old(lastStateChange)
    {
      if state == OPEN && now - lastStateChange > options.cooldownPeriodMs {
        state := HALF_OPEN;
        lastStateChange := now;
      }
    }

    /** The call's promise resolved. */
    method OnSuccess(now: int)
      requires Valid() && leaving < activeExecutions
      modifies this
      ensures Valid() && history == old(history) + [Succeed(now)]
      ensures Snapshot() == Step(options, old(Snapshot()), Succeed(now))
      ensures state == CLOSED && failureCount == 0 && activeExecutions == old(activeExecutions) - 1
    {
      RunAppend(options, Fresh(created), history, Succeed(now));
      history := history + [Succeed(now)];
      failureCount := 0;
      if state != CLOSED {
        state := CLOSED;
        lastStateChange := now;
      }
      activeExecutions := activeExecutions - 1;
    }

    /** The call's promise was rejected, the function threw, or the timeout won the race. The failure is counted;
        the call stays active while its fallback, if it has one, is started. */
    method OnFailure(now: int)
      requires Valid() && leaving < activeExecutions
      modifies this
      ensures Valid() && history == old(history) + [Fail(now)]
      ensures Snapshot() == Step(options, old(Snapshot()), Fail(now))
      ensures failureCount == old(failureCount) + 1 && activeExecutions == old(activeExecutions)
      ensures var full := failureCount >= options.failureThreshold;
              var opens := old(state) == HALF_OPEN || (old(state) == CLOSED && full);
              && state == (if opens then OPEN else old(state))
              && lastStateChange == if opens then now else old(lastStateChange)
    {
      RunAppend(options, Fresh(created), history, Fail(now));
      history := history + [Fail(now)];
      failureCount := failureCount + 1;
      if state == CLOSED && failureCount >= options.failureThreshold {
        state := OPEN;
        lastStateChange := now;
      } else if state == HALF_OPEN {
        state := OPEN;
        lastStateChange := now;
      }
      leaving := leaving + 1;
    }

    /** The end of a failed call: whatever the start of its fallback has executed in between met one more active
        call. */
    method Finally()
      requires Valid() && 0 < leaving <= activeExecutions
      modifies this
      ensures Valid() && history == old(history) + [Leave]
      ensures Snapshot() == Step(options, old(Snapshot()), Leave)
      ensures activeExecutions == old(activeExecutions) - 1 && failureCount == old(failureCount) && state == old(state)
    {
      RunAppend(options, Fresh(created), history, Leave);
      history := history + [Leave];
      activeExecutions := activeExecutions - 1;
      leaving := leaving - 1;
    }

    /** What any client may conclude about an object of this class at any time. */
    method GetState() returns (s: CircuitState, ghost failures: nat)
      requires Valid()
      ensures s == state
      ensures forall n :: TrailingFailures(Settlements(history), n) <==> n == failures
      ensures s == CLOSED <==> failures < EffectiveThreshold(options)
    {
      CountersMeanWhatTheySay(options, created, history);
      s, failures := state, failureCount;
      forall n | TrailingFailures(Settlements(history), n) ensures n == failures {
        TrailingFailuresUnique(Settlements(history), n, failures);
      }
    }
  }
}
