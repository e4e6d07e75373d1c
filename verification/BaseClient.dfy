/** The HTTP client base class: a retry loop around each request and a circuit breaker around the loop.
    The breaker's rules differ from those of module CircuitBreaker. */
module BaseClient {

  const FAILURE_THRESHOLD: nat := 5
  const COOLDOWN_MS: nat := 10_000

  // ---- executeWithRetry ----

  /** A transport error carries the HTTP status, or none when no response came. */
  datatype Outcome<+T> = Success(value: T) | Failure(status: int)

  const NO_STATUS: int := 0

  predicate Retryable<T>(o: Outcome<T>) {
    o.Failure? && (o.status == NO_STATUS || o.status >= 500)
  }

  /** What the retries did: how many sends, how long they slept, and the outcome reported. */
  datatype Attempts<+T> = Attempts(sends: nat, slept: int, outcome: Outcome<T>)

  /** `transport(k)` is what the k-th send of this request meets. */
  function ExecuteWithRetry<T>(transport: nat -> Outcome<T>, sent: nat, retries: int, backoffMs: int): Attempts<T>
    decreases if retries > 0 then retries else 0
  {
    var o := transport(sent);
    if o.Success? then Attempts(1, 0, o)
    else if retries > 0 && Retryable(o) then
      var rest := ExecuteWithRetry(transport, sent + 1, retries - 1, backoffMs * 2);
      Attempts(1 + rest.sends, backoffMs + rest.slept, rest.outcome)
    else Attempts(1, 0, o)
  }

  /** A send is followed by another one exactly if retries are left and it met a status of 500 or more or no answer:
      success and all other statuses are final. */
  lemma {:induction false} SentAgainIff<T>(transport: nat -> Outcome<T>, sent: nat, retries: int, backoffMs: int,
                                           k: nat)
    requires k < ExecuteWithRetry(transport, sent, retries, backoffMs).sends
    ensures var o := transport(sent + k);
            k + 1 < ExecuteWithRetry(transport, sent, retries, backoffMs).sends
            <==> k < retries && o.Failure? && (o.status == 0 || o.status >= 500)
    decreases k
  {
    if k > 0 {
      SentAgainIff(transport, sent + 1, retries - 1, backoffMs * 2, k - 1);
    }
  }

  function Pow2(n: nat): nat {
    if n == 0 then 1 else 2 * Pow2(n - 1)
  }

  /** The schedule in closed form: with k retries there were k + 1 sends, all but the last met a retryable
      error, b * (2^k - 1) ms were slept, and the outcome is that of the last send, which is a success, a
      final error, or the last the budget allows. */
  lemma {:induction false} RetrySchedule<T>(transport: nat -> Outcome<T>, sent: nat, retries: int, backoffMs: int)
    ensures var r := ExecuteWithRetry(transport, sent, retries, backoffMs);
            var k := r.sends - 1;
            && 0 <= k && (k > 0 ==> k <= retries)
            && r.slept == backoffMs * (Pow2(k) - 1)
            && (forall i :: sent <= i < sent + k ==> Retryable(transport(i)))
            && r.outcome == transport(sent + k)
            && (Retryable(r.outcome) ==> k >= retries)
    decreases if retries > 0 then retries else 0
  {
    if retries > 0 && Retryable(transport(sent)) {
      RetrySchedule(transport, sent + 1, retries - 1, backoffMs * 2);
      var k := ExecuteWithRetry(transport, sent + 1, retries - 1, backoffMs * 2).sends - 1;
      DoubledBackoff(backoffMs, k);
    }
  }

  lemma DoubledBackoff(b: int, k: nat)
    ensures b + (b * 2) * (Pow2(k) - 1) == b * (Pow2(k + 1) - 1)
  {
    var p: int := Pow2(k);
    assert Pow2(k + 1) == 2 * p;
    assert b * (2 * p - 1) == (b * 2) * (p - 1) + b;
  }

  /** The schedule is determined by where the first outcome stands that must not be retried. */
  lemma {:induction false} FirstFinalOutcomeWins<T>(transport: nat -> Outcome<T>, sent: nat, retries: int,
                                                    backoffMs: int, k: nat)
    requires k == 0 || k <= retries
    requires forall i :: sent <= i < sent + k ==> Retryable(transport(i))
    requires !Retryable(transport(sent + k)) || k >= retries
    ensures ExecuteWithRetry(transport, sent, retries, backoffMs)
         == Attempts(k + 1, backoffMs * (Pow2(k) - 1), transport(sent + k))
    decreases k
  {
    if k == 0 {
      assert backoffMs * (Pow2(0) - 1) == 0;
    } else {
      FirstFinalOutcomeWins(transport, sent + 1, retries - 1, backoffMs * 2, k - 1);
      DoubledBackoff(backoffMs, k - 1);
    }
  }

  // ---- the breaker ----

  datatype CircuitState = CLOSED | OPEN | HALF_OPEN

  datatype Circuit = Circuit(state: CircuitState, failureCount: nat, lastFailureTime: int)

  /** `Begin` is the code of `request` up to its first send; `Succeed` and `Fail` are what follows its retries. */
  datatype Event = Begin(at: int) | Succeed | Fail(at: int)

  const Initial: Circuit := Circuit(CLOSED, 0, 0)

  /** Does a request that begins now reach the transport? */
  predicate LetThrough(c: Circuit, at: int) {
    c.state == OPEN ==> at - c.lastFailureTime > COOLDOWN_MS
  }

  function Step(c: Circuit, e: Event): Circuit {
    match e
    case Begin(at) =>
      if c.state == OPEN && LetThrough(c, at) then c.(state := HALF_OPEN) else c
    case Succeed =>
      if c.state == HALF_OPEN then c.(state := CLOSED, failureCount := 0) else c
    case Fail(at) =>
      var n := c.failureCount + 1;
      Circuit(if n >= FAILURE_THRESHOLD then OPEN else c.state, n, at)
  }

  /** The circuit after a history, oldest event first. */
  function Run(es: seq<Event>): Circuit {
    if es == [] then Initial else Step(Run(es[..|es| - 1]), es[|es| - 1])
  }

  /** The i-th event of the history takes the circuit from half open to closed. */
  predicate Recovers(es: seq<Event>, i: nat)
    requires i < |es|
  {
    Run(es[..i]).state == HALF_OPEN && Run(es[..i + 1]).state == CLOSED
  }

  /** `from` is where counting began: the start, or just after the last recovery. */
  ghost predicate CountingSince(es: seq<Event>, from: nat) {
    && from <= |es|
    && (from > 0 ==> Recovers(es, from - 1))
    && forall i :: from <= i < |es| ==> !Recovers(es, i)
  }

  function Failures(es: seq<Event>): nat {
    if es == [] then 0
    else Failures(es[..|es| - 1]) + if es[|es| - 1].Fail? then 1 else 0
  }

  /** The time of the latest failure, or 0 before the first one. */
  function LatestFailure(es: seq<Event>): int {
    if es == [] then 0
    else if es[|es| - 1].Fail? then es[|es| - 1].at
    else LatestFailure(es[..|es| - 1])
  }

  lemma RecoversInPrefix(es: seq<Event>, i: nat)
    requires |es| > 0 && i < |es| - 1
    ensures Recovers(es, i) <==> Recovers(es[..|es| - 1], i)
  {
    assert es[..|es| - 1][..i] == es[..i];
    assert es[..|es| - 1][..i + 1] == es[..i + 1];
  }

  /** A step that is no recovery. */
  lemma CountStep(c: Circuit, e: Event)
    requires (c.state == CLOSED <==> c.failureCount < 5) && !(c.state == HALF_OPEN && Step(c, e).state == CLOSED)
    ensures var c' := Step(c, e);
            && c'.failureCount == c.failureCount + (if e.Fail? then 1 else 0)
            && (c'.state == CLOSED <==> c'.failureCount < 5)
  {
  }

  /** Striking the last event of a stretch that began at `from`. */
  lemma CountingBefore(es: seq<Event>, from: nat)
    requires CountingSince(es, from) && from < |es|
    ensures CountingSince(es[..|es| - 1], from)
  {
    var pre := es[..|es| - 1];
    forall i | from <= i < |pre| ensures !Recovers(pre, i) { RecoversInPrefix(es, i); }
    if from > 0 { RecoversInPrefix(es, from - 1); }
  }

  lemma LastStep(es: seq<Event>)
    requires es != [] && !Recovers(es, |es| - 1)
    ensures Run(es) == Step(Run(es[..|es| - 1]), es[|es| - 1])
    ensures !(Run(es[..|es| - 1]).state == HALF_OPEN && Run(es).state == CLOSED)
  {
    assert es[..|es| - 1 + 1] == es;
  }

  lemma LastFailure(es: seq<Event>, from: nat)
    requires from < |es|
    ensures Failures(es[from..])
         == Failures(es[..|es| - 1][from..]) + if es[|es| - 1].Fail? then 1 else 0
  {
    assert es[from..][..|es[from..]| - 1] == es[..|es| - 1][from..];
  }

  /** In every interleaving the circuit is closed exactly while fewer than five requests have failed since
      counting began, and it remembers the latest failure. */
  lemma {:induction false} ClosedIffFewFailures(es: seq<Event>, from: nat)
    requires CountingSince(es, from)
    ensures Run(es).failureCount == Failures(es[from..])
    ensures Run(es).state == CLOSED <==> Failures(es[from..]) < 5
    ensures Run(es).lastFailureTime == LatestFailure(es)
    decreases |es|
  {
    if es != [] {
      var n := |es| - 1;
      var pre := es[..n];
      if from == |es| {
        assert es[..n + 1] == es && es[from..] == [];
        var before := CountingStart(pre);
        ClosedIffFewFailures(pre, before);
      } else {
        CountingBefore(es, from);
        LastStep(es);
        LastFailure(es, from);
        ClosedIffFewFailures(pre, from);
        CountStep(Run(pre), es[n]);
      }
    }
  }

  /** Counting always began somewhere. */
  lemma {:induction false} CountingStart(es: seq<Event>) returns (from: nat)
    ensures CountingSince(es, from)
    decreases |es|
  {
    if es == [] {
      from := 0;
    } else {
      var n := |es| - 1;
      from := CountingStart(es[..n]);
      if Recovers(es, n) {
        from := |es|;
      } else {
        forall i | from <= i < |es| ensures !Recovers(es, i) {
          if i < n { RecoversInPrefix(es, i); }
        }
        if from > 0 { RecoversInPrefix(es, from - 1); }
      }
    }
  }

  /** Once open, a request is refused exactly until more than ten seconds have passed since the latest
      failure, stragglers' failures included. */
  lemma {:induction false} RefusedUntilCooledDown(es: seq<Event>, at: int)
    ensures Run(es).state == OPEN ==> (LetThrough(Run(es), at) <==> at > LatestFailure(es) + 10_000)
    ensures Run(es).state != OPEN ==> LetThrough(Run(es), at)
  {
    var from := CountingStart(es);
    ClosedIffFewFailures(es, from);
  }

  /** From an open circuit, successes of stragglers, refused requests and stragglers' failures leave it open. */
  lemma {:induction false} OpenStaysOpen(es: seq<Event>, more: seq<Event>)
    requires Run(es).state == OPEN
    requires forall i :: 0 <= i < |more| && more[i].Begin? ==> more[i].at <= LatestFailure(es + more[..i]) + COOLDOWN_MS
    ensures Run(es + more).state == OPEN
    ensures Failures(more) == 0 ==> Run(es + more) == Run(es)
    decreases |more|
  {
    if more == [] {
      assert es + more == es;
    } else {
      var n := |more| - 1;
      var pre := more[..n];
      forall i | 0 <= i < |pre| && pre[i].Begin? ensures pre[i].at <= LatestFailure(es + pre[..i]) + COOLDOWN_MS {
        assert pre[..i] == more[..i];
      }
      OpenStaysOpen(es, pre);
      OpenStep(es + pre, more[n]);
      assert (es + pre) + [more[n]] == es + more;
    }
  }

  lemma OpenStep(es: seq<Event>, e: Event)
    requires Run(es).state == OPEN && (e.Begin? ==> e.at <= LatestFailure(es) + COOLDOWN_MS)
    ensures Run(es + [e]).state == OPEN && (!e.Fail? ==> Run(es + [e]) == Run(es))
  {
    assert (es + [e])[..|es|] == es;
    var from := CountingStart(es);
    ClosedIffFewFailures(es, from);
  }

  function WithoutSuccesses(es: seq<Event>): seq<Event> {
    if es == [] then []
    else WithoutSuccesses(es[..|es| - 1]) + if es[|es| - 1].Succeed? then [] else [es[|es| - 1]]
  }

  /** Until the circuit first opens successes do not count at all, although the log calls the failures
      consecutive: striking every success from the history gives the same circuit. */
  lemma {:induction false} SuccessesDoNotReset(es: seq<Event>)
    requires forall i :: 0 <= i < |es| ==> Run(es[..i]).state == CLOSED
    ensures Run(WithoutSuccesses(es)) == Run(es)
  {
    if es != [] {
      var n := |es| - 1;
      forall i | 0 <= i < n ensures Run(es[..n][..i]).state == CLOSED {
        assert es[..n][..i] == es[..i];
      }
      SuccessesDoNotReset(es[..n]);
      assert Run(es[..n]).state == CLOSED;
      if es[n].Succeed? {
        assert WithoutSuccesses(es) == WithoutSuccesses(es[..n]);
      } else {
        assert WithoutSuccesses(es)[..|WithoutSuccesses(es)| - 1] == WithoutSuccesses(es[..n]);
      }
    }
  }

  /** Requests let through and not yet over. */
  function InFlight(es: seq<Event>): int {
    if es == [] then 0
    else
      var before, e := es[..|es| - 1], es[|es| - 1];
      InFlight(before) + if !e.Begin? then -1 else if LetThrough(Run(before), e.at) then 1 else 0
  }

  /** A history the code can produce: only a request that was let through succeeds or fails. */
  ghost predicate Producible(es: seq<Event>) {
    forall n :: 0 <= n <= |es| ==> InFlight(es[..n]) >= 0
  }

  /** One request after another, with these outcomes: true for a success. */
  function OneByOne(outcomes: seq<bool>, t: int): seq<Event> {
    if outcomes == [] then []
    else
      var n := |outcomes| - 1;
      OneByOne(outcomes[..n], t) + [Begin(t), if outcomes[n] then Succeed else Fail(t)]
  }

  function Failed(outcomes: seq<bool>): nat {
    if outcomes == [] then 0
    else Failed(outcomes[..|outcomes| - 1]) + if outcomes[|outcomes| - 1] then 0 else 1
  }

  lemma TwoMore(es: seq<Event>, a: Event, b: Event)
    requires Producible(es) && a.Begin? && LetThrough(Run(es), a.at) && !b.Begin?
    ensures Run(es + [a, b]) == Step(Step(Run(es), a), b)
    ensures InFlight(es + [a, b]) == InFlight(es) && Producible(es + [a, b])
  {
    var es1, es2 := es + [a], es + [a, b];
    assert es1[..|es|] == es && es2[..|es| + 1] == es1;
    forall n | 0 <= n <= |es2| ensures InFlight(es2[..n]) >= 0 {
      if n <= |es| {
        assert es2[..n] == es[..n];
      } else if n == |es2| {
        assert es2[..n] == es2 && es == es[..|es|];
      }
    }
  }

  lemma {:induction false} ClosedBelowFive(outcomes: seq<bool>, t: int)
    requires Failed(outcomes) < FAILURE_THRESHOLD
    ensures var es, f := OneByOne(outcomes, t), Failed(outcomes);
            Producible(es) && InFlight(es) == 0 && Run(es) == Circuit(CLOSED, f, if f == 0 then 0 else t)
  {
    if outcomes == [] {
      var es := OneByOne(outcomes, t);
      assert es[..0] == es == [];
    } else {
      var n := |outcomes| - 1;
      ClosedBelowFive(outcomes[..n], t);
      TwoMore(OneByOne(outcomes[..n], t), Begin(t), if outcomes[n] then Succeed else Fail(t));
    }
  }

  /** Requests made one after another: the fifth failure opens the circuit, however many successes stand between
      the failures, and until then it is closed. */
  lemma OpensWithoutFiveInARow(outcomes: seq<bool>, t: int)
    requires Failed(outcomes) == 4
    ensures Run(OneByOne(outcomes, t)).state == CLOSED
    ensures var es := OneByOne(outcomes + [false], t); Producible(es) && Run(es).state == OPEN
  {
    ClosedBelowFive(outcomes, t);
    assert (outcomes + [false])[..|outcomes|] == outcomes;
    TwoMore(OneByOne(outcomes, t), Begin(t), Fail(t));
  }

  // ---- the object ----

  class BaseClient {
    var circuitState: CircuitState
    var failureCount: nat
    var lastFailureTime: int
    ghost var history: seq<Event>

    ghost predicate Valid()
      reads this
    {
      Circuit(circuitState, failureCount, lastFailureTime) == Run(history)
    }

    constructor ()
      ensures Valid() && history == []
    {
      circuitState, failureCount, lastFailureTime := CLOSED, 0, 0;
      history := [];
    }

    /** The start of `request`: a request that is not let through throws without sending. */
    method BeginRequest(now: int) returns (sends: bool)
      requires Valid()
      modifies this
      ensures Valid() && history == old(history) + [Begin(now)]
      ensures old(circuitState) != OPEN ==> sends && circuitState == old(circuitState)
      ensures old(circuitState) == OPEN ==> (sends <==> now > LatestFailure(old(history)) + COOLDOWN_MS)
      ensures old(circuitState) == OPEN ==> circuitState == if sends then HALF_OPEN else OPEN
    {
      RefusedUntilCooledDown(history, now);
      Extend(Begin(now));
      if circuitState == OPEN {
        if now - lastFailureTime > COOLDOWN_MS {
          circuitState := HALF_OPEN;
        } else {
          return false;
        }
      }
      return true;
    }

    method RequestSucceeded()
      requires Valid()
      modifies this
      ensures Valid() && history == old(history) + [Succeed]
      ensures circuitState == if old(circuitState) == HALF_OPEN then CLOSED else old(circuitState)
      ensures failureCount == if old(circuitState) == HALF_OPEN then 0 else old(failureCount)
    {
      Extend(Succeed);
      if circuitState == HALF_OPEN {
        circuitState := CLOSED;
        failureCount := 0;
      }
    }

    /** One failure per request, however many sends its retries made. */
    method HandleFailure(now: int)
      requires Valid()
      modifies this
      ensures Valid() && history == old(history) + [Fail(now)]
      ensures failureCount == old(failureCount) + 1 && lastFailureTime == now
      ensures circuitState == if failureCount >= FAILURE_THRESHOLD then OPEN else old(circuitState)
    {
      Extend(Fail(now));
      failureCount := failureCount + 1;
      lastFailureTime := now;
      if failureCount >= FAILURE_THRESHOLD {
        circuitState := OPEN;
      }
    }

    ghost method Extend(e: Event)
      modifies this`history
      ensures history == old(history) + [e]
      ensures Run(history) == Step(Run(old(history)), e)
    {
      history := history + [e];
      assert history[..|history| - 1] == old(history);
    }
  }
}
