/** Waiting for a workflow on the AI platform: poll once a second until the status is terminal or the
    timeout budget is spent, and report the status last observed. */
module Polling {
  import opened Basics


  const POLL_INTERVAL_MS: nat := 1000

  predicate Terminal(status: string) {
    status == "SUCCESS" || status == "FAILED" || status == "DEAD"
  }

  /** What the platform and the clock do: the status at the start, the answer to each poll (none if the
      request throws), and the time each round takes, sleep included. */
  datatype Platform = Platform(initial: string, answer: nat -> Option<string>, round: nat -> nat)

  /** Sleeping never ends early. */
  ghost predicate Punctual(p: Platform) {
    forall k :: p.round(k) >= POLL_INTERVAL_MS
  }

  function Elapsed(p: Platform, rounds: nat): nat {
    if rounds == 0 then 0 else Elapsed(p, rounds - 1) + p.round(rounds - 1)
  }

  /** The status known after some polls. */
  function Observed(p: Platform, polls: nat): Option<string> {
    if polls == 0 then Some(p.initial) else p.answer(polls - 1)
  }

  /** No further poll is made after this many. */
  predicate Stops(p: Platform, timeoutMs: int, polls: nat) {
    || Observed(p, polls).None?
    || Observed(p, polls).value in ["SUCCESS", "FAILED", "DEAD"]
    || Elapsed(p, polls) >= timeoutMs
  }

  lemma {:induction false} RoundsTakeTime(p: Platform, rounds: nat)
    requires Punctual(p)
    ensures Elapsed(p, rounds) >= rounds * POLL_INTERVAL_MS
  {
    if rounds > 0 {
      RoundsTakeTime(p, rounds - 1);
      assert p.round(rounds - 1) >= POLL_INTERVAL_MS;
    }
  }

  /** `enqueueAndAwait` after the workflow was queued at time `start`. The number of polls is the least at
      which polling stops, so the status reported is the first terminal one, or the one known when the time
      ran out, or none when a poll threw. */
  method EnqueueAndAwait(p: Platform, start: int, timeoutMs: int) returns (last: Option<string>, polls: nat)
    requires Punctual(p)
    ensures last == Observed(p, polls) && Stops(p, timeoutMs, polls)
    ensures forall k :: 0 <= k < polls ==> !Stops(p, timeoutMs, k)
    ensures polls > 0 ==> (polls - 1) * POLL_INTERVAL_MS < timeoutMs
  {
    var deadline := start + timeoutMs;
    var now := start;
    last, polls := Some(p.initial), 0;
    while now < deadline
      invariant now == start + Elapsed(p, polls)
      invariant last == Observed(p, polls) && last.Some?
      invariant forall k :: 0 <= k < polls ==> !Stops(p, timeoutMs, k)
      invariant polls > 0 ==> (polls - 1) * POLL_INTERVAL_MS < timeoutMs
      decreases deadline - now
    {
      if Terminal(last.value) {
        break;
      }
      RoundsTakeTime(p, polls);
      assert p.round(polls) >= POLL_INTERVAL_MS;
      now := now + p.round(polls);
      last := p.answer(polls);
      polls := polls + 1;
      if last.None? {
        return;
      }
    }
  }

  /** `submitToolResult` returns a terminal first status at once; otherwise it is the same loop. */
  method SubmitToolResult(p: Platform, start: int, timeoutMs: int) returns (last: Option<string>, polls: nat)
    requires Punctual(p)
    ensures last == Observed(p, polls) && Stops(p, timeoutMs, polls)
    ensures forall k :: 0 <= k < polls ==> !Stops(p, timeoutMs, k)
  {
    if Terminal(p.initial) {
      return Some(p.initial), 0;
    }
    last, polls := EnqueueAndAwait(p, start, timeoutMs);
  }

  /** With the default budget of 30 seconds there are at most 30 polls, and the outcome is determined. */
  lemma PollsBounded(p: Platform, timeoutMs: int, polls: nat)
    requires Punctual(p) && forall k :: 0 <= k < polls ==> !Stops(p, timeoutMs, k)
    ensures polls * POLL_INTERVAL_MS < timeoutMs + POLL_INTERVAL_MS || polls == 0
    ensures timeoutMs == 30_000 ==> polls <= 30
  {
    if polls > 0 {
      RoundsTakeTime(p, polls - 1);
      assert !Stops(p, timeoutMs, polls - 1);
    }
  }
}
