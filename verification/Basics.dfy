/** Shared by several modules. */
module Basics {

  datatype Option<+T> = None | Some(value: T)

  /** In a log of outcomes, oldest first, exactly the last `n` are failures. */
  predicate TrailingFailures(log: seq<bool>, n: nat) {
    && n <= |log|
    && (forall i :: |log| - n <= i < |log| ==> !log[i])
    && (n < |log| ==> log[|log| - n - 1])
  }

  lemma TrailingFailuresUnique(log: seq<bool>, m: nat, n: nat)
    requires TrailingFailures(log, m) && TrailingFailures(log, n)
    ensures m == n
  {
  }
}
