/** The back-off table both delivery stacks share, and how each indexes it. */
module Backoff {
  const BACKOFF_DELAYS: seq<int> := [0, 1000, 10000, 30000, 300000]
  const MAX_ATTEMPTS := 4
  const DEFAULT_DELAY := 300000
  const MIN_DELAY := 1000

  /** BACKOFF_DELAYS[attemptNumber] || 300000: an index out of the table gives
      undefined, and 0 is falsy too. */
  function Delay(attemptNumber: int): int {
    if 0 <= attemptNumber < |BACKOFF_DELAYS| && BACKOFF_DELAYS[attemptNumber] != 0
    then BACKOFF_DELAYS[attemptNumber] else DEFAULT_DELAY
  }

  /** BACKOFF_DELAYS[Math.min(currentAttempt, length - 1)], in the use-case stack. */
  function UseCaseDelay(currentAttempt: nat): int {
    BACKOFF_DELAYS[if currentAttempt < |BACKOFF_DELAYS| then currentAttempt else |BACKOFF_DELAYS| - 1]
  }

  /** The delays in milliseconds, and the number of attempts; beyond the table, and for
      the 0 at its start, the wired stack waits 5 minutes. */
  lemma DelayTable(n: int)
    ensures Delay(n) == if n == 1 then 1000 else if n == 2 then 10000 else if n == 3 then 30000 else 300000
    ensures n >= 0 ==> UseCaseDelay(n) == if n == 0 then 0 else if n < 4 then Delay(n) else 300000
    ensures MAX_ATTEMPTS == 4
  {
    assert BACKOFF_DELAYS == [0, 1000, 10000, 30000, 300000];
  }

  /** No attempt number whatever makes the wired stack wait less than 1000 ms,
      although the table starts with 0. */
  lemma MinimumDelay(attemptNumber: int)
    ensures Delay(attemptNumber) >= MIN_DELAY
    ensures Delay(attemptNumber) == MIN_DELAY <==> attemptNumber == 1
  {
  }
}
