/**
 * squareAsync: reject a negative argument at once, otherwise resolve with its
 * square after a fixed timer. The promise machinery is reduced to how the
 * promise settles.
 */
module DelayedSquare {

  /** The timer delay before the square is delivered, in milliseconds. */
  const DelayMs: nat := 1000

  const NegativeNumberError: string := "Negative number not allowed"

  /**
   * How the returned promise settles: rejected before any timer is scheduled,
   * or resolved with a value once the timer of `delayMs` has fired.
   */
  datatype Settlement = RejectedAtOnce(message: string) | ResolvedAfter(delayMs: nat, value: real)

  /**
   * Rejected, with the source's message and no timer, exactly when `n` is
   * negative; otherwise resolved with `n * n` after the fixed delay.
   */
  function SquareAsync(n: real): (r: Settlement)
    ensures r.RejectedAtOnce? <==> n < 0.0
    ensures r.RejectedAtOnce? ==> r.message == NegativeNumberError
    ensures r.ResolvedAfter? ==> r.delayMs == DelayMs && r.value == n * n && r.value >= 0.0
  {
    if n < 0.0 then RejectedAtOnce(NegativeNumberError)
    else ResolvedAfter(DelayMs, n * n)
  }

  /** On the accepted inputs the result grows with the input. */
  lemma SquareIsMonotone(n: real, m: real)
    requires 0.0 <= n <= m
    ensures SquareAsync(n).value <= SquareAsync(m).value
  {
    assert n * n <= n * m <= m * m;
  }
}
