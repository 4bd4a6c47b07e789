/** Go's `int` on the 64-bit platforms the service is built for. */
module GoInt {

  const Modulus: int := 0x1_0000_0000_0000_0000
  const MinInt: int := -0x8000_0000_0000_0000
  const MaxInt: int := 0x7FFF_FFFF_FFFF_FFFF

  predicate InRange(x: int) {
    MinInt <= x <= MaxInt
  }

  /** `x++` on a Go `int`: two's-complement, so the largest value wraps to the smallest. */
  function Increment(x: int): (r: int)
    requires InRange(x)
    ensures InRange(r)
    ensures (r - x == 1) || (r - x == 1 - Modulus)
    ensures r < x <==> x == MaxInt
  {
    if x == MaxInt then MinInt else x + 1
  }

  /**
   * The value of the service's id counter after `k` submissions, as the Go
   * code computes it: it starts at 1 and every submission applies `++`.
   * Submission number `k + 1` is stamped with `CounterAfter(k)`.
   */
  function CounterAfter(k: nat): (r: int)
    ensures InRange(r)
  {
    if k == 0 then 1 else Increment(CounterAfter(k - 1))
  }

  /**
   * Closed form of the counter over its first 2^64 + 2^63 - 1 steps: `1 + k`
   * while that fits, and `1 + k - 2^64` once it has wrapped.
   */
  lemma {:induction false} CounterAfterClosedForm(k: nat)
    requires k + 1 <= MaxInt + Modulus
    ensures CounterAfter(k) == if k + 1 <= MaxInt then k + 1 else k + 1 - Modulus
  {
    if k > 0 {
      CounterAfterClosedForm(k - 1);
    }
  }

  /**
   * The id counter as written overflows: the submission that follows
   * 2^63 - 1 earlier ones is stamped with a negative id, smaller than every id
   * stamped before it, and after 2^64 submissions the first id, 1, is
   * handed out again.
   */
  lemma CounterWrapsAndRepeats()
    ensures CounterAfter(MaxInt - 1) == MaxInt
    ensures CounterAfter(MaxInt) == MinInt
    ensures CounterAfter(Modulus) == CounterAfter(0) == 1
  {
    CounterAfterClosedForm(MaxInt - 1);
    CounterAfterClosedForm(MaxInt);
    CounterAfterClosedForm(Modulus);
  }
}
