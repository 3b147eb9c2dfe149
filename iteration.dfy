/**
 * Repeated application of one step function, and the algebra of repeat
 * counts, stated once for any state type.
 */
module Iteration {
  /** `n` applications of `f`, starting from `t`. */
  function Iterate<T>(f: T -> T, t: T, n: nat): T
  {
    if n == 0 then t else f(Iterate(f, t, n - 1))
  }

  /** Applying `f` `m` times and then `n` more times is applying it `m + n` times. */
  lemma {:induction false} IterateAdd<T>(f: T -> T, t: T, m: nat, n: nat)
    ensures Iterate(f, Iterate(f, t, m), n) == Iterate(f, t, m + n)
  {
    if n > 0 {
      IterateAdd(f, t, m, n - 1);
    }
  }
}
