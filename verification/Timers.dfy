/** The timer constants of RFC 3261, in milliseconds, and the doubling they drive. */
module Timers {
  import opened Wrappers

  const T1: nat := 500
  const T2: nat := 4000
  const T4: nat := 5000

  function Pow2(n: nat): (p: nat)
    ensures p >= n + 1
  {
    if n == 0 then 1 else 2 * Pow2(n - 1)
  }

  /** When, after a wait starts, its k-th doubled interval has run out. */
  function Backoff(k: nat): (t: nat)
    ensures t >= T1 * k
  {
    T1 * (Pow2(k) - 1)
  }

  lemma Pow2Monotone(m: nat, n: nat)
    requires m <= n
    ensures Pow2(m) <= Pow2(n)
  {
    if m < n { Pow2Monotone(m, n - 1); }
  }
}
