/** Time: instants and durations in nanoseconds, and the whole seconds some expiries are kept in. */
module Clock {
  const SECOND: nat := 1_000_000_000

  // time.Time.Unix.
  function Unix(t: nat): nat {
    t / SECOND
  }

  lemma UnixMonotone(a: nat, b: nat)
    requires a <= b
    ensures Unix(a) <= Unix(b)
  {
  }

  lemma UnixBounds(a: nat, b: nat)
    requires Unix(a) <= Unix(b)
    ensures a < b + SECOND
  {
  }
}
