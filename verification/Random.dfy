// The pseudo-random source: an arbitrary stream of draws in [0, 1), one per call.
module Random {

  /** The n-th draw. */
  function DrawAt(r: nat -> real, n: nat): real
  {
    r(n)
  }

  ghost predicate UnitStream(r: nat -> real)
  {
    forall n: nat {:trigger r(n)} :: 0.0 <= r(n) < 1.0
  }
}
