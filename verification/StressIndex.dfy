// The thermal stress index against the operating states.
module StressIndex {
  import opened Wrappers
  import opened Rounding
  import opened Measurement
  import opened Silver

  function Index(winding: real, oil: real, load: real): real
  {
    StressIndex(Some(winding), Some(oil), Some(load))
  }

  /** The blend before rounding and capping. */
  function Blend(winding: real, oil: real, load: real): real
  {
    0.5 * RMax(winding, 0.0) / 105.0 + 0.3 * RMax(oil, 0.0) / 100.0 + 0.2 * RMax(load, 0.0) / 140.0
  }

  lemma IndexInRange(winding: Option<real>, oil: Option<real>, load: Option<real>)
    ensures 0.0 <= StressIndex(winding, oil, load) <= 1.0
  {
    var b := RMin(1.0, Blend(OrZero(winding), OrZero(oil), OrZero(load)));
    RoundAgainst(b * 1000.0, 0);
    RoundAgainst(b * 1000.0, 1000);
  }

  lemma IndexMonotone(w1: real, o1: real, l1: real, w2: real, o2: real, l2: real)
    requires w1 <= w2 && o1 <= o2 && l1 <= l2
    ensures Index(w1, o1, l1) <= Index(w2, o2, l2)
  {
    RoundMonotone(RMin(1.0, Blend(w1, o1, l1)) * 1000.0, RMin(1.0, Blend(w2, o2, l2)) * 1000.0);
  }

  /**
   * Half for the winding at 105 degrees, three tenths for the oil at 100, two for
   * the load at 140 percent, in proportion below, to a half of a thousandth.
   */
  lemma IndexWeights(winding: real, oil: real, load: real)
    requires 0.0 <= winding && 0.0 <= oil && 0.0 <= load
    requires winding / 210.0 + 0.003 * oil + load / 700.0 <= 1.0
    ensures -0.0005 <= Index(winding, oil, load) - (winding / 210.0 + 0.003 * oil + load / 700.0) <= 0.0005
  {
    RoundNear(Blend(winding, oil, load) * 1000.0);
  }

  /** At or beyond a full blend the index is capped, and readings below zero count as zero. */
  lemma IndexEnds(winding: real, oil: real, load: real)
    ensures winding / 210.0 + 0.003 * oil + load / 700.0 >= 1.0 && winding >= 0.0 && oil >= 0.0 && load >= 0.0 ==>
              Index(winding, oil, load) == 1.0
    ensures Index(winding, oil, load) == Index(RMax(winding, 0.0), RMax(oil, 0.0), RMax(load, 0.0))
  {
    RoundUnique(1000.0, 1000);
  }

  /** A reading with one decimal. */
  predicate Tenth(x: real)
  {
    (x * 10.0).Floor as real == x * 10.0
  }

  /** Below a bound that is itself a tenth, a one-decimal reading stays a tenth away. */
  lemma TenthBelow(x: real, n: int)
    requires Tenth(x) && x * 10.0 < n as real
    ensures x * 10.0 <= (n - 1) as real
  {
    var k := (x * 10.0).Floor;
    assert k < n;
  }

  /** For one-decimal readings, an index of 1.000 is only reached in CRITICAL. */
  lemma FullIndexIsCritical(winding: real, oil: real, load: real)
    requires Tenth(winding) && Tenth(oil) && Tenth(load)
    requires Index(winding, oil, load) == 1.0
    ensures ClassifyState(winding, oil, load) == STATE_CRITICAL
  {
    if ClassifyState(winding, oil, load) != STATE_CRITICAL {
      TenthBelow(winding, 1050);
      TenthBelow(oil, 1000);
      TenthBelow(load, 1400);
      IndexMonotone(winding, oil, load, 104.9, 99.9, 139.9);
      BlendBelowCritical();
    }
  }

  lemma BlendBelowCritical()
    ensures Index(104.9, 99.9, 139.9) < 1.0
  {
    var b := Blend(104.9, 99.9, 139.9);
    assert b < 0.9992;
    RoundUnique(RMin(1.0, b) * 1000.0, 999);
  }

  /** NORMAL keeps the index at or below 0.865. */
  lemma NormalBoundsIndex(winding: real, oil: real, load: real)
    requires ClassifyState(winding, oil, load) == STATE_NORMAL
    ensures Index(winding, oil, load) <= 0.865
  {
    StatesDiffer();
    IndexMonotone(winding, oil, load, 95.0, 90.0, 100.0);
    var b := Blend(95.0, 90.0, 100.0);
    assert 0.8652 < b < 0.8653;
    RoundUnique(RMin(1.0, b) * 1000.0, 865);
  }
}
