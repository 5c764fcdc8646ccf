// The state the simulator assigns to unrounded values against the state the
// service recomputes from the rounded fields of the same sample.
module RoundedState {
  import opened Rounding
  import opened Measurement
  import opened Simulator

  function RawSeverity(winding: real, oil: real, load: real): nat
  {
    Severity(ClassifyState(winding, oil, load))
  }

  function ReportedSeverity(winding: real, oil: real, load: real): nat
  {
    Severity(ClassifyState(Round1(winding), Round1(oil), Round1(load)))
  }

  /** Rounding to tenths moves a threshold by half a tenth. */
  lemma RoundedThreshold(x: real, n: int)
    requires n > 0
    ensures Round1(x) >= n as real <==> x >= n as real - 0.05
    ensures Round1(x) > n as real <==> x >= n as real + 0.05
  {
    if x > 0.0 {
      RoundAgainst(x * 10.0, 10 * n);
    } else {
      Round1Monotone(x, 0.0);
    }
  }

  lemma RoundedThresholds(winding: real, oil: real, load: real)
    ensures ReportedSeverity(winding, oil, load) ==
            (if winding >= 104.95 || oil >= 99.95 || load >= 139.95 then 2
             else if winding >= 94.95 || oil >= 89.95 || load >= 100.05 then 1
             else 0)
  {
    ClassifiedSeverity(Round1(winding), Round1(oil), Round1(load));
    RoundedThreshold(winding, 105);
    RoundedThreshold(winding, 95);
    RoundedThreshold(oil, 100);
    RoundedThreshold(oil, 90);
    RoundedThreshold(load, 140);
    RoundedThreshold(load, 100);
  }

  /** Less severe after rounding exactly when an overload below 100.05 was the only trigger. */
  lemma DowngradedExactly(winding: real, oil: real, load: real)
    ensures ReportedSeverity(winding, oil, load) < RawSeverity(winding, oil, load)
            <==> 100.0 < load < 100.05 && Round1(winding) < WARNING_WINDING && Round1(oil) < WARNING_OIL
  {
    ClassifiedSeverity(winding, oil, load);
    RoundedThresholds(winding, oil, load);
    RoundedThreshold(winding, 95);
    RoundedThreshold(oil, 90);
  }

  /** A reading that rounds up onto its threshold. */
  predicate JustBelow(x: real, threshold: real)
  {
    threshold - 0.05 <= x < threshold
  }

  /** More severe after rounding exactly when a reading rounds up onto a threshold and nothing already exceeds it. */
  lemma UpgradedExactly(winding: real, oil: real, load: real)
    ensures ReportedSeverity(winding, oil, load) > RawSeverity(winding, oil, load)
            <==> || (RawSeverity(winding, oil, load) < 2 &&
                     (JustBelow(winding, CRITICAL_WINDING) || JustBelow(oil, CRITICAL_OIL) || JustBelow(load, CRITICAL_LOAD)))
                 || (RawSeverity(winding, oil, load) < 1 && (JustBelow(winding, WARNING_WINDING) || JustBelow(oil, WARNING_OIL)))
  {
    ClassifiedSeverity(winding, oil, load);
    RoundedThresholds(winding, oil, load);
  }

  /** Not within half a tenth of a threshold. */
  predicate Clear(x: real, threshold: real)
  {
    x < threshold - 0.05 || threshold + 0.05 <= x
  }

  lemma ClearReadingsAgree(winding: real, oil: real, load: real)
    requires Clear(winding, CRITICAL_WINDING) && Clear(winding, WARNING_WINDING)
    requires Clear(oil, CRITICAL_OIL) && Clear(oil, WARNING_OIL)
    requires Clear(load, CRITICAL_LOAD) && Clear(load, OVERLOAD)
    ensures ClassifyState(Round1(winding), Round1(oil), Round1(load)) == ClassifyState(winding, oil, load)
  {
    ClassifiedSeverity(winding, oil, load);
    RoundedThresholds(winding, oil, load);
    ClassifiedSeverity(Round1(winding), Round1(oil), Round1(load));
    SeverityInjective(ClassifyState(Round1(winding), Round1(oil), Round1(load)), ClassifyState(winding, oil, load));
  }

  /**
   * In every run, the state test of the silver models passes for a sample
   * exactly when rounding changed its severity neither way.
   */
  lemma SampleIsNormalExactly(w: World, n: nat, i: nat)
    requires GoodWorld(w) && i < |w.fleet| && n > 0
    ensures var u, load := UnitAt(w, n, i), LoadAt(w, n, i);
            EmittedAt(w, n, i) == Normalize(EmittedAt(w, n, i))
            <==> ReportedSeverity(u.winding, u.oil, load) == RawSeverity(u.winding, u.oil, load)
  {
    TickEquations(w, n, i);
    SameStateExactly(EmittedAt(w, n, i), UnitAt(w, n, i), LoadAt(w, n, i));
  }

  lemma SameStateExactly(m: Measurement, u: Unit, load: real)
    requires m.load == Round1(load) && m.oil == Round1(u.oil) && m.winding == Round1(u.winding)
    requires m.state == ClassifyState(u.winding, u.oil, load)
    ensures m == Normalize(m) <==> ReportedSeverity(u.winding, u.oil, load) == RawSeverity(u.winding, u.oil, load)
  {
    ClassifiedSeverity(u.winding, u.oil, load);
    ClassifiedSeverity(m.winding, m.oil, m.load);
    SeverityInjective(m.state, ClassifyState(m.winding, m.oil, m.load));
  }
}
