// The first-order lag on its own: composition of steps, no overshoot, and the
// distance between two trajectories.
module ThermalLag {
  import opened Analysis
  import opened Physics

  function SumOf(dts: seq<real>): real
  {
    if dts == [] then 0.0 else SumOf(dts[..|dts| - 1]) + dts[|dts| - 1]
  }

  /** Successive steps, each toward its own target. */
  function Trajectory(a: Analysis, start: real, targets: seq<real>, tau: real, dts: seq<real>): real
    requires |targets| == |dts|
  {
    if dts == [] then start
    else
      var n := |dts| - 1;
      ThermalStep(a, Trajectory(a, start, targets[..n], tau, dts[..n]), targets[n], tau, dts[n])
  }

  // ---- the lag as arithmetic ----

  /** The gap to the target is multiplied by the fraction left. */
  lemma LagGap(c: real, t: real, q: real)
    ensures Lag(c, t, q) - t == Product(c - t, q)
  {
  }

  lemma LagBetween(c: real, t: real, q: real)
    requires 0.0 <= q <= 1.0
    ensures c <= t ==> c <= Lag(c, t, q) <= t
    ensures c >= t ==> t <= Lag(c, t, q) <= c
    ensures 0.0 < q < 1.0 && c < t ==> c < Lag(c, t, q) < t
    ensures 0.0 < q < 1.0 && c > t ==> t < Lag(c, t, q) < c
  {
    LagGap(c, t, q);
    FractionOfGap(c - t, q);
  }

  lemma FractionOfGap(g: real, q: real)
    requires 0.0 <= q <= 1.0
    ensures g <= 0.0 ==> g <= Product(g, q) <= 0.0
    ensures g >= 0.0 ==> 0.0 <= Product(g, q) <= g
    ensures 0.0 < q < 1.0 && g < 0.0 ==> g < Product(g, q) < 0.0
    ensures 0.0 < q < 1.0 && g > 0.0 ==> 0.0 < Product(g, q) < g
  {
    if g >= 0.0 {
      PositiveFraction(g, q);
    } else {
      PositiveFraction(-g, q);
      ProductNegates(g, q);
    }
  }

  lemma ProductNegates(x: real, y: real)
    ensures Product(-x, y) == -Product(x, y)
  {
  }

  lemma PositiveFraction(g: real, q: real)
    requires 0.0 <= q <= 1.0 && g >= 0.0
    ensures 0.0 <= Product(g, q) <= g
    ensures 0.0 < q < 1.0 && g > 0.0 ==> 0.0 < Product(g, q) < g
  {
    ProductSigns(g, q);
    ProductSigns(g, 1.0 - q);
    ProductDistributes(g, 1.0, q);
  }

  /** A lag is a weighted mean of where it is and where it goes. */
  lemma LagIsMean(c: real, t: real, q: real)
    ensures Lag(c, t, q) == Product(c, q) + Product(t, 1.0 - q)
  {
  }

  lemma LagMonotone(c1: real, c2: real, t1: real, t2: real, q: real)
    requires 0.0 <= q <= 1.0 && c1 <= c2 && t1 <= t2
    ensures Lag(c1, t1, q) <= Lag(c2, t2, q)
  {
    LagIsMean(c1, t1, q);
    LagIsMean(c2, t2, q);
    ProductMonotone(c1, c2, q);
    ProductMonotone(t1, t2, 1.0 - q);
  }

  lemma LagWithin(c: real, t: real, q: real, lo: real, hi: real)
    requires 0.0 <= q <= 1.0 && lo <= c <= hi && lo <= t <= hi
    ensures lo <= Lag(c, t, q) <= hi
  {
    LagBetween(c, t, q);
  }

  lemma LagDifference(u: real, v: real, t: real, q: real)
    ensures Lag(u, t, q) - Lag(v, t, q) == Product(u - v, q)
  {
  }

  // ---- decay factors ----

  lemma QuotientSign(x: real, y: real)
    requires y > 0.0
    ensures x >= 0.0 ==> Quotient(x, y) >= 0.0
    ensures x > 0.0 ==> Quotient(x, y) > 0.0
    ensures x == 0.0 ==> Quotient(x, y) == 0.0
  {
  }

  lemma QuotientAdds(x: real, y: real, s: real, d: real)
    requires d > 0.0 && s == x + y
    ensures Quotient(s, d) == Quotient(x, d) + Quotient(y, d)
  {
  }

  /** The decay factor of a step lies in (0, 1], and below one when time passes. */
  lemma DecayBounds(a: Analysis, dt: real, tau: real)
    requires Lawful(a) && tau > 0.0 && dt >= 0.0
    ensures 0.0 < Decay(a, dt, tau) <= 1.0
    ensures dt > 0.0 ==> Decay(a, dt, tau) < 1.0
  {
    QuotientSign(dt, tau);
    DecayInUnit(a, Quotient(dt, tau));
  }

  lemma DecayAdds(a: Analysis, s: real, d: real, total: real, tau: real)
    requires Lawful(a) && tau > 0.0 && total == s + d
    ensures Decay(a, total, tau) == Product(Decay(a, s, tau), Decay(a, d, tau))
  {
    QuotientAdds(s, d, total, tau);
    ExpAdd(a, -Quotient(s, tau), -Quotient(d, tau), -Quotient(total, tau));
  }

  lemma NoTimeNoDecay(a: Analysis, tau: real)
    requires Lawful(a) && tau > 0.0
    ensures Decay(a, 0.0, tau) == 1.0
  {
    QuotientSign(0.0, tau);
  }

  // ---- laws of whole trajectories ----

  /** A step never passes its target and never moves away from it. */
  lemma StepBetween(a: Analysis, current: real, target: real, tau: real, dt: real)
    requires Lawful(a) && tau > 0.0 && dt >= 0.0
    ensures var next := ThermalStep(a, current, target, tau, dt);
            && (current <= target ==> current <= next <= target)
            && (current >= target ==> target <= next <= current)
            && (dt > 0.0 && current < target ==> current < next < target)
            && (dt > 0.0 && current > target ==> target < next < current)
  {
    DecayBounds(a, dt, tau);
    LagBetween(current, target, Decay(a, dt, tau));
  }

  lemma DistanceStep(a: Analysis, u: real, v: real, target: real, tau: real, g: real, s: real, d: real, total: real)
    requires Lawful(a) && tau > 0.0 && u - v == Product(g, Decay(a, s, tau)) && total == s + d
    ensures ThermalStep(a, u, target, tau, d) - ThermalStep(a, v, target, tau, d) == Product(g, Decay(a, total, tau))
  {
    LagDifference(u, v, target, Decay(a, d, tau));
    DecayAdds(a, s, d, total, tau);
    ProductAssociative(g, Decay(a, s, tau), Decay(a, d, tau));
  }

  /** Under the same targets, the distance of two trajectories decays with the elapsed time alone. */
  lemma {:induction false} DistanceDecays(a: Analysis, x: real, y: real, targets: seq<real>, tau: real, dts: seq<real>)
    requires Lawful(a) && tau > 0.0 && |targets| == |dts|
    ensures Trajectory(a, x, targets, tau, dts) - Trajectory(a, y, targets, tau, dts)
            == Product(x - y, Decay(a, SumOf(dts), tau))
  {
    if dts == [] {
      NoTimeNoDecay(a, tau);
    } else {
      var n := |dts| - 1;
      DistanceDecays(a, x, y, targets[..n], tau, dts[..n]);
      DistanceStep(a, Trajectory(a, x, targets[..n], tau, dts[..n]), Trajectory(a, y, targets[..n], tau, dts[..n]),
                   targets[n], tau, x - y, SumOf(dts[..n]), dts[n], SumOf(dts));
    }
  }

  lemma StepAtTarget(a: Analysis, target: real, tau: real, dt: real)
    ensures ThermalStep(a, target, target, tau, dt) == target
  {
  }

  /** A trajectory that starts at its constant target stays there. */
  lemma {:induction false} TargetIsFixed(a: Analysis, target: real, tau: real, dts: seq<real>)
    ensures Trajectory(a, target, seq(|dts|, _ => target), tau, dts) == target
  {
    if dts != [] {
      var n := |dts| - 1;
      assert seq(|dts|, _ => target)[..n] == seq(n, _ => target);
      TargetIsFixed(a, target, tau, dts[..n]);
      StepAtTarget(a, target, tau, dts[n]);
    }
  }

  /** With one target, steps of any sizes amount to a single step of their sum. */
  lemma StepsCompose(a: Analysis, start: real, target: real, tau: real, dts: seq<real>)
    requires Lawful(a) && tau > 0.0
    ensures Trajectory(a, start, seq(|dts|, _ => target), tau, dts) == ThermalStep(a, start, target, tau, SumOf(dts))
  {
    DistanceDecays(a, start, target, seq(|dts|, _ => target), tau, dts);
    TargetIsFixed(a, target, tau, dts);
    LagGap(start, target, Decay(a, SumOf(dts), tau));
  }
}
