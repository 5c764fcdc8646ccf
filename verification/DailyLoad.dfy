// The hour of the day in the weather and in the load: when it is coldest and
// warmest, where the midday and the evening bump lie, and how high they are.
module DailyLoad {
  import opened Random
  import opened Rounding
  import opened Analysis
  import opened Measurement
  import opened Physics
  import opened Simulator
  import opened StepBounds
  import opened Envelope

  // ---- the clock ----

  const MINUTE: int := 60 * NANOS
  const HALF_DAY: int := 720 * MINUTE
  const DAY: int := 1440 * MINUTE

  lemma MinuteParts(m: int)
    ensures (m / 60) % 24 * 60 + m % 60 == m % 1440
    ensures 0 <= (m / 60) % 24 <= 23
  {
    var q := m / 1440;
    assert m / 60 == 24 * q + (m % 1440) / 60;
  }

  /** The hour counts whole minutes since midnight and nothing finer. */
  lemma HourCountsMinutes(t: Instant)
    ensures HourOf(t) == ((t / MINUTE) % 1440) as real / 60.0
    ensures 0.0 <= HourOf(t) < 24.0
  {
    MinuteParts(t / MINUTE);
    assert t / (3600 * NANOS) == (t / MINUTE) / 60 by { Nested(t); }
  }

  lemma Nested(t: int)
    ensures t / (60 * MINUTE) == (t / MINUTE) / 60
  {
    var q := t / MINUTE;
    assert t == MINUTE * q + t % MINUTE;
    assert q == 60 * (q / 60) + q % 60;
  }

  /** Half a day later the other half of the dial shows, a day later the same hour. */
  lemma HourTurns(t: Instant)
    ensures HourOf(t + HALF_DAY) == if HourOf(t) < 12.0 then HourOf(t) + 12.0 else HourOf(t) - 12.0
    ensures HourOf(t + DAY) == HourOf(t)
  {
    hide HourOf;
    HourCountsMinutes(t);
    HourCountsMinutes(t + HALF_DAY);
    HourCountsMinutes(t + DAY);
    MinutesLater(t, 720);
    MinutesLater(t, 1440);
    HalfDial(t / MINUTE);
  }

  lemma MinutesLater(t: Instant, k: int)
    ensures (t + k * MINUTE) / MINUTE == t / MINUTE + k
  {
    var q := t / MINUTE;
    assert t + k * MINUTE == MINUTE * (q + k) + t % MINUTE;
  }

  lemma HalfDial(m: int)
    ensures (m + 720) % 1440 == if m % 1440 < 720 then m % 1440 + 720 else m % 1440 - 720
    ensures (m + 1440) % 1440 == m % 1440
  {
    var q := m / 1440;
    assert m == 1440 * q + m % 1440;
  }

  // ---- the ambient temperature ----

  lemma HalfTurn(a: Analysis, x: real, y: real)
    requires Lawful(a) && y == x + a.pi
    ensures a.sin(y) == -a.sin(x)
  {
    assert Sum(x, a.pi) == y;
    assert a.sin(Sum(x, a.pi)) == -a.sin(x);
  }

  function DayAngle(a: Analysis, h: real): real
  {
    2.0 * a.pi * (h - 14.0) / 24.0
  }

  lemma AmbientIs(a: Analysis, t: Instant)
    ensures AmbientAt(a, t) == 26.0 + 5.0 * a.sin(DayAngle(a, HourOf(t)))
  {
    hide HourOf;
  }

  lemma DayAngles(a: Analysis, h: real)
    ensures h == 8.0 ==> DayAngle(a, h) == -(a.pi / 2.0)
    ensures h == 20.0 ==> DayAngle(a, h) == a.pi / 2.0
    ensures h == 2.0 ==> DayAngle(a, h) == -a.pi
    ensures h == 14.0 ==> DayAngle(a, h) == 0.0
  {
  }

  /** Coldest at eight in the morning, warmest at eight in the evening, in the middle at two. */
  lemma AmbientByHour(a: Analysis, t: Instant)
    requires Lawful(a)
    ensures HourOf(t) == 8.0 ==> AmbientAt(a, t) == 21.0
    ensures HourOf(t) == 20.0 ==> AmbientAt(a, t) == 31.0
    ensures HourOf(t) == 2.0 || HourOf(t) == 14.0 ==> AmbientAt(a, t) == 26.0
  {
    hide HourOf, AmbientAt, DayAngle;
    AmbientIs(a, t);
    DayAngles(a, HourOf(t));
    HalfTurn(a, -(a.pi / 2.0), a.pi / 2.0);
    HalfTurn(a, -a.pi, 0.0);
  }

  lemma Extremes(a: Analysis, t: Instant, u: Instant)
    requires Lawful(a)
    ensures HourOf(t) == 8.0 ==> AmbientAt(a, t) <= AmbientAt(a, u)
    ensures HourOf(t) == 20.0 ==> AmbientAt(a, u) <= AmbientAt(a, t)
  {
    hide AmbientAt, HourOf;
    AmbientByHour(a, t);
    AmbientBounds(a, u);
  }

  lemma OppositeAngles(a: Analysis, h: real, g: real)
    requires Lawful(a) && g == h + 12.0
    ensures a.sin(DayAngle(a, g)) == -a.sin(DayAngle(a, h))
  {
    assert DayAngle(a, g) == DayAngle(a, h) + a.pi;
    HalfTurn(a, DayAngle(a, h), DayAngle(a, g));
  }

  /** Half a day later the ambient is as far on the other side of 26 degrees; a day later it is the same. */
  lemma AmbientTurns(a: Analysis, t: Instant)
    requires Lawful(a)
    ensures AmbientAt(a, t + HALF_DAY) == 52.0 - AmbientAt(a, t)
    ensures AmbientAt(a, t + DAY) == AmbientAt(a, t)
  {
    hide HourOf, AmbientAt, DayAngle;
    HourTurns(t);
    var h, g := HourOf(t), HourOf(t + HALF_DAY);
    AmbientIs(a, t);
    AmbientIs(a, t + HALF_DAY);
    AmbientIs(a, t + DAY);
    if h < 12.0 {
      OppositeAngles(a, h, g);
    } else {
      OppositeAngles(a, g, h);
    }
  }

  // ---- the day's shape ----

  lemma Tangent(a: Analysis, x: real)
    requires Lawful(a)
    ensures a.exp(x) >= 1.0 + x && a.exp(0.0) == 1.0
  {
  }

  /** `1 - x <= exp(-x) <= 1 / (1 + x)`. */
  lemma Bump(a: Analysis, x: real)
    requires Lawful(a) && x >= 0.0
    ensures 1.0 - x <= a.exp(-x) && 0.0 < a.exp(-x) <= 1.0 / (1.0 + x)
  {
    hide *;
    Tangent(a, x);
    Tangent(a, -x);
    DecayInUnit(a, x);
    ExpAdd(a, x, -x, 0.0);
    ProductMonotone(1.0 + x, a.exp(x), a.exp(-x));
    ProductSymmetric(1.0 + x, a.exp(-x));
    BelowQuotient(a.exp(-x), 1.0 + x);
  }

  lemma BelowQuotient(e: real, d: real)
    requires d > 0.0 && Product(e, d) <= 1.0
    ensures e <= 1.0 / d
  {
    QuotientMonotone(Product(e, d), 1.0, d);
    QuotientOfProduct(e, d);
  }

  /**
   * At every hour: a plateau of 0.45, a bump of 0.30 around 13:00 and one of 0.18
   * around 19:00, each between two rational curves.
   */
  lemma ShapeBetween(a: Analysis, h: real)
    requires Lawful(a)
    ensures var x, y := (h - 13.0) * (h - 13.0) / 14.0, (h - 19.0) * (h - 19.0) / 8.0;
            && 0.0 <= x && 0.0 <= y
            && DayShape(a, h) <= 0.45 + 0.30 / (1.0 + x) + 0.18 / (1.0 + y)
            && DayShape(a, h) >= 0.45 + 0.30 * RMax(0.0, 1.0 - x) + 0.18 * RMax(0.0, 1.0 - y)
  {
    hide Lawful;
    SquarePositive(h - 13.0);
    SquarePositive(h - 19.0);
    Bump(a, Square(h - 13.0) / 14.0);
    Bump(a, Square(h - 19.0) / 8.0);
  }

  /** Midday, evening and night. */
  lemma ShapeByHour(a: Analysis, h: real)
    requires Lawful(a)
    ensures h == 13.0 ==> 0.75 <= DayShape(a, h) <= 0.783
    ensures h == 19.0 ==> 0.63 <= DayShape(a, h) <= 0.714
    ensures h == 3.0 ==> 0.45 <= DayShape(a, h) <= 0.4924
  {
    hide DayShape;
    ShapeBetween(a, h);
  }

  // ---- the load ----

  function SwingAngle(a: Analysis, h: real, offset: real): real
  {
    2.0 * a.pi * (h + offset) / 24.0
  }

  lemma SwingIs(a: Analysis, h: real, offset: real)
    ensures Swing(a, h, offset) == 1.0 + 0.12 * a.sin(SwingAngle(a, h, offset))
  {
  }

  lemma QuarterTurns(a: Analysis, h: real, offset: real, k: int)
    requires h + offset == 6.0 * k as real
    ensures SwingAngle(a, h, offset) == k as real * (a.pi / 2.0)
  {
    assert 2.0 * a.pi * (6.0 * k as real) / 24.0 == k as real * (a.pi / 2.0);
  }

  /** The swing over the day, shifted by the unit's offset: highest at six, lowest at eighteen, level in between. */
  lemma SwingByHour(a: Analysis, h: real, offset: real)
    requires Lawful(a)
    ensures h + offset == 6.0 ==> Swing(a, h, offset) == 1.12
    ensures h + offset == 18.0 ==> Swing(a, h, offset) == 0.88
    ensures h + offset == 0.0 || h + offset == 12.0 || h + offset == 24.0 ==> Swing(a, h, offset) == 1.0
  {
    hide Swing, SwingAngle;
    SwingIs(a, h, offset);
    HalfTurn(a, 0.0, a.pi);
    HalfTurn(a, a.pi, 2.0 * a.pi);
    HalfTurn(a, a.pi / 2.0, 1.5 * a.pi);
    if h + offset == 0.0 {
      QuarterTurns(a, h, offset, 0);
    } else if h + offset == 6.0 {
      QuarterTurns(a, h, offset, 1);
      assert SwingAngle(a, h, offset) == a.pi / 2.0;
    } else if h + offset == 12.0 {
      QuarterTurns(a, h, offset, 2);
      assert SwingAngle(a, h, offset) == a.pi;
    } else if h + offset == 18.0 {
      QuarterTurns(a, h, offset, 3);
      assert SwingAngle(a, h, offset) == 1.5 * a.pi;
    } else if h + offset == 24.0 {
      QuarterTurns(a, h, offset, 4);
      assert SwingAngle(a, h, offset) == 2.0 * a.pi;
    }
  }

  lemma OppositeSwings(a: Analysis, h: real, offset: real)
    requires Lawful(a)
    ensures Swing(a, h, offset + 12.0) == 2.0 - Swing(a, h, offset)
  {
    hide Swing, SwingAngle;
    SwingIs(a, h, offset);
    SwingIs(a, h, offset + 12.0);
    HalfDayOfSwing(a, h, offset);
    HalfTurn(a, SwingAngle(a, h, offset), SwingAngle(a, h, offset + 12.0));
  }

  lemma HalfDayOfSwing(a: Analysis, h: real, offset: real)
    ensures SwingAngle(a, h, offset + 12.0) == SwingAngle(a, h, offset) + a.pi
  {
  }

  /** One percent of load for each degree off 26, six for the full range of the noise. */
  lemma WeatherAndNoise(a: Analysis, now: Instant, offset: real, ambient: real, draw: real)
    ensures NominalLoad(a, now, offset, ambient, draw) ==
            Product(100.0 * BaseLoad(a, HourOf(now), offset),
                    Product(1.0 + (ambient - 26.0) / 100.0, 1.0 + 0.06 * (draw - 0.5)))
  {
    hide BaseLoad, HourOf;
  }

  /** Between its two limits the load is the nominal one times the intensity. */
  lemma UnclampedLoad(a: Analysis, intensity: real, now: Instant, offset: real, ambient: real, draw: real)
    requires 5.0 <= Product(intensity, NominalLoad(a, now, offset, ambient, draw)) <= 160.0
    ensures TargetLoad(a, intensity, now, offset, ambient, draw) ==
            Product(intensity, NominalLoad(a, now, offset, ambient, draw))
  {
    hide NominalLoad;
  }

  lemma ShapeToNominal(a: Analysis, now: Instant, offset: real, ambient: real, draw: real, lo: real, hi: real)
    requires Lawful(a) && 21.0 <= ambient <= 31.0 && 0.0 <= draw < 1.0
    requires 0.0 <= lo <= DayShape(a, HourOf(now)) <= hi
    ensures 81.092 * lo <= NominalLoad(a, now, offset, ambient, draw) <= 121.128 * hi
    ensures ambient == 26.0 && draw == 0.5 ==> 88.0 * lo <= NominalLoad(a, now, offset, ambient, draw) <= 112.0 * hi
  {
    hide HourOf, DayShape;
    var shape := DayShape(a, HourOf(now));
    var swing := Swing(a, HourOf(now), offset);
    assert 0.88 <= swing <= 1.12;
    hide Swing, Lawful;
    var weather, noise := Weather(ambient), Noise(draw);
    ProductWithin(shape, lo, hi, swing, 0.88, 1.12);
    ProductWithin(Product(shape, swing), 0.88 * lo, 1.12 * hi, weather, 0.95, 1.05);
    ProductWithin(Product(Product(shape, swing), weather), 0.836 * lo, 1.176 * hi, noise, 0.97, 1.03);
  }

  /** Bounds on the day's shape are bounds on the load, for every offset, weather and noise. */
  lemma ShapeToLoad(a: Analysis, intensity: real, now: Instant, offset: real, ambient: real, draw: real, lo: real, hi: real)
    requires Lawful(a) && intensity > 0.0 && 21.0 <= ambient <= 31.0 && 0.0 <= draw < 1.0
    requires 0.0 <= lo <= DayShape(a, HourOf(now)) <= hi
    ensures var load := TargetLoad(a, intensity, now, offset, ambient, draw);
            RMin(160.0, Product(intensity, 81.092 * lo)) <= load <= RMax(5.0, Product(intensity, 121.128 * hi))
    ensures var load := TargetLoad(a, intensity, now, offset, ambient, draw);
            intensity == 1.0 && ambient == 26.0 && draw == 0.5 ==> RMin(160.0, 88.0 * lo) <= load <= RMax(5.0, 112.0 * hi)
  {
    var nominal := NominalLoad(a, now, offset, ambient, draw);
    ShapeToNominal(a, now, offset, ambient, draw, lo, hi);
    hide NominalLoad, HourOf, DayShape, Lawful;
    assert nominal >= 0.0;
    ProductWithin(intensity, intensity, intensity, nominal, 81.092 * lo, 121.128 * hi);
    assert intensity == 1.0 ==> Product(intensity, nominal) == nominal;
    hide Product;
  }

  /**
   * At intensity one, mean weather and no noise: at least 66 percent at 13:00, at
   * most 80 at 19:00 and 55.2 at 03:00, whatever the unit's offset.
   */
  lemma LoadByHour(a: Analysis, now: Instant, offset: real)
    requires Lawful(a)
    ensures var load := TargetLoad(a, 1.0, now, offset, 26.0, 0.5);
            && (HourOf(now) == 13.0 ==> 66.0 <= load <= 87.7)
            && (HourOf(now) == 19.0 ==> 55.4 <= load <= 80.0)
            && (HourOf(now) == 3.0 ==> 39.6 <= load <= 55.2)
  {
    hide TargetLoad, HourOf, DayShape;
    var h := HourOf(now);
    ShapeByHour(a, h);
    if h == 13.0 {
      ShapeToLoad(a, 1.0, now, offset, 26.0, 0.5, 0.75, 0.783);
    } else if h == 19.0 {
      ShapeToLoad(a, 1.0, now, offset, 26.0, 0.5, 0.63, 0.714);
    } else if h == 3.0 {
      ShapeToLoad(a, 1.0, now, offset, 26.0, 0.5, 0.45, 0.4924);
    }
  }

  // ---- whole runs ----

  lemma TickShapeToLoad(w: World, n: nat, i: nat, lo: real, hi: real)
    requires Bounded(w) && i < |w.fleet| && n > 0
    requires 0.0 <= lo <= DayShape(w.a, HourOf(NowAt(w, n))) <= hi
    ensures RMin(160.0, Product(w.intensity, 81.092 * lo)) <= LoadAt(w, n, i) <= RMax(5.0, Product(w.intensity, 121.128 * hi))
    ensures LoadAt(w, n, i) >= 5.0
  {
    hide Pass, LoadOf, TargetLoad, DayShape, HourOf, Product;
    AlwaysInEnvelope(w, n - 1, i);
    AlwaysInEnvelope(w, n, i);
    TickEquations(w, n, i);
    var draw := DrawAt(w.r, DrawIndex(w, n, i));
    assert 0.0 <= draw < 1.0;
    ShapeToLoad(w.a, w.intensity, NowAt(w, n), ParamsOf(w, i).loadOffset, UnitAt(w, n - 1, i).ambient, draw, lo, hi);
  }

  /** In every run, what a tick at 13:00, 19:00 or 03:00 asks of a unit. */
  lemma TickLoadByHour(w: World, n: nat, i: nat)
    requires Bounded(w) && i < |w.fleet| && n > 0
    ensures var h, load := HourOf(NowAt(w, n)), LoadAt(w, n, i);
            && (h == 13.0 ==> 60.8 * w.intensity <= load <= RMax(5.0, 94.9 * w.intensity))
            && (h == 19.0 ==> 51.0 * w.intensity <= load <= RMax(5.0, 86.5 * w.intensity))
            && (h == 3.0 ==> 36.4 * w.intensity <= load <= RMax(5.0, 59.7 * w.intensity))
  {
    hide HourOf, DayShape, Lawful;
    var h := HourOf(NowAt(w, n));
    ShapeByHour(w.a, h);
    if h == 13.0 {
      TickShapeToLoad(w, n, i, 0.75, 0.783);
    } else if h == 19.0 {
      TickShapeToLoad(w, n, i, 0.63, 0.714);
    } else if h == 3.0 {
      TickShapeToLoad(w, n, i, 0.45, 0.4924);
    }
  }

  /** Within a run, no unit at 03:00 carries more than any unit at 13:00. */
  lemma MiddayBeatsNight(w: World, m: nat, i: nat, n: nat, j: nat)
    requires Bounded(w) && i < |w.fleet| && j < |w.fleet| && m > 0 && n > 0
    requires HourOf(NowAt(w, m)) == 3.0 && HourOf(NowAt(w, n)) == 13.0
    ensures LoadAt(w, m, i) <= LoadAt(w, n, j)
  {
    hide HourOf, Pass, LoadOf;
    TickLoadByHour(w, m, i);
    TickLoadByHour(w, n, j);
    AlwaysInEnvelope(w, n, j);
  }
}
