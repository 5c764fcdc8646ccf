// What every generated record satisfies, for every stream of draws.
module FleetTheorems {
  import opened Wrappers
  import opened Decimal
  import opened Random
  import opened Rounding
  import opened Analysis
  import opened Transformer
  import opened Physics
  import opened ThermalLag
  import opened StepBounds
  import opened FleetDesign

  // ---- the logarithmic scale ----

  lemma ExpStrict(a: Analysis, x: real, y: real)
    requires Lawful(a) && x < y
    ensures a.exp(x) < a.exp(y)
  {
    ExpPositive(a, x);
    ExpAdd(a, x, y - x, y);
    assert a.exp(y - x) >= 1.0 + (y - x);
    ProductSigns(a.exp(x), a.exp(y - x) - 1.0);
    ProductDistributes(a.exp(x), a.exp(y - x), 1.0);
  }

  lemma LnMonotone(a: Analysis, x: real, y: real)
    requires Lawful(a) && 0.0 < x <= y
    ensures a.ln(x) <= a.ln(y)
  {
    if a.ln(y) < a.ln(x) {
      ExpStrict(a, a.ln(y), a.ln(x));
    }
  }

  lemma ExpMonotone(a: Analysis, x: real, y: real)
    requires Lawful(a) && x <= y
    ensures a.exp(x) <= a.exp(y)
  {
    if x < y {
      ExpStrict(a, x, y);
    }
  }

  lemma BetweenBounds(draw: real, lo: real, hi: real)
    requires 0.0 <= draw < 1.0 && lo <= hi
    ensures lo <= Between(draw, lo, hi) <= hi
  {
    FractionOfGap(hi - lo, draw);
    ProductSymmetric(draw, hi - lo);
  }

  /** A log-uniform draw lies between its ends. */
  lemma LogBetweenBounds(a: Analysis, draw: real, lo: real, hi: real)
    requires Lawful(a) && 0.0 <= draw < 1.0 && 0.0 < lo <= hi
    ensures lo <= LogBetween(a, draw, lo, hi) <= hi
  {
    LnMonotone(a, lo, hi);
    BetweenBounds(draw, a.ln(lo), a.ln(hi));
    ExpMonotone(a, a.ln(lo), Between(draw, a.ln(lo), a.ln(hi)));
    ExpMonotone(a, Between(draw, a.ln(lo), a.ln(hi)), a.ln(hi));
  }

  /** The draws 0 and `1 - d` against 1 and `d`: half the draws lie below the geometric mean of the ends. */
  lemma LogUniform(a: Analysis, draw: real, lo: real, hi: real)
    requires Lawful(a) && 0.0 < lo <= hi
    ensures LogBetween(a, 0.0, lo, hi) == lo && LogBetween(a, 1.0, lo, hi) == hi
    ensures Product(LogBetween(a, draw, lo, hi), LogBetween(a, 1.0 - draw, lo, hi)) == Product(lo, hi)
  {
    var x, y := a.ln(lo), a.ln(hi);
    ExpAdd(a, x + Product(draw, y - x), x + Product(1.0 - draw, y - x), x + y) by {
      assert Product(draw, y - x) + Product(1.0 - draw, y - x) == y - x;
    }
    ExpAdd(a, x, y, x + y);
    hide Lawful;
  }

  lemma LogMonotone(a: Analysis, d: real, e: real, lo: real, hi: real)
    requires Lawful(a) && d <= e && 0.0 < lo <= hi
    ensures LogBetween(a, d, lo, hi) <= LogBetween(a, e, lo, hi)
  {
    LnMonotone(a, lo, hi);
    ProductMonotone(d, e, a.ln(hi) - a.ln(lo));
    ExpMonotone(a, a.ln(lo) + Product(d, a.ln(hi) - a.ln(lo)), a.ln(lo) + Product(e, a.ln(hi) - a.ln(lo)));
  }

  // ---- the sketch: rating and voltages ----

  predicate Respects(env: Envelope, s: Sketch)
  {
    && env.minPower <= s.mva <= env.maxPower
    && s.hv in env.hvs && !Oversized(s.mva, s.hv)
    && s.lv in env.lvs && s.lv < s.hv
  }

  /** Every rating of an envelope supports one of its voltage classes. */
  lemma SomeClassSupported(app: nat, mva: real)
    requires app < 5 && ENVELOPES[app].minPower <= mva
    ensures Supported(mva, ENVELOPES[app].hvs) != []
  {
    assert !Oversized(mva, 34.5) && !Oversized(mva, 69.0) && !Oversized(mva, 115.0);
    assert mva >= 50.0 ==> !Oversized(mva, 230.0);
    var kv := [115.0, 230.0, 69.0, 69.0, 34.5][app];
    assert kv in ENVELOPES[app].hvs;
    assert kv in Supported(mva, ENVELOPES[app].hvs);
  }

  /** Every class of an envelope has a lower voltage to go with it. */
  lemma SomeLowerVoltage(app: nat, hv: real)
    requires app < 5 && hv in ENVELOPES[app].hvs
    ensures Lower(hv, ENVELOPES[app].lvs) != []
  {
    var lv := [11.0, 69.0, 13.8, 13.8, 13.8][app];
    assert lv in ENVELOPES[app].lvs && lv < hv;
    assert lv in Lower(hv, ENVELOPES[app].lvs);
  }

  /** Neither fallback is ever taken, and the voltages obey the size rules. */
  lemma SketchInEnvelope(a: Analysis, r: nat -> real, k: nat)
    requires Lawful(a) && UnitStream(r)
    ensures var s := SketchAt(a, r, k);
            && Respects(ENVELOPES[s.app], s)
            && Supported(s.mva, ENVELOPES[s.app].hvs) != [] && Lower(s.hv, ENVELOPES[s.app].lvs) != []
  {
    hide LogBetween, Below, Product, ENVELOPES;
    var d0, d1, d2, d3 := DrawAt(r, k), DrawAt(r, k + 1), DrawAt(r, k + 2), DrawAt(r, k + 3);
    var s := SketchAt(a, r, k);
    EnvelopesAreSound(s.app);
    LogBetweenBounds(a, d1, ENVELOPES[s.app].minPower, ENVELOPES[s.app].maxPower);
    SomeClassSupported(s.app, s.mva);
    assert s.hv in Supported(s.mva, ENVELOPES[s.app].hvs);
    SomeLowerVoltage(s.app, s.hv);
    assert s.lv in Lower(s.hv, ENVELOPES[s.app].lvs);
  }

  lemma EnvelopesAreSound(app: nat)
    requires app < 5
    ensures 5.0 <= ENVELOPES[app].minPower <= ENVELOPES[app].maxPower <= 400.0
    ensures forall hv :: hv in ENVELOPES[app].hvs ==> 34.5 <= hv <= 500.0
    ensures forall lv :: lv in ENVELOPES[app].lvs ==> lv > 0.0
    ensures forall g :: g in ENVELOPES[app].groups ==> g in VALID_VECTOR_GROUPS
    ensures ENVELOPES[app].groups != []
  {
  }

  // ---- numbered ids ----

  /** The zeros before the number. */
  function Padding(n: nat): string
  {
    if n < 10 then "00" else if n < 100 then "0" else ""
  }

  lemma IdForIs(n: nat)
    ensures IdFor(n) == "TR-" + (Padding(n) + Digits(n))
  {
    assert "" + Digits(n) == Digits(n);
  }

  lemma PaddedReads(n: nat)
    ensures AllDigits(Padding(n) + Digits(n)) && ReadDigits(Padding(n) + Digits(n)) == n
  {
    hide Digits;
    DigitsRead(n);
    LeadingZero(Digits(n));
    LeadingZero("0" + Digits(n));
    assert "00" + Digits(n) == "0" + ("0" + Digits(n)) && "" + Digits(n) == Digits(n);
  }

  lemma IdForShape(n: nat)
    ensures n < 1000 ==> |Padding(n) + Digits(n)| == 3
    ensures n >= 1000 ==> |IdFor(n)| >= 7
  {
    hide Digits;
    DigitsLength(n);
  }

  lemma {:induction false} LeadingZero(s: string)
    requires AllDigits(s)
    ensures AllDigits("0" + s) && ReadDigits("0" + s) == ReadDigits(s)
    decreases |s|
  {
    var t := "0" + s;
    if s == "" {
      assert t[..|t| - 1] == "";
    } else {
      LeadingZero(s[..|s| - 1]);
      assert t[..|t| - 1] == "0" + s[..|s| - 1];
    }
  }

  /** Three digits number the fleet: the id is well formed up to 999 and not beyond. */
  lemma IdForMatches(n: nat)
    ensures MatchesId(IdFor(n)) <==> n < 1000
  {
    IdForShape(n);
    if n < 1000 {
      IdForIs(n);
      PaddedReads(n);
      hide Digits, IdFor, Padding;
      PrefixedMatches(Padding(n) + Digits(n));
    }
  }

  lemma PrefixedMatches(s: string)
    requires |s| == 3 && AllDigits(s)
    ensures MatchesId("TR-" + s)
  {
    var id := "TR-" + s;
    assert id[3] == s[0] && id[4] == s[1] && id[5] == s[2];
  }

  /** The id shows the number, hundreds first. */
  lemma IdForCounts(n: nat)
    requires n < 1000
    ensures MatchesId(IdFor(n)) && IdNumber(IdFor(n)) == n
  {
    IdForMatches(n);
    IdForShape(n);
    IdForIs(n);
    PaddedReads(n);
    hide Digits, IdFor, Padding, MatchesId;
    var s := Padding(n) + Digits(n);
    assert IdFor(n)[3] == s[0] && IdFor(n)[4] == s[1] && IdFor(n)[5] == s[2];
    ThreeDigits(s);
  }

  lemma ThreeDigits(s: string)
    requires |s| == 3 && AllDigits(s)
    ensures ReadDigits(s) == (s[0] as int - 48) * 100 + (s[1] as int - 48) * 10 + (s[2] as int - 48)
  {
    assert ReadDigits("") == 0;
    assert s[..1][..0] == "" && ReadDigits(s[..1]) == s[0] as int - 48;
    assert s[..2][..1] == s[..1] && ReadDigits(s[..2]) == 10 * ReadDigits(s[..1]) + (s[1] as int - 48);
  }

  lemma IdForInjective(m: nat, n: nat)
    requires IdFor(m) == IdFor(n)
    ensures m == n
  {
    IdForIs(m);
    IdForIs(n);
    PaddedReads(m);
    PaddedReads(n);
    hide Digits, IdFor, Padding;
    assert ("TR-" + (Padding(m) + Digits(m)))[3..] == Padding(m) + Digits(m);
    assert ("TR-" + (Padding(n) + Digits(n)))[3..] == Padding(n) + Digits(n);
  }

  // ---- the rest of the record ----

  lemma ImpedanceBounds(a: Analysis, mva: real, draw: real)
    requires Lawful(a) && 5.0 <= mva <= 400.0 && 0.0 <= draw < 1.0
    ensures 4.5 <= ImpedanceFrom(a, mva, draw) <= 22.0
  {
    BetweenBounds(draw, 0.9, 1.1);
    var base := 5.0 + 5.0 * a.log10(mva);
    assert a.log10(1.0) <= a.log10(mva) <= a.log10(1000.0);
    ProductWithin(base, 5.0, 20.0, Between(draw, 0.9, 1.1), 0.9, 1.1);
  }

  lemma YearBounds(a: Analysis, draw: real)
    requires Lawful(a) && 0.0 <= draw < 1.0
    ensures 1990 <= YearFrom(a, draw) <= 2025
  {
    var u := a.sqrt(draw);
    if u >= 1.0 {
      ProductLe(1.0, u, 1.0, u);
    }
  }

  lemma MassBounds(a: Analysis, mva: real, draw: real)
    requires Lawful(a) && mva >= 0.0 && 0.0 <= draw < 1.0
    ensures MassFrom(a, mva, draw) >= 22.0
  {
    BetweenBounds(draw, 0.85, 1.15);
    ProductSigns(1.35 * a.pow09(mva), Between(draw, 0.85, 1.15));
  }

  lemma SizeBounds(a: Analysis, mva: real, offset: real, slope: real, draw: real)
    requires Lawful(a) && mva >= 0.0 && slope >= 0.0 && 0.0 <= draw < 1.0
    ensures SizeFrom(a, mva, offset, slope, draw) >= offset
  {
    BetweenBounds(draw, 0.9, 1.1);
    ProductSigns(slope, a.sqrt(mva));
    ProductSigns(Product(slope, a.sqrt(mva)), Between(draw, 0.9, 1.1));
  }

  /** No-load and load losses of one record: positive, and at least 3.7 to 1. */
  lemma LossBounds(mva: real, d: real, e: real)
    requires 5.0 <= mva && 0.0 <= d < 1.0 && 0.0 <= e < 1.0
    ensures var noLoad := Round1(Product(mva * 1000.0, Between(d, 0.0008, 0.0016)));
            var load := Round1(Product(mva * 1000.0, Between(e, 0.006, 0.012)));
            noLoad > 0.0 && load > 0.0 && Quotient(load, noLoad) >= 3.7
  {
    var m := mva * 1000.0;
    BetweenBounds(d, 0.0008, 0.0016);
    BetweenBounds(e, 0.006, 0.012);
    ProductWithin(m, m, m, Between(d, 0.0008, 0.0016), 0.0008, 0.0016);
    ProductWithin(m, m, m, Between(e, 0.006, 0.012), 0.006, 0.012);
    LossRatio(mva, Product(m, Between(d, 0.0008, 0.0016)), Product(m, Between(e, 0.006, 0.012)));
  }

  lemma LossRatio(mva: real, x: real, y: real)
    requires 5.0 <= mva && mva * 0.8 <= x <= mva * 1.6 && mva * 6.0 <= y
    ensures Round1(x) > 0.0 && Round1(y) > 0.0 && Quotient(Round1(y), Round1(x)) >= 3.7
  {
    Round1Near(x);
    Round1Near(y);
    var p, q := Round1(x), Round1(y);
    assert q >= 3.7 * p;
    QuotientMonotone(Product(3.7, p), q, p);
    QuotientOfProduct(3.7, p);
  }

  lemma RatingRounds(env: nat, mva: real)
    requires env < 5 && ENVELOPES[env].minPower <= mva <= ENVELOPES[env].maxPower
    ensures ENVELOPES[env].minPower <= Round1(mva) <= ENVELOPES[env].maxPower
    ensures forall kv :: Oversized(Round1(mva), kv) ==> Oversized(mva, kv)
  {
    Round1Within(mva, [300, 500, 50, 100, 200][env], [4000, 4000, 600, 800, 1200][env]);
    if mva >= 80.0 {
      Round1Monotone(80.0, mva);
    }
    if mva >= 40.0 {
      Round1Monotone(40.0, mva);
    }
    assert Round1(80.0) == 80.0 && Round1(40.0) == 40.0;
  }

  // ---- the record draw by draw ----

  /** A field rounded to tenths, or to hundredths. */
  predicate Tenths(field: real, x: real)
  {
    x - 0.05 <= field <= x + 0.05
  }

  predicate Cents(field: real, x: real)
  {
    x - 0.005 <= field <= x + 0.005
  }

  lemma Round2Near(x: real)
    ensures Cents(Round2(x), x)
  {
    RoundNear(x * 100.0);
  }

  /** A base with a tenth to either side, by a draw. */
  function GiveOrTake(base: real, draw: real): real
  {
    Product(base, 0.9 + 0.2 * draw)
  }

  /** The group whose part of the unit interval the draw lies in. */
  predicate GroupBy(groups: seq<string>, draw: real, group: string)
  {
    forall i :: 0 <= i < |groups| && i as real <= draw * |groups| as real < i as real + 1.0 ==> groups[i] == group
  }

  /** The ratings, losses and sizes of a record, each from its own draw. */
  predicate BuiltFrom(a: Analysis, mva: real, impedance: real, year: real, noLoad: real, load: real, mass: real,
                      length: real, width: real, height: real, t: Transformer)
  {
    && Tenths(t.ratedPower, mva)
    && Tenths(t.impedance, GiveOrTake(5.0 + 5.0 * a.log10(mva), impedance))
    && (t.year - 1990) as real <= 36.0 * a.sqrt(year) < (t.year - 1989) as real
    && Tenths(t.noLoadLoss, Product(mva, 0.8 + 0.8 * noLoad))
    && Tenths(t.loadLoss, Product(mva, 6.0 + 6.0 * load))
    && Tenths(t.mass, 22.0 + Product(1.35 * a.pow09(mva), 0.85 + 0.3 * mass))
    && Cents(t.length, 1.8 + GiveOrTake(Product(0.5, a.sqrt(mva)), length))
    && Cents(t.width, 1.4 + GiveOrTake(Product(0.3, a.sqrt(mva)), width))
    && Cents(t.height, 2.6 + GiveOrTake(Product(0.25, a.sqrt(mva)), height))
  }

  lemma BetweenIs(draw: real)
    ensures Between(draw, 0.9, 1.1) == 0.9 + 0.2 * draw && Between(draw, 0.85, 1.15) == 0.85 + 0.3 * draw
    ensures 1000.0 * Between(draw, 0.0008, 0.0016) == 0.8 + 0.8 * draw
    ensures 1000.0 * Between(draw, 0.006, 0.012) == 6.0 + 6.0 * draw
  {
  }

  lemma ThousandFold(x: real, y: real)
    ensures Product(x * 1000.0, y) == Product(x, 1000.0 * y)
  {
  }

  lemma ImpedanceIs(a: Analysis, mva: real, draw: real)
    requires Lawful(a) && 0.0 < mva <= 1000.0
    ensures Tenths(Round1(ImpedanceFrom(a, mva, draw)), GiveOrTake(5.0 + 5.0 * a.log10(mva), draw))
  {
    assert a.log10(mva) <= a.log10(1000.0) == 3.0;
    hide Round1, Lawful, Between, Product;
    Round1Near(ImpedanceFrom(a, mva, draw));
    BetweenIs(draw);
  }

  lemma LossesAre(mva: real, draw: real)
    ensures Tenths(Round1(Product(mva * 1000.0, Between(draw, 0.0008, 0.0016))), Product(mva, 0.8 + 0.8 * draw))
    ensures Tenths(Round1(Product(mva * 1000.0, Between(draw, 0.006, 0.012))), Product(mva, 6.0 + 6.0 * draw))
  {
    hide Round1, Between, Product;
    Round1Near(Product(mva * 1000.0, Between(draw, 0.0008, 0.0016)));
    Round1Near(Product(mva * 1000.0, Between(draw, 0.006, 0.012)));
    ThousandFold(mva, Between(draw, 0.0008, 0.0016));
    ThousandFold(mva, Between(draw, 0.006, 0.012));
    BetweenIs(draw);
  }

  lemma MassIs(a: Analysis, mva: real, draw: real)
    ensures Tenths(Round1(MassFrom(a, mva, draw)), 22.0 + Product(1.35 * a.pow09(mva), 0.85 + 0.3 * draw))
  {
    hide Round1, Between, Product;
    Round1Near(MassFrom(a, mva, draw));
    BetweenIs(draw);
  }

  lemma SizeIs(a: Analysis, mva: real, offset: real, slope: real, draw: real)
    ensures Cents(Round2(SizeFrom(a, mva, offset, slope, draw)), offset + GiveOrTake(Product(slope, a.sqrt(mva)), draw))
  {
    hide Round2, Between, Product;
    Round2Near(SizeFrom(a, mva, offset, slope, draw));
    BetweenIs(draw);
  }

  lemma RecordParts(a: Analysis, id: string, s: Sketch, f: real, p: real, g: real, z: real, cooling: string, y: real,
                    n: real, l: real, m: real, x: real, w: real, h: real)
    requires s.app < 5 && 0.0 <= g < 1.0
    ensures var t := RecordFrom(a, id, s, f, p, g, z, cooling, y, n, l, m, x, w, h);
            && t.ratedPower == Round1(s.mva) && t.impedance == Round1(ImpedanceFrom(a, s.mva, z)) && t.year == YearFrom(a, y)
            && t.noLoadLoss == Round1(Product(s.mva * 1000.0, Between(n, 0.0008, 0.0016)))
            && t.loadLoss == Round1(Product(s.mva * 1000.0, Between(l, 0.006, 0.012)))
            && t.mass == Round1(MassFrom(a, s.mva, m)) && t.length == Round2(SizeFrom(a, s.mva, 1.8, 0.5, x))
            && t.width == Round2(SizeFrom(a, s.mva, 1.4, 0.3, w)) && t.height == Round2(SizeFrom(a, s.mva, 2.6, 0.25, h))
  {
    hide Round1, Round2, Choose, ImpedanceFrom, YearFrom, MassFrom, SizeFrom, Between, Product;
  }

  lemma RecordIsBuilt(a: Analysis, id: string, s: Sketch, f: real, p: real, g: real, z: real, cooling: string, y: real,
                      n: real, l: real, m: real, x: real, w: real, h: real)
    requires Lawful(a) && s.app < 5 && 0.0 < s.mva <= 1000.0 && 0.0 <= g < 1.0
    ensures BuiltFrom(a, s.mva, z, y, n, l, m, x, w, h, RecordFrom(a, id, s, f, p, g, z, cooling, y, n, l, m, x, w, h))
  {
    hide Lawful, Round1, Round2, Choose, ImpedanceFrom, MassFrom, SizeFrom, Between, Product, Tenths, Cents, GiveOrTake,
      RecordFrom, YearFrom;
    RecordParts(a, id, s, f, p, g, z, cooling, y, n, l, m, x, w, h);
    RatingIs(s.mva);
    ImpedanceIs(a, s.mva, z);
    LossesAre(s.mva, n);
    LossesAre(s.mva, l);
    MassIs(a, s.mva, m);
    SizeIs(a, s.mva, 1.8, 0.5, x);
    SizeIs(a, s.mva, 1.4, 0.3, w);
    SizeIs(a, s.mva, 2.6, 0.25, h);
    YearIs(a, y);
  }

  lemma RatingIs(mva: real)
    ensures Tenths(Round1(mva), mva)
  {
    Round1Near(mva);
  }

  lemma YearIs(a: Analysis, draw: real)
    ensures (YearFrom(a, draw) - 1990) as real <= 36.0 * a.sqrt(draw) < (YearFrom(a, draw) - 1989) as real
  {
  }

  /** What the design rules promise about a record. */
  predicate Plausible(t: Transformer)
  {
    && t.application in VALID_APPLICATIONS
    && (exists i :: 0 <= i < 5 && VALID_APPLICATIONS[i] == t.application && WithinEnvelope(ENVELOPES[i], t))
    && 0.0 < t.impedance <= 25.0
    && 1990 <= t.year <= 2025
    && t.noLoadLoss > 0.0 && t.loadLoss > 0.0 && LossRatioOf(t) >= 3.7
    && t.mass >= 22.0 && t.width >= 1.4 && t.length > t.width + 0.3 && t.height >= 2.6
    && (t.frequency == 50 || t.frequency == 60) && (t.phases == 1 || t.phases == 3)
    && CooledAsRated(t)
  }

  /** The cooling against the rating as stored; at a boundary the rating may have been rounded onto it. */
  predicate CooledAsRated(t: Transformer)
  {
    && t.cooling in VALID_COOLING_TYPES
    && (t.ratedPower < 15.0 ==> t.cooling == ONAN) && (t.cooling == ONAN ==> t.ratedPower <= 15.0)
    && (15.0 < t.ratedPower < 60.0 ==> t.cooling == ONAF) && (t.cooling == ONAF ==> t.ratedPower <= 150.0)
    && (t.cooling == OFAF ==> t.ratedPower >= 60.0)
    && (t.cooling == ODAF || t.cooling == OFWF ==> t.ratedPower >= 150.0)
  }

  lemma CoolingRounds(mva: real, t: Transformer)
    requires CooledFor(mva, t.cooling) && t.ratedPower == Round1(mva)
    ensures CooledAsRated(t)
  {
    TenthAgainst(mva, 15);
    TenthAgainst(mva, 60);
    TenthAgainst(mva, 150);
    hide Round1;
  }

  /** Rounding to tenths does not take a number across a whole one. */
  lemma TenthAgainst(x: real, n: int)
    ensures x < n as real ==> Round1(x) <= n as real
    ensures x >= n as real ==> Round1(x) >= n as real
  {
    RoundAgainst(x * 10.0, 10 * n);
  }

  /** The rating as stored, after rounding, within its envelope and large enough for its voltage class. */
  predicate WithinEnvelope(env: Envelope, t: Transformer)
  {
    && env.minPower <= t.ratedPower <= env.maxPower
    && t.hv in env.hvs && !Oversized(t.ratedPower, t.hv)
    && t.lv in env.lvs && t.lv < t.hv
    && t.vectorGroup in env.groups
  }

  /** Which cooling a rating allows and, up to 60 MVA, prescribes. */
  predicate CooledFor(mva: real, cooling: string)
  {
    && cooling in VALID_COOLING_TYPES
    && (cooling == ONAN <==> mva < 15.0)
    && (15.0 <= mva < 60.0 ==> cooling == ONAF) && (cooling == ONAF ==> mva < 150.0)
    && (cooling == OFAF ==> mva >= 60.0)
    && (cooling == ODAF || cooling == OFWF ==> mva >= 150.0)
  }

  /** Between 60 and 150 MVA two types, from 150 on three, each for its share of the draws. */
  lemma CoolingByDraw(mva: real, draw: real)
    requires 0.0 <= draw < 1.0
    ensures CooledFor(mva, CoolingFrom(mva, draw))
    ensures 60.0 <= mva < 150.0 ==> (CoolingFrom(mva, draw) == ONAF <==> draw < 0.5)
    ensures mva >= 150.0 ==> (CoolingFrom(mva, draw) == OFAF <==> 3.0 * draw < 1.0)
    ensures mva >= 150.0 ==> (CoolingFrom(mva, draw) == ODAF <==> 1.0 <= 3.0 * draw < 2.0)
    ensures mva >= 150.0 ==> (CoolingFrom(mva, draw) == OFWF <==> 2.0 <= 3.0 * draw)
    ensures CoolingDraws(mva) == if mva < 60.0 then 0 else 1
  {
    hide Below;
  }

  lemma DimensionsAreSound(a: Analysis, mva: real, mass: real, length: real, width: real, height: real)
    requires Lawful(a) && mva >= 5.0
    requires 0.0 <= mass < 1.0 && 0.0 <= length < 1.0 && 0.0 <= width < 1.0 && 0.0 <= height < 1.0
    ensures Round1(MassFrom(a, mva, mass)) >= 22.0
    ensures Round2(SizeFrom(a, mva, 1.4, 0.3, width)) >= 1.4
    ensures Round2(SizeFrom(a, mva, 1.8, 0.5, length)) > Round2(SizeFrom(a, mva, 1.4, 0.3, width)) + 0.3
    ensures Round2(SizeFrom(a, mva, 2.6, 0.25, height)) >= 2.6
  {
    hide MassFrom, SizeFrom, Round1, Round2;
    MassBounds(a, mva, mass);
    SizeBounds(a, mva, 1.4, 0.3, width);
    SizeBounds(a, mva, 2.6, 0.25, height);
    TenthAgainst(MassFrom(a, mva, mass), 22);
    CentAgainst(SizeFrom(a, mva, 1.4, 0.3, width), 140);
    CentAgainst(SizeFrom(a, mva, 2.6, 0.25, height), 260);
    LongerThanWide(a, mva, length, width);
    Round2Near(SizeFrom(a, mva, 1.8, 0.5, length));
    Round2Near(SizeFrom(a, mva, 1.4, 0.3, width));
  }

  lemma CentAgainst(x: real, n: int)
    ensures x >= n as real / 100.0 ==> Round2(x) >= n as real / 100.0
  {
    RoundAgainst(x * 100.0, n);
  }

  /** The least length of a rating is more than its greatest width. */
  lemma LongerThanWide(a: Analysis, mva: real, length: real, width: real)
    requires Lawful(a) && mva >= 5.0 && 0.0 <= length < 1.0 && 0.0 <= width < 1.0
    ensures SizeFrom(a, mva, 1.8, 0.5, length) >= SizeFrom(a, mva, 1.4, 0.3, width) + 0.4
  {
    var s := a.sqrt(mva);
    assert s >= 0.0;
    BetweenBounds(length, 0.9, 1.1);
    BetweenBounds(width, 0.9, 1.1);
    ProductMonotone(0.9, Between(length, 0.9, 1.1), Product(0.5, s));
    ProductMonotone(Between(width, 0.9, 1.1), 1.1, Product(0.3, s));
    assert Product(Product(0.5, s), 0.9) == 0.45 * s && Product(Product(0.3, s), 1.1) == 0.33 * s;
  }

  lemma RecordIsPlausible(a: Analysis, id: string, s: Sketch, f: real, p: real, g: real, z: real, cooling: string, y: real,
                          n: real, l: real, m: real, x: real, w: real, h: real)
    requires Lawful(a) && s.app < 5 && Respects(ENVELOPES[s.app], s) && CooledFor(s.mva, cooling)
    requires 0.0 <= g < 1.0 && 0.0 <= z < 1.0 && 0.0 <= y < 1.0 && 0.0 <= n < 1.0 && 0.0 <= l < 1.0
    requires 0.0 <= m < 1.0 && 0.0 <= x < 1.0 && 0.0 <= w < 1.0 && 0.0 <= h < 1.0
    ensures var t := RecordFrom(a, id, s, f, p, g, z, cooling, y, n, l, m, x, w, h);
            && t.id == id && Plausible(t)
            && (Validate(t) == None <==> MatchesId(id))
            && (id != "" && !MatchesId(id) ==> Validate(t) == Some(InvalidId))
  {
    hide Round1, Round2, ImpedanceFrom, YearFrom, MassFrom, SizeFrom, Between, Product, Quotient, MatchesId, Oversized,
      CooledAsRated;
    var t := RecordFrom(a, id, s, f, p, g, z, cooling, y, n, l, m, x, w, h);
    assert t.cooling in VALID_COOLING_TYPES;
    hide CooledFor, Lawful;
    if MatchesId(id) {
      ValidIdIsPlain(id);
    }
    EnvelopesAreSound(s.app);
    RatingRounds(s.app, s.mva);
    ImpedanceBounds(a, s.mva, z);
    Round1Within(ImpedanceFrom(a, s.mva, z), 45, 220);
    YearBounds(a, y);
    LossBounds(s.mva, n, l);
    DimensionsAreSound(a, s.mva, m, x, w, h);
    CoolingRounds(s.mva, t);
    assert WithinEnvelope(ENVELOPES[s.app], t);
    assert t.vectorGroup in VALID_VECTOR_GROUPS;
  }

  /**
   * Every field of every record by its own draw. A choice among n takes the part
   * of the unit interval the draw lies in; from 60 MVA on the cooling takes a draw.
   */
  lemma RecordByDraws(a: Analysis, r: nat -> real, k: nat, n: nat)
    requires Lawful(a) && UnitStream(r)
    ensures var s, t := SketchAt(a, r, k), RecordAt(a, r, k, n);
            var j := if s.mva < 60.0 then k + 8 else k + 9;
            && t.application == VALID_APPLICATIONS[s.app] && s.app as real <= 5.0 * r(k) < s.app as real + 1.0
            && t.hv == s.hv && t.lv == s.lv && GroupBy(ENVELOPES[s.app].groups, r(k + 6), t.vectorGroup)
            && (t.frequency == 60 <==> r(k + 4) < 0.9) && (t.frequency == 50 <==> r(k + 4) >= 0.9)
            && (t.phases == 3 <==> r(k + 5) < 0.99) && (t.phases == 1 <==> r(k + 5) >= 0.99)
            && CooledFor(s.mva, t.cooling)
            && BuiltFrom(a, s.mva, r(k + 7), r(j), r(j + 1), r(j + 2), r(j + 3), r(j + 4), r(j + 5), r(j + 6), t)
  {
    hide GroupBy, RecordAt, RecordFrom, SketchAt, Respects, CoolingFrom, CoolingDraws, IdFor, BuiltFrom, CooledFor, Lawful;
    var s := SketchAt(a, r, k);
    var j := k + 8 + CoolingDraws(s.mva);
    SketchedRating(a, r, k);
    CoolingByDraw(s.mva, DrawAt(r, k + 8));
    RecordAtIs(a, r, k, n, s, j);
    RecordIsBuilt(a, IdFor(n), s, DrawAt(r, k + 4), DrawAt(r, k + 5), DrawAt(r, k + 6), DrawAt(r, k + 7),
                  CoolingFrom(s.mva, DrawAt(r, k + 8)), DrawAt(r, j), DrawAt(r, j + 1), DrawAt(r, j + 2),
                  DrawAt(r, j + 3), DrawAt(r, j + 4), DrawAt(r, j + 5), DrawAt(r, j + 6));
    RecordChoices(a, IdFor(n), s, DrawAt(r, k + 4), DrawAt(r, k + 5), DrawAt(r, k + 6), DrawAt(r, k + 7),
                  CoolingFrom(s.mva, DrawAt(r, k + 8)), DrawAt(r, j), DrawAt(r, j + 1), DrawAt(r, j + 2),
                  DrawAt(r, j + 3), DrawAt(r, j + 4), DrawAt(r, j + 5), DrawAt(r, j + 6));
  }

  lemma SketchedRating(a: Analysis, r: nat -> real, k: nat)
    requires Lawful(a) && UnitStream(r)
    ensures var s := SketchAt(a, r, k); 5.0 <= s.mva <= 400.0 && s.app as real <= 5.0 * r(k) < s.app as real + 1.0
  {
    SketchInEnvelope(a, r, k);
    EnvelopesAreSound(SketchAt(a, r, k).app);
    hide Below, LogBetween, SupportedOrAll, LowerOrAll, Choose, ENVELOPES, Lawful;
  }

  lemma RecordChoices(a: Analysis, id: string, s: Sketch, f: real, p: real, g: real, z: real, cooling: string, y: real,
                      n: real, l: real, m: real, x: real, w: real, h: real)
    requires s.app < 5 && 0.0 <= g < 1.0
    ensures var t := RecordFrom(a, id, s, f, p, g, z, cooling, y, n, l, m, x, w, h);
            && t.application == VALID_APPLICATIONS[s.app] && t.hv == s.hv && t.lv == s.lv && t.cooling == cooling
            && GroupBy(ENVELOPES[s.app].groups, g, t.vectorGroup)
            && (t.frequency == 60 <==> f < 0.9) && (t.frequency == 50 <==> f >= 0.9)
            && (t.phases == 3 <==> p < 0.99) && (t.phases == 1 <==> p >= 0.99)
  {
    hide Round1, Round2, ImpedanceFrom, YearFrom, MassFrom, SizeFrom, Between, Product;
  }

  /** What a plausible record's application says of its size, and its size and voltages of the application. */
  lemma ClassesByApplication(t: Transformer)
    requires Plausible(t)
    ensures t.application == "generation" ==> 30.0 <= t.ratedPower <= 400.0 && t.hv >= 115.0 && t.lv <= 69.0
    ensures t.application == "transmission" ==> 50.0 <= t.ratedPower <= 400.0 && t.hv >= 230.0 && 69.0 <= t.lv <= 138.0
    ensures t.application == "distribution" ==> 5.0 <= t.ratedPower <= 60.0 && 69.0 <= t.hv <= 138.0 && 13.8 <= t.lv <= 34.5
    ensures t.application == "industrial" ==> 10.0 <= t.ratedPower <= 80.0 && 69.0 <= t.hv <= 230.0 && 13.8 <= t.lv <= 69.0
    ensures t.application == "renewable" ==> 20.0 <= t.ratedPower <= 120.0 && 34.5 <= t.hv <= 138.0 && 13.8 <= t.lv <= 34.5
    ensures t.hv >= 345.0 ==> t.ratedPower >= 80.0
    ensures t.hv >= 230.0 ==> t.ratedPower >= 40.0
  {
    var i :| 0 <= i < 5 && VALID_APPLICATIONS[i] == t.application && WithinEnvelope(ENVELOPES[i], t);
    ApplicationsDiffer();
  }

  lemma ApplicationsDiffer()
    ensures forall i, j :: 0 <= i < j < 5 ==> VALID_APPLICATIONS[i] != VALID_APPLICATIONS[j]
  {
    assert forall i, j :: 0 <= i < j < 5 ==> VALID_APPLICATIONS[i][0] != VALID_APPLICATIONS[j][0];
  }

  /** Every record of every stream: plausible, and valid exactly when its number has three digits. */
  lemma EveryRecord(a: Analysis, r: nat -> real, k: nat, n: nat)
    requires Lawful(a) && UnitStream(r)
    ensures var t := RecordAt(a, r, k, n);
            && t.id == IdFor(n) && Plausible(t)
            && (n < 1000 ==> Valid(t)) && (n >= 1000 ==> Validate(t) == Some(InvalidId))
  {
    hide Plausible, Validate, RecordFrom, Respects, CoolingFrom, CoolingDraws, IdFor, MatchesId;
    var s := SketchAt(a, r, k);
    var j := k + 8 + CoolingDraws(s.mva);
    SketchInEnvelope(a, r, k);
    CoolingByDraw(s.mva, DrawAt(r, k + 8));
    IdForMatches(n);
    IdForShape(n);
    RecordAtIs(a, r, k, n, s, j);
    RecordIsPlausible(a, IdFor(n), s, DrawAt(r, k + 4), DrawAt(r, k + 5), DrawAt(r, k + 6), DrawAt(r, k + 7),
                      CoolingFrom(s.mva, DrawAt(r, k + 8)), DrawAt(r, j), DrawAt(r, j + 1), DrawAt(r, j + 2),
                      DrawAt(r, j + 3), DrawAt(r, j + 4), DrawAt(r, j + 5), DrawAt(r, j + 6));
  }

  /** The fleet of every stream: `n` plausible, valid records with different ids, up to 999. */
  lemma EveryFleet(a: Analysis, r: nat -> real, k: nat, n: nat)
    requires Lawful(a) && UnitStream(r) && n < 1000
    ensures forall i :: 0 <= i < n ==> Valid(FleetOf(a, r, k, n)[i]) && Plausible(FleetOf(a, r, k, n)[i])
    ensures forall i, j :: 0 <= i < j < n ==> FleetOf(a, r, k, n)[i].id != FleetOf(a, r, k, n)[j].id
  {
    hide Plausible, Validate, RecordAt, IdFor, PositionAfter;
    var fleet := FleetOf(a, r, k, n);
    forall i | 0 <= i < n ensures Valid(fleet[i]) && Plausible(fleet[i]) && fleet[i].id == IdFor(i + 1) {
      EveryRecord(a, r, PositionAfter(a, r, k, i), i + 1);
    }
    forall i, j | 0 <= i < j < n ensures fleet[i].id != fleet[j].id {
      if fleet[i].id == fleet[j].id {
        IdForInjective(i + 1, j + 1);
      }
    }
  }
}
