// The design rules of the synthetic fleet: envelopes, the value each draw gives,
// and the record each position of the random source determines.
module FleetDesign {
  import opened Decimal
  import opened Random
  import opened Rounding
  import opened Analysis
  import opened Transformer

  /** A plausible envelope for an application. */
  datatype Envelope = Envelope(minPower: real, maxPower: real, hvs: seq<real>, lvs: seq<real>, groups: seq<string>)

  const GENERATION := Envelope(30.0, 400.0, [115.0, 138.0, 230.0, 345.0, 500.0], [11.0, 13.8, 20.0, 34.5, 69.0],
                               ["YNd11", "YNd5", "Yd11", "Ynd5"])
  const TRANSMISSION := Envelope(50.0, 400.0, [230.0, 345.0, 500.0], [69.0, 115.0, 138.0], ["YNd11", "YNd1", "Yd11"])
  const DISTRIBUTION := Envelope(5.0, 60.0, [69.0, 138.0], [13.8, 34.5], ["Dyn1", "Yy0", "Dd0", "Zyn11"])
  const INDUSTRIAL := Envelope(10.0, 80.0, [69.0, 138.0, 230.0], [13.8, 34.5, 69.0], ["Dyn1", "YNd11", "Dd0"])
  const RENEWABLE := Envelope(20.0, 120.0, [34.5, 69.0, 138.0], [13.8, 34.5], ["Dyn1", "YNd11", "Dd0"])

  /** In the order of `VALID_APPLICATIONS`. */
  const ENVELOPES: seq<Envelope> := [GENERATION, TRANSMISSION, DISTRIBUTION, INDUSTRIAL, RENEWABLE]

  // ---- what one draw gives ----

  /** An integer below `n` from a draw. */
  function Below(draw: real, n: nat): (i: nat)
    requires n > 0 && 0.0 <= draw < 1.0
    ensures i < n && i as real <= draw * n as real < i as real + 1.0
  {
    var i := (draw * n as real).Floor;
    BelowBounds(draw, n);
    i
  }

  lemma BelowBounds(draw: real, n: nat)
    requires n > 0 && 0.0 <= draw < 1.0
    ensures 0 <= (draw * n as real).Floor < n
  {
    assert draw * n as real >= 0.0;
    assert (1.0 - draw) * n as real > 0.0;
  }

  function Between(draw: real, lo: real, hi: real): real
  {
    lo + Product(draw, hi - lo)
  }

  /** Uniform on the logarithmic scale. */
  function LogBetween(a: Analysis, draw: real, lo: real, hi: real): real
  {
    a.exp(a.ln(lo) + Product(draw, a.ln(hi) - a.ln(lo)))
  }

  function FrequencyFrom(draw: real): int
  {
    if draw < 0.9 then 60 else 50
  }

  function PhasesFrom(draw: real): int
  {
    if draw < 0.99 then 3 else 1
  }

  function YearFrom(a: Analysis, draw: real): int
  {
    1990 + (a.sqrt(draw) * 36.0).Floor
  }

  function ImpedanceFrom(a: Analysis, mva: real, draw: real): real
  {
    var base := 5.0 + 5.0 * a.log10(mva);
    Product(if base > 25.0 then 25.0 else base, Between(draw, 0.9, 1.1))
  }

  /** The cooling types a rating leaves to choose from; a single one takes no draw. */
  function CoolingChoices(mva: real): (choices: seq<string>)
    ensures choices != []
  {
    if mva < 15.0 then [ONAN]
    else if mva < 60.0 then [ONAF]
    else if mva < 150.0 then [ONAF, OFAF]
    else [OFAF, ODAF, OFWF]
  }

  function CoolingDraws(mva: real): nat
  {
    if |CoolingChoices(mva)| == 1 then 0 else 1
  }

  function CoolingFrom(mva: real, draw: real): string
    requires 0.0 <= draw < 1.0
  {
    var choices := CoolingChoices(mva);
    if |choices| == 1 then choices[0] else choices[Below(draw, |choices|)]
  }

  function MassFrom(a: Analysis, mva: real, draw: real): real
  {
    22.0 + Product(1.35 * a.pow09(mva), Between(draw, 0.85, 1.15))
  }

  function SizeFrom(a: Analysis, mva: real, offset: real, slope: real, draw: real): real
  {
    offset + Product(Product(slope, a.sqrt(mva)), Between(draw, 0.9, 1.1))
  }

  // ---- voltage classes ----

  /** The class is too high for a unit of this rating. */
  predicate Oversized(mva: real, kv: real)
  {
    (kv >= 345.0 && mva < 80.0) || (kv >= 230.0 && mva < 40.0)
  }

  ghost predicate Ascending(kvs: seq<real>)
  {
    forall i, j :: 0 <= i < j < |kvs| ==> kvs[i] < kvs[j]
  }

  function Supported(mva: real, kvs: seq<real>): (s: seq<real>)
    ensures forall kv :: kv in s <==> kv in kvs && !Oversized(mva, kv)
    ensures Ascending(kvs) ==> Ascending(s)
  {
    if kvs == [] then []
    else
      var rest := Supported(mva, kvs[..|kvs| - 1]);
      assert forall i :: 0 <= i < |rest| ==> rest[i] in rest;
      if Oversized(mva, kvs[|kvs| - 1]) then rest else rest + [kvs[|kvs| - 1]]
  }

  function SupportedOrAll(mva: real, kvs: seq<real>): (s: seq<real>)
    ensures kvs != [] ==> s != []
  {
    if Supported(mva, kvs) == [] then kvs else Supported(mva, kvs)
  }

  function Lower(hv: real, lvs: seq<real>): (s: seq<real>)
    ensures forall lv :: lv in s <==> lv in lvs && lv < hv
    ensures Ascending(lvs) ==> Ascending(s)
  {
    if lvs == [] then []
    else
      var rest := Lower(hv, lvs[..|lvs| - 1]);
      assert forall i :: 0 <= i < |rest| ==> rest[i] in rest;
      if lvs[|lvs| - 1] < hv then rest + [lvs[|lvs| - 1]] else rest
  }

  function LowerOrAll(hv: real, lvs: seq<real>): (s: seq<real>)
    ensures lvs != [] ==> s != []
  {
    if Lower(hv, lvs) == [] then lvs else Lower(hv, lvs)
  }

  // ---- the record at a position of the source ----

  /** `TR-%03d`. */
  function IdFor(n: nat): string
  {
    "TR-" + (if n < 10 then "00" + Digits(n) else if n < 100 then "0" + Digits(n) else Digits(n))
  }

  function Choose<T>(xs: seq<T>, draw: real): T
    requires xs != [] && 0.0 <= draw < 1.0
  {
    xs[Below(draw, |xs|)]
  }

  /** The envelope, the rating and the voltages: the first four draws. */
  datatype Sketch = Sketch(app: nat, mva: real, hv: real, lv: real)

  function SketchFrom(a: Analysis, d0: real, d1: real, d2: real, d3: real): (s: Sketch)
    requires 0.0 <= d0 < 1.0 && 0.0 <= d1 < 1.0 && 0.0 <= d2 < 1.0 && 0.0 <= d3 < 1.0
    ensures s.app < 5
  {
    var app := Below(d0, |ENVELOPES|);
    var env := ENVELOPES[app];
    var mva := LogBetween(a, d1, env.minPower, env.maxPower);
    var hv := Choose(SupportedOrAll(mva, env.hvs), d2);
    Sketch(app, mva, hv, Choose(LowerOrAll(hv, env.lvs), d3))
  }

  ghost function SketchAt(a: Analysis, r: nat -> real, k: nat): (s: Sketch)
    requires UnitStream(r)
    ensures s.app < 5
  {
    SketchFrom(a, DrawAt(r, k), DrawAt(r, k + 1), DrawAt(r, k + 2), DrawAt(r, k + 3))
  }

  /** The record made of a sketch, a cooling type and the remaining draws. */
  function RecordFrom(a: Analysis, id: string, s: Sketch, frequency: real, phases: real, group: real, impedance: real,
                      cooling: string, year: real, noLoad: real, load: real, mass: real, length: real, width: real,
                      height: real): Transformer
    requires s.app < 5 && 0.0 <= group < 1.0
  {
    Transformer(
      id, Round1(s.mva), s.hv, s.lv, FrequencyFrom(frequency), PhasesFrom(phases),
      Choose(ENVELOPES[s.app].groups, group),
      Round1(ImpedanceFrom(a, s.mva, impedance)),
      cooling,
      YearFrom(a, year),
      VALID_APPLICATIONS[s.app],
      Round1(Product(s.mva * 1000.0, Between(noLoad, 0.0008, 0.0016))),
      Round1(Product(s.mva * 1000.0, Between(load, 0.006, 0.012))),
      Round1(MassFrom(a, s.mva, mass)),
      Round2(SizeFrom(a, s.mva, 1.8, 0.5, length)),
      Round2(SizeFrom(a, s.mva, 1.4, 0.3, width)),
      Round2(SizeFrom(a, s.mva, 2.6, 0.25, height)))
  }

  /** The record numbered `n` when the source stands at draw `k`. */
  ghost function RecordAt(a: Analysis, r: nat -> real, k: nat, n: nat): Transformer
    requires UnitStream(r)
  {
    var s := SketchAt(a, r, k);
    var j := k + 8 + CoolingDraws(s.mva);
    RecordFrom(a, IdFor(n), s, DrawAt(r, k + 4), DrawAt(r, k + 5), DrawAt(r, k + 6), DrawAt(r, k + 7),
               CoolingFrom(s.mva, DrawAt(r, k + 8)), DrawAt(r, j), DrawAt(r, j + 1), DrawAt(r, j + 2), DrawAt(r, j + 3),
               DrawAt(r, j + 4), DrawAt(r, j + 5), DrawAt(r, j + 6))
  }

  lemma RecordAtIs(a: Analysis, r: nat -> real, k: nat, n: nat, s: Sketch, j: nat)
    requires UnitStream(r) && s == SketchAt(a, r, k) && j == k + 8 + CoolingDraws(s.mva)
    ensures RecordAt(a, r, k, n) ==
            RecordFrom(a, IdFor(n), s, DrawAt(r, k + 4), DrawAt(r, k + 5), DrawAt(r, k + 6), DrawAt(r, k + 7),
                       CoolingFrom(s.mva, DrawAt(r, k + 8)), DrawAt(r, j), DrawAt(r, j + 1), DrawAt(r, j + 2),
                       DrawAt(r, j + 3), DrawAt(r, j + 4), DrawAt(r, j + 5), DrawAt(r, j + 6))
  {
    hide SketchAt, IdFor, RecordFrom, CoolingFrom, CoolingDraws;
  }

  lemma RecordId(a: Analysis, r: nat -> real, k: nat, n: nat)
    requires UnitStream(r)
    ensures RecordAt(a, r, k, n).id == IdFor(n)
  {
    hide SketchAt, Round1, Round2, Choose, CoolingFrom, CoolingDraws, FrequencyFrom, PhasesFrom, YearFrom,
      ImpedanceFrom, Product, MassFrom, SizeFrom, IdFor;
  }

  /** Where the source stands after `n` records. */
  ghost function PositionAfter(a: Analysis, r: nat -> real, k: nat, n: nat): nat
    requires UnitStream(r)
  {
    if n == 0 then k
    else
      var p := PositionAfter(a, r, k, n - 1);
      p + 15 + CoolingDraws(SketchAt(a, r, p).mva)
  }

  /** The i-th record of a fleet, from zero. */
  ghost function MemberAt(a: Analysis, r: nat -> real, k: nat, i: nat): Transformer
    requires UnitStream(r)
  {
    RecordAt(a, r, PositionAfter(a, r, k, i), i + 1)
  }

  ghost function FleetOf(a: Analysis, r: nat -> real, k: nat, n: nat): seq<Transformer>
    requires UnitStream(r)
  {
    seq(n, i requires 0 <= i < n => MemberAt(a, r, k, i))
  }
}
