// The fleet simulator: a class that steps its units as the program does, and
// the closed description of every tick of every unit it is proved against.
module Simulator {
  import opened Wrappers
  import opened Rounding
  import opened Random
  import opened Analysis
  import opened Measurement
  import opened Transformer
  import opened Physics

  /** Live thermal state of one transformer. */
  datatype Unit = Unit(oil: real, winding: real, ambient: real)

  /** Derived once per transformer from its design record and three draws. */
  datatype Params = Params(maxOilRise: real, windingGrad: real, lossRatio: real, ratedKV: real, loadOffset: real)

  /** Everything a run depends on. The random source is a stream of draws in [0, 1). */
  datatype World = World(
    a: Analysis,
    clock: Clock,
    r: nat -> real,
    interval: int,
    intensity: real,
    fleet: seq<Transformer>,
    start: Instant)

  function Effective(intensity: real): real
  {
    if intensity <= 0.0 then 1.0 else intensity
  }

  function Jitter(draw: real, scale: real): real
  {
    (draw - 0.5) * 2.0 * scale
  }

  function ParamsFrom(t: Transformer, d0: real, d1: real, d2: real): Params
  {
    Params(OilRiseFor(t.cooling) + Jitter(d0, 2.0), WindingGradFor(t.cooling) + Jitter(d1, 1.5),
           LossRatioOf(t), t.hv, d2 * 8.0)
  }

  function Weather(ambient: real): real
  {
    1.0 + (ambient - AMBIENT_BASE) * 0.01
  }

  function Noise(draw: real): real
  {
    1.0 + (draw - 0.5) * 0.06
  }

  /** The load in percent at nominal intensity, before clamping. */
  function NominalLoad(a: Analysis, now: Instant, offset: real, ambient: real, draw: real): real
  {
    100.0 * Product(Product(BaseLoad(a, HourOf(now), offset), Weather(ambient)), Noise(draw))
  }

  function TargetLoad(a: Analysis, intensity: real, now: Instant, offset: real, ambient: real, draw: real): real
  {
    Clamp(Product(intensity, NominalLoad(a, now, offset, ambient, draw)), 5.0, 160.0)
  }

  predicate GoodParams(p: Params)
  {
    p.lossRatio >= 0.0
  }

  function OilAfter(a: Analysis, dt: real, p: Params, u: Unit, ambient: real, load: real): real
  {
    ThermalStep(a, u.oil, TopOilSteady(a, ambient, load / 100.0, p.lossRatio, p.maxOilRise), OIL_TIME_CONSTANT, dt)
  }

  function WindingAfter(a: Analysis, dt: real, p: Params, u: Unit, oil: real, load: real): real
  {
    ThermalStep(a, u.winding, WindingSteady(a, oil, load / 100.0, p.windingGrad), WINDING_TIME_CONSTANT, dt)
  }

  /** One unit's step: the load is set against the ambient of the previous tick. */
  function UnitAfter(a: Analysis, dt: real, p: Params, u: Unit, ambient: real, load: real): Unit
  {
    var oil := OilAfter(a, dt, p, u, ambient, load);
    Unit(oil, WindingAfter(a, dt, p, u, oil, load), ambient)
  }

  function OilLevel(oil: real, ambient: real, draw: real): real
  {
    Clamp(96.0 + (oil - ambient) * 0.03 + Jitter(draw, 0.4), 85.0, 99.8)
  }

  function Emit(a: Analysis, c: Clock, now: Instant, t: Transformer, p: Params, u: Unit, load: real, draw: real): Measurement
  {
    Measurement(
      SCHEMA_VERSION, t.id, c.format(now),
      Round1(load), Round1(u.ambient), Round1(u.oil), Round1(u.winding),
      Round1(OilLevel(u.oil, u.ambient, draw)),
      Round1(DeriveCurrent(a, load, t.ratedPower, p.ratedKV)),
      Round1(DeriveVoltage(p.ratedKV, load)),
      ClassifyState(u.winding, u.oil, load))
  }

  // ---- the run, tick by tick and unit by unit ----

  ghost predicate GoodWorld(w: World)
  {
    w.fleet != [] && w.interval > 0
  }

  /** No loss ratio is negative, as for every record that passes validation. */
  ghost predicate SoundLosses(w: World)
  {
    forall i :: 0 <= i < |w.fleet| ==> LossRatioOf(w.fleet[i]) >= 0.0
  }

  lemma ValidLossesAreSound(w: World)
    requires forall i :: 0 <= i < |w.fleet| ==> Valid(w.fleet[i])
    ensures SoundLosses(w)
  {
    forall i | 0 <= i < |w.fleet| ensures LossRatioOf(w.fleet[i]) >= 0.0 {
      LossRatioSign(w.fleet[i]);
    }
  }

  lemma LossRatioSign(t: Transformer)
    requires t.loadLoss >= 0.0
    ensures LossRatioOf(t) >= 0.0
  {
  }

  /** Each unit takes three draws when the simulator is built. */
  function ParamsAt(w: World, i: nat): Params
    requires i < |w.fleet|
  {
    ParamsFrom(w.fleet[i], DrawAt(w.r, 3 * i), DrawAt(w.r, 3 * i + 1), DrawAt(w.r, 3 * i + 2))
  }

  /** The parameter table is keyed by id, so a later record replaces an earlier one. */
  function ParamTable(w: World, n: nat): map<string, Params>
    requires n <= |w.fleet|
  {
    if n == 0 then map[] else ParamTable(w, n - 1)[w.fleet[n - 1].id := ParamsAt(w, n - 1)]
  }

  lemma ParamTableGrows(w: World, i: nat, d0: real, d1: real, d2: real)
    requires i < |w.fleet| && d0 == DrawAt(w.r, 3 * i) && d1 == DrawAt(w.r, 3 * i + 1) && d2 == DrawAt(w.r, 3 * i + 2)
    ensures ParamTable(w, i + 1) == ParamTable(w, i)[w.fleet[i].id := ParamsFrom(w.fleet[i], d0, d1, d2)]
  {
  }

  lemma {:induction false} ParamTableHas(w: World, n: nat, i: nat)
    requires i < n <= |w.fleet|
    ensures w.fleet[i].id in ParamTable(w, n)
  {
    hide ParamsAt;
    if i < n - 1 {
      ParamTableHas(w, n - 1, i);
    }
  }

  /** Every entry was made for the last record of that id. */
  lemma {:induction false} ParamTableEntry(w: World, n: nat, id: string) returns (j: nat)
    requires n <= |w.fleet| && id in ParamTable(w, n)
    ensures j < n && w.fleet[j].id == id && ParamTable(w, n)[id] == ParamsAt(w, j)
    ensures forall k :: j < k < n ==> w.fleet[k].id != id
  {
    hide ParamsAt;
    if id == w.fleet[n - 1].id {
      j := n - 1;
    } else {
      j := ParamTableEntry(w, n - 1, id);
    }
  }

  const ZERO_PARAMS := Params(0.0, 0.0, 0.0, 0.0, 0.0)

  /** Reading a table with a key it lacks yields the zero parameters. */
  function Lookup(table: map<string, Params>, id: string): Params
  {
    if id in table then table[id] else ZERO_PARAMS
  }

  function ParamsOf(w: World, i: nat): Params
    requires i < |w.fleet|
  {
    Lookup(ParamTable(w, |w.fleet|), w.fleet[i].id)
  }

  lemma ParamsOfSource(w: World, i: nat) returns (j: nat)
    requires i < |w.fleet|
    ensures j < |w.fleet| && w.fleet[j].id == w.fleet[i].id && ParamsOf(w, i) == ParamsAt(w, j)
    ensures forall k :: j < k < |w.fleet| ==> w.fleet[k].id != w.fleet[i].id
  {
    hide ParamsAt;
    ParamTableHas(w, |w.fleet|, i);
    j := ParamTableEntry(w, |w.fleet|, w.fleet[i].id);
  }

  function NowAt(w: World, n: nat): Instant
  {
    if n == 0 then w.start else NowAt(w, n - 1) + w.interval
  }

  lemma {:induction false} NowIsLinear(w: World, n: nat)
    ensures NowAt(w, n) == w.start + n * w.interval
  {
    if n > 0 {
      NowIsLinear(w, n - 1);
      assert n * w.interval == (n - 1) * w.interval + w.interval;
    }
  }

  /** The step in seconds. */
  function Dt(w: World): real
  {
    w.interval as real / 1_000_000_000.0
  }

  /** Draws taken before tick `n + 1`: three per unit at the start, two per unit and tick. */
  function DrawsBefore(w: World, n: nat): nat
  {
    if n == 0 then 3 * |w.fleet| else DrawsBefore(w, n - 1) + 2 * |w.fleet|
  }

  /** What one pass of the loop over the fleet works on: time, parameters, unit and its two draws. */
  datatype PassInput = PassInput(now: Instant, p: Params, u: Unit, d: real, e: real)

  datatype PassResult = PassResult(unit: Unit, m: Measurement)

  /** The input whose first draw is the `k`-th. */
  function InputWith(now: Instant, p: Params, u: Unit, r: nat -> real, k: nat): PassInput
  {
    PassInput(now, p, u, DrawAt(r, k), DrawAt(r, k + 1))
  }

  function LoadOf(w: World, x: PassInput): real
  {
    TargetLoad(w.a, w.intensity, x.now, x.p.loadOffset, x.u.ambient, x.d)
  }

  function Pass(w: World, t: Transformer, x: PassInput): PassResult
  {
    var load := LoadOf(w, x);
    var unit := UnitAfter(w.a, Dt(w), x.p, x.u, AmbientAt(w.a, x.now), load);
    PassResult(unit, Emit(w.a, w.clock, x.now, t, x.p, unit, load, x.e))
  }

  ghost function InputAt(w: World, n: nat, i: nat): PassInput
    requires GoodWorld(w) && i < |w.fleet| && n > 0
    decreases n, 0
  {
    InputWith(NowAt(w, n), ParamsOf(w, i), UnitAt(w, n - 1, i), w.r, DrawsBefore(w, n - 1) + 2 * i)
  }

  /** What tick `n` does to unit `i` and reports about it. */
  ghost function PassAt(w: World, n: nat, i: nat): PassResult
    requires GoodWorld(w) && i < |w.fleet| && n > 0
    decreases n, 1
  {
    Pass(w, w.fleet[i], InputAt(w, n, i))
  }

  ghost function UnitAt(w: World, n: nat, i: nat): Unit
    requires GoodWorld(w) && i < |w.fleet|
    decreases n, 2
  {
    if n == 0 then
      var ambient := AmbientAt(w.a, NowAt(w, 0));
      Unit(ambient, ambient, ambient)
    else PassAt(w, n, i).unit
  }

  ghost function EmittedAt(w: World, n: nat, i: nat): Measurement
    requires GoodWorld(w) && i < |w.fleet| && n > 0
  {
    PassAt(w, n, i).m
  }

  ghost function UnitsAt(w: World, n: nat): seq<Unit>
    requires GoodWorld(w)
  {
    seq(|w.fleet|, i requires 0 <= i < |w.fleet| => UnitAt(w, n, i))
  }

  ghost function BatchAt(w: World, n: nat): seq<Measurement>
    requires GoodWorld(w) && n > 0
  {
    seq(|w.fleet|, i requires 0 <= i < |w.fleet| => EmittedAt(w, n, i))
  }

  /** The load unit `i` carries in tick `n`. */
  ghost function LoadAt(w: World, n: nat, i: nat): real
    requires GoodWorld(w) && i < |w.fleet| && n > 0
  {
    LoadOf(w, InputAt(w, n, i))
  }

  /** The position of the draw that makes the load noise of unit `i` in tick `n`. */
  ghost function DrawIndex(w: World, n: nat, i: nat): nat
    requires n > 0
  {
    DrawsBefore(w, n - 1) + 2 * i
  }

  /** A tick in terms of the unit before and after it. */
  lemma TickEquations(w: World, n: nat, i: nat)
    requires GoodWorld(w) && i < |w.fleet| && n > 0
    ensures LoadAt(w, n, i) == TargetLoad(w.a, w.intensity, NowAt(w, n), ParamsOf(w, i).loadOffset,
                                          UnitAt(w, n - 1, i).ambient, DrawAt(w.r, DrawIndex(w, n, i)))
    ensures UnitAt(w, n, i) == UnitAfter(w.a, Dt(w), ParamsOf(w, i), UnitAt(w, n - 1, i),
                                         AmbientAt(w.a, NowAt(w, n)), LoadAt(w, n, i))
    ensures EmittedAt(w, n, i) == Emit(w.a, w.clock, NowAt(w, n), w.fleet[i], ParamsOf(w, i),
                                       UnitAt(w, n, i), LoadAt(w, n, i), DrawAt(w.r, DrawIndex(w, n, i) + 1))
  {
    hide TargetLoad, UnitAfter, Emit, Product;
  }

  lemma UnitsStart(w: World, n: nat, units: seq<Unit>, ambient: real)
    requires GoodWorld(w) && n == 0 && ambient == AmbientAt(w.a, w.start)
    requires |units| == |w.fleet| && forall i :: 0 <= i < |units| ==> units[i] == Unit(ambient, ambient, ambient)
    ensures units == UnitsAt(w, n)
  {
    hide AmbientAt;
  }

  lemma InputIs(w: World, n: nat, i: nat, now: Instant, p: Params, u: Unit, k: nat) returns (x: PassInput)
    requires GoodWorld(w) && i < |w.fleet| && n > 0 && now == NowAt(w, n)
    requires p == ParamsOf(w, i) && u == UnitAt(w, n - 1, i) && k == DrawsBefore(w, n - 1) + 2 * i
    ensures x == InputWith(now, p, u, w.r, k)
    ensures x == InputAt(w, n, i)
  {
    x := InputAt(w, n, i);
  }

  /** The loop's progress by one unit: `units` is part new and part old, `batch` holds the new reports. */
  lemma TickProgress(w: World, n: nat, i: nat, units: seq<Unit>, batch: seq<Measurement>)
    requires GoodWorld(w) && i < |w.fleet| && n > 0
    requires units == UnitsAt(w, n)[..i] + UnitsAt(w, n - 1)[i..] && batch == BatchAt(w, n)[..i]
    ensures units[i] == UnitAt(w, n - 1, i)
    ensures units[i := PassAt(w, n, i).unit] == UnitsAt(w, n)[..i + 1] + UnitsAt(w, n - 1)[i + 1..]
    ensures batch + [PassAt(w, n, i).m] == BatchAt(w, n)[..i + 1]
  {
    AtIndex(w, n, i);
    Stitch(units, UnitsAt(w, n), UnitsAt(w, n - 1), i);
  }

  lemma AtIndex(w: World, n: nat, i: nat)
    requires GoodWorld(w) && i < |w.fleet| && n > 0
    ensures UnitsAt(w, n - 1)[i] == UnitAt(w, n - 1, i)
    ensures UnitsAt(w, n)[i] == PassAt(w, n, i).unit
    ensures BatchAt(w, n)[i] == PassAt(w, n, i).m
  {
  }

  lemma Stitch<T>(s: seq<T>, target: seq<T>, before: seq<T>, i: nat)
    requires i < |target| == |before| && s == target[..i] + before[i..]
    ensures s[i] == before[i] && s[i := target[i]] == target[..i + 1] + before[i + 1..]
  {
  }

  class Simulator {
    const w: World
    ghost var ticks: nat
    var pos: nat
    var units: seq<Unit>
    var param: map<string, Params>
    var now: Instant

    ghost predicate Valid()
      reads this
    {
      && GoodWorld(w)
      && w.intensity == Effective(w.intensity)
      && now == NowAt(w, ticks)
      && pos == DrawsBefore(w, ticks)
      && param == ParamTable(w, |w.fleet|)
      && units == UnitsAt(w, ticks)
    }

    constructor (w: World)
      requires GoodWorld(w)
      ensures Valid() && ticks == 0
      ensures this.w == if w.intensity > 0.0 then w else w.(intensity := 1.0)
    {
      this.w := w.(intensity := if w.intensity <= 0.0 then 1.0 else w.intensity);
      now, ticks, pos, units, param := w.start, 0, 0, [], map[];
      new;
      hide AmbientAt, ParamsAt, UnitsAt;
      var ambient := AmbientAt(w.a, now);
      var i := 0;
      while i < |w.fleet|
        invariant 0 <= i <= |w.fleet| && pos == 3 * i && now == w.start && ticks == 0
        invariant |units| == i && forall j :: 0 <= j < i ==> units[j] == Unit(ambient, ambient, ambient)
        invariant param == ParamTable(this.w, i)
      {
        AddUnit(i, ambient);
        i := i + 1;
      }
      UnitsStart(this.w, ticks, units, ambient);
    }

    /** Starts unit `i` at the ambient temperature and draws its parameters. */
    method AddUnit(i: nat, ambient: real)
      requires i < |w.fleet| && pos == 3 * i && param == ParamTable(w, i)
      modifies this`pos, this`units, this`param
      ensures pos == old(pos) + 3
      ensures units == old(units) + [Unit(ambient, ambient, ambient)]
      ensures param == ParamTable(w, i + 1)
    {
      units := units + [Unit(ambient, ambient, ambient)];
      var d0 := Draw();
      var d1 := Draw();
      var d2 := Draw();
      param := param[w.fleet[i].id := ParamsFrom(w.fleet[i], d0, d1, d2)];
      ParamTableGrows(w, i, d0, d1, d2);
    }

    /** The next value of the random source. */
    method Draw() returns (d: real)
      modifies this`pos
      ensures d == DrawAt(w.r, old(pos)) && pos == old(pos) + 1
    {
      d := DrawAt(w.r, pos);
      pos := pos + 1;
    }

    /** The loop body for one unit: steps it and appends its measurement. */
    method StepUnit(i: nat, p: Params, batch: seq<Measurement>, ghost x: PassInput) returns (more: seq<Measurement>)
      requires i < |w.fleet| == |units|
      requires x == InputWith(now, p, units[i], w.r, pos)
      modifies this`pos, this`units
      ensures pos == old(pos) + 2
      ensures units == old(units)[i := Pass(w, w.fleet[i], x).unit]
      ensures more == batch + [Pass(w, w.fleet[i], x).m]
    {
      var d := Draw();
      var load := TargetLoad(w.a, w.intensity, now, p.loadOffset, units[i].ambient, d);
      var ambient := AmbientAt(w.a, now);
      units := units[i := UnitAfter(w.a, Dt(w), p, units[i], ambient, load)];
      var e := Draw();
      more := batch + [Emit(w.a, w.clock, now, w.fleet[i], p, units[i], load, e)];
    }

    /** The loop body, for the unit the loop has come to in tick `n`. */
    method TickUnit(i: nat, ghost n: nat, batch: seq<Measurement>) returns (more: seq<Measurement>)
      requires GoodWorld(w) && i < |w.fleet| == |units| && n > 0
      requires now == NowAt(w, n) && param == ParamTable(w, |w.fleet|)
      requires pos == DrawsBefore(w, n - 1) + 2 * i && units[i] == UnitAt(w, n - 1, i)
      modifies this`pos, this`units
      ensures pos == old(pos) + 2
      ensures units == old(units)[i := PassAt(w, n, i).unit]
      ensures more == batch + [PassAt(w, n, i).m]
    {
      var p := Lookup(param, w.fleet[i].id);
      ghost var x := InputIs(w, n, i, now, p, units[i], pos);
      more := StepUnit(i, p, batch, x);
    }

    /** Advances every unit by one interval and reports one measurement per unit. */
    method Next() returns (batch: seq<Measurement>)
      requires Valid()
      modifies this
      ensures Valid() && ticks == old(ticks) + 1
      ensures batch == BatchAt(w, ticks)
    {
      hide PassAt, UnitAt, EmittedAt, AmbientAt;
      ghost var n := ticks + 1;
      now := now + w.interval;
      ticks := ticks + 1;
      batch := [];
      var i := 0;
      while i < |w.fleet|
        invariant 0 <= i <= |w.fleet|
        invariant n == ticks && now == NowAt(w, n) && param == ParamTable(w, |w.fleet|)
        invariant pos == DrawsBefore(w, n - 1) + 2 * i
        invariant units == UnitsAt(w, n)[..i] + UnitsAt(w, n - 1)[i..]
        invariant batch == BatchAt(w, n)[..i]
      {
        TickProgress(w, n, i, units, batch);
        batch := TickUnit(i, n, batch);
        i := i + 1;
      }
    }
  }

  datatype NewError = EmptyFleet | NonPositiveInterval

  /** Builds the simulator, or says what is wrong with its configuration. */
  method New(w: World) returns (r: Result<Simulator, NewError>)
    ensures r == Err(EmptyFleet) <==> w.fleet == []
    ensures r == Err(NonPositiveInterval) <==> w.fleet != [] && w.interval <= 0
    ensures r.Ok? ==> fresh(r.value) && r.value.Valid() && r.value.ticks == 0
    ensures r.Ok? ==> r.value.w == if w.intensity > 0.0 then w else w.(intensity := 1.0)
  {
    if w.fleet == [] {
      return Err(EmptyFleet);
    }
    if w.interval <= 0 {
      return Err(NonPositiveInterval);
    }
    var s := new Simulator(w);
    return Ok(s);
  }
}
