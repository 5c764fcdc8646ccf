// The thermal and electrical equations of the simulator, over the reals.
module Physics {
  import opened Rounding
  import opened Analysis
  import opened Measurement
  import opened Transformer

  const OIL_TIME_CONSTANT := 5400.0
  const WINDING_TIME_CONSTANT := 420.0

  const AMBIENT_BASE := 26.0
  const AMBIENT_AMPLITUDE := 5.0

  function Clamp(v: real, lo: real, hi: real): real
  {
    RMax(lo, RMin(v, hi))
  }

  /** The relative losses at load ratio `k`: the power's argument in the oil equation. */
  function LossFactor(k: real, lossRatio: real): real
    requires 1.0 + lossRatio != 0.0
  {
    Quotient(1.0 + Product(lossRatio, Square(k)), 1.0 + lossRatio)
  }

  function OilPower(a: Analysis, k: real, lossRatio: real): real
  {
    a.pow08(if 1.0 + lossRatio == 0.0 then a.overZero(1.0 + Product(lossRatio, Square(k))) else LossFactor(k, lossRatio))
  }

  function TopOilSteady(a: Analysis, ambient: real, k: real, lossRatio: real, maxOilRise: real): real
  {
    if k <= 0.0 then ambient else ambient + Product(maxOilRise, OilPower(a, k, lossRatio))
  }

  function WindingSteady(a: Analysis, oil: real, k: real, windingGrad: real): real
  {
    if k <= 0.0 then oil else oil + Product(windingGrad, a.pow08(Square(k)))
  }

  /** What is left of a gap after a step of `dt` seconds. */
  function Decay(a: Analysis, dt: real, tau: real): real
    requires tau > 0.0
  {
    a.exp(-Quotient(dt, tau))
  }

  /** Closing all of the gap to the target but the fraction `q`. */
  function Lag(current: real, target: real, q: real): real
  {
    current + (target - current) * (1.0 - q)
  }

  function ThermalStep(a: Analysis, current: real, target: real, tau: real, dt: real): real
  {
    if tau <= 0.0 then target else Lag(current, target, Decay(a, dt, tau))
  }

  function Square(x: real): real
  {
    x * x
  }

  /** The day's shape: a plateau, a midday and an evening bump. */
  function DayShape(a: Analysis, hour: real): real
  {
    0.45 + 0.30 * a.exp(-(Square(hour - 13.0) / 14.0)) + 0.18 * a.exp(-(Square(hour - 19.0) / 8.0))
  }

  function Swing(a: Analysis, hour: real, offset: real): real
  {
    1.0 + 0.12 * a.sin(2.0 * a.pi * (hour + offset) / 24.0)
  }

  function BaseLoad(a: Analysis, hour: real, offset: real): real
  {
    Product(DayShape(a, hour), Swing(a, hour, offset))
  }

  function DeriveCurrent(a: Analysis, load: real, ratedPower: real, kv: real): real
  {
    var base := Product(a.sqrt(3.0), kv * 1000.0);
    if base <= 0.0 then 0.0 else Quotient(Product(ratedPower * 1_000_000.0, load / 100.0), base)
  }

  function DeriveVoltage(nominal: real, load: real): real
  {
    var droop := if load > 0.0 then 0.02 * load / 100.0 else 0.0;
    Product(nominal, 1.0 - droop)
  }

  function OilRiseFor(cooling: string): real
  {
    if cooling == ODAF then 60.0
    else if cooling == OFWF then 58.0
    else if cooling == OFAF then 55.0
    else if cooling == ONAF then 52.0
    else 48.0
  }

  function WindingGradFor(cooling: string): real
  {
    if cooling == ODAF then 12.0
    else if cooling == OFWF then 13.0
    else if cooling == OFAF then 15.0
    else if cooling == ONAF then 18.0
    else 20.0
  }

  /** Hour of the day with its minutes, as the UTC clock shows them. */
  function HourOf(t: Instant): real
  {
    var hour, minute := (t / (3600 * NANOS)) % 24, (t / (60 * NANOS)) % 60;
    hour as real + minute as real / 60.0
  }

  function AmbientAt(a: Analysis, t: Instant): real
  {
    AMBIENT_BASE + AMBIENT_AMPLITUDE * a.sin(2.0 * a.pi * (HourOf(t) - 14.0) / 24.0)
  }

  function LossRatioOf(t: Transformer): real
  {
    if t.noLoadLoss <= 0.0 then 8.0 else Quotient(t.loadLoss, t.noLoadLoss)
  }
}
