// The ingestion contract: which payloads are admitted.
module Validation {
  import opened Wrappers
  import opened Measurement
  import opened Json

  datatype ValidationError =
    | Unparsable
    | UnsupportedSchema(version: int)
    | UnknownTransformer(id: string)
    | BadTimestamp(text: string)
    | RangeViolation(field: Key)
    | BadState(state: string)

  datatype Validator = Validator(registry: set<string>, maxSkew: int)

  const DEFAULT_SKEW: int := 300 * NANOS

  method NewValidator(ids: seq<string>, maxSkew: int) returns (v: Validator)
    ensures forall id :: id in v.registry <==> id in ids
    ensures v.maxSkew == if maxSkew > 0 then maxSkew else 5 * 60 * 1_000_000_000
  {
    var registry: set<string> := {};
    for i := 0 to |ids|
      invariant forall id :: id in registry <==> id in ids[..i]
    {
      registry := registry + {ids[i]};
    }
    assert ids[..|ids|] == ids;
    v := Validator(registry, if maxSkew <= 0 then DEFAULT_SKEW else maxSkew);
  }

  /** The checks in the order the service makes them; the first one to fail names the error. */
  function Validate(c: Clock, v: Validator, now: Instant, payload: Option<Json>)
    : Result<Measurement, ValidationError>
  {
    if payload.None? then Err(Unparsable)
    else
      var d := DecodeMeasurement(payload.value);
      if d.None? then Err(Unparsable)
      else
        var m := d.value;
        if m.schemaVersion != SCHEMA_VERSION then Err(UnsupportedSchema(m.schemaVersion))
        else if m.transformerId !in v.registry then Err(UnknownTransformer(m.transformerId))
        else if c.parse(m.timestamp).None? then Err(BadTimestamp(m.timestamp))
        else if c.parse(m.timestamp).value > now + v.maxSkew then Err(BadTimestamp(m.timestamp))
        else if m.load < 0.0 || m.load > 200.0 then Err(RangeViolation(LoadPercent))
        else if m.ambient < -20.0 || m.ambient > 55.0 then Err(RangeViolation(AmbientTemperature))
        else if m.oil < -20.0 || m.oil > 150.0 then Err(RangeViolation(OilTemperature))
        else if m.winding < m.oil - 0.5 || m.winding > 200.0 then Err(RangeViolation(WindingTemperature))
        else if m.oilLevel < 0.0 || m.oilLevel > 100.0 then Err(RangeViolation(OilLevelPercent))
        else if m.current < 0.0 then Err(RangeViolation(CurrentA))
        else if m.voltage <= 0.0 then Err(RangeViolation(VoltageKV))
        else if !KnownState(m.state) then Err(BadState(m.state))
        else Ok(m)
  }

  /** Ranges other than the comparison of winding with oil. */
  predicate InRanges(m: Measurement)
  {
    && 0.0 <= m.load <= 200.0
    && -20.0 <= m.ambient <= 55.0
    && -20.0 <= m.oil <= 150.0
    && m.winding <= 200.0
    && 0.0 <= m.oilLevel <= 100.0
    && 0.0 <= m.current
    && 0.0 < m.voltage
  }

  predicate WindingClearsOil(m: Measurement)
  {
    m.winding >= m.oil - 0.5
  }

  /** The acceptance set, with no order among its conditions. */
  ghost predicate Admissible(c: Clock, v: Validator, now: Instant, m: Measurement)
  {
    && m.schemaVersion == SCHEMA_VERSION
    && m.transformerId in v.registry
    && c.parse(m.timestamp).Some?
    && c.parse(m.timestamp).value <= now + v.maxSkew
    && InRanges(m)
    && WindingClearsOil(m)
    && KnownState(m.state)
  }

  lemma ValidateAcceptsExactly(c: Clock, v: Validator, now: Instant, payload: Option<Json>, m: Measurement)
    ensures Validate(c, v, now, payload) == Ok(m) <==>
            payload.Some? && DecodeMeasurement(payload.value) == Some(m) && Admissible(c, v, now, m)
  {
  }

  /** The reading the key names is outside its own range. */
  predicate OutOfRange(m: Measurement, key: Key)
  {
    match key
    case LoadPercent => !(0.0 <= m.load <= 200.0)
    case AmbientTemperature => !(-20.0 <= m.ambient <= 55.0)
    case OilTemperature => !(-20.0 <= m.oil <= 150.0)
    case WindingTemperature => !(m.oil - 0.5 <= m.winding <= 200.0)
    case OilLevelPercent => !(0.0 <= m.oilLevel <= 100.0)
    case CurrentA => m.current < 0.0
    case VoltageKV => m.voltage <= 0.0
    case _ => false
  }

  /** The checks that come before the one that names the error, in the service's order. */
  ghost predicate PassedBefore(c: Clock, v: Validator, now: Instant, m: Measurement, e: ValidationError)
  {
    var n := match e
      case UnsupportedSchema(_) => 0
      case UnknownTransformer(_) => 1
      case BadTimestamp(_) => 2
      case RangeViolation(LoadPercent) => 3
      case RangeViolation(AmbientTemperature) => 4
      case RangeViolation(OilTemperature) => 5
      case RangeViolation(WindingTemperature) => 6
      case RangeViolation(OilLevelPercent) => 7
      case RangeViolation(CurrentA) => 8
      case RangeViolation(_) => 9
      case _ => 10;
    && (n > 0 ==> m.schemaVersion == 1)
    && (n > 1 ==> m.transformerId in v.registry)
    && (n > 2 ==> c.parse(m.timestamp).Some? && c.parse(m.timestamp).value <= now + v.maxSkew)
    && (n > 3 ==> !OutOfRange(m, LoadPercent)) && (n > 4 ==> !OutOfRange(m, AmbientTemperature))
    && (n > 5 ==> !OutOfRange(m, OilTemperature)) && (n > 6 ==> !OutOfRange(m, WindingTemperature))
    && (n > 7 ==> !OutOfRange(m, OilLevelPercent)) && (n > 8 ==> !OutOfRange(m, CurrentA))
    && (n > 9 ==> !OutOfRange(m, VoltageKV))
  }

  /** Every rejection names something that is wrong with the payload, the first such thing in the order of the checks. */
  lemma RejectionIsJustified(c: Clock, v: Validator, now: Instant, payload: Option<Json>)
    requires Validate(c, v, now, payload).Err?
    ensures var e := Validate(c, v, now, payload).error;
            if payload.None? || DecodeMeasurement(payload.value).None? then e == Unparsable
            else
              var m := DecodeMeasurement(payload.value).value;
              PassedBefore(c, v, now, m, e) &&
              match e
              case Unparsable => false
              case UnsupportedSchema(version) => version == m.schemaVersion && version != 1
              case UnknownTransformer(id) => id == m.transformerId && id !in v.registry
              case BadTimestamp(text) =>
                text == m.timestamp && (c.parse(text).None? || c.parse(text).value > now + v.maxSkew)
              case RangeViolation(key) => OutOfRange(m, key)
              case BadState(state) => state == m.state && !KnownState(state)
  {
  }

  /** A sample once admitted stays admissible as the clock advances. */
  lemma AdmissionIsMonotone(c: Clock, v: Validator, now: Instant, later: Instant, payload: Option<Json>)
    requires now <= later && Validate(c, v, now, payload).Ok?
    ensures Validate(c, v, later, payload) == Validate(c, v, now, payload)
  {
    ValidateAcceptsExactly(c, v, now, payload, Validate(c, v, now, payload).value);
    ValidateAcceptsExactly(c, v, later, payload, Validate(c, v, now, payload).value);
  }
}
