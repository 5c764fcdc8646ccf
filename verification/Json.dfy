// JSON values and the object shapes of measurements and raw records: how the
// typed records are written and read back, field by field.
module Json {
  import opened Wrappers
  import opened Measurement

  /** The object keys this system writes and reads; every other key is `Other`. */
  datatype Key =
    | SchemaVersion
    | TransformerId
    | Timestamp
    | LoadPercent
    | AmbientTemperature
    | OilTemperature
    | WindingTemperature
    | OilLevelPercent
    | CurrentA
    | VoltageKV
    | State
    | Id
    | Topic
    | Source
    | ReceivedAt
    | Payload
    | Other(name: string)

  datatype Json =
    | Null
    | Bool(b: bool)
    | Num(n: real)
    | Str(s: string)
    | Arr(items: seq<Json>)
    | Obj(fields: map<Key, Json>)

  /** A missing key and an explicit null leave the zero value in place. */
  function NumField(fields: map<Key, Json>, key: Key): Option<real>
  {
    if key !in fields || fields[key].Null? then Some(0.0)
    else if fields[key].Num? then Some(fields[key].n)
    else None
  }

  function StrField(fields: map<Key, Json>, key: Key): Option<string>
  {
    if key !in fields || fields[key].Null? then Some("")
    else if fields[key].Str? then Some(fields[key].s)
    else None
  }

  /** A number read into an integer field must have no fraction. */
  function IntField(fields: map<Key, Json>, key: Key): Option<int>
  {
    var x := NumField(fields, key);
    if x.Some? && x.value == x.value.Floor as real then Some(x.value.Floor) else None
  }

  function EncodeMeasurement(m: Measurement): Json
  {
    Obj(map[
      SchemaVersion := Num(m.schemaVersion as real),
      TransformerId := Str(m.transformerId),
      Timestamp := Str(m.timestamp),
      LoadPercent := Num(m.load),
      AmbientTemperature := Num(m.ambient),
      OilTemperature := Num(m.oil),
      WindingTemperature := Num(m.winding),
      OilLevelPercent := Num(m.oilLevel),
      CurrentA := Num(m.current),
      VoltageKV := Num(m.voltage),
      State := Str(m.state)])
  }

  const ZERO_MEASUREMENT := Measurement(0, "", "", 0.0, 0.0, 0.0, 0.0, 0.0, 0.0, 0.0, "")

  function DecodeMeasurement(j: Json): Option<Measurement>
  {
    match j
    case Null => Some(ZERO_MEASUREMENT)
    case Obj(f) =>
      var schema, id, ts := IntField(f, SchemaVersion), StrField(f, TransformerId), StrField(f, Timestamp);
      var load, ambient, oil := NumField(f, LoadPercent), NumField(f, AmbientTemperature), NumField(f, OilTemperature);
      var winding, level := NumField(f, WindingTemperature), NumField(f, OilLevelPercent);
      var current, voltage, state := NumField(f, CurrentA), NumField(f, VoltageKV), StrField(f, State);
      if schema.Some? && id.Some? && ts.Some? && load.Some? && ambient.Some? && oil.Some?
         && winding.Some? && level.Some? && current.Some? && voltage.Some? && state.Some?
      then Some(Measurement(schema.value, id.value, ts.value, load.value, ambient.value, oil.value,
                            winding.value, level.value, current.value, voltage.value, state.value))
      else None
    case _ => None
  }

  datatype RawRecord = RawRecord(
    id: string,
    transformerId: string,
    schemaVersion: int,
    topic: string,
    source: string,
    receivedAt: string,
    payload: Json)

  function EncodeRaw(r: RawRecord): Json
  {
    Obj(map[
      Id := Str(r.id),
      TransformerId := Str(r.transformerId),
      SchemaVersion := Num(r.schemaVersion as real),
      Topic := Str(r.topic),
      Source := Str(r.source),
      ReceivedAt := Str(r.receivedAt),
      Payload := r.payload])
  }

  /** Reads a raw record from an object that carries the payload key. */
  function DecodeRaw(f: map<Key, Json>): Option<RawRecord>
    requires Payload in f
  {
    var id, tr, schema := StrField(f, Id), StrField(f, TransformerId), IntField(f, SchemaVersion);
    var topic, source, at := StrField(f, Topic), StrField(f, Source), StrField(f, ReceivedAt);
    if id.Some? && tr.Some? && schema.Some? && topic.Some? && source.Some? && at.Some?
    then Some(RawRecord(id.value, tr.value, schema.value, topic.value, source.value, at.value, f[Payload]))
    else None
  }

  lemma TextsRead(m: Measurement)
    ensures var f := EncodeMeasurement(m).fields;
            && Payload !in f && IntField(f, SchemaVersion) == Some(m.schemaVersion)
            && StrField(f, TransformerId) == Some(m.transformerId) && StrField(f, Timestamp) == Some(m.timestamp)
            && StrField(f, State) == Some(m.state)
  {
  }

  lemma NumbersRead(m: Measurement)
    ensures var f := EncodeMeasurement(m).fields;
            && NumField(f, LoadPercent) == Some(m.load) && NumField(f, AmbientTemperature) == Some(m.ambient)
            && NumField(f, OilTemperature) == Some(m.oil) && NumField(f, WindingTemperature) == Some(m.winding)
            && NumField(f, OilLevelPercent) == Some(m.oilLevel) && NumField(f, CurrentA) == Some(m.current)
            && NumField(f, VoltageKV) == Some(m.voltage)
  {
  }

  lemma MeasurementRoundTrip(m: Measurement)
    ensures DecodeMeasurement(EncodeMeasurement(m)) == Some(m)
    ensures Payload !in EncodeMeasurement(m).fields
  {
    hide IntField, StrField, NumField;
    TextsRead(m);
    NumbersRead(m);
  }

  /** Each field of a raw record under its own key. */
  lemma RawKeys(r: RawRecord)
    ensures var f := EncodeRaw(r).fields;
            && f.Keys == {Id, TransformerId, SchemaVersion, Topic, Source, ReceivedAt, Payload}
            && f[Id] == Str(r.id) && f[TransformerId] == Str(r.transformerId)
            && f[SchemaVersion] == Num(r.schemaVersion as real) && f[Topic] == Str(r.topic)
            && f[Source] == Str(r.source) && f[ReceivedAt] == Str(r.receivedAt) && f[Payload] == r.payload
  {
  }

  /** And of a measurement. */
  lemma MeasurementKeys(m: Measurement)
    ensures var f := EncodeMeasurement(m).fields;
            && f.Keys == {SchemaVersion, TransformerId, Timestamp, LoadPercent, AmbientTemperature, OilTemperature,
                          WindingTemperature, OilLevelPercent, CurrentA, VoltageKV, State}
            && f[SchemaVersion] == Num(m.schemaVersion as real) && f[TransformerId] == Str(m.transformerId)
            && f[Timestamp] == Str(m.timestamp) && f[LoadPercent] == Num(m.load)
            && f[AmbientTemperature] == Num(m.ambient) && f[OilTemperature] == Num(m.oil)
            && f[WindingTemperature] == Num(m.winding) && f[OilLevelPercent] == Num(m.oilLevel)
            && f[CurrentA] == Num(m.current) && f[VoltageKV] == Num(m.voltage) && f[State] == Str(m.state)
  {
  }

  /** What an object holds under a key: nothing when it is missing or null. */
  function Held(f: map<Key, Json>, key: Key): Json
  {
    if key in f then f[key] else Null
  }

  predicate NumberOrNull(j: Json, x: real)
  {
    j == Num(x) || (j.Null? && x == 0.0)
  }

  predicate TextOrNull(j: Json, s: string)
  {
    j == Str(s) || (j.Null? && s == "")
  }

  /**
   * An object is read as a measurement exactly when each key holds the field's
   * value, or is missing or null where the field is zero or empty.
   */
  lemma DecodesExactly(f: map<Key, Json>, m: Measurement)
    ensures DecodeMeasurement(Obj(f)) == Some(m) <==>
            && NumberOrNull(Held(f, SchemaVersion), m.schemaVersion as real)
            && TextOrNull(Held(f, TransformerId), m.transformerId) && TextOrNull(Held(f, Timestamp), m.timestamp)
            && NumberOrNull(Held(f, LoadPercent), m.load) && NumberOrNull(Held(f, AmbientTemperature), m.ambient)
            && NumberOrNull(Held(f, OilTemperature), m.oil) && NumberOrNull(Held(f, WindingTemperature), m.winding)
            && NumberOrNull(Held(f, OilLevelPercent), m.oilLevel) && NumberOrNull(Held(f, CurrentA), m.current)
            && NumberOrNull(Held(f, VoltageKV), m.voltage) && TextOrNull(Held(f, State), m.state)
  {
    hide IntField, NumField, StrField, NumberOrNull, TextOrNull, Held;
    IntExactly(f, SchemaVersion, m.schemaVersion);
    TextExactly(f, TransformerId, m.transformerId);
    TextExactly(f, Timestamp, m.timestamp);
    NumberExactly(f, LoadPercent, m.load);
    NumberExactly(f, AmbientTemperature, m.ambient);
    NumberExactly(f, OilTemperature, m.oil);
    NumberExactly(f, WindingTemperature, m.winding);
    NumberExactly(f, OilLevelPercent, m.oilLevel);
    NumberExactly(f, CurrentA, m.current);
    NumberExactly(f, VoltageKV, m.voltage);
    TextExactly(f, State, m.state);
  }

  lemma NumberExactly(f: map<Key, Json>, key: Key, x: real)
    ensures NumField(f, key) == Some(x) <==> NumberOrNull(Held(f, key), x)
  {
  }

  lemma IntExactly(f: map<Key, Json>, key: Key, n: int)
    ensures IntField(f, key) == Some(n) <==> NumberOrNull(Held(f, key), n as real)
  {
  }

  lemma TextExactly(f: map<Key, Json>, key: Key, s: string)
    ensures StrField(f, key) == Some(s) <==> TextOrNull(Held(f, key), s)
  {
  }

  lemma RawRoundTrip(r: RawRecord)
    ensures Payload in EncodeRaw(r).fields
    ensures DecodeRaw(EncodeRaw(r).fields) == Some(r)
  {
    var f := EncodeRaw(r).fields;
    assert IntField(f, SchemaVersion) == Some(r.schemaVersion);
  }
}
