// The two implementations of the ingestion store: an append-only log of JSON
// lines and the relational tables.
module Sinks {
  import opened Wrappers
  import opened Measurement
  import opened Json
  import opened Storage

  /** One line of the bronze file. */
  datatype Line = Blank | Garbage | Value(json: Json)

  function EncodeWrite(w: Write): Line
  {
    match w
    case RawWrite(rec) => Value(EncodeRaw(rec))
    case MeasWrite(m) => Value(EncodeMeasurement(m))
  }

  function EncodeAll(ws: seq<Write>): seq<Line>
  {
    seq(|ws|, i requires 0 <= i < |ws| => EncodeWrite(ws[i]))
  }

  class JsonLinesStore {
    var lines: seq<Line>

    constructor ()
      ensures lines == []
    {
      lines := [];
    }

    method WriteRaw(rec: RawRecord, fault: Fault) returns (failed: bool)
      modifies this
      ensures failed == (fault != Healthy)
      ensures lines == if fault == LostBefore then old(lines) else old(lines) + [EncodeWrite(RawWrite(rec))]
    {
      if fault != LostBefore {
        lines := lines + [Value(EncodeRaw(rec))];
      }
      failed := fault != Healthy;
    }

    method WriteMeasurement(m: Measurement, fault: Fault) returns (failed: bool)
      modifies this
      ensures failed == (fault != Healthy)
      ensures lines == if fault == LostBefore then old(lines) else old(lines) + [EncodeWrite(MeasWrite(m))]
    {
      if fault != LostBefore {
        lines := lines + [Value(EncodeMeasurement(m))];
      }
      failed := fault != Healthy;
    }
  }

  class RelationalStore {
    const db: Database
    var raw: map<string, RawRow>
    var meas: map<(string, Instant), MeasurementRow>

    constructor (db: Database)
      ensures this.db == db && View() == EMPTY
    {
      this.db := db;
      raw := map[];
      meas := map[];
    }

    function View(): Tables
      reads this
    {
      Tables(raw, meas)
    }

    /** The receipt is an instant, and the row is there already or its transformer is registered. */
    predicate Takes(rows: map<string, RawRow>, rec: RawRecord)
    {
      db.clock.parse(rec.receivedAt).Some? && (rec.id in rows || rec.transformerId in db.transformers)
    }

    /** And for a sample: its columns hold what the constraints ask. */
    predicate TakesSample(rows: map<(string, Instant), MeasurementRow>, m: Measurement)
    {
      && db.clock.parse(m.timestamp).Some? && ChecksPass(RowOf(m))
      && ((m.transformerId, db.clock.parse(m.timestamp).value) in rows || m.transformerId in db.transformers)
    }

    method WriteRaw(rec: RawRecord, fault: Fault) returns (error: Option<StoreError>)
      modifies this
      ensures Reply(View(), error) == Execute(db, old(View()), RawWrite(rec), fault)
      ensures error.None? <==> fault == Healthy && Takes(old(raw), rec)
      ensures fault != LostBefore && Takes(old(raw), rec) ==> rec.id in raw
      ensures fault == LostBefore ==> View() == old(View())
      ensures rec.id in raw && rec.id !in old(raw) ==> FiledFrom(db.clock, raw[rec.id], rec)
    {
      if fault == LostBefore {
        return Some(ConnectionLost);
      }
      var at := db.clock.parse(rec.receivedAt);
      if at.None? {
        return Some(BadInstant);
      }
      if rec.id !in raw {
        if rec.transformerId !in db.transformers {
          return Some(ForeignKeyViolated);
        }
        raw := raw[rec.id := RawRow(rec.transformerId, rec.schemaVersion, rec.topic, rec.source,
                                    at.value, rec.payload)];
      }
      error := if fault == LostAfter then Some(ConnectionLost) else None;
    }

    method WriteMeasurement(m: Measurement, fault: Fault) returns (error: Option<StoreError>)
      modifies this
      ensures Reply(View(), error) == Execute(db, old(View()), MeasWrite(m), fault)
      ensures error.None? <==> fault == Healthy && TakesSample(old(meas), m)
      ensures fault != LostBefore && TakesSample(old(meas), m) ==> (m.transformerId, db.clock.parse(m.timestamp).value) in meas
      ensures fault == LostBefore ==> View() == old(View())
      ensures forall key :: key in meas && key !in old(meas) ==>
                && key.0 == m.transformerId && Some(key.1) == db.clock.parse(m.timestamp)
                && ShowsReadings(meas[key], m) && meas[key].state == m.state
    {
      hide ShowsReadings;
      RowShows(m);
      if fault == LostBefore {
        return Some(ConnectionLost);
      }
      var ts := db.clock.parse(m.timestamp);
      if ts.None? {
        return Some(BadInstant);
      }
      var row := RowOf(m);
      if !ChecksPass(row) {
        return Some(CheckViolated);
      }
      if (m.transformerId, ts.value) !in meas {
        if m.transformerId !in db.transformers {
          return Some(ForeignKeyViolated);
        }
        meas := meas[(m.transformerId, ts.value) := row];
      }
      error := if fault == LostAfter then Some(ConnectionLost) else None;
    }
  }
}
