// What the tables hold after a journal of writes has been inserted.
module Journals {
  import opened Wrappers
  import opened Measurement
  import opened Json
  import opened Storage

  function RawRowOf(db: Database, rec: RawRecord): RawRow
    requires db.clock.parse(rec.receivedAt).Some?
  {
    RawRow(rec.transformerId, rec.schemaVersion, rec.topic, rec.source,
           db.clock.parse(rec.receivedAt).value, rec.payload)
  }

  ghost predicate IsRawWrite(ws: seq<Write>, j: int, k: string)
  {
    0 <= j < |ws| && ws[j].RawWrite? && ws[j].rec.id == k
  }

  ghost predicate IsMeasWrite(db: Database, ws: seq<Write>, j: int, key: (string, Instant))
  {
    0 <= j < |ws| && ws[j].MeasWrite? && ws[j].m.transformerId == key.0
      && db.clock.parse(ws[j].m.timestamp) == Some(key.1)
  }

  /** Each raw row is the record of some write with its id, and each write's id has a row. */
  ghost predicate RawRowsFollow(db: Database, t: Tables, ws: seq<Write>)
  {
    && (forall k :: k in t.raw ==> RawRowHasWrite(db, t, ws, k))
    && (forall j, k :: IsRawWrite(ws, j, k) ==> k in t.raw)
  }

  ghost predicate RawRowHasWrite(db: Database, t: Tables, ws: seq<Write>, k: string)
    requires k in t.raw
  {
    exists j :: IsRawWrite(ws, j, k) && db.clock.parse(ws[j].rec.receivedAt).Some?
      && t.raw[k] == RawRowOf(db, ws[j].rec)
  }

  ghost predicate MeasRowsFollow(db: Database, t: Tables, ws: seq<Write>)
  {
    && (forall key :: key in t.meas ==> MeasRowHasWrite(db, t, ws, key))
    && (forall j, key :: IsMeasWrite(db, ws, j, key) ==> key in t.meas)
  }

  ghost predicate MeasRowHasWrite(db: Database, t: Tables, ws: seq<Write>, key: (string, Instant))
    requires key in t.meas
  {
    exists j :: IsMeasWrite(db, ws, j, key) && ChecksPass(RowOf(ws[j].m)) && t.meas[key] == RowOf(ws[j].m)
  }

  lemma {:induction false} RowsFollow(db: Database, ws: seq<Write>)
    requires AllStored(db, EMPTY, ws)
    ensures RawRowsFollow(db, InsertAll(db, EMPTY, ws), ws)
    ensures MeasRowsFollow(db, InsertAll(db, EMPTY, ws), ws)
  {
    if ws != [] {
      hide RawRowsFollow, MeasRowsFollow, InsertRaw, InsertMeasurement;
      var n := |ws| - 1;
      AllStoredPrefix(db, EMPTY, ws);
      RowsFollow(db, ws[..n]);
      assert Insert(db, InsertAll(db, EMPTY, ws[..n]), ws[n]).Ok?;
      RawStep(db, InsertAll(db, EMPTY, ws[..n]), ws[..n], ws[n]);
      MeasStep(db, InsertAll(db, EMPTY, ws[..n]), ws[..n], ws[n]);
      assert ws[..n] + [ws[n]] == ws;
    }
  }

  lemma AllStoredPrefix(db: Database, t: Tables, ws: seq<Write>)
    requires AllStored(db, t, ws) && ws != []
    ensures AllStored(db, t, ws[..|ws| - 1])
  {
    var p := ws[..|ws| - 1];
    forall i | 0 <= i < |p| ensures Insert(db, InsertAll(db, t, p[..i]), p[i]).Ok? {
      assert p[..i] == ws[..i];
    }
  }

  lemma RawStep(db: Database, t: Tables, ws: seq<Write>, w: Write)
    requires RawRowsFollow(db, t, ws) && Insert(db, t, w).Ok?
    ensures RawRowsFollow(db, Attempt(db, t, w), ws + [w])
  {
    var u, ws' := Attempt(db, t, w), ws + [w];
    forall k | k in u.raw ensures RawRowHasWrite(db, u, ws', k) {
      if k in t.raw {
        var j :| IsRawWrite(ws, j, k) && db.clock.parse(ws[j].rec.receivedAt).Some?
          && t.raw[k] == RawRowOf(db, ws[j].rec);
        assert IsRawWrite(ws', j, k) && u.raw[k] == t.raw[k];
      } else {
        assert IsRawWrite(ws', |ws|, k);
      }
    }
    forall j, k | IsRawWrite(ws', j, k) ensures k in u.raw {
      if j < |ws| {
        assert IsRawWrite(ws, j, k);
      }
    }
  }

  lemma MeasStep(db: Database, t: Tables, ws: seq<Write>, w: Write)
    requires MeasRowsFollow(db, t, ws) && Insert(db, t, w).Ok?
    ensures MeasRowsFollow(db, Attempt(db, t, w), ws + [w])
  {
    var u, ws' := Attempt(db, t, w), ws + [w];
    forall key | key in u.meas ensures MeasRowHasWrite(db, u, ws', key) {
      if key in t.meas {
        var j :| IsMeasWrite(db, ws, j, key) && ChecksPass(RowOf(ws[j].m)) && t.meas[key] == RowOf(ws[j].m);
        assert IsMeasWrite(db, ws', j, key) && u.meas[key] == t.meas[key];
      } else {
        assert IsMeasWrite(db, ws', |ws|, key);
      }
    }
    forall j, key | IsMeasWrite(db, ws', j, key) ensures key in u.meas {
      if j < |ws| {
        assert IsMeasWrite(db, ws, j, key);
      }
    }
  }
}
