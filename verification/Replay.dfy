// Replaying a bronze file into the relational store.
module Replay {
  import opened Wrappers
  import opened Json
  import opened Storage
  import opened Sinks

  datatype ReplayError =
    | ParseLine
    | ParseRaw
    | ParseMeasurement
    | WriteRefused(w: Write, cause: StoreError)

  /** A line is a raw record exactly when it carries the payload key. */
  function Classify(line: Line): Result<Option<Write>, ReplayError>
  {
    match line
    case Blank => Ok(None)
    case Garbage => Err(ParseLine)
    case Value(json) =>
      if !json.Obj? && !json.Null? then Err(ParseLine)
      else if json.Obj? && Payload in json.fields then
        var rec := DecodeRaw(json.fields);
        if rec.None? then Err(ParseRaw) else Ok(Some(RawWrite(rec.value)))
      else
        var m := DecodeMeasurement(json);
        if m.None? then Err(ParseMeasurement) else Ok(Some(MeasWrite(m.value)))
  }

  datatype Outcome = Outcome(tables: Tables, rawN: nat, measN: nat, error: Option<ReplayError>)

  /** What a line asks for: nothing, a write, or a parse error. */
  type Request = Result<Option<Write>, ReplayError>

  function ClassifyAll(lines: seq<Line>): seq<Request>
  {
    seq(|lines|, i requires 0 <= i < |lines| => Classify(lines[i]))
  }

  /** The rest of a replay that has already handled `k` lines. */
  function ReplayFrom(db: Database, t: Tables, reqs: seq<Request>, faults: nat -> Fault,
                      k: nat, rawN: nat, measN: nat): Outcome
    requires k <= |reqs|
    decreases |reqs| - k
  {
    if k == |reqs| then Outcome(t, rawN, measN, None)
    else
      match reqs[k]
      case Err(e) => Outcome(t, rawN, measN, Some(e))
      case Ok(None) => ReplayFrom(db, t, reqs, faults, k + 1, rawN, measN)
      case Ok(Some(w)) =>
        var reply := Execute(db, t, w, faults(k));
        if reply.error.Some? then
          Outcome(reply.tables, rawN, measN, Some(WriteRefused(w, reply.error.value)))
        else if w.RawWrite? then
          ReplayFrom(db, reply.tables, reqs, faults, k + 1, rawN + 1, measN)
        else
          ReplayFrom(db, reply.tables, reqs, faults, k + 1, rawN, measN + 1)
  }

  function Replayed(db: Database, t: Tables, lines: seq<Line>, faults: nat -> Fault): Outcome
  {
    ReplayFrom(db, t, ClassifyAll(lines), faults, 0, 0, 0)
  }

  method ReplayBronze(sink: RelationalStore, lines: seq<Line>, faults: nat -> Fault)
    returns (rawN: nat, measN: nat, error: Option<ReplayError>)
    modifies sink
    ensures Outcome(sink.View(), rawN, measN, error) == Replayed(sink.db, old(sink.View()), lines, faults)
  {
    rawN, measN, error := 0, 0, None;
    ghost var whole := Replayed(sink.db, sink.View(), lines, faults);
    ghost var reqs := ClassifyAll(lines);
    var k := 0;
    while k < |lines|
      invariant k <= |lines|
      invariant whole == ReplayFrom(sink.db, sink.View(), reqs, faults, k, rawN, measN)
    {
      var line := lines[k];
      if line.Blank? {
        k := k + 1;
        continue;
      }
      if line.Garbage? || (!line.json.Obj? && !line.json.Null?) {
        return rawN, measN, Some(ParseLine);
      }
      if line.json.Obj? && Payload in line.json.fields {
        var rec := DecodeRaw(line.json.fields);
        if rec.None? {
          return rawN, measN, Some(ParseRaw);
        }
        var e := sink.WriteRaw(rec.value, faults(k));
        if e.Some? {
          return rawN, measN, Some(WriteRefused(RawWrite(rec.value), e.value));
        }
        rawN := rawN + 1;
        k := k + 1;
        continue;
      }
      var m := DecodeMeasurement(line.json);
      if m.None? {
        return rawN, measN, Some(ParseMeasurement);
      }
      var e := sink.WriteMeasurement(m.value, faults(k));
      if e.Some? {
        return rawN, measN, Some(WriteRefused(MeasWrite(m.value), e.value));
      }
      measN := measN + 1;
      k := k + 1;
    }
  }

  const STEADY: nat -> Fault := _ => Healthy

  // ---- laws ----

  lemma WrittenLinesAreClassified(w: Write)
    ensures Classify(EncodeWrite(w)) == Ok(Some(w))
  {
    match w {
      case RawWrite(rec) => RawRoundTrip(rec);
      case MeasWrite(m) => MeasurementRoundTrip(m);
    }
  }

  /**
   * What a line asks for: nothing when it is blank, a raw record exactly when it
   * is an object with the payload key, a measurement when it is any other object
   * or null, and otherwise it cannot be read.
   */
  lemma ClassifiedExactly(line: Line)
    ensures Classify(line) == Ok(None) <==> line.Blank?
    ensures Classify(line) == Err(ParseLine) <==> line.Garbage? || (line.Value? && !line.json.Obj? && !line.json.Null?)
    ensures line.Value? && line.json.Obj? && Payload in line.json.fields ==>
              Classify(line) == if DecodeRaw(line.json.fields).Some? then Ok(Some(RawWrite(DecodeRaw(line.json.fields).value)))
                                else Err(ParseRaw)
    ensures line.Value? && line.json.Obj? && Payload !in line.json.fields ==>
              Classify(line) == if DecodeMeasurement(line.json).Some? then Ok(Some(MeasWrite(DecodeMeasurement(line.json).value)))
                                else Err(ParseMeasurement)
    ensures line.Value? && line.json.Null? ==> Classify(line) == Ok(Some(MeasWrite(ZERO_MEASUREMENT)))
  {
  }

  /** Every line of a log asks for the write that produced it. */
  lemma LogIsClassified(ws: seq<Write>)
    ensures |ClassifyAll(EncodeAll(ws))| == |ws|
    ensures forall i :: 0 <= i < |ws| ==> ClassifyAll(EncodeAll(ws))[i] == Ok(Some(ws[i]))
  {
    forall i | 0 <= i < |ws| ensures ClassifyAll(EncodeAll(ws))[i] == Ok(Some(ws[i])) {
      WrittenLinesAreClassified(ws[i]);
    }
  }

  /** How many of the writes are of each kind. */
  function RawCount(ws: seq<Write>): (n: nat)
    ensures n <= |ws|
  {
    if ws == [] then 0 else RawCount(ws[1..]) + if ws[0].RawWrite? then 1 else 0
  }

  /** The same, read from the front as a replay does. */
  ghost predicate StoredInTurn(db: Database, t: Tables, ws: seq<Write>)
    decreases |ws|
  {
    ws != [] ==> Insert(db, t, ws[0]).Ok? && StoredInTurn(db, Attempt(db, t, ws[0]), ws[1..])
  }

  lemma InsertAllFront(db: Database, t: Tables, ws: seq<Write>)
    requires ws != []
    ensures InsertAll(db, t, ws) == InsertAll(db, Attempt(db, t, ws[0]), ws[1..])
  {
    assert [ws[0]][..0] == [];
    assert InsertAll(db, t, [ws[0]]) == Attempt(db, InsertAll(db, t, []), ws[0]);
    InsertAllConcat(db, t, [ws[0]], ws[1..]);
    assert [ws[0]] + ws[1..] == ws;
  }

  lemma {:induction false} StoredFromTheFront(db: Database, t: Tables, ws: seq<Write>)
    requires AllStored(db, t, ws)
    ensures StoredInTurn(db, t, ws)
    decreases |ws|
  {
    if ws != [] {
      var u := Attempt(db, t, ws[0]);
      assert InsertAll(db, t, ws[..0]) == t;
      forall i | 0 <= i < |ws| - 1
        ensures Insert(db, InsertAll(db, u, ws[1..][..i]), ws[1..][i]).Ok?
      {
        InsertAllFront(db, t, ws[..i + 1]);
        assert ws[..i + 1][1..] == ws[1..][..i];
        assert Insert(db, InsertAll(db, t, ws[..i + 1]), ws[i + 1]).Ok?;
      }
      StoredFromTheFront(db, u, ws[1..]);
    }
  }

  /**
   * Replaying the lines a run has appended yields the tables that inserting the
   * same writes live yields, and counts each kind exactly.
   */
  lemma ReplayEqualsLive(db: Database, t: Tables, ws: seq<Write>)
    requires AllStored(db, t, ws)
    ensures Replayed(db, t, EncodeAll(ws), STEADY) ==
            Outcome(InsertAll(db, t, ws), RawCount(ws), |ws| - RawCount(ws), None)
  {
    hide ReplayFrom, InsertAll, RawCount, EncodeAll, ClassifyAll;
    var reqs := ClassifyAll(EncodeAll(ws));
    LogIsClassified(ws);
    StoredFromTheFront(db, t, ws);
    AllGranted(db, t, reqs, ws);
  }

  lemma AllGranted(db: Database, t: Tables, reqs: seq<Request>, ws: seq<Write>)
    requires |reqs| == |ws| && (forall i :: 0 <= i < |ws| ==> reqs[i] == Ok(Some(ws[i]))) && StoredInTurn(db, t, ws)
    ensures ReplayFrom(db, t, reqs, STEADY, 0, 0, 0) == Outcome(InsertAll(db, t, ws), RawCount(ws), |ws| - RawCount(ws), None)
  {
    hide ReplayFrom, InsertAll, RawCount, StoredInTurn;
    var zero: nat :| zero == 0;
    ReplayPrefix(db, t, reqs, ws, zero, zero, zero);
    EndsAtEnd(db, InsertAll(db, t, ws), reqs, |ws|, RawCount(ws), |ws| - RawCount(ws));
  }

  lemma EndsAtEnd(db: Database, t: Tables, reqs: seq<Request>, k: nat, rawN: nat, measN: nat)
    requires k == |reqs|
    ensures ReplayFrom(db, t, reqs, STEADY, k, rawN, measN) == Outcome(t, rawN, measN, None)
  {
  }

  /** Requests that are all granted take the replay past them. */
  lemma {:induction false} ReplayPrefix(db: Database, t: Tables, reqs: seq<Request>, ws: seq<Write>,
                                        k: nat, rawN: nat, measN: nat)
    requires k + |ws| <= |reqs|
    requires forall i :: k <= i < k + |ws| ==> reqs[i] == Ok(Some(ws[i - k]))
    requires StoredInTurn(db, t, ws)
    ensures ReplayFrom(db, t, reqs, STEADY, k, rawN, measN) ==
            ReplayFrom(db, InsertAll(db, t, ws), reqs, STEADY, k + |ws|, rawN + RawCount(ws), measN + (|ws| - RawCount(ws)))
    decreases |ws|
  {
    hide ReplayFrom, Insert, Attempt;
    if ws == [] {
      assert InsertAll(db, t, ws) == t;
    } else {
      var w, rest, u := ws[0], ws[1..], Attempt(db, t, ws[0]);
      InsertAllFront(db, t, ws);
      HealthyStep(db, t, reqs, w, k, rawN, measN);
      ReplayPrefix(db, u, reqs, rest, k + 1,
                   rawN + if w.RawWrite? then 1 else 0, measN + if w.RawWrite? then 0 else 1);
    }
  }

  lemma HealthyStep(db: Database, t: Tables, reqs: seq<Request>, w: Write, k: nat, rawN: nat, measN: nat)
    requires k < |reqs| && reqs[k] == Ok(Some(w)) && Insert(db, t, w).Ok?
    ensures ReplayFrom(db, t, reqs, STEADY, k, rawN, measN) ==
            ReplayFrom(db, Attempt(db, t, w), reqs, STEADY, k + 1,
                       rawN + if w.RawWrite? then 1 else 0, measN + if w.RawWrite? then 0 else 1)
  {
    assert Execute(db, t, w, STEADY(k)) == Reply(Attempt(db, t, w), None);
  }

  lemma {:induction false} ReplayKeepsHeld(db: Database, t: Tables, reqs: seq<Request>, faults: nat -> Fault,
                                           k: nat, rawN: nat, measN: nat, w: Write)
    requires k <= |reqs| && Holds(db, t, w)
    ensures Holds(db, ReplayFrom(db, t, reqs, faults, k, rawN, measN).tables, w)
    decreases |reqs| - k
  {
    if k < |reqs| {
      match reqs[k] {
        case Err(_) =>
        case Ok(None) => ReplayKeepsHeld(db, t, reqs, faults, k + 1, rawN, measN, w);
        case Ok(Some(x)) =>
          HoldsStays(db, t, w, x);
          var reply := Execute(db, t, x, faults(k));
          assert reply.tables == t || reply.tables == Attempt(db, t, x);
          if reply.error.None? {
            ReplayKeepsHeld(db, reply.tables, reqs, faults, k + 1,
                            if x.RawWrite? then rawN + 1 else rawN,
                            if x.RawWrite? then measN else measN + 1, w);
          }
      }
    }
  }

  /**
   * A replay stopped anywhere by the connection, then run again in full, has
   * the outcome of one uninterrupted replay: same tables, same counts, and the
   * same refusal if the file contains a line the store refuses.
   */
  lemma ReplayResumes(db: Database, t: Tables, lines: seq<Line>, faults: nat -> Fault)
    ensures Replayed(db, Replayed(db, t, lines, faults).tables, lines, STEADY) ==
            Replayed(db, t, lines, STEADY)
  {
    ResumeFrom(db, t, ClassifyAll(lines), faults, 0, 0, 0, 0, 0);
  }

  lemma {:induction false} ResumeFrom(db: Database, t: Tables, reqs: seq<Request>, faults: nat -> Fault,
                                      k: nat, rawN: nat, measN: nat, rawM: nat, measM: nat)
    requires k <= |reqs|
    ensures var u := ReplayFrom(db, t, reqs, faults, k, rawM, measM).tables;
            ReplayFrom(db, u, reqs, STEADY, k, rawN, measN) == ReplayFrom(db, t, reqs, STEADY, k, rawN, measN)
    decreases |reqs| - k
  {
    if k < |reqs| {
      match reqs[k] {
        case Err(_) =>
        case Ok(None) => ResumeFrom(db, t, reqs, faults, k + 1, rawN, measN, rawM, measM);
        case Ok(Some(w)) =>
          var reply := Execute(db, t, w, faults(k));
          if Insert(db, t, w).Ok? && faults(k) != LostBefore {
            var t' := Attempt(db, t, w);
            InsertedHolds(db, t, w);
            HealthyStep(db, t, reqs, w, k, rawN, measN);
            var u := ReplayFrom(db, t, reqs, faults, k, rawM, measM).tables;
            if reply.error.None? {
              ResumeFrom(db, t', reqs, faults, k + 1,
                         rawN + if w.RawWrite? then 1 else 0, measN + if w.RawWrite? then 0 else 1,
                         if w.RawWrite? then rawM + 1 else rawM, if w.RawWrite? then measM else measM + 1);
              ReplayKeepsHeld(db, t', reqs, faults, k + 1,
                              if w.RawWrite? then rawM + 1 else rawM,
                              if w.RawWrite? then measM else measM + 1, w);
            }
            HealthyStep(db, u, reqs, w, k, rawN, measN);
          }
      }
    }
  }

  // ---- a file with a torn line ----

  /**
   * A line that is not a record, as an interrupted append leaves, ends the replay
   * with a parse error, everything before it stored and counted and nothing after.
   */
  lemma TornLineStops(db: Database, t: Tables, ws: seq<Write>, rest: seq<Line>)
    requires AllStored(db, t, ws)
    ensures Replayed(db, t, EncodeAll(ws) + [Garbage] + rest, STEADY) ==
            Outcome(InsertAll(db, t, ws), RawCount(ws), |ws| - RawCount(ws), Some(ParseLine))
  {
    hide ReplayFrom, InsertAll, RawCount;
    var lines := EncodeAll(ws) + [Garbage] + rest;
    var reqs := ClassifyAll(lines);
    StoredFromTheFront(db, t, ws);
    LogIsClassified(ws);
    forall i | 0 <= i < |ws| ensures reqs[i] == Ok(Some(ws[i])) {
      assert lines[i] == EncodeAll(ws)[i] && ClassifyAll(EncodeAll(ws))[i] == Ok(Some(ws[i]));
    }
    assert lines[|ws|] == Garbage && reqs[|ws|] == Err(ParseLine);
    var zero: nat :| zero == 0;
    ReplayPrefix(db, t, reqs, ws, zero, zero, zero);
    StopsAtError(db, InsertAll(db, t, ws), reqs, |ws|, RawCount(ws), |ws| - RawCount(ws));
  }

  lemma StopsAtError(db: Database, t: Tables, reqs: seq<Request>, k: nat, rawN: nat, measN: nat)
    requires k < |reqs| && reqs[k].Err?
    ensures ReplayFrom(db, t, reqs, STEADY, k, rawN, measN) == Outcome(t, rawN, measN, Some(reqs[k].error))
  {
  }
}
