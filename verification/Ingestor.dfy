// The ingestor as the service runs it for one message at a time, and the run of
// the protocol each call amounts to.
module Ingestor {
  import opened Wrappers
  import opened Measurement
  import opened Json
  import opened Topic
  import opened Validation
  import opened Storage
  import opened Sinks
  import opened Protocol

  /** The state that message handlers share. */
  datatype Shared = Shared(seen: set<string>, counters: Counters, sink: Sink)

  /** The inputs of one call that come from outside: clock readings and the connection. */
  datatype Circumstances = Circumstances(checkedAt: Instant, receivedAt: Instant, rawFault: Fault, measFault: Fault)

  function Succeeds(cfg: Config, sink: Sink, w: Write, fault: Fault): bool
  {
    TakesEffect(cfg, sink, w, fault) && fault == Healthy
  }

  function After(cfg: Config, sink: Sink, w: Write, fault: Fault): Sink
  {
    if TakesEffect(cfg, sink, w, fault) then Written(cfg, sink, w) else sink
  }

  /** What one undisturbed call does to the shared state. */
  function Handle(cfg: Config, p: Shared, msg: Message, c: Circumstances): Shared
  {
    var n := p.counters.(received := p.counters.received + 1);
    var d := Decide(cfg, c.checkedAt, msg);
    if d.None? then p.(counters := n.(rejected := n.rejected + 1))
    else if DedupKey(d.value) in p.seen then p.(counters := n.(duplicates := n.duplicates + 1))
    else
      var seen := p.seen + {DedupKey(d.value)};
      var raw := RawWrite(RawRecordOf(cfg, Admission(msg, d.value), c.receivedAt));
      var meas := MeasWrite(Normalize(d.value));
      var afterRaw := After(cfg, p.sink, raw, c.rawFault);
      if !Succeeds(cfg, p.sink, raw, c.rawFault) then
        Shared(seen, n.(storeErrors := n.storeErrors + 1), afterRaw)
      else if !Succeeds(cfg, afterRaw, meas, c.measFault) then
        Shared(seen, n.(storeErrors := n.storeErrors + 1), After(cfg, afterRaw, meas, c.measFault))
      else
        Shared(seen, n.(accepted := n.accepted + 1), After(cfg, afterRaw, meas, c.measFault))
  }

  // ---- what a call may leave in the tables ----

  /** The raw row of a call: each column from the message, the receipt to the second. */
  ghost predicate CapturedFrom(cfg: Config, id: string, row: RawRow, msg: Message, receivedAt: Instant)
  {
    && msg.payload.Some?
    && var d := DecodeMeasurement(msg.payload.value);
    && d.Some?
    && id == d.value.transformerId + "@" + d.value.timestamp
    && row.transformerId == d.value.transformerId
    && row.schemaVersion == 1
    && row.topic == msg.topic
    && row.source == cfg.source
    && row.payload == msg.payload.value
    && (LawfulClock(cfg.db.clock) && InCalendar(receivedAt) ==> row.ingestedAt == WholeSecond(receivedAt))
  }

  /** The measurement row of a call: each column from the message, the state from the readings. */
  ghost predicate MeasuredFrom(cfg: Config, key: (string, Instant), row: MeasurementRow, msg: Message)
  {
    && msg.payload.Some?
    && var d := DecodeMeasurement(msg.payload.value);
    && d.Some?
    && key.0 == d.value.transformerId
    && Some(key.1) == cfg.db.clock.parse(d.value.timestamp)
    && ShowsReadings(row, d.value)
    && row.state == ClassifyState(d.value.winding, d.value.oil, d.value.load)
  }

  /** The sample is what the message says, in the schema the service takes. */
  ghost predicate ReadFrom(adm: Admission)
  {
    && adm.msg.payload.Some?
    && DecodeMeasurement(adm.msg.payload.value) == Some(adm.m)
    && adm.m.schemaVersion == SCHEMA_VERSION
  }

  lemma RawRecordIsCaptured(cfg: Config, t: Tables, adm: Admission, at: Instant)
    requires ReadFrom(adm)
    ensures var u := Attempt(cfg.db, t, RawWrite(RawRecordOf(cfg, adm, at)));
            && u.meas == t.meas
            && (forall id :: id in t.raw ==> id in u.raw && u.raw[id] == t.raw[id])
            && (forall id :: id in u.raw && id !in t.raw ==> CapturedFrom(cfg, id, u.raw[id], adm.msg, at))
  {
  }

  lemma SampleIsMeasured(cfg: Config, t: Tables, adm: Admission)
    requires ReadFrom(adm)
    ensures var u := Attempt(cfg.db, t, MeasWrite(Normalize(adm.m)));
            && u.raw == t.raw
            && (forall key :: key in t.meas ==> key in u.meas && u.meas[key] == t.meas[key])
            && (forall key :: key in u.meas && key !in t.meas ==> MeasuredFrom(cfg, key, u.meas[key], adm.msg))
  {
    RowShows(Normalize(adm.m));
  }

  /** Whatever a call adds to the tables is the message's own, and what was there stays. */
  lemma CallAddsOwnRows(cfg: Config, p: Shared, msg: Message, c: Circumstances)
    requires p.sink.TableSink?
    ensures Handle(cfg, p, msg, c).sink.TableSink?
    ensures var t, u := p.sink.tables, Handle(cfg, p, msg, c).sink.tables;
            && Extends(t, u)
            && (forall id :: id in u.raw && id !in t.raw ==> CapturedFrom(cfg, id, u.raw[id], msg, c.receivedAt))
            && (forall key :: key in u.meas && key !in t.meas ==> MeasuredFrom(cfg, key, u.meas[key], msg))
  {
    hide Validate, CapturedFrom, MeasuredFrom, InsertRaw, InsertMeasurement, RawRecordOf, Normalize;
    var d := Decide(cfg, c.checkedAt, msg);
    if d.Some? {
      var adm := Admission(msg, d.value);
      ValidateAcceptsExactly(cfg.db.clock, cfg.validator, c.checkedAt, msg.payload, d.value);
      RawRecordIsCaptured(cfg, p.sink.tables, adm, c.receivedAt);
      var afterRaw := After(cfg, p.sink, RawWrite(RawRecordOf(cfg, adm, c.receivedAt)), c.rawFault);
      SampleIsMeasured(cfg, afterRaw.tables, adm);
    }
  }

  class Ingestor {
    const cfg: Config
    const log: JsonLinesStore?
    const relational: RelationalStore?
    var seen: set<string>
    var received: nat
    var accepted: nat
    var rejected: nat
    var duplicates: nat
    var storeErrors: nat

    ghost const Repr: set<object?>

    ghost predicate Valid()
      reads this
    {
      && this in Repr
      && (log != null <==> relational == null)
      && (log != null ==> Repr == {this, log})
      && (relational != null ==> Repr == {this, relational} && relational.db == cfg.db)
    }

    ghost function View(): Shared
      requires Valid()
      reads Repr
    {
      Shared(seen, Counters(received, accepted, rejected, duplicates, storeErrors),
             if log != null then LogSink(log.lines) else TableSink(relational.View()))
    }

    constructor (cfg: Config, log: JsonLinesStore?, relational: RelationalStore?)
      requires log != null <==> relational == null
      requires relational != null ==> relational.db == cfg.db
      ensures Valid() && this.cfg == cfg && this.log == log && this.relational == relational
      ensures seen == {} && received == accepted == rejected == duplicates == storeErrors == 0
    {
      this.cfg := cfg;
      this.log := log;
      this.relational := relational;
      seen := {};
      received, accepted, rejected, duplicates, storeErrors := 0, 0, 0, 0, 0;
      Repr := if log != null then {this, log} else {this, relational};
    }

    method Write(w: Write, fault: Fault) returns (ok: bool)
      requires Valid()
      modifies Repr - {this}
      ensures View() == old(View()).(sink := After(cfg, old(View()).sink, w, fault))
      ensures ok == Succeeds(cfg, old(View()).sink, w, fault)
    {
      if log != null {
        var failed;
        match w {
          case RawWrite(rec) => failed := log.WriteRaw(rec, fault);
          case MeasWrite(m) => failed := log.WriteMeasurement(m, fault);
        }
        ok := !failed;
      } else {
        var error;
        match w {
          case RawWrite(rec) => error := relational.WriteRaw(rec, fault);
          case MeasWrite(m) => error := relational.WriteMeasurement(m, fault);
        }
        ok := error.None?;
      }
    }

    method HandleMessage(msg: Message, c: Circumstances)
      requires Valid()
      modifies Repr
      ensures View() == Handle(cfg, old(View()), msg, c)
      ensures relational != null ==> forall id :: id in old(relational.raw) ==>
                id in relational.raw && relational.raw[id] == old(relational.raw)[id]
      ensures relational != null ==> forall key :: key in old(relational.meas) ==>
                key in relational.meas && relational.meas[key] == old(relational.meas)[key]
      ensures relational != null ==> forall id :: id in relational.raw && id !in old(relational.raw) ==>
                CapturedFrom(cfg, id, relational.raw[id], msg, c.receivedAt)
      ensures relational != null ==> forall key :: key in relational.meas && key !in old(relational.meas) ==>
                MeasuredFrom(cfg, key, relational.meas[key], msg)
    {
      if relational != null {
        CallAddsOwnRows(cfg, View(), msg, c);
      }
      hide Validate, ParseTelemetryTopic, RawRecordOf, Normalize, DedupKey, Succeeds, After;
      received := received + 1;
      var topicId := ParseTelemetryTopic(msg.topic);
      var checked := Validate(cfg.db.clock, cfg.validator, c.checkedAt, msg.payload);
      if checked.Err? {
        rejected := rejected + 1;
        return;
      }
      var m := checked.value;
      if topicId != Some(m.transformerId) {
        rejected := rejected + 1;
        return;
      }
      var key := DedupKey(m);
      if key in seen {
        duplicates := duplicates + 1;
        return;
      }
      seen := seen + {key};
      var ok := Write(RawWrite(RawRecordOf(cfg, Admission(msg, m), c.receivedAt)), c.rawFault);
      if !ok {
        storeErrors := storeErrors + 1;
        return;
      }
      ok := Write(MeasWrite(Normalize(m)), c.measFault);
      if !ok {
        storeErrors := storeErrors + 1;
        return;
      }
      accepted := accepted + 1;
    }
  }

  // ---- a call is a run of the protocol ----

  function SharedOf(s: State): Shared
  {
    Shared(s.seen, s.counters, s.sink)
  }

  /** The steps of one handler with nothing in between; those that do not apply do nothing. */
  function CallRun(i: nat, msg: Message, c: Circumstances): seq<Label>
  {
    [Deliver(msg), Check(i, c.checkedAt), Claim(i), StoreRaw(i, c.receivedAt, c.rawFault),
     StoreMeas(i, c.measFault), Settle(i)]
  }

  lemma ExecSnoc(cfg: Config, s: State, run: seq<Label>, l: Label)
    ensures Exec(cfg, s, run + [l]) == Step(cfg, Exec(cfg, s, run), l)
  {
    assert (run + [l])[..|run|] == run;
  }

  lemma ExecCall(cfg: Config, s: State, i: nat, msg: Message, c: Circumstances)
    ensures Exec(cfg, s, CallRun(i, msg, c)) ==
            Step(cfg, Step(cfg, Step(cfg, Step(cfg, Step(cfg, Step(cfg, s, Deliver(msg)), Check(i, c.checkedAt)),
              Claim(i)), StoreRaw(i, c.receivedAt, c.rawFault)), StoreMeas(i, c.measFault)), Settle(i))
  {
    var run := CallRun(i, msg, c);
    assert run[..0] == [];
    assert run[..1] == run[..0] + [run[0]];
    assert run[..2] == run[..1] + [run[1]];
    assert run[..3] == run[..2] + [run[2]];
    assert run[..4] == run[..3] + [run[3]];
    assert run[..5] == run[..4] + [run[4]];
    assert run == run[..5] + [run[5]];
    ExecSnoc(cfg, s, run[..0], run[0]);
    ExecSnoc(cfg, s, run[..1], run[1]);
    ExecSnoc(cfg, s, run[..2], run[2]);
    ExecSnoc(cfg, s, run[..3], run[3]);
    ExecSnoc(cfg, s, run[..4], run[4]);
    ExecSnoc(cfg, s, run[..5], run[5]);
  }

  /** How the call ends. */
  function Verdict(cfg: Config, p: Shared, msg: Message, c: Circumstances): Pc
  {
    var d := Decide(cfg, c.checkedAt, msg);
    if d.None? then Rejected
    else if DedupKey(d.value) in p.seen then Skipped
    else
      var raw := RawWrite(RawRecordOf(cfg, Admission(msg, d.value), c.receivedAt));
      if Succeeds(cfg, p.sink, raw, c.rawFault)
         && Succeeds(cfg, After(cfg, p.sink, raw, c.rawFault), MeasWrite(Normalize(d.value)), c.measFault)
      then Accepted else Errored
  }

  /** The states a refused or repeated message goes through: nothing but the last step matters. */
  lemma IdleSteps(cfg: Config, s: State, i: nat, c: Circumstances)
    requires i < |s.handlers| && (s.handlers[i].pc.Refused? || s.handlers[i].pc.Repeated? || s.handlers[i].pc.Faulted?)
    ensures Step(cfg, s, Claim(i)) == s
    ensures Step(cfg, s, StoreRaw(i, c.receivedAt, c.rawFault)) == s
    ensures Step(cfg, s, StoreMeas(i, c.measFault)) == s
  {
  }

  /**
   * A call of the service's handler is the run of one protocol handler with
   * nothing in between: the shared state, the counters and the handler's end agree.
   */
  lemma CallIsRun(cfg: Config, s: State, msg: Message, c: Circumstances)
    ensures var t := Exec(cfg, s, CallRun(|s.handlers|, msg, c));
            && SharedOf(t) == Handle(cfg, SharedOf(s), msg, c)
            && |t.handlers| == |s.handlers| + 1 && t.handlers[..|s.handlers|] == s.handlers
            && t.handlers[|s.handlers|].adm.msg == msg
            && t.handlers[|s.handlers|].pc == Verdict(cfg, SharedOf(s), msg, c)
  {
    var i := |s.handlers|;
    ExecCall(cfg, s, i, msg, c);
    var s1 := Step(cfg, s, Deliver(msg));
    assert s1.handlers[i] == Fresh(msg);
    var s2 := Step(cfg, s1, Check(i, c.checkedAt));
    var d := Decide(cfg, c.checkedAt, msg);
    if d.None? {
      assert s2 == Move(s1, i, Refused);
      IdleSteps(cfg, s2, i, c);
    } else {
      assert s2 == Admit(s1, i, Admission(msg, d.value));
      var s3 := Step(cfg, s2, Claim(i));
      if DedupKey(d.value) in s.seen {
        assert s3 == Move(s2, i, Repeated);
        IdleSteps(cfg, s3, i, c);
      } else {
        ClaimedRun(cfg, s3, i, c);
      }
    }
  }

  lemma ClaimedRun(cfg: Config, s: State, i: nat, c: Circumstances)
    requires At(s, i, Claimed)
    ensures var adm := s.handlers[i].adm;
            var raw, meas := RawWrite(RawRecordOf(cfg, adm, c.receivedAt)), MeasWrite(Normalize(adm.m));
            var rest := Step(cfg, Step(cfg, Step(cfg, s, StoreRaw(i, c.receivedAt, c.rawFault)),
                                  StoreMeas(i, c.measFault)), Settle(i));
            var afterRaw := After(cfg, s.sink, raw, c.rawFault);
            var wroteRaw := Succeeds(cfg, s.sink, raw, c.rawFault);
            var wroteMeas := Succeeds(cfg, afterRaw, meas, c.measFault);
            && |rest.handlers| == |s.handlers| && rest.handlers[..i] == s.handlers[..i]
            && rest.handlers[i] == Handler(adm, if wroteRaw && wroteMeas then Accepted else Errored)
            && rest.seen == s.seen
            && rest.counters == (if wroteRaw && wroteMeas
                                 then s.counters.(accepted := s.counters.accepted + 1)
                                 else s.counters.(storeErrors := s.counters.storeErrors + 1))
            && rest.sink == if wroteRaw then After(cfg, afterRaw, meas, c.measFault) else afterRaw
  {
    var s4 := Step(cfg, s, StoreRaw(i, c.receivedAt, c.rawFault));
    if s4.handlers[i].pc.Faulted? {
      IdleSteps(cfg, s4, i, c);
    }
  }
}
