// Raw and measurement tables against each other: which rows are backed by a
// stored payload, over every run, and exactly when all of them are.
module TableProvenance {
  import opened Wrappers
  import opened Text
  import opened Measurement
  import opened Json
  import opened Topic
  import opened Validation
  import opened Storage
  import opened Journals
  import opened Protocol
  import opened ProtocolSafety
  import opened ProtocolInvariant
  import opened ProtocolWrites

  /** Registered ids are free of the key's separator, as every `TR-ddd` is. */
  ghost predicate PlainIds(cfg: Config)
  {
    forall id :: id in cfg.validator.registry ==> '@' !in id
  }

  /** The raw row is filed under its own payload's key, transformer and topic. */
  ghost predicate Faithful(t: Tables, id: string)
    requires id in t.raw
  {
    var row, d := t.raw[id], DecodeMeasurement(t.raw[id].payload);
    && d.Some?
    && id == DedupKey(d.value)
    && row.transformerId == d.value.transformerId
    && row.schemaVersion == SCHEMA_VERSION
    && row.topic == TelemetryTopicFor(d.value.transformerId)
  }

  /** The measurement row is the normalized payload of that raw row. */
  ghost predicate BackedBy(db: Database, t: Tables, key: (string, Instant), id: string)
    requires key in t.meas
  {
    && id in t.raw
    && Faithful(t, id)
    && var m := DecodeMeasurement(t.raw[id].payload).value;
       key.0 == m.transformerId && db.clock.parse(m.timestamp) == Some(key.1)
       && t.meas[key] == RowOf(Normalize(m))
  }

  ghost predicate AllBacked(db: Database, t: Tables)
  {
    forall key :: key in t.meas ==> exists id :: BackedBy(db, t, key, id)
  }

  /** What a reachable relational state gives to the proofs below. */
  ghost predicate Reached(cfg: Config, s: State)
  {
    && s.sink.TableSink?
    && s in Safe(cfg)
    && (forall adm :: adm in s.ever ==> Genuine(cfg, adm))
    && Provenance(cfg, s.ever, Journal(s))
    && RawRowsFollow(cfg.db, TablesOf(s), Journal(s))
    && MeasRowsFollow(cfg.db, TablesOf(s), Journal(s))
  }

  lemma {:induction false} SinkKindStays(cfg: Config, s: State, run: seq<Label>)
    ensures Exec(cfg, s, run).sink.TableSink? == s.sink.TableSink?
  {
    if run != [] {
      SinkKindStays(cfg, s, run[..|run| - 1]);
      SinkKindStep(cfg, Exec(cfg, s, run[..|run| - 1]), run[|run| - 1]);
    }
  }

  lemma SinkKindStep(cfg: Config, s: State, l: Label)
    ensures Step(cfg, s, l).sink.TableSink? == s.sink.TableSink?
  {
  }

  lemma ReachedAfter(cfg: Config, run: seq<Label>)
    ensures Reached(cfg, Exec(cfg, Init(EMPTY_TABLES), run))
  {
    var s := Exec(cfg, Init(EMPTY_TABLES), run);
    SinkKindStays(cfg, Init(EMPTY_TABLES), run);
    AlwaysSafe(cfg, EMPTY_TABLES, run);
    EverGenuine(cfg, EMPTY_TABLES, run);
    ProvenanceConcat(cfg, s.ever, s.past, s.mine);
    RowsFollow(cfg.db, Journal(s));
  }

  lemma CapturedIsFaithful(cfg: Config, s: State, k: string) returns (adm: Admission)
    requires Reached(cfg, s) && k in TablesOf(s).raw
    ensures adm in s.ever && DedupKey(adm.m) == k
    ensures TablesOf(s).raw[k].payload == PayloadOf(adm.msg)
    ensures Faithful(TablesOf(s), k)
  {
    var t, ws := TablesOf(s), Journal(s);
    assert RawRowHasWrite(cfg.db, t, ws, k);
    var j :| IsRawWrite(ws, j, k) && cfg.db.clock.parse(ws[j].rec.receivedAt).Some?
      && t.raw[k] == RawRowOf(cfg.db, ws[j].rec);
    assert Sourced(cfg, s.ever, ws, j);
    adm :| adm in s.ever && Captures(cfg, adm, ws[j].rec);
    assert Genuine(cfg, adm);
    ParseIffPublished(adm.msg.topic, adm.m.transformerId);
  }

  lemma ReachedIsFaithful(cfg: Config, s: State)
    requires Reached(cfg, s)
    ensures forall k :: k in TablesOf(s).raw ==> Faithful(TablesOf(s), k)
  {
    hide Reached, Faithful;
    forall k | k in TablesOf(s).raw ensures Faithful(TablesOf(s), k) {
      var _ := CapturedIsFaithful(cfg, s, k);
    }
  }

  lemma ReachedIsGenuine(cfg: Config, s: State)
    requires Reached(cfg, s)
    ensures forall adm :: adm in s.ever ==> Genuine(cfg, adm)
  {
  }

  /** In every run, restarts and failures included, every raw row is faithful. */
  lemma RawRowsFaithful(cfg: Config, run: seq<Label>)
    ensures var t := TablesOf(Exec(cfg, Init(EMPTY_TABLES), run));
            forall k :: k in t.raw ==> Faithful(t, k)
  {
    hide Reached, Exec, Faithful;
    ReachedAfter(cfg, run);
    ReachedIsFaithful(cfg, Exec(cfg, Init(EMPTY_TABLES), run));
  }

  lemma SameKeySameSource(cfg: Config, a: Admission, b: Admission)
    requires PlainIds(cfg) && Genuine(cfg, a) && Genuine(cfg, b)
    ensures DedupKey(a.m) == DedupKey(b.m) <==>
            a.m.transformerId == b.m.transformerId && a.m.timestamp == b.m.timestamp
  {
    if DedupKey(a.m) == DedupKey(b.m) {
      FirstCutInjective(a.m.transformerId, b.m.transformerId, a.m.timestamp, b.m.timestamp, '@');
    }
  }

  /** The write behind a measurement row, and the message behind that write. */
  lemma MeasurementSource(cfg: Config, s: State, key: (string, Instant)) returns (adm: Admission, i: nat)
    requires Reached(cfg, s) && key in TablesOf(s).meas
    ensures adm in s.ever && key.0 == adm.m.transformerId
    ensures cfg.db.clock.parse(adm.m.timestamp) == Some(key.1)
    ensures TablesOf(s).meas[key] == RowOf(Normalize(adm.m)) && ChecksPass(RowOf(Normalize(adm.m)))
    ensures ShowsReadings(TablesOf(s).meas[key], adm.m)
    ensures TablesOf(s).meas[key].state == ClassifyState(adm.m.winding, adm.m.oil, adm.m.load)
    ensures i < |Journal(s)| && IsRawWrite(Journal(s), i, DedupKey(adm.m)) && Captures(cfg, adm, Journal(s)[i].rec)
    ensures DedupKey(adm.m) in TablesOf(s).raw
  {
    var t, ws := TablesOf(s), Journal(s);
    assert MeasRowHasWrite(cfg.db, t, ws, key);
    var j :| IsMeasWrite(cfg.db, ws, j, key) && ChecksPass(RowOf(ws[j].m)) && t.meas[key] == RowOf(ws[j].m);
    assert Sourced(cfg, s.ever, ws, j);
    i :| 0 <= i < j && Backs(cfg, s.ever, ws[i], ws[j].m);
    adm :| adm in s.ever && Captures(cfg, adm, ws[i].rec) && ws[j].m == Normalize(adm.m);
    assert IsRawWrite(ws, i, DedupKey(adm.m));
    RowShows(Normalize(adm.m));
  }

  /**
   * Every seen key has one owner. Once the owner has returned, the key either
   * has both its rows or was charged to one store error.
   */
  lemma SeenKeyIsAccounted(cfg: Config, run: seq<Label>, k: string) returns (i: nat)
    requires k in Exec(cfg, Init(EMPTY_TABLES), run).seen
    ensures var s := Exec(cfg, Init(EMPTY_TABLES), run);
            && i < |s.handlers| && KeyOf(s.handlers[i]) == k && PastClaim(s.handlers[i].pc)
            && (forall j :: 0 <= j < |s.handlers| && j != i && KeyOf(s.handlers[j]) == k ==> !PastClaim(s.handlers[j].pc))
            && (InFlightPastClaim(s.handlers[i].pc) || s.handlers[i].pc.Errored?
                || HasBothRows(cfg, TablesOf(s), s.handlers[i].adm))
  {
    hide Exec, HasBothRows, Provenance, RawRowsFollow, MeasRowsFollow, Genuine;
    ReachedAfter(cfg, run);
    var s := Exec(cfg, Init(EMPTY_TABLES), run);
    assert ClaimsHold(s.handlers, s.seen) && HasClaimant(s.handlers, k);
    i :| 0 <= i < |s.handlers| && Claims(s.handlers[i]) && KeyOf(s.handlers[i]) == k;
    if s.handlers[i].pc.Accepted? {
      AcceptedHasRows(cfg, s, i);
    }
  }

  /** A raw row under the message's key, and a measurement row under its transformer and instant. */
  ghost predicate HasBothRows(cfg: Config, t: Tables, adm: Admission)
  {
    && DedupKey(adm.m) in t.raw
    && cfg.db.clock.parse(adm.m.timestamp).Some?
    && (adm.m.transformerId, cfg.db.clock.parse(adm.m.timestamp).value) in t.meas
  }

  lemma MeasPresent(db: Database, t: Tables, past: seq<Write>, mine: seq<Write>, m: Measurement, at: Instant)
    requires MeasRowsFollow(db, t, past + mine) && MeasWrite(m) in mine
    requires db.clock.parse(m.timestamp) == Some(at)
    ensures (m.transformerId, at) in t.meas
  {
    var j :| 0 <= j < |mine| && mine[j] == MeasWrite(m);
    assert (past + mine)[|past| + j] == mine[j];
    assert IsMeasWrite(db, past + mine, |past| + j, (m.transformerId, at));
  }

  lemma RawPresent(db: Database, t: Tables, past: seq<Write>, mine: seq<Write>, j: nat)
    requires RawRowsFollow(db, t, past + mine) && j < |mine| && mine[j].RawWrite?
    ensures mine[j].rec.id in t.raw
  {
    assert (past + mine)[|past| + j] == mine[j];
    assert IsRawWrite(past + mine, |past| + j, mine[j].rec.id);
  }

  lemma AcceptedHasRows(cfg: Config, s: State, i: nat)
    requires Reached(cfg, s) && At(s, i, Accepted)
    ensures HasBothRows(cfg, TablesOf(s), s.handlers[i].adm)
  {
    hide RawRowsFollow, MeasRowsFollow, Provenance, InRanges;
    var adm := s.handlers[i].adm;
    assert Delivered(cfg, s.handlers[i], s.mine) && AdmissionHolds(s.handlers, s.ever);
    assert Genuine(cfg, adm);
    var j :| 0 <= j < |s.mine| && s.mine[j].RawWrite? && Captures(cfg, adm, s.mine[j].rec);
    RawPresent(cfg.db, TablesOf(s), s.past, s.mine, j);
    MeasPresent(cfg.db, TablesOf(s), s.past, s.mine, Normalize(adm.m), cfg.db.clock.parse(adm.m.timestamp).value);
  }

  ghost predicate RowsAgree(a: Measurement, b: Measurement)
  {
    DedupKey(a) == DedupKey(b) && ChecksPass(RowOf(Normalize(b))) ==> RowOf(Normalize(a)) == RowOf(Normalize(b))
  }

  /** Messages under one key lead to one row, as far as the table would take it. */
  ghost predicate KeyCoherent(admissions: iset<Admission>)
  {
    forall a, b :: a in admissions && b in admissions ==> RowsAgree(a.m, b.m)
  }

  lemma CoherentIsBacked(cfg: Config, s: State, admissions: iset<Admission>)
    requires Reached(cfg, s) && PlainIds(cfg)
    requires KeyCoherent(admissions) && forall adm :: adm in s.ever ==> adm in admissions
    ensures AllBacked(cfg.db, TablesOf(s))
  {
    var t := TablesOf(s);
    forall key | key in t.meas ensures exists id :: BackedBy(cfg.db, t, key, id) {
      var adm, i := MeasurementSource(cfg, s, key);
      var k := DedupKey(adm.m);
      var other := CapturedIsFaithful(cfg, s, k);
      SameKeySameSource(cfg, adm, other);
      assert RowsAgree(other.m, adm.m);
      assert Genuine(cfg, other) && DecodeMeasurement(t.raw[k].payload) == Some(other.m);
      assert BackedBy(cfg.db, t, key, k);
    }
  }

  /** In one process from an empty store no assumption on the messages is needed. */
  lemma OneProcessIsBacked(cfg: Config, run: seq<Label>)
    requires forall l :: l in run ==> !l.Restart?
    ensures AllBacked(cfg.db, TablesOf(Exec(cfg, Init(EMPTY_TABLES), run)))
  {
    ReachedAfter(cfg, run);
    NoRestartNoPast(cfg, Init(EMPTY_TABLES), run);
    var s := Exec(cfg, Init(EMPTY_TABLES), run);
    var t, ws := TablesOf(s), Journal(s);
    assert ws == s.mine;
    forall key | key in t.meas ensures exists id :: BackedBy(cfg.db, t, key, id) {
      var adm, i := MeasurementSource(cfg, s, key);
      var k := DedupKey(adm.m);
      var other := CapturedIsFaithful(cfg, s, k);
      OnlyCapture(cfg, s, k, adm, i);
      assert Genuine(cfg, adm);
      assert BackedBy(cfg.db, t, key, k);
    }
  }

  /** With each key written at most once, the stored row is that write's. */
  lemma OnlyCapture(cfg: Config, s: State, k: string, adm: Admission, i: nat)
    requires Reached(cfg, s) && AtMostOnce(Journal(s)) && k in TablesOf(s).raw
    requires i < |Journal(s)| && IsRawWrite(Journal(s), i, k) && Captures(cfg, adm, Journal(s)[i].rec)
    ensures TablesOf(s).raw[k].payload == PayloadOf(adm.msg)
  {
    var t, ws := TablesOf(s), Journal(s);
    assert RawRowHasWrite(cfg.db, t, ws, k);
    var j :| IsRawWrite(ws, j, k) && cfg.db.clock.parse(ws[j].rec.receivedAt).Some?
      && t.raw[k] == RawRowOf(cfg.db, ws[j].rec);
    assert i == j by {
      if i < j { assert Clash(ws[i], ws[j]); }
      if j < i { assert Clash(ws[j], ws[i]); }
    }
  }

  lemma {:induction false} NoRestartNoPast(cfg: Config, s: State, run: seq<Label>)
    requires forall l :: l in run ==> !l.Restart?
    ensures Exec(cfg, s, run).past == s.past
  {
    if run != [] {
      NoRestartNoPast(cfg, s, run[..|run| - 1]);
      PastStep(cfg, Exec(cfg, s, run[..|run| - 1]), run[|run| - 1]);
    }
  }

  lemma PastStep(cfg: Config, s: State, l: Label)
    requires !l.Restart?
    ensures Step(cfg, s, l).past == s.past
  {
  }
}
