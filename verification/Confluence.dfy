// What the tables hold once everything admitted has been handled since the last
// restart: a function of the admitted messages alone.
module Confluence {
  import opened Sets
  import opened Measurement
  import opened Topic
  import opened Storage
  import opened Journals
  import opened Protocol
  import opened ProtocolInvariant
  import opened TableProvenance

  /** Every handler has returned and none met a store error. */
  ghost predicate Quiescent(s: State)
  {
    forall i :: 0 <= i < |s.handlers| ==>
      s.handlers[i].pc.Rejected? || s.handlers[i].pc.Skipped? || s.handlers[i].pc.Accepted?
  }

  /** Everything ever admitted has been claimed since the last restart. */
  ghost predicate CaughtUp(s: State)
  {
    forall adm :: adm in s.ever ==> DedupKey(adm.m) in s.seen
  }

  /** The payload is a function of the dedup key. */
  ghost predicate PayloadPerKey(ever: set<Admission>)
  {
    forall a, b :: a in ever && b in ever && DedupKey(a.m) == DedupKey(b.m) ==> a.msg.payload == b.msg.payload
  }

  function InstantOf(cfg: Config, adm: Admission): Instant
  {
    var at := cfg.db.clock.parse(adm.m.timestamp);
    if at.Some? then at.value else 0
  }

  function MeasKey(cfg: Config, adm: Admission): (string, Instant)
  {
    (adm.m.transformerId, InstantOf(cfg, adm))
  }

  /** One spelling per transformer and instant. */
  ghost predicate OneSpelling(cfg: Config, ever: set<Admission>)
  {
    InjectiveOn(ever, (adm: Admission) => MeasKey(cfg, adm))
  }

  /** Canonical timestamps have one spelling per instant. */
  lemma CanonicalIsOneSpelling(cfg: Config, ever: set<Admission>)
    requires forall adm :: adm in ever ==> Genuine(cfg, adm) && Canonical(cfg.db.clock, adm.m.timestamp)
    requires PayloadPerKey(ever)
    ensures OneSpelling(cfg, ever)
  {
    forall a, b | a in ever && b in ever && MeasKey(cfg, a) == MeasKey(cfg, b) ensures a == b {
      assert a.m.timestamp == b.m.timestamp;
      SameKeySameAdmission(cfg, ever, a, b);
    }
  }

  lemma SameKeySameAdmission(cfg: Config, ever: set<Admission>, a: Admission, b: Admission)
    requires PayloadPerKey(ever) && a in ever && b in ever
    requires Genuine(cfg, a) && Genuine(cfg, b) && DedupKey(a.m) == DedupKey(b.m)
    ensures a == b
  {
    ParseIffPublished(a.msg.topic, a.m.transformerId);
    ParseIffPublished(b.msg.topic, b.m.transformerId);
  }

  /** The raw row of a message, but for the time it was received. */
  function Timeless(row: RawRow): RawRow
  {
    row.(ingestedAt := 0)
  }

  function TimelessRow(cfg: Config, adm: Admission): RawRow
  {
    RawRow(adm.m.transformerId, adm.m.schemaVersion, adm.msg.topic, cfg.source, 0, PayloadOf(adm.msg))
  }

  /** Exactly one raw row per admitted message and one measurement row per transformer and instant. */
  ghost predicate Exact(cfg: Config, ever: set<Admission>, t: Tables)
  {
    && t.raw.Keys == Image(ever, (adm: Admission) => DedupKey(adm.m))
    && t.meas.Keys == Image(ever, (adm: Admission) => MeasKey(cfg, adm))
    && (forall adm :: adm in ever ==> RawExact(cfg, t, adm))
    && (OneSpelling(cfg, ever) ==> forall adm :: adm in ever ==> MeasExact(cfg, t, adm))
  }

  ghost predicate RawExact(cfg: Config, t: Tables, adm: Admission)
  {
    DedupKey(adm.m) in t.raw && Timeless(t.raw[DedupKey(adm.m)]) == TimelessRow(cfg, adm)
  }

  ghost predicate MeasExact(cfg: Config, t: Tables, adm: Admission)
  {
    MeasKey(cfg, adm) in t.meas && t.meas[MeasKey(cfg, adm)] == RowOf(Normalize(adm.m))
  }

  lemma SpelledOnce(cfg: Config, ever: set<Admission>, a: Admission, b: Admission)
    requires OneSpelling(cfg, ever) && a in ever && b in ever && MeasKey(cfg, a) == MeasKey(cfg, b)
    ensures a == b
  {
    var f := (adm: Admission) => MeasKey(cfg, adm);
    assert f(a) == f(b);
  }

  lemma Claimant(hs: seq<Handler>, seen: set<string>, k: string) returns (i: nat)
    requires ClaimsHold(hs, seen) && k in seen
    ensures i < |hs| && Claims(hs[i]) && KeyOf(hs[i]) == k
  {
    assert HasClaimant(hs, k);
    i :| 0 <= i < |hs| && Claims(hs[i]) && KeyOf(hs[i]) == k;
  }

  /** Caught up and quiescent: the message's handler in this process has written both records. */
  lemma HandlerHasWritten(cfg: Config, s: State, adm: Admission)
    requires Reached(cfg, s) && Quiescent(s) && CaughtUp(s) && PayloadPerKey(s.ever) && adm in s.ever
    ensures HasRaw(cfg, s.mine, adm) && HasMeas(s.mine, adm)
  {
    var i := Claimant(s.handlers, s.seen, DedupKey(adm.m));
    var h := s.handlers[i];
    assert h.pc.Accepted? && Delivered(cfg, h, s.mine);
    SameKeySameAdmission(cfg, s.ever, h.adm, adm);
  }

  lemma RawSide(cfg: Config, s: State, adm: Admission)
    requires Reached(cfg, s) && PayloadPerKey(s.ever) && adm in s.ever && HasRaw(cfg, s.mine, adm)
    ensures RawExact(cfg, TablesOf(s), adm)
  {
    var k := DedupKey(adm.m);
    var j :| 0 <= j < |s.mine| && s.mine[j].RawWrite? && Captures(cfg, adm, s.mine[j].rec);
    assert Journal(s)[|s.past| + j] == s.mine[j];
    assert IsRawWrite(Journal(s), |s.past| + j, k);
    var other := CaptureOf(cfg, s, k);
    SameKeySameAdmission(cfg, s.ever, other, adm);
  }

  lemma MeasSide(cfg: Config, s: State, adm: Admission)
    requires Reached(cfg, s) && OneSpelling(cfg, s.ever) && adm in s.ever
    requires MeasKey(cfg, adm) in TablesOf(s).meas
    ensures MeasExact(cfg, TablesOf(s), adm)
  {
    var other, _ := MeasurementSource(cfg, s, MeasKey(cfg, adm));
    SpelledOnce(cfg, s.ever, other, adm);
  }

  /** The admitted message a raw row captures, field by field. */
  lemma CaptureOf(cfg: Config, s: State, k: string) returns (adm: Admission)
    requires Reached(cfg, s) && k in TablesOf(s).raw
    ensures adm in s.ever && DedupKey(adm.m) == k && Timeless(TablesOf(s).raw[k]) == TimelessRow(cfg, adm)
  {
    var t, ws := TablesOf(s), Journal(s);
    assert RawRowHasWrite(cfg.db, t, ws, k);
    var j :| IsRawWrite(ws, j, k) && cfg.db.clock.parse(ws[j].rec.receivedAt).Some?
      && t.raw[k] == RawRowOf(cfg.db, ws[j].rec);
    assert Sourced(cfg, s.ever, ws, j);
    adm :| adm in s.ever && Captures(cfg, adm, ws[j].rec);
  }

  /**
   * Whatever the delivery order, duplication, interleaving, failed writes and
   * crash points before: once caught up, the tables are exact.
   */
  lemma CaughtUpIsExact(cfg: Config, run: seq<Label>)
    requires var s := Exec(cfg, Init(EMPTY_TABLES), run);
             Quiescent(s) && CaughtUp(s) && PayloadPerKey(s.ever)
    ensures var s := Exec(cfg, Init(EMPTY_TABLES), run);
            Exact(cfg, s.ever, TablesOf(s))
  {
    ReachedAfter(cfg, run);
    var s := Exec(cfg, Init(EMPTY_TABLES), run);
    forall adm | adm in s.ever
      ensures RawExact(cfg, TablesOf(s), adm) && MeasKey(cfg, adm) in TablesOf(s).meas
      ensures OneSpelling(cfg, s.ever) ==> MeasExact(cfg, TablesOf(s), adm)
    {
      HandlerHasWritten(cfg, s, adm);
      RawSide(cfg, s, adm);
      MeasPresent(cfg.db, TablesOf(s), s.past, s.mine, Normalize(adm.m), InstantOf(cfg, adm));
      if OneSpelling(cfg, s.ever) {
        MeasSide(cfg, s, adm);
      }
    }
    RawKeysAreEver(cfg, s);
    MeasKeysAreEver(cfg, s);
  }

  lemma RawKeysAreEver(cfg: Config, s: State)
    requires Reached(cfg, s) && forall adm :: adm in s.ever ==> RawExact(cfg, TablesOf(s), adm)
    ensures TablesOf(s).raw.Keys == Image(s.ever, (adm: Admission) => DedupKey(adm.m))
  {
    var keyOf := (adm: Admission) => DedupKey(adm.m);
    forall k | k in TablesOf(s).raw.Keys ensures k in Image(s.ever, keyOf) {
      var adm := CaptureOf(cfg, s, k);
      assert keyOf(adm) == k;
    }
    forall adm | adm in s.ever ensures keyOf(adm) in TablesOf(s).raw.Keys {
      assert RawExact(cfg, TablesOf(s), adm);
    }
  }

  lemma MeasKeysAreEver(cfg: Config, s: State)
    requires Reached(cfg, s) && forall adm :: adm in s.ever ==> MeasKey(cfg, adm) in TablesOf(s).meas
    ensures TablesOf(s).meas.Keys == Image(s.ever, (adm: Admission) => MeasKey(cfg, adm))
  {
    var measKey := (adm: Admission) => MeasKey(cfg, adm);
    forall key | key in TablesOf(s).meas.Keys ensures key in Image(s.ever, measKey) {
      var adm, _ := MeasurementSource(cfg, s, key);
      assert measKey(adm) == key;
    }
    forall adm | adm in s.ever ensures measKey(adm) in TablesOf(s).meas.Keys {
      assert MeasKey(cfg, adm) in TablesOf(s).meas;
    }
  }

  /** The tables without the receive times. */
  function Strip(t: Tables): (map<string, RawRow>, map<(string, Instant), MeasurementRow>)
  {
    (map k | k in t.raw :: Timeless(t.raw[k]), t.meas)
  }

  /**
   * Confluence: two runs that have admitted the same messages, each caught up
   * since its own last restart, leave the same tables but for receive times.
   */
  lemma Confluent(cfg: Config, run1: seq<Label>, run2: seq<Label>)
    requires var s1, s2 := Exec(cfg, Init(EMPTY_TABLES), run1), Exec(cfg, Init(EMPTY_TABLES), run2);
             && Quiescent(s1) && CaughtUp(s1) && Quiescent(s2) && CaughtUp(s2)
             && s1.ever == s2.ever && PayloadPerKey(s1.ever) && OneSpelling(cfg, s1.ever)
    ensures Strip(TablesOf(Exec(cfg, Init(EMPTY_TABLES), run1))) == Strip(TablesOf(Exec(cfg, Init(EMPTY_TABLES), run2)))
  {
    var s1, s2 := Exec(cfg, Init(EMPTY_TABLES), run1), Exec(cfg, Init(EMPTY_TABLES), run2);
    CaughtUpIsExact(cfg, run1);
    CaughtUpIsExact(cfg, run2);
    ExactIsUnique(cfg, s1.ever, TablesOf(s1), TablesOf(s2));
  }

  lemma ExactIsUnique(cfg: Config, ever: set<Admission>, t: Tables, u: Tables)
    requires Exact(cfg, ever, t) && Exact(cfg, ever, u) && OneSpelling(cfg, ever)
    ensures Strip(t) == Strip(u)
  {
    forall k | k in t.raw ensures k in u.raw && Timeless(t.raw[k]) == Timeless(u.raw[k]) {
      var adm :| adm in ever && DedupKey(adm.m) == k;
      assert RawExact(cfg, t, adm) && RawExact(cfg, u, adm);
    }
    forall key | key in t.meas ensures key in u.meas && t.meas[key] == u.meas[key] {
      var adm :| adm in ever && MeasKey(cfg, adm) == key;
      assert MeasExact(cfg, t, adm) && MeasExact(cfg, u, adm);
    }
    assert t.raw.Keys == u.raw.Keys && t.meas.Keys == u.meas.Keys;
    StripEqual(t, u);
  }

  lemma StripEqual(t: Tables, u: Tables)
    requires t.raw.Keys == u.raw.Keys && t.meas.Keys == u.meas.Keys
    requires forall k :: k in t.raw ==> Timeless(t.raw[k]) == Timeless(u.raw[k])
    requires forall key :: key in t.meas ==> t.meas[key] == u.meas[key]
    ensures Strip(t) == Strip(u)
  {
    var a, b := Strip(t).0, Strip(u).0;
    assert a.Keys == t.raw.Keys && b.Keys == u.raw.Keys;
    assert forall k :: k in a ==> a[k] == b[k];
    assert a == b;
    assert t.meas == u.meas;
  }

  /**
   * Row counts once caught up: one raw row per admitted message, and as many
   * measurement rows exactly when no instant was spelled in two ways.
   */
  lemma CaughtUpCounts(cfg: Config, run: seq<Label>)
    requires var s := Exec(cfg, Init(EMPTY_TABLES), run);
             Quiescent(s) && CaughtUp(s) && PayloadPerKey(s.ever)
    ensures var s := Exec(cfg, Init(EMPTY_TABLES), run);
            && |TablesOf(s).raw| == |s.ever|
            && |TablesOf(s).meas| <= |s.ever|
            && (|TablesOf(s).meas| == |s.ever| <==> OneSpelling(cfg, s.ever))
  {
    var s := Exec(cfg, Init(EMPTY_TABLES), run);
    CaughtUpIsExact(cfg, run);
    ReachedAfter(cfg, run);
    var keyOf := (adm: Admission) => DedupKey(adm.m);
    var measKey := (adm: Admission) => MeasKey(cfg, adm);
    forall a, b | a in s.ever && b in s.ever && keyOf(a) == keyOf(b) ensures a == b {
      SameKeySameAdmission(cfg, s.ever, a, b);
    }
    ImageSize(s.ever, keyOf);
    ImageSize(s.ever, measKey);
    assert |TablesOf(s).raw| == |TablesOf(s).raw.Keys| && |TablesOf(s).meas| == |TablesOf(s).meas.Keys|;
  }
}
