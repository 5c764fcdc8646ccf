// What a failed write costs, what repairs it, and what replaying the bronze log
// of a run recovers.
module Recovery {
  import opened Wrappers
  import opened Measurement
  import opened Json
  import opened Storage
  import opened Sinks
  import opened Replay
  import opened Protocol
  import opened ProtocolSafety
  import opened ProtocolInvariant
  import opened ProtocolWrites
  import opened Ingestor
  import opened TableProvenance
  import opened ProvenanceExact

  // ---- a store error is not repaired within the process ----

  /** A step that writes does so for a handler that owns the key and has not finished. */
  lemma WriteByOwner(cfg: Config, s: State, l: Label) returns (i: nat, w: Write)
    requires !l.Restart?
    ensures var t := Step(cfg, s, l);
            || t.mine == s.mine
            || (i < |s.handlers| && (s.handlers[i].pc.Claimed? || s.handlers[i].pc.RawStored?)
                && WriteKey(w) == KeyOf(s.handlers[i]) && t.mine == s.mine + [w]
                && ((l.StoreRaw? && w == RawWrite(RawRecordOf(cfg, s.handlers[i].adm, l.now)))
                    || w == MeasWrite(Normalize(s.handlers[i].adm.m))))
  {
    i, w := 0, MeasWrite(ZERO_MEASUREMENT);
    match l {
      case StoreRaw(j, now, fault) =>
        if At(s, j, Claimed) {
          i, w := j, RawWrite(RawRecordOf(cfg, s.handlers[j].adm, now));
        }
      case StoreMeas(j, fault) =>
        if At(s, j, RawStored) {
          i, w := j, MeasWrite(Normalize(s.handlers[j].adm.m));
        }
      case _ =>
    }
  }

  lemma ErroredStays(cfg: Config, s: State, i: nat, l: Label)
    requires At(s, i, Errored) && !l.Restart?
    ensures i < |Step(cfg, s, l).handlers| && Step(cfg, s, l).handlers[i] == s.handlers[i]
  {
  }

  /**
   * A key charged a store error is not written again before a restart: every
   * redelivery of it in the same process ends as a duplicate.
   */
  lemma {:induction false} ErroredKeyIsStuck(cfg: Config, s: State, i: nat, run: seq<Label>)
    requires s in Safe(cfg) && At(s, i, Errored) && forall l :: l in run ==> !l.Restart?
    ensures var t := Exec(cfg, s, run);
            && t in Safe(cfg) && At(t, i, Errored) && t.handlers[i] == s.handlers[i]
            && (forall w :: w in t.mine && WriteKey(w) == KeyOf(s.handlers[i]) ==> w in s.mine)
            && (forall j :: 0 <= j < |t.handlers| && j != i && KeyOf(t.handlers[j]) == KeyOf(s.handlers[i]) ==>
                  !PastClaim(t.handlers[j].pc))
  {
    if run != [] {
      var before, l := run[..|run| - 1], run[|run| - 1];
      ErroredKeyIsStuck(cfg, s, i, before);
      var u := Exec(cfg, s, before);
      ErroredStays(cfg, u, i, l);
      StepSafe(cfg, u, l);
      var j, w := WriteByOwner(cfg, u, l);
      if Step(cfg, u, l).mine != u.mine {
        OwnersDiffer(cfg, u, i, j);
      }
    }
    OnlyOwner(cfg, Exec(cfg, s, run), i);
  }

  lemma OnlyOwner(cfg: Config, s: State, i: nat)
    requires s in Safe(cfg) && At(s, i, Errored)
    ensures forall j :: 0 <= j < |s.handlers| && j != i && KeyOf(s.handlers[j]) == KeyOf(s.handlers[i]) ==>
              !PastClaim(s.handlers[j].pc)
  {
    assert ClaimsHold(s.handlers, s.seen) && Claims(s.handlers[i]);
  }

  lemma OwnersDiffer(cfg: Config, s: State, i: nat, j: nat)
    requires s in Safe(cfg) && At(s, i, Errored) && j < |s.handlers|
    requires s.handlers[j].pc.Claimed? || s.handlers[j].pc.RawStored?
    ensures KeyOf(s.handlers[j]) != KeyOf(s.handlers[i])
  {
    OnlyOwner(cfg, s, i);
  }

  // ---- a restart and a redelivery repair it ----

  /**
   * Whatever state the process stopped in, a restart followed by one redelivery
   * under a healthy store leaves both rows of the message in place.
   */
  lemma RedeliveryRepairs(cfg: Config, s: State, adm: Admission, checkedAt: Instant, receivedAt: Instant)
    requires Deployed(cfg) && s.sink.TableSink? && Genuine(cfg, adm)
    requires Decide(cfg, checkedAt, adm.msg) == Some(adm.m) && InCalendar(receivedAt)
    requires ChecksPass(RowOf(Normalize(adm.m)))
    ensures var t := Exec(cfg, s, [Restart] + CallRun(0, adm.msg, Circumstances(checkedAt, receivedAt, Healthy, Healthy)));
            && t.counters.accepted == 1
            && DedupKey(adm.m) in TablesOf(t).raw
            && (adm.m.transformerId, cfg.db.clock.parse(adm.m.timestamp).value) in TablesOf(t).meas
            && Extends(TablesOf(s), TablesOf(t))
  {
    var c := Circumstances(checkedAt, receivedAt, Healthy, Healthy);
    var u := Step(cfg, s, Restart);
    ExecSnoc(cfg, s, [], Restart);
    assert [] + [Restart] == [Restart];
    assert Exec(cfg, s, [Restart]) == u;
    ExecConcat(cfg, s, [Restart], CallRun(0, adm.msg, c));
    CallIsRun(cfg, u, adm.msg, c);
    assert cfg.db.clock.parse(cfg.db.clock.format(receivedAt)).Some?;
    InsertAllOkHere(cfg, u, adm, receivedAt);
  }

  lemma InsertAllOkHere(cfg: Config, s: State, adm: Admission, at: Instant)
    requires Deployed(cfg) && s.sink.TableSink? && Genuine(cfg, adm) && InCalendar(at)
    requires ChecksPass(RowOf(Normalize(adm.m)))
    ensures var raw, meas := RawWrite(RawRecordOf(cfg, adm, at)), MeasWrite(Normalize(adm.m));
            && Succeeds(cfg, s.sink, raw, Healthy)
            && var t1 := After(cfg, s.sink, raw, Healthy);
               && t1.TableSink? && Extends(TablesOf(s), t1.tables) && DedupKey(adm.m) in t1.tables.raw
               && Succeeds(cfg, t1, meas, Healthy)
               && var t2 := After(cfg, t1, meas, Healthy);
                  t2.TableSink? && Extends(t1.tables, t2.tables)
                  && (adm.m.transformerId, cfg.db.clock.parse(adm.m.timestamp).value) in t2.tables.meas
  {
    assert cfg.db.clock.parse(cfg.db.clock.format(at)).Some?;
  }

  // ---- replaying the log of a run ----

  /** Receive times are within the years RFC 3339 can spell. */
  ghost predicate TimesSpelled(run: seq<Label>)
  {
    forall l :: l in run && l.StoreRaw? ==> InCalendar(l.now)
  }

  /** The store refuses a journalled write only for its readings. */
  ghost predicate OnlyChecksMatter(db: Database, w: Write)
  {
    match w
    case RawWrite(rec) => db.clock.parse(rec.receivedAt).Some? && rec.transformerId in db.transformers
    case MeasWrite(m) => db.clock.parse(m.timestamp).Some? && m.transformerId in db.transformers
  }

  lemma {:induction false} JournalIsWellFormed(cfg: Config, sink: Sink, run: seq<Label>)
    requires Deployed(cfg) && TimesSpelled(run) && (sink == EMPTY_LOG || sink == EMPTY_TABLES)
    ensures forall w :: w in Journal(Exec(cfg, Init(sink), run)) ==> OnlyChecksMatter(cfg.db, w)
  {
    if run != [] {
      var before, l := run[..|run| - 1], run[|run| - 1];
      JournalIsWellFormed(cfg, sink, before);
      AlwaysSafe(cfg, sink, before);
      EverGenuine(cfg, sink, before);
      JournalStep(cfg, Exec(cfg, Init(sink), before), l);
    }
  }

  lemma JournalStep(cfg: Config, s: State, l: Label)
    requires Deployed(cfg) && s in Safe(cfg) && (forall adm :: adm in s.ever ==> Genuine(cfg, adm))
    requires l.StoreRaw? ==> InCalendar(l.now)
    requires forall w :: w in Journal(s) ==> OnlyChecksMatter(cfg.db, w)
    ensures forall w :: w in Journal(Step(cfg, s, l)) ==> OnlyChecksMatter(cfg.db, w)
  {
    if l.Restart? {
      assert Journal(Step(cfg, s, l)) == Journal(s);
    } else {
      PastStep(cfg, s, l);
      var i, w := WriteByOwner(cfg, s, l);
      if Step(cfg, s, l).mine != s.mine {
        assert s.handlers[i].adm in s.ever;
        WriteIsWellFormed(cfg, s.handlers[i].adm, l, w);
      }
    }
  }

  lemma WriteIsWellFormed(cfg: Config, adm: Admission, l: Label, w: Write)
    requires Deployed(cfg) && Genuine(cfg, adm)
    requires (l.StoreRaw? && InCalendar(l.now) && w == RawWrite(RawRecordOf(cfg, adm, l.now)))
          || w == MeasWrite(Normalize(adm.m))
    ensures OnlyChecksMatter(cfg.db, w)
  {
    if w.RawWrite? {
      assert cfg.db.clock.parse(cfg.db.clock.format(l.now)).Some?;
    }
  }

  ghost predicate Storable(w: Write)
  {
    w.MeasWrite? ==> ChecksPass(RowOf(w.m))
  }

  lemma {:induction false} ReplaySucceedsIff(db: Database, t: Tables, reqs: seq<Request>, ws: seq<Write>, k: nat, rawN: nat, measN: nat)
    requires k + |ws| == |reqs| && forall i :: k <= i < |reqs| ==> reqs[i] == Ok(Some(ws[i - k]))
    requires forall w :: w in ws ==> OnlyChecksMatter(db, w)
    ensures ReplayFrom(db, t, reqs, STEADY, k, rawN, measN).error.None? <==> forall w :: w in ws ==> Storable(w)
    decreases |ws|
  {
    if ws != [] {
      var w, rest := ws[0], ws[1..];
      assert reqs[k] == Ok(Some(w)) && w in ws;
      assert forall v :: v in ws <==> v == w || v in rest;
      assert Insert(db, t, w).Ok? <==> Storable(w);
      if Storable(w) {
        HealthyStep(db, t, reqs, w, k, rawN, measN);
        ReplaySucceedsIff(db, Attempt(db, t, w), reqs, rest, k + 1,
                          rawN + if w.RawWrite? then 1 else 0, measN + if w.RawWrite? then 0 else 1);
      }
    }
  }

  /**
   * Replaying the bronze log of any run, restarts and failures included, gets to
   * the end if and only if every logged sample passes the table's checks.
   */
  lemma LogReplaysExactly(cfg: Config, run: seq<Label>)
    requires Deployed(cfg) && TimesSpelled(run)
    ensures var s := Exec(cfg, Init(EMPTY_LOG), run);
            s.sink.LogSink? &&
            (Replayed(cfg.db, EMPTY, s.sink.lines, STEADY).error.None? <==>
             forall w :: w in Journal(s) ==> Storable(w))
  {
    var s := Exec(cfg, Init(EMPTY_LOG), run);
    SinkKindStays(cfg, Init(EMPTY_LOG), run);
    AlwaysSafe(cfg, EMPTY_LOG, run);
    JournalIsWellFormed(cfg, EMPTY_LOG, run);
    LogOfJournalReplays(cfg.db, Journal(s));
  }

  lemma LogOfJournalReplays(db: Database, ws: seq<Write>)
    requires forall w :: w in ws ==> OnlyChecksMatter(db, w)
    ensures Replayed(db, EMPTY, EncodeAll(ws), STEADY).error.None? <==> forall w :: w in ws ==> Storable(w)
  {
    LogIsClassified(ws);
    ReplaySucceedsIff(db, EMPTY, ClassifyAll(EncodeAll(ws)), ws, 0, 0, 0);
  }

  // ---- the same run over both sinks ----

  /** The journal only grows. */
  lemma JournalGrowsStep(cfg: Config, s: State, l: Label)
    ensures Journal(s) <= Journal(Step(cfg, s, l))
  {
    if l.Restart? {
      assert Journal(Step(cfg, s, l)) == Journal(s);
    } else {
      var _, w := WriteByOwner(cfg, s, l);
      assert s.past + (s.mine + [w]) == Journal(s) + [w];
      PastStep(cfg, s, l);
    }
  }

  /** Equal but for the sink. */
  ghost predicate Lockstep(s: State, t: State)
  {
    s.sink.LogSink? && t.sink.TableSink? && t == s.(sink := t.sink)
  }

  lemma LockstepStep(cfg: Config, s: State, t: State, l: Label)
    requires Lockstep(s, t)
    requires forall w :: w in Step(cfg, s, l).mine ==> OnlyChecksMatter(cfg.db, w) && Storable(w)
    ensures Lockstep(Step(cfg, s, l), Step(cfg, t, l))
  {
    match l {
      case StoreRaw(i, now, fault) =>
        if At(s, i, Claimed) {
          LockstepStore(cfg, s, t, i, RawWrite(RawRecordOf(cfg, s.handlers[i].adm, now)), fault, RawStored);
        }
      case StoreMeas(i, fault) =>
        if At(s, i, RawStored) {
          LockstepStore(cfg, s, t, i, MeasWrite(Normalize(s.handlers[i].adm.m)), fault, BothStored);
        }
      case Settle(i) =>
      case _ =>
    }
  }

  lemma LockstepStore(cfg: Config, s: State, t: State, i: nat, w: Write, fault: Fault, next: Pc)
    requires Lockstep(s, t) && i < |s.handlers|
    requires fault != LostBefore ==> OnlyChecksMatter(cfg.db, w) && Storable(w)
    ensures Lockstep(Store(cfg, s, i, w, fault, next), Store(cfg, t, i, w, fault, next))
  {
  }

  /** When every logged sample is storable, the two sinks see the same run. */
  lemma {:induction false} SinksRunInLockstep(cfg: Config, run: seq<Label>)
    requires Deployed(cfg) && TimesSpelled(run)
    requires forall w :: w in Journal(Exec(cfg, Init(EMPTY_LOG), run)) ==> Storable(w)
    ensures Lockstep(Exec(cfg, Init(EMPTY_LOG), run), Exec(cfg, Init(EMPTY_TABLES), run))
  {
    if run != [] {
      var before, l := run[..|run| - 1], run[|run| - 1];
      var s, t := Exec(cfg, Init(EMPTY_LOG), before), Exec(cfg, Init(EMPTY_TABLES), before);
      JournalGrowsStep(cfg, s, l);
      SinksRunInLockstep(cfg, before);
      JournalIsWellFormed(cfg, EMPTY_LOG, run);
      LockstepStep(cfg, s, t, l);
    }
  }

  /**
   * Backfill equals live ingestion: replaying the log that a run leaves gives
   * the tables, and the counts, that the same run over the database leaves.
   */
  lemma BackfillEqualsLive(cfg: Config, run: seq<Label>)
    requires Deployed(cfg) && TimesSpelled(run)
    requires forall w :: w in Journal(Exec(cfg, Init(EMPTY_LOG), run)) ==> Storable(w)
    ensures var s, t := Exec(cfg, Init(EMPTY_LOG), run), Exec(cfg, Init(EMPTY_TABLES), run);
            s.sink.LogSink? &&
            Replayed(cfg.db, EMPTY, s.sink.lines, STEADY) ==
            Outcome(TablesOf(t), RawCount(Journal(s)), |Journal(s)| - RawCount(Journal(s)), None)
  {
    SinksRunInLockstep(cfg, run);
    AlwaysSafe(cfg, EMPTY_LOG, run);
    AlwaysSafe(cfg, EMPTY_TABLES, run);
    ReplayEqualsLive(cfg.db, EMPTY, Journal(Exec(cfg, Init(EMPTY_LOG), run)));
  }
}
