// Which step of a run wrote each row, what the row holds of that step's message
// and clock, and that nothing later changes it.
module RowHistory {
  import opened Measurement
  import opened Storage
  import opened Protocol
  import opened Ingestor
  import opened ProtocolInvariant
  import opened TableProvenance

  ghost function TablesAfter(cfg: Config, run: seq<Label>): Tables
  {
    TablesOf(Exec(cfg, Init(EMPTY_TABLES), run))
  }

  /** Step `j` is the raw write of the handler that claimed `k`, and the row was not there before it. */
  ghost predicate WritesRaw(cfg: Config, run: seq<Label>, j: nat, k: string)
  {
    && j < |run| && run[j].StoreRaw? && run[j].fault != LostBefore
    && var s := Exec(cfg, Init(EMPTY_TABLES), run[..j]);
    && At(s, run[j].i, Claimed) && KeyOf(s.handlers[run[j].i]) == k && k !in TablesOf(s).raw
  }

  /** Step `j` is the measurement write that put the row there. */
  ghost predicate WritesMeas(cfg: Config, run: seq<Label>, j: nat, key: (string, Instant))
  {
    && j < |run| && run[j].StoreMeas? && run[j].fault != LostBefore
    && var s := Exec(cfg, Init(EMPTY_TABLES), run[..j]);
    && At(s, run[j].i, RawStored) && key !in TablesOf(s).meas
  }

  /** The message the handler of step `j` works on. */
  ghost function MessageAt(cfg: Config, run: seq<Label>, j: nat): Message
    requires j < |run| && (run[j].StoreRaw? || run[j].StoreMeas?)
    requires run[j].i < |Exec(cfg, Init(EMPTY_TABLES), run[..j]).handlers|
  {
    Exec(cfg, Init(EMPTY_TABLES), run[..j]).handlers[run[j].i].adm.msg
  }

  // ---- one step ----

  lemma WorkerHasRead(cfg: Config, s: State, i: nat)
    requires Reached(cfg, s) && i < |s.handlers| && PastCheck(s.handlers[i].pc)
    ensures ReadFrom(s.handlers[i].adm)
  {
    assert AdmissionHolds(s.handlers, s.ever);
    assert Genuine(cfg, s.handlers[i].adm);
  }

  lemma StepExtends(cfg: Config, s: State, l: Label)
    requires s.sink.TableSink?
    ensures Extends(TablesOf(s), TablesOf(Step(cfg, s, l)))
  {
  }

  lemma RawAdded(cfg: Config, s: State, l: Label, k: string)
    requires Reached(cfg, s) && k !in TablesOf(s).raw && k in TablesOf(Step(cfg, s, l)).raw
    ensures l.StoreRaw? && l.fault != LostBefore && At(s, l.i, Claimed) && KeyOf(s.handlers[l.i]) == k
    ensures CapturedFrom(cfg, k, TablesOf(Step(cfg, s, l)).raw[k], s.handlers[l.i].adm.msg, l.now)
  {
    hide Reached, CapturedFrom;
    if l.StoreRaw? && At(s, l.i, Claimed) {
      WorkerHasRead(cfg, s, l.i);
      RawRecordIsCaptured(cfg, TablesOf(s), s.handlers[l.i].adm, l.now);
    }
  }

  lemma MeasAdded(cfg: Config, s: State, l: Label, key: (string, Instant))
    requires Reached(cfg, s) && key !in TablesOf(s).meas && key in TablesOf(Step(cfg, s, l)).meas
    ensures l.StoreMeas? && l.fault != LostBefore && At(s, l.i, RawStored)
    ensures MeasuredFrom(cfg, key, TablesOf(Step(cfg, s, l)).meas[key], s.handlers[l.i].adm.msg)
  {
    hide Reached, MeasuredFrom;
    if l.StoreMeas? && At(s, l.i, RawStored) {
      WorkerHasRead(cfg, s, l.i);
      SampleIsMeasured(cfg, TablesOf(s), s.handlers[l.i].adm);
    }
  }

  // ---- whole runs ----

  /** Whatever follows, redeliveries, failures and restarts included, no row changes. */
  lemma {:induction false} RowsStay(cfg: Config, run: seq<Label>, more: seq<Label>)
    ensures Extends(TablesAfter(cfg, run), TablesAfter(cfg, run + more))
    decreases |more|
  {
    hide Exec, Step;
    if more == [] {
      assert run + more == run;
    } else {
      var front, l := more[..|more| - 1], more[|more| - 1];
      RowsStay(cfg, run, front);
      SinkKindStays(cfg, Init(EMPTY_TABLES), run + front);
      StepExtends(cfg, Exec(cfg, Init(EMPTY_TABLES), run + front), l);
      assert run + more == run + front + [l];
      ExecSnoc(cfg, Init(EMPTY_TABLES), run + front, l);
    }
  }

  /**
   * Behind every raw row stands one step: its columns are those of the message
   * that step's handler worked on, its receipt the second of that step's clock.
   */
  lemma {:induction false} RawRowWritten(cfg: Config, run: seq<Label>, k: string) returns (j: nat)
    requires k in TablesAfter(cfg, run).raw
    ensures WritesRaw(cfg, run, j, k)
    ensures CapturedFrom(cfg, k, TablesAfter(cfg, run).raw[k], MessageAt(cfg, run, j), run[j].now)
    decreases |run|
  {
    hide Step, CapturedFrom, Reached;
    assert run != [];
    var front, l := run[..|run| - 1], run[|run| - 1];
    var s := Exec(cfg, Init(EMPTY_TABLES), front);
    ReachedAfter(cfg, front);
    if k in TablesAfter(cfg, front).raw {
      j := RawRowWritten(cfg, front, k);
      StepExtends(cfg, s, l);
      assert front[..j] == run[..j];
    } else {
      j := |run| - 1;
      RawAdded(cfg, s, l, k);
    }
  }

  /** And behind every measurement row: its columns show that message's readings, its state is theirs. */
  lemma {:induction false} MeasRowWritten(cfg: Config, run: seq<Label>, key: (string, Instant)) returns (j: nat)
    requires key in TablesAfter(cfg, run).meas
    ensures WritesMeas(cfg, run, j, key)
    ensures MeasuredFrom(cfg, key, TablesAfter(cfg, run).meas[key], MessageAt(cfg, run, j))
    decreases |run|
  {
    hide Step, MeasuredFrom, Reached;
    assert run != [];
    var front, l := run[..|run| - 1], run[|run| - 1];
    var s := Exec(cfg, Init(EMPTY_TABLES), front);
    ReachedAfter(cfg, front);
    if key in TablesAfter(cfg, front).meas {
      j := MeasRowWritten(cfg, front, key);
      StepExtends(cfg, s, l);
      assert front[..j] == run[..j];
    } else {
      j := |run| - 1;
      MeasAdded(cfg, s, l, key);
    }
  }
}
