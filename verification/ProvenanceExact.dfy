// Exactly which message universes keep every measurement row backed by a stored
// payload, over all runs with restarts and failing writes.
module ProvenanceExact {
  import opened Wrappers
  import opened Measurement
  import opened Validation
  import opened Storage
  import opened Protocol
  import opened ProtocolInvariant
  import opened ProtocolWrites
  import opened TableProvenance
  import opened Ingestor

  /** A service configured as `cmd/ingestion` does: the registry was loaded into the store. */
  ghost predicate Deployed(cfg: Config)
  {
    && LawfulClock(cfg.db.clock)
    && cfg.validator.maxSkew >= 0
    && cfg.validator.registry <= cfg.db.transformers
    && PlainIds(cfg)
  }

  /** Only messages of the universe are delivered. */
  ghost predicate Over(run: seq<Label>, universe: iset<Message>)
  {
    forall l :: l in run && l.Deliver? ==> l.msg in universe
  }

  /** What the universe can have admitted, at one time or another. */
  ghost function Potential(cfg: Config, universe: iset<Message>): iset<Admission>
  {
    iset adm: Admission | adm.msg in universe && Genuine(cfg, adm)
  }

  lemma {:induction false} OnlyFromUniverse(cfg: Config, s: State, run: seq<Label>, universe: iset<Message>)
    requires Over(run, universe)
    requires forall i :: 0 <= i < |s.handlers| ==> s.handlers[i].adm.msg in universe
    requires forall adm :: adm in s.ever ==> adm.msg in universe
    ensures var t := Exec(cfg, s, run);
            && (forall i :: 0 <= i < |t.handlers| ==> t.handlers[i].adm.msg in universe)
            && (forall adm :: adm in t.ever ==> adm.msg in universe)
  {
    if run != [] {
      OnlyFromUniverse(cfg, s, run[..|run| - 1], universe);
      var u, l := Exec(cfg, s, run[..|run| - 1]), run[|run| - 1];
      HandlersStep(cfg, u, l);
      EverStep(cfg, u, l);
    }
  }

  /** A step keeps every handler's message, adds the delivered one, or starts afresh. */
  lemma HandlersStep(cfg: Config, s: State, l: Label)
    ensures var t := Step(cfg, s, l);
            || t.handlers == []
            || (l.Deliver? && t.handlers == s.handlers + [Fresh(l.msg)])
            || (|t.handlers| == |s.handlers|
                && forall i :: 0 <= i < |s.handlers| ==> t.handlers[i].adm.msg == s.handlers[i].adm.msg)
  {
  }

  /** A genuine message is admitted when the clock reads its own timestamp. */
  lemma GenuineIsDecided(cfg: Config, adm: Admission) returns (now: Instant)
    requires Genuine(cfg, adm) && cfg.validator.maxSkew >= 0
    ensures Decide(cfg, now, adm.msg) == Some(adm.m)
  {
    now := cfg.db.clock.parse(adm.m.timestamp).value;
    ValidateAcceptsExactly(cfg.db.clock, cfg.validator, now, adm.msg.payload, adm.m);
  }

  /** One message's raw record is stored, its measurement is not, the service restarts, and the other arrives. */
  function Interrupted(a: Message, b: Message, ta: Instant, tb: Instant): seq<Label>
  {
    CallRun(0, a, Circumstances(ta, 0, Healthy, LostBefore)) + [Restart]
    + CallRun(0, b, Circumstances(tb, 0, Healthy, Healthy))
  }

  lemma FirstHalf(cfg: Config, a: Admission, ta: Instant) returns (s: State)
    requires Deployed(cfg) && Genuine(cfg, a) && Decide(cfg, ta, a.msg) == Some(a.m)
    ensures s == Exec(cfg, Init(EMPTY_TABLES), CallRun(0, a.msg, Circumstances(ta, 0, Healthy, LostBefore)) + [Restart])
    ensures s.handlers == [] && s.seen == {} && s.counters == ZERO_COUNTERS && s.sink.TableSink?
    ensures TablesOf(s).meas == map[] && TablesOf(s).raw.Keys == {DedupKey(a.m)}
    ensures TablesOf(s).raw[DedupKey(a.m)].payload == PayloadOf(a.msg)
  {
    var c := Circumstances(ta, 0, Healthy, LostBefore);
    var run := CallRun(0, a.msg, c);
    CallIsRun(cfg, Init(EMPTY_TABLES), a.msg, c);
    ExecSnoc(cfg, Init(EMPTY_TABLES), run, Restart);
    s := Exec(cfg, Init(EMPTY_TABLES), run + [Restart]);
    assert InCalendar(0) && cfg.db.clock.parse(cfg.db.clock.format(0)).Some?;
  }

  lemma SecondHalf(cfg: Config, s: State, b: Admission, tb: Instant)
    requires Deployed(cfg) && Genuine(cfg, b) && Decide(cfg, tb, b.msg) == Some(b.m)
    requires s.handlers == [] && s.seen == {} && s.sink.TableSink? && TablesOf(s).meas == map[]
    requires DedupKey(b.m) in TablesOf(s).raw && ChecksPass(RowOf(Normalize(b.m)))
    ensures var t := TablesOf(Exec(cfg, s, CallRun(0, b.msg, Circumstances(tb, 0, Healthy, Healthy))));
            && t.raw == TablesOf(s).raw
            && t.meas == map[(b.m.transformerId, cfg.db.clock.parse(b.m.timestamp).value) := RowOf(Normalize(b.m))]
  {
    CallIsRun(cfg, s, b.msg, Circumstances(tb, 0, Healthy, Healthy));
    assert InCalendar(0) && cfg.db.clock.parse(cfg.db.clock.format(0)).Some?;
  }

  lemma InterruptedDelivers(a: Message, b: Message, ta: Instant, tb: Instant)
    ensures forall l :: l in Interrupted(a, b, ta, tb) && l.Deliver? ==> l.msg == a || l.msg == b
  {
  }

  /** The interrupted run leaves one message's payload and the other's measurement under one key. */
  lemma InterruptedTables(cfg: Config, a: Admission, b: Admission) returns (run: seq<Label>)
    requires Deployed(cfg) && Genuine(cfg, a) && Genuine(cfg, b)
    requires DedupKey(a.m) == DedupKey(b.m) && ChecksPass(RowOf(Normalize(b.m)))
    ensures forall l :: l in run && l.Deliver? ==> l.msg == a.msg || l.msg == b.msg
    ensures var t := TablesOf(Exec(cfg, Init(EMPTY_TABLES), run));
            && t.raw.Keys == {DedupKey(a.m)} && t.raw[DedupKey(a.m)].payload == PayloadOf(a.msg)
            && t.meas == map[(b.m.transformerId, cfg.db.clock.parse(b.m.timestamp).value) := RowOf(Normalize(b.m))]
  {
    var ta := GenuineIsDecided(cfg, a);
    var tb := GenuineIsDecided(cfg, b);
    run := Interrupted(a.msg, b.msg, ta, tb);
    InterruptedDelivers(a.msg, b.msg, ta, tb);
    var first := CallRun(0, a.msg, Circumstances(ta, 0, Healthy, LostBefore)) + [Restart];
    var second := CallRun(0, b.msg, Circumstances(tb, 0, Healthy, Healthy));
    var s := FirstHalf(cfg, a, ta);
    assert run == first + second;
    hide Exec, CallRun, Interrupted;
    ExecConcat(cfg, Init(EMPTY_TABLES), first, second);
    SecondHalf(cfg, s, b, tb);
  }

  /** Two messages under one key with different rows: the interrupted run separates the tables. */
  lemma IncoherentIsUnbacked(cfg: Config, a: Admission, b: Admission) returns (run: seq<Label>)
    requires Deployed(cfg) && Genuine(cfg, a) && Genuine(cfg, b) && !RowsAgree(a.m, b.m)
    ensures forall l :: l in run && l.Deliver? ==> l.msg == a.msg || l.msg == b.msg
    ensures !AllBacked(cfg.db, TablesOf(Exec(cfg, Init(EMPTY_TABLES), run)))
  {
    hide Exec, ChecksPass;
    run := InterruptedTables(cfg, a, b);
    var t := TablesOf(Exec(cfg, Init(EMPTY_TABLES), run));
    var key := (b.m.transformerId, cfg.db.clock.parse(b.m.timestamp).value);
    assert key in t.meas;
    forall id ensures !BackedBy(cfg.db, t, key, id) {
      if id in t.raw {
        assert id == DedupKey(a.m);
      }
    }
  }

  /** Every measurement row is backed by a stored payload, whatever the run over the universe. */
  ghost predicate AlwaysBacked(cfg: Config, universe: iset<Message>)
  {
    forall run :: Over(run, universe) ==> AllBacked(cfg.db, TablesOf(Exec(cfg, Init(EMPTY_TABLES), run)))
  }

  lemma CoherentIsAlwaysBacked(cfg: Config, universe: iset<Message>)
    requires Deployed(cfg) && KeyCoherent(Potential(cfg, universe))
    ensures AlwaysBacked(cfg, universe)
  {
    forall run | Over(run, universe) ensures AllBacked(cfg.db, TablesOf(Exec(cfg, Init(EMPTY_TABLES), run))) {
      ReachedAfter(cfg, run);
      OnlyFromUniverse(cfg, Init(EMPTY_TABLES), run, universe);
      CoherentIsBacked(cfg, Exec(cfg, Init(EMPTY_TABLES), run), Potential(cfg, universe));
    }
  }

  lemma IncoherentIsNotAlwaysBacked(cfg: Config, universe: iset<Message>)
    requires Deployed(cfg) && !KeyCoherent(Potential(cfg, universe))
    ensures !AlwaysBacked(cfg, universe)
  {
    var a, b :| a in Potential(cfg, universe) && b in Potential(cfg, universe) && !RowsAgree(a.m, b.m);
    var run := IncoherentIsUnbacked(cfg, a, b);
    assert Over(run, universe);
  }

  /**
   * Over all runs, every measurement row is backed by a stored payload if and
   * only if messages that share a dedup key agree on the row they lead to.
   */
  lemma BackedExactlyWhenCoherent(cfg: Config, universe: iset<Message>)
    requires Deployed(cfg)
    ensures AlwaysBacked(cfg, universe) <==> KeyCoherent(Potential(cfg, universe))
  {
    if KeyCoherent(Potential(cfg, universe)) {
      CoherentIsAlwaysBacked(cfg, universe);
    } else {
      IncoherentIsNotAlwaysBacked(cfg, universe);
    }
  }
}
