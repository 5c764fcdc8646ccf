// At-least-once delivery of a set of welcome messages to one process with a
// healthy store: every count it ends with.
module Delivery {
  import opened Wrappers
  import opened Sets
  import opened Measurement
  import opened Validation
  import opened Storage
  import opened Protocol
  import opened ProtocolSafety
  import opened ProtocolInvariant
  import opened ProtocolWrites
  import opened TableProvenance
  import opened ProvenanceExact
  import opened Confluence

  /** Messages the service admits from a given clock reading on, and the store accepts. */
  ghost predicate Welcome(cfg: Config, u: set<Admission>, from: Instant)
  {
    forall a :: a in u ==> Genuine(cfg, a) && ChecksPass(RowOf(Normalize(a.m))) && InstantOf(cfg, a) <= from + cfg.validator.maxSkew
  }

  ghost predicate Sent(u: set<Admission>, msg: Message)
  {
    exists a :: a in u && a.msg == msg
  }

  /** No restart, no failing write, clocks that do not lag behind `from`, and nothing but these messages. */
  ghost predicate CalmLabel(u: set<Admission>, from: Instant, l: Label)
  {
    && !l.Restart?
    && (l.Deliver? ==> Sent(u, l.msg))
    && (l.Check? ==> from <= l.now)
    && (l.StoreRaw? ==> InCalendar(l.now) && l.fault == Healthy)
    && (l.StoreMeas? ==> l.fault == Healthy)
  }

  ghost predicate Calm(u: set<Admission>, from: Instant, run: seq<Label>)
  {
    forall l :: l in run ==> CalmLabel(u, from, l)
  }

  function Deliveries(run: seq<Label>): nat
  {
    if run == [] then 0
    else Deliveries(run[..|run| - 1]) + if run[|run| - 1].Deliver? then 1 else 0
  }

  // ---- the invariant of such runs ----

  ghost predicate GoingWell(u: set<Admission>, s: State, h: Handler)
  {
    && Sent(u, h.adm.msg)
    && !h.pc.Refused? && !h.pc.Rejected? && !h.pc.Faulted? && !h.pc.Errored?
    && (PastCheck(h.pc) ==> h.adm in u)
    && (h.pc.Repeated? || h.pc.Skipped? ==> KeyOf(h) in s.seen)
  }

  ghost predicate HeldBy(s: State, adm: Admission)
  {
    exists i :: 0 <= i < |s.handlers| && s.handlers[i].adm == adm && PastCheck(s.handlers[i].pc)
  }

  ghost predicate Carried(s: State, msg: Message)
  {
    exists i :: 0 <= i < |s.handlers| && s.handlers[i].adm.msg == msg
  }

  ghost predicate OnTrack(u: set<Admission>, s: State)
  {
    && s.sink.TableSink?
    && (forall i :: 0 <= i < |s.handlers| ==> GoingWell(u, s, s.handlers[i]))
    && (forall adm :: adm in s.ever ==> adm in u && HeldBy(s, adm))
  }

  lemma Decided(cfg: Config, u: set<Admission>, from: Instant, now: Instant, msg: Message) returns (a: Admission)
    requires Welcome(cfg, u, from) && from <= now && Sent(u, msg)
    ensures a in u && a.msg == msg && Decide(cfg, now, msg) == Some(a.m)
  {
    a :| a in u && a.msg == msg;
    ValidateAcceptsExactly(cfg.db.clock, cfg.validator, now, msg.payload, a.m);
  }

  lemma WriteSucceeds(cfg: Config, u: set<Admission>, from: Instant, s: State, adm: Admission, now: Instant)
    requires Deployed(cfg) && Welcome(cfg, u, from) && adm in u && s.sink.TableSink?
    ensures InCalendar(now) ==> TakesEffect(cfg, s.sink, RawWrite(RawRecordOf(cfg, adm, now)), Healthy)
    ensures TakesEffect(cfg, s.sink, MeasWrite(Normalize(adm.m)), Healthy)
  {
    if InCalendar(now) {
      assert cfg.db.clock.parse(cfg.db.clock.format(now)).Some?;
    }
  }

  /** One handler changes; everyone else keeps going well. */
  lemma HandlerMoves(u: set<Admission>, s: State, t: State, i: nat)
    requires OnTrack(u, s) && i < |s.handlers| == |t.handlers|
    requires t.handlers == s.handlers[i := t.handlers[i]] && t.sink.TableSink?
    requires s.seen <= t.seen && GoingWell(u, t, t.handlers[i])
    requires PastCheck(s.handlers[i].pc) ==> PastCheck(t.handlers[i].pc) && t.handlers[i].adm == s.handlers[i].adm
    requires t.ever == s.ever || (t.ever == s.ever + {t.handlers[i].adm} && PastCheck(t.handlers[i].pc))
    ensures OnTrack(u, t)
  {
    forall adm | adm in t.ever ensures adm in u && HeldBy(t, adm) {
      if adm in s.ever {
        var j :| 0 <= j < |s.handlers| && s.handlers[j].adm == adm && PastCheck(s.handlers[j].pc);
        assert t.handlers[j].adm == adm && PastCheck(t.handlers[j].pc);
      } else {
        assert t.handlers[i].adm == adm && PastCheck(t.handlers[i].pc);
      }
    }
  }

  lemma DeliverOnTrack(cfg: Config, u: set<Admission>, s: State, msg: Message)
    requires OnTrack(u, s) && Sent(u, msg)
    ensures OnTrack(u, Step(cfg, s, Deliver(msg)))
  {
    var t := Step(cfg, s, Deliver(msg));
    forall adm | adm in t.ever ensures adm in u && HeldBy(t, adm) {
      var j :| 0 <= j < |s.handlers| && s.handlers[j].adm == adm && PastCheck(s.handlers[j].pc);
      assert t.handlers[j] == s.handlers[j];
    }
    forall i | 0 <= i < |t.handlers| ensures GoingWell(u, t, t.handlers[i]) {
      assert i < |s.handlers| ==> GoingWell(u, s, s.handlers[i]);
    }
  }

  lemma CheckOnTrack(cfg: Config, u: set<Admission>, from: Instant, s: State, i: nat, now: Instant)
    requires Welcome(cfg, u, from) && OnTrack(u, s) && from <= now
    ensures OnTrack(u, Step(cfg, s, Check(i, now)))
  {
    if At(s, i, Arrived) {
      assert GoingWell(u, s, s.handlers[i]);
      var a := Decided(cfg, u, from, now, s.handlers[i].adm.msg);
      HandlerMoves(u, s, Step(cfg, s, Check(i, now)), i);
    }
  }

  lemma MoveOnTrack(u: set<Admission>, s: State, i: nat, pc: Pc, t: State)
    requires OnTrack(u, s) && i < |s.handlers| && PastCheck(s.handlers[i].pc)
    requires PastCheck(pc) && !pc.Faulted? && !pc.Errored?
    requires t.handlers == s.handlers[i := s.handlers[i].(pc := pc)] && t.ever == s.ever && t.sink.TableSink?
    requires s.seen <= t.seen && (pc.Repeated? || pc.Skipped? ==> KeyOf(s.handlers[i]) in t.seen)
    ensures OnTrack(u, t)
  {
    assert GoingWell(u, s, s.handlers[i]);
    HandlerMoves(u, s, t, i);
  }

  lemma StoreOnTrack(cfg: Config, u: set<Admission>, s: State, i: nat, w: Write, next: Pc)
    requires OnTrack(u, s) && i < |s.handlers| && PastCheck(s.handlers[i].pc)
    requires TakesEffect(cfg, s.sink, w, Healthy) && (next.RawStored? || next.BothStored?)
    ensures OnTrack(u, Store(cfg, s, i, w, Healthy, next))
  {
    MoveOnTrack(u, s, i, next, Store(cfg, s, i, w, Healthy, next));
  }

  lemma SettleOnTrack(cfg: Config, u: set<Admission>, s: State, i: nat)
    requires OnTrack(u, s)
    ensures OnTrack(u, Step(cfg, s, Settle(i)))
  {
    if i < |s.handlers| {
      var h := s.handlers[i];
      assert GoingWell(u, s, h);
      if h.pc.Repeated? {
        MoveOnTrack(u, s, i, Skipped, Settled(s, i));
      } else if h.pc.BothStored? {
        MoveOnTrack(u, s, i, Accepted, Settled(s, i));
      }
    }
  }

  lemma ClaimOnTrack(cfg: Config, u: set<Admission>, s: State, i: nat)
    requires OnTrack(u, s)
    ensures OnTrack(u, Step(cfg, s, Claim(i)))
  {
    if At(s, i, Admitted) {
      var t := Step(cfg, s, Claim(i));
      MoveOnTrack(u, s, i, t.handlers[i].pc, t);
    }
  }

  lemma StepOnTrack(cfg: Config, u: set<Admission>, from: Instant, s: State, l: Label)
    requires Deployed(cfg) && Welcome(cfg, u, from) && OnTrack(u, s) && CalmLabel(u, from, l)
    ensures OnTrack(u, Step(cfg, s, l))
  {
    match l {
      case Deliver(msg) => DeliverOnTrack(cfg, u, s, msg);
      case Check(i, now) => CheckOnTrack(cfg, u, from, s, i, now);
      case Claim(i) => ClaimOnTrack(cfg, u, s, i);
      case StoreRaw(i, now, fault) =>
        if At(s, i, Claimed) {
          assert GoingWell(u, s, s.handlers[i]);
          WriteSucceeds(cfg, u, from, s, s.handlers[i].adm, now);
          StoreOnTrack(cfg, u, s, i, RawWrite(RawRecordOf(cfg, s.handlers[i].adm, now)), RawStored);
        }
      case StoreMeas(i, fault) =>
        if At(s, i, RawStored) {
          assert GoingWell(u, s, s.handlers[i]);
          WriteSucceeds(cfg, u, from, s, s.handlers[i].adm, 0);
          StoreOnTrack(cfg, u, s, i, MeasWrite(Normalize(s.handlers[i].adm.m)), BothStored);
        }
      case Settle(i) => SettleOnTrack(cfg, u, s, i);
    }
  }

  lemma {:induction false} AlwaysOnTrack(cfg: Config, u: set<Admission>, from: Instant, run: seq<Label>)
    requires Deployed(cfg) && Welcome(cfg, u, from) && Calm(u, from, run)
    ensures OnTrack(u, Exec(cfg, Init(EMPTY_TABLES), run))
  {
    if run != [] {
      var before := run[..|run| - 1];
      AlwaysOnTrack(cfg, u, from, before);
      StepOnTrack(cfg, u, from, Exec(cfg, Init(EMPTY_TABLES), before), run[|run| - 1]);
    }
  }

  // ---- deliveries and handlers ----

  lemma CarriedStays(cfg: Config, s: State, l: Label, msg: Message)
    requires !l.Restart? && (Carried(s, msg) || l == Deliver(msg))
    ensures Carried(Step(cfg, s, l), msg)
  {
    var t := Step(cfg, s, l);
    if l == Deliver(msg) {
      assert t.handlers[|s.handlers|].adm.msg == msg;
    } else {
      var i :| 0 <= i < |s.handlers| && s.handlers[i].adm.msg == msg;
      assert i < |t.handlers| && t.handlers[i].adm.msg == msg;
    }
  }

  /** Without a restart every delivered message has a handler. */
  lemma {:induction false} DeliveredIsCarried(cfg: Config, run: seq<Label>, msg: Message)
    requires (forall l :: l in run ==> !l.Restart?) && Deliver(msg) in run
    ensures Carried(Exec(cfg, Init(EMPTY_TABLES), run), msg)
  {
    hide Step, Carried;
    var before, l := run[..|run| - 1], run[|run| - 1];
    assert run == before + [l];
    if l != Deliver(msg) {
      DeliveredIsCarried(cfg, before, msg);
    }
    CarriedStays(cfg, Exec(cfg, Init(EMPTY_TABLES), before), l, msg);
  }

  lemma ReceivedStep(cfg: Config, s: State, l: Label)
    requires !l.Restart?
    ensures Step(cfg, s, l).counters.received == s.counters.received + if l.Deliver? then 1 else 0
  {
  }

  lemma {:induction false} ReceivedIsDelivered(cfg: Config, run: seq<Label>)
    requires forall l :: l in run ==> !l.Restart?
    ensures Exec(cfg, Init(EMPTY_TABLES), run).counters.received == Deliveries(run)
  {
    hide Step;
    if run != [] {
      var before, l := run[..|run| - 1], run[|run| - 1];
      ReceivedIsDelivered(cfg, before);
      ReceivedStep(cfg, Exec(cfg, Init(EMPTY_TABLES), before), l);
    }
  }

  // ---- the counts ----

  /** Every message was delivered at least once and every handler has returned. */
  ghost predicate Drained(u: set<Admission>, run: seq<Label>, s: State)
  {
    && (forall a :: a in u ==> Deliver(a.msg) in run)
    && (forall i :: 0 <= i < |s.handlers| ==>
          s.handlers[i].pc.Rejected? || s.handlers[i].pc.Skipped? || s.handlers[i].pc.Accepted? || s.handlers[i].pc.Errored?)
  }

  lemma DrainedIsCaughtUp(cfg: Config, u: set<Admission>, s: State)
    requires OnTrack(u, s) && s in Safe(cfg)
    requires forall a :: a in u ==> Genuine(cfg, a) && Carried(s, a.msg)
    requires forall i :: 0 <= i < |s.handlers| ==>
               s.handlers[i].pc.Rejected? || s.handlers[i].pc.Skipped? || s.handlers[i].pc.Accepted? || s.handlers[i].pc.Errored?
    ensures Quiescent(s) && s.ever == u && CaughtUp(s)
  {
    forall i | 0 <= i < |s.handlers|
      ensures (s.handlers[i].pc.Skipped? || s.handlers[i].pc.Accepted?) && KeyOf(s.handlers[i]) in s.seen
      ensures s.handlers[i].adm in u && s.handlers[i].adm in s.ever
    {
      assert GoingWell(u, s, s.handlers[i]) && ClaimsHold(s.handlers, s.seen) && AdmissionHolds(s.handlers, s.ever);
    }
    forall a | a in u ensures a in s.ever {
      var i :| 0 <= i < |s.handlers| && s.handlers[i].adm.msg == a.msg;
      assert s.handlers[i].adm == a;
    }
    forall adm | adm in s.ever ensures DedupKey(adm.m) in s.seen {
      assert HeldBy(s, adm);
    }
  }

  lemma SeenAreKeys(cfg: Config, u: set<Admission>, s: State)
    requires OnTrack(u, s) && s in Safe(cfg) && s.ever == u && CaughtUp(s)
    ensures s.seen == KeysOf(u)
  {
    var keyOf := (a: Admission) => DedupKey(a.m);
    forall k | k in s.seen ensures k in KeysOf(u) {
      assert ClaimsHold(s.handlers, s.seen) && HasClaimant(s.handlers, k);
      var i :| 0 <= i < |s.handlers| && Claims(s.handlers[i]) && KeyOf(s.handlers[i]) == k;
      assert GoingWell(u, s, s.handlers[i]);
      assert keyOf(s.handlers[i].adm) == k;
    }
    forall a | a in u ensures keyOf(a) in s.seen {
    }
  }

  lemma {:induction false} NoneCounted(hs: seq<Handler>, p: Pc -> bool)
    requires forall i :: 0 <= i < |hs| ==> !p(hs[i].pc)
    ensures Count(hs, p) == 0
  {
    if hs != [] {
      NoneCounted(hs[..|hs| - 1], p);
    }
  }

  /** Different messages have different keys and different measurement keys. */
  ghost predicate AllDifferent(cfg: Config, u: set<Admission>)
  {
    InjectiveOn(u, (a: Admission) => DedupKey(a.m)) && OneSpelling(cfg, u)
  }

  lemma DifferentKeysDifferentPayloads(cfg: Config, u: set<Admission>)
    requires AllDifferent(cfg, u)
    ensures PayloadPerKey(u)
  {
    var keyOf := (a: Admission) => DedupKey(a.m);
    forall a, b | a in u && b in u && DedupKey(a.m) == DedupKey(b.m) ensures a == b {
      assert keyOf(a) == keyOf(b);
    }
  }

  /** The dedup keys and the measurement keys of the messages. */
  function KeysOf(u: set<Admission>): set<string>
  {
    Image(u, (a: Admission) => DedupKey(a.m))
  }

  function MeasKeysOf(cfg: Config, u: set<Admission>): set<(string, Instant)>
  {
    Image(u, (a: Admission) => MeasKey(cfg, a))
  }

  lemma MessageHasRows(cfg: Config, u: set<Admission>, run: seq<Label>, a: Admission)
    requires PlainIds(cfg) && a in u && (forall b :: b in u ==> Genuine(cfg, b))
    requires var s := Exec(cfg, Init(EMPTY_TABLES), run);
             OnTrack(u, s) && Quiescent(s) && DedupKey(a.m) in s.seen
    ensures var t := TablesOf(Exec(cfg, Init(EMPTY_TABLES), run));
            DedupKey(a.m) in t.raw && MeasKey(cfg, a) in t.meas
  {
    hide Exec, PlainIds;
    var s := Exec(cfg, Init(EMPTY_TABLES), run);
    var i := SeenKeyIsAccounted(cfg, run, DedupKey(a.m));
    assert GoingWell(u, s, s.handlers[i]);
    SameKeySameSource(cfg, s.handlers[i].adm, a);
  }

  lemma RowsHaveMessages(cfg: Config, run: seq<Label>)
    ensures var s := Exec(cfg, Init(EMPTY_TABLES), run);
            TablesOf(s).raw.Keys <= KeysOf(s.ever) && TablesOf(s).meas.Keys <= MeasKeysOf(cfg, s.ever)
  {
    hide Exec, Reached, Faithful;
    ReachedAfter(cfg, run);
    var s := Exec(cfg, Init(EMPTY_TABLES), run);
    var keyOf, measKey := (a: Admission) => DedupKey(a.m), (a: Admission) => MeasKey(cfg, a);
    forall k | k in TablesOf(s).raw.Keys ensures k in KeysOf(s.ever) {
      var adm := CapturedIsFaithful(cfg, s, k);
      assert keyOf(adm) == k;
    }
    forall key | key in TablesOf(s).meas.Keys ensures key in MeasKeysOf(cfg, s.ever) {
      var adm, _ := MeasurementSource(cfg, s, key);
      assert measKey(adm) == key;
    }
  }

  /**
   * Any at-least-once delivery, in any order and interleaving: nothing is
   * rejected or lost, each key is accepted once, the duplicates are the other
   * deliveries, and each table holds one row for each of its keys.
   */
  lemma AtLeastOnceKeys(cfg: Config, u: set<Admission>, from: Instant, run: seq<Label>)
    requires Deployed(cfg) && Welcome(cfg, u, from)
    requires Calm(u, from, run) && Drained(u, run, Exec(cfg, Init(EMPTY_TABLES), run))
    ensures var s := Exec(cfg, Init(EMPTY_TABLES), run);
            && s.counters.received == Deliveries(run)
            && s.counters.accepted == |KeysOf(u)| && s.counters.duplicates == Deliveries(run) - |KeysOf(u)|
            && s.counters.rejected == 0 && s.counters.storeErrors == 0
            && TablesOf(s).raw.Keys == KeysOf(u) && TablesOf(s).meas.Keys == MeasKeysOf(cfg, u)
            && s.ever == u && Quiescent(s) && CaughtUp(s)
  {
    hide Exec, OnTrack, Quiescent, CaughtUp, KeysOf, MeasKeysOf, Deployed, Welcome, Calm, Drained;
    assert forall l :: l in run ==> !l.Restart? by { CalmHasNoRestart(u, from, run); }
    ReceivedIsDelivered(cfg, run);
    DrainedRun(cfg, u, from, run);
    NothingWrong(cfg, u, run);
    DrainedTables(cfg, u, from, run);
  }

  lemma CalmHasNoRestart(u: set<Admission>, from: Instant, run: seq<Label>)
    requires Calm(u, from, run)
    ensures forall l :: l in run ==> !l.Restart?
  {
  }

  lemma DrainedRun(cfg: Config, u: set<Admission>, from: Instant, run: seq<Label>)
    requires Deployed(cfg) && Welcome(cfg, u, from)
    requires Calm(u, from, run) && Drained(u, run, Exec(cfg, Init(EMPTY_TABLES), run))
    ensures var s := Exec(cfg, Init(EMPTY_TABLES), run);
            OnTrack(u, s) && Quiescent(s) && s.ever == u && CaughtUp(s) && s.seen == KeysOf(u)
  {
    var s := Exec(cfg, Init(EMPTY_TABLES), run);
    AlwaysOnTrack(cfg, u, from, run);
    AlwaysSafe(cfg, EMPTY_TABLES, run);
    hide Exec, Safe, Step, PlainIds, OnTrack, KeysOf, Quiescent, CaughtUp;
    forall a | a in u ensures Carried(s, a.msg) {
      DeliveredIsCarried(cfg, run, a.msg);
    }
    DrainedIsCaughtUp(cfg, u, s);
    SeenAreKeys(cfg, u, s);
  }

  lemma DrainedTables(cfg: Config, u: set<Admission>, from: Instant, run: seq<Label>)
    requires Deployed(cfg) && Welcome(cfg, u, from)
    requires var s := Exec(cfg, Init(EMPTY_TABLES), run);
             OnTrack(u, s) && Quiescent(s) && s.ever == u && s.seen == KeysOf(u)
    ensures var t := TablesOf(Exec(cfg, Init(EMPTY_TABLES), run));
            t.raw.Keys == KeysOf(u) && t.meas.Keys == MeasKeysOf(cfg, u)
  {
    assert PlainIds(cfg) && forall b :: b in u ==> Genuine(cfg, b);
    hide *;
    var s := Exec(cfg, Init(EMPTY_TABLES), run);
    RowsHaveMessages(cfg, run);
    forall a | a in u ensures DedupKey(a.m) in TablesOf(s).raw && MeasKey(cfg, a) in TablesOf(s).meas {
      KeyOfMember(u, a);
      MessageHasRows(cfg, u, run, a);
    }
    KeysMeet(cfg, u, TablesOf(s));
  }

  lemma KeysMeet(cfg: Config, u: set<Admission>, t: Tables)
    requires t.raw.Keys <= KeysOf(u) && t.meas.Keys <= MeasKeysOf(cfg, u)
    requires forall a :: a in u ==> DedupKey(a.m) in t.raw && MeasKey(cfg, a) in t.meas
    ensures t.raw.Keys == KeysOf(u) && t.meas.Keys == MeasKeysOf(cfg, u)
  {
    hide DedupKey, MeasKey;
  }

  lemma KeyOfMember(u: set<Admission>, a: Admission)
    requires a in u
    ensures DedupKey(a.m) in KeysOf(u)
  {
    var keyOf := (a: Admission) => DedupKey(a.m);
    assert keyOf(a) in Image(u, keyOf);
  }

  /** When all the messages are different, every one of them is accepted and stored once. */
  lemma AtLeastOnceCounts(cfg: Config, u: set<Admission>, from: Instant, run: seq<Label>)
    requires Deployed(cfg) && Welcome(cfg, u, from) && AllDifferent(cfg, u)
    requires Calm(u, from, run) && Drained(u, run, Exec(cfg, Init(EMPTY_TABLES), run))
    ensures var s := Exec(cfg, Init(EMPTY_TABLES), run);
            && s.counters.received == Deliveries(run)
            && s.counters.accepted == |u| && s.counters.duplicates == Deliveries(run) - |u|
            && s.counters.rejected == 0 && s.counters.storeErrors == 0
            && |TablesOf(s).raw| == |u| && |TablesOf(s).meas| == |u|
            && Exact(cfg, u, TablesOf(s))
  {
    hide Exec, Deployed, Exact;
    AtLeastOnceKeys(cfg, u, from, run);
    DifferentKeysDifferentPayloads(cfg, u);
    CaughtUpIsExact(cfg, run);
    CaughtUpCounts(cfg, run);
    ImageSize(u, (a: Admission) => DedupKey(a.m));
  }

  lemma NothingWrong(cfg: Config, u: set<Admission>, run: seq<Label>)
    requires var s := Exec(cfg, Init(EMPTY_TABLES), run); OnTrack(u, s) && Quiescent(s)
    ensures var s := Exec(cfg, Init(EMPTY_TABLES), run);
            && s.counters.rejected == 0 && s.counters.storeErrors == 0
            && s.counters.accepted == |s.seen| && s.counters.received == s.counters.duplicates + |s.seen|
  {
    var s := Exec(cfg, Init(EMPTY_TABLES), run);
    CounterConservation(cfg, EMPTY_TABLES, run);
    CountersAlways(cfg, EMPTY_TABLES, run);
    forall i | 0 <= i < |s.handlers| ensures s.handlers[i].pc.Skipped? || s.handlers[i].pc.Accepted? {
      assert GoingWell(u, s, s.handlers[i]);
    }
    NoneCounted(s.handlers, IsRejected);
    NoneCounted(s.handlers, IsErrored);
    NoneCounted(s.handlers, InFlightPastClaim);
    NoneCounted(s.handlers, BeforeClaim);
  }
}
