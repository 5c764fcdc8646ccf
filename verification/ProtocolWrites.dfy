// What the store receives, in every interleaving: each key is claimed by one
// handler, written at most once of each kind per process, and every normalized
// measurement follows the raw record it came from.
module ProtocolWrites {
  import opened Measurement
  import opened Validation
  import opened Storage
  import opened Protocol
  import opened ProtocolSafety
  import opened ProtocolInvariant

  // ---- admission ----

  lemma DecidedIsGenuine(cfg: Config, now: Instant, msg: Message)
    requires Decide(cfg, now, msg).Some?
    ensures Genuine(cfg, Admission(msg, Decide(cfg, now, msg).value))
  {
    ValidateAcceptsExactly(cfg.db.clock, cfg.validator, now, msg.payload, Decide(cfg, now, msg).value);
  }

  /** Whatever any process has admitted is genuine. */
  lemma {:induction false} EverGenuine(cfg: Config, sink: Sink, run: seq<Label>)
    ensures forall adm :: adm in Exec(cfg, Init(sink), run).ever ==> Genuine(cfg, adm)
  {
    if run != [] {
      var s, l := Exec(cfg, Init(sink), run[..|run| - 1]), run[|run| - 1];
      EverGenuine(cfg, sink, run[..|run| - 1]);
      if l.Check? && At(s, l.i, Arrived) && Decide(cfg, l.now, s.handlers[l.i].adm.msg).Some? {
        DecidedIsGenuine(cfg, l.now, s.handlers[l.i].adm.msg);
      }
      EverStep(cfg, s, l);
    }
  }

  /** Only a successful check adds to what has been admitted. */
  lemma EverStep(cfg: Config, s: State, l: Label)
    ensures Step(cfg, s, l).ever ==
            if l.Check? && At(s, l.i, Arrived) && Decide(cfg, l.now, s.handlers[l.i].adm.msg).Some?
            then s.ever + {Admission(s.handlers[l.i].adm.msg, Decide(cfg, l.now, s.handlers[l.i].adm.msg).value)}
            else s.ever
  {
  }

  // ---- moving one handler ----

  function Moved(hs: seq<Handler>, i: nat, pc: Pc): seq<Handler>
    requires i < |hs|
  {
    hs[i := hs[i].(pc := pc)]
  }

  lemma ClaimsMove(hs: seq<Handler>, seen: set<string>, i: nat, pc: Pc)
    requires ClaimsHold(hs, seen) && i < |hs| && Claims(hs[i]) == PastClaim(pc)
    ensures ClaimsHold(Moved(hs, i, pc), seen)
  {
    var hs' := Moved(hs, i, pc);
    forall k | k in seen ensures HasClaimant(hs', k) {
      var j :| 0 <= j < |hs| && Claims(hs[j]) && KeyOf(hs[j]) == k;
      assert Claims(hs'[j]) && KeyOf(hs'[j]) == KeyOf(hs[j]);
    }
  }

  lemma ClaimsTake(hs: seq<Handler>, seen: set<string>, i: nat)
    requires ClaimsHold(hs, seen) && i < |hs| && !Claims(hs[i]) && KeyOf(hs[i]) !in seen
    ensures ClaimsHold(Moved(hs, i, Claimed), seen + {KeyOf(hs[i])})
  {
    var hs', seen' := Moved(hs, i, Claimed), seen + {KeyOf(hs[i])};
    assert Claims(hs'[i]);
    forall k | k in seen' ensures HasClaimant(hs', k) {
      if k in seen {
        var j :| 0 <= j < |hs| && Claims(hs[j]) && KeyOf(hs[j]) == k;
        assert Claims(hs'[j]) && KeyOf(hs'[j]) == KeyOf(hs[j]);
      } else {
        assert KeyOf(hs'[i]) == k;
      }
    }
  }

  lemma ClaimsAdmit(hs: seq<Handler>, seen: set<string>, i: nat, adm: Admission)
    requires ClaimsHold(hs, seen) && i < |hs| && !Claims(hs[i])
    ensures ClaimsHold(hs[i := Handler(adm, Admitted)], seen)
  {
    var hs' := hs[i := Handler(adm, Admitted)];
    forall k | k in seen ensures HasClaimant(hs', k) {
      var j :| 0 <= j < |hs| && Claims(hs[j]) && KeyOf(hs[j]) == k;
      assert hs'[j] == hs[j];
    }
  }

  lemma ClaimsArrive(hs: seq<Handler>, seen: set<string>, msg: Message)
    requires ClaimsHold(hs, seen)
    ensures ClaimsHold(hs + [Fresh(msg)], seen)
  {
    var hs' := hs + [Fresh(msg)];
    forall k | k in seen ensures HasClaimant(hs', k) {
      var j :| 0 <= j < |hs| && Claims(hs[j]) && KeyOf(hs[j]) == k;
      assert hs'[j] == hs[j];
    }
  }

  /** Progress a handler may make without having written anything new. */
  predicate Quiet(was: Pc, pc: Pc)
  {
    || (!PastClaim(was) && !PastClaim(pc))
    || (PastClaim(was) && (pc.Faulted? || pc.Errored?))
    || (was == BothStored && pc == Accepted)
  }

  lemma WritesMove(cfg: Config, hs: seq<Handler>, seen: set<string>, ws: seq<Write>, i: nat, pc: Pc)
    requires WritesHold(cfg, hs, seen, ws) && i < |hs| && Quiet(hs[i].pc, pc)
    ensures WritesHold(cfg, Moved(hs, i, pc), seen, ws)
  {
    var hs' := Moved(hs, i, pc);
    forall j | 0 <= j < |hs'| ensures Delivered(cfg, hs'[j], ws) {
      assert Delivered(cfg, hs[j], ws);
    }
  }

  lemma WritesTake(cfg: Config, hs: seq<Handler>, seen: set<string>, ws: seq<Write>, i: nat)
    requires WritesHold(cfg, hs, seen, ws) && i < |hs| && KeyOf(hs[i]) !in seen
    ensures WritesHold(cfg, Moved(hs, i, Claimed), seen + {KeyOf(hs[i])}, ws)
  {
    var hs' := Moved(hs, i, Claimed);
    forall j | 0 <= j < |hs'| ensures Delivered(cfg, hs'[j], ws) {
      assert Delivered(cfg, hs[j], ws);
    }
    forall a, b | 0 <= a < |hs'| && 0 <= b < |ws| && Claims(hs'[a]) && WriteKey(ws[b]) == KeyOf(hs'[a])
      ensures MayHave(hs'[a].pc, ws[b])
    {
      assert WriteKey(ws[b]) in seen;
      assert a != i;
    }
  }

  lemma WritesAdmit(cfg: Config, hs: seq<Handler>, seen: set<string>, ws: seq<Write>, i: nat, adm: Admission)
    requires WritesHold(cfg, hs, seen, ws) && i < |hs| && !Claims(hs[i])
    ensures WritesHold(cfg, hs[i := Handler(adm, Admitted)], seen, ws)
  {
    var hs' := hs[i := Handler(adm, Admitted)];
    forall j | 0 <= j < |hs'| ensures Delivered(cfg, hs'[j], ws) {
      assert Delivered(cfg, hs[j], ws);
    }
  }

  lemma WritesArrive(cfg: Config, hs: seq<Handler>, seen: set<string>, ws: seq<Write>, msg: Message)
    requires WritesHold(cfg, hs, seen, ws)
    ensures WritesHold(cfg, hs + [Fresh(msg)], seen, ws)
  {
    var hs' := hs + [Fresh(msg)];
    forall j | 0 <= j < |hs'| ensures Delivered(cfg, hs'[j], ws) {
      if j < |hs| {
        assert Delivered(cfg, hs[j], ws);
      }
    }
  }

  // ---- the owner of a key adds its next write ----

  /** The write a claimed handler makes next, and where it stands afterwards. */
  ghost predicate NextWrite(cfg: Config, h: Handler, w: Write, pc: Pc)
  {
    || (h.pc == Claimed && w.RawWrite? && Captures(cfg, h.adm, w.rec) && (pc.RawStored? || pc.Faulted?))
    || (h.pc == RawStored && w == MeasWrite(Normalize(h.adm.m)) && (pc.BothStored? || pc.Faulted?))
  }

  lemma NextWriteKey(cfg: Config, h: Handler, w: Write, pc: Pc)
    requires NextWrite(cfg, h, w, pc)
    ensures WriteKey(w) == KeyOf(h) && Claims(h) && PastClaim(pc)
  {
  }

  lemma NoClash(cfg: Config, hs: seq<Handler>, seen: set<string>, ws: seq<Write>, i: nat, w: Write, pc: Pc)
    requires WritesHold(cfg, hs, seen, ws) && i < |hs| && NextWrite(cfg, hs[i], w, pc)
    ensures AtMostOnce(ws + [w])
  {
    NextWriteKey(cfg, hs[i], w, pc);
    forall a | 0 <= a < |ws| ensures !Clash(ws[a], w) {
      if WriteKey(ws[a]) == WriteKey(w) {
        assert MayHave(hs[i].pc, ws[a]);
      }
    }
  }

  lemma DeliveredGrows(cfg: Config, h: Handler, ws: seq<Write>, w: Write)
    requires Delivered(cfg, h, ws)
    ensures Delivered(cfg, h, ws + [w])
  {
    if HasRaw(cfg, ws, h.adm) {
      var k :| 0 <= k < |ws| && ws[k].RawWrite? && Captures(cfg, h.adm, ws[k].rec);
      assert (ws + [w])[k] == ws[k];
    }
  }

  lemma WritesAppend(cfg: Config, hs: seq<Handler>, seen: set<string>, ws: seq<Write>, i: nat, w: Write, pc: Pc)
    requires ClaimsHold(hs, seen) && WritesHold(cfg, hs, seen, ws) && i < |hs| && NextWrite(cfg, hs[i], w, pc)
    ensures WritesHold(cfg, Moved(hs, i, pc), seen, ws + [w])
  {
    var hs', ws' := Moved(hs, i, pc), ws + [w];
    NextWriteKey(cfg, hs[i], w, pc);
    NoClash(cfg, hs, seen, ws, i, w, pc);
    forall j | 0 <= j < |hs'| ensures Delivered(cfg, hs'[j], ws') {
      assert Delivered(cfg, hs[j], ws);
      DeliveredGrows(cfg, hs[j], ws, w);
      if j == i {
        assert ws'[|ws|] == w;
      }
    }
    forall a, b | 0 <= a < |hs'| && 0 <= b < |ws'| && Claims(hs'[a]) && WriteKey(ws'[b]) == KeyOf(hs'[a])
      ensures MayHave(hs'[a].pc, ws'[b])
    {
      assert Claims(hs[a]) && KeyOf(hs[a]) == KeyOf(hs'[a]);
      if b < |ws| {
        assert MayHave(hs[a].pc, ws[b]);
      } else {
        assert a == i;
      }
    }
  }

  lemma ProvenanceAppend(cfg: Config, ever: set<Admission>, ws: seq<Write>, h: Handler, w: Write, pc: Pc)
    requires Provenance(cfg, ever, ws) && h.adm in ever
    requires NextWrite(cfg, h, w, pc) && Delivered(cfg, h, ws)
    ensures Provenance(cfg, ever, ws + [w])
  {
    var ws' := ws + [w];
    forall j | 0 <= j < |ws'|
      ensures Sourced(cfg, ever, ws', j)
    {
      if j < |ws| {
        assert ws'[j] == ws[j] && Sourced(cfg, ever, ws, j);
        BackedLonger(cfg, ever, ws, [w], j);
      } else if w.MeasWrite? {
        var k :| 0 <= k < |ws| && ws[k].RawWrite? && Captures(cfg, h.adm, ws[k].rec);
        assert ws'[k] == ws[k] && Backs(cfg, ever, ws'[k], w.m);
      }
    }
  }

  lemma BackedLonger(cfg: Config, ever: set<Admission>, ws: seq<Write>, more: seq<Write>, j: nat)
    requires j < |ws|
    ensures forall m :: BackedBefore(cfg, ever, ws, j, m) ==> BackedBefore(cfg, ever, ws + more, j, m)
  {
    forall m | BackedBefore(cfg, ever, ws, j, m) ensures BackedBefore(cfg, ever, ws + more, j, m) {
      var k :| 0 <= k < j && Backs(cfg, ever, ws[k], m);
      assert (ws + more)[k] == ws[k];
    }
  }

  lemma ProvenanceConcat(cfg: Config, ever: set<Admission>, a: seq<Write>, b: seq<Write>)
    requires Provenance(cfg, ever, a) && Provenance(cfg, ever, b)
    ensures Provenance(cfg, ever, a + b)
  {
    var ws := a + b;
    forall j | 0 <= j < |ws|
      ensures Sourced(cfg, ever, ws, j)
    {
      if j < |a| {
        assert ws[j] == a[j] && Sourced(cfg, ever, a, j);
        BackedLonger(cfg, ever, a, b, j);
      } else {
        assert ws[j] == b[j - |a|] && Sourced(cfg, ever, b, j - |a|);
        if b[j - |a|].MeasWrite? {
          var k :| 0 <= k < j - |a| && Backs(cfg, ever, b[k], b[j - |a|].m);
          assert ws[|a| + k] == b[k];
        }
      }
    }
  }

  lemma ProvenanceGrows(cfg: Config, a: set<Admission>, b: set<Admission>, ws: seq<Write>)
    requires a <= b && Provenance(cfg, a, ws)
    ensures Provenance(cfg, b, ws)
  {
    forall j | 0 <= j < |ws|
      ensures Sourced(cfg, b, ws, j)
    {
      assert Sourced(cfg, a, ws, j);
      match ws[j] {
        case RawWrite(rec) =>
          var adm :| adm in a && Captures(cfg, adm, rec);
          assert adm in b;
        case MeasWrite(m) =>
          var i :| 0 <= i < j && Backs(cfg, a, ws[i], m);
          var adm :| adm in a && Captures(cfg, adm, ws[i].rec) && m == Normalize(adm.m);
          assert adm in b;
          assert Backs(cfg, b, ws[i], m);
      }
    }
  }

  lemma TablesAppend(db: Database, t: Tables, journal: seq<Write>, w: Write)
    requires TablesFollow(db, t, journal) && Insert(db, t, w).Ok?
    ensures TablesFollow(db, Attempt(db, t, w), journal + [w])
  {
    AllStoredAppend(db, EMPTY, journal, w);
  }

  // ---- preservation, label by label ----

  lemma MoveSafe(cfg: Config, s: State, i: nat, pc: Pc)
    requires s in Safe(cfg) && i < |s.handlers| && Quiet(s.handlers[i].pc, pc)
    requires PastCheck(pc) ==> PastCheck(s.handlers[i].pc)
    ensures Move(s, i, pc) in Safe(cfg)
  {
    assert Move(s, i, pc).handlers == Moved(s.handlers, i, pc);
    ClaimsMove(s.handlers, s.seen, i, pc);
    WritesMove(cfg, s.handlers, s.seen, s.mine, i, pc);
  }

  lemma AdmitSafe(cfg: Config, s: State, i: nat, adm: Admission)
    requires s in Safe(cfg) && At(s, i, Arrived)
    ensures Admit(s, i, adm) in Safe(cfg)
  {
    ProvenanceGrows(cfg, s.ever, s.ever + {adm}, s.past);
    ProvenanceGrows(cfg, s.ever, s.ever + {adm}, s.mine);
    ClaimsAdmit(s.handlers, s.seen, i, adm);
    WritesAdmit(cfg, s.handlers, s.seen, s.mine, i, adm);
  }

  lemma CheckSafe(cfg: Config, s: State, i: nat, now: Instant)
    requires s in Safe(cfg)
    ensures Step(cfg, s, Check(i, now)) in Safe(cfg)
  {
    hide Safe, Decide;
    var t := Step(cfg, s, Check(i, now));
    if t != s {
      var m := Decide(cfg, now, s.handlers[i].adm.msg);
      if m.None? {
        MoveSafe(cfg, s, i, Refused);
      } else {
        AdmitSafe(cfg, s, i, Admission(s.handlers[i].adm.msg, m.value));
      }
    }
  }

  /** A claim fails, is lost to an earlier one, or takes the key. */
  lemma ClaimShape(cfg: Config, s: State, i: nat)
    ensures var t := Step(cfg, s, Claim(i));
            || t == s
            || (At(s, i, Admitted) && t == Move(s, i, Repeated))
            || (At(s, i, Admitted) && KeyOf(s.handlers[i]) !in s.seen
                && t == Move(s, i, Claimed).(seen := s.seen + {KeyOf(s.handlers[i])}))
  {
  }

  lemma ClaimSafe(cfg: Config, s: State, i: nat)
    requires s in Safe(cfg)
    ensures Step(cfg, s, Claim(i)) in Safe(cfg)
  {
    var t := Step(cfg, s, Claim(i));
    ClaimShape(cfg, s, i);
    if t != s {
      if t == Move(s, i, Repeated) {
        MoveSafe(cfg, s, i, Repeated);
      } else {
        TakeSafe(cfg, s, i);
      }
    }
  }

  lemma TakeSafe(cfg: Config, s: State, i: nat)
    requires s in Safe(cfg) && At(s, i, Admitted) && KeyOf(s.handlers[i]) !in s.seen
    ensures Move(s, i, Claimed).(seen := s.seen + {KeyOf(s.handlers[i])}) in Safe(cfg)
  {
    ClaimsTake(s.handlers, s.seen, i);
    WritesTake(cfg, s.handlers, s.seen, s.mine, i);
  }

  /** Settling moves one handler and one counter, or does nothing. */
  lemma SettleShape(cfg: Config, s: State, i: nat) returns (pc: Pc, c: Counters)
    ensures Step(cfg, s, Settle(i)) == s ||
            (i < |s.handlers| && Quiet(s.handlers[i].pc, pc) && (PastCheck(pc) ==> PastCheck(s.handlers[i].pc))
             && Step(cfg, s, Settle(i)) == Move(s, i, pc).(counters := c))
  {
    var t := Step(cfg, s, Settle(i));
    pc := if i < |s.handlers| then t.handlers[i].pc else Arrived;
    c := t.counters;
  }

  lemma SettleSafe(cfg: Config, s: State, i: nat)
    requires s in Safe(cfg)
    ensures Step(cfg, s, Settle(i)) in Safe(cfg)
  {
    var pc, c := SettleShape(cfg, s, i);
    var t := Step(cfg, s, Settle(i));
    if t != s {
      MoveSafe(cfg, s, i, pc);
      SafeIgnoresCounters(cfg, Move(s, i, pc), c);
    }
  }

  lemma SafeIgnoresCounters(cfg: Config, s: State, c: Counters)
    requires s in Safe(cfg)
    ensures s.(counters := c) in Safe(cfg)
  {
  }

  lemma AppendProcess(cfg: Config, s: State, i: nat, w: Write, pc: Pc)
    requires ProcessHolds(cfg, s) && i < |s.handlers| && NextWrite(cfg, s.handlers[i], w, pc)
    ensures ProcessHolds(cfg, Move(s, i, pc).(mine := s.mine + [w]))
  {
    var h := s.handlers[i];
    NextWriteKey(cfg, h, w, pc);
    ClaimsMove(s.handlers, s.seen, i, pc);
    WritesAppend(cfg, s.handlers, s.seen, s.mine, i, w, pc);
    assert Delivered(cfg, h, s.mine);
    ProvenanceAppend(cfg, s.ever, s.mine, h, w, pc);
  }

  lemma AppendSafe(cfg: Config, s: State, i: nat, w: Write, fault: Fault, pc: Pc)
    requires s in Safe(cfg) && i < |s.handlers| && NextWrite(cfg, s.handlers[i], w, pc)
    requires TakesEffect(cfg, s.sink, w, fault)
    ensures Move(s, i, pc).(sink := Written(cfg, s.sink, w), mine := s.mine + [w]) in Safe(cfg)
  {
    AppendProcess(cfg, s, i, w, pc);
    assert s.past + (s.mine + [w]) == Journal(s) + [w];
    if s.sink.TableSink? {
      TablesAppend(cfg.db, s.sink.tables, Journal(s), w);
    }
  }

  lemma StoreSafe(cfg: Config, s: State, i: nat, w: Write, fault: Fault, next: Pc)
    requires s in Safe(cfg) && i < |s.handlers| && next != Faulted && NextWrite(cfg, s.handlers[i], w, next)
    ensures Store(cfg, s, i, w, fault, next) in Safe(cfg)
  {
    if TakesEffect(cfg, s.sink, w, fault) {
      AppendSafe(cfg, s, i, w, fault, if fault == LostAfter then Faulted else next);
    } else {
      NextWriteKey(cfg, s.handlers[i], w, next);
      MoveSafe(cfg, s, i, Faulted);
    }
  }

  lemma DeliverSafe(cfg: Config, s: State, msg: Message)
    requires s in Safe(cfg)
    ensures Step(cfg, s, Deliver(msg)) in Safe(cfg)
  {
    ClaimsArrive(s.handlers, s.seen, msg);
    WritesArrive(cfg, s.handlers, s.seen, s.mine, msg);
  }

  lemma EmptyProcess(cfg: Config, past: seq<Write>, ever: set<Admission>)
    requires Provenance(cfg, ever, past)
    ensures forall sink :: ProcessHolds(cfg, State.State([], {}, ZERO_COUNTERS, sink, past, [], ever))
  {
  }

  lemma RestartSafe(cfg: Config, s: State)
    requires s in Safe(cfg)
    ensures Step(cfg, s, Restart) in Safe(cfg)
  {
    ProvenanceConcat(cfg, s.ever, s.past, s.mine);
    EmptyProcess(cfg, s.past + s.mine, s.ever);
    var t := Step(cfg, s, Restart);
    assert Journal(t) == Journal(s);
    assert t == State.State([], {}, ZERO_COUNTERS, s.sink, s.past + s.mine, [], s.ever);
  }

  lemma StoreRawSafe(cfg: Config, s: State, i: nat, now: Instant, fault: Fault)
    requires s in Safe(cfg)
    ensures Step(cfg, s, StoreRaw(i, now, fault)) in Safe(cfg)
  {
    var t := Step(cfg, s, StoreRaw(i, now, fault));
    if t != s {
      var rec := RawRecordOf(cfg, s.handlers[i].adm, now);
      assert Captures(cfg, s.handlers[i].adm, rec);
      StoreSafe(cfg, s, i, RawWrite(rec), fault, RawStored);
    }
  }

  lemma StoreMeasSafe(cfg: Config, s: State, i: nat, fault: Fault)
    requires s in Safe(cfg)
    ensures Step(cfg, s, StoreMeas(i, fault)) in Safe(cfg)
  {
    var t := Step(cfg, s, StoreMeas(i, fault));
    if t != s {
      StoreSafe(cfg, s, i, MeasWrite(Normalize(s.handlers[i].adm.m)), fault, BothStored);
    }
  }

  lemma StepSafe(cfg: Config, s: State, l: Label)
    requires s in Safe(cfg)
    ensures Step(cfg, s, l) in Safe(cfg)
  {
    match l {
      case Deliver(msg) => DeliverSafe(cfg, s, msg);
      case Check(i, now) => CheckSafe(cfg, s, i, now);
      case Claim(i) => ClaimSafe(cfg, s, i);
      case StoreRaw(i, now, fault) => StoreRawSafe(cfg, s, i, now, fault);
      case StoreMeas(i, fault) => StoreMeasSafe(cfg, s, i, fault);
      case Settle(i) => SettleSafe(cfg, s, i);
      case Restart => RestartSafe(cfg, s);
    }
  }

  /** The invariant holds after every run, from either sink left empty. */
  lemma {:induction false} AlwaysSafe(cfg: Config, sink: Sink, run: seq<Label>)
    requires sink == EMPTY_LOG || sink == EMPTY_TABLES
    ensures Exec(cfg, Init(sink), run) in Safe(cfg)
  {
    if run != [] {
      AlwaysSafe(cfg, sink, run[..|run| - 1]);
      StepSafe(cfg, Exec(cfg, Init(sink), run[..|run| - 1]), run[|run| - 1]);
    }
  }

  /**
   * At most once, in every interleaving of a process: no two handlers hold one
   * key, no key's record is written twice, and whatever any process has written
   * captures an admitted message, each measurement after its raw record.
   */
  lemma ClaimedAndWrittenOnce(cfg: Config, sink: Sink, run: seq<Label>)
    requires sink == EMPTY_LOG || sink == EMPTY_TABLES
    ensures var s := Exec(cfg, Init(sink), run);
            && (forall i, j :: 0 <= i < j < |s.handlers| && PastClaim(s.handlers[i].pc) && PastClaim(s.handlers[j].pc) ==>
                  KeyOf(s.handlers[i]) != KeyOf(s.handlers[j]))
            && AtMostOnce(s.mine)
            && Provenance(cfg, s.ever, Journal(s))
  {
    AlwaysSafe(cfg, sink, run);
    var s := Exec(cfg, Init(sink), run);
    ProvenanceConcat(cfg, s.ever, s.past, s.mine);
    forall i, j | 0 <= i < j < |s.handlers| && PastClaim(s.handlers[i].pc) && PastClaim(s.handlers[j].pc)
      ensures KeyOf(s.handlers[i]) != KeyOf(s.handlers[j])
    {
      assert ClaimsHold(s.handlers, s.seen) && Claims(s.handlers[i]) && Claims(s.handlers[j]);
    }
  }
}
