// Invariants of the ingestion protocol over every interleaving: counter
// conservation, one claim and at most one write per key, and provenance.
module ProtocolSafety {
  import opened Measurement
  import opened Storage
  import opened Protocol

  // ---- where a handler stands relative to its claim ----

  predicate BeforeClaim(pc: Pc)
  {
    pc.Arrived? || pc.Refused? || pc.Admitted? || pc.Repeated?
  }

  predicate InFlightPastClaim(pc: Pc)
  {
    pc.Claimed? || pc.RawStored? || pc.BothStored? || pc.Faulted?
  }

  predicate PastClaim(pc: Pc)
  {
    InFlightPastClaim(pc) || pc.Accepted? || pc.Errored?
  }

  predicate IsRejected(pc: Pc) { pc.Rejected? }

  predicate IsSkipped(pc: Pc) { pc.Skipped? }

  predicate IsAccepted(pc: Pc) { pc.Accepted? }

  predicate IsErrored(pc: Pc) { pc.Errored? }

  // ---- counting handlers ----

  function Count(hs: seq<Handler>, p: Pc -> bool): nat
  {
    if hs == [] then 0
    else Count(hs[..|hs| - 1], p) + if p(hs[|hs| - 1].pc) then 1 else 0
  }

  lemma {:induction false} CountUpdate(hs: seq<Handler>, i: nat, h: Handler, p: Pc -> bool)
    requires i < |hs|
    ensures Count(hs[i := h], p) == Count(hs, p) - Tick(p(hs[i].pc)) + Tick(p(h.pc))
  {
    var n := |hs| - 1;
    if i == n {
      assert hs[i := h][..n] == hs[..n];
    } else {
      CountUpdate(hs[..n], i, h, p);
      assert hs[i := h][..n] == hs[..n][i := h];
    }
  }

  lemma CountAppend(hs: seq<Handler>, h: Handler, p: Pc -> bool)
    ensures Count(hs + [h], p) == Count(hs, p) + Tick(p(h.pc))
  {
    assert (hs + [h])[..|hs|] == hs;
  }

  function Tick(b: bool): int
  {
    if b then 1 else 0
  }

  ghost predicate CountersAgree(s: State)
  {
    && s.counters.received == |s.handlers|
    && s.counters.rejected == Count(s.handlers, IsRejected)
    && s.counters.duplicates == Count(s.handlers, IsSkipped)
    && s.counters.accepted == Count(s.handlers, IsAccepted)
    && s.counters.storeErrors == Count(s.handlers, IsErrored)
    && |s.seen| == Count(s.handlers, PastClaim)
  }

  /** The five tallies after one handler has moved. */
  lemma TallyMove(hs: seq<Handler>, i: nat, h: Handler)
    requires i < |hs|
    ensures var hs', was, pc := hs[i := h], hs[i].pc, h.pc;
            && |hs'| == |hs|
            && Count(hs', IsRejected) == Count(hs, IsRejected) - Tick(was == Rejected) + Tick(pc == Rejected)
            && Count(hs', IsSkipped) == Count(hs, IsSkipped) - Tick(was == Skipped) + Tick(pc == Skipped)
            && Count(hs', IsAccepted) == Count(hs, IsAccepted) - Tick(was == Accepted) + Tick(pc == Accepted)
            && Count(hs', IsErrored) == Count(hs, IsErrored) - Tick(was == Errored) + Tick(pc == Errored)
            && Count(hs', PastClaim) == Count(hs, PastClaim) - Tick(PastClaim(was)) + Tick(PastClaim(pc))
  {
    CountUpdate(hs, i, h, IsRejected);
    CountUpdate(hs, i, h, IsSkipped);
    CountUpdate(hs, i, h, IsAccepted);
    CountUpdate(hs, i, h, IsErrored);
    CountUpdate(hs, i, h, PastClaim);
  }

  lemma CountersStep(cfg: Config, s: State, l: Label)
    requires CountersAgree(s)
    ensures CountersAgree(Step(cfg, s, l))
  {
    match l {
      case Deliver(msg) => CountersDeliver(cfg, s, msg);
      case Restart =>
      case Check(i, now) => CountersCheck(cfg, s, i, now);
      case Claim(i) => CountersClaim(cfg, s, i);
      case StoreRaw(i, now, fault) =>
        if At(s, i, Claimed) {
          CountersStore(cfg, s, i, RawWrite(RawRecordOf(cfg, s.handlers[i].adm, now)), fault, RawStored);
        }
      case StoreMeas(i, fault) =>
        if At(s, i, RawStored) {
          CountersStore(cfg, s, i, MeasWrite(Normalize(s.handlers[i].adm.m)), fault, BothStored);
        }
      case Settle(i) => CountersSettle(cfg, s, i);
    }
  }

  lemma CountersDeliver(cfg: Config, s: State, msg: Message)
    requires CountersAgree(s)
    ensures CountersAgree(Step(cfg, s, Deliver(msg)))
  {
    var h := Fresh(msg);
    CountAppend(s.handlers, h, IsRejected);
    CountAppend(s.handlers, h, IsSkipped);
    CountAppend(s.handlers, h, IsAccepted);
    CountAppend(s.handlers, h, IsErrored);
    CountAppend(s.handlers, h, PastClaim);
  }

  lemma CountersCheck(cfg: Config, s: State, i: nat, now: Instant)
    requires CountersAgree(s)
    ensures CountersAgree(Step(cfg, s, Check(i, now)))
  {
    if At(s, i, Arrived) {
      match Decide(cfg, now, s.handlers[i].adm.msg) {
        case None => TallyMove(s.handlers, i, s.handlers[i].(pc := Refused));
        case Some(m) => TallyMove(s.handlers, i, Handler(Admission(s.handlers[i].adm.msg, m), Admitted));
      }
    }
  }

  lemma CountersClaim(cfg: Config, s: State, i: nat)
    requires CountersAgree(s)
    ensures CountersAgree(Step(cfg, s, Claim(i)))
  {
    if At(s, i, Admitted) {
      TallyMove(s.handlers, i, Step(cfg, s, Claim(i)).handlers[i]);
    }
  }

  lemma CountersStore(cfg: Config, s: State, i: nat, w: Write, fault: Fault, next: Pc)
    requires CountersAgree(s) && i < |s.handlers|
    requires InFlightPastClaim(s.handlers[i].pc) && InFlightPastClaim(next)
    ensures CountersAgree(Store(cfg, s, i, w, fault, next))
  {
    TallyMove(s.handlers, i, Store(cfg, s, i, w, fault, next).handlers[i]);
  }

  lemma CountersSettle(cfg: Config, s: State, i: nat)
    requires CountersAgree(s)
    ensures CountersAgree(Step(cfg, s, Settle(i)))
  {
    if i < |s.handlers| {
      TallyMove(s.handlers, i, Settled(s, i).handlers[i]);
    }
  }

  lemma {:induction false} CountersAlways(cfg: Config, sink: Sink, run: seq<Label>)
    ensures CountersAgree(Exec(cfg, Init(sink), run))
  {
    if run != [] {
      CountersAlways(cfg, sink, run[..|run| - 1]);
      CountersStep(cfg, Exec(cfg, Init(sink), run[..|run| - 1]), run[|run| - 1]);
    }
  }

  /**
   * Counter conservation in every reachable state of a process: each claimed
   * key is accepted, charged a store error or still held by a handler, and each
   * received message is rejected, a duplicate, a claim or still on its way.
   */
  lemma CounterConservation(cfg: Config, sink: Sink, run: seq<Label>)
    ensures var s := Exec(cfg, Init(sink), run);
            && |s.seen| == s.counters.accepted + s.counters.storeErrors + Count(s.handlers, InFlightPastClaim)
            && s.counters.received ==
                 s.counters.rejected + s.counters.duplicates + |s.seen| + Count(s.handlers, BeforeClaim)
  {
    CountersAlways(cfg, sink, run);
    CountPartition(Exec(cfg, Init(sink), run).handlers);
  }

  lemma {:induction false} CountPartition(hs: seq<Handler>)
    ensures Count(hs, PastClaim) == Count(hs, IsAccepted) + Count(hs, IsErrored) + Count(hs, InFlightPastClaim)
    ensures |hs| == Count(hs, IsRejected) + Count(hs, IsSkipped) + Count(hs, PastClaim) + Count(hs, BeforeClaim)
  {
    if hs != [] {
      CountPartition(hs[..|hs| - 1]);
    }
  }
}
