// The inductive invariant of the ingestion protocol.
module ProtocolInvariant {
  import opened Wrappers
  import opened Measurement
  import opened Json
  import opened Topic
  import opened Validation
  import opened Storage
  import opened Sinks
  import opened Protocol
  import opened ProtocolSafety

  // ---- admission ----

  /** What admission establishes about a message, whatever the clock said. */
  ghost predicate Genuine(cfg: Config, adm: Admission)
  {
    && adm.msg.payload.Some?
    && DecodeMeasurement(adm.msg.payload.value) == Some(adm.m)
    && ParseTelemetryTopic(adm.msg.topic) == Some(adm.m.transformerId)
    && adm.m.schemaVersion == SCHEMA_VERSION
    && adm.m.transformerId in cfg.validator.registry
    && cfg.db.clock.parse(adm.m.timestamp).Some?
    && InRanges(adm.m) && WindingClearsOil(adm.m) && KnownState(adm.m.state)
  }

  predicate PastCheck(pc: Pc)
  {
    !pc.Arrived? && !pc.Refused? && !pc.Rejected?
  }

  ghost predicate AdmissionHolds(hs: seq<Handler>, ever: set<Admission>)
  {
    forall i :: 0 <= i < |hs| && PastCheck(hs[i].pc) ==> hs[i].adm in ever
  }

  // ---- claims ----

  predicate Claims(h: Handler)
  {
    PastClaim(h.pc)
  }

  ghost predicate HasClaimant(hs: seq<Handler>, k: string)
  {
    exists i :: 0 <= i < |hs| && Claims(hs[i]) && KeyOf(hs[i]) == k
  }

  /** Each seen key has exactly one claimant, and claimants have seen keys. */
  ghost predicate ClaimsHold(hs: seq<Handler>, seen: set<string>)
  {
    && (forall i :: 0 <= i < |hs| && Claims(hs[i]) ==> KeyOf(hs[i]) in seen)
    && (forall i, j :: 0 <= i < j < |hs| && Claims(hs[i]) && Claims(hs[j]) ==> KeyOf(hs[i]) != KeyOf(hs[j]))
    && (forall k :: k in seen ==> HasClaimant(hs, k))
  }

  // ---- writes ----

  function WriteKey(w: Write): string
  {
    match w
    case RawWrite(rec) => rec.id
    case MeasWrite(m) => DedupKey(m)
  }

  /** How far a handler may have got with its writes. */
  predicate MayHave(pc: Pc, w: Write)
  {
    match pc
    case Claimed => false
    case RawStored => w.RawWrite?
    case _ => true
  }

  /** Two writes of the same kind and key. */
  predicate Clash(v: Write, w: Write)
  {
    v.RawWrite? == w.RawWrite? && WriteKey(v) == WriteKey(w)
  }

  ghost predicate AtMostOnce(ws: seq<Write>)
  {
    forall i, j :: 0 <= i < j < |ws| ==> !Clash(ws[i], ws[j])
  }

  /** The raw record is the faithful capture of an admitted message. */
  ghost predicate Captures(cfg: Config, adm: Admission, rec: RawRecord)
  {
    exists at :: rec == RawRecordOf(cfg, adm, at)
  }

  ghost predicate RawFrom(cfg: Config, ever: set<Admission>, rec: RawRecord)
  {
    exists adm :: adm in ever && Captures(cfg, adm, rec)
  }

  /** The measurement is the normalized sample of the message the record captures. */
  ghost predicate Backs(cfg: Config, ever: set<Admission>, w: Write, m: Measurement)
  {
    w.RawWrite? && exists adm :: adm in ever && Captures(cfg, adm, w.rec) && m == Normalize(adm.m)
  }

  ghost predicate BackedBefore(cfg: Config, ever: set<Admission>, ws: seq<Write>, n: nat, m: Measurement)
    requires n <= |ws|
  {
    exists i :: 0 <= i < n && Backs(cfg, ever, ws[i], m)
  }

  /** A raw write captures an admitted message; a measurement follows its raw record. */
  ghost predicate Sourced(cfg: Config, ever: set<Admission>, ws: seq<Write>, j: nat)
    requires j < |ws|
  {
    && (ws[j].RawWrite? ==> RawFrom(cfg, ever, ws[j].rec))
    && (ws[j].MeasWrite? ==> BackedBefore(cfg, ever, ws, j, ws[j].m))
  }

  ghost predicate Provenance(cfg: Config, ever: set<Admission>, ws: seq<Write>)
  {
    forall j :: 0 <= j < |ws| ==> Sourced(cfg, ever, ws, j)
  }

  ghost predicate HasRaw(cfg: Config, ws: seq<Write>, adm: Admission)
  {
    exists i :: 0 <= i < |ws| && ws[i].RawWrite? && Captures(cfg, adm, ws[i].rec)
  }

  ghost predicate HasMeas(ws: seq<Write>, adm: Admission)
  {
    MeasWrite(Normalize(adm.m)) in ws
  }

  /** No handler's key has been written further than the handler has got. */
  ghost predicate NotAhead(hs: seq<Handler>, ws: seq<Write>)
  {
    forall i, j :: 0 <= i < |hs| && 0 <= j < |ws| && Claims(hs[i]) && WriteKey(ws[j]) == KeyOf(hs[i]) ==>
      MayHave(hs[i].pc, ws[j])
  }

  /** What a handler believes it has written is in this process's writes. */
  ghost predicate Delivered(cfg: Config, h: Handler, ws: seq<Write>)
  {
    && (h.pc.RawStored? || h.pc.BothStored? || h.pc.Accepted? ==> HasRaw(cfg, ws, h.adm))
    && (h.pc.BothStored? || h.pc.Accepted? ==> HasMeas(ws, h.adm))
  }

  ghost predicate WritesHold(cfg: Config, hs: seq<Handler>, seen: set<string>, ws: seq<Write>)
  {
    && AtMostOnce(ws)
    && (forall j :: 0 <= j < |ws| ==> WriteKey(ws[j]) in seen)
    && NotAhead(hs, ws)
    && (forall i :: 0 <= i < |hs| ==> Delivered(cfg, hs[i], ws))
  }

  /** The tables are what inserting the journal in order gives, none of it refused. */
  ghost predicate TablesFollow(db: Database, t: Tables, journal: seq<Write>)
  {
    t == InsertAll(db, EMPTY, journal) && AllStored(db, EMPTY, journal)
  }

  /** The part of the invariant that does not look at the sink. */
  ghost predicate ProcessHolds(cfg: Config, s: State)
  {
    && AdmissionHolds(s.handlers, s.ever)
    && ClaimsHold(s.handlers, s.seen)
    && WritesHold(cfg, s.handlers, s.seen, s.mine)
    && Provenance(cfg, s.ever, s.past)
    && Provenance(cfg, s.ever, s.mine)
  }

  ghost predicate SinkHolds(cfg: Config, sink: Sink, journal: seq<Write>)
  {
    match sink
    case LogSink(lines) => lines == EncodeAll(journal)
    case TableSink(t) => TablesFollow(cfg.db, t, journal)
  }

  /** The states that satisfy the invariant. */
  ghost function Safe(cfg: Config): iset<State>
  {
    iset s: State | ProcessHolds(cfg, s) && SinkHolds(cfg, s.sink, Journal(s))
  }
}
