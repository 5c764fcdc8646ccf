// The ingestion protocol as a state machine: any number of message handlers,
// interleaved at the granularity of their shared accesses, over one store, with
// crashes and restarts.
module Protocol {
  import opened Wrappers
  import opened Measurement
  import opened Json
  import opened Topic
  import opened Validation
  import opened Storage
  import opened Sinks

  /** Unparsable bytes are a message with no payload value. */
  datatype Message = Message(topic: string, payload: Option<Json>)

  /** Where a handler stands. The second state of each pair has bumped its counter and returned. */
  datatype Pc =
    | Arrived
    | Refused | Rejected
    | Admitted
    | Repeated | Skipped
    | Claimed
    | RawStored
    | BothStored | Accepted
    | Faulted | Errored

  /** A message a handler works on, and the sample it has read from it. */
  datatype Admission = Admission(msg: Message, m: Measurement)

  datatype Handler = Handler(adm: Admission, pc: Pc)

  datatype Counters = Counters(received: nat, accepted: nat, rejected: nat, duplicates: nat, storeErrors: nat)

  const ZERO_COUNTERS := Counters(0, 0, 0, 0, 0)

  datatype Sink = LogSink(lines: seq<Line>) | TableSink(tables: Tables)

  datatype Config = Config(validator: Validator, db: Database, source: string)

  /**
   * `handlers`, `seen` and `counters` live in the process; `sink` outlives it.
   * The last three fields are history: the writes that took effect in earlier
   * processes and in this one, and everything any process has admitted.
   */
  datatype State = State(
    handlers: seq<Handler>,
    seen: set<string>,
    counters: Counters,
    sink: Sink,
    past: seq<Write>,
    mine: seq<Write>,
    ever: set<Admission>)

  function Init(sink: Sink): State
  {
    State.State([], {}, ZERO_COUNTERS, sink, [], [], {})
  }

  const EMPTY_LOG := LogSink([])
  const EMPTY_TABLES := TableSink(EMPTY)

  function KeyOf(h: Handler): string
  {
    DedupKey(h.adm.m)
  }

  /** Validation first, then the comparison of topic and payload. */
  function Decide(cfg: Config, now: Instant, msg: Message): Option<Measurement>
  {
    match Validate(cfg.db.clock, cfg.validator, now, msg.payload)
    case Err(_) => None
    case Ok(m) => if ParseTelemetryTopic(msg.topic) == Some(m.transformerId) then Some(m) else None
  }

  function PayloadOf(msg: Message): Json
  {
    if msg.payload.Some? then msg.payload.value else Null
  }

  function RawRecordOf(cfg: Config, adm: Admission, at: Instant): RawRecord
  {
    RawRecord(DedupKey(adm.m), adm.m.transformerId, adm.m.schemaVersion, adm.msg.topic, cfg.source,
              cfg.db.clock.format(at), PayloadOf(adm.msg))
  }

  /** The tables of a relational sink. */
  function TablesOf(s: State): Tables
  {
    match s.sink
    case LogSink(_) => EMPTY
    case TableSink(t) => t
  }

  /** Whether a write takes effect, whatever the caller is told. */
  predicate TakesEffect(cfg: Config, sink: Sink, w: Write, fault: Fault)
  {
    fault != LostBefore && (sink.LogSink? || Insert(cfg.db, sink.tables, w).Ok?)
  }

  function Written(cfg: Config, sink: Sink, w: Write): Sink
  {
    match sink
    case LogSink(lines) => LogSink(lines + [EncodeWrite(w)])
    case TableSink(t) => TableSink(Attempt(cfg.db, t, w))
  }

  datatype Label =
    | Deliver(msg: Message)
    | Check(i: nat, now: Instant)
    | Claim(i: nat)
    | StoreRaw(i: nat, now: Instant, fault: Fault)
    | StoreMeas(i: nat, fault: Fault)
    | Settle(i: nat)
    | Restart

  predicate At(s: State, i: nat, pc: Pc)
  {
    i < |s.handlers| && s.handlers[i].pc == pc
  }

  function Move(s: State, i: nat, pc: Pc): State
    requires i < |s.handlers|
  {
    s.(handlers := s.handlers[i := s.handlers[i].(pc := pc)])
  }

  /** A handler that has just been started; it has read nothing yet. */
  function Fresh(msg: Message): Handler
  {
    Handler(Admission(msg, ZERO_MEASUREMENT), Arrived)
  }

  function Admit(s: State, i: nat, adm: Admission): State
    requires i < |s.handlers|
  {
    s.(handlers := s.handlers[i := Handler(adm, Admitted)], ever := s.ever + {adm})
  }

  /** The write itself; the handler goes on only when the store reports success. */
  function Store(cfg: Config, s: State, i: nat, w: Write, fault: Fault, next: Pc): State
    requires i < |s.handlers|
  {
    if TakesEffect(cfg, s.sink, w, fault) then
      Move(s, i, if fault == LostAfter then Faulted else next)
      .(sink := Written(cfg, s.sink, w), mine := s.mine + [w])
    else Move(s, i, Faulted)
  }

  /** A handler returns after bumping the counter its state calls for. */
  function Settled(s: State, i: nat): State
    requires i < |s.handlers|
  {
    match s.handlers[i].pc
    case Refused => Move(s, i, Rejected).(counters := s.counters.(rejected := s.counters.rejected + 1))
    case Repeated => Move(s, i, Skipped).(counters := s.counters.(duplicates := s.counters.duplicates + 1))
    case BothStored => Move(s, i, Accepted).(counters := s.counters.(accepted := s.counters.accepted + 1))
    case Faulted => Move(s, i, Errored).(counters := s.counters.(storeErrors := s.counters.storeErrors + 1))
    case _ => s
  }

  /** One atomic step. A label that does not apply leaves the state alone. */
  function Step(cfg: Config, s: State, l: Label): State
  {
    match l
    case Deliver(msg) =>
      s.(handlers := s.handlers + [Fresh(msg)],
         counters := s.counters.(received := s.counters.received + 1))
    case Check(i, now) =>
      if !At(s, i, Arrived) then s
      else
        var msg := s.handlers[i].adm.msg;
        var m := Decide(cfg, now, msg);
        if m.None? then Move(s, i, Refused) else Admit(s, i, Admission(msg, m.value))
    case Claim(i) =>
      if !At(s, i, Admitted) then s
      else
        var key := KeyOf(s.handlers[i]);
        if key in s.seen then Move(s, i, Repeated)
        else Move(s, i, Claimed).(seen := s.seen + {key})
    case StoreRaw(i, now, fault) =>
      if !At(s, i, Claimed) then s
      else Store(cfg, s, i, RawWrite(RawRecordOf(cfg, s.handlers[i].adm, now)), fault, RawStored)
    case StoreMeas(i, fault) =>
      if !At(s, i, RawStored) then s
      else Store(cfg, s, i, MeasWrite(Normalize(s.handlers[i].adm.m)), fault, BothStored)
    case Settle(i) =>
      if i < |s.handlers| then Settled(s, i) else s
    case Restart =>
      s.(handlers := [], seen := {}, counters := ZERO_COUNTERS, past := s.past + s.mine, mine := [])
  }

  /** The state after a run. Every sequence of labels is a run. */
  function Exec(cfg: Config, s: State, run: seq<Label>): State
  {
    if run == [] then s
    else Step(cfg, Exec(cfg, s, run[..|run| - 1]), run[|run| - 1])
  }

  function Journal(s: State): seq<Write>
  {
    s.past + s.mine
  }

  lemma {:induction false} ExecConcat(cfg: Config, s: State, a: seq<Label>, b: seq<Label>)
    ensures Exec(cfg, s, a + b) == Exec(cfg, Exec(cfg, s, a), b)
  {
    if b == [] {
      assert a + b == a;
    } else {
      ExecConcat(cfg, s, a, b[..|b| - 1]);
      assert (a + b)[..|a + b| - 1] == a + b[..|b| - 1];
    }
  }
}
