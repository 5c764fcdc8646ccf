// Telemetry queries over a window: what a page holds, how pages fit together,
// and the limits the API passes on.
module Paging {
  import opened Wrappers
  import opened Measurement
  import opened Decimal
  import opened Ordering
  import opened Storage

  // ---- the query ----

  /** The zero time of the program: the first instant of the year 1. */
  const ZERO_TIME: Instant := -62_135_596_800 * NANOS

  lemma ZeroTimeIsYearOne()
    ensures ZERO_TIME == -(1969 * 365 + 1969 / 4 - 1969 / 100 + 1969 / 400) * 86_400 * NANOS
  {
  }

  /** An optional query parameter; what is missing or cannot be read is the zero time. */
  function TimeParam(c: Clock, text: string): Instant
  {
    if text == "" || c.parse(text).None? then ZERO_TIME else c.parse(text).value
  }

  function NullableTime(t: Instant): Option<Instant>
  {
    if t == ZERO_TIME then None else Some(t)
  }

  predicate InWindow(ts: Instant, from: Instant, to: Instant)
  {
    && (NullableTime(from).None? || ts >= from)
    && (NullableTime(to).None? || ts <= to)
  }

  /** A bound that is missing or cannot be read leaves its side of the window open; two bounds include their ends. */
  lemma UnreadableBoundsAreOpen(c: Clock, from: string, to: string, ts: Instant)
    ensures c.parse(from).Some? && from != "" && c.parse(from).value != ZERO_TIME
            && c.parse(to).Some? && to != "" && c.parse(to).value != ZERO_TIME ==>
              (InWindow(ts, TimeParam(c, from), TimeParam(c, to)) <==> c.parse(from).value <= ts <= c.parse(to).value)
    ensures c.parse(from).None? && c.parse(to).None? ==> InWindow(ts, TimeParam(c, from), TimeParam(c, to))
    ensures c.parse(from).None? && c.parse(to).Some? && to != "" && c.parse(to).value != ZERO_TIME ==>
              (InWindow(ts, TimeParam(c, from), TimeParam(c, to)) <==> ts <= c.parse(to).value)
    ensures c.parse(from).Some? && c.parse(to).None? && from != "" && c.parse(from).value != ZERO_TIME ==>
              (InWindow(ts, TimeParam(c, from), TimeParam(c, to)) <==> ts >= c.parse(from).value)
  {
  }

  /** The instants of a transformer's rows; the primary key makes them distinct. */
  function Window(t: Tables, id: string, from: Instant, to: Instant): set<Instant>
  {
    set key | key in t.meas && key.0 == id && InWindow(key.1, from, to) :: key.1
  }

  function CountTelemetry(t: Tables, id: string, from: Instant, to: Instant): nat
  {
    |Window(t, id, from, to)|
  }

  datatype Row = Row(ts: Instant, readings: MeasurementRow)

  const NEWER: (Instant, Instant) -> bool := (a: Instant, b: Instant) => a > b

  lemma NewerIsStrict()
    ensures StrictOrder(NEWER)
  {
  }

  /** All rows of the window, newest first. */
  ghost function Newest(t: Tables, id: string, from: Instant, to: Instant): (rows: seq<Row>)
  {
    NewerIsStrict();
    var instants := Ordered(Window(t, id, from, to), NEWER);
    OrderedLists(Window(t, id, from, to), NEWER);
    seq(|instants|, i requires 0 <= i < |instants| =>
      assert instants[i] in instants; Row(instants[i], t.meas[(id, instants[i])]))
  }

  function Page<T>(rows: seq<T>, limit: nat, offset: nat): seq<T>
  {
    if offset >= |rows| then []
    else if offset + limit >= |rows| then rows[offset..]
    else rows[offset..offset + limit]
  }

  function SampleOf(c: Clock, id: string, row: Row): Measurement
  {
    var r := row.readings;
    Measurement(SCHEMA_VERSION, id, c.format(row.ts), r.load, r.ambient, r.oil, r.winding, r.oilLevel, r.current,
                r.voltage, r.state)
  }

  /** The sample carries each column of the row under its own name. */
  predicate ListsRow(c: Clock, id: string, row: Row, m: Measurement)
  {
    && m.schemaVersion == 1 && m.transformerId == id && m.timestamp == c.format(row.ts)
    && m.load == row.readings.load && m.ambient == row.readings.ambient
    && m.oil == row.readings.oil && m.winding == row.readings.winding
    && m.oilLevel == row.readings.oilLevel && m.current == row.readings.current
    && m.voltage == row.readings.voltage && m.state == row.readings.state
  }

  function Samples(c: Clock, id: string, rows: seq<Row>): seq<Measurement>
  {
    seq(|rows|, i requires 0 <= i < |rows| => SampleOf(c, id, rows[i]))
  }

  /**
   * The samples of one page of the window. The cursor is what the engine returns
   * for the query: its page of the window's rows.
   */
  method ListTelemetry(c: Clock, ghost t: Tables, id: string, ghost from: Instant, ghost to: Instant,
                       ghost limit: nat, ghost offset: nat, cursor: seq<Row>)
    returns (out: seq<Measurement>)
    requires cursor == Page(Newest(t, id, from, to), limit, offset)
    ensures out == Samples(c, id, Page(Newest(t, id, from, to), limit, offset))
    ensures |out| <= limit
    ensures |out| == |cursor| && forall i :: 0 <= i < |out| ==> ListsRow(c, id, cursor[i], out[i])
  {
    hide Newest;
    out := [];
    for i := 0 to |cursor|
      invariant out == Samples(c, id, cursor[..i])
    {
      out := out + [SampleOf(c, id, cursor[i])];
      assert Samples(c, id, cursor[..i + 1]) == Samples(c, id, cursor[..i]) + [SampleOf(c, id, cursor[i])];
    }
    assert cursor[..|cursor|] == cursor;
  }

  // ---- limits ----

  const DEFAULT_PAGE_LIMIT: nat := 100
  const MAX_PAGE_LIMIT: nat := 1000

  method PageParams(limitText: string, offsetText: string) returns (limit: nat, offset: nat)
    ensures 1 <= limit <= 1000
    ensures (ParseInt(limitText).None? || ParseInt(limitText).value <= 0) ==> limit == 100
    ensures ParseInt(limitText).Some? && ParseInt(limitText).value > 0 ==>
              limit == if ParseInt(limitText).value > 1000 then 1000 else ParseInt(limitText).value
    ensures offset == if ParseInt(offsetText).Some? && ParseInt(offsetText).value > 0 then ParseInt(offsetText).value else 0
  {
    limit, offset := DEFAULT_PAGE_LIMIT, 0;
    if limitText != "" {
      var n := ParseInt(limitText);
      if n.Some? && n.value > 0 {
        limit := n.value;
      }
    }
    if offsetText != "" {
      var n := ParseInt(offsetText);
      if n.Some? && n.value > 0 {
        offset := n.value;
      }
    }
    if limit > MAX_PAGE_LIMIT {
      limit := MAX_PAGE_LIMIT;
    }
  }

  // ---- pages fit together ----

  function Start(limit: nat, k: nat): nat
  {
    k * limit
  }

  lemma StartAdds(limit: nat, k: nat)
    ensures Start(limit, k + 1) == Start(limit, k) + limit && Start(limit, 0) == 0
    ensures limit > 0 ==> Start(limit, k) >= k
  {
  }

  /** The first `k` pages, one after the other. */
  function Pages<T>(rows: seq<T>, limit: nat, k: nat): seq<T>
  {
    if k == 0 then [] else Pages(rows, limit, k - 1) + Page(rows, limit, Start(limit, k - 1))
  }

  function Prefix<T>(rows: seq<T>, n: nat): seq<T>
  {
    if n >= |rows| then rows else rows[..n]
  }

  lemma PageExtends<T>(rows: seq<T>, limit: nat, offset: nat)
    ensures Prefix(rows, offset) + Page(rows, limit, offset) == Prefix(rows, offset + limit)
    ensures |Page(rows, limit, offset)| <= limit
  {
  }

  /** Pages neither overlap nor leave a gap. */
  lemma {:induction false} PagesArePrefix<T>(rows: seq<T>, limit: nat, k: nat)
    ensures Pages(rows, limit, k) == Prefix(rows, Start(limit, k))
  {
    hide Start, Page, Prefix;
    if k > 0 {
      PagesArePrefix(rows, limit, k - 1);
      PageExtends(rows, limit, Start(limit, k - 1));
      StartAdds(limit, k - 1);
    } else {
      StartAdds(limit, 0);
      EmptyPrefix(rows);
    }
  }

  lemma EmptyPrefix<T>(rows: seq<T>)
    ensures Prefix(rows, 0) == []
  {
  }

  lemma NewestLists(t: Tables, id: string, from: Instant, to: Instant)
    ensures var rows := Newest(t, id, from, to);
            && |rows| == CountTelemetry(t, id, from, to)
            && (forall i, j :: 0 <= i < j < |rows| ==> rows[i].ts > rows[j].ts)
            && (forall i :: 0 <= i < |rows| ==>
                  (id, rows[i].ts) in t.meas && InWindow(rows[i].ts, from, to) && rows[i].readings == t.meas[(id, rows[i].ts)])
            && (forall ts :: (id, ts) in t.meas && InWindow(ts, from, to) ==>
                  exists i :: 0 <= i < |rows| && rows[i].ts == ts)
  {
    hide InWindow;
    NewerIsStrict();
    var s := Window(t, id, from, to);
    OrderedLists(s, NEWER);
    var instants, rows := Ordered(s, NEWER), Newest(t, id, from, to);
    forall ts | (id, ts) in t.meas && InWindow(ts, from, to) ensures exists i :: 0 <= i < |rows| && rows[i].ts == ts {
      assert (id, ts).1 in s;
      var i :| 0 <= i < |instants| && instants[i] == ts;
      assert rows[i].ts == ts;
    }
    forall i, j | 0 <= i < j < |rows| ensures rows[i].ts > rows[j].ts {
      assert NEWER(instants[i], instants[j]);
    }
    forall i | 0 <= i < |rows| ensures rows[i].ts in s && rows[i].readings == t.meas[(id, rows[i].ts)] {
      assert instants[i] in instants;
    }
  }

  /**
   * Asking for pages at offsets 0, L, 2L and so on, for any limit the API can
   * pass, gives every row of the window once, newest first, as many as the
   * count says, and from the page after the last nothing.
   */
  lemma PagesPartitionTheWindow(t: Tables, id: string, from: Instant, to: Instant, limit: nat, k: nat)
    requires 1 <= limit <= MAX_PAGE_LIMIT
    ensures var rows := Newest(t, id, from, to);
            && Pages(rows, limit, k) == Prefix(rows, Start(limit, k))
            && |rows| == CountTelemetry(t, id, from, to)
            && (forall i, j :: 0 <= i < j < |rows| ==> rows[i].ts > rows[j].ts)
            && (Start(limit, k) >= CountTelemetry(t, id, from, to) ==> Pages(rows, limit, k) == rows)
            && (Start(limit, k) >= |rows| <==> Page(rows, limit, Start(limit, k)) == [])
  {
    hide Newest, InWindow;
    NewestLists(t, id, from, to);
    PagesArePrefix(Newest(t, id, from, to), limit, k);
    StartAdds(limit, k);
  }

  /** Two samples of a page carry one timestamp exactly when their rows lie in one second. */
  lemma SamplesTellRows(c: Clock, id: string, rows: seq<Row>, i: nat, j: nat)
    requires LawfulClock(c) && i < |rows| && j < |rows| && InCalendar(rows[i].ts) && InCalendar(rows[j].ts)
    ensures Samples(c, id, rows)[i].timestamp == Samples(c, id, rows)[j].timestamp
            <==> WholeSecond(rows[i].ts) == WholeSecond(rows[j].ts)
  {
    FormatExactly(c, rows[i].ts, rows[j].ts);
  }
}
