// The silver models: deduplicated, normalized rows derived from the raw table,
// with SQL's treatment of missing values.
module Silver {
  import opened Wrappers
  import opened Text
  import opened Rounding
  import opened Measurement
  import opened Json
  import opened Storage

  // ---- extraction ----

  /** `payload ->> key` on a value the ingestion contract admits: null when missing. */
  function Field(payload: Json, key: Key): Json
  {
    if payload.Obj? && key in payload.fields then payload.fields[key] else Null
  }

  function TextOf(j: Json): Option<string>
  {
    if j.Str? then Some(j.s) else None
  }

  function NumberOf(j: Json): Option<real>
  {
    if j.Num? then Some(j.n) else None
  }

  datatype Quality = Complete | Incomplete

  datatype SilverRow = SilverRow(
    transformerId: string,
    payloadTransformerId: Option<string>,
    source: string,
    ingestedAt: Instant,
    ts: Option<Instant>,
    load: Option<real>,
    ambient: Option<real>,
    oil: Option<real>,
    winding: Option<real>,
    oilLevel: Option<real>,
    current: Option<real>,
    voltage: Option<real>,
    state: Option<string>,
    quality: Quality)

  function TsRaw(row: RawRow): Option<string>
  {
    TextOf(Field(row.payload, Timestamp))
  }

  /** Truncation to the second keeps the instant's second. */
  function NormalizeTs(c: Clock, text: Option<string>): Option<Instant>
  {
    if text.None? || c.parse(text.value).None? then None else Some(WholeSecond(c.parse(text.value).value))
  }

  function Trim(s: string): string
  {
    if s != "" && s[0] == ' ' then Trim(s[1..])
    else if s != "" && s[|s| - 1] == ' ' then Trim(s[..|s| - 1])
    else s
  }

  function UpperChar(c: char): char
  {
    if 'a' <= c <= 'z' then (c as int - 32) as char else c
  }

  function Upper(s: string): string
  {
    seq(|s|, i requires 0 <= i < |s| => UpperChar(s[i]))
  }

  function Spaces(n: nat): string
  {
    if n == 0 then "" else " " + Spaces(n - 1)
  }

  lemma {:induction false} SpacesEnd(n: nat)
    requires n > 0
    ensures Spaces(n) == Spaces(n - 1) + " "
  {
    if n > 1 {
      SpacesEnd(n - 1);
    }
  }

  lemma {:induction false} TrimsEnd(s: string, n: nat)
    requires s != "" && s[0] != ' ' && s[|s| - 1] != ' '
    ensures Trim(s + Spaces(n)) == s
  {
    if n == 0 {
      assert s + Spaces(n) == s;
    } else {
      SpacesEnd(n);
      TrimsEnd(s, n - 1);
      hide Spaces;
      TrimsLast(s + Spaces(n - 1));
      assert s + Spaces(n) == (s + Spaces(n - 1)) + " ";
    }
  }

  lemma TrimsLast(s: string)
    requires s != "" && s[0] != ' '
    ensures Trim(s + " ") == Trim(s)
  {
    var t := s + " ";
    assert t[0] == s[0] && t[|t| - 1] == ' ' && t[..|t| - 1] == s;
  }

  /** Spaces around a text go, and nothing else. */
  lemma {:induction false} TrimsSpaces(m: nat, s: string, n: nat)
    requires s != "" && s[0] != ' ' && s[|s| - 1] != ' '
    ensures Trim(Spaces(m) + s + Spaces(n)) == s
  {
    if m == 0 {
      assert Spaces(m) + s + Spaces(n) == s + Spaces(n);
      TrimsEnd(s, n);
    } else {
      var t := Spaces(m) + s + Spaces(n);
      TrimsSpaces(m - 1, s, n);
      assert t[1..] == Spaces(m - 1) + s + Spaces(n) && t[0] == ' ';
    }
  }

  predicate Capitals(state: string)
  {
    state != "" && forall i :: 0 <= i < |state| ==> 'A' <= state[i] <= 'Z'
  }

  /** Character by character the state, in small or capital letters. */
  predicate SpellsIn(s: string, state: string)
  {
    |s| == |state| && forall i :: 0 <= i < |s| ==> s[i] == state[i] || s[i] as int == state[i] as int + 32
  }

  lemma StatesAreCapitals(state: string)
    requires KnownState(state)
    ensures Capitals(state)
  {
  }

  lemma UpperOfSpelling(s: string, state: string)
    requires Capitals(state) && SpellsIn(s, state)
    ensures Upper(s) == state && s != "" && s[0] != ' ' && s[|s| - 1] != ' '
  {
    forall i | 0 <= i < |s| ensures UpperChar(s[i]) == state[i] && s[i] != ' ' {
      assert 'A' <= state[i] <= 'Z';
    }
  }

  /** A state is recognized in any mix of small and capital letters and between spaces. */
  lemma StatesAreCleaned(m: nat, s: string, n: nat, state: string)
    requires KnownState(state) && SpellsIn(s, state)
    ensures Upper(Trim(Spaces(m) + s + Spaces(n))) == state
  {
    hide KnownState, SpellsIn, Upper, Trim, Spaces;
    StatesAreCapitals(state);
    UpperOfSpelling(s, state);
    TrimsSpaces(m, s, n);
  }

  function Extract(c: Clock, row: RawRow): SilverRow
  {
    var p := row.payload;
    var load, oil, winding := NumberOf(Field(p, LoadPercent)), NumberOf(Field(p, OilTemperature)),
                              NumberOf(Field(p, WindingTemperature));
    var state := TextOf(Field(p, State));
    SilverRow(row.transformerId, TextOf(Field(p, TransformerId)), row.source, row.ingestedAt,
              NormalizeTs(c, TsRaw(row)), load, NumberOf(Field(p, AmbientTemperature)), oil, winding,
              NumberOf(Field(p, OilLevelPercent)), NumberOf(Field(p, CurrentA)), NumberOf(Field(p, VoltageKV)),
              if state.None? then None else Some(Upper(Trim(state.value))),
              if load.None? || winding.None? || oil.None? then Incomplete else Complete)
  }

  // ---- row_number() deduplication ----

  /** Both rows are selected and fall into one partition. */
  predicate SamePartition(raw: map<string, RawRow>, a: string, b: string)
    requires a in raw && b in raw
  {
    raw[a].transformerId == raw[b].transformerId && TsRaw(raw[a]) == TsRaw(raw[b])
  }

  /** `a` comes before `b` in the order ingested_at desc, id desc. */
  predicate Precedes(raw: map<string, RawRow>, a: string, b: string)
    requires a in raw && b in raw
  {
    raw[a].ingestedAt > raw[b].ingestedAt || (raw[a].ingestedAt == raw[b].ingestedAt && TextLess(b, a))
  }

  predicate Selected(raw: map<string, RawRow>, id: string)
  {
    id in raw && raw[id].schemaVersion == 1
  }

  /** The row numbered 1 in its partition. */
  predicate Kept(raw: map<string, RawRow>, id: string)
  {
    Selected(raw, id) &&
    forall other :: other in raw && Selected(raw, other) && SamePartition(raw, other, id) ==>
      !Precedes(raw, other, id)
  }

  function SilverTable(c: Clock, raw: map<string, RawRow>): map<string, SilverRow>
  {
    map id | id in raw && Kept(raw, id) :: Extract(c, raw[id])
  }

  lemma NothingBefore(raw: map<string, RawRow>, id: string, x: string, y: string)
    requires id in raw && x in raw && y in raw
    requires Precedes(raw, x, y) && !Precedes(raw, id, y)
    ensures !Precedes(raw, id, x)
  {
    if TextLess(y, x) && TextLess(x, id) {
      TextLessTransitive(y, x, id);
    }
  }

  /** The first of a non-empty set of rows in the window's order. */
  lemma {:induction false} FirstExists(raw: map<string, RawRow>, ids: set<string>) returns (first: string)
    requires ids != {} && forall id :: id in ids ==> id in raw
    ensures first in ids && forall id :: id in ids ==> !Precedes(raw, id, first)
    decreases |ids|
  {
    var x :| x in ids;
    TextLessTrichotomy(x, x);
    if ids == {x} {
      first := x;
    } else {
      assert ids - {x} != {};
      var y := FirstExists(raw, ids - {x});
      TextLessTrichotomy(x, y);
      if Precedes(raw, x, y) {
        first := x;
        forall id | id in ids ensures !Precedes(raw, id, x) {
          if id != x {
            NothingBefore(raw, id, x, y);
          }
        }
      } else {
        first := y;
      }
    }
  }

  predicate KeptBeside(raw: map<string, RawRow>, k: string, id: string)
    requires id in raw
  {
    k in raw && Kept(raw, k) && SamePartition(raw, k, id)
  }

  /** Rows of schema version 1 with one transformer and one timestamp text. */
  predicate Peers(raw: map<string, RawRow>, a: string, b: string)
  {
    && a in raw && b in raw && raw[a].schemaVersion == 1 && raw[b].schemaVersion == 1
    && raw[a].transformerId == raw[b].transformerId
    && TextOf(Field(raw[a].payload, Timestamp)) == TextOf(Field(raw[b].payload, Timestamp))
  }

  /**
   * Over any raw table, the deduplication keeps exactly one row of those that
   * share transformer and timestamp text: the one received last, and of several
   * received at once the one with the greatest id.
   */
  lemma DedupKeepsOne(raw: map<string, RawRow>, id: string)
    requires Selected(raw, id)
    ensures exists k :: KeptBeside(raw, k, id)
    ensures forall a, b :: KeptBeside(raw, a, id) && KeptBeside(raw, b, id) ==> a == b
    ensures forall k {:trigger Kept(raw, k)} :: Peers(raw, k, id) && Kept(raw, k) ==>
              && raw[id].ingestedAt <= raw[k].ingestedAt
              && (raw[id].ingestedAt == raw[k].ingestedAt ==> id == k || TextLess(id, k))
    ensures forall k {:trigger KeptBeside(raw, k, id)} :: KeptBeside(raw, k, id) <==> Peers(raw, k, id) && Kept(raw, k)
  {
    var peers := set k | k in raw && Selected(raw, k) && SamePartition(raw, k, id);
    assert id in peers;
    var first := FirstExists(raw, peers);
    assert Kept(raw, first);
    assert KeptBeside(raw, first, id);
    forall a, b | KeptBeside(raw, a, id) && KeptBeside(raw, b, id) ensures a == b {
      TextLessTrichotomy(a, b);
    }
    forall k | Peers(raw, k, id) && Kept(raw, k)
      ensures raw[id].ingestedAt <= raw[k].ingestedAt
      ensures raw[id].ingestedAt == raw[k].ingestedAt ==> id == k || TextLess(id, k)
    {
      assert SamePartition(raw, id, k);
      TextLessTrichotomy(id, k);
    }
  }

  // ---- derived fields under SQL's three-valued logic ----

  /** A comparison with a missing value is unknown. */
  function AtLeast(x: Option<real>, bound: real): Option<bool>
  {
    if x.None? then None else Some(x.value >= bound)
  }

  function Above(x: Option<real>, bound: real): Option<bool>
  {
    if x.None? then None else Some(x.value > bound)
  }

  function Or(a: Option<bool>, b: Option<bool>): Option<bool>
  {
    if a == Some(true) || b == Some(true) then Some(true)
    else if a.None? || b.None? then None
    else Some(false)
  }

  /** A `when` branch is taken only when its condition is true. */
  function ClassifySql(winding: Option<real>, oil: Option<real>, load: Option<real>): string
  {
    if Or(Or(AtLeast(winding, 105.0), AtLeast(oil, 100.0)), AtLeast(load, 140.0)) == Some(true) then "CRITICAL"
    else if Or(Or(AtLeast(winding, 95.0), AtLeast(oil, 90.0)), Above(load, 100.0)) == Some(true) then "WARNING"
    else "NORMAL"
  }

  function OrZero(x: Option<real>): real
  {
    if x.None? then 0.0 else x.value
  }

  /** `greatest(x, 0)` passes over a missing value. */
  function StressIndex(winding: Option<real>, oil: Option<real>, load: Option<real>): real
  {
    Round3(RMin(1.0, 0.5 * RMax(OrZero(winding), 0.0) / 105.0
                        + 0.3 * RMax(OrZero(oil), 0.0) / 100.0
                        + 0.2 * RMax(OrZero(load), 0.0) / 140.0))
  }

  /** Degrees left to the critical threshold, to two decimals. */
  function WindingMargin(row: SilverRow): Option<real>
  {
    if row.winding.None? then None else Some(Round2(105.0 - row.winding.value))
  }

  function OilMargin(row: SilverRow): Option<real>
  {
    if row.oil.None? then None else Some(Round2(100.0 - row.oil.value))
  }

  /** For readings of two decimals at most, a margin is used up exactly when its reading alone is critical. */
  lemma MarginsTellCritical(row: SilverRow)
    requires row.winding.Some? && row.oil.Some? && Hundredths(row.winding.value) && Hundredths(row.oil.value)
    ensures WindingMargin(row) == Some(CRITICAL_WINDING - row.winding.value) && OilMargin(row) == Some(CRITICAL_OIL - row.oil.value)
    ensures WindingMargin(row).value <= 0.0 || OilMargin(row).value <= 0.0 ==> StateRecomputed(row) == STATE_CRITICAL
    ensures StateRecomputed(row) == STATE_CRITICAL && OrZero(row.load) < CRITICAL_LOAD ==>
              WindingMargin(row).value <= 0.0 || OilMargin(row).value <= 0.0
  {
    StatesDiffer();
    WholeLess(105, row.winding.value);
    WholeLess(100, row.oil.value);
    Round2Shows(105.0 - row.winding.value);
    Round2Shows(100.0 - row.oil.value);
  }

  lemma WholeLess(n: int, x: real)
    requires Hundredths(x)
    ensures Hundredths(n as real - x)
  {
    var k := (x * 100.0).Floor;
    assert x == k as real / 100.0;
    var y := n as real - x;
    assert y * 100.0 == (100 * n - k) as real;
  }

  function StateRecomputed(row: SilverRow): string
  {
    ClassifySql(row.winding, row.oil, row.load)
  }

  /** Missing readings, read as zero by the service, trigger nothing on either side. */
  lemma SqlAgreesWithService(winding: Option<real>, oil: Option<real>, load: Option<real>)
    ensures ClassifySql(winding, oil, load) == ClassifyState(OrZero(winding), OrZero(oil), OrZero(load))
  {
  }
}
