// The telemetry sample, the operating states and the thresholds every layer
// shares, and the RFC 3339 clock.
module Measurement {
  import opened Wrappers

  const STATE_NORMAL := "NORMAL"
  const STATE_WARNING := "WARNING"
  const STATE_CRITICAL := "CRITICAL"

  const SCHEMA_VERSION := 1

  datatype Measurement = Measurement(
    schemaVersion: int,
    transformerId: string,
    timestamp: string,
    load: real,
    ambient: real,
    oil: real,
    winding: real,
    oilLevel: real,
    current: real,
    voltage: real,
    state: string)

  const WARNING_WINDING := 95.0
  const CRITICAL_WINDING := 105.0
  const WARNING_OIL := 90.0
  const CRITICAL_OIL := 100.0
  const OVERLOAD := 100.0
  const CRITICAL_LOAD := 140.0

  function ClassifyState(winding: real, oil: real, load: real): string
  {
    if winding >= CRITICAL_WINDING || oil >= CRITICAL_OIL || load >= CRITICAL_LOAD then STATE_CRITICAL
    else if winding >= WARNING_WINDING || oil >= WARNING_OIL || load > OVERLOAD then STATE_WARNING
    else STATE_NORMAL
  }

  predicate KnownState(s: string)
  {
    s == STATE_NORMAL || s == STATE_WARNING || s == STATE_CRITICAL
  }

  /** How severe a state is; anything that is not a state ranks with NORMAL. */
  function Severity(s: string): nat
  {
    if s == STATE_CRITICAL then 2 else if s == STATE_WARNING then 1 else 0
  }

  lemma StatesDiffer()
    ensures STATE_NORMAL != STATE_WARNING && STATE_NORMAL != STATE_CRITICAL && STATE_WARNING != STATE_CRITICAL
  {
    assert |STATE_NORMAL| == 6 && |STATE_WARNING| == 7 && |STATE_CRITICAL| == 8;
  }

  /** Severity of a classified triple, without going through the strings. */
  lemma ClassifiedSeverity(winding: real, oil: real, load: real)
    ensures Severity(ClassifyState(winding, oil, load)) ==
            (if winding >= CRITICAL_WINDING || oil >= CRITICAL_OIL || load >= CRITICAL_LOAD then 2
             else if winding >= WARNING_WINDING || oil >= WARNING_OIL || load > OVERLOAD then 1
             else 0)
    ensures KnownState(ClassifyState(winding, oil, load))
  {
    StatesDiffer();
  }

  /** Known states are told apart by their severity. */
  lemma SeverityInjective(s: string, t: string)
    requires KnownState(s) && KnownState(t)
    ensures Severity(s) == Severity(t) <==> s == t
  {
    StatesDiffer();
  }

  function DedupKey(m: Measurement): string
  {
    m.transformerId + "@" + m.timestamp
  }

  function Normalize(m: Measurement): Measurement
  {
    m.(state := ClassifyState(m.winding, m.oil, m.load))
  }

  /** Instants are nanoseconds since the Unix epoch. */
  type Instant = int

  const NANOS: int := 1_000_000_000

  /** Drops the fraction of a second. */
  function WholeSecond(t: Instant): Instant
  {
    t - t % NANOS
  }

  /** The instants whose year RFC 3339 can spell and that do not precede the epoch. */
  predicate InCalendar(t: Instant)
  {
    0 <= t < 253_402_300_800 * NANOS
  }

  /**
   * RFC 3339 reading and writing (section 5.6 of RFC 3339). `parse` may accept
   * many spellings of an instant; `format` writes the UTC one with no fraction.
   */
  datatype Clock = Clock(parse: string -> Option<Instant>, format: Instant -> string)

  /** Some text names the instant, a fraction of a second included. */
  ghost predicate Spelled(c: Clock, t: Instant)
  {
    exists text :: c.parse(text) == Some(t)
  }

  ghost predicate LawfulClock(c: Clock)
  {
    && c.parse("").None?
    && (forall t {:trigger c.format(t)} :: InCalendar(t) ==> c.parse(c.format(t)) == Some(WholeSecond(t)))
    && (forall t {:trigger c.format(WholeSecond(t))} :: c.format(t) == c.format(WholeSecond(t)))
    && (forall t {:trigger Spelled(c, t)} :: InCalendar(t) ==> Spelled(c, t))
  }

  /** The spelling is the one the writer produces for the instant it names. */
  ghost predicate Canonical(c: Clock, text: string)
  {
    c.parse(text).Some? && c.format(c.parse(text).value) == text
      && WholeSecond(c.parse(text).value) == c.parse(text).value
  }

  /** What the writer produces is canonical, whatever fraction it drops. */
  lemma FormattedIsCanonical(c: Clock, t: Instant)
    requires LawfulClock(c) && InCalendar(t)
    ensures Canonical(c, c.format(t)) && c.parse(c.format(t)) == Some(WholeSecond(t))
  {
    assert c.format(t) == c.format(WholeSecond(t));
  }

  /** Two instants are written alike exactly when they lie in one second. */
  lemma FormatExactly(c: Clock, t: Instant, u: Instant)
    requires LawfulClock(c) && InCalendar(t) && InCalendar(u)
    ensures c.format(t) == c.format(u) <==> WholeSecond(t) == WholeSecond(u)
  {
    assert c.format(t) == c.format(WholeSecond(t)) && c.format(u) == c.format(WholeSecond(u));
    assert c.parse(c.format(t)) == Some(WholeSecond(t));
  }
}
