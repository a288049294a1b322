/**
 The vocabulary of the alerter: instants on the local time line, the
 constants of the alerting rule, and the shape of one input record after
 the line has been split and its timestamp validated.
 */
module Telemetry {
  import opened JavaNumbers

  datatype Option<+T> = None | Some(value: T)

  const NanosPerSecond: int := 1_000_000_000
  const SecondsPerMinute: int := 60
  /** INTERVAL_WINDOW: the length of the alerting window, in minutes. */
  const IntervalWindowMinutes: int := 5
  /** The same length on the nanosecond time line. */
  const IntervalWindow: int := IntervalWindowMinutes * SecondsPerMinute * NanosPerSecond

  /** ALERT_TRIGGER_THRESHOLD: the breach count that raises an alert. */
  const AlertTriggerThreshold: Byte := 3
  /** FIRST_HIT and BEFORE_FIRST_HIT: the values a fresh counter pair starts from. */
  const FirstHit: Byte := 1
  const BeforeFirstHit: Byte := 0

  /**
   A `LocalDateTime`. A parsed timestamp is a point `At(nanos)` on a
   nanosecond time line (the three fraction digits of the input are read as
   nanoseconds, so only their order matters). `Min` and `Max` stand for
   `LocalDateTime.MIN` and `LocalDateTime.MAX`, which lie before and after
   every timestamp a four-digit year can produce.
   */
  datatype Instant = Min | At(nanos: int) | Max

  /** `a.isBefore(b)`: the order of the time line, with `MIN` before and
      `MAX` after every other instant. */
  function IsBefore(a: Instant, b: Instant): (r: bool)
    ensures a.At? && b.At? ==> (r <==> a.nanos < b.nanos)
    ensures a == Min ==> (r <==> b != Min)
    ensures b == Max ==> (r <==> a != Max)
    ensures a == Max || b == Min ==> !r
  {
    if a.At? && b.At? then a.nanos < b.nanos
    else (a.Min? && !b.Min?) || (!a.Max? && b.Max?)
  }

  /** `a.isAfter(b)`: on distinct instants, exactly when `a` is not before `b`. */
  function IsAfter(a: Instant, b: Instant): (r: bool)
    ensures r ==> !IsBefore(a, b) && a != b
    ensures a != b ==> (r <==> !IsBefore(a, b))
  {
    IsBefore(b, a)
  }

  /** `isBefore` is a strict total order on instants. */
  lemma IsBeforeStrictTotalOrder(a: Instant, b: Instant, c: Instant)
    ensures !IsBefore(a, a)
    ensures IsBefore(a, b) ==> !IsBefore(b, a)
    ensures a != b ==> IsBefore(a, b) || IsBefore(b, a)
    ensures IsBefore(a, b) && IsBefore(b, c) ==> IsBefore(a, c)
  {
  }

  /** The two alert severities and their JSON spellings (RED_LOW_ALERT, RED_HIGH_ALERT). */
  datatype Severity = RedLow | RedHigh

  function SeverityLabel(sev: Severity): (name: string)
    ensures name == "RED LOW" <==> sev == RedLow
    ensures name == "RED HIGH" <==> sev == RedHigh
  {
    match sev
    case RedLow => "RED LOW"
    case RedHigh => "RED HIGH"
  }

  /** The numeric fields of a line: satellite id, red high limit, red low
      limit and raw value, in the order they are parsed. */
  datatype Reading = Reading(satelliteId: int, redHighLimit: int, redLowLimit: int, rawValue: Double)

  /**
   One line whose timestamp passed validation. `reading` is `None` when one
   of the numeric fields does not parse; `component` is the raw text of the
   component field, which is only ever copied into an alert.
   */
  datatype Record = Record(timestamp: int, reading: Option<Reading>, component: string)

  /** The reading lies below its red low limit (line 166). */
  predicate IsLowBreach(n: Reading)
  {
    LessThan(n.rawValue, n.redLowLimit)
  }

  /** The reading lies above its red high limit (line 178). */
  predicate IsHighBreach(n: Reading)
  {
    GreaterThan(n.rawValue, n.redHighLimit)
  }

  /** The breach a severity counts. */
  predicate IsBreach(n: Reading, sev: Severity)
  {
    match sev
    case RedLow => IsLowBreach(n)
    case RedHigh => IsHighBreach(n)
  }
}
