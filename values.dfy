/** The kinds of Python value the message setters and validators tell apart
    with `isinstance`, together with the calendar types of Python's
    `datetime` module and the text `str()` gives for each. */
module Values {
  import opened Text

  datatype Date = Date(year: int, month: int, day: int)
  datatype Time = Time(hour: int, minute: int, second: int, micro: int)
  datatype DateTime = DateTime(date: Date, time: Time)

  predicate IsLeapYear(y: int) { y % 4 == 0 && (y % 100 != 0 || y % 400 == 0) }

  function DaysInMonth(y: int, m: int): int
  {
    if m == 2 then (if IsLeapYear(y) then 29 else 28)
    else if m == 4 || m == 6 || m == 9 || m == 11 then 30
    else 31
  }

  /** What `datetime.date(y, m, d)` accepts without raising `ValueError`. */
  predicate ValidDate(d: Date)
  {
    1 <= d.year <= 9999 && 1 <= d.month <= 12 && 1 <= d.day <= DaysInMonth(d.year, d.month)
  }

  /** What `datetime.time(h, m, s, us)` accepts without raising `ValueError`. */
  predicate ValidTime(t: Time)
  {
    0 <= t.hour < 24 && 0 <= t.minute < 60 && 0 <= t.second < 60 && 0 <= t.micro < 1000000
  }

  /** Every `datetime.date`, `datetime.time` and `datetime.datetime` object
      Python can hold is in range. */
  type CalendarDate = d: Date | ValidDate(d) witness Date(1, 1, 1)
  type ClockTime = t: Time | ValidTime(t) witness Time(0, 0, 0, 0)
  type Timestamp = dt: DateTime | ValidDate(dt.date) && ValidTime(dt.time)
    witness DateTime(Date(1, 1, 1), Time(0, 0, 0, 0))

  /** A Python argument, told apart as the source does with `isinstance`;
      `OtherV` is any other object, carried with the text `str()` gives it. */
  datatype Value =
    | IntV(i: int)
    | StrV(s: string)
    | DateTimeV(dt: Timestamp)
    | DateV(d: CalendarDate)
    | TimeV(t: ClockTime)
    | OtherV(text: string)

  /** `str(date)`: `YYYY-MM-DD`. */
  function RenderDate(d: Date): string
  {
    Pad(if d.year < 0 then 0 else d.year, 4) + "-" +
    Pad(if d.month < 0 then 0 else d.month, 2) + "-" +
    Pad(if d.day < 0 then 0 else d.day, 2)
  }

  /** The `HH:MM:SS` part of `str(time)`. */
  function RenderClock(t: Time): (s: string)
    ensures |s| == 8
  {
    Pad(if t.hour < 0 then 0 else t.hour, 2) + ":" +
    Pad(if t.minute < 0 then 0 else t.minute, 2) + ":" +
    Pad(if t.second < 0 then 0 else t.second, 2)
  }

  /** `str(time)`: `HH:MM:SS`, followed by `.ffffff` when the microseconds
      are not zero. */
  function RenderTime(t: Time): string
  {
    RenderClock(t) + (if t.micro > 0 then "." + Pad(t.micro, 6) else "")
  }

  /** `str(datetime)`: the date, one space, the time. */
  function RenderDateTime(dt: DateTime): (s: string)
    ensures |s| >= 19
  {
    RenderDate(dt.date) + " " + RenderTime(dt.time)
  }

  /** Python's `str(value)`. */
  function Str(v: Value): string
  {
    match v
    case IntV(i) => IntToString(i)
    case StrV(s) => s
    case DateTimeV(dt) => RenderDateTime(dt)
    case DateV(d) => RenderDate(d)
    case TimeV(t) => RenderTime(t)
    case OtherV(text) => text
  }
}
