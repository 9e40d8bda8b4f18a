/** The field validators of bob_wemo_service/tools/field_checkers.py: an
    integer range check and a timestamp normaliser. The three regular
    expressions become predicates over the characters of a string. */
module FieldCheckers {
  import opened Wrappers
  import opened Text
  import opened Values

  // ---------------------------------------------------------------------
  // in_int_range
  // ---------------------------------------------------------------------

  /** `in_int_range(value, low, high) is True`: an int lies in the range, or
      a string parses as an int that does; a parse failure and any other
      kind of value (for which the source returns `None`) give false. */
  function InIntRange(value: Value, low: int, high: int): (r: bool)
    ensures value.IntV? ==> (r <==> low <= value.i <= high)
    ensures value.StrV? ==>
      (r <==> ParseInt(value.s).Some? && low <= ParseInt(value.s).value <= high)
    ensures !value.IntV? && !value.StrV? ==> !r
  {
    match value
    case StrV(s) =>
      (match ParseInt(s)
       case Some(n) => low <= n <= high
       case None => false)
    case IntV(n) => low <= n <= high
    case _ => false
  }

  /** An int and its decimal string pass or fail the range check together,
      so a value stored as `str(value)` still passes the check it passed. */
  lemma InIntRangeOfText(n: int, low: int, high: int)
    ensures InIntRange(StrV(IntToString(n)), low, high) == InIntRange(IntV(n), low, high)
  {
    ParseIntToString(n);
  }

  /** The empty string never passes the range check: an empty field stays
      empty when it is stored again. */
  lemma EmptyOutOfRange(low: int, high: int)
    ensures !InIntRange(StrV(""), low, high)
  {
  }

  // ---------------------------------------------------------------------
  // the three regular expressions, as full matches
  // ---------------------------------------------------------------------

  /** `(0[0-9])|(1[0-2])` */
  predicate MonthText(a: char, b: char) { (a == '0' && IsDigit(b)) || (a == '1' && '0' <= b <= '2') }

  /** `([0-2][0-9])|(3[0-1])` */
  predicate DayText(a: char, b: char) { ('0' <= a <= '2' && IsDigit(b)) || (a == '3' && '0' <= b <= '1') }

  /** `([0-1][0-9])|(2[0-3])` */
  predicate HourText(a: char, b: char) { ('0' <= a <= '1' && IsDigit(b)) || (a == '2' && '0' <= b <= '3') }

  /** `[0-5][0-9]` */
  predicate SixtyText(a: char, b: char) { '0' <= a <= '5' && IsDigit(b) }

  /** `re.fullmatch(DATE_REGEX, s)`: `YYYY-MM-DD` with the month and day
      patterns above. */
  predicate IsDateText(s: string)
  {
    |s| == 10 && AllDigits(s[..4]) && s[4] == '-' && MonthText(s[5], s[6]) &&
    s[7] == '-' && DayText(s[8], s[9])
  }

  /** `re.fullmatch(TIME_REGEX, s)`: `HH:MM:SS`, optionally followed by a
      dot and one to six digits. */
  predicate IsTimeText(s: string)
  {
    |s| >= 8 && HourText(s[0], s[1]) && s[2] == ':' && SixtyText(s[3], s[4]) &&
    s[5] == ':' && SixtyText(s[6], s[7]) &&
    (|s| == 8 || (10 <= |s| <= 15 && s[8] == '.' && AllDigits(s[9..])))
  }

  /** `re.fullmatch(DATETIME_REGEX, s)`: a date, one space, a time. */
  predicate IsDateTimeText(s: string)
  {
    |s| >= 19 && IsDateText(s[..10]) && s[10] == ' ' && IsTimeText(s[11..])
  }

  /** The three patterns never match the same string, so the order in
      which the source tries them (date, then time, then datetime) only
      decides which branch runs, never which pattern is hidden by another. */
  lemma PatternsExclusive(s: string)
    ensures !(IsDateText(s) && IsTimeText(s))
    ensures !(IsDateText(s) && IsDateTimeText(s))
    ensures !(IsTimeText(s) && IsDateTimeText(s))
  {
  }

  // ---------------------------------------------------------------------
  // is_valid_datetime
  // ---------------------------------------------------------------------

  /** A value the timestamp field can hold: empty (the initial value) or a
      full `YYYY-MM-DD HH:MM:SS` datetime of exactly 19 characters. */
  predicate IsStamp(s: string)
  {
    s == "" || (|s| == 19 && IsDateTimeText(s))
  }

  /** `is_valid_datetime(value, initial_value)`, with `now` standing for the
      clock reading `datetime.datetime.now()`. A datetime object is rendered;
      a date object is merged with the current time of day and a time object
      with the current date; a string is matched against the date, time and
      datetime patterns in that order; anything else gives back the initial
      value. Every accepted result is cut to 19 characters. A date string
      naming no calendar day (year 0000, month 00, day 00, 30 February, ...)
      makes `datetime.date` raise, and a time string with a fraction makes
      `int()` raise on the seconds: both are `ValueError`. */
  function IsValidDatetime(value: Value, initial: string, now: Timestamp): (r: Outcome<string>)
    ensures r.Ok? ==> |r.value| <= 19
    ensures r.ValueError? ==> value.StrV? && (IsDateText(value.s) || IsTimeText(value.s))
    ensures value.StrV? && IsDateTimeText(value.s) ==> r == Ok(value.s[..19])
    ensures value.StrV? && !IsDateText(value.s) && !IsTimeText(value.s) && !IsDateTimeText(value.s)
      ==> r == Ok(Take(initial, 19))
    ensures value.IntV? || value.OtherV? ==> r == Ok(Take(initial, 19))
  {
    match value
    case DateTimeV(dt) => Ok(Take(RenderDateTime(dt), 19))
    case DateV(d) => Ok(Take(RenderDateTime(DateTime(d, now.time)), 19))
    case TimeV(t) => Ok(Take(RenderDateTime(DateTime(now.date, t)), 19))
    case StrV(s) =>
      if IsDateText(s) then
        var d := DateOfText(s);
        if ValidDate(d) then Ok(Take(RenderDateTime(DateTime(d, now.time)), 19))
        else ValueError
      else if IsTimeText(s) then
        if |s| == 8 then
          var t := TimeOfText(s);
          Ok(Take(RenderDateTime(DateTime(now.date, t)), 19))
        else ValueError
      else if IsDateTimeText(s) then Ok(Take(s, 19))
      else Ok(Take(initial, 19))
    case _ => Ok(Take(initial, 19))
  }

  /** `datetime.date(int(s[0:4]), int(s[5:7]), int(s[8:]))` before its range check. */
  function DateOfText(s: string): Date
    requires IsDateText(s)
  {
    Date(DigitsValue(s[..4]), DigitsValue(s[5..7]), DigitsValue(s[8..]))
  }

  /** `datetime.time(int(s[0:2]), int(s[3:5]), int(s[6:]))` for a time string
      without a fraction; it always names a valid time of day, because the
      pattern admits hours up to 23 and minutes and seconds up to 59. */
  function TimeOfText(s: string): (t: Time)
    requires IsTimeText(s) && |s| == 8
    ensures ValidTime(t)
  {
    TwoDigits(s[..2]);
    TwoDigits(s[3..5]);
    TwoDigits(s[6..]);
    Time(DigitsValue(s[..2]), DigitsValue(s[3..5]), DigitsValue(s[6..]), 0)
  }

  lemma TwoDigits(p: string)
    requires |p| == 2 && AllDigits(p)
    ensures DigitsValue(p) == DigitValue(p[0]) * 10 + DigitValue(p[1])
  {
    assert p[..|p| - 1] == [p[0]];
    assert [p[0]][..0] == [];
    assert DigitsValue([p[0]]) == DigitsValue([]) * 10 + DigitValue(p[0]);
  }

  /** Two zero-padded digits of a number below 100. */
  lemma PadTwo(n: nat)
    requires n < 100
    ensures Pad(n, 2) == [DigitChar(n / 10), DigitChar(n % 10)]
  {
    var t := n / 10;
    assert t < 10 && t % 10 == t && t / 10 == 0;
    assert Pad(t, 1) == [DigitChar(t)];
    assert Pad(n, 2) == Pad(t, 1) + [DigitChar(n % 10)];
  }

  /** `str()` of a date Python can hold matches the date pattern. */
  lemma RenderedDateMatches(d: CalendarDate)
    ensures IsDateText(RenderDate(d))
  {
    PadTwo(d.month);
    PadTwo(d.day);
    var y := Pad(d.year, 4);
    var s := RenderDate(d);
    assert s == y + "-" + Pad(d.month, 2) + "-" + Pad(d.day, 2);
    assert s[..4] == y;
  }

  /** The `HH:MM:SS` of a time Python can hold matches the time pattern. */
  lemma RenderedClockMatches(t: ClockTime)
    ensures IsTimeText(RenderClock(t))
  {
    PadTwo(t.hour);
    PadTwo(t.minute);
    PadTwo(t.second);
  }

  /** The first 19 characters of `str()` of any datetime Python can hold
      form a stamp. */
  lemma RenderedIsStamp(dt: Timestamp)
    ensures IsStamp(Take(RenderDateTime(dt), 19))
  {
    RenderedDateMatches(dt.date);
    RenderedClockMatches(dt.time);
    RenderedPrefix(dt);
    JoinMatches(RenderDate(dt.date), RenderClock(dt.time));
  }

  /** The first 19 characters of `str()` of a datetime are its date, a
      space and its `HH:MM:SS`. */
  lemma RenderedPrefix(dt: Timestamp)
    ensures Take(RenderDateTime(dt), 19) == RenderDate(dt.date) + " " + RenderClock(dt.time)
  {
    var date, clock := RenderDate(dt.date), RenderClock(dt.time);
    assert RenderDateTime(dt) == date + " " + clock + (if dt.time.micro > 0 then "." + Pad(dt.time.micro, 6) else "");
  }

  /** A date, a space and a whole-second time make a 19-character datetime. */
  lemma JoinMatches(date: string, clock: string)
    requires IsDateText(date) && IsTimeText(clock) && |clock| == 8
    ensures IsStamp(date + " " + clock)
  {
    var s := date + " " + clock;
    assert s[..10] == date;
    assert s[11..] == clock;
  }

  /** The first 19 characters of a string matching the datetime pattern
      match it too: they drop only the optional fraction of the seconds. */
  lemma DateTimePrefixMatches(s: string)
    requires IsDateTimeText(s)
    ensures IsStamp(s[..19])
  {
    var r := s[..19];
    var tm := s[11..];
    assert r[..10] == s[..10];
    assert r[11..] == tm[..8];
  }

  /** A stamp fed back to the validator comes back unchanged: the check is
      idempotent on its own datetime output. */
  lemma StampIsFixedPoint(s: string, initial: string, now: Timestamp)
    requires IsStamp(s) && s != ""
    ensures IsValidDatetime(StrV(s), initial, now) == Ok(s)
  {
  }

  /** The empty string matches no pattern, so it gives back the initial
      value (which is how an empty timestamp survives a decode). */
  lemma EmptyKeepsInitial(initial: string, now: Timestamp)
    ensures IsValidDatetime(StrV(""), initial, now) == Ok(Take(initial, 19))
  {
  }

  /** Whatever the value, a field that holds a stamp still holds a stamp
      after the check: the result is a stamp or the kept initial value. */
  lemma ValidDatetimeKeepsStamp(value: Value, initial: string, now: Timestamp)
    requires IsStamp(initial)
    ensures IsValidDatetime(value, initial, now).Ok? ==>
            IsStamp(IsValidDatetime(value, initial, now).value)
  {
    match value
    case DateTimeV(dt) => RenderedIsStamp(dt);
    case DateV(d) => RenderedIsStamp(DateTime(d, now.time));
    case TimeV(t) => RenderedIsStamp(DateTime(now.date, t));
    case StrV(s) =>
      if IsDateText(s) {
        var d := DateOfText(s);
        if ValidDate(d) { RenderedIsStamp(DateTime(d, now.time)); }
      } else if IsTimeText(s) {
        if |s| == 8 { RenderedIsStamp(DateTime(now.date, TimeOfText(s))); }
      } else if IsDateTimeText(s) {
        DateTimePrefixMatches(s);
      }
    case IntV(_) =>
    case OtherV(_) =>
  }
}
