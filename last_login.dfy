/**
 * `formatLastLogin` (app/utils/lastLoginFormatter.ts): the age of a last-login
 * timestamp as "Just now", "{m}m ago", "{h}h ago", "{d}d ago" or a calendar date.
 *
 * Timestamps are integer milliseconds. For a positive divisor Dafny's `/` on
 * `int` rounds towards negative infinity, exactly as `Math.floor(a / b)` does,
 * so future timestamps (negative differences) are covered as in the source.
 */
module LastLoginFormatter {
  import opened Wrappers
  import Decimal

  const MsPerMinute := 1000 * 60
  const MsPerHour := 1000 * 60 * 60
  const MsPerDay := 1000 * 60 * 60 * 24

  /** Which line of the if-chain produced the text. */
  datatype Bucket = JustNow | MinutesAgo(minutes: nat) | HoursAgo(hours: nat) | DaysAgo(days: nat) | CalendarDate

  /** Coarseness of a bucket: later buckets use coarser units. */
  function Rank(b: Bucket): nat {
    match b
    case JustNow => 0
    case MinutesAgo(_) => 1
    case HoursAgo(_) => 2
    case DaysAgo(_) => 3
    case CalendarDate => 4
  }

  /** The source's if-chain over the three floored quotients. */
  function Classify(diffMs: int): (b: Bucket)
    ensures b.MinutesAgo? ==> 1 <= b.minutes <= 59
    ensures b.HoursAgo? ==> 1 <= b.hours <= 23
    ensures b.DaysAgo? ==> 1 <= b.days <= 7
  {
    var diffMinutes := diffMs / MsPerMinute;
    var diffHours := diffMs / MsPerHour;
    var diffDays := diffMs / MsPerDay;
    if diffMinutes < 1 then JustNow
    else if diffMinutes < 60 then MinutesAgo(diffMinutes)
    else if diffHours < 24 then
      assert diffMs >= MsPerHour;
      HoursAgo(diffHours)
    else if diffDays <= 7 then
      assert diffMs >= MsPerDay;
      DaysAgo(diffDays)
    else CalendarDate
  }

  /**
   * The same buckets stated as half-open spans of the raw difference, with no
   * rounding in the conditions: an independent reading of the thresholds.
   */
  function BucketBySpan(diffMs: int): Bucket {
    if diffMs < MsPerMinute then JustNow
    else if diffMs < MsPerHour then MinutesAgo(diffMs / MsPerMinute)
    else if diffMs < MsPerDay then HoursAgo(diffMs / MsPerHour)
    else if diffMs < 8 * MsPerDay then DaysAgo(diffMs / MsPerDay)
    else CalendarDate
  }

  /** The if-chain agrees with the span reading on every difference. */
  lemma ClassifyBySpan(diffMs: int)
    ensures Classify(diffMs) == BucketBySpan(diffMs)
  {
  }

  /** Under one minute, including every future timestamp, is "Just now"; and nothing else is. */
  lemma JustNowExactly(diffMs: int)
    ensures Classify(diffMs) == JustNow <==> diffMs < MsPerMinute
  {
    ClassifyBySpan(diffMs);
  }

  /** From one minute up to, not including, one hour: the whole minutes elapsed. */
  lemma MinutesExactly(diffMs: int)
    ensures Classify(diffMs).MinutesAgo? <==> MsPerMinute <= diffMs < MsPerHour
    ensures Classify(diffMs).MinutesAgo? ==> Classify(diffMs).minutes == diffMs / MsPerMinute
  {
    ClassifyBySpan(diffMs);
  }

  /** From one hour up to, not including, one day: the whole hours elapsed. */
  lemma HoursExactly(diffMs: int)
    ensures Classify(diffMs).HoursAgo? <==> MsPerHour <= diffMs < MsPerDay
    ensures Classify(diffMs).HoursAgo? ==> Classify(diffMs).hours == diffMs / MsPerHour
  {
    ClassifyBySpan(diffMs);
  }

  /** Seven whole days still count as days, so the span reaches up to eight days. */
  lemma DaysExactly(diffMs: int)
    ensures Classify(diffMs).DaysAgo? <==> MsPerDay <= diffMs < 8 * MsPerDay
    ensures Classify(diffMs).DaysAgo? ==> Classify(diffMs).days == diffMs / MsPerDay
  {
    ClassifyBySpan(diffMs);
  }

  /** Eight days or more falls through to the calendar date. */
  lemma CalendarDateExactly(diffMs: int)
    ensures Classify(diffMs) == CalendarDate <==> diffMs >= 8 * MsPerDay
  {
    ClassifyBySpan(diffMs);
  }

  /** As the difference grows the bucket never moves to a finer unit, and within a unit the count never drops. */
  lemma ClassifyMonotone(a: int, b: int)
    requires a <= b
    ensures Rank(Classify(a)) <= Rank(Classify(b))
    ensures Rank(Classify(a)) == Rank(Classify(b)) ==> Count(Classify(a)) <= Count(Classify(b))
  {
    ClassifyBySpan(a);
    ClassifyBySpan(b);
  }

  /** The number shown by a relative bucket (0 for the others). */
  function Count(b: Bucket): nat {
    match b
    case MinutesAgo(m) => m
    case HoursAgo(h) => h
    case DaysAgo(d) => d
    case _ => 0
  }

  /** The text of a bucket; `formatDate(date, includeTime)` is the locale formatter, left abstract. */
  function Render(b: Bucket, dateMs: int, formatDate: (int, bool) -> string): (text: string)
    ensures b == JustNow ==> text == "Just now"
    ensures b.MinutesAgo? || b.HoursAgo? || b.DaysAgo? ==>
      text == Decimal.NatToString(Count(b)) + [UnitLetter(b)] + " ago"
    ensures b == CalendarDate ==> text == formatDate(dateMs, false)
  {
    match b
    case JustNow => "Just now"
    case MinutesAgo(m) => Decimal.NatToString(m) + "m ago"
    case HoursAgo(h) => Decimal.NatToString(h) + "h ago"
    case DaysAgo(d) => Decimal.NatToString(d) + "d ago"
    case CalendarDate => formatDate(dateMs, false)
  }

  /**
   * `formatLastLogin(dateValue)` with the clock reading `nowMs` as an input.
   * `None` stands for a falsy `dateValue` (`undefined` or the empty string).
   */
  function FormatLastLogin(dateValue: Option<int>, nowMs: int, formatDate: (int, bool) -> string): (text: string)
    ensures dateValue.None? ==> text == "Never"
    ensures dateValue.Some? ==> text == Render(BucketBySpan(nowMs - dateValue.value), dateValue.value, formatDate)
  {
    match dateValue
    case None => "Never"
    case Some(dateMs) =>
      ClassifyBySpan(nowMs - dateMs);
      Render(Classify(nowMs - dateMs), dateMs, formatDate)
  }

  /** The relative texts never collide: the text of a relative bucket determines the bucket. */
  lemma RenderInjective(b1: Bucket, b2: Bucket, dateMs: int, formatDate: (int, bool) -> string)
    requires b1 != CalendarDate && b2 != CalendarDate
    requires Render(b1, dateMs, formatDate) == Render(b2, dateMs, formatDate)
    ensures b1 == b2
  {
    var t := Render(b1, dateMs, formatDate);
    // only "Just now" starts with something other than a digit
    assert Decimal.IsDigit(t[0]) <==> b1 != JustNow;
    assert Decimal.IsDigit(Render(b2, dateMs, formatDate)[0]) <==> b2 != JustNow;
    if b1 != JustNow && b2 != JustNow {
      var n1 := Decimal.NatToString(Count(b1));
      var n2 := Decimal.NatToString(Count(b2));
      assert n1 == t[..|n1|] && n2 == t[..|n2|];
      assert |n1| == |n2| by {
        // the unit letter is the first character that is not a digit
        assert !Decimal.IsDigit(t[|n1|]) && !Decimal.IsDigit(t[|n2|]);
      }
      assert t[|n1|] == UnitLetter(b1) && t[|n2|] == UnitLetter(b2);
      Decimal.NatToStringInjective(Count(b1), Count(b2));
    }
  }

  function UnitLetter(b: Bucket): char {
    match b
    case MinutesAgo(_) => 'm'
    case HoursAgo(_) => 'h'
    case _ => 'd'
  }

  /** Worked examples: a login now, 5 minutes, 3 hours, 2 days and 10 days ago, and none. */
  lemma WorkedExamples(nowMs: int, formatDate: (int, bool) -> string)
    ensures FormatLastLogin(Some(nowMs), nowMs, formatDate) == "Just now"
    ensures FormatLastLogin(Some(nowMs - 5 * MsPerMinute), nowMs, formatDate) == "5m ago"
    ensures FormatLastLogin(Some(nowMs - 3 * MsPerHour), nowMs, formatDate) == "3h ago"
    ensures FormatLastLogin(Some(nowMs - 2 * MsPerDay), nowMs, formatDate) == "2d ago"
    ensures FormatLastLogin(Some(nowMs - 10 * MsPerDay), nowMs, formatDate) == formatDate(nowMs - 10 * MsPerDay, false)
    ensures FormatLastLogin(None, nowMs, formatDate) == "Never"
  {
    ExampleNow(nowMs, formatDate);
    ExampleMinutes(nowMs, formatDate);
    ExampleHours(nowMs, formatDate);
    ExampleDays(nowMs, formatDate);
    ExampleCalendar(nowMs, formatDate);
  }

  lemma ExampleNow(nowMs: int, formatDate: (int, bool) -> string)
    ensures FormatLastLogin(Some(nowMs), nowMs, formatDate) == "Just now"
  {
    assert BucketBySpan(nowMs - nowMs) == JustNow;
  }

  lemma ExampleMinutes(nowMs: int, formatDate: (int, bool) -> string)
    ensures FormatLastLogin(Some(nowMs - 5 * MsPerMinute), nowMs, formatDate) == "5m ago"
  {
    var m := nowMs - 5 * MsPerMinute;
    assert nowMs - m == 300000 && BucketBySpan(300000) == MinutesAgo(5);
    assert Decimal.NatToString(5) == "5";
  }

  lemma ExampleHours(nowMs: int, formatDate: (int, bool) -> string)
    ensures FormatLastLogin(Some(nowMs - 3 * MsPerHour), nowMs, formatDate) == "3h ago"
  {
    var h := nowMs - 3 * MsPerHour;
    assert nowMs - h == 10800000 && BucketBySpan(10800000) == HoursAgo(3);
    assert Decimal.NatToString(3) == "3";
  }

  lemma ExampleDays(nowMs: int, formatDate: (int, bool) -> string)
    ensures FormatLastLogin(Some(nowMs - 2 * MsPerDay), nowMs, formatDate) == "2d ago"
  {
    var d := nowMs - 2 * MsPerDay;
    assert nowMs - d == 172800000 && BucketBySpan(172800000) == DaysAgo(2);
    assert Decimal.NatToString(2) == "2";
  }

  lemma ExampleCalendar(nowMs: int, formatDate: (int, bool) -> string)
    ensures FormatLastLogin(Some(nowMs - 10 * MsPerDay), nowMs, formatDate) == formatDate(nowMs - 10 * MsPerDay, false)
  {
    var c := nowMs - 10 * MsPerDay;
    assert nowMs - c == 864000000 && BucketBySpan(864000000) == CalendarDate;
  }

}
