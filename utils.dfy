/**
 * The shared helpers: billing-period dates, the text progress bar, duration
 * and count formatting, string truncation, guarded division and the timing
 * bucket. Dates follow Python's `datetime.date`: proleptic Gregorian, years
 * 1 to 9999, and `None` wherever `date` would raise.
 */
module Utils {
  import opened Wrappers
  import Decimal
  import Text
  import Numbers
  import opened Timestamps

  // ------------------------------------------------------------------ dates

  datatype Date = Date(year: int, month: int, day: int)

  predicate IsLeap(year: int)
  {
    year % 4 == 0 && (year % 100 != 0 || year % 400 == 0)
  }

  function DaysInMonth(year: int, month: int): (n: int)
    ensures 28 <= n <= 31
  {
    if month == 2 then (if IsLeap(year) then 29 else 28)
    else if month == 4 || month == 6 || month == 9 || month == 11 then 30
    else 31
  }

  /** A day `datetime.date` can hold. */
  predicate Valid(d: Date)
  {
    1 <= d.year <= 9999 && 1 <= d.month <= 12 && 1 <= d.day <= DaysInMonth(d.year, d.month)
  }

  /** `a <= b` on dates. */
  predicate AtOrBefore(a: Date, b: Date)
  {
    a.year < b.year || (a.year == b.year && (a.month < b.month || (a.month == b.month && a.day <= b.day)))
  }

  /** `date(year, month, day)`, or `None` where it raises. */
  function MakeDate(year: int, month: int, day: int): (r: Option<Date>)
    ensures r.Some? <==> Valid(Date(year, month, day))
    ensures r.Some? ==> r.value == Date(year, month, day)
  {
    if Valid(Date(year, month, day)) then Some(Date(year, month, day)) else None
  }

  /** `d.replace(day=1) - timedelta(days=1)`, which overflows before year 1. */
  function LastOfPreviousMonth(d: Date): (r: Option<Date>)
    requires Valid(d)
    ensures r.Some? ==> Valid(r.value) && r.value.day == DaysInMonth(r.value.year, r.value.month)
    ensures r.Some? ==> AtOrBefore(r.value, d) && r.value != d
    ensures r.None? <==> d.year == 1 && d.month == 1
  {
    if d.month > 1 then Some(Date(d.year, d.month - 1, DaysInMonth(d.year, d.month - 1)))
    else if d.year > 1 then Some(Date(d.year - 1, 12, 31))
    else None
  }

  /** `get_subscription_period_start(start_day, reference_date)`. */
  function PeriodStart(startDay: int, ref: Date): Option<Date>
    requires Valid(ref)
  {
    if ref.day >= startDay then MakeDate(ref.year, ref.month, startDay)
    else
      match LastOfPreviousMonth(ref)
      case None => None
      case Some(last) => MakeDate(last.year, last.month, if startDay < last.day then startDay else last.day)
  }

  /**
   * On or after the billing day the period began this month on that day;
   * before it, the period began last month, on that day or on the month's
   * last day when the month is shorter. Either way it is not after the
   * reference day.
   */
  lemma PeriodStartSpec(startDay: int, ref: Date)
    requires Valid(ref)
    ensures startDay < 1 ==> PeriodStart(startDay, ref).None?
    ensures 1 <= startDay <= ref.day ==> PeriodStart(startDay, ref) == Some(Date(ref.year, ref.month, startDay))
    ensures ref.day < startDay && ref.month > 1 ==>
              PeriodStart(startDay, ref)
              == Some(Date(ref.year, ref.month - 1, if startDay < DaysInMonth(ref.year, ref.month - 1) then startDay else DaysInMonth(ref.year, ref.month - 1)))
    ensures ref.day < startDay && ref.month == 1 && ref.year > 1 ==>
              PeriodStart(startDay, ref) == Some(Date(ref.year - 1, 12, if startDay < 31 then startDay else 31))
    ensures PeriodStart(startDay, ref).Some? ==> Valid(PeriodStart(startDay, ref).value) && AtOrBefore(PeriodStart(startDay, ref).value, ref)
  {
  }

  /** `get_next_renewal_date(start_day, reference_date)`. */
  function NextRenewal(startDay: int, ref: Date): Option<Date>
    requires Valid(ref)
  {
    if ref.day >= startDay then
      if ref.month + 1 > 12 then MakeDate(ref.year + 1, 1, startDay)
      else MakeDate(ref.year, ref.month + 1, startDay)
    else MakeDate(ref.year, ref.month, startDay)
  }

  /**
   * The renewal falls on the billing day of next month (January of next year
   * after December) once this month's billing day is reached, else of this
   * month; there is no renewal where that day does not exist. It is always
   * after the reference day.
   */
  lemma NextRenewalSpec(startDay: int, ref: Date)
    requires Valid(ref)
    ensures ref.day >= startDay && ref.month < 12 ==> NextRenewal(startDay, ref) == MakeDate(ref.year, ref.month + 1, startDay)
    ensures ref.day >= startDay && ref.month == 12 ==> NextRenewal(startDay, ref) == MakeDate(ref.year + 1, 1, startDay)
    ensures ref.day < startDay ==> NextRenewal(startDay, ref) == MakeDate(ref.year, ref.month, startDay)
    ensures NextRenewal(startDay, ref).Some? ==> NextRenewal(startDay, ref).value.day == startDay
    ensures NextRenewal(startDay, ref).Some? ==> AtOrBefore(ref, NextRenewal(startDay, ref).value) && NextRenewal(startDay, ref).value != ref
  {
  }

  /** A billing day every month has, away from the ends of the calendar, gives a period around the reference day. */
  lemma BillingPeriodBrackets(startDay: int, ref: Date)
    requires Valid(ref) && 1 <= startDay <= 28 && 1 < ref.year < 9999
    ensures PeriodStart(startDay, ref).Some? && NextRenewal(startDay, ref).Some?
    ensures AtOrBefore(PeriodStart(startDay, ref).value, ref)
    ensures AtOrBefore(ref, NextRenewal(startDay, ref).value) && NextRenewal(startDay, ref).value != ref
    ensures PeriodStart(startDay, ref).value.day == startDay && NextRenewal(startDay, ref).value.day == startDay
  {
    PeriodStartSpec(startDay, ref);
    NextRenewalSpec(startDay, ref);
  }

  // ------------------------------------------------------------ progress bar

  const FILLED_CHAR: char := '█'
  const EMPTY_CHAR: char := ' '
  const PROGRESS_BAR_WIDTH: int := 40

  /** `"[" + filled cells + empty cells + "]"` with `width` cells in all. */
  function Bar(filled: int, width: int): string
  {
    "[" + Text.Repeat(FILLED_CHAR, filled) + Text.Repeat(EMPTY_CHAR, width - filled) + "]"
  }

  /** `create_progress_bar(percentage, width)`: the percentage clamped to [0, 100]. */
  function ProgressBar(percentage: real, width: int): string
  {
    Bar(FilledCells(percentage, width), width)
  }

  /** `int(width * percentage / 100)` after the clamp. */
  function FilledCells(percentage: real, width: int): int
  {
    Numbers.Trunc(width as real * Numbers.Clamp(percentage, 0.0, 100.0) / 100.0)
  }

  /** How many cells `percentage` fills in a bar of `width` cells. */
  function Filled(percentage: real, width: nat): (f: nat)
    ensures f <= width
  {
    var p := Numbers.Clamp(percentage, 0.0, 100.0);
    assert 0.0 <= width as real * p <= width as real * 100.0;
    (width as real * p / 100.0).Floor
  }

  /**
   * The bar is `width` cells between brackets: first the filled ones, as many
   * as the clamped percentage's share of the width rounded down, then the
   * empty ones.
   */
  lemma ProgressBarLayout(percentage: real, width: nat)
    ensures |ProgressBar(percentage, width)| == width + 2
    ensures ProgressBar(percentage, width)[0] == '[' && ProgressBar(percentage, width)[width + 1] == ']'
    ensures forall i | 1 <= i <= width ::
              ProgressBar(percentage, width)[i] == (if i <= Filled(percentage, width) then FILLED_CHAR else EMPTY_CHAR)
  {
    var f := Filled(percentage, width);
    assert FilledCells(percentage, width) == f;
    var bar := ProgressBar(percentage, width);
    var full, rest := Text.Repeat(FILLED_CHAR, f), Text.Repeat(EMPTY_CHAR, width - f);
    assert bar == "[" + full + rest + "]";
    forall i | 1 <= i <= width ensures bar[i] == (if i <= f then FILLED_CHAR else EMPTY_CHAR) {
      if i <= f {
        assert bar[i] == full[i - 1];
      } else {
        assert bar[i] == rest[i - 1 - f];
      }
    }
  }

  /** Percentages outside [0, 100] draw like the nearest end. */
  lemma ProgressBarClamps(percentage: real, width: int)
    ensures percentage <= 0.0 ==> ProgressBar(percentage, width) == ProgressBar(0.0, width)
    ensures percentage >= 100.0 ==> ProgressBar(percentage, width) == ProgressBar(100.0, width)
  {
    if percentage <= 0.0 {
      assert Numbers.Clamp(percentage, 0.0, 100.0) == Numbers.Clamp(0.0, 0.0, 100.0);
    } else if percentage >= 100.0 {
      assert Numbers.Clamp(percentage, 0.0, 100.0) == Numbers.Clamp(100.0, 0.0, 100.0);
    }
  }

  /** A bar at 0% is all empty cells. */
  lemma ProgressBarEmpty(width: int)
    ensures ProgressBar(0.0, width) == "[" + Text.Repeat(EMPTY_CHAR, width) + "]"
  {
    FilledCellsEnds(width);
    assert Text.Repeat(FILLED_CHAR, 0) == [];
  }

  /** A bar at 100% is all filled cells. */
  lemma ProgressBarFull(width: int)
    ensures ProgressBar(100.0, width) == "[" + Text.Repeat(FILLED_CHAR, width) + "]"
  {
    FilledCellsEnds(width);
    assert Text.Repeat(EMPTY_CHAR, 0) == [];
  }

  lemma FilledCellsEnds(width: int)
    ensures FilledCells(0.0, width) == 0 && FilledCells(100.0, width) == width
  {
    var w := width as real;
    assert Numbers.Clamp(0.0, 0.0, 100.0) == 0.0 && w * 0.0 / 100.0 == 0.0;
    assert Numbers.Clamp(100.0, 0.0, 100.0) == 100.0 && w * 100.0 / 100.0 == w;
  }

  // -------------------------------------------------------------- durations

  /** `"<h>h <mm>m"`. */
  function HoursMinutes(hours: string, minutes: nat): string
  {
    hours + "h " + Decimal.ZeroPad(Decimal.NatToString(minutes), 2) + "m"
  }

  /** `format_timedelta(td)` for a duration in microseconds. */
  function FormatTimedelta(duration: int): string
  {
    var total := TruncDiv(duration, SECOND);
    if total < 0 then "0h 00m"
    else HoursMinutes(Decimal.NatToString(total / 3600), (total % 3600) / 60)
  }

  /**
   * A negative duration reads "0h 00m"; otherwise the text is the whole
   * hours and the two-digit whole minutes left over, with the seconds dropped.
   */
  lemma FormatTimedeltaSpec(duration: int) returns (hours: nat, minutes: nat)
    ensures duration < 0 ==> FormatTimedelta(duration) == "0h 00m"
    ensures duration >= 0 ==>
              minutes < 60 && hours * 3600 + minutes * 60 <= duration / SECOND < hours * 3600 + minutes * 60 + 60
              && FormatTimedelta(duration) == HoursMinutes(Decimal.NatToString(hours), minutes)
    ensures minutes < 60 && |Decimal.ZeroPad(Decimal.NatToString(minutes), 2)| == 2
    ensures Decimal.ParseDigits(Decimal.ZeroPad(Decimal.NatToString(minutes), 2)) == Some(minutes)
  {
    var total := TruncDiv(duration, SECOND);
    if total >= 0 {
      hours, minutes := total / 3600, (total % 3600) / 60;
    } else {
      hours, minutes := 0, 0;
    }
    ZeroPadMinutes(minutes);
  }

  /** A two-digit rendering of a minute count below 60 reads back as that count. */
  lemma ZeroPadMinutes(minutes: nat)
    requires minutes < 60
    ensures |Decimal.ZeroPad(Decimal.NatToString(minutes), 2)| == 2
    ensures Decimal.ParseDigits(Decimal.ZeroPad(Decimal.NatToString(minutes), 2)) == Some(minutes)
  {
    var s := Decimal.NatToString(minutes);
    Decimal.ParseNatToString(minutes);
    if minutes < 10 {
      var r := Decimal.ZeroPad(s, 2);
      assert r == "0" + s;
      assert Decimal.ParseDigits(r[..1]) == Some(0);
    } else {
      assert |Decimal.NatToString(minutes / 10)| == 1;
    }
  }

  // ------------------------------------------------------------- truncation

  /** `s[:k]` with Python's slice bounds: a negative `k` counts from the end. */
  function SlicePrefix<T>(s: seq<T>, k: int): (r: seq<T>)
    ensures r == s[..if k < 0 then (if |s| + k < 0 then 0 else |s| + k) else if k > |s| then |s| else k]
  {
    if k < 0 then (if |s| + k < 0 then [] else s[..|s| + k])
    else if k > |s| then s
    else s[..k]
  }

  /** `truncate_string(text, max_length, suffix)` as written. */
  function TruncateString(text: string, maxLength: int, suffix: string): string
  {
    if |text| <= maxLength then text else SlicePrefix(text, maxLength - |suffix|) + suffix
  }

  /** A text within the limit is kept; a longer one is cut to the limit with the suffix last. */
  lemma TruncateStringFits(text: string, maxLength: int, suffix: string)
    ensures |text| <= maxLength ==> TruncateString(text, maxLength, suffix) == text
    ensures |text| > maxLength >= |suffix| ==>
              |TruncateString(text, maxLength, suffix)| == maxLength
              && TruncateString(text, maxLength, suffix) == text[..maxLength - |suffix|] + suffix
  {
  }

  /** With a limit shorter than the suffix the slice bound goes negative and keeps most of the text. */
  lemma TruncateStringOverlong()
    ensures TruncateString("abcdef", 2, "...") == "abcde..."
    ensures |TruncateString("abcdef", 2, "...")| > |"abcdef"|
  {
    assert SlicePrefix("abcdef", -1) == "abcde";
  }

  /** `truncate_string` with the prefix length kept at zero or more, and the suffix cut when even it does not fit. */
  function TruncateClamped(text: string, maxLength: int, suffix: string): string
  {
    if |text| <= maxLength then text
    else if maxLength >= |suffix| then text[..maxLength - |suffix|] + suffix
    else if maxLength <= 0 then []
    else suffix[..maxLength]
  }

  /** The corrected truncation never exceeds the limit and never lengthens the text. */
  lemma TruncateClampedBound(text: string, maxLength: int, suffix: string)
    ensures |TruncateClamped(text, maxLength, suffix)| <= |text|
    ensures maxLength >= 0 ==> |TruncateClamped(text, maxLength, suffix)| <= maxLength
    ensures |text| > maxLength >= 0 ==> |TruncateClamped(text, maxLength, suffix)| == maxLength
    ensures maxLength >= |suffix| ==> TruncateClamped(text, maxLength, suffix) == TruncateString(text, maxLength, suffix)
  {
  }

  // ---------------------------------------------------------------- ratios

  /** `safe_divide(numerator, denominator, default)`. */
  function SafeDivide(numerator: real, denominator: real, default: real): real
  {
    if denominator == 0.0 then default else numerator / denominator
  }

  /** Division by zero gives the default; any other division multiplies back. */
  lemma SafeDivideSpec(numerator: real, denominator: real, default: real)
    ensures denominator == 0.0 ==> SafeDivide(numerator, denominator, default) == default
    ensures denominator != 0.0 ==> SafeDivide(numerator, denominator, default) * denominator == numerator
  {
  }

  /** `calculate_percentage(part, total)`. */
  function Percentage(part: real, total: real): (r: real)
    ensures 0.0 <= r <= 100.0
  {
    if total <= 0.0 then 0.0 else Numbers.Clamp(part / total * 100.0, 0.0, 100.0)
  }

  /** No positive total gives 0; a part within the total gives its exact share. */
  lemma PercentageSpec(part: real, total: real)
    ensures total <= 0.0 ==> Percentage(part, total) == 0.0
    ensures total > 0.0 && 0.0 <= part <= total ==> Percentage(part, total) * total == part * 100.0
    ensures total > 0.0 && part >= total ==> Percentage(part, total) == 100.0
    ensures total > 0.0 && part <= 0.0 ==> Percentage(part, total) == 0.0
  {
    if total > 0.0 {
      var q := part / total;
      assert q * total == part;
      if 0.0 <= part <= total {
        assert 0.0 <= q <= 1.0;
      } else if part >= total {
        if q < 1.0 {
          assert false;
        }
      } else {
        assert q <= 0.0;
      }
    }
  }

  // ------------------------------------------------------------------ timing

  /** The list `get_work_timing_suggestion` draws from; the draw itself is random and not modelled. */
  datatype Mood = Positive | Moderate | Skeptical | Critical

  function MoodRank(m: Mood): nat
  {
    match m
    case Positive => 0
    case Moderate => 1
    case Skeptical => 2
    case Critical => 3
  }

  /** The list for the minute of the hour. */
  function TimingBucket(minute: int): Mood
  {
    if minute <= 15 then Positive
    else if minute <= 30 then Moderate
    else if minute <= 45 then Skeptical
    else Critical
  }

  /** Later in the hour never gives a more hopeful list, and each quarter has its own list. */
  lemma TimingBucketOrder(m1: int, m2: int)
    ensures m1 <= m2 ==> MoodRank(TimingBucket(m1)) <= MoodRank(TimingBucket(m2))
    ensures 0 <= m1 <= 59 ==> MoodRank(TimingBucket(m1)) == (if m1 == 0 then 0 else (m1 - 1) / 15)
  {
  }
}
