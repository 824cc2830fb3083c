/**
 * The caption of the dashboard's date button: the selected range is compared,
 * in a fixed order, with ranges computed from today's date, and the first
 * preset it equals names it; otherwise the two dates themselves are shown.
 */
module DateRangeLabel {
  import opened Calendar

  datatype RangeLabel =
    | Today
    | Yesterday
    | DayBeforeYesterday
    | LastWeek
    | ThisMonth
    | LastMonth
    | ThisYear
    | Custom(start: Date, end: Date)

  function SingleDay(d: Date): DateRange
  {
    DateRange(d, d)
  }

  /**
   * Monday to Sunday of the previous week; when today is a Sunday, the week
   * ending today.
   */
  function LastWeekRange(today: Date): (r: DateRange)
    ensures ValidDate(today) ==> ValidDate(r.start) && ValidDate(r.end) && DayNumber(r.end) - DayNumber(r.start) == 6
  {
    var weekday := Weekday(today);
    var daysToLastMonday := if weekday == 0 then 6 else weekday + 6;
    var daysToLastSunday := if weekday == 0 then 0 else weekday;
    DateRange(SubDays(today, daysToLastMonday), SubDays(today, daysToLastSunday))
  }

  /** `new Date(y, m, 1)` to `new Date(y, m + 1, 0)`: the whole current month. */
  function ThisMonthRange(today: Date): (r: DateRange)
    ensures ValidDate(today) ==> ValidDate(r.start) && ValidDate(r.end) && DayNumber(r.start) <= DayNumber(today) <= DayNumber(r.end)
  {
    DayWithinMonth(today.year, today.month, DaysInMonth(today.year, today.month));
    DayWithinMonth(today.year, today.month, today.day);
    DateRange(Date(today.year, today.month, 1),
              Date(today.year, today.month, DaysInMonth(today.year, today.month)))
  }

  /** `new Date(y, m - 1, 1)` to `new Date(y, m, 0)`: the whole previous month. */
  function LastMonthRange(today: Date): (r: DateRange)
    ensures ValidDate(today) ==> ValidDate(r.start) && ValidDate(r.end) && r.end == PrevDay(Date(today.year, today.month, 1))
  {
    var y := if today.month == 1 then today.year - 1 else today.year;
    var m := if today.month == 1 then 12 else today.month - 1;
    DateRange(Date(y, m, 1), Date(y, m, DaysInMonth(y, m)))
  }

  /** 1 January of the current year to today. */
  function YearToDateRange(today: Date): (r: DateRange)
    ensures r.end == today
    ensures ValidDate(today) ==> ValidDate(r.start) && r.start.year == today.year && DayNumber(r.start) <= DayNumber(today)
  {
    DateRange(Date(today.year, 1, 1), today)
  }

  /** The caption of the date button for `range`, today being `today`. */
  function Label(range: DateRange, today: Date): (r: RangeLabel)
    ensures !r.Custom? ==> range == PresetRange(r, today)
    ensures r.Custom? ==> r == Custom(range.start, range.end) && forall p :: p in Presets ==> range != PresetRange(p, today)
  {
    if range == SingleDay(today) then Today
    else if range == SingleDay(SubDays(today, 1)) then Yesterday
    else if range == SingleDay(SubDays(today, 2)) then DayBeforeYesterday
    else if range == LastWeekRange(today) then LastWeek
    else if range == ThisMonthRange(today) then ThisMonth
    else if range == LastMonthRange(today) then LastMonth
    else if range == YearToDateRange(today) then ThisYear
    else Custom(range.start, range.end)
  }

  // ---------------------------------------------------------------------
  // A reference definition: the presets as a prioritised list of ranges.

  /** The presets in the order they are tried. */
  const Presets: seq<RangeLabel> := [Today, Yesterday, DayBeforeYesterday, LastWeek, ThisMonth, LastMonth, ThisYear]

  /** The range a preset stands for. */
  function PresetRange(preset: RangeLabel, today: Date): DateRange
    requires !preset.Custom?
  {
    match preset
    case Today => SingleDay(today)
    case Yesterday => SingleDay(SubDays(today, 1))
    case DayBeforeYesterday => SingleDay(SubDays(today, 2))
    case LastWeek => LastWeekRange(today)
    case ThisMonth => ThisMonthRange(today)
    case LastMonth => LastMonthRange(today)
    case ThisYear => YearToDateRange(today)
  }

  /** The first of `presets[i..]` whose range is `range`, or the literal dates. */
  function FirstMatch(range: DateRange, today: Date, presets: seq<RangeLabel>, i: nat): (r: RangeLabel)
    requires i <= |presets|
    requires forall j :: 0 <= j < |presets| ==> !presets[j].Custom?
    ensures r == Custom(range.start, range.end) <==>
              forall j :: i <= j < |presets| ==> range != PresetRange(presets[j], today)
    ensures r.Custom? ==> r == Custom(range.start, range.end)
    ensures !r.Custom? ==> exists j ::
              && i <= j < |presets| && r == presets[j] && range == PresetRange(r, today)
              && forall q :: i <= q < j ==> range != PresetRange(presets[q], today)
    decreases |presets| - i
  {
    if i == |presets| then Custom(range.start, range.end)
    else if range == PresetRange(presets[i], today) then presets[i]
    else FirstMatch(range, today, presets, i + 1)
  }

  /** One step of the first-match rule. */
  lemma FirstMatchStep(range: DateRange, today: Date, i: nat)
    requires i < |Presets|
    ensures FirstMatch(range, today, Presets, i) ==
      if range == PresetRange(Presets[i], today) then Presets[i] else FirstMatch(range, today, Presets, i + 1)
  {
  }

  /** The if-chain of the date button is the first-match rule over the preset list. */
  lemma LabelIsFirstMatch(range: DateRange, today: Date)
    ensures Label(range, today) == FirstMatch(range, today, Presets, 0)
  {
    assert FirstMatch(range, today, Presets, 7) == Custom(range.start, range.end);
    FirstMatchStep(range, today, 6);
    FirstMatchStep(range, today, 5);
    FirstMatchStep(range, today, 4);
    FirstMatchStep(range, today, 3);
    FirstMatchStep(range, today, 2);
    FirstMatchStep(range, today, 1);
    FirstMatchStep(range, today, 0);
  }

  /** Today, yesterday and the day before are each recognised as a single day. */
  lemma SingleDayPresets(today: Date)
    requires ValidDate(today)
    ensures Label(SingleDay(today), today) == Today
    ensures Label(SingleDay(SubDays(today, 1)), today) == Yesterday
    ensures Label(SingleDay(SubDays(today, 2)), today) == DayBeforeYesterday
  {
    assert DayNumber(SubDays(today, 1)) == DayNumber(today) - 1;
    assert DayNumber(SubDays(today, 2)) == DayNumber(today) - 2;
  }

  /**
   * The last-week preset runs from a Monday to the Sunday six days later,
   * which is at most six days before today (today itself on a Sunday).
   */
  lemma LastWeekIsMondayToSunday(today: Date)
    requires ValidDate(today)
    ensures var week := LastWeekRange(today);
      && ValidDate(week.start) && ValidDate(week.end)
      && Weekday(week.start) == 1
      && Weekday(week.end) == 0
      && DayNumber(week.end) - DayNumber(week.start) == 6
      && 0 <= DayNumber(today) - DayNumber(week.end) < 7
      && (Weekday(today) == 0 ==> week.end == today)
  {
    var week := LastWeekRange(today);
    WeekArithmetic(DayNumber(today), DayNumber(week.start), DayNumber(week.end));
  }

  /** Going back from day `n` to the previous Monday and Sunday, as `LastWeekRange` does. */
  lemma WeekArithmetic(n: int, monday: int, sunday: int)
    requires monday == n - (if n % 7 == 0 then 6 else n % 7 + 6)
    requires sunday == n - (if n % 7 == 0 then 0 else n % 7)
    ensures monday % 7 == 1 && sunday % 7 == 0
  {
    var q := n / 7;
    assert n == 7 * q + n % 7;
  }

  /** A range selected as the last-week preset is captioned so. */
  lemma LastWeekIsRecognised(today: Date)
    requires ValidDate(today)
    ensures Label(LastWeekRange(today), today) == LastWeek
  {
    LastWeekIsMondayToSunday(today);
    var week := LastWeekRange(today);
    assert week.start != week.end;
    assert week != SingleDay(today);
    assert week != SingleDay(SubDays(today, 1));
    assert week != SingleDay(SubDays(today, 2));
  }

  /** Days from the first of a month to a day of that month. */
  lemma DayWithinMonth(y: int, m: int, d: int)
    ensures DayNumber(Date(y, m, d)) - DayNumber(Date(y, m, 1)) == d - 1
  {
  }

  /** The this-month preset covers every day of today's month, today included. */
  lemma ThisMonthCoversMonth(today: Date)
    requires ValidDate(today)
    ensures var month := ThisMonthRange(today);
      && ValidDate(month.start) && ValidDate(month.end)
      && month.start == Date(today.year, today.month, 1)
      && month.end == Date(today.year, today.month, DaysInMonth(today.year, today.month))
      && DayNumber(month.end) - DayNumber(month.start) + 1 == DaysInMonth(today.year, today.month)
      && DayNumber(month.start) <= DayNumber(today) <= DayNumber(month.end)
  {
    DayWithinMonth(today.year, today.month, DaysInMonth(today.year, today.month));
    DayWithinMonth(today.year, today.month, today.day);
  }

  /** A range selected as the this-month preset is captioned so: no earlier preset is that long. */
  lemma ThisMonthIsRecognised(today: Date)
    requires ValidDate(today)
    ensures Label(ThisMonthRange(today), today) == ThisMonth
  {
    ThisMonthCoversMonth(today);
    LastWeekIsMondayToSunday(today);
    var month := ThisMonthRange(today);
    assert month.start != month.end;
    assert month != SingleDay(today);
    assert month != SingleDay(SubDays(today, 1));
    assert month != SingleDay(SubDays(today, 2));
    assert month != LastWeekRange(today);
  }

  /** The last-month preset is the whole month that ends the day before the current month begins. */
  lemma LastMonthPrecedesThisMonth(today: Date)
    requires ValidDate(today)
    ensures var last := LastMonthRange(today);
      && ValidDate(last.start) && ValidDate(last.end)
      && last.start.day == 1 && last.end.year == last.start.year && last.end.month == last.start.month
      && last.end.day == DaysInMonth(last.start.year, last.start.month)
      && DayNumber(last.end) + 1 == DayNumber(ThisMonthRange(today).start)
      && DayNumber(last.end) - DayNumber(last.start) + 1 == DaysInMonth(last.start.year, last.start.month)
  {
    var last := LastMonthRange(today);
    assert PrevDay(Date(today.year, today.month, 1)) == last.end;
    DayWithinMonth(last.start.year, last.start.month, last.end.day);
  }

  /** A range selected as the last-month preset is captioned so. */
  lemma LastMonthIsRecognised(today: Date)
    requires ValidDate(today)
    ensures Label(LastMonthRange(today), today) == LastMonth
  {
    LastMonthPrecedesThisMonth(today);
    ThisMonthCoversMonth(today);
    LastWeekIsMondayToSunday(today);
    var last := LastMonthRange(today);
    assert last.start != last.end;
    assert last != SingleDay(today);
    assert last != SingleDay(SubDays(today, 1));
    assert last != SingleDay(SubDays(today, 2));
    assert last != LastWeekRange(today);
    assert last != ThisMonthRange(today);
  }

  /**
   * Priority at work: on 31 January the year-to-date range is the whole
   * month, and the earlier this-month preset names it.
   */
  lemma YearToDateOnJanuary31IsThisMonth(y: int)
    ensures Label(YearToDateRange(Date(y, 1, 31)), Date(y, 1, 31)) == ThisMonth
  {
    ThisMonthIsRecognised(Date(y, 1, 31));
  }
}
