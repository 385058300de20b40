/** Dates as `LocalDate.toEpochDay()` numbers, the Monday-start week of a date,
    and the clamping of a review's reference date into its week. */
module Calendar {

  /** Days since 1970-01-01, which was a Thursday. */
  type Date = int

  /** A `LocalDateTime` as seconds on a fixed clock. */
  type Timestamp = int

  datatype DayOfWeek = Monday | Tuesday | Wednesday | Thursday | Friday | Saturday | Sunday

  /** Position of the day in its Monday-start week: Monday is 0, Sunday 6. */
  function DayIndex(d: Date): (i: nat)
    ensures i < 7
  {
    (d + 3) % 7
  }

  function DayOfWeekOf(d: Date): DayOfWeek {
    [Monday, Tuesday, Wednesday, Thursday, Friday, Saturday, Sunday][DayIndex(d)]
  }

  lemma {:induction false} DayIndexNext(d: Date)
    ensures DayIndex(d + 1) == (DayIndex(d) + 1) % 7
  {
  }

  /** `date.with(previousOrSame(MONDAY))`: a Monday at most six days before `d`. */
  function WeekStart(d: Date): (r: Date)
    ensures DayOfWeekOf(r) == Monday
    ensures r <= d <= r + 6
    ensures d - r == DayIndex(d)
  {
    var r := d - DayIndex(d);
    assert DayIndex(r) == 0;
    r
  }

  /** The day `i` days into a week that starts on a Monday has index `i`. */
  lemma {:induction false} DayIndexInWeek(m: Date, i: nat)
    requires DayOfWeekOf(m) == Monday && i < 7
    ensures DayIndex(m + i) == i
  {
    assert DayIndex(m) == 0;
    if i > 0 {
      DayIndexInWeek(m, i - 1);
      DayIndexNext(m + i - 1);
    }
  }

  /** Previous-or-same Monday is unique: any Monday within six days before `d` is `WeekStart(d)`. */
  lemma {:induction false} WeekStartUnique(d: Date, m: Date)
    requires DayOfWeekOf(m) == Monday && m <= d <= m + 6
    ensures m == WeekStart(d)
  {
    DayIndexInWeek(m, d - m);
  }

  /** Every day of a week has the same week start. */
  lemma {:induction false} WeekStartOnWeek(d: Date, e: Date)
    requires WeekStart(d) <= e <= WeekStart(d) + 6
    ensures WeekStart(e) == WeekStart(d)
  {
    WeekStartUnique(e, WeekStart(d));
  }

  /** `determineLimitDate(referenceDate)` with `now` for `LocalDate.now(KST)`:
      a day of the reference date's week, its first day when the week lies in
      the future, its last day when the week is over, and otherwise the
      earlier of the reference date and today. */
  function LimitDate(ref: Date, now: Date): (r: Date)
    ensures WeekStart(ref) <= r <= WeekStart(ref) + 6
    ensures now < WeekStart(ref) ==> r == WeekStart(ref)
    ensures now > WeekStart(ref) + 6 ==> r == WeekStart(ref) + 6
    ensures WeekStart(ref) <= now <= WeekStart(ref) + 6 ==> r == (if ref <= now then ref else now)
  {
    var weekStart := WeekStart(ref);
    var weekEnd := weekStart + 6;
    if now < weekStart then weekStart
    else if now > weekEnd then weekEnd
    else if ref < weekStart then weekStart
    else if ref > now then now
    else ref
  }

  /** The `referenceDate.isBefore(weekStart)` branch never fires. */
  lemma ReferenceNeverBeforeWeekStart(ref: Date)
    ensures !(ref < WeekStart(ref))
  {
  }

  /** Clamping is stable: the limit date of a limit date is itself, and it
      lies in the same week as the reference date. */
  lemma {:induction false} LimitDateIdempotent(ref: Date, now: Date)
    ensures WeekStart(LimitDate(ref, now)) == WeekStart(ref)
    ensures LimitDate(LimitDate(ref, now), now) == LimitDate(ref, now)
  {
    WeekStartOnWeek(ref, LimitDate(ref, now));
  }

  /** 2024-06-13 is a Thursday; evaluated on Monday 2024-06-10 of the same
      week, the evaluation date is 2024-06-10. */
  lemma LimitDateExample()
    ensures DayOfWeekOf(19887) == Thursday && DayOfWeekOf(19884) == Monday
    ensures LimitDate(19887, 19884) == 19884
  {
  }

  /** `toKoreanDay`: the Korean name of the date's weekday. */
  function KoreanDay(d: Date): string {
    match DayOfWeekOf(d)
    case Monday => "월요일"
    case Tuesday => "화요일"
    case Wednesday => "수요일"
    case Thursday => "목요일"
    case Friday => "금요일"
    case Saturday => "토요일"
    case Sunday => "일요일"
  }

  /** The labels of the seven days from a week start run Monday to Sunday. */
  lemma {:induction false} KoreanDaysOfWeek(d: Date)
    ensures KoreanDay(WeekStart(d)) == "월요일"
    ensures KoreanDay(WeekStart(d) + 1) == "화요일"
    ensures KoreanDay(WeekStart(d) + 2) == "수요일"
    ensures KoreanDay(WeekStart(d) + 3) == "목요일"
    ensures KoreanDay(WeekStart(d) + 4) == "금요일"
    ensures KoreanDay(WeekStart(d) + 5) == "토요일"
    ensures KoreanDay(WeekStart(d) + 6) == "일요일"
  {
    var m := WeekStart(d);
    DayIndexInWeek(m, 1); DayIndexInWeek(m, 2); DayIndexInWeek(m, 3);
    DayIndexInWeek(m, 4); DayIndexInWeek(m, 5); DayIndexInWeek(m, 6);
  }
}
