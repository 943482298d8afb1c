/**
 Civil-day arithmetic of contracts/src/days-until.ts over day ordinals (days since 1970-01-01).
 The closed forms of the source are proved against day-by-day counting.
 */
module DaysUntil {
  import opened Base

  // 0100-01-01 and 9999-12-31, the supported range of civil dates.
  const FIRST_DAY := -683003
  const LAST_DAY := 2932896

  datatype DayMode = Calendar | Workdays

  /** A JavaScript Date read as a local civil day; InvalidDate stands for NaN. */
  datatype Date = InvalidDate | Civil(ordinal: int)

  /** A JavaScript number given as a duration. */
  datatype Duration = NotFinite | Finite(days: real)

  function DayNumber(date: Date): Option<int> {
    if date.Civil? && FIRST_DAY <= date.ordinal <= LAST_DAY then Some(date.ordinal) else None
  }

  /** Date.getDay: 0 is Sunday, 6 is Saturday; ordinal 0 is a Thursday. */
  function Weekday(day: int): int {
    (day + 4) % 7
  }

  predicate Counted(day: int, mode: DayMode) {
    mode.Calendar? || (Weekday(day) != 0 && Weekday(day) != 6)
  }

  /** The reference definition: count the days of [first, last) one by one. */
  function CountedBetween(first: int, last: int, mode: DayMode): nat
    decreases last - first
  {
    if first >= last then 0
    else CountedBetween(first, last - 1, mode) + (if Counted(last - 1, mode) then 1 else 0)
  }

  // ---- Laws of day-by-day counting ----

  lemma {:induction false} CountAdditive(a: int, b: int, c: int, mode: DayMode)
    requires a <= b <= c
    ensures CountedBetween(a, c, mode) == CountedBetween(a, b, mode) + CountedBetween(b, c, mode)
    decreases c - b
  {
    if b < c {
      CountAdditive(a, b, c - 1, mode);
    }
  }

  lemma {:induction false} CountCalendar(a: int, b: int)
    requires a <= b
    ensures CountedBetween(a, b, Calendar) == b - a
    decreases b - a
  {
    if a < b {
      CountCalendar(a, b - 1);
    }
  }

  lemma {:induction false} CountAtMostLength(a: int, b: int, mode: DayMode)
    requires a <= b
    ensures CountedBetween(a, b, mode) <= b - a
    decreases b - a
  {
    if a < b {
      CountAtMostLength(a, b - 1, mode);
    }
  }

  lemma CountMonotone(a: int, b: int, c: int, mode: DayMode)
    requires b <= c
    ensures CountedBetween(a, b, mode) <= CountedBetween(a, c, mode)
  {
    if a <= b {
      CountAdditive(a, b, c, mode);
    }
  }

  /** Weekday counting does not see a shift by whole weeks. */
  lemma {:induction false} CountShiftedByWeeks(a: int, b: int, weeks: int)
    ensures CountedBetween(a + 7 * weeks, b + 7 * weeks, Workdays) == CountedBetween(a, b, Workdays)
    decreases b - a
  {
    if a < b {
      CountShiftedByWeeks(a, b - 1, weeks);
      assert (b - 1 + 7 * weeks + 4) % 7 == (b - 1 + 4) % 7;
    }
  }

  lemma CountOneWeek(a: int)
    ensures CountedBetween(a, a + 7, Workdays) == 5
  {
    CountStep(a, a); CountStep(a, a + 1); CountStep(a, a + 2); CountStep(a, a + 3);
    CountStep(a, a + 4); CountStep(a, a + 5); CountStep(a, a + 6);
  }

  lemma CountStep(a: int, b: int)
    requires a <= b
    ensures CountedBetween(a, b + 1, Workdays)
         == CountedBetween(a, b, Workdays) + (if Weekday(b) != 0 && Weekday(b) != 6 then 1 else 0)
    ensures CountedBetween(a, a, Workdays) == 0
    ensures Weekday(b + 1) == if Weekday(b) == 6 then 0 else Weekday(b) + 1
    ensures 0 <= Weekday(b) < 7
  {
  }

  lemma {:induction false} CountWeeks(a: int, weeks: nat)
    ensures CountedBetween(a, a + 7 * weeks, Workdays) == 5 * weeks
  {
    if weeks > 0 {
      CountWeeks(a, weeks - 1);
      CountOneWeek(a + 7 * (weeks - 1));
      CountAdditive(a, a + 7 * (weeks - 1), a + 7 * weeks, Workdays);
    }
  }

  /** Whole weeks count five days each, wherever the remaining days are taken from. */
  lemma CountWeeksAndRest(a: int, weeks: nat, rest: nat)
    ensures CountedBetween(a, a + 7 * weeks + rest, Workdays) == 5 * weeks + CountedBetween(a, a + rest, Workdays)
  {
    CountWeeks(a, weeks);
    CountAdditive(a, a + 7 * weeks, a + 7 * weeks + rest, Workdays);
    CountShiftedByWeeks(a, a + rest, weeks);
  }

  // ---- countDays ----

  /** Start-inclusive, end-exclusive; nothing to count for unsupported or unordered dates. */
  function CountSpec(start: Date, end: Date, mode: DayMode): nat {
    match (DayNumber(start), DayNumber(end))
    case (Some(first), Some(last)) => CountedBetween(first, last, mode)
    case _ => 0
  }

  lemma WeekdayAhead(day: int, offset: nat)
    ensures (Weekday(day) + offset) % 7 == Weekday(day + offset)
  {
  }

  method CountDays(start: Date, end: Date, mode: DayMode) returns (count: int)
    ensures count == CountSpec(start, end, mode)
  {
    var first, last := DayNumber(start), DayNumber(end);
    if first.None? || last.None? || first.value >= last.value {
      return 0;
    }
    var days := last.value - first.value;
    if mode.Calendar? {
      CountCalendar(first.value, last.value);
      return days;
    }
    count := days / 7 * 5;
    var offset := 0;
    while offset < days % 7
      invariant 0 <= offset <= days % 7
      invariant count == days / 7 * 5 + CountedBetween(first.value, first.value + offset, Workdays)
    {
      WeekdayAhead(first.value, offset);
      var weekday := (Weekday(first.value) + offset) % 7;
      if weekday != 0 && weekday != 6 {
        count := count + 1;
      }
      offset := offset + 1;
    }
    CountWeeksAndRest(first.value, days / 7, days % 7);
  }

  // ---- addCountedDays ----

  /** The closed form for the distance to the day after the n-th counted day. */
  function CountedOffset(first: int, n: int, mode: DayMode): (offset: int)
    requires n >= 1
  {
    if mode == Calendar then n
    else
      var weekday := Weekday(first);
      var weekend := if weekday == 0 then 1 else if weekday == 6 then 2 else 0;
      var firstWeekday := if weekend != 0 then 1 else weekday;
      var weeks, remainder := (n - 1) / 5, (n - 1) % 5;
      weekend + weeks * 7 + remainder + (if firstWeekday + remainder > 5 then 2 else 0) + 1
  }

  /** target is the first day by which n days of [first, target) have been counted. */
  ghost predicate LeastTarget(first: int, n: int, mode: DayMode, target: int) {
    && first < target
    && CountedBetween(first, target, mode) == n
    && forall t :: t < target ==> CountedBetween(first, t, mode) < n
  }

  lemma LeastWhenLastDayCounts(first: int, n: int, mode: DayMode, target: int)
    requires first < target && CountedBetween(first, target, mode) == n && Counted(target - 1, mode)
    ensures LeastTarget(first, n, mode, target)
  {
    forall t | t < target ensures CountedBetween(first, t, mode) < n {
      CountMonotone(first, t, target - 1, mode);
    }
  }

  /** A stretch from Monday to Friday counts in full and then reaches its last day. */
  lemma {:induction false} CountStretch(day: int, length: nat)
    requires 1 <= length && 1 <= Weekday(day) && Weekday(day) + length <= 6
    ensures CountedBetween(day, day + length, Workdays) == length
    ensures Weekday(day + length - 1) == Weekday(day) + length - 1
    decreases length
  {
    CountStep(day, day);
    if length > 1 {
      CountStretch(day, length - 1);
      CountStep(day, day + length - 2);
      CountStep(day, day + length - 1);
    }
  }

  lemma CountOverWeekend(day: int)
    requires Weekday(day) == 5
    ensures CountedBetween(day + 1, day + 3, Workdays) == 0 && Weekday(day + 3) == 1
  {
    CountStep(day + 1, day + 1); CountStep(day + 1, day + 2);
  }

  /** From a Monday-to-Friday day, rest + 1 weekdays need rest + 1 days, or two more over a weekend. */
  lemma CountWithinWeek(day: int, rest: int)
    requires 1 <= Weekday(day) <= 5 && 0 <= rest < 5
    ensures var length := rest + 1 + if Weekday(day) + rest > 5 then 2 else 0;
            CountedBetween(day, day + length, Workdays) == rest + 1 && Counted(day + length - 1, Workdays)
  {
    if Weekday(day) + rest <= 5 {
      CountStretch(day, rest + 1);
    } else {
      var first := 6 - Weekday(day);
      var end := day + rest + 3;
      CountStretch(day, first);
      CountOverWeekend(day + first - 1);
      CountStretch(day + first + 2, rest + 1 - first);
      CountAdditive(day, day + first, day + first + 2, Workdays);
      CountAdditive(day, day + first + 2, end, Workdays);
    }
  }

  lemma SkipWeekend(first: int)
    ensures var skip := if Weekday(first) == 0 then 1 else if Weekday(first) == 6 then 2 else 0;
            CountedBetween(first, first + skip, Workdays) == 0
            && Weekday(first + skip) == (if skip != 0 then 1 else Weekday(first))
            && 1 <= Weekday(first + skip) <= 5
  {
    CountStep(first, first); CountStep(first, first + 1);
  }

  lemma WorkdayOffsetCounts(first: int, n: int)
    requires n >= 1
    ensures var target := first + CountedOffset(first, n, Workdays);
            CountedBetween(first, target, Workdays) == n && Counted(target - 1, Workdays) && first + n <= target
  {
    var skip := if Weekday(first) == 0 then 1 else if Weekday(first) == 6 then 2 else 0;
    var monday, weeks, rest := first + skip, (n - 1) / 5, (n - 1) % 5;
    SkipWeekend(first);
    var length := rest + 1 + if Weekday(monday) + rest > 5 then 2 else 0;
    CountWithinWeek(monday, rest);
    CountWeeksAndRest(monday, weeks, length);
    var target := monday + 7 * weeks + length;
    CountAdditive(first, monday, target, Workdays);
    CountAtMostLength(first, target, Workdays);
    WeekdayShiftedByWeeks(monday + length - 1, weeks);
  }

  lemma WeekdayShiftedByWeeks(day: int, weeks: int)
    ensures Weekday(day + 7 * weeks) == Weekday(day)
  {
  }

  /** The closed form is the inverse of day-by-day counting. */
  lemma CountedOffsetIsLeast(first: int, n: int, mode: DayMode)
    requires n >= 1
    ensures LeastTarget(first, n, mode, first + CountedOffset(first, n, mode))
    ensures CountedOffset(first, n, mode) >= n
  {
    var target := first + CountedOffset(first, n, mode);
    if mode == Calendar {
      CountCalendar(first, target);
    } else {
      WorkdayOffsetCounts(first, n);
    }
    LeastWhenLastDayCounts(first, n, mode, target);
  }

  lemma LeastTargetUnique(first: int, n: int, mode: DayMode, t: int, u: int)
    requires LeastTarget(first, n, mode, t) && LeastTarget(first, n, mode, u)
    ensures t == u
  {
  }

  /** The date arithmetic as a function of ordinals; None is the source's Invalid Date. */
  function AddedDays(first: int, n: int, mode: DayMode): (target: Option<int>)
    requires n >= 1
  {
    var offset := CountedOffset(first, n, mode);
    if n > LAST_DAY - first || offset > LAST_DAY - first then None else Some(first + offset)
  }

  /** Every reachable target is found, and only an unreachable one is refused. */
  lemma AddedDaysExact(first: int, n: int, mode: DayMode)
    requires n >= 1
    ensures forall t :: AddedDays(first, n, mode) == Some(t) <==> t <= LAST_DAY && LeastTarget(first, n, mode, t)
  {
    CountedOffsetIsLeast(first, n, mode);
    forall t | LeastTarget(first, n, mode, t) ensures t == first + CountedOffset(first, n, mode) {
      LeastTargetUnique(first, n, mode, t, first + CountedOffset(first, n, mode));
    }
  }

  /** Math.max(0, Math.floor(days)). */
  function WholeDays(duration: Duration): nat
    requires duration.Finite?
  {
    Max(0, duration.days.Floor)
  }

  method AddCountedDays(start: Date, duration: Duration, mode: DayMode) returns (target: Date)
    ensures DayNumber(start).None? || duration.NotFinite? ==> target == InvalidDate
    ensures DayNumber(start).Some? && duration.Finite? && WholeDays(duration) == 0 ==> target == start
    ensures DayNumber(start).Some? && duration.Finite? && WholeDays(duration) >= 1 ==>
              match AddedDays(start.ordinal, WholeDays(duration), mode)
              case None => target == InvalidDate
              case Some(day) => target == Civil(day) && LeastTarget(start.ordinal, WholeDays(duration), mode, day)
  {
    var first := DayNumber(start);
    if first.None? || duration.NotFinite? {
      return InvalidDate;
    }
    var days := WholeDays(duration);
    if days > LAST_DAY - first.value {
      return InvalidDate;
    }
    if days == 0 {
      return start;
    }
    CountedOffsetIsLeast(first.value, days, mode);
    var offset := days;
    if mode != Calendar {
      var weekday := Weekday(first.value);
      var weekend := if weekday == 0 then 1 else if weekday == 6 then 2 else 0;
      var firstWeekday := if weekend != 0 then 1 else weekday;
      var weeks, remainder := (days - 1) / 5, (days - 1) % 5;
      offset := weekend + weeks * 7 + remainder + (if firstWeekday + remainder > 5 then 2 else 0) + 1;
    }
    if offset > LAST_DAY - first.value {
      return InvalidDate;
    }
    return Civil(first.value + offset);
  }

  // ---- calculateDaysUntil ----

  datatype InputMode = TargetDate | DurationDays

  datatype Problem =
    | UnsupportedToday
    | StartRequired
    | DurationBelowOne
    | DurationTooLong
    | TargetRequired
    | TargetNotAfterStart
    | NothingCounted

  /** A parsed configuration date: parseLocalDate accepts supported civil days only. */
  type SupportedDay = day: int | FIRST_DAY <= day <= LAST_DAY witness 0

  datatype Config = Config(
    inputMode: InputMode,
    startDate: Option<SupportedDay>,
    targetDate: Option<SupportedDay>,
    durationDays: Duration,
    dayMode: DayMode)

  datatype Calculation = Calculation(
    startDate: Option<int>,
    targetDate: Option<int>,
    totalDays: int,
    elapsedDays: int,
    remainingDays: int,
    progress: int,
    hasProgress: bool,
    isBeforeStart: bool,
    isComplete: bool,
    problem: Option<Problem>)

  function InvalidResult(problem: Problem, startDate: Option<int>, targetDate: Option<int>): Calculation {
    Calculation(startDate, targetDate, 0, 0, 0, 0, false, false, false, Some(problem))
  }

  /** Math.round(elapsed / total * 100) in exact arithmetic. */
  function RoundedPercent(elapsed: int, total: int): int
    requires total > 0
  {
    (200 * elapsed + total) / (2 * total)
  }

  /** The target a configuration selects, or the result that reports why it selects none. */
  function SelectedTarget(config: Config): Result<int, Calculation> {
    if config.inputMode == DurationDays then
      if config.startDate.None? then Err(InvalidResult(StartRequired, None, None))
      else if config.durationDays.NotFinite? || config.durationDays.days < 1.0 then
        Err(InvalidResult(DurationBelowOne, config.startDate, None))
      else
        match AddedDays(config.startDate.value, WholeDays(config.durationDays), config.dayMode)
        case Some(target) => Ok(target)
        case None => Err(InvalidResult(DurationTooLong, config.startDate, None))
    else
      match config.targetDate
      case Some(target) => Ok(target)
      case None => Err(InvalidResult(TargetRequired, config.startDate, None))
  }

  /** The result without any clamp: days on either side of today are counted one by one. */
  function Expected(config: Config, now: Date): Calculation {
    if DayNumber(now).None? then InvalidResult(UnsupportedToday, None, None)
    else
      match SelectedTarget(config)
      case Err(result) => result
      case Ok(target) =>
        var today, mode := now.ordinal, config.dayMode;
        if config.startDate.None? then
          var remaining := CountedBetween(today, target, mode);
          Calculation(None, Some(target), remaining, 0, remaining, if today >= target then 100 else 0,
                      false, false, today >= target, None)
        else
          var start := config.startDate.value;
          var total := CountedBetween(start, target, mode);
          if target <= start then InvalidResult(TargetNotAfterStart, Some(start), Some(target))
          else if total < 1 then InvalidResult(NothingCounted, Some(start), Some(target))
          else
            var until := Min(Max(today, start), target);
            var elapsed := CountedBetween(start, until, mode);
            Calculation(Some(start), Some(target), total, elapsed, CountedBetween(until, target, mode),
                        RoundedPercent(elapsed, total), true, today < start, today >= target, None)
  }

  lemma PercentMonotone(e1: int, e2: int, total: int)
    requires 0 <= e1 <= e2 <= total && total > 0
    ensures 0 <= RoundedPercent(e1, total) <= RoundedPercent(e2, total) <= 100
  {
    DivisionMonotone(200 * e1 + total, 200 * e2 + total, 2 * total);
    DivisionMonotone(200 * e2 + total, 201 * total, 2 * total);
    assert 201 * total == 100 * (2 * total) + total;
    DivisionBounds(201 * total, 2 * total, 100);
  }

  lemma DivisionMonotone(a: int, b: int, d: int)
    requires a <= b && d > 0
    ensures a / d <= b / d
  {
    var j, k := a / d, b / d;
    assert j * d <= a && b < (k + 1) * d;
    if k < j {
      TimesMonotone(k + 1, j, d);
    }
  }

  lemma TimesMonotone(x: int, y: int, d: nat)
    requires x <= y
    ensures x * d <= y * d
  {
  }

  lemma DivisionBounds(a: int, d: int, q: int)
    requires d > 0 && q * d <= a < (q + 1) * d
    ensures a / d == q
  {
    var k := a / d;
    assert k * d <= a < (k + 1) * d;
    if k < q {
      TimesMonotone(k + 1, q, d);
    } else if q < k {
      TimesMonotone(q + 1, k, d);
    }
  }

  method CalculateDaysUntil(config: Config, now: Date) returns (result: Calculation)
    ensures result == Expected(config, now)
  {
    if DayNumber(now).None? {
      return InvalidResult(UnsupportedToday, None, None);
    }
    var today, target := now.ordinal, 0;
    if config.inputMode == DurationDays {
      if config.startDate.None? {
        return InvalidResult(StartRequired, None, None);
      }
      if config.durationDays.NotFinite? || config.durationDays.days < 1.0 {
        return InvalidResult(DurationBelowOne, config.startDate, None);
      }
      var added := AddCountedDays(Civil(config.startDate.value), config.durationDays, config.dayMode);
      if DayNumber(added).None? {
        return InvalidResult(DurationTooLong, config.startDate, None);
      }
      target := added.ordinal;
    } else {
      if config.targetDate.None? {
        return InvalidResult(TargetRequired, config.startDate, None);
      }
      target := config.targetDate.value;
    }
    if config.startDate.None? {
      var remaining := CountDays(now, Civil(target), config.dayMode);
      return Calculation(None, Some(target), remaining, 0, remaining, if today >= target then 100 else 0,
                         false, false, today >= target, None);
    }
    var start := config.startDate.value;
    if target <= start {
      return InvalidResult(TargetNotAfterStart, Some(start), Some(target));
    }
    var total := CountDays(Civil(start), Civil(target), config.dayMode);
    if total < 1 {
      return InvalidResult(NothingCounted, Some(start), Some(target));
    }
    var isBeforeStart, isComplete := today < start, today >= target;
    var elapsed := 0;
    if isComplete && !isBeforeStart {
      elapsed := total;
    } else if !isBeforeStart {
      var counted := CountDays(Civil(start), now, config.dayMode);
      elapsed := Min(total, counted);
    }
    var remaining := Max(0, total - elapsed);
    var progress := Max(0, Min(100, RoundedPercent(elapsed, total)));
    ghost var until := Min(Max(today, start), target);
    CountAdditive(start, until, target, config.dayMode);
    PercentMonotone(elapsed, total, total);
    return Calculation(Some(start), Some(target), total, elapsed, remaining, progress,
                       true, isBeforeStart, isComplete, None);
  }

  /** A start date, a target after it, and something to count in between: this does not depend on today. */
  predicate Dated(config: Config) {
    && config.startDate.Some? && SelectedTarget(config).Ok? && config.startDate.value < SelectedTarget(config).value
    && CountedBetween(config.startDate.value, SelectedTarget(config).value, config.dayMode) >= 1
  }

  lemma NoProblemIffDated(config: Config, now: Date)
    requires DayNumber(now).Some? && config.startDate.Some?
    ensures Expected(config, now).problem.None? <==> Dated(config)
  {
  }

  /** The day up to which days have passed: today, held between start and target. */
  function Until(config: Config, now: Date): int
    requires Dated(config) && DayNumber(now).Some?
  {
    Min(Max(now.ordinal, config.startDate.value), SelectedTarget(config).value)
  }

  lemma ElapsedAndTotal(config: Config, now: Date)
    requires Dated(config) && DayNumber(now).Some?
    ensures var start, target, mode := config.startDate.value, SelectedTarget(config).value, config.dayMode;
            var a := Expected(config, now);
            && a.totalDays == CountedBetween(start, target, mode)
            && a.elapsedDays == CountedBetween(start, Until(config, now), mode)
            && a.remainingDays == CountedBetween(Until(config, now), target, mode)
            && a.progress == RoundedPercent(a.elapsedDays, a.totalDays)
            && a.isComplete == (now.ordinal >= target) && a.isBeforeStart == (now.ordinal < start)
  {
  }

  lemma SidesAddUp(config: Config, now: Date)
    requires Dated(config) && DayNumber(now).Some?
    ensures var a := Expected(config, now);
            a.elapsedDays + a.remainingDays == a.totalDays && 0 <= a.elapsedDays <= a.totalDays && 1 <= a.totalDays
  {
    ElapsedAndTotal(config, now);
    CountAdditive(config.startDate.value, Until(config, now), SelectedTarget(config).value, config.dayMode);
  }

  lemma ElapsedMonotone(config: Config, earlier: Date, later: Date)
    requires Dated(config) && DayNumber(earlier).Some? && DayNumber(later).Some? && earlier.ordinal <= later.ordinal
    ensures Expected(config, earlier).elapsedDays <= Expected(config, later).elapsedDays
    ensures Expected(config, earlier).totalDays == Expected(config, later).totalDays
  {
    ElapsedAndTotal(config, earlier);
    ElapsedAndTotal(config, later);
    CountMonotone(config.startDate.value, Until(config, earlier), Until(config, later), config.dayMode);
  }

  lemma ProgressMonotone(config: Config, earlier: Date, later: Date)
    requires Dated(config) && DayNumber(earlier).Some? && DayNumber(later).Some? && earlier.ordinal <= later.ordinal
    ensures 0 <= Expected(config, earlier).progress <= Expected(config, later).progress <= 100
  {
    var a, b := Expected(config, earlier), Expected(config, later);
    ElapsedMonotone(config, earlier, later);
    SidesAddUp(config, earlier);
    SidesAddUp(config, later);
    PercentMonotone(a.elapsedDays, b.elapsedDays, b.totalDays);
    ElapsedAndTotal(config, earlier);
    ElapsedAndTotal(config, later);
  }

  lemma PercentEnds(total: int)
    requires total >= 1
    ensures RoundedPercent(0, total) == 0 && RoundedPercent(total, total) == 100
  {
    DivisionBounds(201 * total, 2 * total, 100);
    DivisionBounds(total, 2 * total, 0);
  }

  lemma NothingBetween(day: int, mode: DayMode)
    ensures CountedBetween(day, day, mode) == 0
  {
  }

  /** Nothing has passed before the start, and nothing is left from the target on. */
  lemma ProgressEnds(config: Config, now: Date)
    requires Dated(config) && DayNumber(now).Some?
    ensures var a := Expected(config, now);
            && (a.isComplete ==> a.remainingDays == 0 && a.progress == 100)
            && (a.isBeforeStart ==> a.elapsedDays == 0 && a.progress == 0)
  {
    ElapsedAndTotal(config, now);
    SidesAddUp(config, now);
    NothingBetween(Until(config, now), config.dayMode);
    PercentEnds(Expected(config, now).totalDays);
  }

  /** With a start date: the two sides always add up, and the percentage never runs backwards. */
  lemma ProgressLaws(config: Config, earlier: Date, later: Date)
    requires DayNumber(earlier).Some? && DayNumber(later).Some? && earlier.ordinal <= later.ordinal
    requires config.startDate.Some? && Expected(config, earlier).problem.None?
    ensures var a, b := Expected(config, earlier), Expected(config, later);
            && b.problem.None? && a.totalDays == b.totalDays >= 1
            && a.elapsedDays + a.remainingDays == a.totalDays
            && 0 <= a.elapsedDays <= b.elapsedDays <= b.totalDays
            && 0 <= a.progress <= b.progress <= 100
            && (b.isComplete ==> b.remainingDays == 0 && b.progress == 100)
            && (a.isBeforeStart ==> a.elapsedDays == 0 && a.progress == 0)
  {
    NoProblemIffDated(config, earlier);
    NoProblemIffDated(config, later);
    SidesAddUp(config, earlier);
    SidesAddUp(config, later);
    ElapsedMonotone(config, earlier, later);
    ProgressMonotone(config, earlier, later);
    ProgressEnds(config, earlier);
    ProgressEnds(config, later);
  }

  /** A configured duration comes back as the total, in both day modes. */
  lemma DurationIsTotal(config: Config, now: Date)
    requires config.inputMode == DurationDays && Expected(config, now).problem.None?
    ensures Expected(config, now).totalDays == config.durationDays.days.Floor
  {
    AddedDaysExact(config.startDate.value, WholeDays(config.durationDays), config.dayMode);
  }
}
