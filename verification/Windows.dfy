/** Calendar windows in a time zone with a constant UTC offset, on millisecond timestamps. */
module Windows {
  import opened Common

  datatype Window = Hour | Day | Week | Month

  // ---------------------------------------------------------------- the Gregorian calendar

  function IsLeap(year: int): bool {
    year % 4 == 0 && (year % 100 != 0 || year % 400 == 0)
  }

  /** Months are numbered from January 1970. */
  function DaysIn(month: int): (d: int)
    ensures 28 <= d <= 31
  {
    var m := month % 12;
    if m == 1 then (if IsLeap(1970 + month / 12) then 29 else 28)
    else if m == 3 || m == 5 || m == 8 || m == 10 then 30 else 31
  }

  /** Days from 1 January 1970 to the first day of the month. */
  function FirstDay(month: int): int
    decreases if month < 0 then -month else month
  {
    if month == 0 then 0
    else if month > 0 then FirstDay(month - 1) + DaysIn(month - 1)
    else FirstDay(month + 1) - DaysIn(month)
  }

  function MonthUp(day: int, month: int): (r: int)
    requires FirstDay(month) <= day
    ensures FirstDay(r) <= day < FirstDay(r + 1)
    decreases day - FirstDay(month)
  {
    assert FirstDay(month + 1) == FirstDay(month) + DaysIn(month);
    if day < FirstDay(month + 1) then month else MonthUp(day, month + 1)
  }

  function MonthDown(day: int, month: int): (r: int)
    requires day < FirstDay(month + 1)
    ensures FirstDay(r) <= day < FirstDay(r + 1)
    decreases FirstDay(month + 1) - day
  {
    assert FirstDay(month + 1) == FirstDay(month) + DaysIn(month);
    if FirstDay(month) <= day then month else MonthDown(day, month - 1)
  }

  function MonthOf(day: int): (r: int)
    ensures FirstDay(r) <= day < FirstDay(r + 1)
  {
    if day >= 0 then MonthUp(day, 0) else MonthDown(day, -1)
  }

  lemma {:induction false} FirstDayGrows(a: int, b: int)
    requires a < b
    ensures FirstDay(a) < FirstDay(b)
    decreases b - a
  {
    assert FirstDay(a + 1) == FirstDay(a) + DaysIn(a);
    if a + 1 < b { FirstDayGrows(a + 1, b); }
  }

  /** A month is determined by any of its days, and later days lie in the same or a later month. */
  lemma MonthOfMonotone(d: int, d': int)
    requires d <= d'
    ensures MonthOf(d) <= MonthOf(d')
    ensures FirstDay(MonthOf(d)) <= FirstDay(MonthOf(d'))
  {
    var m, m' := MonthOf(d), MonthOf(d');
    if m' < m {
      if m' + 1 < m { FirstDayGrows(m' + 1, m); }
    } else if m < m' {
      FirstDayGrows(m, m');
    }
  }

  /** Leap days from the start of the count to the end of the year. */
  function LeapDays(year: int): int {
    year / 4 - year / 100 + year / 400
  }

  function DaysBefore(m: int): int
    requires 0 <= m <= 12
  {
    [0, 31, 59, 90, 120, 151, 181, 212, 243, 273, 304, 334, 365][m]
  }

  lemma QuotientIs(a: int, n: int, q: int, r: int)
    requires 0 <= r < n && a == q * n + r
    ensures a / n == q
  {
    var d := a / n - q;
    assert d * n == r - a % n;
    if d >= 1 { MultiplesGrow(1, d, n); }
    if d <= -1 { MultiplesGrow(d, -1, n); }
  }

  lemma MultiplesGrow(a: int, b: int, n: int)
    requires a <= b && n > 0
    ensures a * n <= b * n
  {
  }

  lemma MultipleStep(year: int, n: int)
    requires n > 0
    ensures year / n - (year - 1) / n == if year % n == 0 then 1 else 0
  {
    var q, r := year / n, year % n;
    assert year == q * n + r;
    if r == 0 {
      assert (q - 1) * n == q * n - n;
      QuotientIs(year - 1, n, q - 1, n - 1);
    } else {
      QuotientIs(year - 1, n, q, r - 1);
    }
  }

  lemma LeapYear(year: int)
    ensures LeapDays(year) - LeapDays(year - 1) == if IsLeap(year) then 1 else 0
  {
    MultipleStep(year, 4);
    MultipleStep(year, 100);
    MultipleStep(year, 400);
    assert year % 100 == 0 ==> year % 4 == 0;
    assert year % 400 == 0 ==> year % 100 == 0;
  }

  lemma MonthOfYear(year: int, m: int)
    requires 0 <= m < 12
    ensures var month := 12 * (year - 1970) + m;
            && FirstDay(month + 1) == FirstDay(month) + DaysIn(month)
            && DaysIn(month) == DaysBefore(m + 1) - DaysBefore(m) + if m == 1 && IsLeap(year) then 1 else 0
  {
    var month := 12 * (year - 1970) + m;
    assert month % 12 == m && month / 12 == year - 1970;
  }

  /** The months of a year start at the usual distances from its first day, from March on one later in a leap year. */
  lemma {:induction false} MonthStarts(year: int, m: nat)
    requires m <= 12
    ensures FirstDay(12 * (year - 1970) + m)
            == FirstDay(12 * (year - 1970)) + DaysBefore(m) + if m >= 2 then LeapDays(year) - LeapDays(year - 1) else 0
  {
    LeapYear(year);
    if m > 0 {
      MonthStarts(year, m - 1);
      MonthOfYear(year, m - 1);
    }
  }

  /** The Gregorian calendar in closed form: when each year starts. */
  lemma {:induction false} YearStarts(year: int)
    ensures FirstDay(12 * (year - 1970)) == 365 * (year - 1970) + (year - 1) / 4 - (year - 1) / 100 + (year - 1) / 400 - 477
    decreases if year < 1970 then 1970 - year else year - 1970
  {
    if year > 1970 {
      YearStarts(year - 1);
      MonthStarts(year - 1, 12);
    } else if year < 1970 {
      YearStarts(year + 1);
      MonthStarts(year, 12);
    }
  }

  lemma {:induction false} FirstOfMarch(year: int)
    ensures FirstDay(12 * (year - 1970) + 2) == 365 * (year - 1970) + LeapDays(year) - 477 + 59
  {
    YearStarts(year);
    MonthStarts(year, 2);
  }

  /** The century rule: 1 March is day 11017 in 2000, which is a leap year, and day 47541 in 2100, which is not. */
  lemma CenturyRule(year: int)
    requires year == 2000 || year == 2100
    ensures FirstDay(12 * (year - 1970) + 2) == if year == 2000 then 11_017 else 47_541
  {
    FirstOfMarch(year);
  }

  // ---------------------------------------------------------------- window starts

  /** The local date and hour a formatter shows for an instant. */
  datatype Parts = Parts(month: int, dayOfMonth: int, hour: int)

  function LocalParts(now: int, offset: int): Parts {
    var local := now + offset;
    var day := local / DAY_MS;
    Parts(MonthOf(day), day - FirstDay(MonthOf(day)) + 1, local % DAY_MS / HOUR_MS)
  }

  function DateUTC(month: int, dayOfMonth: int, hour: int): int {
    (FirstDay(month) + dayOfMonth - 1) * DAY_MS + hour * HOUR_MS
  }

  /** Sunday is 0. 1 January 1970 was a Thursday. */
  function UTCDay(ms: int): int {
    (ms / DAY_MS + 4) % 7
  }

  function WindowStart(w: Window, now: int, offset: int): int {
    var p := LocalParts(now, offset);
    match w
    case Hour => DateUTC(p.month, p.dayOfMonth, p.hour) - offset
    case Day => DateUTC(p.month, p.dayOfMonth, 0) - offset
    case Week =>
      var midnight := DateUTC(p.month, p.dayOfMonth, 0);
      var dow := UTCDay(midnight);
      midnight - (if dow == 0 then 6 else dow - 1) * DAY_MS - offset
    case Month => DateUTC(p.month, 1, 0) - offset
  }

  function WindowLength(w: Window, now: int, offset: int): int {
    match w
    case Hour => HOUR_MS
    case Day => DAY_MS
    case Week => 7 * DAY_MS
    case Month => DaysIn(LocalParts(now, offset).month) * DAY_MS
  }

  /** The date parts of a day give back the day. */
  lemma DateOfParts(now: int, offset: int)
    ensures var p := LocalParts(now, offset);
            DateUTC(p.month, p.dayOfMonth, 0) == (now + offset) / DAY_MS * DAY_MS
  {
  }

  lemma WeekdayOfMidnight(day: int)
    ensures UTCDay(day * DAY_MS) == (day + 4) % 7
  {
  }

  /** The starts in closed form: the date parts cancel out. */
  lemma StartsInDays(now: int, offset: int)
    ensures var local := now + offset;
            var day := local / DAY_MS;
            && WindowStart(Hour, now, offset) == local - local % HOUR_MS - offset
            && WindowStart(Day, now, offset) == day * DAY_MS - offset
            && WindowStart(Week, now, offset) == (day - (day + 3) % 7) * DAY_MS - offset
            && WindowStart(Month, now, offset) == FirstDay(MonthOf(day)) * DAY_MS - offset
  {
    var local := now + offset;
    var day := local / DAY_MS;
    DateOfParts(now, offset);
    WeekdayOfMidnight(day);
    assert local == day * DAY_MS + local % DAY_MS;
    HourOfDay(local);
  }

  lemma HourOfDay(local: int)
    ensures local % DAY_MS / HOUR_MS * HOUR_MS == local % DAY_MS - local % HOUR_MS
  {
    assert DAY_MS == 24 * HOUR_MS;
    var r := local % DAY_MS;
    assert local == 24 * (local / DAY_MS) * HOUR_MS + r;
    assert r % HOUR_MS == local % HOUR_MS;
  }

  /** `now` lies in its own window. */
  lemma WindowContainsNow(w: Window, now: int, offset: int)
    ensures WindowStart(w, now, offset) <= now < WindowStart(w, now, offset) + WindowLength(w, now, offset)
  {
    StartsInDays(now, offset);
    var local := now + offset;
    var day := local / DAY_MS;
    var m := MonthOf(day);
    assert FirstDay(m + 1) == FirstDay(m) + DaysIn(m);
    assert day * DAY_MS <= local < (day + 1) * DAY_MS;
  }

  /** The days and hours around a multiple. */
  lemma MultipleOf(k: int, n: int)
    requires n > 0
    ensures (k * n) / n == k && (k * n) % n == 0 && (k * n - 1) / n == k - 1 && (k * n - 1) % n == n - 1
  {
    assert k * n - 1 == (k - 1) * n + (n - 1);
    QuotientIs(k * n, n, k, 0);
    QuotientIs(k * n - 1, n, k - 1, n - 1);
  }

  /** A day lies in the month whose first day it reaches and whose end it does not. */
  lemma MonthIs(day: int, month: int)
    requires FirstDay(month) <= day < FirstDay(month + 1)
    ensures MonthOf(day) == month
  {
    var m := MonthOf(day);
    if m < month { if m + 1 < month { FirstDayGrows(m + 1, month); } }
    if m > month { if month + 1 < m { FirstDayGrows(month + 1, m); } }
  }

  /** The window that ends at `end` starts at `start`, and the next one at `end`. */
  ghost predicate Meet(w: Window, start: int, end: int, offset: int) {
    WindowStart(w, end - 1, offset) == start && WindowStart(w, end, offset) == end
  }

  /** Each start, by the hour or the day in which an instant lies. */
  lemma HourStartOf(now: int, offset: int, hour: int)
    requires (now + offset) / HOUR_MS == hour
    ensures WindowStart(Hour, now, offset) == hour * HOUR_MS - offset
  {
    StartsInDays(now, offset);
  }

  lemma DayStartOf(now: int, offset: int, day: int)
    requires (now + offset) / DAY_MS == day
    ensures WindowStart(Day, now, offset) == day * DAY_MS - offset
  {
    StartsInDays(now, offset);
  }

  lemma WeekStartOf(now: int, offset: int, day: int, monday: int)
    requires (now + offset) / DAY_MS == day && monday == day - (day + 3) % 7
    ensures WindowStart(Week, now, offset) == monday * DAY_MS - offset
  {
    StartsInDays(now, offset);
  }

  lemma MonthStartOf(now: int, offset: int, day: int, first: int)
    requires (now + offset) / DAY_MS == day && first == FirstDay(MonthOf(day))
    ensures WindowStart(Month, now, offset) == first * DAY_MS - offset
  {
    StartsInDays(now, offset);
  }

  lemma HoursMeet(hour: int, offset: int)
    ensures Meet(Hour, hour * HOUR_MS - offset, (hour + 1) * HOUR_MS - offset, offset)
  {
    var end := (hour + 1) * HOUR_MS - offset;
    MultipleOf(hour + 1, HOUR_MS);
    HourStartOf(end - 1, offset, hour);
    HourStartOf(end, offset, hour + 1);
  }

  lemma DaysMeet(day: int, offset: int)
    ensures Meet(Day, day * DAY_MS - offset, (day + 1) * DAY_MS - offset, offset)
  {
    var end := (day + 1) * DAY_MS - offset;
    MultipleOf(day + 1, DAY_MS);
    DayStartOf(end - 1, offset, day);
    DayStartOf(end, offset, day + 1);
  }

  lemma WeeksMeet(monday: int, next: int, offset: int)
    requires monday == next - 7 && (next + 3) % 7 == 0
    ensures Meet(Week, monday * DAY_MS - offset, next * DAY_MS - offset, offset)
  {
    var end := next * DAY_MS - offset;
    MultipleOf(next, DAY_MS);
    WeekStartOf(end - 1, offset, next - 1, monday);
    WeekStartOf(end, offset, next, next);
  }

  lemma MonthsMeet(first: int, next: int, offset: int)
    requires first == FirstDay(MonthOf(next - 1)) && next == FirstDay(MonthOf(next))
    ensures Meet(Month, first * DAY_MS - offset, next * DAY_MS - offset, offset)
  {
    var end := next * DAY_MS - offset;
    MultipleOf(next, DAY_MS);
    MonthStartOf(end - 1, offset, next - 1, first);
    MonthStartOf(end, offset, next, next);
  }

  lemma MonthGrows(month: int)
    ensures FirstDay(month) < FirstDay(month + 1) == FirstDay(month) + DaysIn(month)
  {
  }

  lemma MonthEnds(month: int)
    ensures MonthOf(FirstDay(month + 1) - 1) == month && MonthOf(FirstDay(month + 1)) == month + 1
  {
    MonthGrows(month);
    MonthGrows(month + 1);
    MonthIs(FirstDay(month + 1) - 1, month);
    MonthIs(FirstDay(month + 1), month + 1);
  }

  /** The windows tile the time line: the last millisecond of one has its start, and the next one starts right behind. */
  lemma HourTile(now: int, offset: int)
    ensures Meet(Hour, WindowStart(Hour, now, offset), WindowStart(Hour, now, offset) + WindowLength(Hour, now, offset), offset)
  {
    var hour := (now + offset) / HOUR_MS;
    HourStartOf(now, offset, hour);
    HoursMeet(hour, offset);
  }

  lemma DayTile(now: int, offset: int)
    ensures Meet(Day, WindowStart(Day, now, offset), WindowStart(Day, now, offset) + WindowLength(Day, now, offset), offset)
  {
    var day := (now + offset) / DAY_MS;
    DayStartOf(now, offset, day);
    DaysMeet(day, offset);
  }

  lemma WeekTile(now: int, offset: int)
    ensures Meet(Week, WindowStart(Week, now, offset), WindowStart(Week, now, offset) + WindowLength(Week, now, offset), offset)
  {
    var day := (now + offset) / DAY_MS;
    var monday := day - (day + 3) % 7;
    WeekStartOf(now, offset, day, monday);
    WeeksMeet(monday, monday + 7, offset);
  }

  lemma MonthLength(now: int, offset: int, month: int)
    requires month == MonthOf((now + offset) / DAY_MS)
    ensures WindowLength(Month, now, offset) == (FirstDay(month + 1) - FirstDay(month)) * DAY_MS
  {
    MonthGrows(month);
  }

  lemma MonthTileAt(now: int, offset: int, month: int, first: int, next: int)
    requires month == MonthOf((now + offset) / DAY_MS) && first == FirstDay(month) && next == FirstDay(month + 1)
    ensures WindowStart(Month, now, offset) == first * DAY_MS - offset && Meet(Month, first * DAY_MS - offset, next * DAY_MS - offset, offset)
  {
    MonthEnds(month);
    MonthStartOf(now, offset, (now + offset) / DAY_MS, first);
    MonthsMeet(first, next, offset);
  }

  lemma MonthTile(now: int, offset: int)
    ensures Meet(Month, WindowStart(Month, now, offset), WindowStart(Month, now, offset) + WindowLength(Month, now, offset), offset)
  {
    var month := MonthOf((now + offset) / DAY_MS);
    MonthLength(now, offset, month);
    MonthTileAt(now, offset, month, FirstDay(month), FirstDay(month + 1));
  }

  lemma HourMonotone(now: int, later: int, offset: int)
    requires now <= later
    ensures WindowStart(Hour, now, offset) <= WindowStart(Hour, later, offset)
  {
    StartsInDays(now, offset);
    StartsInDays(later, offset);
    DivMonotone(now + offset, later + offset, HOUR_MS);
  }

  lemma DayMonotone(now: int, later: int, offset: int)
    requires now <= later
    ensures (now + offset) / DAY_MS <= (later + offset) / DAY_MS
    ensures WindowStart(Day, now, offset) <= WindowStart(Day, later, offset)
  {
    StartsInDays(now, offset);
    StartsInDays(later, offset);
    DivMonotone(now + offset, later + offset, DAY_MS);
  }

  lemma WeekMonotone(now: int, later: int, offset: int)
    requires now <= later
    ensures WindowStart(Week, now, offset) <= WindowStart(Week, later, offset)
  {
    DayMonotone(now, later, offset);
    StartsInDays(now, offset);
    StartsInDays(later, offset);
    DivMonotone((now + offset) / DAY_MS + 3, (later + offset) / DAY_MS + 3, 7);
  }

  lemma MonthMonotone(now: int, later: int, offset: int)
    requires now <= later
    ensures WindowStart(Month, now, offset) <= WindowStart(Month, later, offset)
  {
    DayMonotone(now, later, offset);
    StartsInDays(now, offset);
    StartsInDays(later, offset);
    MonthOfMonotone((now + offset) / DAY_MS, (later + offset) / DAY_MS);
  }

  /** Windows never start earlier at a later time. */
  lemma WindowStartMonotone(w: Window, now: int, later: int, offset: int)
    requires now <= later
    ensures WindowStart(w, now, offset) <= WindowStart(w, later, offset)
  {
    match w
    case Hour => HourMonotone(now, later, offset);
    case Day => DayMonotone(now, later, offset);
    case Week => WeekMonotone(now, later, offset);
    case Month => MonthMonotone(now, later, offset);
  }

  lemma DivMonotone(a: int, b: int, n: int)
    requires a <= b && n > 0
    ensures a / n <= b / n && a - a % n <= b - b % n
  {
    var q := a / n - b / n;
    assert q * n < n by {
      assert q * n == (a - a % n) - (b - b % n);
    }
    assert q <= 0;
    assert (a / n) * n <= (b / n) * n;
  }

  /** The week starts at local midnight of the Monday 0 to 6 days back. */
  lemma WeekStartsOnMonday(now: int, offset: int)
    ensures var start := WindowStart(Week, now, offset) + offset;
            && start % DAY_MS == 0 && UTCDay(start) == 1
            && 0 <= (now + offset) / DAY_MS - start / DAY_MS <= 6
  {
    StartsInDays(now, offset);
    var day := (now + offset) / DAY_MS;
    var monday := day - (day + 3) % 7;
    assert (monday * DAY_MS) / DAY_MS == monday && (monday * DAY_MS) % DAY_MS == 0;
    assert (monday + 4) % 7 == 1;
  }

  /** The hour lies in the day, the day in the week and in the month. */
  lemma WindowsNest(now: int, offset: int)
    ensures WindowStart(Hour, now, offset) >= WindowStart(Day, now, offset)
    ensures WindowStart(Day, now, offset) >= WindowStart(Week, now, offset)
    ensures WindowStart(Day, now, offset) >= WindowStart(Month, now, offset)
  {
    StartsInDays(now, offset);
    var local := now + offset;
    HourOfDay(local);
    var day := local / DAY_MS;
    assert local == day * DAY_MS + local % DAY_MS;
    assert local % DAY_MS / HOUR_MS >= 0;
  }
}
