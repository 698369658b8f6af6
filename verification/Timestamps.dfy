/** The two texts SQLite compares when it looks for expired rows, and what their order means. */
module Timestamps {
  import opened Common
  import opened SessionEvents
  import opened Windows

  /** Text order: character by character, and a proper prefix comes first. */
  predicate TextLess(a: string, b: string) {
    b != [] && (a == [] || a[0] < b[0] || (a[0] == b[0] && TextLess(a[1..], b[1..])))
  }

  function Digit(n: int): char
    requires 0 <= n < 10
  {
    '0' + n as char
  }

  function Two(n: int): string
    requires 0 <= n < 100
  {
    [Digit(n / 10), Digit(n % 10)]
  }

  function Four(n: int): string
    requires 0 <= n <= 9999
  {
    Two(n / 100) + Two(n % 100)
  }

  function YearOf(day: int): int {
    1970 + MonthOf(day) / 12
  }

  /** Both formats write the year with four digits. */
  predicate FourDigitYear(t: int) {
    0 <= YearOf(t / DAY_MS) <= 9999
  }

  /** The day of the month. */
  function DayOf(day: int): (r: int)
    ensures 1 <= r <= 31
  {
    var m := MonthOf(day);
    assert FirstDay(m + 1) == FirstDay(m) + DaysIn(m);
    day - FirstDay(m) + 1
  }

  function MonthDay(month: int, day: int): string
    requires 0 <= month < 100 && 0 <= day < 100
  {
    "-" + (Two(month) + ("-" + Two(day)))
  }

  /** YYYY-MM-DD. */
  function DateText(day: int): string
    requires 0 <= YearOf(day) <= 9999
  {
    Four(YearOf(day)) + MonthDay(MonthOf(day) % 12 + 1, DayOf(day))
  }

  /** The time of day, taken apart. */
  datatype Clock = Clock(hour: int, minute: int, second: int, tenth: int, rest: int) {
    predicate Valid() {
      0 <= hour < 24 && 0 <= minute < 60 && 0 <= second < 60 && 0 <= tenth < 10 && 0 <= rest < 100
    }
  }

  /** Milliseconds as one digit of tenths and two more. */
  function ClockOf(t: int): (c: Clock)
    ensures c.Valid()
  {
    var inDay := t % DAY_MS;
    var inHour := inDay % HOUR_MS;
    var inMinute := inHour % 60_000;
    var inSecond := inMinute % 1000;
    Clock(inDay / HOUR_MS, inHour / 60_000, inMinute / 1000, inSecond / 100, inSecond % 100)
  }

  /** HH:MM:SS. */
  function TimeText(c: Clock): string
    requires c.Valid()
  {
    Two(c.hour) + (":" + (Two(c.minute) + (":" + Two(c.second))))
  }

  /** HH:MM:SS.mmmZ. */
  function IsoTimeText(c: Clock): string
    requires c.Valid()
  {
    Two(c.hour) + (":" + (Two(c.minute) + (":" + (Two(c.second) + ("." + ([Digit(c.tenth)] + (Two(c.rest) + "Z")))))))
  }

  /** The column default, `datetime('now')`. */
  function StoredText(t: int): string
    requires FourDigitYear(t)
  {
    DateText(t / DAY_MS) + (" " + TimeText(ClockOf(t)))
  }

  /** A time as `toISOString` writes it: every cutoff, and the creation times of the session stream service. */
  function IsoText(t: int): string
    requires FourDigitYear(t)
  {
    DateText(t / DAY_MS) + ("T" + IsoTimeText(ClockOf(t)))
  }

  /** Texts of equal length decide the order of what starts with them, unless they are equal. */
  /** The parts of a date, from its year and month. */
  lemma DateIs(day: int, year: int, m: nat, dayOfMonth: nat)
    requires m < 12 && 1 <= dayOfMonth <= 28
    requires day == FirstDay(12 * (year - 1970) + m) + dayOfMonth - 1
    ensures YearOf(day) == year && MonthOf(day) % 12 == m && DayOf(day) == dayOfMonth
  {
    var month := 12 * (year - 1970) + m;
    assert FirstDay(month + 1) == FirstDay(month) + DaysIn(month);
    MonthIs(day, month);
    assert month / 12 == year - 1970 && month % 12 == m;
  }

  lemma NinthOfJanuary(day: int)
    requires day == 19_731
    ensures YearOf(day) == 2024 && MonthOf(day) % 12 == 0 && DayOf(day) == 9
  {
    YearStarts(2024);
    DateIs(day, 2024, 0, 9);
  }

  lemma DigitsOf(y: int, d: int)
    requires y == 2024 && d == 9
    ensures Four(y) == "2024" && MonthDay(1, d) == "-01-09"
  {
  }

  lemma NinthOfJanuaryText(day: int)
    requires day == 19_731
    ensures 0 <= YearOf(day) <= 9999 && DateText(day) == "2024" + "-01-09"
  {
    NinthOfJanuary(day);
    DigitsOf(YearOf(day), DayOf(day));
  }

  lemma LateEvening(t: int)
    requires t % DAY_MS == 23 * HOUR_MS + 45 * 60_000 + 6_789
    ensures ClockOf(t) == Clock(23, 45, 6, 7, 89)
  {
  }

  lemma LateEveningTexts(c: Clock)
    requires c == Clock(23, 45, 6, 7, 89)
    ensures TimeText(c) == "23:45:06" && IsoTimeText(c) == "23:45:06.789Z"
  {
  }

  lemma Joined(date: string)
    ensures date + (" " + "23:45:06") == date + " 23:45:06" && date + ("T" + "23:45:06.789Z") == date + "T23:45:06.789Z"
  {
    assert " " + "23:45:06" == " 23:45:06" && "T" + "23:45:06.789Z" == "T23:45:06.789Z";
  }

  /** 9 January 2024, day 19 731, at 23:45:06.789, as both formats write it. */
  lemma TextsOfInstant(t: int)
    requires t / DAY_MS == 19_731 && t % DAY_MS == 23 * HOUR_MS + 45 * 60_000 + 6_789
    ensures FourDigitYear(t) && StoredText(t) == "2024" + "-01-09" + " 23:45:06" && IsoText(t) == "2024" + "-01-09" + "T23:45:06.789Z"
  {
    var day, c := t / DAY_MS, ClockOf(t);
    NinthOfJanuaryText(day);
    LateEvening(t);
    LateEveningTexts(c);
    Joined(DateText(day));
  }

  lemma {:induction false} TextLessConcat(p: string, q: string, a: string, b: string)
    requires |p| == |q|
    ensures TextLess(p + a, q + b) <==> TextLess(p, q) || (p == q && TextLess(a, b))
  {
    if p == [] {
      assert p + a == a && q + b == b;
    } else {
      assert (p + a)[1..] == p[1..] + a && (q + b)[1..] == q[1..] + b;
      assert p == q <==> p[0] == q[0] && p[1..] == q[1..];
      TextLessConcat(p[1..], q[1..], a, b);
    }
  }

  lemma OneOrder(c: char, d: char)
    ensures TextLess([c], [d]) <==> c < d
  {
    assert [c][1..] == [] && [d][1..] == [];
    assert !TextLess([], []);
  }

  lemma TwoOrder(x: int, y: int)
    requires 0 <= x < 100 && 0 <= y < 100
    ensures TextLess(Two(x), Two(y)) <==> x < y
    ensures Two(x) == Two(y) <==> x == y
  {
    var a, b := Two(x), Two(y);
    assert a == [a[0]] + [a[1]] && b == [b[0]] + [b[1]];
    OneOrder(a[0], b[0]);
    OneOrder(a[1], b[1]);
    TextLessConcat([a[0]], [b[0]], [a[1]], [b[1]]);
    assert x == 10 * (x / 10) + x % 10 && y == 10 * (y / 10) + y % 10;
    assert [a[0]] == [b[0]] <==> a[0] == b[0];
    assert a == b <==> a[0] == b[0] && a[1] == b[1];
  }

  /** A two-digit part in front: it decides, or what follows does. */
  lemma {:induction false} PartOrder(x: int, y: int, a: string, b: string)
    requires 0 <= x < 100 && 0 <= y < 100
    ensures TextLess(Two(x) + a, Two(y) + b) <==> x < y || (x == y && TextLess(a, b))
    ensures Two(x) + a == Two(y) + b <==> x == y && a == b
  {
    TextLessConcat(Two(x), Two(y), a, b);
    TwoOrder(x, y);
    assert (Two(x) + a)[..2] == Two(x) && (Two(y) + b)[..2] == Two(y);
    assert (Two(x) + a)[2..] == a && (Two(y) + b)[2..] == b;
  }

  /** The same for a four-digit part. */
  lemma {:induction false} FourOrder(x: int, y: int, a: string, b: string)
    requires 0 <= x <= 9999 && 0 <= y <= 9999
    ensures TextLess(Four(x) + a, Four(y) + b) <==> x < y || (x == y && TextLess(a, b))
    ensures Four(x) + a == Four(y) + b <==> x == y && a == b
  {
    assert Four(x) + a == Two(x / 100) + (Two(x % 100) + a) && Four(y) + b == Two(y / 100) + (Two(y % 100) + b);
    PartOrder(x % 100, y % 100, a, b);
    PartOrder(x / 100, y / 100, Two(x % 100) + a, Two(y % 100) + b);
  }

  lemma {:induction false} MarkOrder(mark: char, a: string, b: string)
    ensures TextLess([mark] + a, [mark] + b) <==> TextLess(a, b)
    ensures [mark] + a == [mark] + b <==> a == b
  {
    assert ([mark] + a)[1..] == a && ([mark] + b)[1..] == b;
  }

  lemma MonthDayOrder(m: int, x: int, n: int, y: int)
    requires 0 <= m < 100 && 0 <= x < 100 && 0 <= n < 100 && 0 <= y < 100
    ensures TextLess(MonthDay(m, x), MonthDay(n, y)) <==> m < n || (m == n && x < y)
    ensures MonthDay(m, x) == MonthDay(n, y) <==> m == n && x == y
  {
    TwoOrder(x, y);
    MarkOrder('-', Two(x), Two(y));
    PartOrder(m, n, "-" + Two(x), "-" + Two(y));
    MarkOrder('-', Two(m) + ("-" + Two(x)), Two(n) + ("-" + Two(y)));
  }

  /** Days are ordered as year, month and day of the month are. */
  lemma DayOrder(d: int, e: int)
    ensures var m, n := MonthOf(d) % 12, MonthOf(e) % 12;
            && (d < e <==> YearOf(d) < YearOf(e) || (YearOf(d) == YearOf(e) && (m < n || (m == n && DayOf(d) < DayOf(e)))))
            && (d == e <==> YearOf(d) == YearOf(e) && m == n && DayOf(d) == DayOf(e))
  {
    MonthOfMonotone(Min(d, e), Max(d, e));
    assert MonthOf(d) == 12 * (MonthOf(d) / 12) + MonthOf(d) % 12 && MonthOf(e) == 12 * (MonthOf(e) / 12) + MonthOf(e) % 12;
  }

  lemma DatePartsOrder(y: int, m: int, d: int, y': int, m': int, d': int)
    requires 0 <= y <= 9999 && 0 <= m < 100 && 0 <= d < 100 && 0 <= y' <= 9999 && 0 <= m' < 100 && 0 <= d' < 100
    ensures TextLess(Four(y) + MonthDay(m, d), Four(y') + MonthDay(m', d'))
            <==> y < y' || (y == y' && (m < m' || (m == m' && d < d')))
    ensures Four(y) + MonthDay(m, d) == Four(y') + MonthDay(m', d') <==> y == y' && m == m' && d == d'
  {
    MonthDayOrder(m, d, m', d');
    FourOrder(y, y', MonthDay(m, d), MonthDay(m', d'));
  }

  lemma DateOrder(d: int, e: int)
    requires 0 <= YearOf(d) <= 9999 && 0 <= YearOf(e) <= 9999
    ensures TextLess(DateText(d), DateText(e)) <==> d < e
    ensures DateText(d) == DateText(e) <==> d == e
  {
    DatePartsOrder(YearOf(d), MonthOf(d) % 12 + 1, DayOf(d), YearOf(e), MonthOf(e) % 12 + 1, DayOf(e));
    DayOrder(d, e);
  }

  /** Earlier on the clock. */
  predicate ClockLess(a: Clock, b: Clock) {
    a.hour < b.hour || (a.hour == b.hour &&
    (a.minute < b.minute || (a.minute == b.minute &&
    (a.second < b.second || (a.second == b.second &&
    (a.tenth < b.tenth || (a.tenth == b.tenth && a.rest < b.rest)))))))
  }

  lemma ClockOrder(t: int, u: int)
    ensures t % DAY_MS < u % DAY_MS <==> ClockLess(ClockOf(t), ClockOf(u))
  {
    ClockParts(t);
    ClockParts(u);
  }

  lemma ClockParts(t: int)
    ensures var c := ClockOf(t);
            t % DAY_MS == c.hour * HOUR_MS + c.minute * 60_000 + c.second * 1000 + c.tenth * 100 + c.rest
  {
  }

  lemma MillisecondOrder(x: int, y: int, x': int, y': int)
    requires 0 <= x < 10 && 0 <= y < 100 && 0 <= x' < 10 && 0 <= y' < 100
    ensures TextLess([Digit(x)] + (Two(y) + "Z"), [Digit(x')] + (Two(y') + "Z")) <==> x < x' || (x == x' && y < y')
  {
    PartOrder(y, y', "Z", "Z");
    TextLessIrreflexive("Z");
    OneOrder(Digit(x), Digit(x'));
    TextLessConcat([Digit(x)], [Digit(x')], Two(y) + "Z", Two(y') + "Z");
    assert [Digit(x)] == [Digit(x')] <==> x == x';
  }

  lemma {:induction false} TextLessIrreflexive(a: string)
    ensures !TextLess(a, a)
  {
    if a != [] { TextLessIrreflexive(a[1..]); }
  }

  lemma SecondOrder(c: Clock, d: Clock)
    requires c.Valid() && d.Valid()
    ensures var a, b := Two(c.second) + ("." + ([Digit(c.tenth)] + (Two(c.rest) + "Z"))),
                        Two(d.second) + ("." + ([Digit(d.tenth)] + (Two(d.rest) + "Z")));
            TextLess(a, b) <==> c.second < d.second
                                || (c.second == d.second && (c.tenth < d.tenth || (c.tenth == d.tenth && c.rest < d.rest)))
  {
    var a, b := [Digit(c.tenth)] + (Two(c.rest) + "Z"), [Digit(d.tenth)] + (Two(d.rest) + "Z");
    MillisecondOrder(c.tenth, c.rest, d.tenth, d.rest);
    MarkOrder('.', a, b);
    PartOrder(c.second, d.second, "." + a, "." + b);
  }

  lemma IsoTimeOrder(c: Clock, d: Clock)
    requires c.Valid() && d.Valid()
    ensures TextLess(IsoTimeText(c), IsoTimeText(d)) <==> ClockLess(c, d)
  {
    var a, b := Two(c.second) + ("." + ([Digit(c.tenth)] + (Two(c.rest) + "Z"))),
                Two(d.second) + ("." + ([Digit(d.tenth)] + (Two(d.rest) + "Z")));
    SecondOrder(c, d);
    MarkOrder(':', a, b);
    PartOrder(c.minute, d.minute, ":" + a, ":" + b);
    MarkOrder(':', Two(c.minute) + (":" + a), Two(d.minute) + (":" + b));
    PartOrder(c.hour, d.hour, ":" + (Two(c.minute) + (":" + a)), ":" + (Two(d.minute) + (":" + b)));
  }

  /** ISO texts sort as the instants they stand for. */
  lemma IsoOrderIsInstantOrder(t: int, u: int)
    requires FourDigitYear(t) && FourDigitYear(u)
    ensures TextLess(IsoText(t), IsoText(u)) <==> t < u
    ensures TextLess(IsoText(t), IsoText(u)) <==> SortsBefore(Sqlite, Stamp(t, Iso), u)
  {
    var a, b := IsoTimeText(ClockOf(t)), IsoTimeText(ClockOf(u));
    DateOrder(t / DAY_MS, u / DAY_MS);
    TextLessConcat(DateText(t / DAY_MS), DateText(u / DAY_MS), "T" + a, "T" + b);
    MarkOrder('T', a, b);
    IsoTimeOrder(ClockOf(t), ClockOf(u));
    ClockOrder(t, u);
    assert t == t / DAY_MS * DAY_MS + t % DAY_MS && u == u / DAY_MS * DAY_MS + u % DAY_MS;
  }

  /**
   * SQLite's comparison of a default creation time with the cutoff looks at the UTC days only: on equal days the
   * blank of the one sorts before the `T` of the other, whatever the times are.
   */
  lemma TextOrderIsDayOrder(createdAt: int, cutoff: int)
    requires FourDigitYear(createdAt) && FourDigitYear(cutoff)
    ensures TextLess(StoredText(createdAt), IsoText(cutoff)) <==> SortsBefore(Sqlite, Stamp(createdAt, ColumnDefault), cutoff)
  {
    DateOrder(createdAt / DAY_MS, cutoff / DAY_MS);
    TextLessConcat(DateText(createdAt / DAY_MS), DateText(cutoff / DAY_MS),
                   " " + TimeText(ClockOf(createdAt)), "T" + IsoTimeText(ClockOf(cutoff)));
  }
}
