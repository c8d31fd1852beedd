/** clock_floor_policy.h: the closed-form day number and the epoch of a build stamp. */
module ClockFloor {
  import opened ByteStrings
  import opened Options

  const BUILD_MARGIN_S: int := 86400

  // ---- The calendar ----

  datatype Date = Date(y: int, m: int, d: int)

  predicate Leap(y: int) { y % 4 == 0 && (y % 100 != 0 || y % 400 == 0) }

  function MonthLength(y: int, m: int): int
    requires 1 <= m <= 12
  {
    if m == 2 then (if Leap(y) then 29 else 28) else if m in {4, 6, 9, 11} then 30 else 31
  }

  predicate Valid(t: Date) { 1 <= t.m <= 12 && 1 <= t.d <= MonthLength(t.y, t.m) }

  function Successor(t: Date): (r: Date)
    requires Valid(t)
    ensures Valid(r)
  {
    if t.d < MonthLength(t.y, t.m) then t.(d := t.d + 1)
    else if t.m < 12 then Date(t.y, t.m + 1, 1)
    else Date(t.y + 1, 1, 1)
  }

  predicate Before(a: Date, b: Date) {
    a.y < b.y || (a.y == b.y && (a.m < b.m || (a.m == b.m && a.d < b.d)))
  }

  // ---- The closed form ----

  /** Division as C does it, toward zero. */
  function TruncDiv(a: int, b: int): int
    requires b > 0
  {
    if a >= 0 then a / b else -((-a) / b)
  }

  /** Days from the first of March to the first of month m. */
  function MonthOffset(m: int): int { (153 * (m + (if m > 2 then -3 else 9)) + 2) / 5 }

  function DaysFromCivil(t: Date): int {
    var y := if t.m <= 2 then t.y - 1 else t.y;
    var era := TruncDiv(if y >= 0 then y else y - 399, 400);
    var yoe := y - era * 400;
    var doy := MonthOffset(t.m) + t.d - 1;
    var doe := yoe * 365 + yoe / 4 - yoe / 100 + doy;
    era * 146097 + doe - 719468
  }

  /** Days before the first of March of year y, up to a constant. */
  function YearDays(y: int): int { 365 * y + y / 4 - y / 100 + y / 400 }

  lemma EraIsFloor(y: int)
    ensures TruncDiv(if y >= 0 then y else y - 399, 400) == y / 400
  {}

  lemma ClosedForm(t: Date)
    ensures var y := if t.m <= 2 then t.y - 1 else t.y;
            DaysFromCivil(t) == YearDays(y) + MonthOffset(t.m) + t.d - 1 - 719468
  {
    var y := if t.m <= 2 then t.y - 1 else t.y;
    EraIsFloor(y);
    var era, yoe := y / 400, y % 400;
    assert y == 400 * era + yoe;
    assert y / 4 == 100 * era + yoe / 4;
    assert y / 100 == 4 * era + yoe / 100;
  }

  lemma YearLength(y: int)
    ensures YearDays(y + 1) - YearDays(y) == if Leap(y + 1) then 366 else 365
  {
    Carry(y, 4);
    Carry(y, 100);
    Carry(y, 400);
    var z := y + 1;
    assert z % 100 == 0 ==> z % 4 == 0 by { assert z == 100 * (z / 100) + z % 100; }
    assert z % 400 == 0 ==> z % 100 == 0 by { assert z == 400 * (z / 400) + z % 400; }
  }

  lemma Carry(y: int, n: int)
    requires n > 1
    ensures (y + 1) / n == y / n + (if (y + 1) % n == 0 then 1 else 0)
  {
    var q, r := y / n, y % n;
    assert y == n * q + r;
    if r + 1 < n {
      Unique(y + 1, n, q, r + 1);
    } else {
      assert y + 1 == n * (q + 1);
      Unique(y + 1, n, q + 1, 0);
    }
  }

  lemma Unique(x: int, n: int, q: int, r: int)
    requires n > 0 && x == n * q + r && 0 <= r < n
    ensures x / n == q && x % n == r
  {
    var d := q - x / n;
    assert n * d == x % n - r;
    assert d >= 1 ==> n * d >= n;
    assert d <= -1 ==> n * d <= -n;
  }

  /** The day number of the Unix epoch is 0. */
  lemma EpochIsZero()
    ensures DaysFromCivil(Date(1970, 1, 1)) == 0
  {}

  lemma MonthStep(y: int, m: int)
    requires 1 <= m <= 12 && m != 2
    ensures MonthOffset(if m == 12 then 1 else m + 1) == MonthOffset(m) + MonthLength(y, m)
  {}

  lemma MonthEnd(t: Date)
    requires Valid(t) && t.d == MonthLength(t.y, t.m)
    ensures DaysFromCivil(Successor(t)) == DaysFromCivil(t) + 1
  {
    ClosedForm(t);
    ClosedForm(Successor(t));
    if t.m == 2 {
      YearLength(t.y - 1);
      assert MonthOffset(2) == 337 && MonthOffset(3) == 0;
    } else {
      MonthStep(t.y, t.m);
    }
  }

  /** The day number rises by exactly one from every date to the next, in all years. */
  lemma DayByDay(t: Date)
    requires Valid(t)
    ensures DaysFromCivil(Successor(t)) == DaysFromCivil(t) + 1
  {
    if t.d == MonthLength(t.y, t.m) {
      MonthEnd(t);
    } else {
      ClosedForm(t);
      ClosedForm(Successor(t));
    }
  }

  /** The dates between two, counted along the calendar. */
  ghost predicate Apart(a: Date, b: Date, n: nat)
    requires Valid(a)
    decreases n
  {
    if n == 0 then a == b else Apart(Successor(a), b, n - 1)
  }

  /** The day number counts the days along the calendar from any date to any later one. */
  lemma {:induction false} CountsDays(a: Date, b: Date, n: nat)
    requires Valid(a) && Apart(a, b, n)
    ensures DaysFromCivil(b) == DaysFromCivil(a) + n
    decreases n
  {
    if n > 0 {
      DayByDay(a);
      CountsDays(Successor(a), b, n - 1);
    }
  }

  /** Every later date is reached. */
  lemma {:induction false} Reaches(a: Date, b: Date) returns (n: nat)
    requires Valid(a) && Valid(b) && (a == b || Before(a, b))
    ensures Apart(a, b, n) && (n == 0 <==> a == b)
    decreases b.y - a.y, if a.y == b.y then b.m - a.m else 12 - a.m,
              if a.y == b.y && a.m == b.m then b.d - a.d else 31 - a.d
  {
    if a == b { n := 0; }
    else {
      var k := Reaches(Successor(a), b);
      n := k + 1;
    }
  }

  /** Day numbers order dates, and no two dates share one. */
  lemma {:induction false} OrderOfDays(a: Date, b: Date)
    requires Valid(a) && Valid(b)
    ensures Before(a, b) <==> DaysFromCivil(a) < DaysFromCivil(b)
    ensures a == b <==> DaysFromCivil(a) == DaysFromCivil(b)
  {
    if Before(a, b) {
      var n := Reaches(a, b);
      CountsDays(a, b, n);
    } else if a != b {
      var n := Reaches(b, a);
      CountsDays(b, a, n);
    }
  }

  // ---- The build stamp ----

  type Name = (char, char, char)

  function MonthName(m: int): Name
    requires 1 <= m <= 12
  {
    if m == 1 then ('J', 'a', 'n') else if m == 2 then ('F', 'e', 'b') else if m == 3 then ('M', 'a', 'r')
    else if m == 4 then ('A', 'p', 'r') else if m == 5 then ('M', 'a', 'y') else if m == 6 then ('J', 'u', 'n')
    else if m == 7 then ('J', 'u', 'l') else if m == 8 then ('A', 'u', 'g') else if m == 9 then ('S', 'e', 'p')
    else if m == 10 then ('O', 'c', 't') else if m == 11 then ('N', 'o', 'v') else ('D', 'e', 'c')
  }

  /** C reads a terminator behind the text. */
  function At(s: string, i: nat): char { if i < |s| then s[i] else '\0' }

  function Digit(c: char): int { c as int - 48 }

  predicate MonthHere(date: string, m: int)
    requires 1 <= m <= 12
  {
    (At(date, 0), At(date, 1), At(date, 2)) == MonthName(m)
  }

  /** The first month from m on whose name starts the text, or 0. */
  function MonthFrom(date: string, m: int): (r: int)
    requires 1 <= m <= 13
    ensures 0 <= r <= 12
    decreases 13 - m
  {
    if m == 13 then 0 else if MonthHere(date, m) then m else MonthFrom(date, m + 1)
  }

  function DayOf(date: string): Option<int> {
    var a, b := At(date, 4), At(date, 5);
    if a == ' ' then (if b < '1' || b > '9' then None else Some(Digit(b)))
    else if a < '1' || a > '3' || !IsDigit(b) || Digit(a) * 10 + Digit(b) > 31 then None
    else Some(Digit(a) * 10 + Digit(b))
  }

  function YearFrom(date: string, i: nat, year: int): Option<int>
    requires i <= 11
    decreases 11 - i
  {
    if i == 11 then Some(year)
    else if !IsDigit(At(date, i)) then None
    else YearFrom(date, i + 1, year * 10 + Digit(At(date, i)))
  }

  function DateOf(date: string): Option<Date> {
    var m, d, y := MonthFrom(date, 1), DayOf(date), YearFrom(date, 7, 0);
    if m == 0 || At(date, 3) != ' ' || d.None? || At(date, 6) != ' ' || y.None? || y.value < 2023 then None
    else Some(Date(y.value, m, d.value))
  }

  predicate TimeShape(time: string, i: nat) {
    if i == 2 || i == 5 then At(time, i) == ':' else IsDigit(At(time, i))
  }

  function TwoDigits(s: string, i: nat): int { Digit(At(s, i)) * 10 + Digit(At(s, i + 1)) }

  /** Seconds into the day. */
  function SecondsOf(time: string): Option<int> {
    if exists i :: 0 <= i < 8 && !TimeShape(time, i) then None
    else
      var hh, mm, ss := TwoDigits(time, 0), TwoDigits(time, 3), TwoDigits(time, 6);
      if hh > 23 || mm > 59 || ss > 60 then None else Some(hh * 3600 + mm * 60 + ss)
  }

  /** The exact second count of a stamp, when it reads as one. */
  function Exact(date: string, time: string): Option<int> {
    var t, s := DateOf(date), SecondsOf(time);
    if t.None? || s.None? then None else Some(DaysFromCivil(t.value) * 86400 + s.value)
  }

  method ReadMonth(date: string) returns (mon: int)
    ensures mon == MonthFrom(date, 1)
  {
    for m := 1 to 13
      invariant MonthFrom(date, 1) == MonthFrom(date, m)
    {
      if MonthHere(date, m) { return m; }
    }
    return 0;
  }

  method ReadYear(date: string) returns (year: Option<int>)
    ensures year == YearFrom(date, 7, 0)
  {
    var y := 0;
    for k := 7 to 11
      invariant YearFrom(date, 7, 0) == YearFrom(date, k, y)
    {
      if !IsDigit(At(date, k)) { return None; }
      y := y * 10 + Digit(At(date, k));
    }
    return Some(y);
  }

  method ReadDate(date: string) returns (t: Option<Date>)
    ensures t == DateOf(date)
  {
    var mon := ReadMonth(date);
    if mon == 0 || At(date, 3) != ' ' { return None; }
    var day := DayOf(date);
    if day.None? || At(date, 6) != ' ' { return None; }
    var year := ReadYear(date);
    if year.None? || year.value < 2023 { return None; }
    return Some(Date(year.value, mon, day.value));
  }

  method ReadSeconds(time: string) returns (s: Option<int>)
    ensures s == SecondsOf(time)
  {
    for k := 0 to 8
      invariant forall j :: 0 <= j < k ==> TimeShape(time, j)
    {
      if !TimeShape(time, k) { return None; }
    }
    var hh, mm, ss := TwoDigits(time, 0), TwoDigits(time, 3), TwoDigits(time, 6);
    if hh > 23 || mm > 59 || ss > 60 { return None; }
    return Some(hh * 3600 + mm * 60 + ss);
  }

  /** What is left of a second count after the margin, in 32 bits. */
  function Wrapped(seconds: int): int { (seconds - BUILD_MARGIN_S) % WORD }

  lemma WrappedIsExact(seconds: int)
    requires seconds >= BUILD_MARGIN_S
    ensures Wrapped(seconds) == seconds - BUILD_MARGIN_S <==> seconds < WORD + BUILD_MARGIN_S
  {}

  method BuildEpoch(date: string, time: string) returns (epoch: int)
    ensures var e := Exact(date, time);
            epoch == if e.None? || e.value <= BUILD_MARGIN_S then 0 else Wrapped(e.value)
  {
    var t := ReadDate(date);
    if t.None? { return 0; }
    var s := ReadSeconds(time);
    if s.None? { return 0; }
    var whole := DaysFromCivil(t.value) * 86400 + s.value;
    if whole <= BUILD_MARGIN_S { return 0; }
    return Wrapped(whole);
  }

  // ---- Stamps as a compiler writes them ----

  datatype Stamp = Stamp(date: Date, hh: int, mm: int, ss: int)

  lemma ValidIsShape(t: Date)
    requires Valid(t) && 1000 <= t.y <= 9999
    ensures DateShape(t)
  {}

  predicate StampOk(b: Stamp) {
    Valid(b.date) && 2023 <= b.date.y <= 9999 && 0 <= b.hh <= 23 && 0 <= b.mm <= 59 && 0 <= b.ss <= 59
  }

  function Ch(n: int): char
    requires 0 <= n <= 9
  {
    (48 + n) as char
  }

  /** A month, a day of at most 31 and a year of four digits; the day need not be in the month. */
  predicate DateShape(t: Date) { 1 <= t.m <= 12 && 1 <= t.d <= 31 && 1000 <= t.y <= 9999 }

  /** __DATE__: month name, day padded with a space, year. */
  function DateText(t: Date): string
    requires DateShape(t)
  {
    var n := MonthName(t.m);
    [n.0, n.1, n.2, ' ', if t.d < 10 then ' ' else Ch(t.d / 10), Ch(t.d % 10), ' ',
     Ch(t.y / 1000), Ch(t.y / 100 % 10), Ch(t.y / 10 % 10), Ch(t.y % 10)]
  }

  function ClockText(hh: int, mm: int, ss: int): string
    requires 0 <= hh <= 23 && 0 <= mm <= 59 && 0 <= ss <= 60
  {
    [Ch(hh / 10), Ch(hh % 10), ':', Ch(mm / 10), Ch(mm % 10), ':', Ch(ss / 10), Ch(ss % 10)]
  }

  function TimeText(b: Stamp): string
    requires StampOk(b)
  {
    ClockText(b.hh, b.mm, b.ss)
  }

  /** Seconds since the Unix epoch. */
  function Seconds(b: Stamp): int { DaysFromCivil(b.date) * 86400 + b.hh * 3600 + b.mm * 60 + b.ss }

  lemma {:induction false} MonthRead(date: string, m: int, i: int)
    requires 1 <= i <= m <= 12 && MonthHere(date, m)
    ensures MonthFrom(date, i) == m
    decreases m - i
  {
    if i < m {
      NamesDiffer(i, m);
      MonthRead(date, m, i + 1);
    }
  }

  lemma NamesDiffer(i: int, j: int)
    requires 1 <= i < j <= 12
    ensures MonthName(i) != MonthName(j)
  {}

  lemma {:induction false} YearRead(date: string, y: int)
    requires 1000 <= y <= 9999
    requires At(date, 7) == Ch(y / 1000) && At(date, 8) == Ch(y / 100 % 10)
    requires At(date, 9) == Ch(y / 10 % 10) && At(date, 10) == Ch(y % 10)
    ensures YearFrom(date, 7, 0) == Some(y)
  {
    var a, b, c := y / 1000, y / 100, y / 10;
    assert b == 10 * a + b % 10 && c == 10 * b + c % 10 && y == 10 * c + y % 10;
    assert YearFrom(date, 10, c) == Some(y) by { assert YearFrom(date, 11, y) == Some(y); }
    assert YearFrom(date, 9, b) == Some(y);
    assert YearFrom(date, 8, a) == Some(y);
  }

  // ---- Nothing else is read ----

  lemma {:induction false} MonthFound(date: string, m: int)
    requires 1 <= m <= 13 && MonthFrom(date, m) != 0
    ensures MonthHere(date, MonthFrom(date, m))
    decreases 13 - m
  {
    if !MonthHere(date, m) { MonthFound(date, m + 1); }
  }

  lemma {:induction false} YearFound(date: string, y: int)
    requires YearFrom(date, 7, 0) == Some(y) && y >= 1000
    ensures y <= 9999 && |date| >= 11
    ensures At(date, 7) == Ch(y / 1000) && At(date, 8) == Ch(y / 100 % 10)
    ensures At(date, 9) == Ch(y / 10 % 10) && At(date, 10) == Ch(y % 10)
  {
    var a, b, c, e := Digit(At(date, 7)), Digit(At(date, 8)), Digit(At(date, 9)), Digit(At(date, 10));
    assert YearFrom(date, 8, a) == Some(y);
    assert YearFrom(date, 9, 10 * a + b) == Some(y);
    assert YearFrom(date, 10, 10 * (10 * a + b) + c) == Some(y);
    assert YearFrom(date, 11, 10 * (10 * (10 * a + b) + c) + e) == Some(y);
    assert y / 10 == 10 * (10 * a + b) + c && y / 100 == 10 * a + b && y / 1000 == a;
  }

  lemma {:induction false} DayFound(date: string, d: int)
    requires DayOf(date) == Some(d)
    ensures 1 <= d <= 31 && At(date, 4) == (if d < 10 then ' ' else Ch(d / 10)) && At(date, 5) == Ch(d % 10)
  {}

  /** A date is read exactly from its own text, whatever follows; every other text is malformed. */
  lemma {:induction false} DateIsExact(date: string, t: Date)
    ensures DateOf(date) == Some(t) <==>
              DateShape(t) && t.y >= 2023 && |date| >= 11 && date[..11] == DateText(t)
  {
    if DateOf(date) == Some(t) {
      MonthFound(date, 1);
      YearFound(date, t.y);
      DayFound(date, t.d);
    }
    if DateShape(t) && t.y >= 2023 && |date| >= 11 && date[..11] == DateText(t) { TextIsRead(date, t); }
  }

  lemma {:induction false} TextIsRead(date: string, t: Date)
    requires DateShape(t) && t.y >= 2023 && |date| >= 11 && date[..11] == DateText(t)
    ensures DateOf(date) == Some(t)
  {
    var s := DateText(t);
    assert forall i :: 0 <= i < 11 ==> At(date, i) == date[..11][i];
    assert MonthFrom(date, 1) == t.m by { MonthRead(date, t.m, 1); }
    assert DayOf(date) == Some(t.d);
    assert YearFrom(date, 7, 0) == Some(t.y) by { YearRead(date, t.y); }
  }

  /** And a time exactly from its own. */
  lemma {:induction false} TimeIsExact(time: string, s: int)
    ensures SecondsOf(time) == Some(s) <==>
              |time| >= 8 && exists hh, mm, ss ::
                0 <= hh <= 23 && 0 <= mm <= 59 && 0 <= ss <= 60 && time[..8] == ClockText(hh, mm, ss)
                && s == hh * 3600 + mm * 60 + ss
  {
    if SecondsOf(time) == Some(s) {
      var hh, mm, ss := TwoDigits(time, 0), TwoDigits(time, 3), TwoDigits(time, 6);
      TimeFound(time);
      assert 0 <= hh <= 23 && 0 <= mm <= 59 && 0 <= ss <= 60 && time[..8] == ClockText(hh, mm, ss);
    }
    if |time| >= 8 {
      forall hh, mm, ss | 0 <= hh <= 23 && 0 <= mm <= 59 && 0 <= ss <= 60 && time[..8] == ClockText(hh, mm, ss)
        ensures SecondsOf(time) == Some(hh * 3600 + mm * 60 + ss)
      {
        ClockIsRead(time, hh, mm, ss);
      }
    }
  }

  lemma {:induction false} TwoFound(s: string, i: nat)
    requires IsDigit(At(s, i)) && IsDigit(At(s, i + 1))
    ensures var n := TwoDigits(s, i);
            0 <= n <= 99 && At(s, i) == Ch(n / 10) && At(s, i + 1) == Ch(n % 10) && i + 1 < |s|
  {}

  lemma {:induction false} TimeFound(time: string)
    requires SecondsOf(time).Some?
    ensures var hh, mm, ss := TwoDigits(time, 0), TwoDigits(time, 3), TwoDigits(time, 6);
            && |time| >= 8 && 0 <= hh <= 23 && 0 <= mm <= 59 && 0 <= ss <= 60 && time[..8] == ClockText(hh, mm, ss)
            && SecondsOf(time) == Some(hh * 3600 + mm * 60 + ss)
  {
    forall i | 0 <= i < 8 ensures TimeShape(time, i) {}
    assert TimeShape(time, 0) && TimeShape(time, 1) && TimeShape(time, 2) && TimeShape(time, 3);
    assert TimeShape(time, 4) && TimeShape(time, 5) && TimeShape(time, 6) && TimeShape(time, 7);
    TwoFound(time, 0);
    TwoFound(time, 3);
    TwoFound(time, 6);
    assert forall i :: 0 <= i < 8 ==> At(time, i) == time[..8][i];
  }

  lemma {:induction false} ClockIsRead(time: string, hh: int, mm: int, ss: int)
    requires 0 <= hh <= 23 && 0 <= mm <= 59 && 0 <= ss <= 60 && |time| >= 8 && time[..8] == ClockText(hh, mm, ss)
    ensures SecondsOf(time) == Some(hh * 3600 + mm * 60 + ss)
  {
    assert forall i :: 0 <= i < 8 ==> At(time, i) == time[..8][i];
    forall i | 0 <= i < 8 ensures TimeShape(time, i) {}
    assert TwoDigits(time, 0) == hh && TwoDigits(time, 3) == mm && TwoDigits(time, 6) == ss;
  }

  /** The stamp a compiler writes reads back as its second count. */
  lemma {:induction false} StampRead(b: Stamp)
    requires StampOk(b)
    ensures Exact(DateText(b.date), TimeText(b)) == Some(Seconds(b))
  {
    ValidIsShape(b.date);
    assert DateText(b.date)[..11] == DateText(b.date) && TimeText(b)[..8] == TimeText(b);
    TextIsRead(DateText(b.date), b.date);
    ClockIsRead(TimeText(b), b.hh, b.mm, b.ss);
    ExactOf(DateText(b.date), TimeText(b), b);
  }

  lemma ExactOf(date: string, time: string, b: Stamp)
    requires DateOf(date) == Some(b.date) && SecondsOf(time) == Some(b.hh * 3600 + b.mm * 60 + b.ss)
    ensures Exact(date, time) == Some(Seconds(b))
  {}

  /** The build epoch of a stamp; BuildEpoch computes it from the texts. */
  function Floor(b: Stamp): int { Wrapped(Seconds(b)) }

  lemma StampIsLate(b: Stamp)
    requires StampOk(b)
    ensures Seconds(b) > BUILD_MARGIN_S
  {
    if b.date != Date(1971, 1, 1) { OrderOfDays(Date(1971, 1, 1), b.date); }
    assert DaysFromCivil(Date(1971, 1, 1)) == 365;
  }

  method FloorOfStamp(b: Stamp) returns (epoch: int)
    requires StampOk(b)
    ensures epoch == Floor(b)
    ensures epoch == Seconds(b) - BUILD_MARGIN_S <==> Seconds(b) < WORD + BUILD_MARGIN_S
  {
    StampRead(b);
    StampIsLate(b);
    WrappedIsExact(Seconds(b));
    epoch := BuildEpoch(DateText(b.date), TimeText(b));
  }

  predicate Earlier(a: Stamp, b: Stamp) {
    Before(a.date, b.date)
    || (a.date == b.date && (a.hh < b.hh || (a.hh == b.hh && (a.mm < b.mm || (a.mm == b.mm && a.ss < b.ss)))))
  }

  lemma SecondsOrder(a: Stamp, b: Stamp)
    requires StampOk(a) && StampOk(b)
    ensures Earlier(a, b) <==> Seconds(a) < Seconds(b)
  {
    OrderOfDays(a.date, b.date);
  }

  /** Floors order stamps as time does, for all stamps whose second count less a day fits 32 bits. */
  lemma FloorOrder(a: Stamp, b: Stamp)
    requires StampOk(a) && StampOk(b)
    requires Seconds(a) < WORD + BUILD_MARGIN_S && Seconds(b) < WORD + BUILD_MARGIN_S
    ensures Earlier(a, b) <==> Floor(a) < Floor(b)
  {
    SecondsOrder(a, b);
    StampIsLate(a);
    StampIsLate(b);
    WrappedIsExact(Seconds(a));
    WrappedIsExact(Seconds(b));
  }

  /** The last stamp that fits, and its successor whose floor is back at zero. */
  lemma FloorWraps()
    ensures var last, next := Stamp(Date(2106, 2, 8), 6, 28, 15), Stamp(Date(2106, 2, 8), 6, 28, 16);
            StampOk(last) && StampOk(next) && Earlier(last, next)
            && Seconds(last) == WORD + BUILD_MARGIN_S - 1 && Floor(last) == WORD - 1 && Floor(next) == 0
  {}
}
