/**
The estimate of a cron schedule's period against the times the schedule fires:
for which schedules "overdue" can be trusted. Time is in minutes from a Sunday midnight.
*/
module Cron {

  /** A field as written, and the values it lists when it is neither `*` nor a step. */
  datatype Field = Field(text: string, listed: set<int>)

  datatype Schedule = Schedule(minute: Field, hour: Field, dom: Field, month: Field, dow: Field)

  const DAY := 1440

  // ---------- the estimate ----------

  predicate Digits(s: string) { s != "" && forall c :: c in s ==> '0' <= c <= '9' }

  function DigitValue(c: char): nat { if '0' <= c <= '9' then c as int - '0' as int else 0 }

  function Number(s: string): nat { if s == "" then 0 else Number(s[..|s| - 1]) * 10 + DigitValue(s[|s| - 1]) }

  /** The step of a `*` + `/N` field, zero for any other. A sign is read as the number parser reads it. */
  function EveryN(text: string): nat {
    if !("*/" <= text) then 0
    else
      var rest := text[2..];
      var digits := if rest != "" && rest[0] == '+' then rest[1..] else rest;
      if Digits(digits) then Number(digits) else 0
  }

  function Digit(d: nat): char
    requires d < 10
  {
    "0123456789"[d]
  }

  function Decimal(n: nat): string { if n < 10 then [Digit(n)] else Decimal(n / 10) + [Digit(n % 10)] }

  lemma DigitsRead(d: nat)
    requires d < 10
    ensures DigitValue(Digit(d)) == d && '0' <= Digit(d) <= '9'
  {
  }

  lemma {:induction false} DecimalIsRead(n: nat)
    ensures Digits(Decimal(n)) && Number(Decimal(n)) == n
    decreases n
  {
    if n < 10 {
      DigitsRead(n);
      assert Decimal(n)[..0] == "";
    } else {
      DecimalIsRead(n / 10);
      DigitsRead(n % 10);
      assert Decimal(n)[..|Decimal(n)| - 1] == Decimal(n / 10);
      hide Digit;
    }
  }

  /** A step is read as the number it is written as, and nothing without the star and slash is a step. */
  lemma StepsAreRead(n: nat, text: string)
    ensures EveryN("*/" + Decimal(n)) == n && EveryN("*/+" + Decimal(n)) == n
    ensures !("*/" <= text) ==> EveryN(text) == 0
    ensures !Digits(text) && (text == "" || text[0] != '+') ==> EveryN("*/" + text) == 0
  {
    DecimalIsRead(n);
    var d := Decimal(n);
    assert d[0] in d;
    assert ("*/" + d)[2..] == d && ("*/+" + d)[2..] == "+" + d && ("+" + d)[1..] == d;
    assert ("*/" + text)[2..] == text;
    hide Number, Decimal;
  }

  /** The estimated period; `fields` is the schedule split at blanks. */
  function CronInterval(fields: seq<string>): nat {
    if |fields| != 5 then DAY
    else
      var minute, hour, dom, dow := fields[0], fields[1], fields[2], fields[4];
      if EveryN(minute) > 0 then EveryN(minute)
      else if minute == "*" then 1
      else if hour == "*" then 60
      else if EveryN(hour) > 0 then EveryN(hour) * 60
      else if dow != "*" then 7 * DAY
      else if dom != "*" then (if EveryN(dom) > 0 then EveryN(dom) * DAY else 30 * DAY)
      else DAY
  }

  function Texts(s: Schedule): seq<string> { [s.minute.text, s.hour.text, s.dom.text, s.month.text, s.dow.text] }

  /** How long without a success is too long. */
  function Overdue(s: Schedule): nat {
    var interval := CronInterval(Texts(s));
    if interval > DAY then interval else DAY
  }

  // ---------- the calendar ----------

  predicate Leap(year: nat) { year % 4 == 0 && (year % 100 != 0 || year % 400 == 0) }

  /** Every fourth year, but of the hundreds only every fourth. */
  lemma LeapYears(year: nat)
    ensures year % 4 != 0 ==> !Leap(year)
    ensures year % 4 == 0 && year % 100 != 0 ==> Leap(year)
    ensures Leap(400 * year) && !Leap(400 * year + 100) && !Leap(400 * year + 200) && !Leap(400 * year + 300)
  {
  }

  /** The Gregorian length of a month, counted from zero. */
  function Length(year: nat, month: nat): (n: nat)
    requires month < 12
    ensures 28 <= n <= 31
  {
    if month == 1 then (if Leap(year) then 29 else 28)
    else if month == 3 || month == 5 || month == 8 || month == 10 then 30
    else 31
  }

  /** Where time starts: on the given day of a month. */
  datatype Calendar = Calendar(year: nat, month: nat, before: nat)

  /** The length of the `k`-th month from the start. */
  function MonthLength(c: Calendar, k: nat): (n: nat)
    ensures 28 <= n <= 31
  {
    Length(c.year + (c.month + k) / 12, (c.month + k) % 12)
  }

  /** The days before the `k`-th month, from the first of the month in which time starts. */
  function MonthStart(c: Calendar, k: nat): nat {
    if k == 0 then 0 else MonthStart(c, k - 1) + MonthLength(c, k - 1)
  }

  datatype Date = Date(month: nat, day: nat)

  /** The date `days` after the first of the `k`-th month. */
  function DateFrom(c: Calendar, k: nat, days: nat): Date
    decreases days
  {
    if days < MonthLength(c, k) then Date(k, days + 1) else DateFrom(c, k + 1, days - MonthLength(c, k))
  }

  function DateOf(c: Calendar, day: nat): Date { DateFrom(c, 0, day + c.before) }

  lemma {:induction false} MonthsFollow(c: Calendar, k: nat, l: nat)
    requires k < l
    ensures MonthStart(c, k) + MonthLength(c, k) <= MonthStart(c, l)
    decreases l
  {
    if k < l - 1 { MonthsFollow(c, k, l - 1); }
  }

  lemma {:induction false} DateIs(c: Calendar, k: nat, days: nat)
    ensures var d := DateFrom(c, k, days);
            && k <= d.month && 1 <= d.day <= MonthLength(c, d.month)
            && days + MonthStart(c, k) == MonthStart(c, d.month) + d.day - 1
    decreases days
  {
    if days >= MonthLength(c, k) { DateIs(c, k + 1, days - MonthLength(c, k)); }
  }

  lemma {:induction false} DateAt(c: Calendar, k: nat, days: nat, d: Date)
    requires k <= d.month && 1 <= d.day <= MonthLength(c, d.month)
    requires days + MonthStart(c, k) == MonthStart(c, d.month) + d.day - 1
    ensures DateFrom(c, k, days) == d
    decreases d.month - k
  {
    if k < d.month {
      MonthsFollow(c, k, d.month);
      DateAt(c, k + 1, days - MonthLength(c, k), d);
    }
  }

  /** The date some days after another, up to the end of the following month. */
  function Onward(c: Calendar, d: Date, days: nat): Date {
    var n := MonthLength(c, d.month);
    if d.day + days <= n then Date(d.month, d.day + days)
    else if d.day + days <= n + MonthLength(c, d.month + 1) then Date(d.month + 1, d.day + days - n)
    else Date(d.month + 2, d.day + days - n - MonthLength(c, d.month + 1))
  }

  lemma DateOnward(c: Calendar, day: nat, days: nat)
    requires days <= 31
    ensures var d := DateOf(c, day); 1 <= d.day <= MonthLength(c, d.month) && DateOf(c, day + days) == Onward(c, d, days)
  {
    hide MonthLength;
    var d := DateOf(c, day);
    DateIs(c, 0, day + c.before);
    var e := Onward(c, d, days);
    assert MonthStart(c, d.month + 1) == MonthStart(c, d.month) + MonthLength(c, d.month);
    assert MonthStart(c, d.month + 2) == MonthStart(c, d.month + 1) + MonthLength(c, d.month + 1);
    DateAt(c, 0, day + days + c.before, e);
  }

  lemma {:induction false} MonthsAreLong(c: Calendar, k: nat)
    ensures MonthStart(c, k) >= 28 * k
    decreases k
  {
    if k > 0 { MonthsAreLong(c, k - 1); }
  }

  /** The day that has the date. */
  lemma DayOf(c: Calendar, d: Date) returns (day: nat)
    requires 1 <= d.day <= MonthLength(c, d.month) && c.before < MonthStart(c, d.month)
    ensures DateOf(c, day) == d && day == MonthStart(c, d.month) + d.day - 1 - c.before
  {
    day := MonthStart(c, d.month) + d.day - 1 - c.before;
    DateAt(c, 0, day + c.before, d);
  }

  /** The number, from one to twelve, of the `k`-th month from the start. */
  function MonthNumber(c: Calendar, k: nat): (m: nat)
    ensures 1 <= m <= 12
  {
    (c.month + k) % 12 + 1
  }

  /** How long a month can be. */
  function Longest(m: nat): (n: nat)
    requires 1 <= m <= 12
    ensures 29 <= n <= 31
  {
    Length(400, m - 1)
  }

  lemma Divided(x: nat, q: nat, r: nat)
    requires x == 12 * q + r && r < 12
    ensures x / 12 == q && x % 12 == r
  {
  }

  /** A given month of a given year. */
  lemma MonthOf(c: Calendar, years: nat, m: nat) returns (k: nat)
    requires 1 <= m <= 12 && c.month <= 12 * years
    ensures MonthNumber(c, k) == m && MonthLength(c, k) == Length(c.year + years, m - 1) && k == 12 * years + m - 1 - c.month
  {
    k := 12 * years + m - 1 - c.month;
    Divided(c.month + k, years, m - 1);
    hide Length;
  }

  lemma LeapYear(c: Calendar, years: nat, y: nat)
    requires c.year + years == 400 * y
    ensures Leap(c.year + years)
  {
    assert 400 * y % 400 == 0 && 400 * y % 4 == 0;
  }

  /** However late it is, each month is still to come in a leap year. */
  lemma MonthToCome(c: Calendar, m: nat, after: nat) returns (k: nat)
    requires 1 <= m <= 12
    ensures MonthNumber(c, k) == m && MonthLength(c, k) == Longest(m) && MonthStart(c, k) > after + c.before
    ensures m < 12 ==> MonthNumber(c, k + 1) == m + 1 && MonthLength(c, k + 1) == Longest(m + 1)
  {
    var y := c.year + c.month + c.before + after + 1;
    var years := 400 * y - c.year;
    LeapYear(c, years, y);
    k := MonthOf(c, years, m);
    if m < 12 { var _ := MonthOf(c, years, m + 1); }
    MonthsAreLong(c, k);
  }

  /** However late it is, a January of a common year before another one is still to come. */
  lemma CommonJanuary(c: Calendar, after: nat) returns (k: nat, years: nat)
    ensures MonthStart(c, k) > after + c.before && c.month + k == 12 * years
    ensures !Leap(c.year + years) && !Leap(c.year + years + 1)
  {
    var y := c.year + c.month + c.before + after + 1;
    years := 4 * y + 1 - c.year;
    assert (4 * y + 1) % 4 == 1 && (4 * y + 2) % 4 == 2;
    k := 12 * years - c.month;
    MonthsAreLong(c, k);
  }

  lemma LengthIn(c: Calendar, k: nat, years: nat, j: nat)
    requires c.month + k == 12 * years && j < 24
    ensures MonthLength(c, k + j) == Length(c.year + years + j / 12, j % 12)
    ensures MonthStart(c, k + j + 1) == MonthStart(c, k + j) + MonthLength(c, k + j)
  {
    Divided(c.month + k + j, years + j / 12, j % 12);
    hide Length;
  }

  /** The months of 31 days of a common year, and June, begin on all days of the week. */
  lemma WeekdaysOfMonths(c: Calendar, k: nat, years: nat)
    requires c.month + k == 12 * years && !Leap(c.year + years) && !Leap(c.year + years + 1)
    ensures var s := MonthStart(c, k);
            && MonthStart(c, k + 2) == s + 59 && MonthStart(c, k + 4) == s + 120 && MonthStart(c, k + 5) == s + 151
            && MonthStart(c, k + 6) == s + 181 && MonthStart(c, k + 7) == s + 212 && MonthStart(c, k + 11) == s + 334
            && MonthStart(c, k + 14) == s + 424
    ensures MonthLength(c, k) == MonthLength(c, k + 2) == MonthLength(c, k + 4) == MonthLength(c, k + 6) == 31
    ensures MonthLength(c, k + 7) == MonthLength(c, k + 11) == MonthLength(c, k + 14) == 31
    ensures MonthLength(c, k + 5) == 30
  {
    hide MonthLength, MonthStart, Leap;
    LengthIn(c, k, years, 0); LengthIn(c, k, years, 1); LengthIn(c, k, years, 2); LengthIn(c, k, years, 3);
    LengthIn(c, k, years, 4); LengthIn(c, k, years, 5); LengthIn(c, k, years, 6); LengthIn(c, k, years, 7);
    LengthIn(c, k, years, 8); LengthIn(c, k, years, 9); LengthIn(c, k, years, 10); LengthIn(c, k, years, 11);
    LengthIn(c, k, years, 12); LengthIn(c, k, years, 13); LengthIn(c, k, years, 14);
  }

  /** Which of these months puts a date on the weekday that is `r` days later than in January. */
  function MonthShift(r: nat, d: nat): (j: nat)
    requires r < 7
  {
    if r == 0 then 0 else if r == 1 then 4 else if r == 2 then 7 else if r == 3 then 2
    else if r == 5 then 11 else if r == 6 then 6 else if d == 31 then 14 else 5
  }

  lemma Shifted(c: Calendar, k: nat, years: nat, r: nat, d: nat)
    requires c.month + k == 12 * years && !Leap(c.year + years) && !Leap(c.year + years + 1) && r < 7 && 1 <= d <= 31
    ensures var j := MonthShift(r, d);
            d <= MonthLength(c, k + j) && MonthStart(c, k + j) >= MonthStart(c, k) && (MonthStart(c, k + j) - MonthStart(c, k)) % 7 == r
  {
    hide MonthLength, MonthStart, Leap;
    WeekdaysOfMonths(c, k, years);
  }

  lemma Residue(start: nat, shift: nat, w: nat)
    requires w < 7 && shift % 7 == (w - start) % 7
    ensures (start + shift) % 7 == w
  {
  }

  /** However late it is, each day of the month is still to come on each day of the week. */
  lemma WeekdayOfDate(c: Calendar, w: nat, d: nat, after: nat) returns (day: nat)
    requires w < 7 && 1 <= d <= 31
    ensures day > after && day % 7 == w && DateOf(c, day).day == d
  {
    var k, years := CommonJanuary(c, after);
    hide MonthLength, MonthStart, DateOf, Leap, MonthShift;
    var start := MonthStart(c, k) + d - 1 - c.before;
    var r := (w - start) % 7;
    Shifted(c, k, years, r, d);
    var month := k + MonthShift(r, d);
    Residue(start, MonthStart(c, month) - MonthStart(c, k), w);
    day := DayOf(c, Date(month, d));
  }

  // ---------- when a schedule fires ----------

  predicate Stands(f: Field, lo: int, v: int) {
    if f.text == "*" then true
    else if EveryN(f.text) > 0 then (v - lo) % EveryN(f.text) == 0
    else v in f.listed
  }

  /** A step of one is no restriction. */
  predicate Restricted(f: Field) { f.text != "*" && EveryN(f.text) != 1 }

  lemma UnrestrictedStands(f: Field, lo: int, v: int)
    requires !Restricted(f)
    ensures Stands(f, lo, v)
  {
  }

  predicate InMonth(s: Schedule, m: nat) { Stands(s.month, 1, m) }

  /** The day of the month is one the schedule fires on. */
  predicate On(s: Schedule, d: int) { Stands(s.dom, 1, d) }

  /** Both day fields must agree, unless both are restricted: then either will do. */
  predicate DayStands(s: Schedule, c: Calendar, day: nat) {
    if Restricted(s.dom) && Restricted(s.dow)
    then Stands(s.dow, 0, day % 7) || On(s, DateOf(c, day).day)
    else Stands(s.dow, 0, day % 7) && On(s, DateOf(c, day).day)
  }

  predicate FiresOn(s: Schedule, c: Calendar, day: nat) {
    InMonth(s, MonthNumber(c, DateOf(c, day).month)) && DayStands(s, c, day)
  }

  predicate Fires(s: Schedule, c: Calendar, t: nat) {
    Stands(s.minute, 0, t % 60) && Stands(s.hour, 0, t / 60 % 24) && FiresOn(s, c, t / DAY)
  }

  /** After each firing there is another within `gap`. */
  ghost predicate FiresWithin(s: Schedule, c: Calendar, gap: nat) {
    forall t: nat :: Fires(s, c, t) ==> exists u: nat :: t < u <= t + gap && Fires(s, c, u)
  }

  /** The same, in days. */
  ghost predicate FiresWithinDays(s: Schedule, c: Calendar, days: nat) {
    forall day: nat :: FiresOn(s, c, day) ==> exists later: nat :: day < later <= day + days && FiresOn(s, c, later)
  }

  predicate EveryDay(s: Schedule) { forall d :: 0 <= d < 7 ==> Stands(s.dow, 0, d) }

  /** The minute or hour field is a star or a step, so that the fields for days are never looked at. */
  predicate DaysIgnored(s: Schedule) {
    || s.minute.text == "*" || EveryN(s.minute.text) > 0
    || s.hour.text == "*" || EveryN(s.hour.text) > 0
  }

  predicate AllMonths(s: Schedule) { forall m :: 1 <= m <= 12 ==> InMonth(s, m) }

  /** Every month but February. */
  predicate FebruaryOut(s: Schedule) { forall m :: 1 <= m <= 12 ==> (InMonth(s, m) <==> m != 2) }

  predicate AllDates(s: Schedule) { forall d :: 1 <= d <= 31 ==> On(s, d) }

  predicate SomeWeekday(s: Schedule) { exists d :: 0 <= d < 7 && Stands(s.dow, 0, d) }

  /** Some date of the year is listed. */
  predicate SomeDate(s: Schedule) { exists m, d :: 1 <= m <= 12 && InMonth(s, m) && 1 <= d <= Longest(m) && On(s, d) }

  /** Minute, hour and month can be met, and their steps stay inside their fields. */
  ghost predicate Sensible(s: Schedule) {
    && EveryN(s.minute.text) < 60 && EveryN(s.hour.text) <= 24
    && (exists m :: 0 <= m < 60 && Stands(s.minute, 0, m))
    && (exists h :: 0 <= h < 24 && Stands(s.hour, 0, h))
    && (exists m :: 1 <= m <= 12 && InMonth(s, m))
  }

  // ---------- gaps of days decide gaps of minutes ----------

  lemma ADayOn(t: int)
    ensures var u := t + DAY; u % 60 == t % 60 && u / 60 % 24 == t / 60 % 24 && u / DAY == t / DAY + 1
  {
  }

  lemma {:induction false} DaysOn(t: int, n: nat)
    ensures var u := t + n * DAY; u % 60 == t % 60 && u / 60 % 24 == t / 60 % 24 && u / DAY == t / DAY + n
  {
    if n > 0 {
      DaysOn(t, n - 1);
      ADayOn(t + (n - 1) * DAY);
    }
  }

  lemma {:induction false} Last(f: Field, n: nat) returns (v: int)
    requires exists w :: 0 <= w < n && Stands(f, 0, w)
    ensures 0 <= v < n && Stands(f, 0, v) && forall w :: v < w < n ==> !Stands(f, 0, w)
    decreases n
  {
    if Stands(f, 0, n - 1) { v := n - 1; } else { v := Last(f, n - 1); }
  }

  lemma ClockOf(day: nat, h: nat, m: nat)
    requires h < 24 && m < 60
    ensures var t := day * DAY + h * 60 + m; t % 60 == m && t / 60 % 24 == h && t / DAY == day
  {
    var t := day * DAY + h * 60 + m;
    assert t / 60 == day * 24 + h;
  }

  /** After the last time of day of a firing there is nothing until a later day fires. */
  lemma NothingLater(s: Schedule, c: Calendar, day: nat, h: nat, m: nat, days: nat, u: nat)
    requires h < 24 && m < 60
    requires forall w :: h < w < 24 ==> !Stands(s.hour, 0, w)
    requires forall w :: m < w < 60 ==> !Stands(s.minute, 0, w)
    requires forall later: nat :: day < later <= day + days ==> !FiresOn(s, c, later)
    requires day * DAY + h * 60 + m < u <= day * DAY + h * 60 + m + days * DAY
    ensures !Fires(s, c, u)
  {
    hide FiresOn;
    if u / DAY == day {
      var uh, um := u / 60 % 24, u % 60;
      assert u == day * DAY + uh * 60 + um;
      assert uh > h || (uh == h && um > m);
    } else {
      assert day < u / DAY <= day + days;
    }
  }

  /** Firings come within so many times 24 hours exactly if the days they fall on do. */
  lemma DaysDecide(s: Schedule, c: Calendar, days: nat)
    requires Sensible(s)
    ensures FiresWithin(s, c, days * DAY) <==> FiresWithinDays(s, c, days)
  {
    hide FiresOn;
    if FiresWithinDays(s, c, days) {
      forall t: nat | Fires(s, c, t) ensures exists u: nat :: t < u <= t + days * DAY && Fires(s, c, u) {
        var later: nat :| t / DAY < later <= t / DAY + days && FiresOn(s, c, later);
        DaysOn(t, later - t / DAY);
        assert Fires(s, c, t + (later - t / DAY) * DAY);
      }
    } else {
      var day: nat :| FiresOn(s, c, day) && forall later: nat :: day < later <= day + days ==> !FiresOn(s, c, later);
      var h := Last(s.hour, 24);
      var m := Last(s.minute, 60);
      ClockOf(day, h, m);
      var t := day * DAY + h * 60 + m;
      assert Fires(s, c, t);
      forall u: nat | t < u <= t + days * DAY ensures !Fires(s, c, u) { NothingLater(s, c, day, h, m, days, u); }
    }
  }

  // ---------- silence ahead ----------

  /** If it fires at some time and later not for so many days, there is a firing that waits as long for the next. */
  lemma {:induction false} SilenceAhead(s: Schedule, c: Calendar, a: nat, b: nat, days: nat)
    requires a <= b && FiresOn(s, c, a) && forall later: nat :: b < later <= b + days ==> !FiresOn(s, c, later)
    ensures !FiresWithinDays(s, c, days)
    decreases b
  {
    hide FiresOn;
    if !FiresOn(s, c, b) { SilenceAhead(s, c, a, b - 1, days); }
  }

  /** A month left out is a silence as long as itself. */
  lemma MonthOutWaits(s: Schedule, c: Calendar, a: nat, m: nat, days: nat)
    requires FiresOn(s, c, a) && 1 <= m <= 12 && !InMonth(s, m) && days <= Longest(m)
    ensures !FiresWithinDays(s, c, days)
  {
    var k := MonthToCome(c, m, a);
    var b := MonthStart(c, k) - 1 - c.before;
    forall later: nat | b < later <= b + days ensures !FiresOn(s, c, later) {
      var day := DayOf(c, Date(k, later - b));
    }
    SilenceAhead(s, c, a, b, days);
  }

  /** Whatever the weekday, it comes in the first week of a month that is listed. */
  lemma FiresOnWeekday(s: Schedule, c: Calendar) returns (a: nat)
    requires SomeWeekday(s) && (!Restricted(s.dom) || Restricted(s.dow)) && exists m :: 1 <= m <= 12 && InMonth(s, m)
    ensures FiresOn(s, c, a)
  {
    var on :| 0 <= on < 7 && Stands(s.dow, 0, on);
    var m :| 1 <= m <= 12 && InMonth(s, m);
    var k := MonthToCome(c, m, 0);
    var b := MonthStart(c, k) - 1 - c.before;
    a := NextWeekday(b, on);
    var day := DayOf(c, Date(k, a - b));
    if !Restricted(s.dom) { UnrestrictedStands(s.dom, 1, a - b); }
  }

  lemma FiresOnDate(s: Schedule, c: Calendar) returns (a: nat)
    requires SomeDate(s) && (!Restricted(s.dow) || Restricted(s.dom))
    ensures FiresOn(s, c, a)
  {
    var m, d :| 1 <= m <= 12 && InMonth(s, m) && 1 <= d <= Longest(m) && On(s, d);
    var k := MonthToCome(c, m, 0);
    a := DayOf(c, Date(k, d));
    if !Restricted(s.dow) { UnrestrictedStands(s.dow, 0, a % 7); }
  }

  lemma NextWeekday(day: nat, on: nat) returns (later: nat)
    requires on < 7
    ensures day < later <= day + 7 && later % 7 == on
  {
    later := day + 1 + (on - day - 1) % 7;
  }

  // ---------- day-of-month unrestricted ----------

  lemma FiresByWeekday(s: Schedule, c: Calendar, day: nat)
    requires !Restricted(s.dom)
    ensures FiresOn(s, c, day) <==> InMonth(s, MonthNumber(c, DateOf(c, day).month)) && Stands(s.dow, 0, day % 7)
  {
    UnrestrictedStands(s.dom, 1, DateOf(c, day).day);
  }

  /** A schedule that skips weekdays is silent for more than a day. */
  lemma SilenceAfterARun(s: Schedule, c: Calendar)
    requires Sensible(s) && !Restricted(s.dom) && !EveryDay(s) && SomeWeekday(s)
    ensures !FiresWithin(s, c, DAY)
  {
    DaysDecide(s, c, 1);
    var off :| 0 <= off < 7 && !Stands(s.dow, 0, off);
    var a := FiresOnWeekday(s, c);
    var later := NextWeekday(a, off);
    FiresByWeekday(s, c, later);
    hide FiresOn;
    SilenceAhead(s, c, a, later - 1, 1);
  }

  /**
  For schedules with day-of-month unrestricted, being overdue means that a firing was missed,
  exactly if no month is left out and the schedule fires on every weekday or its weekday field is looked at.
  */
  lemma OverdueIsTrustworthyExactly(s: Schedule, c: Calendar)
    requires Sensible(s) && !Restricted(s.dom) && SomeWeekday(s)
    ensures FiresWithin(s, c, Overdue(s)) <==> AllMonths(s) && (EveryDay(s) || !DaysIgnored(s))
  {
    hide AllMonths, EveryDay, Sensible, FiresWithin, Stands, Restricted, SomeWeekday, Overdue;
    if DaysIgnored(s) { IgnoredThreshold(s); }
    if !AllMonths(s) {
      WeekdaysMissAMonth(s, c);
    } else if EveryDay(s) {
      EveryDayCovers(s, c);
    } else if !DaysIgnored(s) {
      WeekdaysCover(s, c);
    } else {
      SilenceAfterARun(s, c);
    }
  }

  lemma WeekdaysMissAMonth(s: Schedule, c: Calendar)
    requires Sensible(s) && !Restricted(s.dom) && SomeWeekday(s) && !AllMonths(s)
    ensures !FiresWithin(s, c, Overdue(s))
  {
    var m :| 1 <= m <= 12 && !InMonth(s, m);
    var a := FiresOnWeekday(s, c);
    hide FiresOn, InMonth, Stands, FiresWithin, FiresWithinDays, Sensible;
    assert Overdue(s) <= 7 * DAY;
    MonthOutWaits(s, c, a, m, 7);
    DaysDecide(s, c, 7);
    LongerIsEasier(s, c, Overdue(s), 7 * DAY);
  }

  lemma EveryDayCovers(s: Schedule, c: Calendar)
    requires Sensible(s) && !Restricted(s.dom) && AllMonths(s) && EveryDay(s)
    ensures FiresWithin(s, c, Overdue(s))
  {
    hide Overdue, Stands, FiresOn;
    DaysDecide(s, c, 1);
    forall day: nat | FiresOn(s, c, day) ensures exists later: nat :: day < later <= day + 1 && FiresOn(s, c, later) {
      assert 0 <= (day + 1) % 7 < 7;
      FiresByWeekday(s, c, day + 1);
    }
    AtLeastADay(s);
    LongerIsEasier(s, c, DAY, Overdue(s));
  }

  lemma IgnoredThreshold(s: Schedule)
    requires Sensible(s) && DaysIgnored(s)
    ensures Overdue(s) == DAY
  {
  }

  lemma AtLeastADay(s: Schedule)
    ensures Overdue(s) >= DAY
  {
  }

  lemma WeekdaysCover(s: Schedule, c: Calendar)
    requires Sensible(s) && !Restricted(s.dom) && AllMonths(s) && !EveryDay(s) && !DaysIgnored(s)
    ensures FiresWithin(s, c, Overdue(s))
  {
    assert s.dow.text != "*" && Overdue(s) == 7 * DAY;
    DaysDecide(s, c, 7);
    hide FiresOn, Stands;
    forall day: nat | FiresOn(s, c, day) ensures exists later: nat :: day < later <= day + 7 && FiresOn(s, c, later) {
      assert (day + 7) % 7 == day % 7;
      FiresByWeekday(s, c, day);
      FiresByWeekday(s, c, day + 7);
    }
  }

  lemma LongerIsEasier(s: Schedule, c: Calendar, gap: nat, gap': nat)
    requires gap <= gap'
    ensures FiresWithin(s, c, gap) ==> FiresWithin(s, c, gap')
  {
    hide Fires;
    if FiresWithin(s, c, gap) {
      forall t: nat | Fires(s, c, t) ensures exists u: nat :: t < u <= t + gap' && Fires(s, c, u) {
        var u: nat :| t < u <= t + gap && Fires(s, c, u);
      }
    }
  }

  /** A job that runs every five minutes of one morning a week counts as overdue for most of the week. */
  lemma OneMorningAWeek(c: Calendar)
    ensures var s := Schedule(Field("*/5", {}), Field("9", {9}), Field("*", {}), Field("*", {}), Field("1", {1}));
            Overdue(s) == DAY && !FiresWithin(s, c, Overdue(s))
  {
    var s := Schedule(Field("*/5", {}), Field("9", {9}), Field("*", {}), Field("*", {}), Field("1", {1}));
    assert "*/5"[2..] == "5" && Digits("5") && "5"[..0] == "" && Number("5") == 5;
    assert EveryN("*/5") == 5 && EveryN("9") == 0 && EveryN("1") == 0 && EveryN("*") == 0;
    assert Stands(s.minute, 0, 0) && Stands(s.hour, 0, 9) && Stands(s.dow, 0, 1) && !Stands(s.dow, 0, 2);
    assert InMonth(s, 1) && !EveryDay(s) && SomeWeekday(s);
    SilenceAfterARun(s, c);
  }

  // ---------- day-of-week unrestricted ----------

  lemma FiresByDate(s: Schedule, c: Calendar, day: nat, days: nat)
    requires !Restricted(s.dow) && days <= 31
    ensures var d := DateOf(c, day); 1 <= d.day <= MonthLength(c, d.month)
    ensures var e := Onward(c, DateOf(c, day), days);
            DateOf(c, day + days) == e && (FiresOn(s, c, day + days) <==> InMonth(s, MonthNumber(c, e.month)) && On(s, e.day))
    ensures var d := DateOf(c, day); FiresOn(s, c, day) <==> InMonth(s, MonthNumber(c, d.month)) && On(s, d.day)
  {
    DateOnward(c, day, days);
    UnrestrictedStands(s.dow, 0, day % 7);
    UnrestrictedStands(s.dow, 0, (day + days) % 7);
  }

  /** It fires again so many days on, this month or the next. */
  lemma AgainWithin(s: Schedule, c: Calendar, day: nat, days: nat, most: nat)
    requires !Restricted(s.dow) && 0 < days <= 31 && days <= most
    requires var e := Onward(c, DateOf(c, day), days); InMonth(s, MonthNumber(c, e.month)) && On(s, e.day)
    ensures exists later: nat :: day < later <= day + most && FiresOn(s, c, later)
  {
    FiresByDate(s, c, day, days);
    assert day < day + days <= day + most && FiresOn(s, c, day + days);
  }

  /** The day of the month some days after another one, in a month of the given length or the next. */
  function DayAfter(length: nat, x: nat, i: nat): int { if x + i <= length then x + i else x + i - length }

  /** Whatever the length of the month, so many days in a row hold a listed one. */
  predicate DatesWithin(s: Schedule, days: nat) {
    forall length, x :: 28 <= length <= 31 && 1 <= x <= length ==> RowHolds(s, length, x, days)
  }

  predicate RowHolds(s: Schedule, length: nat, x: nat, days: nat) { exists i :: 0 <= i < days && On(s, DayAfter(length, x, i)) }

  /** However late it is, a January before a February of 28 days is still to come. */
  lemma JanuaryToCome(c: Calendar, after: nat) returns (k: nat)
    ensures MonthLength(c, k) == 31 && MonthLength(c, k + 1) == 28 && MonthStart(c, k) > after + c.before
  {
    var years;
    k, years := CommonJanuary(c, after);
    hide MonthLength, Leap;
    LengthIn(c, k, years, 0);
    LengthIn(c, k, years, 1);
  }

  lemma MonthOfLength(c: Calendar, length: nat, after: nat) returns (k: nat)
    requires 28 <= length <= 31
    ensures MonthLength(c, k) == length && MonthStart(c, k) > after + c.before
  {
    if length == 28 {
      var j := JanuaryToCome(c, after);
      k := j + 1;
    } else {
      k := MonthToCome(c, if length == 31 then 1 else if length == 30 then 4 else 2, after);
    }
  }

  /** With day-of-week unrestricted, gaps of up to four weeks are decided by the table of the months' lengths. */
  lemma DatesDecide(s: Schedule, c: Calendar, days: nat)
    requires !Restricted(s.dow) && SomeDate(s) && days <= 28
    ensures FiresWithinDays(s, c, days) <==> AllMonths(s) && DatesWithin(s, days)
  {
    hide Stands, MonthLength, FiresWithinDays, Restricted, DatesWithin, FiresOn;
    if !AllMonths(s) {
      var m :| 1 <= m <= 12 && !InMonth(s, m);
      var a := FiresOnDate(s, c);
      MonthOutWaits(s, c, a, m, days);
    } else if DatesWithin(s, days) {
      TableCovers(s, c, days);
    } else {
      RowWaits(s, c, days);
    }
  }

  /** The row that starts after a day of the month. */
  lemma RowAhead(s: Schedule, length: nat, d: nat, days: nat) returns (i: nat)
    requires 28 <= length <= 31 && 1 <= d <= length && days <= 28 && DatesWithin(s, days)
    ensures i < days && On(s, DayAfter(length, d, i + 1))
  {
    hide On;
    var x := if d < length then d + 1 else 1;
    assert RowHolds(s, length, x, days);
    i :| 0 <= i < days && On(s, DayAfter(length, x, i));
  }

  lemma TableCovers(s: Schedule, c: Calendar, days: nat)
    requires !Restricted(s.dow) && days <= 28 && AllMonths(s) && DatesWithin(s, days)
    ensures FiresWithinDays(s, c, days)
  {
    hide Stands, MonthLength, On, InMonth, DatesWithin, Restricted, DateOf, MonthNumber;
    forall day: nat | FiresOn(s, c, day) ensures exists later: nat :: day < later <= day + days && FiresOn(s, c, later) {
      hide FiresOn;
      var d := DateOf(c, day);
      FiresByDate(s, c, day, 0);
      var i := RowAhead(s, MonthLength(c, d.month), d.day, days);
      AgainWithin(s, c, day, i + 1, days);
    }
  }

  lemma RowWaits(s: Schedule, c: Calendar, days: nat)
    requires !Restricted(s.dow) && days <= 28 && SomeDate(s) && !DatesWithin(s, days)
    ensures !FiresWithinDays(s, c, days)
  {
    var length, x :| 28 <= length <= 31 && 1 <= x <= length && !RowHolds(s, length, x, days);
    var a := FiresOnDate(s, c);
    var k := MonthOfLength(c, length, a);
    hide Stands, MonthLength, On, InMonth, Restricted, FiresWithinDays, DateOf;
    var day := DayOf(c, Date(k, x));
    forall later: nat | day - 1 < later <= day - 1 + days ensures !FiresOn(s, c, later) {
      FiresByDate(s, c, day, later - day);
      assert Onward(c, Date(k, x), later - day).day == DayAfter(length, x, later - day);
    }
    SilenceAhead(s, c, a, day - 1, days);
  }

  /** In a table of single days all must be listed. */
  lemma SingleDays(s: Schedule)
    ensures DatesWithin(s, 1) <==> AllDates(s)
  {
    hide On;
    if DatesWithin(s, 1) {
      forall d | 1 <= d <= 31 ensures On(s, d) {
        assert RowHolds(s, 31, d, 1);
        assert DayAfter(31, d, 0) == d;
      }
    }
    if AllDates(s) {
      forall length, x | 28 <= length <= 31 && 1 <= x <= length ensures RowHolds(s, length, x, 1) {
        assert On(s, DayAfter(length, x, 0));
      }
    }
  }

  /**
  Where the minute or hour is a star or a step the threshold is a day, and covers every
  gap exactly if the schedule fires on every day of every month.
  */
  lemma MonthlyIgnoredExactly(s: Schedule, c: Calendar)
    requires Sensible(s) && !Restricted(s.dow) && DaysIgnored(s) && SomeDate(s)
    ensures Overdue(s) == DAY
    ensures FiresWithin(s, c, Overdue(s)) <==> AllMonths(s) && AllDates(s)
  {
    hide FiresWithin, FiresWithinDays, AllMonths, AllDates, DatesWithin, Restricted;
    DaysDecide(s, c, 1);
    DatesDecide(s, c, 1);
    SingleDays(s);
  }

  /** A weekday field of a step of one is no restriction, and yet it sets the threshold to a week. */
  lemma EveryWeekdayExactly(s: Schedule, c: Calendar)
    requires Sensible(s) && !Restricted(s.dow) && s.dow.text != "*" && !DaysIgnored(s) && SomeDate(s)
    ensures Overdue(s) == 7 * DAY
    ensures FiresWithin(s, c, Overdue(s)) <==> AllMonths(s) && DatesWithin(s, 7)
  {
    hide FiresWithin, FiresWithinDays, AllMonths, DatesWithin, Restricted;
    DaysDecide(s, c, 7);
    DatesDecide(s, c, 7);
  }

  // ---------- thirty days ----------

  /** Only the day of the month decides, and it sets the threshold. */
  predicate Monthly(s: Schedule) { s.dom.text != "*" && s.dow.text == "*" }

  lemma MonthNext(c: Calendar, k: nat)
    ensures MonthNumber(c, k + 1) == if MonthNumber(c, k) == 12 then 1 else MonthNumber(c, k) + 1
    ensures var m, n := MonthNumber(c, k), MonthLength(c, k);
            if m == 2 then n <= 29 else if m == 4 || m == 6 || m == 9 || m == 11 then n == 30 else n == 31
  {
  }

  /** Two listed days, one of them in every month, are never more than thirty days apart. */
  lemma TwoDaysCover(s: Schedule, c: Calendar, a: nat, b: nat)
    requires !Restricted(s.dow) && AllMonths(s) && On(s, a) && On(s, b) && 1 <= a <= 28 && a < b <= 31
    requires forall x :: 1 <= x < a ==> !On(s, x)
    ensures FiresWithinDays(s, c, 30)
  {
    hide Stands, MonthLength, InMonth, Restricted;
    forall day: nat | FiresOn(s, c, day) ensures exists later: nat :: day < later <= day + 30 && FiresOn(s, c, later) {
      hide FiresOn;
      var d := DateOf(c, day);
      FiresByDate(s, c, day, 0);
      var n := MonthLength(c, d.month);
      if d.day < b <= n {
        AgainWithin(s, c, day, b - d.day, 30);
      } else {
        assert Onward(c, d, n - d.day + a) == Date(d.month + 1, a);
        AgainWithin(s, c, day, n - d.day + a, 30);
      }
    }
  }

  lemma ThirtyDaysOn(c: Calendar, k: nat, x: nat, i: nat)
    requires MonthLength(c, k) == 31 && MonthLength(c, k + 1) == 28 && 1 <= x <= 31 && 0 < i <= 30
    ensures var d := Onward(c, Date(k, x), i).day; 1 <= d <= 31 && (d > x || d < if x <= 28 then x else 29)
  {
    hide MonthLength;
  }

  /**
  `x` is the last day listed, and the only one that February has, if it has one: from the `x`-th of a
  January of a common year on nothing fires for thirty days.
  */
  lemma JanuaryWaits(s: Schedule, c: Calendar, x: nat)
    requires !Restricted(s.dow) && AllMonths(s) && 1 <= x <= 31 && On(s, x)
    requires forall d :: 1 <= d <= 31 && (d > x || d < if x <= 28 then x else 29) ==> !On(s, d)
    ensures !FiresWithinDays(s, c, 30)
  {
    hide Stands, On, InMonth, MonthNumber, MonthLength, MonthStart, Restricted, FiresOn, FiresWithinDays, DateOf, Onward;
    var k := JanuaryToCome(c, 0);
    var day := DayOf(c, Date(k, x));
    FiresByDate(s, c, day, 0);
    forall later: nat | day < later <= day + 30 ensures !FiresOn(s, c, later) {
      FiresByDate(s, c, day, later - day);
      ThirtyDaysOn(c, k, x, later - day);
    }
    SilenceAhead(s, c, day, day, 30);
  }

  /** The first day of the month in a range. */
  lemma {:induction false} FirstOn(s: Schedule, lo: nat, hi: nat) returns (d: nat)
    requires exists x :: lo <= x <= hi && On(s, x)
    ensures lo <= d <= hi && On(s, d) && forall x :: lo <= x < d ==> !On(s, x)
    decreases hi - lo
  {
    if On(s, lo) { d := lo; } else { d := FirstOn(s, lo + 1, hi); }
  }

  lemma {:induction false} LastOn(s: Schedule, hi: nat) returns (d: nat)
    requires exists x :: 1 <= x <= hi && On(s, x)
    ensures 1 <= d <= hi && On(s, d) && forall x :: d < x <= hi ==> !On(s, x)
    decreases hi
  {
    if On(s, hi) { d := hi; } else { d := LastOn(s, hi - 1); }
  }

  /** With no month left out: two days, and one of them in every month. */
  lemma ThirtyDays(s: Schedule, c: Calendar)
    requires !Restricted(s.dow) && AllMonths(s) && exists d :: 1 <= d <= 31 && On(s, d)
    ensures FiresWithinDays(s, c, 30)
            <==> (exists d :: 1 <= d <= 28 && On(s, d)) && exists d, e :: 1 <= d < e <= 31 && On(s, d) && On(s, e)
  {
    hide FiresWithinDays, On, AllMonths, Restricted;
    var a := FirstOn(s, 1, 31);
    var z := LastOn(s, 31);
    if a <= 28 && a < z { TwoDaysCover(s, c, a, z); } else { JanuaryWaits(s, c, z); }
  }

  /** With February left out: the last of January and the first of March. */
  lemma FebruaryOutCovers(s: Schedule, c: Calendar)
    requires !Restricted(s.dow) && FebruaryOut(s) && On(s, 1) && On(s, 31)
    ensures FiresWithinDays(s, c, 30)
  {
    hide Stands, InMonth, Restricted, MonthLength, MonthNumber;
    forall day: nat | FiresOn(s, c, day) ensures exists later: nat :: day < later <= day + 30 && FiresOn(s, c, later) {
      hide FiresOn;
      var d := DateOf(c, day);
      FiresByDate(s, c, day, 0);
      MonthNext(c, d.month);
      MonthNext(c, d.month + 1);
      var n := MonthLength(c, d.month);
      if d.day < n == 31 {
        AgainWithin(s, c, day, 31 - d.day, 30);
      } else if MonthNumber(c, d.month) != 1 {
        AgainWithin(s, c, day, n - d.day + 1, 30);
      } else {
        AgainWithin(s, c, day, MonthLength(c, d.month + 1) + 1, 30);
      }
    }
  }

  lemma FebruaryOutWaits(s: Schedule, c: Calendar)
    requires !Restricted(s.dow) && SomeDate(s) && FebruaryOut(s) && !(On(s, 1) && On(s, 31))
    ensures !FiresWithinDays(s, c, 30)
  {
    var a := FiresOnDate(s, c);
    var k := MonthToCome(c, 1, a);
    hide Stands, InMonth, On, Restricted, MonthLength, MonthNumber, DateOf, FiresWithinDays;
    var b := DayOf(c, Date(k, if On(s, 31) then 31 else 30));
    forall later: nat | b < later <= b + 30 ensures !FiresOn(s, c, later) { FiresByDate(s, c, b, later - b); }
    SilenceAhead(s, c, a, b, 30);
  }

  /** With months left out, thirty days do only if that is February. */
  lemma ThirtyDaysWithoutAMonth(s: Schedule, c: Calendar)
    requires !Restricted(s.dow) && SomeDate(s) && !AllMonths(s)
    ensures FiresWithinDays(s, c, 30) <==> FebruaryOut(s) && On(s, 1) && On(s, 31)
  {
    hide FiresWithinDays, FiresOn, On, InMonth, Restricted;
    if !FebruaryOut(s) {
      var m :| 1 <= m <= 12 && m != 2 && !InMonth(s, m);
      var a := FiresOnDate(s, c);
      MonthOutWaits(s, c, a, m, 30);
    } else if On(s, 1) && On(s, 31) {
      FebruaryOutCovers(s, c);
    } else {
      FebruaryOutWaits(s, c);
    }
  }

  /**
  A schedule of listed days of the month has a threshold of thirty days. It covers every gap exactly
  if no month is left out, two days are listed and one of them occurs in every month, or
  if none but February is left out and the first and the thirty-first are listed.
  */
  lemma MonthlyListExactly(s: Schedule, c: Calendar)
    requires Sensible(s) && Monthly(s) && !DaysIgnored(s) && EveryN(s.dom.text) == 0 && SomeDate(s)
    requires forall d :: d in s.dom.listed ==> 1 <= d <= 31
    ensures Overdue(s) == 30 * DAY
    ensures FiresWithin(s, c, Overdue(s))
            <==> || (AllMonths(s) && |s.dom.listed| >= 2 && exists d :: d in s.dom.listed && d <= 28)
                 || (FebruaryOut(s) && 1 in s.dom.listed && 31 in s.dom.listed)
  {
    hide FiresWithin, FiresWithinDays, SomeDate, AllMonths, FebruaryOut;
    DaysDecide(s, c, 30);
    ListedIsOn(s);
    assert !(AllMonths(s) && FebruaryOut(s)) by { NotBoth(s); }
    if AllMonths(s) { ThirtyDays(s, c); } else { ThirtyDaysWithoutAMonth(s, c); }
  }

  lemma NotBoth(s: Schedule)
    ensures !(AllMonths(s) && FebruaryOut(s))
  {
    hide InMonth;
    assert AllMonths(s) ==> InMonth(s, 2);
  }

  lemma ListedIsOn(s: Schedule)
    requires s.dom.text != "*" && EveryN(s.dom.text) == 0 && SomeDate(s) && forall d :: d in s.dom.listed ==> 1 <= d <= 31
    ensures forall d :: On(s, d) <==> d in s.dom.listed
    ensures exists d :: 1 <= d <= 31 && On(s, d)
    ensures |s.dom.listed| >= 2 <==> exists d, e :: 1 <= d < e <= 31 && On(s, d) && On(s, e)
  {
    hide Length;
    var m, x :| 1 <= m <= 12 && InMonth(s, m) && 1 <= x <= Longest(m) && On(s, x);
    hide InMonth;
    var a := FirstOn(s, 1, 31);
    var z := LastOn(s, 31);
    var listed := s.dom.listed;
    if a == z {
      forall d | d in listed ensures d == a { assert On(s, d); }
      assert listed == {a};
    } else {
      AtLeastTwo(listed, a, z);
    }
  }

  lemma AtLeastTwo(s: set<int>, a: int, b: int)
    requires a in s && b in s && a != b
    ensures |s| >= 2
  {
    assert |s| == |s - {a}| + 1;
    assert b in s - {a};
  }

  // ---------- steps of the day of the month ----------

  lemma OneStepOn(v: int, step: nat)
    requires step > 0
    ensures (v + step) % step == v % step
  {
    assert v == v / step * step + v % step;
    Remainder(v / step + 1, v % step, step);
    assert (v / step + 1) * step == v / step * step + step;
  }

  lemma Remainder(q: int, r: int, step: nat)
    requires 0 <= r < step
    ensures (q * step + r) % step == r
  {
    var x := q * step + r;
    assert x == x / step * step + x % step;
    var k := q - x / step;
    assert k * step == x % step - r;
    if k > 0 { Beyond(k, step); } else if k < 0 { Beyond(-k, step); }
  }

  lemma Beyond(k: nat, step: nat)
    requires k > 0
    ensures k * step >= step
  {
  }

  lemma StepsOn(s: Schedule, d: nat)
    requires EveryN(s.dom.text) > 0
    ensures On(s, d) <==> (d - 1) % EveryN(s.dom.text) == 0
    ensures On(s, 1) && (On(s, d) ==> On(s, d + EveryN(s.dom.text)))
  {
    OneStepOn(d - 1, EveryN(s.dom.text));
  }

  /** The first of the next month is never further off than a step. */
  lemma StepsCover(s: Schedule, c: Calendar)
    requires !Restricted(s.dow) && AllMonths(s) && EveryN(s.dom.text) > 0
    ensures FiresWithinDays(s, c, EveryN(s.dom.text))
  {
    var step := EveryN(s.dom.text);
    hide Stands, On, InMonth, MonthLength, Restricted;
    forall day: nat | FiresOn(s, c, day) ensures exists later: nat :: day < later <= day + step && FiresOn(s, c, later) {
      hide FiresOn;
      var d := DateOf(c, day);
      FiresByDate(s, c, day, 0);
      StepsOn(s, d.day);
      var n := MonthLength(c, d.month);
      if d.day + step <= n {
        AgainWithin(s, c, day, step, step);
      } else {
        assert Onward(c, d, n - d.day + 1) == Date(d.month + 1, 1);
        AgainWithin(s, c, day, n - d.day + 1, step);
      }
    }
  }

  lemma FirstOnly(s: Schedule, d: nat)
    requires EveryN(s.dom.text) == 31 && 1 < d <= 31
    ensures !On(s, d)
  {
  }

  lemma EndAndMonth(c: Calendar, k: nat, i: nat)
    requires i < 31 && MonthLength(c, k + 1) >= 29
    ensures var e := Onward(c, Date(k, MonthLength(c, k) - 1), i); e.month == k + 1 || (e.month == k && 1 < e.day <= 31)
  {
    hide MonthLength;
  }

  /** Steps of thirty-one mean the first, and the end of the month before makes a silence of a month longer still. */
  lemma FirstsOnlyWait(s: Schedule, c: Calendar, m: nat)
    requires !Restricted(s.dow) && SomeDate(s) && EveryN(s.dom.text) == 31 && 1 <= m <= 12 && !InMonth(s, m)
    ensures !FiresWithinDays(s, c, 31)
  {
    var a := FiresOnDate(s, c);
    var k := MonthToCome(c, m, a + 40);
    hide Stands, On, InMonth, Restricted, DateOf, FiresWithinDays, MonthNumber, Longest;
    assert MonthStart(c, k) == MonthStart(c, k - 1) + MonthLength(c, k - 1);
    hide MonthStart;
    var n := MonthLength(c, k - 1);
    var day := DayOf(c, Date(k - 1, n - 1));
    hide MonthLength, Onward;
    forall later: nat | day - 1 < later <= day - 1 + 31 ensures !FiresOn(s, c, later) {
      FiresByDate(s, c, day, later - day);
      EndAndMonth(c, k - 1, later - day);
      var e := Onward(c, Date(k - 1, n - 1), later - day);
      if e.month < k { FirstOnly(s, e.day); }
    }
    SilenceAhead(s, c, a, day - 1, 31);
  }

  lemma StepsMissAMonth(s: Schedule, c: Calendar)
    requires !Restricted(s.dow) && SomeDate(s) && !AllMonths(s) && 0 < EveryN(s.dom.text) <= 31
    ensures FiresWithinDays(s, c, EveryN(s.dom.text)) <==> EveryN(s.dom.text) == 30 && FebruaryOut(s)
  {
    var step := EveryN(s.dom.text);
    var m :| 1 <= m <= 12 && !InMonth(s, m);
    hide FiresWithinDays, FiresOn, InMonth, Restricted;
    if step <= 29 {
      var a := FiresOnDate(s, c);
      MonthOutWaits(s, c, a, m, step);
    } else if step == 30 {
      StepsOn(s, 1);
      ThirtyDaysWithoutAMonth(s, c);
    } else {
      FirstsOnlyWait(s, c, m);
    }
  }

  /**
  Steps of the day of the month are covered if no month is left out. Otherwise, with steps inside the month,
  only those of thirty days are that leave out February alone.
  */
  lemma MonthlyStepsExactly(s: Schedule, c: Calendar)
    requires Sensible(s) && Monthly(s) && !DaysIgnored(s) && EveryN(s.dom.text) > 0
    ensures Overdue(s) == EveryN(s.dom.text) * DAY
    ensures AllMonths(s) ==> FiresWithin(s, c, Overdue(s))
    ensures EveryN(s.dom.text) <= 31 ==>
              (FiresWithin(s, c, Overdue(s)) <==> AllMonths(s) || (EveryN(s.dom.text) == 30 && FebruaryOut(s)))
  {
    hide FiresWithin, FiresWithinDays, FiresOn, Stands;
    DaysDecide(s, c, EveryN(s.dom.text));
    if AllMonths(s) {
      StepsCover(s, c);
    } else if EveryN(s.dom.text) <= 31 {
      StepsOn(s, 1);
      var m :| 1 <= m <= 12 && InMonth(s, m);
      assert 1 <= 1 <= Longest(m) && On(s, 1);
      StepsMissAMonth(s, c);
    }
  }

  // ---------- both day fields restricted ----------

  lemma FiresByEither(s: Schedule, c: Calendar, day: nat)
    requires Restricted(s.dom) && Restricted(s.dow) && AllMonths(s)
    ensures FiresOn(s, c, day) <==> Stands(s.dow, 0, day % 7) || On(s, DateOf(c, day).day)
  {
  }

  /** Looked at, the weekday alone keeps firings within the threshold of a week, unless a month is left out. */
  lemma BothRestrictedExactly(s: Schedule, c: Calendar)
    requires Sensible(s) && !DaysIgnored(s) && Restricted(s.dom) && Restricted(s.dow) && SomeWeekday(s)
    ensures Overdue(s) == 7 * DAY && (FiresWithin(s, c, Overdue(s)) <==> AllMonths(s))
  {
    assert s.dow.text != "*" && Overdue(s) == 7 * DAY;
    hide FiresWithin, FiresWithinDays, FiresOn, Stands, Restricted, InMonth, DateOf, Overdue;
    DaysDecide(s, c, 7);
    if AllMonths(s) {
      WeekdayRecurs(s, c);
    } else {
      var m :| 1 <= m <= 12 && !InMonth(s, m);
      var a := FiresOnWeekday(s, c);
      MonthOutWaits(s, c, a, m, 7);
    }
  }

  lemma WeekdayRecurs(s: Schedule, c: Calendar)
    requires Restricted(s.dom) && Restricted(s.dow) && AllMonths(s) && SomeWeekday(s)
    ensures FiresWithinDays(s, c, 7)
  {
    hide Stands, FiresOn, Restricted, InMonth, DateOf;
    var on :| 0 <= on < 7 && Stands(s.dow, 0, on);
    forall day: nat | FiresOn(s, c, day) ensures exists later: nat :: day < later <= day + 7 && FiresOn(s, c, later) {
      var later := NextWeekday(day, on);
      FiresByEither(s, c, later);
    }
  }

  /**
  Where the minute or hour is a star or a step the threshold is a day, and covers every gap exactly if
  no month is left out and one of the two fields lists everything: any other pair of a weekday and a
  day of the month comes together some day.
  */
  lemma BothRestrictedIgnoredExactly(s: Schedule, c: Calendar)
    requires Sensible(s) && DaysIgnored(s) && Restricted(s.dom) && Restricted(s.dow) && (SomeWeekday(s) || SomeDate(s))
    ensures Overdue(s) == DAY
    ensures FiresWithin(s, c, Overdue(s)) <==> AllMonths(s) && (EveryDay(s) || AllDates(s))
  {
    hide FiresWithin, FiresWithinDays, FiresOn, Stands, Restricted, InMonth, DateOf;
    DaysDecide(s, c, 1);
    if AllMonths(s) && (EveryDay(s) || AllDates(s)) {
      OneFieldListsAll(s, c);
    } else {
      var a;
      if SomeWeekday(s) { a := FiresOnWeekday(s, c); } else { a := FiresOnDate(s, c); }
      if AllMonths(s) {
        BothMissADay(s, c, a);
      } else {
        var m :| 1 <= m <= 12 && !InMonth(s, m);
        MonthOutWaits(s, c, a, m, 1);
      }
    }
  }

  lemma OneFieldListsAll(s: Schedule, c: Calendar)
    requires Restricted(s.dom) && Restricted(s.dow) && AllMonths(s) && (EveryDay(s) || AllDates(s))
    ensures FiresWithinDays(s, c, 1)
  {
    hide Stands, On, FiresOn, Restricted, InMonth, MonthLength;
    forall day: nat | FiresOn(s, c, day) ensures exists later: nat :: day < later <= day + 1 && FiresOn(s, c, later) {
      FiresByEither(s, c, day + 1);
      DateOnward(c, day + 1, 0);
      assert 0 <= (day + 1) % 7 < 7;
    }
  }

  lemma BothMissADay(s: Schedule, c: Calendar, a: nat)
    requires Restricted(s.dom) && Restricted(s.dow) && AllMonths(s) && !EveryDay(s) && !AllDates(s) && FiresOn(s, c, a)
    ensures !FiresWithinDays(s, c, 1)
  {
    hide Stands, On, FiresOn, Restricted, InMonth, DateOf, FiresWithinDays;
    var w :| 0 <= w < 7 && !Stands(s.dow, 0, w);
    var d :| 1 <= d <= 31 && !On(s, d);
    var later := WeekdayOfDate(c, w, d, a);
    FiresByEither(s, c, later);
    SilenceAhead(s, c, a, later - 1, 1);
  }

  // ---------- schedules that are not covered ----------

  /** Midnight of every first of the month. */
  const FIRSTS := Schedule(Field("0", {0}), Field("0", {0}), Field("1", {1}), Field("*", {}), Field("*", {}))

  lemma FirstsStand(v: int)
    ensures Stands(FIRSTS.minute, 0, v) <==> v == 0
    ensures Stands(FIRSTS.hour, 0, v) <==> v == 0
    ensures On(FIRSTS, v) <==> v == 1
    ensures Monthly(FIRSTS) && Overdue(FIRSTS) == 30 * DAY
  {
    assert EveryN("0") == 0 && EveryN("1") == 0 && EveryN("*") == 0;
  }

  lemma Midnight(t: nat, day: nat)
    ensures t / DAY == day && t % 60 == 0 && t / 60 % 24 == 0 <==> t == day * DAY
  {
    assert t == t / 60 * 60 + t % 60 && t / 60 == t / 60 / 24 * 24 + t / 60 % 24 && t / 60 / 24 == t / DAY;
  }

  lemma FirstsFire(c: Calendar, t: nat)
    requires DateOf(c, 0) == Date(0, 1) && MonthLength(c, 0) == 31 && t / DAY <= 31
    ensures Fires(FIRSTS, c, t) <==> t == 0 || t == 31 * DAY
  {
    var day := t / DAY;
    FirstsStand(t % 60);
    FirstsStand(t / 60 % 24);
    FiresByDate(FIRSTS, c, 0, day);
    FirstsStand(Onward(c, Date(0, 1), day).day);
    Midnight(t, day);
    hide Stands, On, FiresOn, DateOf, MonthLength, FIRSTS, DAY;
  }

  /** A job of the first of the month at midnight fires on the first of January and of February 2023, and not in between: for a day it is overdue. */
  lemma FirstOfTheMonth()
    ensures var c := Calendar(2023, 0, 0);
            && Fires(FIRSTS, c, 0) && Fires(FIRSTS, c, 31 * DAY) && Overdue(FIRSTS) == 30 * DAY
            && (forall t: nat :: 0 < t < 31 * DAY ==> !Fires(FIRSTS, c, t))
  {
    var c := Calendar(2023, 0, 0);
    assert MonthLength(c, 0) == 31 && DateOf(c, 0) == Date(0, 1);
    FirstsStand(0);
    hide Fires, FIRSTS, Overdue, DateOf, MonthLength;
    FirstsFire(c, 0);
    FirstsFire(c, 31 * DAY);
    forall t: nat | 0 < t < 31 * DAY ensures !Fires(FIRSTS, c, t) { FirstsFire(c, t); }
  }

  /** Midnight of every first of January. */
  const NEW_YEARS := Schedule(Field("0", {0}), Field("0", {0}), Field("1", {1}), Field("1", {1}), Field("*", {}))

  lemma NewYearsStand(v: int)
    ensures Stands(NEW_YEARS.minute, 0, v) <==> v == 0
    ensures Stands(NEW_YEARS.hour, 0, v) <==> v == 0
    ensures On(NEW_YEARS, v) <==> v == 1
    ensures v >= 0 ==> (InMonth(NEW_YEARS, v) <==> v == 1)
    ensures !Restricted(NEW_YEARS.dow) && Overdue(NEW_YEARS) == 30 * DAY
  {
    assert EveryN("0") == 0 && EveryN("1") == 0 && EveryN("*") == 0;
  }

  lemma CommonYearEnds(c: Calendar)
    requires c.month == 0 && !Leap(c.year)
    ensures MonthStart(c, 12) == 365 && forall k :: k > 12 ==> MonthStart(c, k) > 365
  {
    hide MonthLength, Leap;
    LengthIn(c, 0, 0, 0); LengthIn(c, 0, 0, 1); LengthIn(c, 0, 0, 2); LengthIn(c, 0, 0, 3);
    LengthIn(c, 0, 0, 4); LengthIn(c, 0, 0, 5); LengthIn(c, 0, 0, 6); LengthIn(c, 0, 0, 7);
    LengthIn(c, 0, 0, 8); LengthIn(c, 0, 0, 9); LengthIn(c, 0, 0, 10); LengthIn(c, 0, 0, 11);
    forall k | k > 12 ensures MonthStart(c, k) > 365 { MonthsFollow(c, 12, k); }
  }

  lemma NewYearsFire(c: Calendar, t: nat)
    requires c.month == 0 && c.before == 0 && !Leap(c.year) && t / DAY <= 365
    ensures Fires(NEW_YEARS, c, t) <==> t == 0 || t == 365 * DAY
  {
    var day := t / DAY;
    NewYearsStand(t % 60);
    NewYearsStand(t / 60 % 24);
    NewYearsFireOn(c, day);
    Midnight(t, day);
    hide Stands, FiresOn, NEW_YEARS, DAY, Leap;
  }

  lemma NewYearsFireOn(c: Calendar, day: nat)
    requires c.month == 0 && c.before == 0 && !Leap(c.year) && day <= 365
    ensures FiresOn(NEW_YEARS, c, day) <==> day == 0 || day == 365
  {
    var d := DateOf(c, day);
    DateIs(c, 0, day);
    CommonYearEnds(c);
    NewYearsStand(d.day);
    NewYearsStand(MonthNumber(c, d.month));
    FiresByDate(NEW_YEARS, c, day, 0);
    hide Stands, On, InMonth, FiresOn, NEW_YEARS, Leap, MonthLength, DateOf;
    if day == 365 { DateAt(c, 0, day, Date(12, 1)); }
    if day == 0 { DateAt(c, 0, day, Date(0, 1)); }
  }

  /** A job of the first of January at midnight fires with the years 2023 and 2024, and for eleven months of the one between it is overdue. */
  lemma OnceAYear()
    ensures var c := Calendar(2023, 0, 0);
            && Fires(NEW_YEARS, c, 0) && Fires(NEW_YEARS, c, 365 * DAY) && Overdue(NEW_YEARS) == 30 * DAY
            && (forall t: nat :: 0 < t < 365 * DAY ==> !Fires(NEW_YEARS, c, t))
  {
    var c := Calendar(2023, 0, 0);
    NewYearsStand(0);
    assert !Leap(2023);
    hide Fires, NEW_YEARS, Overdue, Leap;
    NewYearsFire(c, 0);
    NewYearsFire(c, 365 * DAY);
    forall t: nat | 0 < t < 365 * DAY ensures !Fires(NEW_YEARS, c, t) { NewYearsFire(c, t); }
  }
}
