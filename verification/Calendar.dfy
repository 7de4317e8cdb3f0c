/**
 Day numbers and proleptic Gregorian dates (crates/holos-core/src/inline.rs, `days_from_civil` and
 `civil_from_days`). The two closed forms are held to a calendar that only knows how long each month is
 and which day comes next.
 */
module Calendar {

  // --- The calendar itself -----------------------------------------------------------------------------------

  datatype Date = Date(y: int, m: int, d: int)

  predicate IsLeap(y: int) {
    y % 4 == 0 && (y % 100 != 0 || y % 400 == 0)
  }

  function MonthLength(y: int, m: int): int {
    if m == 2 then (if IsLeap(y) then 29 else 28)
    else if m == 4 || m == 6 || m == 9 || m == 11 then 30
    else 31
  }

  predicate IsDate(t: Date) {
    1 <= t.m <= 12 && 1 <= t.d <= MonthLength(t.y, t.m)
  }

  function DayAfter(t: Date): Date {
    if t.d < MonthLength(t.y, t.m) then Date(t.y, t.m, t.d + 1)
    else if t.m < 12 then Date(t.y, t.m + 1, 1)
    else Date(t.y + 1, 1, 1)
  }

  predicate Earlier(a: Date, b: Date) {
    a.y < b.y || (a.y == b.y && (a.m < b.m || (a.m == b.m && a.d < b.d)))
  }

  // --- The two closed forms ----------------------------------------------------------------------------------

  // Division that truncates toward zero.
  function Quot(a: int, b: int): int
    requires b > 0
  {
    if a >= 0 then a / b else -((-a) / b)
  }

  function DaysFromCivil(t: Date): int {
    var y := if t.m <= 2 then t.y - 1 else t.y;
    var era := Quot(if y >= 0 then y else y - 399, 400);
    var yoe := y - era * 400;
    var doy := Quot(153 * (if t.m > 2 then t.m - 3 else t.m + 9) + 2, 5) + t.d - 1;
    var doe := yoe * 365 + Quot(yoe, 4) - Quot(yoe, 100) + doy;
    era * 146_097 + doe - 719_468
  }

  // The year of an era that a day of the era falls in, counting from March.
  function YearOf(doe: int): int {
    Quot(doe - Quot(doe, 1_460) + Quot(doe, 36_524) - Quot(doe, 146_096), 365)
  }

  function DayOfYear(doe: int): int {
    doe - (365 * YearOf(doe) + Quot(YearOf(doe), 4) - Quot(YearOf(doe), 100))
  }

  function MonthDay(y: int, doy: int): Date {
    var mp := Quot(5 * doy + 2, 153);
    var d := doy - Quot(153 * mp + 2, 5) + 1;
    var m := if mp < 10 then mp + 3 else mp - 9;
    Date(if m <= 2 then y + 1 else y, m, d)
  }

  function CivilFromDays(day: int): Date {
    var z := day + 719_468;
    var era := Quot(if z >= 0 then z else z - 146_096, 146_097);
    var doe := z - era * 146_097;
    MonthDay(YearOf(doe) + era * 400, DayOfYear(doe))
  }

  // --- Eras, years counted from March, and days of those years -------------------------------------------------

  lemma EraIsFloor(x: int, n: int)
    requires n == 400 || n == 146_097
    ensures Quot(if x >= 0 then x else x - (n - 1), n) == x / n
  {
  }

  // Year `k` from March holds a 29 February when the calendar year that follows is a leap year.
  function MarchYear(k: int): int {
    if IsLeap(k + 1) then 366 else 365
  }

  function DaysBefore(yoe: int): int
    requires 0 <= yoe
  {
    yoe * 365 + yoe / 4 - yoe / 100
  }

  // A year of the era as centuries, fours and ones.
  lemma YearParts(yoe: int)
    requires 0 <= yoe < 400
    ensures var c, q, s := yoe / 100, yoe % 100 / 4, yoe % 4;
            && 0 <= c <= 3 && 0 <= q <= 24 && 0 <= s <= 3 && yoe == 100 * c + 4 * q + s
            && DaysBefore(yoe) == 36_524 * c + 1_461 * q + 365 * s
            && (MarchYear(yoe) == 366 <==> s == 3 && (q != 24 || c == 3))
  {
    var c, q, s := yoe / 100, yoe % 100 / 4, yoe % 4;
    assert yoe == 100 * c + 4 * q + s;
    assert yoe / 4 == 25 * c + q;
  }

  // The estimate the engine divides by 365 falls within the year, whatever the day of it.
  lemma YearFound(yoe: int, doy: int)
    requires 0 <= yoe < 400 && 0 <= doy < MarchYear(yoe)
    ensures var doe := DaysBefore(yoe) + doy;
            0 <= doe < 146_097 && (doe - doe / 1_460 + doe / 36_524 - doe / 146_096) / 365 == yoe
  {
    YearParts(yoe);
    var c, q, s := yoe / 100, yoe % 100 / 4, yoe % 4;
    var doe := 36_524 * c + 1_461 * q + 365 * s + doy;
    var rest := 24 * c + q + 365 * s + doy;
    assert doe == 1_460 * (25 * c + q) + rest;
    var e := if rest >= 1_460 then 1 else 0;
    assert doe / 1_460 == 25 * c + q + e;
    if doe == 146_096 {
      assert doe / 36_524 == 4;
    } else {
      assert doe / 36_524 == c;
      assert doe / 146_096 == 0;
    }
    assert 0 <= doy - e <= 364;
    assert doe - doe / 1_460 + doe / 36_524 - doe / 146_096 == 365 * yoe + (doy - e);
  }

  // Every day of an era is a day of one of its years.
  lemma YearExists(doe: int) returns (yoe: int, doy: int)
    requires 0 <= doe < 146_097
    ensures 0 <= yoe < 400 && 0 <= doy < MarchYear(yoe) && doe == DaysBefore(yoe) + doy
  {
    var c := if doe == 146_096 then 3 else doe / 36_524;
    var inCentury := doe - 36_524 * c;
    var q := inCentury / 1_461;
    var inFour := inCentury - 1_461 * q;
    var s := if inFour == 1_460 then 3 else inFour / 365;
    yoe, doy := 100 * c + 4 * q + s, inFour - 365 * s;
    assert yoe / 100 == c && yoe % 100 == 4 * q + s;
    assert yoe % 100 / 4 == q && yoe % 4 == s;
    YearParts(yoe);
  }

  // Months from March: `mp` is 0 for March and 11 for February.
  function MarchStart(mp: int): int
    requires 0 <= mp <= 12
  {
    (153 * mp + 2) / 5
  }

  function MarchMonth(mp: int): int {
    if mp < 10 then mp + 3 else mp - 9
  }

  lemma MonthSpan(mp: int, y: int)
    requires 0 <= mp <= 11
    ensures 1 <= MarchMonth(mp) <= 12
    ensures mp < 11 ==> MarchStart(mp + 1) - MarchStart(mp) == MonthLength(y, MarchMonth(mp))
    ensures MarchStart(11) == 337
  {
    if mp <= 5 {
      assert mp == 0 || mp == 1 || mp == 2 || mp == 3 || mp == 4 || mp == 5;
    } else {
      assert mp == 6 || mp == 7 || mp == 8 || mp == 9 || mp == 10 || mp == 11;
    }
  }

  lemma MonthFound(mp: int, d: int)
    requires 0 <= mp <= 11 && 1 <= d && MarchStart(mp) + d <= if mp < 11 then MarchStart(mp + 1) else 366
    ensures (5 * (MarchStart(mp) + d - 1) + 2) / 153 == mp
  {
    if mp <= 5 {
      assert mp == 0 || mp == 1 || mp == 2 || mp == 3 || mp == 4 || mp == 5;
    } else {
      assert mp == 6 || mp == 7 || mp == 8 || mp == 9 || mp == 10 || mp == 11;
    }
  }

  lemma MonthExists(doy: int) returns (mp: int, d: int)
    requires 0 <= doy < 366
    ensures 0 <= mp <= 11 && 1 <= d && MarchStart(mp) + d <= if mp < 11 then MarchStart(mp + 1) else 366
    ensures doy == MarchStart(mp) + d - 1
  {
    mp := (5 * doy + 2) / 153;
    d := doy - MarchStart(mp) + 1;
    if mp <= 5 {
      assert mp == 0 || mp == 1 || mp == 2 || mp == 3 || mp == 4 || mp == 5;
    } else {
      assert mp == 6 || mp == 7 || mp == 8 || mp == 9 || mp == 10 || mp == 11;
    }
  }

  // --- A date as era, year, month and day -----------------------------------------------------------------------

  // The pieces both closed forms pass through.
  datatype Pieces = Pieces(era: int, yoe: int, mp: int, d: int)

  predicate Sound(p: Pieces) {
    && 0 <= p.yoe < 400 && 0 <= p.mp <= 11 && 1 <= p.d
    && MarchStart(p.mp) + p.d <= if p.mp < 11 then MarchStart(p.mp + 1) else MarchYear(p.yoe)
  }

  function DateOf(p: Pieces): Date {
    var m := MarchMonth(p.mp);
    Date(if m <= 2 then p.yoe + p.era * 400 + 1 else p.yoe + p.era * 400, m, p.d)
  }

  function DayOf(p: Pieces): int
    requires Sound(p)
  {
    p.era * 146_097 + DaysBefore(p.yoe) + MarchStart(p.mp) + p.d - 1 - 719_468
  }

  function PiecesOf(t: Date): Pieces {
    var y := if t.m <= 2 then t.y - 1 else t.y;
    Pieces(y / 400, y % 400, if t.m > 2 then t.m - 3 else t.m + 9, t.d)
  }

  lemma DivisionIs(x: int, n: int, q: int, r: int)
    requires n == 4 || n == 100 || n == 400 || n == 146_097
    requires x == n * q + r && 0 <= r < n
    ensures x / n == q && x % n == r
  {
    if n == 4 {
    } else if n == 100 {
    } else if n == 400 {
    }
  }

  lemma LeapCycle(era: int, yoe: int)
    ensures IsLeap(yoe + era * 400 + 1) == IsLeap(yoe + 1)
  {
    var y, x := yoe + era * 400 + 1, yoe + 1;
    DivisionIs(y, 4, x / 4 + 100 * era, x % 4);
    DivisionIs(y, 100, x / 100 + 4 * era, x % 100);
    DivisionIs(y, 400, x / 400 + era, x % 400);
  }

  lemma PiecesSound(t: Date)
    requires IsDate(t)
    ensures Sound(PiecesOf(t)) && DateOf(PiecesOf(t)) == t
  {
    var p := PiecesOf(t);
    MonthSpan(p.mp, t.y);
    LeapCycle(p.era, p.yoe);
    if t.m == 2 {
      assert IsLeap(t.y) == IsLeap(p.yoe + 1);
    }
  }

  lemma DateSound(p: Pieces)
    requires Sound(p)
    ensures IsDate(DateOf(p)) && PiecesOf(DateOf(p)) == p
  {
    var t := DateOf(p);
    MonthSpan(p.mp, t.y);
    LeapCycle(p.era, p.yoe);
    assert (p.yoe + p.era * 400) / 400 == p.era && (p.yoe + p.era * 400) % 400 == p.yoe;
    if p.mp == 11 {
      assert IsLeap(t.y) == IsLeap(p.yoe + 1);
    }
  }

  lemma DaysArePieces(t: Date)
    requires IsDate(t)
    ensures Sound(PiecesOf(t)) && DaysFromCivil(t) == DayOf(PiecesOf(t))
  {
    PiecesSound(t);
    EraIsFloor(if t.m <= 2 then t.y - 1 else t.y, 400);
  }

  lemma CivilInSteps(day: int)
    ensures var z := day + 719_468;
            CivilFromDays(day) == MonthDay(YearOf(z % 146_097) + z / 146_097 * 400, DayOfYear(z % 146_097))
  {
    EraIsFloor(day + 719_468, 146_097);
  }

  lemma YearStep(yoe: int, doy: int)
    requires 0 <= yoe < 400 && 0 <= doy < MarchYear(yoe)
    ensures 0 <= DaysBefore(yoe) + doy < 146_097
    ensures YearOf(DaysBefore(yoe) + doy) == yoe && DayOfYear(DaysBefore(yoe) + doy) == doy
  {
    YearFound(yoe, doy);
  }

  lemma MonthStep(y: int, mp: int, d: int)
    requires 0 <= mp <= 11 && 1 <= d && MarchStart(mp) + d <= if mp < 11 then MarchStart(mp + 1) else 366
    ensures MonthDay(y, MarchStart(mp) + d - 1) == Date(if MarchMonth(mp) <= 2 then y + 1 else y, MarchMonth(mp), d)
  {
    MonthFound(mp, d);
  }

  lemma DayInYear(p: Pieces)
    requires Sound(p)
    ensures 0 <= MarchStart(p.mp) + p.d - 1 < MarchYear(p.yoe)
  {
    StartsInOrder(p.mp);
  }

  lemma PlaceInEra(p: Pieces, doe: int)
    requires Sound(p) && doe == DaysBefore(p.yoe) + (MarchStart(p.mp) + p.d - 1)
    ensures (DayOf(p) + 719_468) / 146_097 == p.era && (DayOf(p) + 719_468) % 146_097 == doe
  {
    DayInYear(p);
    YearStep(p.yoe, MarchStart(p.mp) + p.d - 1);
    DivisionIs(DayOf(p) + 719_468, 146_097, p.era, doe);
  }

  lemma CivilVia(day: int, era: int, doe: int, t: Date)
    requires era == (day + 719_468) / 146_097 && doe == (day + 719_468) % 146_097
    requires MonthDay(YearOf(doe) + era * 400, DayOfYear(doe)) == t
    ensures CivilFromDays(day) == t
  {
    CivilInSteps(day);
  }

  lemma StepsFindPieces(p: Pieces, doe: int)
    requires Sound(p) && doe == DaysBefore(p.yoe) + (MarchStart(p.mp) + p.d - 1)
    ensures MonthDay(YearOf(doe) + p.era * 400, DayOfYear(doe)) == DateOf(p)
  {
    var doy := MarchStart(p.mp) + p.d - 1;
    DayInYear(p);
    YearStep(p.yoe, doy);
    MonthOf(p);
    assert YearOf(doe) == p.yoe && DayOfYear(doe) == doy;
  }

  lemma MonthOf(p: Pieces)
    requires Sound(p)
    ensures MonthDay(p.yoe + p.era * 400, MarchStart(p.mp) + p.d - 1) == DateOf(p)
  {
    MonthStep(p.yoe + p.era * 400, p.mp, p.d);
  }

  lemma CivilFindsPieces(p: Pieces)
    requires Sound(p)
    ensures CivilFromDays(DayOf(p)) == DateOf(p)
  {
    var doe := DaysBefore(p.yoe) + (MarchStart(p.mp) + p.d - 1);
    PlaceInEra(p, doe);
    StepsFindPieces(p, doe);
    CivilVia(DayOf(p), p.era, doe, DateOf(p));
  }

  lemma StartsInOrder(mp: int)
    requires 0 <= mp <= 11
    ensures 0 <= MarchStart(mp) <= 337 && (mp < 11 ==> MarchStart(mp + 1) <= 337)
  {
  }

  // --- The closed forms are the calendar --------------------------------------------------------------------------

  // A date's day number leads back to it.
  lemma DateRoundTrip(t: Date)
    requires IsDate(t)
    ensures CivilFromDays(DaysFromCivil(t)) == t
  {
    DaysArePieces(t);
    PiecesSound(t);
    CivilFindsPieces(PiecesOf(t));
  }

  // Every day number, past and future, is the number of exactly the date it gives.
  lemma DayRoundTrip(day: int)
    ensures IsDate(CivilFromDays(day)) && DaysFromCivil(CivilFromDays(day)) == day
  {
    var z := day + 719_468;
    var yoe, doy := YearExists(z % 146_097);
    var mp, d := MonthExists(doy);
    var p := Pieces(z / 146_097, yoe, mp, d);
    assert MarchStart(mp) + d <= if mp < 11 then MarchStart(mp + 1) else MarchYear(yoe);
    assert DayOf(p) == day;
    CivilFindsPieces(p);
    DateSound(p);
    DaysArePieces(DateOf(p));
  }

  lemma Epoch()
    ensures DaysFromCivil(Date(1970, 1, 1)) == 0
  {
  }

  // The next day has the next number: with the epoch, the only numbering there is.
  lemma NextDay(t: Date)
    requires IsDate(t)
    ensures IsDate(DayAfter(t)) && DaysFromCivil(DayAfter(t)) == DaysFromCivil(t) + 1
  {
    DaysArePieces(t);
    DaysArePieces(DayAfter(t));
    NextPieces(t);
  }

  lemma NextPieces(t: Date)
    requires IsDate(t)
    ensures Sound(PiecesOf(t)) && Sound(PiecesOf(DayAfter(t))) && DayOf(PiecesOf(DayAfter(t))) == DayOf(PiecesOf(t)) + 1
  {
    PiecesSound(t);
    PiecesSound(DayAfter(t));
    if t.d == MonthLength(t.y, t.m) {
      if t.m == 2 {
        NextInMarch(t);
      } else {
        NextMonth(t);
        MonthSpan(PiecesOf(t).mp, t.y);
      }
    }
  }

  lemma NextInMarch(t: Date)
    requires IsDate(t) && t.m == 2 && t.d == MonthLength(t.y, t.m)
    requires Sound(PiecesOf(t)) && Sound(PiecesOf(DayAfter(t)))
    ensures DayOf(PiecesOf(DayAfter(t))) == DayOf(PiecesOf(t)) + 1
  {
    var p := PiecesOf(t);
    LeapCycle(p.era, p.yoe);
    NextMarch(p);
  }

  lemma NextMonth(t: Date)
    requires IsDate(t) && t.d == MonthLength(t.y, t.m) && t.m != 2
    ensures PiecesOf(DayAfter(t)) == PiecesOf(t).(mp := PiecesOf(t).mp + 1, d := 1)
  {
  }

  lemma NextMarch(p: Pieces)
    requires Sound(p) && p.mp == 11
    ensures var y := p.yoe + p.era * 400 + 1;
            y / 400 * 146_097 + DaysBefore(y % 400) == p.era * 146_097 + DaysBefore(p.yoe) + MarchYear(p.yoe)
  {
    var y := p.yoe + p.era * 400 + 1;
    if p.yoe == 399 {
      assert y == (p.era + 1) * 400;
      assert y / 400 == p.era + 1 && y % 400 == 0;
    } else {
      assert y / 400 == p.era && y % 400 == p.yoe + 1;
      NextYear(p.yoe);
    }
  }

  lemma NextYear(yoe: int)
    requires 0 <= yoe < 399
    ensures DaysBefore(yoe + 1) == DaysBefore(yoe) + MarchYear(yoe)
  {
    var k := yoe + 1;
    assert k / 4 == yoe / 4 + if k % 4 == 0 then 1 else 0;
    assert k / 100 == yoe / 100 + if k % 100 == 0 then 1 else 0;
    assert k % 100 == 0 ==> k % 4 == 0;
    assert k % 400 != 0;
  }

  lemma {:induction false} DaysAhead(t: Date, n: nat) returns (u: Date)
    requires IsDate(t)
    ensures IsDate(u) && DaysFromCivil(u) == DaysFromCivil(t) + n
    ensures if n == 0 then u == t else Earlier(t, u)
  {
    if n == 0 {
      u := t;
    } else {
      var s := DaysAhead(t, n - 1);
      u := DayAfter(s);
      NextDay(s);
    }
  }

  lemma SameDay(a: Date, b: Date)
    requires IsDate(a) && IsDate(b) && DaysFromCivil(a) == DaysFromCivil(b)
    ensures a == b
  {
    DateRoundTrip(a);
    DateRoundTrip(b);
  }

  lemma DaysApart(a: Date, b: Date)
    requires IsDate(a) && IsDate(b) && DaysFromCivil(a) <= DaysFromCivil(b)
    ensures if DaysFromCivil(a) == DaysFromCivil(b) then a == b else Earlier(a, b)
  {
    var u := DaysAhead(a, DaysFromCivil(b) - DaysFromCivil(a));
    SameDay(u, b);
  }

  // Day numbers keep the order of dates.
  lemma DaysInOrder(a: Date, b: Date)
    requires IsDate(a) && IsDate(b)
    ensures Earlier(a, b) <==> DaysFromCivil(a) < DaysFromCivil(b)
  {
    if DaysFromCivil(a) <= DaysFromCivil(b) {
      DaysApart(a, b);
    } else {
      DaysApart(b, a);
    }
  }
}
