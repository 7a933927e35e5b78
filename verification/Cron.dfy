/** Five-field cron expressions: the skip-ahead search of `Cron.next_after` finds exactly
    the minute a minute-by-minute scan finds. Minutes are counted from 0001-01-01 00:00. */
module CronSearch {
  import opened Common
  import opened Calendar

  // ----- Parsing one field ---------------------------------------------------------

  datatype Range = Star | Span(a: int, b: int) | One(a: int)
  datatype Part = Part(range: Range, step: Option<int>)

  function PartStep(p: Part): int {
    if p.step.Some? then p.step.value else 1
  }

  function PartLow(p: Part, lo: int): int {
    if p.range.Star? then lo else p.range.a
  }

  function PartHigh(p: Part, hi: int): int {
    match p.range
    case Star => hi
    case Span(_, b) => b
    case One(a) => if p.step.Some? then hi else a
  }

  predicate PartOk(p: Part, lo: int, hi: int) {
    PartStep(p) >= 1 && lo <= PartLow(p, lo) <= PartHigh(p, hi) <= hi
  }

  predicate Selects(p: Part, lo: int, hi: int, x: int) {
    && PartLow(p, lo) <= x <= PartHigh(p, hi)
    && PartStep(p) >= 1
    && (x - PartLow(p, lo)) % PartStep(p) == 0
  }

  function Members(p: Part, lo: int, hi: int): set<int> {
    set x | PartLow(p, lo) <= x <= PartHigh(p, hi) && Selects(p, lo, hi, x)
  }

  predicate AllOk(parts: seq<Part>, lo: int, hi: int) {
    forall p <- parts :: PartOk(p, lo, hi)
  }

  predicate Selected(parts: seq<Part>, lo: int, hi: int, x: int) {
    exists p <- parts :: Selects(p, lo, hi, x)
  }

  ghost predicate Denotes(s: set<int>, parts: seq<Part>, lo: int, hi: int) {
    forall x :: x in s <==> Selected(parts, lo, hi, x)
  }

  ghost predicate Within(s: set<int>, lo: int, hi: int) {
    (exists x :: x in s) && forall x <- s :: lo <= x <= hi
  }

  /** A part starts at the lowest value or its own, and goes up by its step, to its own end, or to the highest value if it
      has none and is no single value. */
  lemma PartSelects(p: Part, lo: int, hi: int, x: int)
    requires p.step.None? || p.step.value >= 1
    ensures Selects(p, lo, hi, x) <==>
      match p
      case Part(Star, None) => lo <= x <= hi
      case Part(Star, Some(k)) => x <= hi && exists j: nat :: x == lo + Multiple(j, k)
      case Part(Span(a, b), None) => a <= x <= b
      case Part(Span(a, b), Some(k)) => x <= b && exists j: nat :: x == a + Multiple(j, k)
      case Part(One(a), None) => x == a
      case Part(One(a), Some(k)) => x <= hi && exists j: nat :: x == a + Multiple(j, k)
  {
    if p.step.Some? {
      StepsTo(x - PartLow(p, lo), p.step.value);
    }
  }

  function Multiple(j: nat, k: int): int { j * k }

  lemma StepsTo(d: int, k: int)
    requires k >= 1
    ensures d >= 0 && d % k == 0 <==> exists j: nat :: d == Multiple(j, k)
  {
    if d >= 0 && d % k == 0 {
      assert d == Multiple(d / k, k);
    }
    if j: nat :| d == Multiple(j, k) {
      MultipleHasNoRest(j, k);
    }
  }

  lemma MultipleHasNoRest(j: nat, k: int)
    requires k >= 1
    ensures Multiple(j, k) >= 0 && Multiple(j, k) % k == 0
  {
    var d := Multiple(j, k);
    assert d == (d / k) * k + d % k;
    assert (j - d / k) * k == d % k;
    AtLeastOnce(j - d / k, k);
  }

  lemma AtLeastOnce(i: int, k: int)
    requires k >= 1
    ensures (i >= 1 ==> i * k >= k) && (i <= -1 ==> i * k <= -k)
  {
  }

  /** A field is the union of its parts; one bad step or bound rejects the whole field. */
  method Field(parts: seq<Part>, lo: int, hi: int) returns (r: Option<set<int>>)
    requires parts != []
    ensures r.Some? <==> AllOk(parts, lo, hi)
    ensures r.Some? ==> Denotes(r.value, parts, lo, hi) && Within(r.value, lo, hi)
  {
    var out: set<int> := {};
    for i := 0 to |parts|
      invariant AllOk(parts[..i], lo, hi)
      invariant Denotes(out, parts[..i], lo, hi)
    {
      var p := parts[i];
      if !PartOk(p, lo, hi) {
        return None;
      }
      assert parts[..i + 1] == parts[..i] + [p];
      ghost var before := out;
      out := out + Members(p, lo, hi);
      forall x
        ensures x in out <==> Selected(parts[..i + 1], lo, hi, x)
      {
        assert x in out <==> x in before || Selects(p, lo, hi, x);
        assert p in parts[..i + 1];
      }
    }
    assert parts[..|parts|] == parts;
    assert parts[0] in parts;
    assert Selects(parts[0], lo, hi, PartLow(parts[0], lo));
    assert PartLow(parts[0], lo) in out;
    return Some(out);
  }

  // ----- Expressions and their meaning ----------------------------------------------

  /** The five parsed fields; `domAny`/`dowAny` say that the text of that field is a lone star. */
  datatype Cron = Cron(minute: set<int>, hour: set<int>, dom: set<int>, month: set<int>, dow: set<int>,
                       domAny: bool, dowAny: bool)
  {
    ghost predicate Valid() {
      && Within(minute, 0, 59) && Within(hour, 0, 23)
      && Within(dom, 1, 31) && Within(month, 1, 12) && Within(dow, 0, 6)
      && (domAny ==> forall x :: 1 <= x <= 31 ==> x in dom)
      && (dowAny ==> forall x :: 0 <= x <= 6 ==> x in dow)
    }

    /** 0 is Sunday; 0001-01-01 was a Monday. */
    static function Weekday(n: nat): nat { (n + 1) % 7 }

    predicate DayOk(day: nat, weekday: nat) {
      if domAny || dowAny then day in dom && weekday in dow else day in dom || weekday in dow
    }

    predicate DayMatches(n: nat) {
      DateOf(n).month in month && DayOk(DateOf(n).day, Weekday(n))
    }

    predicate Matches(t: nat) {
      DayMatches(t / 1440) && t / 60 % 24 in hour && t % 60 in minute
    }

    /** Some calendar day, in any year, fits the expression. */
    ghost predicate Satisfiable() {
      exists n: nat :: DayMatches(n)
    }
  }

  const ALL: Part := Part(Star, None)

  function FoldSunday(s: set<int>): set<int> {
    set x | x in s :: x % 7
  }

  /** 7 also means Sunday: folding identifies it with 0 and changes no other day. */
  lemma FoldSundayMeans(s: set<int>)
    requires Within(s, 0, 7)
    ensures Within(FoldSunday(s), 0, 6)
    ensures forall x :: x in FoldSunday(s) <==> 0 <= x <= 6 && (x in s || (x == 0 && 7 in s))
  {
    var w: int :| w in s;
    assert w % 7 in FoldSunday(s);
    forall x
      ensures x in FoldSunday(s) <==> 0 <= x <= 6 && (x in s || (x == 0 && 7 in s))
    {
      if 0 <= x <= 6 && x in s {
        assert x % 7 == x;
      } else if x == 0 && 7 in s {
        assert 7 % 7 == 0;
      }
    }
  }

  lemma StarSelectsAll(lo: int, hi: int, s: set<int>)
    requires Denotes(s, [ALL], lo, hi)
    ensures forall x :: lo <= x <= hi ==> x in s
  {
    forall x | lo <= x <= hi
      ensures x in s
    {
      assert Selects([ALL][0], lo, hi, x);
      assert [ALL][0] in [ALL];
      assert Selected([ALL], lo, hi, x);
    }
  }

  /** The constructor: five fields, Sunday folded to 0, and the two star flags. */
  method Parse(minute: seq<Part>, hour: seq<Part>, dom: seq<Part>, month: seq<Part>, dow: seq<Part>,
               domAny: bool, dowAny: bool) returns (r: Option<Cron>)
    requires minute != [] && hour != [] && dom != [] && month != [] && dow != []
    requires (domAny ==> dom == [ALL]) && (dowAny ==> dow == [ALL])
    ensures r.Some? <==>
      AllOk(minute, 0, 59) && AllOk(hour, 0, 23) && AllOk(dom, 1, 31) && AllOk(month, 1, 12) && AllOk(dow, 0, 7)
    ensures r.Some? ==> r.value.Valid() && r.value.domAny == domAny && r.value.dowAny == dowAny
    ensures r.Some? ==>
      && Denotes(r.value.minute, minute, 0, 59) && Denotes(r.value.hour, hour, 0, 23)
      && Denotes(r.value.dom, dom, 1, 31) && Denotes(r.value.month, month, 1, 12)
      && forall x :: x in r.value.dow <==>
        0 <= x <= 6 && (Selected(dow, 0, 7, x) || (x == 0 && Selected(dow, 0, 7, 7)))
  {
    var a := Field(minute, 0, 59);
    var b := Field(hour, 0, 23);
    var c := Field(dom, 1, 31);
    var d := Field(month, 1, 12);
    var e := Field(dow, 0, 7);
    if a.None? || b.None? || c.None? || d.None? || e.None? {
      return None;
    }
    FoldSundayMeans(e.value);
    if domAny {
      StarSelectsAll(1, 31, c.value);
    }
    if dowAny {
      StarSelectsAll(0, 7, e.value);
    }
    r := Some(Cron(a.value, b.value, c.value, d.value, FoldSunday(e.value), domAny, dowAny));
  }

  // ----- Points in time ---------------------------------------------------------------

  datatype DateTime = DateTime(date: Date, hour: nat, minute: nat)

  predicate ValidTime(d: DateTime) {
    ValidDate(d.date) && d.hour < 24 && d.minute < 60
  }

  function Minutes(d: DateTime): nat
    requires ValidTime(d)
  {
    Ordinal(d.date) * 1440 + d.hour * 60 + d.minute
  }

  function TimeOf(t: nat): (d: DateTime)
    ensures ValidTime(d)
  {
    DateTime(DateOf(t / 1440), t / 60 % 24, t % 60)
  }

  lemma MinutesOfTimeOf(t: nat)
    ensures Minutes(TimeOf(t)) == t
  {
    OrdinalOfDateOf(t / 1440);
    assert t / 60 / 24 == t / 1440;
  }

  lemma FieldsOfMinutes(d: DateTime)
    requires ValidTime(d)
    ensures Minutes(d) / 1440 == Ordinal(d.date) && Minutes(d) / 60 % 24 == d.hour && Minutes(d) % 60 == d.minute
  {
    var t := Minutes(d);
    assert t == (Ordinal(d.date) * 24 + d.hour) * 60 + d.minute;
    assert t / 60 == Ordinal(d.date) * 24 + d.hour;
    assert t / 60 / 24 == t / 1440;
  }

  function AddDays(d: DateTime, k: nat): (r: DateTime)
    requires ValidTime(d)
    ensures ValidTime(r)
  {
    d.(date := DateOf(Ordinal(d.date) + k))
  }

  function AddMinutes(d: DateTime, k: nat): (r: DateTime)
    requires ValidTime(d)
    ensures ValidTime(r)
  {
    TimeOf(Minutes(d) + k)
  }

  function AtDayOne(d: DateTime): (r: DateTime)
    requires ValidTime(d)
    ensures ValidTime(r)
  {
    d.(date := d.date.(day := 1))
  }

  // ----- What each jump skips -----------------------------------------------------------

  /** Adding 32 days to the first of a month and going back to day 1 lands on the first of the
      next month, and every day passed over lies in the month left. */
  lemma MonthJump(d: Date)
    requires ValidDate(d)
    ensures var n := Ordinal(d.(day := 1));
      && n <= Ordinal(d) < n + DaysInMonth(d.year, d.month)
      && Ordinal(DateOf(n + 32).(day := 1)) == n + DaysInMonth(d.year, d.month)
      && forall k: nat :: n <= k < n + DaysInMonth(d.year, d.month) ==> DateOf(k).month == d.month
  {
    var first := d.(day := 1);
    var n, len := Ordinal(first), DaysInMonth(d.year, d.month);
    forall k: nat | n <= k < n + len
      ensures DateOf(k).month == d.month
    {
      DateOfOrdinal(d.(day := 1 + k - n));
    }
    FirstOfNextMonth(d);
  }

  lemma FirstOfNextMonth(d: Date)
    requires ValidDate(d)
    ensures var n, len := Ordinal(d.(day := 1)), DaysInMonth(d.year, d.month);
      Ordinal(DateOf(n + 32).(day := 1)) == n + len
  {
    var n, len := Ordinal(d.(day := 1)), DaysInMonth(d.year, d.month);
    var next := if d.month < 12 then Date(d.year, d.month + 1, 1) else Date(d.year + 1, 1, 1);
    assert next == NextDay(d.(day := len));
    OrdinalOfNextDay(d.(day := len));
    DateOfOrdinal(next.(day := 33 - len));
    hide DateOf, DaysBeforeYear, DaysBeforeMonth, DaysInMonth;
    assert Ordinal(next.(day := 33 - len)) == n + 32;
  }

  /** Time `s` comes after `t` and no minute in between, `t` included, matches. */
  ghost predicate SkipsNothing(c: Cron, t: nat, s: nat) {
    t < s && forall u: nat :: t <= u < s ==> !c.Matches(u)
  }

  /** The search may move from `t` to `s`: nothing is skipped, and the day is left only at midnight. */
  ghost predicate Advances(c: Cron, t: nat, s: nat) {
    SkipsNothing(c, t, s) && (s % 1440 == 0 || (s / 1440 == t / 1440 && c.DayMatches(t / 1440)))
  }

  /** Days that do not fit hold no matching minute. */
  lemma DaysAdvance(c: Cron, a: nat, b: nat, t: nat)
    requires a * 1440 <= t < b * 1440
    requires forall n: nat :: a <= n < b ==> !c.DayMatches(n)
    ensures Advances(c, t, b * 1440)
  {
    forall u: nat | t <= u < b * 1440
      ensures !c.Matches(u)
    {
      assert a <= u / 1440 < b;
    }
  }

  lemma HoursSkip(c: Cron, h: nat, t: nat)
    requires h % 24 !in c.hour && h * 60 <= t < (h + 1) * 60
    ensures SkipsNothing(c, t, (h + 1) * 60)
  {
    forall u: nat | t <= u < (h + 1) * 60
      ensures !c.Matches(u)
    {
      assert u / 60 == h;
    }
  }

  // ----- There is always a match within nine years -----------------------------------------

  const HORIZON: nat := 3700

  lemma DayInYear(c: Cron, n: nat, y: nat, m: nat, d: nat) returns (k: nat)
    requires y > DateOf(n).year && y <= DateOf(n).year + 9
    requires ValidDate(Date(y, m, d))
    ensures DateOf(k) == Date(y, m, d) && k == Ordinal(Date(y, m, d)) && n <= k <= n + HORIZON
  {
    hide DateOf, DaysBeforeYear, DaysBeforeMonth;
    var now := DateOf(n);
    OrdinalOfDateOf(n);
    k := Ordinal(Date(y, m, d));
    DateOfOrdinal(Date(y, m, d));
    YearsAddUp(now.year, y - now.year);
    YearsAddUp(now.year + 1, y - now.year - 1);
    MonthStartBounds(y, m);
    MonthStartBounds(now.year, now.month);
    MonthsMakeAYear(now.year);
    EndOfMonthInYear(now);
  }

  lemma {:induction false} EndOfMonthInYear(d: Date)
    requires ValidDate(d)
    ensures DaysBeforeMonth(d.year, d.month) + d.day <= DaysInYear(d.year)
    decreases 12 - d.month
  {
    MonthsMakeAYear(d.year);
    if d.month < 12 {
      EndOfMonthInYear(Date(d.year, d.month + 1, 1));
    }
  }

  lemma NextByMonthDay(c: Cron, n: nat, fit: Date) returns (k: nat)
    requires c.Valid() && c.dowAny
    requires ValidDate(fit) && fit.month in c.month && fit.day in c.dom
    ensures n <= k <= n + HORIZON && c.DayMatches(k)
  {
    var y := DateOf(n).year + 1;
    if fit.day > DaysInMonth(y, fit.month) {
      y := LeapYearWithinEight(DateOf(n).year);
    }
    k := DayInYear(c, n, y, fit.month, fit.day);
  }

  lemma DaysUntil(first: nat, e: int) returns (shift: nat)
    requires 0 <= e <= 6
    ensures shift <= 6 && Cron.Weekday(first + shift) == e
  {
    shift := (e + 7 - (first + 1) % 7) % 7;
  }

  lemma NextByWeekday(c: Cron, n: nat, m: nat) returns (k: nat)
    requires c.Valid() && !c.dowAny && 1 <= m <= 12 && m in c.month
    ensures n <= k <= n + HORIZON && c.DayMatches(k)
  {
    var e: int :| e in c.dow;
    var y := DateOf(n).year + 1;
    var first := Ordinal(Date(y, m, 1));
    var shift := DaysUntil(first, e);
    k := DayInYear(c, n, y, m, 1 + shift);
    assert k == first + shift;
    hide Ordinal, DateOf;
  }

  /** If any day fits, a day fits within `HORIZON` days of every day, even for 29 February
      across a skipped leap year. */
  lemma NextFittingDay(c: Cron, n: nat) returns (k: nat)
    requires c.Valid() && c.Satisfiable()
    ensures n <= k <= n + HORIZON && c.DayMatches(k)
  {
    var w: nat :| c.DayMatches(w);
    if c.dowAny {
      k := NextByMonthDay(c, n, DateOf(w));
    } else {
      k := NextByWeekday(c, n, DateOf(w).month);
    }
  }

  /** The least matching minute from `t` on: the minute a naive scan would return. */
  ghost predicate IsNext(c: Cron, t: nat, r: nat) {
    t <= r && c.Matches(r) && forall u: nat :: t <= u < r ==> !c.Matches(u)
  }

  lemma {:induction false} LeastBelow(c: Cron, t: nat, r: nat) returns (least: nat)
    requires t <= r && c.Matches(r)
    ensures IsNext(c, t, least) && least <= r
    decreases r - t
  {
    if c.Matches(t) {
      least := t;
    } else {
      least := LeastBelow(c, t + 1, r);
    }
  }

  lemma NextExists(c: Cron, t: nat) returns (r: nat)
    requires c.Valid() && c.Satisfiable()
    ensures IsNext(c, t, r) && r / 1440 <= t / 1440 + 1 + HORIZON
  {
    var k := NextFittingDay(c, t / 1440 + 1);
    r := FirstMinuteOfDay(c, k);
    r := LeastBelow(c, t, r);
  }

  lemma FirstMinuteOfDay(c: Cron, n: nat) returns (r: nat)
    requires c.Valid() && c.DayMatches(n)
    ensures r / 1440 == n && c.Matches(r)
  {
    var h: int :| h in c.hour;
    var m: int :| m in c.minute;
    FieldsOfMinutes(DateTime(DateOf(n), h, m));
    OrdinalOfDateOf(n);
    r := n * 1440 + h * 60 + m;
  }

  // ----- The search ------------------------------------------------------------------

  /** A bound on the iterations still needed to get from minute `t` to the match `goal`:
      one per day in between plus the minutes of the first and the last day. */
  function Fuel(t: nat, goal: nat): int {
    if t / 1440 == goal / 1440 then goal - t
    else goal / 1440 - t / 1440 + 1440 + (if t % 1440 == 0 then 0 else 1440 - t % 1440)
  }

  function NextMonth(d: DateTime): (r: DateTime)
    requires ValidTime(d)
    ensures ValidTime(r)
  {
    AtDayOne(AddDays(DateTime(d.date.(day := 1), 0, 0), 32))
  }

  function NextMidnight(d: DateTime): (r: DateTime)
    requires ValidTime(d)
    ensures ValidTime(r)
  {
    AddDays(d.(hour := 0, minute := 0), 1)
  }

  lemma WithinTheDay(d: DateTime)
    requires ValidTime(d)
    ensures Ordinal(d.date) * 1440 <= Minutes(d) < (Ordinal(d.date) + 1) * 1440
  {
  }

  lemma DayMatchesHere(c: Cron, d: DateTime)
    requires ValidTime(d)
    ensures c.DayMatches(Ordinal(d.date)) <==>
      d.date.month in c.month && c.DayOk(d.date.day, Cron.Weekday(Ordinal(d.date)))
  {
    DateOfOrdinal(d.date);
  }

  lemma FuelBounds(t: nat, goal: nat)
    requires t <= goal
    ensures 0 <= Fuel(t, goal) <= goal / 1440 - t / 1440 + 2880
  {
  }

  lemma MonthAdvances(c: Cron, d: DateTime)
    requires ValidTime(d) && d.date.month !in c.month
    ensures Advances(c, Minutes(d), Minutes(NextMonth(d)))
  {
    MonthJump(d.date);
    WithinTheDay(d);
    var first, len := Ordinal(d.date.(day := 1)), DaysInMonth(d.date.year, d.date.month);
    assert Minutes(NextMonth(d)) == (first + len) * 1440;
    hide Ordinal, DaysInMonth, DateOf, Minutes, NextMonth;
    DaysAdvance(c, first, first + len, Minutes(d));
  }

  lemma MinutesOfNextMidnight(d: DateTime)
    requires ValidTime(d)
    ensures Minutes(NextMidnight(d)) == (Ordinal(d.date) + 1) * 1440
  {
    OrdinalOfDateOf(Ordinal(d.date) + 1);
  }

  lemma DayAdvances(c: Cron, d: DateTime)
    requires ValidTime(d) && !c.DayOk(d.date.day, Cron.Weekday(Ordinal(d.date)))
    ensures Advances(c, Minutes(d), Minutes(NextMidnight(d)))
  {
    DayMatchesHere(c, d);
    MinutesOfNextMidnight(d);
    WithinTheDay(d);
    DaysAdvance(c, Ordinal(d.date), Ordinal(d.date) + 1, Minutes(d));
  }

  lemma HourAdvances(c: Cron, d: DateTime)
    requires ValidTime(d) && d.hour !in c.hour && c.DayMatches(Ordinal(d.date))
    ensures Advances(c, Minutes(d), Minutes(AddMinutes(d.(minute := 0), 60)))
  {
    FieldsOfMinutes(d);
    var h := Ordinal(d.date) * 24 + d.hour;
    MinutesOfTimeOf(h * 60 + 60);
    assert Minutes(AddMinutes(d.(minute := 0), 60)) == h * 60 + 60;
    HoursSkip(c, h, Minutes(d));
  }

  lemma MinuteAdvances(c: Cron, d: DateTime)
    requires ValidTime(d) && d.minute !in c.minute && c.DayMatches(Ordinal(d.date))
    ensures Advances(c, Minutes(d), Minutes(AddMinutes(d, 1)))
  {
    FieldsOfMinutes(d);
    MinutesOfTimeOf(Minutes(d) + 1);
  }

  lemma MatchesHere(c: Cron, d: DateTime)
    requires ValidTime(d) && FitsNow(c, d)
    ensures c.Matches(Minutes(d)) && c.Satisfiable()
  {
    DayMatchesHere(c, d);
    FieldsOfMinutes(d);
  }

  lemma FuelDecreases(c: Cron, t: nat, s: nat, goal: nat)
    requires c.Valid() && IsNext(c, t, goal) && t != goal && Advances(c, t, s)
    ensures IsNext(c, s, goal) && Fuel(s, goal) < Fuel(t, goal)
  {
    DaysOrdered(t, s, goal);
    if t / 1440 < goal / 1440 && t % 1440 == 0 && c.DayMatches(t / 1440) {
      var r := FirstMinuteOfDay(c, t / 1440);
      assert false;
    }
  }

  lemma DaysOrdered(t: nat, s: nat, goal: nat)
    requires t < s <= goal
    ensures t / 1440 <= s / 1440 <= goal / 1440
    ensures t / 1440 == s / 1440 ==> t % 1440 < s % 1440
  {
  }

  const BUDGET: nat := 366 * 24 * 60 * 5
  const EPOCH: nat := 719162 * 1440

  /** Minute `t` in seconds since the epoch. */
  function Seconds(t: nat): int {
    (t - EPOCH) * 60
  }

  /** Minute `t` is the first one strictly after the instant `ts` that matches. */
  ghost predicate IsFirstAfter(c: Cron, ts: real, t: nat) {
    && Seconds(t) as real > ts && c.Matches(t)
    && forall u: nat :: u < t && Seconds(u) as real > ts ==> !c.Matches(u)
  }

  lemma FirstAfterInSeconds(c: Cron, ts: real, t: nat)
    requires (ts / 60.0).Floor + EPOCH >= 0
    requires IsNext(c, (ts / 60.0).Floor + EPOCH + 1, t)
    ensures IsFirstAfter(c, ts, t)
  {
    var m := (ts / 60.0).Floor;
    assert (m as real) * 60.0 <= ts < ((m + 1) as real) * 60.0;
    forall u: nat | u < t && Seconds(u) as real > ts
      ensures !c.Matches(u)
    {
      assert u - EPOCH >= m + 1;
    }
  }

  // ----- What a match is on the clock and the calendar ----------------------------------------------

  /** Days after 1970-01-01, which was a Thursday; the calendar begins with year 1. */
  predicate InCalendar(s: int) {
    Ordinal(Date(1970, 1, 1)) + s / 86400 >= 0
  }

  /** At `s` seconds after 1970-01-01 00:00 the minute, hour, month and day fields hold: the day by day of month and
      weekday (0 is Sunday) if either field is a star, and otherwise by at least one of the two. */
  ghost predicate Fires(c: Cron, s: int)
    requires InCalendar(s)
  {
    var date := DateOf(Ordinal(Date(1970, 1, 1)) + s / 86400);
    var weekday := (s / 86400 + 4) % 7;
    && s / 60 % 60 in c.minute && s / 3600 % 24 in c.hour && date.month in c.month
    && (c.domAny || c.dowAny ==> date.day in c.dom && weekday in c.dow)
    && (date.day in c.dom || weekday in c.dow)
  }

  lemma MinuteInSeconds(t: nat)
    ensures var s := Seconds(t);
      && s / 86400 == t / 1440 - 719162 && s / 3600 % 24 == t / 60 % 24 && s / 60 % 60 == t % 60
      && (s / 86400 + 4) % 7 == (t / 1440 + 1) % 7
  {
    DayPart(t / 1440 - 719162, t % 1440);
    TimeOfDay(t / 1440, t % 1440);
    SevenDays(t / 1440 - 719158);
  }

  lemma DayPart(k: int, m: nat)
    requires m < 1440
    ensures var s := 86400 * k + 60 * m; s / 86400 == k && s / 3600 % 24 == m / 60 && s / 60 % 60 == m % 60
  {
    var s := 86400 * k + 60 * m;
    assert s / 3600 == 24 * k + m / 60;
    assert s / 60 == 1440 * k + m;
  }

  lemma TimeOfDay(k: nat, m: nat)
    requires m < 1440
    ensures var t := 1440 * k + m; t / 60 % 24 == m / 60 && t % 60 == m % 60
  {
    assert (1440 * k + m) / 60 == 24 * k + m / 60;
  }

  lemma SevenDays(x: int)
    ensures x % 7 == (x + 719159) % 7
  {
    assert 719159 == 7 * 102737;
  }

  lemma FiresIffMatches(c: Cron, t: nat)
    ensures InCalendar(Seconds(t)) && (Fires(c, Seconds(t)) <==> c.Matches(t))
  {
    EpochDay();
    MinuteInSeconds(t);
    hide Ordinal, DateOf, Seconds;
  }

  /** Every full minute of the calendar is some minute counted from its beginning. */
  lemma SecondsInMinutes(s: int) returns (t: nat)
    requires s % 60 == 0 && InCalendar(s)
    ensures s == Seconds(t)
  {
    EpochDay();
    hide Ordinal;
    assert s / 60 + EPOCH >= 0;
    t := s / 60 + EPOCH;
  }

  /** The first minute that matches is, in seconds, the first full minute at which the fields hold. */
  lemma FirstToFire(c: Cron, ts: real, t: nat)
    requires IsFirstAfter(c, ts, t)
    ensures Seconds(t) % 60 == 0 && InCalendar(Seconds(t)) && Fires(c, Seconds(t))
    ensures forall s: int :: s % 60 == 0 && InCalendar(s) && ts < s as real && s < Seconds(t) ==> !Fires(c, s)
  {
    FiresIffMatches(c, t);
    hide Fires, InCalendar, Seconds;
    SecondsWhole(t);
    forall s: int | s % 60 == 0 && InCalendar(s) && ts < s as real && s < Seconds(t) ensures !Fires(c, s) {
      var u := SecondsInMinutes(s);
      FiresIffMatches(c, u);
      SecondsOrdered(u, t);
    }
  }

  lemma SecondsWhole(t: nat)
    ensures Seconds(t) % 60 == 0
  {
  }

  lemma SecondsOrdered(u: nat, t: nat)
    ensures Seconds(u) < Seconds(t) <==> u < t
  {
  }

  lemma NeverFires(c: Cron)
    requires !c.Satisfiable()
    ensures forall s: int :: s % 60 == 0 && InCalendar(s) ==> !Fires(c, s)
  {
    forall s: int | s % 60 == 0 && InCalendar(s) ensures !Fires(c, s) {
      var u := SecondsInMinutes(s);
      FiresIffMatches(c, u);
    }
  }

  predicate FitsNow(c: Cron, d: DateTime)
    requires ValidTime(d)
  {
    && d.date.month in c.month && c.DayOk(d.date.day, Cron.Weekday(Ordinal(d.date)))
    && d.hour in c.hour && d.minute in c.minute
  }

  /** One pass of the search loop on a time that does not fit: skip to the next month, midnight,
      hour or minute, whichever field fails first. */
  method SkipAhead(c: Cron, d: DateTime) returns (r: DateTime)
    requires ValidTime(d) && !FitsNow(c, d)
    ensures ValidTime(r) && Advances(c, Minutes(d), Minutes(r))
  {
    DayMatchesHere(c, d);
    if d.date.month !in c.month {
      MonthAdvances(c, d);
      r := AtDayOne(AddDays(DateTime(d.date.(day := 1), 0, 0), 32));
    } else if !c.DayOk(d.date.day, Cron.Weekday(Ordinal(d.date))) {
      DayAdvances(c, d);
      r := AddDays(d.(hour := 0, minute := 0), 1);
    } else if d.hour !in c.hour {
      HourAdvances(c, d);
      r := AddMinutes(d.(minute := 0), 60);
    } else {
      MinuteAdvances(c, d);
      r := AddMinutes(d, 1);
    }
  }

  /** `next_after`: the first matching minute strictly after `ts`, in epoch seconds; it is found
      exactly when the expression fits some calendar day at all. */
  method NextAfter(c: Cron, ts: real) returns (r: Option<int>)
    requires c.Valid() && (ts / 60.0).Floor + EPOCH >= 0
    ensures r.Some? <==> c.Satisfiable()
    ensures match r
      case Some(s) =>
        && s % 60 == 0 && s as real > ts && InCalendar(s) && Fires(c, s)
        && forall u: int :: u % 60 == 0 && InCalendar(u) && ts < u as real && u < s ==> !Fires(c, u)
      case None => forall u: int :: u % 60 == 0 && InCalendar(u) ==> !Fires(c, u)
  {
    var m := (ts / 60.0).Floor + EPOCH;
    ghost var start := m + 1;
    var d := TimeOf(m);
    MinutesOfTimeOf(m);
    d := AddMinutes(d, 1);
    MinutesOfTimeOf(start);
    ghost var t, goal, fits := start, start, c.Satisfiable();
    if fits {
      goal := NextExists(c, start);
      FuelBounds(start, goal);
    }
    for i := 0 to BUDGET
      invariant ValidTime(d) && t == Minutes(d) && start <= t
      invariant forall u: nat :: start <= u < t ==> !c.Matches(u)
      invariant fits ==> IsNext(c, t, goal) && Fuel(t, goal) < BUDGET - i
    {
      if FitsNow(c, d) {
        MatchesHere(c, d);
        FirstAfterInSeconds(c, ts, Minutes(d));
        FirstToFire(c, ts, Minutes(d));
        return Some(Seconds(Minutes(d)));
      }
      ghost var before := t;
      d := SkipAhead(c, d);
      t := Minutes(d);
      if fits {
        FuelDecreases(c, before, t, goal);
      }
    }
    if fits {
      FuelBounds(t, goal);
    }
    NeverFires(c);
    return None;
  }
}
