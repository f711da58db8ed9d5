/**
 * Online presence statistics: every ten minutes each opted-in guild's
 * member statuses are counted and stored under a time-of-day index; a plot
 * averages a weekday's rows and shifts them into the viewer's time zone.
 * The database, the clock, the viewer's time zone and the plotting are
 * external and arrive as parameters.
 */
module OnlinePlot {
  import opened Common

  // ------------------------------------------------------------- weekdays

  /** `WEEKDAYS`, in its order: the keys, each mapped to its position. */
  const WEEKDAY_NAMES: seq<string> := ["sunday", "monday", "tuesday", "wednesday", "thursday", "friday", "saturday"]

  /** The position of `name` among `names`. */
  function IndexOf(names: seq<string>, name: string): (r: Option<nat>)
    ensures r.None? <==> name !in names
    ensures r.Some? ==> r.value < |names| && names[r.value] == name && name !in names[..r.value]
  {
    if |names| == 0 then None
    else if names[0] == name then Some(0)
    else
      var k := IndexOf(names[1..], name);
      if k.None? then None
      else
        assert names[..k.value + 1] == [names[0]] + names[1..][..k.value];
        Some(k.value + 1)
  }

  datatype PlotDay = Day(n: nat) | InvalidWeekday(reply: string)

  /**
   * The weekday a plot shows: today (`isoweekday() % 7`, so Sunday is 0)
   * without an argument, otherwise the named day, refusing unknown names.
   */
  function ChooseDay(dayArg: Option<string>, isoWeekday: int): (r: PlotDay)
    requires 1 <= isoWeekday <= 7
    ensures dayArg.None? ==> r == Day(isoWeekday % 7)
    ensures dayArg.Some? && Lower(dayArg.value) in WEEKDAY_NAMES ==>
      r.Day? && r.n < 7 && WEEKDAY_NAMES[r.n] == Lower(dayArg.value)
    ensures dayArg.Some? && Lower(dayArg.value) !in WEEKDAY_NAMES ==>
      r == InvalidWeekday("Invalid weekday.  Must be one of: " + Join(", ", WEEKDAY_NAMES))
    ensures r.Day? ==> r.n < 7
  {
    if dayArg.None? then Day(isoWeekday % 7)
    else
      var k := IndexOf(WEEKDAY_NAMES, Lower(dayArg.value));
      if k.None? then InvalidWeekday("Invalid weekday.  Must be one of: " + Join(", ", WEEKDAY_NAMES))
      else Day(k.value)
  }

  /** ISO weekday names, Monday being 1. */
  function IsoDayName(isoWeekday: int): string
    requires 1 <= isoWeekday <= 7
  {
    ["monday", "tuesday", "wednesday", "thursday", "friday", "saturday", "sunday"][isoWeekday - 1]
  }

  /** Naming today's weekday selects the same day as giving no argument. */
  lemma NamedDayIsToday(isoWeekday: int, today: int)
    requires 1 <= isoWeekday <= 7 && 1 <= today <= 7
    ensures ChooseDay(Some(IsoDayName(isoWeekday)), today) == ChooseDay(None, isoWeekday)
  {
    var name := IsoDayName(isoWeekday);
    assert Lower(name) == name;
    assert WEEKDAY_NAMES[isoWeekday % 7] == name;
  }

  // ----------------------------------------------------------- time index

  /** `record_time_index`: the ten-minute slot of a UTC time of day. */
  function RecordTimeIndex(hour: int, minute: int): (idx: nat)
    requires 0 <= hour < 24 && 0 <= minute < 60
    ensures idx < 144
    ensures 10 * idx <= hour * 60 + minute < 10 * idx + 10
  {
    (hour * 60 + minute) / 10
  }

  /**
   * A slot's start in the viewer's local minutes of the day:
   * `(10 * idx + offset_seconds // 60) % 1440` (Python's floor division
   * and modulo, which agree with Euclidean ones for these positive divisors).
   */
  function LocalMinutes(idx: int, offsetSeconds: int): (mins: nat)
    ensures mins < 1440 && mins / 60 < 24 && mins % 60 < 60
    ensures (mins - 10 * idx - offsetSeconds / 60) % 1440 == 0
  {
    var m := 10 * idx + offsetSeconds / 60;
    assert m % 1440 - m == -(1440 * (m / 1440));
    m % 1440
  }

  /** Shifting a slot into UTC (offset 0) gives back the slot's own start. */
  lemma LocalMinutesUtc(hour: int, minute: int)
    requires 0 <= hour < 24 && 0 <= minute < 60
    ensures LocalMinutes(RecordTimeIndex(hour, minute), 0) == 10 * RecordTimeIndex(hour, minute)
  {
    var idx := RecordTimeIndex(hour, minute);
    var m := 10 * idx;
    assert 0 <= m < 1440;
    assert 0 / 60 == 0;
    assert m + 0 / 60 == m;
    assert m % 1440 == m;
  }

  /** One averaged row: slot index and the four averages. */
  datatype Averages = Averages(idx: int, online: int, idle: int, dnd: int, offline: int)

  /** One plotted point: local time of day (hour, minute) and the four averages. */
  datatype Point = Point(hour: nat, minute: nat, online: int, idle: int, dnd: int, offline: int)

  function PointOf(row: Averages, offsetSeconds: int): (p: Point)
    ensures p.hour < 24 && p.minute < 60
    ensures p.hour * 60 + p.minute == LocalMinutes(row.idx, offsetSeconds)
  {
    var mins := LocalMinutes(row.idx, offsetSeconds);
    Point(mins / 60, mins % 60, row.online, row.idle, row.dnd, row.offline)
  }

  predicate TimeLe(a: Point, b: Point) {
    a.hour * 60 + a.minute <= b.hour * 60 + b.minute
  }

  lemma TimeLeTotalPreorder()
    ensures TotalPreorder(TimeLe)
  {
  }

  /**
   * `fetch_guild_data` after the query: each row's slot moved into local
   * time, then all points sorted by time of day.
   */
  method FetchGuildData(rows: seq<Averages>, offsetSeconds: int) returns (points: seq<Point>)
    ensures SortedBy(points, TimeLe)
    ensures multiset(points) == multiset(seq(|rows|, i requires 0 <= i < |rows| => PointOf(rows[i], offsetSeconds)))
    ensures forall p :: p in points ==> p.hour < 24 && p.minute < 60
  {
    var o: seq<Point> := [];
    var i := 0;
    while i < |rows|
      invariant 0 <= i <= |rows| && |o| == i
      invariant forall k :: 0 <= k < i ==> o[k] == PointOf(rows[k], offsetSeconds)
      decreases |rows| - i
    {
      var mins := LocalMinutes(rows[i].idx, offsetSeconds);
      o := o + [Point(mins / 60, mins % 60, rows[i].online, rows[i].idle, rows[i].dnd, rows[i].offline)];
      i := i + 1;
    }
    assert o == seq(|rows|, i requires 0 <= i < |rows| => PointOf(rows[i], offsetSeconds));
    TimeLeTotalPreorder();
    SortBySorted(o, TimeLe);
    points := SortBy(o, TimeLe);
    forall p | p in points
      ensures p.hour < 24 && p.minute < 60
    {
      assert p in multiset(o);
    }
  }

  // -------------------------------------------------------------- statuses

  datatype Status = Online | Idle | Dnd | Offline | Other(name: string)

  predicate Known(s: Status) {
    !s.Other?
  }

  datatype Stats = Stats(online: nat, idle: nat, dnd: nat, offline: nat)

  /** A known status is exactly one of the four. */
  lemma {:induction false} CountsSum(members: seq<Status>)
    requires forall i :: 0 <= i < |members| ==> Known(members[i])
    ensures Count(members, Online) + Count(members, Idle) + Count(members, Dnd) + Count(members, Offline) == |members|
  {
    if |members| > 0 {
      assert forall i :: 0 <= i < |members[1..]| ==> members[1..][i] == members[i + 1];
      CountsSum(members[1..]);
      assert Known(members[0]);
    }
  }

  /**
   * `get_onilne_stats`: one counter per status; an unknown status raises
   * (None here).
   */
  method OnlineStats(members: seq<Status>) returns (r: Option<Stats>)
    ensures r.None? <==> exists i :: 0 <= i < |members| && !Known(members[i])
    ensures r.Some? ==> r.value == Tally(members)
    ensures r.Some? ==> r.value.online + r.value.idle + r.value.dnd + r.value.offline == |members|
  {
    var online, idle, dnd, offline := 0, 0, 0, 0;
    var i := 0;
    while i < |members|
      invariant 0 <= i <= |members|
      invariant forall k :: 0 <= k < i ==> Known(members[k])
      invariant Stats(online, idle, dnd, offline) == Tally(members[..i])
      decreases |members| - i
    {
      TallyStep(members, i);
      match members[i] {
        case Online => online := online + 1;
        case Idle => idle := idle + 1;
        case Dnd => dnd := dnd + 1;
        case Offline => offline := offline + 1;
        case Other(_) =>
          assert !Known(members[i]);
          return None;
      }
      i := i + 1;
    }
    assert members[..|members|] == members;
    CountsSum(members);
    r := Some(Stats(online, idle, dnd, offline));
  }

  /** The four counters over `s`. */
  function Tally(s: seq<Status>): (t: Stats)
    ensures t.online == Count(s, Online) && t.idle == Count(s, Idle)
    ensures t.dnd == Count(s, Dnd) && t.offline == Count(s, Offline)
  {
    Stats(Count(s, Online), Count(s, Idle), Count(s, Dnd), Count(s, Offline))
  }

  /** The counters after one more member: the one matching its status goes up. */
  lemma TallyStep(members: seq<Status>, i: nat)
    requires i < |members|
    ensures var t, x := Tally(members[..i]), members[i];
      Tally(members[..i + 1]) ==
        match x
        case Online => t.(online := t.online + 1)
        case Idle => t.(idle := t.idle + 1)
        case Dnd => t.(dnd := t.dnd + 1)
        case Offline => t.(offline := t.offline + 1)
        case Other(_) => t
  {
    assert members[..i + 1] == members[..i] + [members[i]];
    CountSnoc(members[..i], members[i], Online);
    CountSnoc(members[..i], members[i], Idle);
    CountSnoc(members[..i], members[i], Dnd);
    CountSnoc(members[..i], members[i], Offline);
  }

  lemma {:induction false} CountSnoc<T>(s: seq<T>, x: T, y: T)
    ensures Count(s + [x], y) == Count(s, y) + (if x == y then 1 else 0)
  {
    if |s| > 0 {
      assert (s + [x])[1..] == s[1..] + [x];
      CountSnoc(s[1..], x, y);
    } else {
      assert (s + [x])[1..] == [];
    }
  }

  // ------------------------------------------------------------- time zone

  /** Two decimal digits. */
  function Digits2(n: nat): (r: string)
    requires n < 100
    ensures |r| == 2 && IsDigit(r[0]) && IsDigit(r[1])
    ensures DigitsValue(r) == n
  {
    var r := [('0' as int + n / 10) as char, ('0' as int + n % 10) as char];
    assert r[..1][..0] == [] && r[..|r| - 1] == r[..1];
    assert DigitsValue(r[..1]) == DigitValue(r[0]);
    r
  }

  /** `"{:+05}".format(v)` for `|v| < 10000`: sign, then four zero-padded digits. */
  function SignedPad4(v: int): (r: string)
    requires -10000 < v < 10000
    ensures |r| == 5 && (r[0] == '-' <==> v < 0) && (r[0] == '+' <==> v >= 0)
    ensures var a := if v < 0 then -v else v;
      r[1..3] == Digits2(a / 100) && r[3..5] == Digits2(a % 100)
  {
    var a := if v < 0 then -v else v;
    var r := (if v < 0 then "-" else "+") + Digits2(a / 100) + Digits2(a % 100);
    assert r[1..3] == Digits2(a / 100) && r[3..5] == Digits2(a % 100);
    r
  }

  lemma HhMm(h: nat, m: nat)
    requires m < 100
    ensures (h * 100 + m) / 100 == h && (h * 100 + m) % 100 == m
  {
  }

  /**
   * `get_tz_str` for a UTC offset of `offsetMinutes`: `%z` reads it as
   * the number `hhmm`, which is negated, formatted with `{:+05}`, and split
   * by a `:` after the hours.
   */
  function TzStr(offsetMinutes: int): (r: string)
    requires -1440 < offsetMinutes < 1440
    ensures |r| == 6 && r[3] == ':'
    ensures r[0] == '-' <==> offsetMinutes > 0
    ensures r[0] == '+' <==> offsetMinutes <= 0
    ensures IsDigit(r[1]) && IsDigit(r[2]) && IsDigit(r[4]) && IsDigit(r[5])
    ensures var a := if offsetMinutes < 0 then -offsetMinutes else offsetMinutes;
      DigitsValue(r[1..3]) == a / 60 && DigitsValue(r[4..6]) == a % 60
  {
    var a := if offsetMinutes < 0 then -offsetMinutes else offsetMinutes;
    var h := a / 60;
    var m := a % 60;
    var hhmm := h * 100 + m;
    HhMm(h, m);
    var z := if offsetMinutes < 0 then -hhmm else hhmm;
    var s := SignedPad4(-z);
    var r := s[..3] + ":" + s[3..];
    assert r[1..3] == s[1..3] && r[4..6] == s[3..5];
    r
  }
}
