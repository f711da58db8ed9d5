/**
 * The time cog's arithmetic: the duration parser behind "remindme in",
 * "every" and "schedule", the two divmod formatters, the hour/meridiem
 * normalisation of the exact-time parsers, one user's reminder list with the
 * reminder loop's advance rule, and a guild's schedules.
 *
 * Timestamps and "now" are plain integers of seconds; calendar arithmetic and
 * time-zone localisation are not modelled, and month/year counts stay symbolic.
 */
module TimeCog {
  import opened Common

  // ------------------------------------------------------------ durations

  /**
   * The value `tin2tdelta` accumulates. It starts as a `timedelta`; once a
   * month or year unit is added it becomes a `relativedelta` (`relative`),
   * even for a count of zero. Every other unit is a whole number of minutes.
   */
  datatype Delta = Delta(relative: bool, months: int, years: int, minutes: int)

  const ZERO := Delta(false, 0, 0, 0)

  datatype Unit = Months | Minutes | Hours | Days | Weeks | Years

  datatype TimeError = SecondsNotExact | InvalidUnit(unit: string) | Unreasonable

  datatype Result<T> = Ok(value: T) | Err(error: TimeError)

  predicate IsDigits(s: string) { |s| > 0 && forall c :: c in s ==> IsDigit(c) }

  /** One `(-?\d+) ?([a-z]+) ?` match of the lowercased string: the number and the unit word. */
  datatype Tin = Tin(number: string, unit: string)

  predicate WellFormed(t: Tin) {
    (IsDigits(t.number) || (|t.number| > 1 && t.number[0] == '-' && IsDigits(t.number[1..]))) &&
    |t.unit| > 0 && forall c :: c in t.unit ==> 'a' <= c <= 'z'
  }

  predicate AllWellFormed(tins: seq<Tin>) { forall i :: 0 <= i < |tins| ==> WellFormed(tins[i]) }

  /** `int(tin)`. */
  function TinValue(t: Tin): int
    requires WellFormed(t)
  {
    if t.number[0] == '-' then -(DigitsValue(t.number[1..]) as int) else DigitsValue(t.number)
  }

  /**
   * The unit dispatch: "mo" before "m", then h/d/w/y; "s" and anything else
   * are errors. The matcher never yields an empty unit; one counts as invalid.
   */
  function UnitOf(u: string): (r: Result<Unit>)
    ensures StartsWith(u, "mo") ==> r == Ok(Months)
    ensures !StartsWith(u, "mo") && |u| > 0 && u[0] == 'm' ==> r == Ok(Minutes)
    ensures |u| > 0 && u[0] == 's' ==> r == Err(SecondsNotExact)
    ensures r.Err? <==> |u| == 0 || u[0] !in {'m', 'h', 'd', 'w', 'y'}
    ensures r.Err? && !(|u| > 0 && u[0] == 's') ==> r == Err(InvalidUnit(u))
  {
    if |u| >= 2 && u[..2] == "mo" then Ok(Months)
    else if |u| == 0 then Err(InvalidUnit(u))
    else if u[0] == 'm' then Ok(Minutes)
    else if u[0] == 'h' then Ok(Hours)
    else if u[0] == 'd' then Ok(Days)
    else if u[0] == 'w' then Ok(Weeks)
    else if u[0] == 'y' then Ok(Years)
    else if u[0] == 's' then Err(SecondsNotExact)
    else Err(InvalidUnit(u))
  }

  function AddUnit(d: Delta, u: Unit, n: int): Delta {
    match u
    case Months => d.(relative := true, months := d.months + n)
    case Years => d.(relative := true, years := d.years + n)
    case Minutes => d.(minutes := d.minutes + n)
    case Hours => d.(minutes := d.minutes + 60 * n)
    case Days => d.(minutes := d.minutes + 1440 * n)
    case Weeks => d.(minutes := d.minutes + 10080 * n)
  }

  function Plus(a: Delta, b: Delta): Delta {
    Delta(a.relative || b.relative, a.months + b.months, a.years + b.years, a.minutes + b.minutes)
  }

  /** A `timedelta` holds at most 999999999 days either way; its day count is the floor of the total. */
  const MAX_DAYS := 999999999

  predicate InRange(minutes: int) { -MAX_DAYS <= minutes / 1440 <= MAX_DAYS }

  /** Months and years build a `relativedelta`, which has no range limit. */
  predicate IsRelativeUnit(u: Unit) { u == Months || u == Years }

  /**
   * One pass of the loop of `tin2tdelta`: the unit's own error; the
   * OverflowError ("Be reasonable") of a unit `timedelta` out of range, or of
   * a `timedelta` sum out of range (a relativedelta accumulator has no range);
   * otherwise the accumulator with the unit added.
   */
  function Step(acc: Delta, t: Tin): (r: Result<Delta>)
    requires WellFormed(t)
    ensures UnitOf(t.unit).Err? ==> r == Err(UnitOf(t.unit).error)
    ensures r.Ok? ==> UnitOf(t.unit).Ok? && r.value == AddUnit(acc, UnitOf(t.unit).value, TinValue(t))
    ensures r == Err(Unreasonable) <==>
      UnitOf(t.unit).Ok? && !IsRelativeUnit(UnitOf(t.unit).value) &&
      (!InRange(AddUnit(ZERO, UnitOf(t.unit).value, TinValue(t)).minutes) ||
       (!acc.relative && !InRange(AddUnit(acc, UnitOf(t.unit).value, TinValue(t)).minutes)))
    ensures UnitOf(t.unit).Ok? && IsRelativeUnit(UnitOf(t.unit).value) ==> r.Ok?
  {
    match UnitOf(t.unit)
    case Err(e) => Err(e)
    case Ok(u) =>
      var next := AddUnit(acc, u, TinValue(t));
      if IsRelativeUnit(u) then Ok(next)
      else if !InRange(AddUnit(ZERO, u, TinValue(t)).minutes) then Err(Unreasonable)
      else if !acc.relative && !InRange(next.minutes) then Err(Unreasonable)
      else Ok(next)
  }

  /** The loop of `tin2tdelta` from accumulator `acc` over the remaining matches. */
  function SumFrom(acc: Delta, tins: seq<Tin>): (r: Result<Delta>)
    requires AllWellFormed(tins)
    ensures |tins| == 0 ==> r == Ok(acc)
    ensures |tins| > 0 && r.Ok? && !r.value.relative ==> InRange(r.value.minutes)
    decreases |tins|
  {
    if |tins| == 0 then Ok(acc)
    else
      match Step(acc, tins[0])
      case Err(e) => Err(e)
      case Ok(next) => SumFrom(next, tins[1..])
  }

  /** `tin2tdelta` from an empty timedelta: a plain result is always within the timedelta range. */
  function SumTins(tins: seq<Tin>): (r: Result<Delta>)
    requires AllWellFormed(tins)
    ensures r.Ok? && !r.value.relative ==> InRange(r.value.minutes)
  {
    SumFrom(ZERO, tins)
  }

  function Shift(acc: Delta, r: Result<Delta>): Result<Delta> {
    match r
    case Ok(d) => Ok(Plus(acc, d))
    case Err(e) => Err(e)
  }

  /**
   * Reference definition: what the matches denote, unit errors aside and
   * with no range limit, as the sum of one delta per match.
   */
  function PlainSum(tins: seq<Tin>): Result<Delta>
    requires AllWellFormed(tins)
    decreases |tins|
  {
    if |tins| == 0 then Ok(ZERO)
    else
      match UnitOf(tins[0].unit)
      case Err(e) => Err(e)
      case Ok(u) => Shift(AddUnit(ZERO, u, TinValue(tins[0])), PlainSum(tins[1..]))
  }

  lemma AddUnitIsPlus(acc: Delta, u: Unit, n: int)
    ensures AddUnit(acc, u, n) == Plus(acc, AddUnit(ZERO, u, n))
  {
  }

  lemma ShiftShift(a: Delta, b: Delta, r: Result<Delta>)
    ensures Shift(a, Shift(b, r)) == Shift(Plus(a, b), r)
  {
  }

  /** Whatever the loop accepts is the accumulator plus the plain sum of the matches. */
  lemma {:induction false} SumFromShift(acc: Delta, tins: seq<Tin>)
    requires AllWellFormed(tins)
    ensures SumFrom(acc, tins).Ok? ==> SumFrom(acc, tins) == Shift(acc, PlainSum(tins))
    decreases |tins|
  {
    if |tins| > 0 {
      var step := Step(acc, tins[0]);
      if step.Ok? {
        var u := UnitOf(tins[0].unit).value;
        var n := TinValue(tins[0]);
        SumFromShift(step.value, tins[1..]);
        AddUnitIsPlus(acc, u, n);
        ShiftShift(acc, AddUnit(ZERO, u, n), PlainSum(tins[1..]));
      }
    }
  }

  /** The loop over several matches runs the loop over the first part, then over the rest. */
  lemma {:induction false} SumTinsAppend(acc: Delta, a: seq<Tin>, b: seq<Tin>)
    requires AllWellFormed(a) && AllWellFormed(b)
    ensures AllWellFormed(a + b)
    ensures SumFrom(acc, a + b) == match SumFrom(acc, a) case Err(e) => Err(e) case Ok(x) => SumFrom(x, b)
    decreases |a|
  {
    if |a| == 0 {
      assert a + b == b;
    } else {
      assert (a + b)[0] == a[0] && (a + b)[1..] == a[1..] + b;
      match Step(acc, a[0])
      case Err(_) =>
      case Ok(next) => SumTinsAppend(next, a[1..], b);
    }
  }

  /** The loop's value after the first `i` matches. */
  function Before(acc: Delta, tins: seq<Tin>, i: nat): Result<Delta>
    requires AllWellFormed(tins) && i <= |tins|
  {
    SumFrom(acc, tins[..i])
  }

  lemma BeforeStep(acc: Delta, tins: seq<Tin>, i: nat)
    requires AllWellFormed(tins) && 1 <= i <= |tins|
    ensures Before(acc, tins, i) == match Step(acc, tins[0]) case Err(e) => Err(e) case Ok(n) => Before(n, tins[1..], i - 1)
  {
    assert tins[..i][0] == tins[0] && tins[..i][1..] == tins[1..][..i - 1];
  }

  /**
   * The parse fails exactly when some match's step fails after every earlier
   * one succeeded, and then with that step's error.
   */
  lemma {:induction false} SumTinsFirstError(tins: seq<Tin>, acc: Delta)
    requires AllWellFormed(tins)
    ensures SumFrom(acc, tins).Err? <==>
      exists i :: 0 <= i < |tins| && Before(acc, tins, i).Ok? && Step(Before(acc, tins, i).value, tins[i]).Err?
    ensures SumFrom(acc, tins).Err? ==>
      exists i :: 0 <= i < |tins| && Before(acc, tins, i).Ok? && Step(Before(acc, tins, i).value, tins[i]) == SumFrom(acc, tins)
    decreases |tins|
  {
    if |tins| > 0 {
      assert Before(acc, tins, 0) == Ok(acc) by {
        assert tins[..0] == [];
      }
      match Step(acc, tins[0])
      case Err(_) =>
      case Ok(next) =>
        var rest := tins[1..];
        SumTinsFirstError(rest, next);
        forall i | 1 <= i <= |tins| ensures Before(acc, tins, i) == Before(next, rest, i - 1) {
          BeforeStep(acc, tins, i);
        }
        if SumFrom(acc, tins).Err? {
          var k :| 0 <= k < |rest| && Before(next, rest, k).Ok? && Step(Before(next, rest, k).value, rest[k]) == SumFrom(next, rest);
          assert tins[k + 1] == rest[k];
          assert Before(acc, tins, k + 1) == Before(next, rest, k);
        } else {
          forall i | 0 <= i < |tins| && Before(acc, tins, i).Ok?
            ensures Step(Before(acc, tins, i).value, tins[i]).Ok?
          {
            if i > 0 {
              assert tins[i] == rest[i - 1];
            }
          }
        }
    }
  }

  /** A refused unit anywhere refuses the whole parse. */
  lemma {:induction false} RefusedUnitRefuses(tins: seq<Tin>, acc: Delta, i: nat)
    requires AllWellFormed(tins) && i < |tins| && UnitOf(tins[i].unit).Err?
    ensures SumFrom(acc, tins).Err?
    ensures PlainSum(tins).Err?
    decreases i
  {
    if i > 0 {
      assert tins[1..][i - 1] == tins[i];
      match Step(acc, tins[0])
      case Err(_) =>
        if UnitOf(tins[0].unit).Ok? {
          RefusedUnitRefuses(tins[1..], acc, i - 1);
        }
      case Ok(next) => RefusedUnitRefuses(tins[1..], next, i - 1);
    }
  }

  /**
   * A count of minutes past 999999999 days, such as "99999999999999 minutes",
   * is refused: that timedelta cannot be built.
   */
  lemma HugeMinutesUnreasonable(n: nat)
    requires n / 1440 > MAX_DAYS
    ensures var t := Tin(DigitString(n), "minutes");
      WellFormed(t) && SumTins([t]) == Err(Unreasonable)
  {
    var t := Tin(DigitString(n), "minutes");
    DigitStringRoundTrip(n);
    assert t.number[0] in t.number;
    assert TinValue(t) == n;
    assert "minutes"[..2] == "mi" && "minutes"[0] == 'm';
    assert UnitOf("minutes") == Ok(Minutes);
    assert [t][1..] == [];
  }

  /** `tin2tdelta`: "now" is zero; otherwise each match is added in turn to an empty timedelta. */
  method Tin2TDelta(tinstr: string, tins: seq<Tin>) returns (r: Result<Delta>)
    requires AllWellFormed(tins)
    ensures Strip(Lower(tinstr)) == "now" ==> r == Ok(ZERO)
    ensures Strip(Lower(tinstr)) != "now" ==> r == SumTins(tins)
  {
    if Strip(Lower(tinstr)) == "now" {
      return Ok(ZERO);
    }
    var o := ZERO;
    var i := 0;
    while i < |tins|
      invariant 0 <= i <= |tins|
      invariant SumTins(tins) == SumFrom(o, tins[i..])
    {
      assert tins[i..][0] == tins[i] && tins[i..][1..] == tins[i + 1..];
      var step := Step(o, tins[i]);
      if step.Err? {
        return Err(step.error);
      }
      o := step.value;
      i := i + 1;
    }
    return Ok(o);
  }

  /**
   * The interval that `every`, schedule creation and `schedule interval`
   * store: the `.seconds` field of the parsed delta. For a timedelta that is
   * the part of the total below one day; a relativedelta normalises whole
   * minutes away, leaving 0.
   */
  function StoredInterval(d: Delta): (s: nat)
    ensures s < 86400 && s % 60 == 0
    ensures d.relative ==> s == 0
    ensures !d.relative ==> (d.minutes * 60 - s) % 86400 == 0
  {
    if d.relative then 0 else (d.minutes * 60) % 86400
  }

  /** Whole days vanish from a stored interval: "1d" parses to one day yet stores 0. */
  lemma DailyIntervalStoresZero()
    ensures SumTins([Tin("1", "d")]) == Ok(Delta(false, 0, 0, 1440))
    ensures StoredInterval(SumTins([Tin("1", "d")]).value) == 0
  {
    assert DigitsValue("1") == 1 by {
      assert "1"[..0] == "";
    }
    assert UnitOf("d") == Ok(Days);
  }

  /** Sub-day plain intervals are stored exactly. */
  lemma SubDayIntervalExact(d: Delta)
    requires !d.relative && 0 <= d.minutes < 1440
    ensures StoredInterval(d) == d.minutes * 60
  {
  }

  // ------------------------------------------------------------ formatters

  datatype Parts = Parts(y: int, d: nat, h: nat, m: nat, s: nat)

  /** The divmod chain of `ydhm`, with Python's floor semantics for negative input. */
  function Decompose(seconds: int): (p: Parts)
    ensures p.y * 31536000 + p.d * 86400 + p.h * 3600 + p.m * 60 + p.s == seconds
    ensures p.d < 365 && p.h < 24 && p.m < 60 && p.s < 60
  {
    var y, r1 := seconds / 31536000, seconds % 31536000;
    var d, r2 := r1 / 86400, r1 % 86400;
    var h, r3 := r2 / 3600, r2 % 3600;
    var m, s := r3 / 60, r3 % 60;
    Parts(y, d, h, m, s)
  }

  function Unitize(n: int, unit: string): string {
    IntToString(n) + " " + unit + (if n > 1 then "s" else "")
  }

  function UnitParts(p: Parts): seq<string> {
    (if p.y != 0 then [Unitize(p.y, "yr")] else []) +
    (if p.d != 0 then [Unitize(p.d, "day")] else []) +
    (if p.h != 0 then [Unitize(p.h, "hr")] else []) +
    (if p.m != 0 then [Unitize(p.m, "min")] else [])
  }

  /** `ydhm`: the non-zero parts joined by spaces, or "<1 minute". */
  function Ydhm(seconds: int): (r: string)
    ensures |r| > 0
  {
    var parts := UnitParts(Decompose(seconds));
    if |parts| == 0 then "<1 minute" else Join(" ", parts)
  }

  lemma JoinHead(parts: seq<string>)
    requires |parts| > 0 && |parts[0]| > 0
    ensures |Join(" ", parts)| > 0 && Join(" ", parts)[0] == parts[0][0]
  {
  }

  /** `ydhm` answers "<1 minute" exactly for a remaining time in [0, 60) seconds. */
  lemma YdhmUnderAMinute(seconds: int)
    ensures Ydhm(seconds) == "<1 minute" <==> 0 <= seconds < 60
  {
    var p := Decompose(seconds);
    var parts := UnitParts(p);
    if |parts| > 0 {
      var first := parts[0];
      assert first[0] == '-' || IsDigit(first[0]) by {
        assert exists n: int, u :: first == Unitize(n, u);
        var n: int, u :| first == Unitize(n, u);
        if n < 0 {
          assert first[0] == '-';
        } else {
          assert first[0] == DigitString(n)[0];
          assert DigitString(n)[0] in DigitString(n);
        }
      }
      JoinHead(parts);
      assert Ydhm(seconds)[0] != '<';
      assert p.y != 0 || p.d != 0 || p.h != 0 || p.m != 0;
      if p.y == 0 {
        assert seconds >= 60;
      }
    }
  }

  lemma YdhmExamples()
    ensures Ydhm(3600) == "1 hr"
    ensures Ydhm(7320) == "2 hrs 2 mins"
  {
    assert Decompose(3600) == Parts(0, 0, 1, 0, 0);
    assert IntToString(1) == "1";
    assert Unitize(1, "hr") == "1" + " " + "hr" + "";
    assert "1" + " " + "hr" + "" == "1 hr";
    assert UnitParts(Parts(0, 0, 1, 0, 0)) == [] + [] + [Unitize(1, "hr")] + [];
    assert [] + [] + [Unitize(1, "hr")] + [] == ["1 hr"];
    assert Decompose(7320) == Parts(0, 0, 2, 2, 0);
    assert IntToString(2) == "2";
    assert Unitize(2, "hr") == "2" + " " + "hr" + "s";
    assert "2" + " " + "hr" + "s" == "2 hrs";
    assert Unitize(2, "min") == "2" + " " + "min" + "s";
    assert "2" + " " + "min" + "s" == "2 mins";
    assert UnitParts(Parts(0, 0, 2, 2, 0)) == [] + [] + [Unitize(2, "hr")] + [Unitize(2, "min")];
    assert [] + [] + [Unitize(2, "hr")] + [Unitize(2, "min")] == ["2 hrs", "2 mins"];
    assert Join(" ", ["2 hrs", "2 mins"]) == "2 hrs" + " " + "2 mins";
  }

  /** `fmt_hrs_mins`: whole hours, then whole minutes of the remainder. */
  function HrsMins(seconds: int): (hm: (int, int))
    ensures 0 <= hm.1 < 60
    ensures hm.0 * 3600 + hm.1 * 60 <= seconds < hm.0 * 3600 + hm.1 * 60 + 60
    ensures 0 <= seconds < 86400 ==> 0 <= hm.0 < 24
  {
    (seconds / 3600, (seconds % 3600) / 60)
  }

  function FmtHrsMins(seconds: int): (r: string)
    ensures StartsWith(r, IntToString(HrsMins(seconds).0) + "hrs ")
    ensures EndsWith(r, IntToString(HrsMins(seconds).1) + "mins")
  {
    var hm := HrsMins(seconds);
    IntToString(hm.0) + "hrs " + IntToString(hm.1) + "mins"
  }

  // ------------------------------------------------- hour normalisation

  datatype Clock = Clock(day: int, hour: int)

  /** Hours of 24 or more carry into the day. */
  function Carry(c: Clock): (r: Clock)
    ensures c.hour >= 0 ==> 0 <= r.hour < 24
    ensures r.day * 24 + r.hour == c.day * 24 + c.hour
    ensures c.hour < 24 ==> r == c
  {
    if c.hour >= 24 then Clock(c.day + c.hour / 24, c.hour % 24) else c
  }

  /**
   * `remindme_parse` as written: a "pm" written in any case with hour <= 12
   * adds 12; the meridiem defaults to "AM" there, so the "NONE" branch never fires.
   */
  function NormalizeRemindAsWritten(day: int, hour: nat, merid: string, nowHour: int): (r: Clock)
    ensures 0 <= r.hour < 24
  {
    var h := if Lower(merid) == "pm" && hour <= 12 then hour + 12
             else if merid == "NONE" && hour < nowHour then hour + 12
             else hour;
    Carry(Clock(day, h))
  }

  /**
   * `exact_tartintodt` as written: only a lowercase "pm" adds 12, and a
   * missing meridiem ("NONE") before the current hour is taken as afternoon.
   */
  function NormalizeExactAsWritten(day: int, hour: nat, merid: string, nowHour: int): (r: Clock)
    ensures 0 <= r.hour < 24
  {
    var h := if merid == "pm" && hour <= 12 then hour + 12
             else if merid == "NONE" && hour < nowHour then hour + 12
             else hour;
    Carry(Clock(day, h))
  }

  /** As written, "12:30 pm" lands at half past midnight of the next day. */
  lemma NoonPmBecomesMidnight(day: int, nowHour: int)
    ensures NormalizeRemindAsWritten(day, 12, "pm", nowHour) == Clock(day + 1, 0)
    ensures NormalizeExactAsWritten(day, 12, "pm", nowHour) == Clock(day + 1, 0)
  {
    assert Lower("pm") == "pm";
  }

  /** As written, the exact parser ignores an upper-case "PM" that the reminder parser honours. */
  lemma ExactIgnoresUpperPm(day: int, nowHour: int)
    ensures NormalizeExactAsWritten(day, 4, "PM", nowHour) == Clock(day, 4)
    ensures NormalizeRemindAsWritten(day, 4, "PM", nowHour) == Clock(day, 16)
  {
    assert Lower("PM") == "pm";
  }

  /**
   * The normalisation both parsers evidently intend: a "pm" in any case moves
   * hours 1..11 into the afternoon and keeps 12 as noon; a missing meridiem
   * before the current hour is taken as afternoon; then hours carry into days.
   * Like both parsers, it leaves an "am" hour as given, so "12 am" stays hour
   * 12: the parsers have no rule for midnight and none is assumed here.
   */
  function NormalizeHour(day: int, hour: nat, merid: string, nowHour: int): (r: Clock)
    ensures 0 <= r.hour < 24
    ensures 1 <= hour <= 12 && Lower(merid) == "pm" ==> r == Clock(day, hour % 12 + 12)
    ensures Lower(merid) == "am" && hour < 24 ==> r == Clock(day, hour)
  {
    var h := if Lower(merid) == "pm" && hour < 12 then hour + 12
             else if merid == "NONE" && hour < nowHour then hour + 12
             else hour;
    Carry(Clock(day, h))
  }

  // ------------------------------------------------------------ reminders

  /** A stored reminder tuple `(time, text, interval, channel)`; interval -1 is one-shot, channel 0 a DM. */
  datatype Reminder = Reminder(time: int, text: string, interval: int, channel: int)

  predicate Due(r: Reminder, now: int) { r.time < now }

  predicate Repeats(r: Reminder) { r.interval != -1 }

  function Advanced(r: Reminder): Reminder { r.(time := r.time + r.interval) }

  /**
   * The reminder loop's intended effect on one list: each due repeating
   * reminder advances by its interval, each due one-shot disappears, the rest
   * stay, in order.
   */
  function TickReminders(rs: seq<Reminder>, now: int): (r: seq<Reminder>)
    ensures |r| == |rs| - DueOneShots(rs, now)
  {
    if |rs| == 0 then []
    else
      var rest := TickReminders(rs[1..], now);
      if !Due(rs[0], now) then [rs[0]] + rest
      else if Repeats(rs[0]) then [Advanced(rs[0])] + rest
      else rest
  }

  function DueOneShots(rs: seq<Reminder>, now: int): nat {
    if |rs| == 0 then 0
    else (if Due(rs[0], now) && !Repeats(rs[0]) then 1 else 0) + DueOneShots(rs[1..], now)
  }

  /** What a tick keeps: every reminder not due, every due repeater advanced, and nothing else. */
  lemma {:induction false} TickRemindersMembers(rs: seq<Reminder>, now: int)
    ensures |TickReminders(rs, now)| == |rs| - DueOneShots(rs, now)
    ensures forall r :: r in rs && !Due(r, now) ==> r in TickReminders(rs, now)
    ensures forall r :: r in rs && Due(r, now) && Repeats(r) ==> Advanced(r) in TickReminders(rs, now)
    ensures forall x :: x in TickReminders(rs, now) ==>
      (x in rs && !Due(x, now)) || exists r :: r in rs && Due(r, now) && Repeats(r) && x == Advanced(r)
  {
    if |rs| > 0 {
      TickRemindersMembers(rs[1..], now);
      assert forall r :: r in rs ==> r == rs[0] || r in rs[1..];
    }
  }

  /** The two ways the reminder loop as written ends for one list. */
  datatype LoopEnd = Finished(live: seq<Reminder>) | IndexError(live: seq<Reminder>) | ValueError(live: seq<Reminder>)

  /**
   * The reminder loop AS WRITTEN, from snapshot position `c` on: it walks the
   * snapshot taken before the tick but edits the live list, advancing
   * `live[c]` by `live[c]`'s own interval and removing a one-shot by value, so
   * once a one-shot is removed later positions point one element too far.
   * `rms.remove` of a one-shot no longer in the live list raises ValueError,
   * and `rms[c]` past its end raises IndexError; either ends the loop task.
   */
  function TickAsWritten(snapshot: seq<Reminder>, live: seq<Reminder>, c: nat, now: int): (r: LoopEnd)
    requires c <= |snapshot|
    ensures |live| - (|snapshot| - c) <= |r.live| <= |live|
    decreases |snapshot| - c
  {
    if c == |snapshot| then Finished(live)
    else
      var rm := snapshot[c];
      if !Due(rm, now) then TickAsWritten(snapshot, live, c + 1, now)
      else if Repeats(rm) then
        if c < |live| then TickAsWritten(snapshot, live[c := Advanced(live[c])], c + 1, now)
        else IndexError(live)
      else if rm in live then TickAsWritten(snapshot, RemoveFirst(live, rm), c + 1, now)
      else ValueError(live)
  }

  /**
   * Without a due one-shot nothing is removed, the indices stay in step, and
   * the loop as written does what the intended tick does.
   */
  lemma {:induction false} TickAsWrittenWithoutOneShots(snapshot: seq<Reminder>, live: seq<Reminder>, c: nat, now: int)
    requires c <= |snapshot| && |live| == |snapshot| && live[c..] == snapshot[c..]
    requires DueOneShots(snapshot[c..], now) == 0
    ensures TickAsWritten(snapshot, live, c, now) == Finished(live[..c] + TickReminders(snapshot[c..], now))
    decreases |snapshot| - c
  {
    if c == |snapshot| {
      assert live[..c] == live;
    } else {
      var rm := snapshot[c];
      TickHead(snapshot, c, now);
      var h := if Due(rm, now) then Advanced(rm) else rm;
      var next := live[c := h];
      StepSlices(snapshot, live, c, h);
      assert TickAsWritten(snapshot, live, c, now) == TickAsWritten(snapshot, next, c + 1, now);
      TickAsWrittenWithoutOneShots(snapshot, next, c + 1, now);
      ConcatAssoc(live[..c], [h], TickReminders(snapshot[c + 1..], now));
    }
  }

  /** One step of the intended tick, at snapshot position `c`. */
  lemma TickHead(snapshot: seq<Reminder>, c: nat, now: int)
    requires c < |snapshot|
    ensures var rm := snapshot[c];
      DueOneShots(snapshot[c..], now) == (if Due(rm, now) && !Repeats(rm) then 1 else 0) + DueOneShots(snapshot[c + 1..], now) &&
      (!Due(rm, now) ==> TickReminders(snapshot[c..], now) == [rm] + TickReminders(snapshot[c + 1..], now)) &&
      (Due(rm, now) && Repeats(rm) ==> TickReminders(snapshot[c..], now) == [Advanced(rm)] + TickReminders(snapshot[c + 1..], now))
  {
    assert snapshot[c..][0] == snapshot[c] && snapshot[c..][1..] == snapshot[c + 1..];
  }

  lemma StepSlices(snapshot: seq<Reminder>, live: seq<Reminder>, c: nat, h: Reminder)
    requires c < |snapshot| && |live| == |snapshot| && live[c..] == snapshot[c..]
    ensures live[c] == snapshot[c]
    ensures live[c := h][c + 1..] == snapshot[c + 1..]
    ensures live[c := h][..c + 1] == live[..c] + [h]
    ensures h == live[c] ==> live[c := h] == live
  {
    assert live[c] == live[c..][0];
    assert live[c + 1..] == live[c..][1..];
  }

  /**
   * A one-shot due before a due repeater shifts the index: the repeater is
   * left behind and the next reminder is advanced instead, or the position
   * runs off the end of the list.
   */
  lemma TickIndexShift()
    ensures var a, b, c := Reminder(0, "a", -1, 0), Reminder(0, "b", 60, 0), Reminder(100, "c", 60, 0);
      TickAsWritten([a, b, c], [a, b, c], 0, 50) == Finished([b, Reminder(160, "c", 60, 0)]) &&
      TickReminders([a, b, c], 50) == [Reminder(60, "b", 60, 0), c]
    ensures var a, b := Reminder(0, "a", -1, 0), Reminder(0, "b", 60, 0);
      TickAsWritten([a, b], [a, b], 0, 50) == IndexError([b])
  {
    var a, b, c := Reminder(0, "a", -1, 0), Reminder(0, "b", 60, 0), Reminder(100, "c", 60, 0);
    assert RemoveFirst([a, b, c], a) == [b, c];
    var c2 := Reminder(160, "c", 60, 0);
    assert [b, c][1 := Advanced(c)] == [b, c2];
    assert TickAsWritten([a, b, c], [b, c2], 2, 50) == Finished([b, c2]);
    assert TickAsWritten([a, b, c], [b, c], 1, 50) == Finished([b, c2]);
    assert TickReminders([c], 50) == [c];
    assert TickReminders([b, c], 50) == [Advanced(b), c];
    assert [a, b, c][1..] == [b, c];
    assert TickReminders([a, b, c], 50) == TickReminders([b, c], 50);
    assert RemoveFirst([a, b], a) == [b];
    assert TickAsWritten([a, b], [b], 1, 50) == IndexError([b]);
  }

  /**
   * When the shifted index lands on a one-shot, that one-shot is "advanced"
   * by -1 instead and then cannot be removed by value: the loop raises
   * ValueError.
   */
  lemma TickValueError()
    ensures var a, b, d := Reminder(0, "a", -1, 0), Reminder(0, "b", 60, 0), Reminder(0, "d", -1, 0);
      TickAsWritten([a, b, d], [a, b, d], 0, 50) == ValueError([b, Reminder(-1, "d", -1, 0)])
  {
    var a, b, d := Reminder(0, "a", -1, 0), Reminder(0, "b", 60, 0), Reminder(0, "d", -1, 0);
    var d2 := Reminder(-1, "d", -1, 0);
    assert RemoveFirst([a, b, d], a) == [b, d];
    assert [b, d][1 := Advanced(d)] == [b, d2];
    assert d !in [b, d2];
    assert TickAsWritten([a, b, d], [b, d2], 2, 50) == ValueError([b, d2]);
    assert TickAsWritten([a, b, d], [b, d], 1, 50) == ValueError([b, d2]);
  }

  function TimeLe(a: Reminder, b: Reminder): bool { a.time <= b.time }

  lemma TimeLeTotal()
    ensures TotalPreorder(TimeLe)
  {
  }

  datatype RemoveOutcome = NoSuchReminder | RemoveIndexError | RemovedReminder(r: Reminder)

  /** A delivery of a due reminder: to its channel, or (channel 0) to the user. */
  datatype Delivery = Delivery(channel: int, text: string)

  function Deliveries(rs: seq<Reminder>, now: int): (r: seq<Delivery>)
    ensures |r| <= |rs|
  {
    if |rs| == 0 then []
    else (if Due(rs[0], now) then [Delivery(rs[0].channel, rs[0].text)] else []) + Deliveries(rs[1..], now)
  }

  /** Exactly the due reminders are delivered, each to its own channel with its own text. */
  lemma {:induction false} DeliveriesMembers(rs: seq<Reminder>, now: int)
    ensures forall d :: d in Deliveries(rs, now) ==> exists x :: x in rs && Due(x, now) && d == Delivery(x.channel, x.text)
    ensures forall x :: x in rs && Due(x, now) ==> Delivery(x.channel, x.text) in Deliveries(rs, now)
  {
    if |rs| > 0 {
      DeliveriesMembers(rs[1..], now);
      assert forall x :: x in rs ==> x == rs[0] || x in rs[1..];
      assert forall x :: x in rs[1..] ==> x in rs;
    }
  }

  /** `remindme_remove` picks the `no`-th reminder in time order; this says which one that is. */
  lemma RemoveNthInTimeOrder(rs: seq<Reminder>, k: nat)
    requires k < |rs|
    ensures var sorted := SortBy(rs, TimeLe);
      |sorted| == |rs| && sorted[k] in rs &&
      (forall j :: 0 <= j < k ==> sorted[j].time <= sorted[k].time) &&
      (forall j :: k < j < |rs| ==> sorted[k].time <= sorted[j].time) &&
      multiset(RemoveFirst(rs, sorted[k])) == multiset(rs) - multiset{sorted[k]}
  {
    TimeLeTotal();
    SortBySorted(rs, TimeLe);
    SortByLength(rs, TimeLe);
    var sorted := SortBy(rs, TimeLe);
    assert sorted[k] in multiset(sorted);
  }

  /** One user's reminder list. */
  class ReminderList {
    var reminders: seq<Reminder>

    constructor ()
      ensures reminders == []
    {
      reminders := [];
    }

    /** `remindme` (channel 0) and `remindmehere` (the current channel) append a one-shot. */
    method RemindMe(time: int, text: string, channel: int)
      modifies this
      ensures reminders == old(reminders) + [Reminder(time, text, -1, channel)]
    {
      reminders := reminders + [Reminder(time, text, -1, channel)];
    }

    /** `remindme every`: a repeating DM reminder with the stored interval of the parsed delta. */
    method Every(start: int, text: string, interval: Delta)
      modifies this
      ensures reminders == old(reminders) + [Reminder(start, text, StoredInterval(interval), 0)]
    {
      reminders := reminders + [Reminder(start, text, StoredInterval(interval), 0)];
    }

    method Purge()
      modifies this
      ensures reminders == []
    {
      reminders := [];
    }

    /**
     * `remindme_remove`: refuses `no` beyond the count; otherwise removes the
     * reminder at position `no - 1` of the time-sorted list, where Python's
     * negative indexing applies to `no <= 0`.
     */
    method Remove(no: int) returns (r: RemoveOutcome)
      modifies this
      ensures var sorted := SortBy(old(reminders), TimeLe);
        (|sorted| < no ==> r == NoSuchReminder && reminders == old(reminders)) &&
        (no <= |sorted| && PyIndex(|sorted|, no - 1).None? ==> r == RemoveIndexError && reminders == old(reminders)) &&
        (no <= |sorted| && PyIndex(|sorted|, no - 1).Some? ==>
           r == RemovedReminder(sorted[PyIndex(|sorted|, no - 1).value]) &&
           reminders == RemoveFirst(old(reminders), r.r))
    {
      var sorted := SortBy(reminders, TimeLe);
      SortByLength(reminders, TimeLe);
      if |sorted| < no {
        return NoSuchReminder;
      }
      var k := PyIndex(|sorted|, no - 1);
      if k.None? {
        return RemoveIndexError;
      }
      r := RemovedReminder(sorted[k.value]);
      reminders := RemoveFirst(reminders, sorted[k.value]);
    }

    /**
     * One pass of the reminder loop over this list, with the index of the
     * live list kept in step with the removals.
     */
    method Tick(now: int) returns (sent: seq<Delivery>)
      modifies this
      ensures reminders == TickReminders(old(reminders), now)
      ensures sent == Deliveries(old(reminders), now)
    {
      var snapshot := reminders;
      var kept: seq<Reminder> := [];
      sent := [];
      var c := 0;
      while c < |snapshot|
        invariant 0 <= c <= |snapshot|
        invariant TickReminders(snapshot, now) == kept + TickReminders(snapshot[c..], now)
        invariant Deliveries(snapshot, now) == sent + Deliveries(snapshot[c..], now)
      {
        assert snapshot[c..][0] == snapshot[c] && snapshot[c..][1..] == snapshot[c + 1..];
        var rm := snapshot[c];
        if Due(rm, now) {
          if Repeats(rm) {
            kept := kept + [Advanced(rm)];
          }
          sent := sent + [Delivery(rm.channel, rm.text)];
        } else {
          kept := kept + [rm];
        }
        c := c + 1;
      }
      reminders := kept;
    }
  }

  // ------------------------------------------------------------ schedules

  datatype Schedule = Schedule(start: int, time: int, end: int, interval: int, enabled: bool,
                               channels: seq<int>, message: string)

  /** `2e11`, the end time of a new schedule. */
  const DEFAULT_END := 200000000000

  predicate Fires(s: Schedule, now: int) { !(s.end < now) && s.enabled && s.time < now }

  /** A firing schedule moves on by its interval; nothing else about it changes. */
  function TickOne(s: Schedule, now: int): (r: Schedule)
    ensures r == s.(time := r.time)
    ensures Fires(s, now) ==> r.time == s.time + s.interval
    ensures !Fires(s, now) ==> r == s
  {
    if Fires(s, now) then s.(time := s.time + s.interval) else s
  }

  /** The loop's effect on a guild's schedules: each firing one advances by exactly its interval. */
  function TickSchedules(scs: map<string, Schedule>, now: int): (r: map<string, Schedule>)
    ensures r.Keys == scs.Keys
    ensures forall n :: n in scs && Fires(scs[n], now) ==> r[n] == scs[n].(time := scs[n].time + scs[n].interval)
    ensures forall n :: n in scs && !Fires(scs[n], now) ==> r[n] == scs[n]
  {
    map n | n in scs :: TickOne(scs[n], now)
  }

  /** With a stored interval of 0 (any whole-day period) a firing schedule is still due after the tick. */
  lemma ZeroIntervalFiresEveryTick(scs: map<string, Schedule>, n: string, now: int)
    requires n in scs && Fires(scs[n], now) && scs[n].interval == 0
    ensures Fires(TickSchedules(scs, now)[n], now)
  {
  }

  datatype ChannelOutcome = NoSchedule | AlreadyRegistered | NotRegistered | ChannelDone

  /** A guild's schedules. */
  class ScheduleTable {
    var schedules: map<string, Schedule>

    ghost predicate Valid()
      reads this
    {
      forall n :: n in schedules ==> NoDup(schedules[n].channels)
    }

    constructor ()
      ensures Valid() && schedules == map[]
    {
      schedules := map[];
    }

    /** `schedule`: refuses a taken name, otherwise creates an enabled schedule for the current channel. */
    method Create(name: string, start: int, interval: Delta, channel: int, message: string) returns (created: bool)
      requires Valid()
      modifies this
      ensures Valid()
      ensures created <==> name !in old(schedules)
      ensures created ==> schedules == old(schedules)[name :=
        Schedule(start, start, DEFAULT_END, StoredInterval(interval), true, [channel], message)]
      ensures !created ==> schedules == old(schedules)
    {
      if name in schedules {
        return false;
      }
      schedules := schedules[name := Schedule(start, start, DEFAULT_END, StoredInterval(interval), true, [channel], message)];
      return true;
    }

    /** `begin`, `end`, `interval`, `message`, `enable`, `disable`: refuse an unknown name, else set one field. */
    method Update(name: string, f: Schedule -> Schedule) returns (found: bool)
      requires Valid()
      requires forall s: Schedule :: f(s).channels == s.channels
      modifies this
      ensures Valid()
      ensures found <==> name in old(schedules)
      ensures found ==> schedules == old(schedules)[name := f(old(schedules)[name])]
      ensures !found ==> schedules == old(schedules)
    {
      if name !in schedules {
        return false;
      }
      schedules := schedules[name := f(schedules[name])];
      return true;
    }

    method Remove(name: string) returns (found: bool)
      requires Valid()
      modifies this
      ensures Valid()
      ensures found <==> name in old(schedules)
      ensures schedules == old(schedules) - {name}
    {
      found := name in schedules;
      schedules := schedules - {name};
    }

    /** `channel add`: refuses an unknown schedule or a channel already registered, else appends it. */
    method ChannelAdd(name: string, channel: int) returns (r: ChannelOutcome)
      requires Valid()
      modifies this
      ensures Valid()
      ensures name !in old(schedules) ==> r == NoSchedule && schedules == old(schedules)
      ensures name in old(schedules) && channel in old(schedules)[name].channels ==>
        r == AlreadyRegistered && schedules == old(schedules)
      ensures name in old(schedules) && channel !in old(schedules)[name].channels ==>
        r == ChannelDone &&
        schedules == old(schedules)[name := old(schedules)[name].(channels := old(schedules)[name].channels + [channel])]
    {
      if name !in schedules {
        return NoSchedule;
      }
      var s := schedules[name];
      if channel in s.channels {
        return AlreadyRegistered;
      }
      AppendNoDup(s.channels, channel);
      schedules := schedules[name := s.(channels := s.channels + [channel])];
      return ChannelDone;
    }

    /** `channel remove`: refuses an unknown schedule or an unregistered channel, else removes it. */
    method ChannelRemove(name: string, channel: int) returns (r: ChannelOutcome)
      requires Valid()
      modifies this
      ensures Valid()
      ensures name !in old(schedules) ==> r == NoSchedule && schedules == old(schedules)
      ensures name in old(schedules) && channel !in old(schedules)[name].channels ==>
        r == NotRegistered && schedules == old(schedules)
      ensures name in old(schedules) && channel in old(schedules)[name].channels ==>
        r == ChannelDone &&
        schedules == old(schedules)[name := old(schedules)[name].(channels := RemoveFirst(old(schedules)[name].channels, channel))] &&
        channel !in schedules[name].channels
    {
      if name !in schedules {
        return NoSchedule;
      }
      var s := schedules[name];
      if channel !in s.channels {
        return NotRegistered;
      }
      RemoveFirstNoDup(s.channels, channel);
      schedules := schedules[name := s.(channels := RemoveFirst(s.channels, channel))];
      return ChannelDone;
    }

    /** The schedule half of one pass of the reminder loop. */
    method Tick(now: int) returns (fired: set<string>)
      requires Valid()
      modifies this
      ensures Valid()
      ensures schedules == TickSchedules(old(schedules), now)
      ensures forall n :: n in fired <==> n in old(schedules) && Fires(old(schedules)[n], now)
    {
      var before := schedules;
      var todo := schedules.Keys;
      fired := {};
      while todo != {}
        invariant todo <= before.Keys && schedules.Keys == before.Keys
        invariant forall n :: n in before ==> schedules[n] == if n in todo then before[n] else TickOne(before[n], now)
        invariant forall n :: n in fired <==> n in before && n !in todo && Fires(before[n], now)
        decreases |todo|
      {
        var n :| n in todo;
        var sc := schedules[n];
        if Fires(sc, now) {
          schedules := schedules[n := TickOne(sc, now)];
          fired := fired + {n};
        }
        todo := todo - {n};
      }
      assert schedules == TickSchedules(before, now);
    }
  }
}
