/**
 * The schedule set-up form: the weekday check boxes, the "HH:MM" + minutes
 * arithmetic that gives each session's end time, and the generator of the
 * two-week list of study sessions.
 */
module ScheduleSetup {
  import opened Opt
  import opened Text
  import opened Calendar

  // ---------------------------------------------------------------- weekdays

  datatype DayName = Sunday | Monday | Tuesday | Wednesday | Thursday | Friday | Saturday

  /** The day `getDay()` numbers `w` (0 = Sunday). */
  function DayOf(w: int): (d: DayName)
    requires 0 <= w < 7
    ensures DayIndex(d) == w
  {
    [Sunday, Monday, Tuesday, Wednesday, Thursday, Friday, Saturday][w]
  }

  function DayIndex(d: DayName): (w: int)
    ensures 0 <= w < 7
  {
    match d
    case Sunday => 0 case Monday => 1 case Tuesday => 2 case Wednesday => 3
    case Thursday => 4 case Friday => 5 case Saturday => 6
  }

  /** The key of the `selectedDays` record for day `d`. */
  function DayKey(d: DayName): string
  {
    match d
    case Sunday => "sunday" case Monday => "monday" case Tuesday => "tuesday"
    case Wednesday => "wednesday" case Thursday => "thursday" case Friday => "friday"
    case Saturday => "saturday"
  }

  /** The `selectedDays` record: one flag per day of the week. */
  datatype Week = Week(sunday: bool, monday: bool, tuesday: bool, wednesday: bool,
                       thursday: bool, friday: bool, saturday: bool)

  function Flag(w: Week, d: DayName): bool
  {
    match d
    case Sunday => w.sunday case Monday => w.monday case Tuesday => w.tuesday
    case Wednesday => w.wednesday case Thursday => w.thursday case Friday => w.friday
    case Saturday => w.saturday
  }

  /** The initial selection: Monday, Wednesday and Friday. */
  const DefaultWeek := Week(false, true, false, true, false, true, false)

  /** `handleDayToggle(day)`: the record rebuilt with the flag of `day` flipped. */
  function ToggleDay(w: Week, day: DayName): (r: Week)
    ensures Flag(r, day) == !Flag(w, day)
    ensures forall other :: other != day ==> Flag(r, other) == Flag(w, other)
  {
    match day
    case Sunday => w.(sunday := !w.sunday)
    case Monday => w.(monday := !w.monday)
    case Tuesday => w.(tuesday := !w.tuesday)
    case Wednesday => w.(wednesday := !w.wednesday)
    case Thursday => w.(thursday := !w.thursday)
    case Friday => w.(friday := !w.friday)
    case Saturday => w.(saturday := !w.saturday)
  }

  /** Toggling the same day twice restores the selection. */
  lemma ToggleDayTwice(w: Week, day: DayName)
    ensures ToggleDay(ToggleDay(w, day), day) == w
  {
    match day
    case Sunday => case Monday => case Tuesday => case Wednesday =>
    case Thursday => case Friday => case Saturday =>
  }

  // ------------------------------------------------------------ clock times

  /**
   * `Number(field)` for the fields a time input produces: a field of decimal
   * digits (or "", which is 0) is its value, anything else is NaN.
   */
  function NumberOf(field: string): (r: Option<int>)
    ensures r.Some? <==> forall i :: 0 <= i < |field| ==> IsDigit(field[i])
    ensures r.Some? ==> r.value == DigitsValue(field) && r.value >= 0
  {
    if forall i :: 0 <= i < |field| ==> IsDigit(field[i]) then Some(DigitsValue(field)) else None
  }

  /** `time.split(":")` read as `[hours, mins]`; a missing second field is `undefined`, i.e. NaN. */
  function ClockFields(time: string): (Option<int>, Option<int>)
  {
    var hours := FirstSegment(time, ':');
    if |hours| == |time| then (NumberOf(hours), None)
    else (NumberOf(hours), NumberOf(FirstSegment(time[|hours| + 1..], ':')))
  }

  /** JavaScript's `%`: the remainder takes the sign of the dividend. */
  function JsRem(a: int, b: int): (r: int)
    requires b > 0
    ensures a >= 0 ==> r == a % b
  {
    if a >= 0 then a % b else -((-a) % b)
  }

  /** `String(n)` for an integer. */
  function IntToString(n: int): string
  {
    if n >= 0 then NatToString(n) else "-" + NatToString(-n)
  }

  /** `s.padStart(2, "0")`. */
  function Pad2(s: string): string
  {
    if |s| >= 2 then s else if |s| == 1 then "0" + s else "00"
  }

  /** The clock text of the minute count `total`, wrapped at 24 hours. */
  function ClockText(total: int): string
  {
    var newHours := JsRem(total / 60, 24);
    var newMins := JsRem(total, 60);
    Pad2(IntToString(newHours)) + ":" + Pad2(IntToString(newMins))
  }

  /**
   * `addMinutesToTime(time, minutes)`: adds `minutes` (`None` is NaN) to the
   * clock time and wraps at 24 hours; a NaN anywhere prints "NaN:NaN".
   */
  function AddMinutesToTime(time: string, minutes: Option<int>): string
  {
    AddMinutesToFields(ClockFields(time), minutes)
  }

  /** The arithmetic of `addMinutesToTime` once the time is split into its two fields. */
  function AddMinutesToFields(fields: (Option<int>, Option<int>), minutes: Option<int>): string
  {
    if fields.0.None? || fields.1.None? || minutes.None? then "NaN:NaN"
    else ClockText(fields.0.value * 60 + fields.1.value + minutes.value)
  }

  /** The value of the digit at index `i`. */
  function DigitAt(t: string, i: nat): int
    requires i < |t|
  {
    t[i] as int - 0x30
  }

  /** A zero-padded 24-hour clock time "HH:MM". */
  predicate IsClock(t: string)
  {
    |t| == 5 && IsDigit(t[0]) && IsDigit(t[1]) && t[2] == ':' && IsDigit(t[3]) && IsDigit(t[4])
    && DigitAt(t, 0) * 10 + DigitAt(t, 1) <= 23 && DigitAt(t, 3) * 10 + DigitAt(t, 4) <= 59
  }

  /** Minutes since midnight of a clock time. */
  function ClockMinutes(t: string): (n: int)
    requires IsClock(t)
    ensures 0 <= n < 1440
  {
    (DigitAt(t, 0) * 10 + DigitAt(t, 1)) * 60 + DigitAt(t, 3) * 10 + DigitAt(t, 4)
  }

  /** The zero-padded "HH:MM" text of a minute count within one day. */
  function ClockOf(n: int): (t: string)
    requires 0 <= n < 1440
    ensures IsClock(t) && ClockMinutes(t) == n
  {
    TwoDigitNumeral(n / 60) + ":" + TwoDigitNumeral(n % 60)
  }

  /** `padStart(2, "0")` of a number below 100 is its two-digit numeral. */
  lemma PaddedNumeral(n: nat)
    requires n < 100
    ensures Pad2(IntToString(n)) == TwoDigitNumeral(n)
  {
    if n < 10 {
      assert NatToString(n) == [DigitChar(n)];
      assert DigitChar(0) == '0';
    } else {
      assert NatToString(n / 10) == [DigitChar(n / 10)];
    }
  }

  /** Hours wrapped at 24 and minutes below 60 are the fields of the minute count wrapped at a day. */
  lemma ClockArith(total: nat)
    ensures (total % 1440) / 60 == (total / 60) % 24 && (total % 1440) % 60 == total % 60
  {
    var q, r := total / 60, total % 60;
    var a, b := q / 24, q % 24;
    assert q == 24 * a + b;
    assert total == 60 * q + r;
    assert total == 1440 * a + (60 * b + r);
    assert 0 <= 60 * b + r < 1440;
    assert total % 1440 == 60 * b + r;
  }

  /** The clock text of a non-negative minute count is the clock of that count wrapped at a day. */
  lemma ClockTextOf(total: nat)
    ensures ClockText(total) == ClockOf(total % 1440)
  {
    var hh, mm := (total / 60) % 24, total % 60;
    ClockArith(total);
    assert JsRem(total / 60, 24) == hh && JsRem(total, 60) == mm;
    PaddedNumeral(hh);
    PaddedNumeral(mm);
  }

  /** The numeral of a number reads back as that number. */
  lemma NumberOfNumeral(n: nat)
    ensures NumberOf(NatToString(n)) == Some(n)
  {
    DigitsValueOfNatToString(n);
  }

  lemma ClockFieldsOfClock(t: string)
    requires IsClock(t)
    ensures ClockFields(t) == (Some(DigitAt(t, 0) * 10 + DigitAt(t, 1)), Some(DigitAt(t, 3) * 10 + DigitAt(t, 4)))
  {
    var hours, rest := t[..2], t[3..];
    assert hours == [t[0], t[1]];
    IndexOfIs(t, ':', 2);
    assert FirstSegment(t, ':') == hours;
    assert rest == [t[3], t[4]];
    IndexOfAbsent(rest, ':');
    assert FirstSegment(rest, ':') == rest;
    DigitsValueOfTwo(hours);
    DigitsValueOfTwo(rest);
  }

  /** On a clock time, the sum is computed from its two fields. */
  lemma AddMinutesOfClock(t: string, minutes: int)
    requires IsClock(t)
    ensures AddMinutesToTime(t, Some(minutes))
            == ClockText(ClockMinutes(t) + minutes)
  {
    var h, m := DigitAt(t, 0) * 10 + DigitAt(t, 1), DigitAt(t, 3) * 10 + DigitAt(t, 4);
    assert ClockFields(t) == (Some(h), Some(m)) by { ClockFieldsOfClock(t); }
    assert h * 60 + m == ClockMinutes(t);
    AddMinutesOfFields(h, m, minutes);
  }

  /** Two present fields and a present minute count give the clock text of their total. */
  lemma AddMinutesOfFields(h: int, m: int, minutes: int)
    ensures AddMinutesToFields((Some(h), Some(m)), Some(minutes)) == ClockText(h * 60 + m + minutes)
  {
  }

  /** A clock time is spelled by the numerals of its hour and minute fields. */
  lemma ClockIsNumerals(t: string)
    requires IsClock(t)
    ensures var h, m := DigitAt(t, 0) * 10 + DigitAt(t, 1), DigitAt(t, 3) * 10 + DigitAt(t, 4);
      ClockMinutes(t) / 60 == h && ClockMinutes(t) % 60 == m
      && TwoDigitNumeral(h) == t[..2] && TwoDigitNumeral(m) == t[3..]
      && ClockOf(ClockMinutes(t)) == t
  {
    var h, m := DigitAt(t, 0) * 10 + DigitAt(t, 1), DigitAt(t, 3) * 10 + DigitAt(t, 4);
    assert TwoDigitNumeral(h) == t[..2];
    assert TwoDigitNumeral(m) == t[3..];
    assert t == t[..2] + ":" + t[3..];
  }

  /**
   * On a clock time and a non-negative minute count, the result is the clock
   * of the start's minute count plus `minutes`, wrapped at a day.
   */
  lemma AddMinutesNumerals(t: string, minutes: int)
    requires IsClock(t) && minutes >= 0
    ensures AddMinutesToTime(t, Some(minutes)) == ClockOf((ClockMinutes(t) + minutes) % 1440)
  {
    AddMinutesOfClock(t, minutes);
    ClockTextWrapped(ClockText(ClockMinutes(t) + minutes), ClockMinutes(t) + minutes);
  }

  lemma ClockTextWrapped(text: string, total: nat)
    requires text == ClockText(total)
    ensures text == ClockOf(total % 1440)
  {
    ClockTextOf(total);
  }

  /** On a clock time and a non-negative minute count the result is again a clock time. */
  lemma AddMinutesIsClock(t: string, minutes: int)
    requires IsClock(t) && minutes >= 0
    ensures IsClock(AddMinutesToTime(t, Some(minutes)))
    ensures ClockMinutes(AddMinutesToTime(t, Some(minutes))) == (ClockMinutes(t) + minutes) % 1440
  {
    AddMinutesNumerals(t, minutes);
  }

  /** Adding zero minutes gives back any zero-padded clock time unchanged. */
  lemma AddZeroMinutes(t: string)
    requires IsClock(t)
    ensures AddMinutesToTime(t, Some(0)) == t
  {
    var n := ClockMinutes(t);
    assert AddMinutesToTime(t, Some(0)) == ClockOf(n % 1440) by { AddMinutesNumerals(t, 0); }
    assert ClockOf(n % 1440) == t by { ClockOfMinutes(t); }
  }

  /** A clock time is the clock of its own minute count. */
  lemma ClockOfMinutes(t: string)
    requires IsClock(t)
    ensures ClockOf(ClockMinutes(t) % 1440) == t
  {
    WithinDay(ClockMinutes(t));
    ClockIsNumerals(t);
  }

  lemma WithinDay(n: int)
    requires 0 <= n < 1440
    ensures n % 1440 == n
  {
  }

  /** A duration that does not parse is NaN, and so is the end time. */
  lemma AddNaNMinutes(t: string)
    ensures AddMinutesToTime(t, None) == "NaN:NaN"
  {
  }

  // -------------------------------------------------------------- generator

  /** A generated study session. */
  datatype Session = Session(id: string, title: string, date: Date,
                             startTime: string, endTime: string, completed: bool)

  /** The form values the generator reads. */
  datatype SetupForm = SetupForm(
    contentTitle: string,
    startDate: Option<Date>,
    frequency: string,
    preferredTime: string,
    sessionDuration: string,
    selectedDays: Week)

  /** The first day of the plan: the chosen start date, or today when none was chosen. */
  function PlanStart(form: SetupForm, today: Date): Date
  {
    if form.startDate.Some? then form.startDate.value else today
  }

  predicate ValidInputs(form: SetupForm, today: Date)
  {
    Valid(today) && (form.startDate.Some? ==> Valid(form.startDate.value))
  }

  /** Whether day `i` of the plan (0 = the start) gets a session. */
  predicate Included(form: SetupForm, start: Date, i: nat)
    requires Valid(start)
  {
    form.frequency == "daily"
    || (form.frequency == "custom" && Flag(form.selectedDays, DayOf(Weekday(AddDays(start, i)))))
    || (form.frequency == "weekly" && i % 7 == 0)
  }

  /** The offsets below `n` that get a session, in increasing order. */
  function PlannedOffsets(form: SetupForm, start: Date, n: nat): seq<nat>
    requires Valid(start)
  {
    if n == 0 then []
    else PlannedOffsets(form, start, n - 1) + (if Included(form, start, n - 1) then [n - 1] else [])
  }

  /** The session generated for day `i` of the plan. */
  function SessionAt(form: SetupForm, start: Date, i: nat): Session
    requires Valid(start)
  {
    Session("session-" + NatToString(i), form.contentTitle, AddDays(start, i),
            form.preferredTime, AddMinutesToTime(form.preferredTime, ParseIntPrefix(form.sessionDuration)),
            false)
  }

  /** The number of days the plan covers. */
  const PlanDays := 14

  /** The sessions generated for the first `n` days of the plan. */
  function PlannedSessions(form: SetupForm, start: Date, n: nat): seq<Session>
    requires Valid(start)
  {
    if n == 0 then []
    else PlannedSessions(form, start, n - 1) + (if Included(form, start, n - 1) then [SessionAt(form, start, n - 1)] else [])
  }

  /** One day of the generator: day `i` adds its session exactly when the frequency selects it. */
  lemma PlannedSessionsStep(form: SetupForm, start: Date, i: nat)
    requires Valid(start)
    ensures var date := AddDays(start, i);
      PlannedSessions(form, start, i + 1) == PlannedSessions(form, start, i)
        + if form.frequency == "daily"
             || (form.frequency == "custom" && Flag(form.selectedDays, DayOf(Weekday(date))))
             || (form.frequency == "weekly" && i % 7 == 0)
          then [Session("session-" + NatToString(i), form.contentTitle, date, form.preferredTime,
                        AddMinutesToTime(form.preferredTime, ParseIntPrefix(form.sessionDuration)), false)]
          else []
  {
  }

  /** The plan holds one session per planned offset, in order. */
  lemma {:induction false} PlannedSessionsSpec(form: SetupForm, start: Date, n: nat)
    requires Valid(start)
    ensures |PlannedSessions(form, start, n)| == |PlannedOffsets(form, start, n)|
    ensures forall k :: 0 <= k < |PlannedSessions(form, start, n)| ==>
      PlannedSessions(form, start, n)[k] == SessionAt(form, start, PlannedOffsets(form, start, n)[k])
  {
    if n > 0 {
      PlannedSessionsSpec(form, start, n - 1);
      SessionsMatchStep(form, start, n - 1, n);
    }
  }

  /** One more day keeps sessions and offsets paired. */
  lemma SessionsMatchStep(form: SetupForm, start: Date, i: nat, j: nat)
    requires Valid(start) && j == i + 1
    requires |PlannedSessions(form, start, i)| == |PlannedOffsets(form, start, i)|
    requires forall k :: 0 <= k < |PlannedSessions(form, start, i)| ==>
      PlannedSessions(form, start, i)[k] == SessionAt(form, start, PlannedOffsets(form, start, i)[k])
    ensures |PlannedSessions(form, start, j)| == |PlannedOffsets(form, start, j)|
    ensures forall k :: 0 <= k < |PlannedSessions(form, start, j)| ==>
      PlannedSessions(form, start, j)[k] == SessionAt(form, start, PlannedOffsets(form, start, j)[k])
  {
    var sessions, offs := PlannedSessions(form, start, i), PlannedOffsets(form, start, i);
    if Included(form, start, i) {
      var sessions', offs' := PlannedSessions(form, start, j), PlannedOffsets(form, start, j);
      assert sessions' == sessions + [SessionAt(form, start, i)];
      assert offs' == offs + [i];
      forall k | 0 <= k < |sessions'|
        ensures sessions'[k] == SessionAt(form, start, offs'[k])
      {
        if k < |sessions| {
          assert sessions'[k] == sessions[k] && offs'[k] == offs[k];
        }
      }
    } else {
      assert PlannedSessions(form, start, j) == sessions;
      assert PlannedOffsets(form, start, j) == offs;
    }
  }

  /**
   * `generateMockSchedule`: one session for each of the next 14 days that the
   * frequency selects, in day order.
   */
  method GenerateMockSchedule(form: SetupForm, today: Date) returns (schedule: seq<Session>)
    requires ValidInputs(form, today)
    ensures schedule == PlannedSessions(form, PlanStart(form, today), PlanDays)
  {
    var start := PlanStart(form, today);
    schedule := [];
    var i := 0;
    while i < PlanDays
      invariant 0 <= i <= PlanDays
      invariant schedule == PlannedSessions(form, start, i)
    {
      PlannedSessionsStep(form, start, i);
      var date := AddDays(start, i);
      var day := DayOf(Weekday(date));
      if form.frequency == "daily"
         || (form.frequency == "custom" && Flag(form.selectedDays, day))
         || (form.frequency == "weekly" && i % 7 == 0)
      {
        var session := Session("session-" + NatToString(i), form.contentTitle, date,
                               form.preferredTime,
                               AddMinutesToTime(form.preferredTime, ParseIntPrefix(form.sessionDuration)),
                               false);
        schedule := schedule + [session];
      }
      i := i + 1;
    }
  }

  /** Offsets are distinct, increasing, below `n`, and exactly the included days. */
  lemma PlannedOffsetsSpec(form: SetupForm, start: Date, n: nat)
    requires Valid(start)
    ensures var offs := PlannedOffsets(form, start, n);
      (forall k :: 0 <= k < |offs| ==> offs[k] < n && Included(form, start, offs[k]))
      && (forall k, l :: 0 <= k < l < |offs| ==> offs[k] < offs[l])
      && (forall i :: 0 <= i < n && Included(form, start, i) ==> i in offs)
  {
    PlannedOffsetsBelow(form, start, n);
    PlannedOffsetsIncreasing(form, start, n);
    PlannedOffsetsComplete(form, start, n);
  }

  lemma {:induction false} PlannedOffsetsBelow(form: SetupForm, start: Date, n: nat)
    requires Valid(start)
    ensures forall k :: 0 <= k < |PlannedOffsets(form, start, n)| ==>
      PlannedOffsets(form, start, n)[k] < n && Included(form, start, PlannedOffsets(form, start, n)[k])
  {
    if n > 0 {
      PlannedOffsetsBelow(form, start, n - 1);
      var prev := PlannedOffsets(form, start, n - 1);
      var offs := PlannedOffsets(form, start, n);
      if Included(form, start, n - 1) {
        assert offs == prev + [n - 1];
        forall k | 0 <= k < |offs|
          ensures offs[k] < n && Included(form, start, offs[k])
        {
          if k < |prev| {
            assert offs[k] == prev[k];
          } else {
            assert offs[k] == n - 1;
          }
        }
      } else {
        assert offs == prev;
      }
    }
  }

  lemma {:induction false} PlannedOffsetsIncreasing(form: SetupForm, start: Date, n: nat)
    requires Valid(start)
    ensures forall k, l :: 0 <= k < l < |PlannedOffsets(form, start, n)| ==>
      PlannedOffsets(form, start, n)[k] < PlannedOffsets(form, start, n)[l]
  {
    if n > 0 {
      PlannedOffsetsIncreasing(form, start, n - 1);
      PlannedOffsetsBelow(form, start, n - 1);
      var prev := PlannedOffsets(form, start, n - 1);
      var offs := PlannedOffsets(form, start, n);
      if Included(form, start, n - 1) {
        assert offs == prev + [n - 1];
        forall k, l | 0 <= k < l < |offs|
          ensures offs[k] < offs[l]
        {
          assert offs[k] == prev[k];
          if l < |prev| {
            assert offs[l] == prev[l];
          } else {
            assert offs[l] == n - 1;
          }
        }
      } else {
        assert offs == prev;
      }
    }
  }

  lemma {:induction false} PlannedOffsetsComplete(form: SetupForm, start: Date, n: nat)
    requires Valid(start)
    ensures forall i :: 0 <= i < n && Included(form, start, i) ==> i in PlannedOffsets(form, start, n)
  {
    if n > 0 {
      var prev := PlannedOffsets(form, start, n - 1);
      PlannedOffsetsComplete(form, start, n - 1);
      if Included(form, start, n - 1) {
        assert PlannedOffsets(form, start, n) == prev + [n - 1];
      } else {
        assert PlannedOffsets(form, start, n) == prev;
      }
    }
  }

  /** A daily plan has a session on each of the 14 days. */
  lemma {:induction false} DailyPlan(form: SetupForm, start: Date, n: nat)
    requires Valid(start) && form.frequency == "daily"
    ensures |PlannedOffsets(form, start, n)| == n
    ensures forall k :: 0 <= k < n ==> PlannedOffsets(form, start, n)[k] == k
  {
    if n > 0 {
      DailyPlan(form, start, n - 1);
    }
  }

  /** A weekly plan has exactly two sessions, on the start day and seven days later. */
  lemma WeeklyPlan(form: SetupForm, start: Date)
    requires Valid(start) && form.frequency == "weekly"
    ensures PlannedOffsets(form, start, PlanDays) == [0, 7]
  {
    assert PlannedOffsets(form, start, 7) == [0] by {
      assert PlannedOffsets(form, start, 1) == [0];
      assert PlannedOffsets(form, start, 2) == [0];
      assert PlannedOffsets(form, start, 3) == [0];
      assert PlannedOffsets(form, start, 4) == [0];
      assert PlannedOffsets(form, start, 5) == [0];
      assert PlannedOffsets(form, start, 6) == [0];
    }
    assert PlannedOffsets(form, start, 8) == [0, 7];
    assert PlannedOffsets(form, start, 9) == [0, 7];
    assert PlannedOffsets(form, start, 10) == [0, 7];
    assert PlannedOffsets(form, start, 11) == [0, 7];
    assert PlannedOffsets(form, start, 12) == [0, 7];
    assert PlannedOffsets(form, start, 13) == [0, 7];
  }

  /** A custom plan includes day `i` exactly when the weekday of that date is checked. */
  lemma CustomPlan(form: SetupForm, start: Date, i: nat)
    requires Valid(start) && form.frequency == "custom" && i < PlanDays
    ensures i in PlannedOffsets(form, start, PlanDays)
            <==> Flag(form.selectedDays, DayOf((Weekday(start) + i) % 7))
  {
    PlannedOffsetsSpec(form, start, PlanDays);
    WeekdayOfAddDays(start, i);
  }

  /** Session ids within one plan are distinct. */
  lemma SessionIdsDistinct(form: SetupForm, start: Date, i: nat, j: nat)
    requires Valid(start) && i != j
    ensures SessionAt(form, start, i).id != SessionAt(form, start, j).id
  {
    var p := "session-";
    NatToStringInjective(i, j);
    assert (p + NatToString(i))[|p|..] == NatToString(i);
    assert (p + NatToString(j))[|p|..] == NatToString(j);
  }

  /** Every session is on the plan's start day plus its offset, unfinished, with the form's times. */
  lemma SessionAtFields(form: SetupForm, start: Date, i: nat)
    requires Valid(start)
    ensures var s := SessionAt(form, start, i);
      DayNumber(s.date) == DayNumber(start) + i && !s.completed
      && s.title == form.contentTitle && s.startTime == form.preferredTime
      && s.endTime == AddMinutesToTime(form.preferredTime, ParseIntPrefix(form.sessionDuration))
  {
  }

  /**
   * With a clock start time and a duration numeral of `d` minutes, every
   * session ends at the zero-padded clock time `d` minutes after the start,
   * wrapped at a day.
   */
  lemma SessionEndClock(form: SetupForm, start: Date, i: nat, d: nat)
    requires Valid(start) && IsClock(form.preferredTime) && form.sessionDuration == NatToString(d)
    ensures var end := SessionAt(form, start, i).endTime;
      end == ClockOf((ClockMinutes(form.preferredTime) + d) % 1440) && IsClock(end)
  {
    DurationOfNumeral(form.sessionDuration, d);
    SessionEndOfDuration(form, start, i, d);
  }

  lemma DurationOfNumeral(duration: string, d: nat)
    requires duration == NatToString(d)
    ensures ParseIntPrefix(duration) == Some(d)
  {
    assert NatToString(d) + "" == NatToString(d);
    ParseIntOfNumeralWithSuffix(d, "");
  }

  lemma SessionEndOfDuration(form: SetupForm, start: Date, i: nat, d: nat)
    requires Valid(start) && IsClock(form.preferredTime) && ParseIntPrefix(form.sessionDuration) == Some(d)
    ensures SessionAt(form, start, i).endTime == ClockOf((ClockMinutes(form.preferredTime) + d) % 1440)
  {
    AddMinutesNumerals(form.preferredTime, d);
  }

  // ------------------------------------------------- the weekday lookup as written

  /** The weekday styles Intl accepts. */
  predicate WeekdayStyle(style: string)
  {
    style == "long" || style == "short" || style == "narrow"
  }

  /**
   * `date.toLocaleDateString("en-US", { weekday: style })`: Intl accepts only
   * the styles "long", "short" and "narrow" and throws a RangeError otherwise.
   */
  function WeekdayLabel(d: DayName, style: string): (r: Result<string>)
    ensures r.Failure? <==> !WeekdayStyle(style)
  {
    var long := match d
      case Sunday => "Sunday" case Monday => "Monday" case Tuesday => "Tuesday"
      case Wednesday => "Wednesday" case Thursday => "Thursday" case Friday => "Friday"
      case Saturday => "Saturday";
    if style == "long" then Success(long)
    else if style == "short" then Success(long[..3])
    else if style == "narrow" then Success(long[..1])
    else Failure("RangeError")
  }

  /** No style Intl accepts yields a key of the `selectedDays` record. */
  lemma LabelsAreNotKeys(d: DayName, e: DayName, style: string)
    requires WeekdayStyle(style)
    ensures WeekdayLabel(d, style).value != DayKey(e)
  {
    var name := WeekdayLabel(d, style).value;
    assert IsUpper(name[0]);
    assert !IsUpper(DayKey(e)[0]);
  }

  /** The day whose `selectedDays` key is `name`, if any. */
  function DayOfKey(name: string): (r: Option<DayName>)
    ensures r.Some? ==> DayKey(r.value) == name
    ensures r.None? ==> forall d :: DayKey(d) != name
  {
    if name == "sunday" then Some(Sunday) else if name == "monday" then Some(Monday)
    else if name == "tuesday" then Some(Tuesday) else if name == "wednesday" then Some(Wednesday)
    else if name == "thursday" then Some(Thursday) else if name == "friday" then Some(Friday)
    else if name == "saturday" then Some(Saturday) else None
  }

  /**
   * The generator from day `i` on, as the source writes it: each day's name is
   * looked up with `toLocaleDateString` in the given weekday `style` before the
   * frequency is looked at, and a thrown error ends the whole generation.
   */
  function ScheduleAsWritten(form: SetupForm, start: Date, style: string, i: nat): Result<seq<Session>>
    requires Valid(start) && i <= PlanDays
    decreases PlanDays - i
  {
    if i == PlanDays then Success([])
    else DayAsWritten(form, style, i, DayOf(Weekday(AddDays(start, i))), SessionAt(form, start, i),
                      ScheduleAsWritten(form, start, style, i + 1))
  }

  /**
   * Day `i` of the generator as written, falling on `day` and giving `session`
   * when selected, in front of the outcome `rest` of the later days.
   */
  function DayAsWritten(form: SetupForm, style: string, i: nat, day: DayName, session: Session,
                        rest: Result<seq<Session>>): Result<seq<Session>>
  {
    match WeekdayLabel(day, style)
    case Failure(e) => Failure(e)
    case Success(name) =>
      var key := DayOfKey(name);
      var selected := key.Some? && Flag(form.selectedDays, key.value);
      if rest.Failure? then rest
      else if form.frequency == "daily" || (form.frequency == "custom" && selected)
              || (form.frequency == "weekly" && i % 7 == 0)
      then Success([session] + rest.value)
      else rest
  }

  /** With the style "lowercase" the source uses, generation throws for every form. */
  lemma ScheduleAsWrittenThrows(form: SetupForm, start: Date)
    requires Valid(start)
    ensures ScheduleAsWritten(form, start, "lowercase", 0) == Failure("RangeError")
  {
  }

  /** Even with a style Intl accepts, a custom plan would select no day at all. */
  lemma ScheduleAsWrittenCustomEmpty(form: SetupForm, start: Date, style: string)
    requires Valid(start) && WeekdayStyle(style) && form.frequency == "custom"
    ensures ScheduleAsWritten(form, start, style, 0) == Success([])
  {
    var j := PlanDays;
    while j > 0
      invariant 0 <= j <= PlanDays
      invariant ScheduleAsWritten(form, start, style, j) == Success([])
    {
      j := j - 1;
      CustomDaySkipped(form, style, j, DayOf(Weekday(AddDays(start, j))), SessionAt(form, start, j),
                       ScheduleAsWritten(form, start, style, j + 1));
    }
  }

  /** A custom plan as written skips day `i`: its label is no key of the selection. */
  lemma CustomDaySkipped(form: SetupForm, style: string, i: nat, day: DayName, session: Session,
                         rest: Result<seq<Session>>)
    requires WeekdayStyle(style) && form.frequency == "custom"
    ensures DayAsWritten(form, style, i, day, session, rest) == rest
  {
    var name := WeekdayLabel(day, style).value;
    forall e: DayName ensures DayKey(e) != name {
      LabelsAreNotKeys(day, e, style);
    }
    assert DayOfKey(name).None?;
  }
}
