/**
 * The schedule manager: the six-week month grid, the events of one day, the
 * 24-hour to 12-hour time formatting of the time input, and the task dialog
 * whose handlers edit a selected or a new event.
 */
module ScheduleManager {
  import opened Opt
  import opened Text
  import opened Calendar
  import opened Seqs
  import opened LearningContent
  import ScheduleSetup

  // -------------------------------------------------------------- month grid

  /** One cell of the month view. */
  datatype Cell = Cell(date: Date, isCurrentMonth: bool)

  /** The number of cells shown: six rows of seven days. */
  const GridSize := 42

  /** The weekday of the 1st, i.e. how many days of the previous month lead the grid. */
  function LeadLength(year: int, month: int): (n: int)
    requires 0 <= month < 12
    ensures 0 <= n < 7
  {
    Weekday(FirstOfMonth(year, month))
  }

  /** The last `LeadLength` days of the previous month, ascending. */
  function LeadCells(year: int, month: int): (r: seq<Cell>)
    requires 0 <= month < 12
    ensures |r| == LeadLength(year, month)
  {
    var prev := PrevMonth(year, month);
    var lead := LeadLength(year, month);
    var last := DaysInMonth(prev.0, prev.1);
    seq(lead, j requires 0 <= j < lead => Cell(Date(prev.0, prev.1, last - lead + 1 + j), false))
  }

  /** The days 1 .. DaysInMonth of the month itself. */
  function MonthCells(year: int, month: int): (r: seq<Cell>)
    requires 0 <= month < 12
    ensures |r| == DaysInMonth(year, month)
  {
    seq(DaysInMonth(year, month), j requires 0 <= j < DaysInMonth(year, month) => Cell(Date(year, month, j + 1), true))
  }

  /** The first days of the next month that fill the grid up to 42 cells. */
  function TrailCells(year: int, month: int): (r: seq<Cell>)
    requires 0 <= month < 12
    ensures |r| == GridSize - LeadLength(year, month) - DaysInMonth(year, month)
  {
    var next := NextMonth(year, month);
    var k := GridSize - LeadLength(year, month) - DaysInMonth(year, month);
    seq(k, j requires 0 <= j < k => Cell(Date(next.0, next.1, j + 1), false))
  }

  /** The grid of the month view: leading, current and trailing blocks. */
  function MonthGrid(year: int, month: int): seq<Cell>
    requires 0 <= month < 12
  {
    LeadCells(year, month) + MonthCells(year, month) + TrailCells(year, month)
  }

  /** The first loop of `generateMonthDays`: the previous month's last days, oldest first. */
  method PushLeadDays(year: int, month: int) returns (prevMonthDays: seq<Cell>)
    requires 0 <= month < 12
    ensures prevMonthDays == LeadCells(year, month)
  {
    var startingDayOfWeek := Weekday(FirstOfMonth(year, month));
    var prev := PrevMonth(year, month);
    var prevMonthLastDay := DaysInMonth(prev.0, prev.1);
    ghost var lead := LeadCells(year, month);
    prevMonthDays := [];
    var i := startingDayOfWeek - 1;
    while i >= 0
      invariant -1 <= i < startingDayOfWeek
      invariant |prevMonthDays| == startingDayOfWeek - 1 - i
      invariant forall t :: 0 <= t < |prevMonthDays| ==> prevMonthDays[t] == lead[t]
    {
      prevMonthDays := prevMonthDays + [Cell(Date(prev.0, prev.1, prevMonthLastDay - i), false)];
      i := i - 1;
    }
  }

  /** The second loop: the days of the month itself. */
  method PushMonthDays(year: int, month: int) returns (currentMonthDays: seq<Cell>)
    requires 0 <= month < 12
    ensures currentMonthDays == MonthCells(year, month)
  {
    var daysInMonth := DaysInMonth(year, month);
    ghost var cells := MonthCells(year, month);
    currentMonthDays := [];
    var i := 1;
    while i <= daysInMonth
      invariant 1 <= i <= daysInMonth + 1
      invariant |currentMonthDays| == i - 1
      invariant forall t :: 0 <= t < |currentMonthDays| ==> currentMonthDays[t] == cells[t]
    {
      currentMonthDays := currentMonthDays + [Cell(Date(year, month, i), true)];
      i := i + 1;
    }
  }

  /** The third loop: the next month's first days, up to `daysToAdd` of them. */
  method PushTrailDays(year: int, month: int, daysToAdd: int) returns (nextMonthDays: seq<Cell>)
    requires 0 <= month < 12 && daysToAdd == GridSize - LeadLength(year, month) - DaysInMonth(year, month)
    ensures nextMonthDays == TrailCells(year, month)
  {
    var next := NextMonth(year, month);
    ghost var trail := TrailCells(year, month);
    nextMonthDays := [];
    var i := 1;
    while i <= daysToAdd
      invariant 1 <= i <= daysToAdd + 1
      invariant |nextMonthDays| == i - 1
      invariant forall t :: 0 <= t < |nextMonthDays| ==> nextMonthDays[t] == trail[t]
    {
      nextMonthDays := nextMonthDays + [Cell(Date(next.0, next.1, i), false)];
      i := i + 1;
    }
  }

  /** `generateMonthDays`: three loops that push the leading, current and trailing days. */
  method GenerateMonthDays(year: int, month: int) returns (days: seq<Cell>)
    requires 0 <= month < 12
    ensures days == MonthGrid(year, month)
  {
    var prevMonthDays := PushLeadDays(year, month);
    var currentMonthDays := PushMonthDays(year, month);
    var nextMonthDays := PushTrailDays(year, month, GridSize - (|prevMonthDays| + |currentMonthDays|));
    days := prevMonthDays + currentMonthDays + nextMonthDays;
  }

  /** The grid has 42 cells; the trailing block has between 5 and 14 days. */
  lemma GridShape(year: int, month: int)
    requires 0 <= month < 12
    ensures |MonthGrid(year, month)| == GridSize
    ensures 5 <= |TrailCells(year, month)| <= 14
    ensures forall j :: 0 <= j < GridSize ==>
      (MonthGrid(year, month)[j].isCurrentMonth <==>
         LeadLength(year, month) <= j < LeadLength(year, month) + DaysInMonth(year, month))
  {
  }

  /**
   * Cell `j` holds the day `j - lead` days after the 1st of the month, so
   * consecutive cells are consecutive days.
   */
  lemma GridDays(year: int, month: int)
    requires 0 <= month < 12
    ensures |MonthGrid(year, month)| == GridSize
    ensures forall j :: 0 <= j < GridSize ==>
      Valid(MonthGrid(year, month)[j].date)
      && DayNumber(MonthGrid(year, month)[j].date)
         == DayNumber(FirstOfMonth(year, month)) - LeadLength(year, month) + j
  {
    var grid := MonthGrid(year, month);
    var first := FirstOfMonth(year, month);
    var lead, dim := LeadLength(year, month), DaysInMonth(year, month);
    var prev, next := PrevMonth(year, month), NextMonth(year, month);
    forall j | 0 <= j < GridSize
      ensures Valid(grid[j].date) && DayNumber(grid[j].date) == DayNumber(first) - lead + j
    {
      if j < lead {
        var last := LastOfMonth(prev.0, prev.1);
        assert grid[j] == LeadCells(year, month)[j];
        assert DayNumber(last) + 1 == DayNumber(first);
        assert DayNumber(grid[j].date) == DayNumber(last) - (lead - 1 - j);
      } else if j < lead + dim {
        assert grid[j] == MonthCells(year, month)[j - lead];
      } else {
        assert grid[j] == TrailCells(year, month)[j - lead - dim];
        assert DayNumber(LastOfMonth(year, month)) + 1 == DayNumber(FirstOfMonth(next.0, next.1));
      }
    }
  }

  /** Cell `j` falls on weekday `j mod 7`, so every row starts on a Sunday. */
  lemma GridWeekdays(year: int, month: int)
    requires 0 <= month < 12
    ensures |MonthGrid(year, month)| == GridSize
    ensures forall j :: 0 <= j < GridSize ==>
      Valid(MonthGrid(year, month)[j].date) && Weekday(MonthGrid(year, month)[j].date) == j % 7
  {
    GridDays(year, month);
    var grid := MonthGrid(year, month);
    var base := DayNumber(FirstOfMonth(year, month));
    forall j | 0 <= j < GridSize
      ensures Valid(grid[j].date) && Weekday(grid[j].date) == j % 7
    {
      WeekdayFromSunday(grid[j].date, base, j);
    }
  }

  /** A day `j` days after the Sunday on or before day number `base` is weekday `j mod 7`. */
  lemma WeekdayFromSunday(d: Date, base: int, j: nat)
    requires Valid(d) && DayNumber(d) == base - (base + 6) % 7 + j
    ensures Weekday(d) == j % 7
  {
    SundayOffset(DayNumber(d), base, j);
  }

  lemma SundayOffset(n: int, base: int, j: nat)
    requires n == base - (base + 6) % 7 + j
    ensures (n + 6) % 7 == j % 7
  {
    var a := base + 6;
    assert a - a % 7 == 7 * (a / 7);
    assert n + 6 == 7 * (a / 7) + j;
  }

  /** Exactly the cells of the month itself are flagged as current. */
  lemma GridCurrentMonth(year: int, month: int)
    requires 0 <= month < 12
    ensures |MonthGrid(year, month)| == GridSize
    ensures forall j :: 0 <= j < GridSize ==>
      (MonthGrid(year, month)[j].isCurrentMonth <==>
         MonthGrid(year, month)[j].date.year == year && MonthGrid(year, month)[j].date.month == month)
  {
    var grid := MonthGrid(year, month);
    var lead, dim := LeadLength(year, month), DaysInMonth(year, month);
    forall j | 0 <= j < GridSize
      ensures grid[j].isCurrentMonth <==> grid[j].date.year == year && grid[j].date.month == month
    {
      if j < lead {
        assert grid[j] == LeadCells(year, month)[j];
      } else if j < lead + dim {
        assert grid[j] == MonthCells(year, month)[j - lead];
      } else {
        assert grid[j] == TrailCells(year, month)[j - lead - dim];
      }
    }
  }

  // ---------------------------------------------------------- events of a day

  /** Same `getDate()`, `getMonth()` and `getFullYear()`. */
  predicate SameDay(a: Date, b: Date)
  {
    a.day == b.day && a.month == b.month && a.year == b.year
  }

  /** `getDayEvents(day)`: the events on `day`, in their order in `events`. */
  function EventsOn<E>(events: seq<E>, dateOf: E -> Date, day: Date): (r: seq<E>)
    ensures forall i :: 0 <= i < |r| ==> r[i] in events && SameDay(dateOf(r[i]), day)
    ensures forall i :: 0 <= i < |events| && SameDay(dateOf(events[i]), day) ==> events[i] in r
  {
    Filter(events, e => SameDay(dateOf(e), day))
  }

  /** The day's events of a concatenation are those of each part, in order. */
  lemma EventsOnConcat<E>(a: seq<E>, b: seq<E>, dateOf: E -> Date, day: Date)
    ensures EventsOn(a + b, dateOf, day) == EventsOn(a, dateOf, day) + EventsOn(b, dateOf, day)
  {
    FilterConcat(a, b, e => SameDay(dateOf(e), day));
  }

  /** An event on the day is listed as often as it occurs; any other event not at all. */
  lemma EventsOnCount<E>(events: seq<E>, dateOf: E -> Date, day: Date, x: E)
    ensures multiset(EventsOn(events, dateOf, day))[x]
            == if SameDay(dateOf(x), day) then multiset(events)[x] else 0
  {
    FilterMultiset(events, e => SameDay(dateOf(e), day), x);
  }

  // ------------------------------------------------------------ 12-hour time

  /** `value.split(":")[1]`: the text after the first ':' up to the next one; `None` is `undefined`. */
  function SecondField(value: string): (r: Option<string>)
    ensures r.None? <==> ':' !in value
  {
    var k := IndexOf(value, ':');
    if k == |value| then None else Some(FirstSegment(value[k + 1..], ':'))
  }

  /** `hours % 12 || 12`: the 12-hour clock hour (NaN counts as 0). */
  function Hour12(hours: Option<int>): string
  {
    if hours.None? || ScheduleSetup.JsRem(hours.value, 12) == 0 then "12"
    else ScheduleSetup.IntToString(ScheduleSetup.JsRem(hours.value, 12))
  }

  /**
   * The time input's change handler: "HH:MM" becomes "h:MM AM" or "h:MM PM";
   * the hour is `parseInt` of the first field and the minutes text is kept verbatim.
   */
  function To12Hour(value: string): (r: string)
    ensures var hours := ParseIntPrefix(FirstSegment(value, ':'));
      |r| >= 3 && r[|r| - 3..] == (if hours.Some? && hours.value >= 12 then " PM" else " AM")
  {
    var hours := ParseIntPrefix(FirstSegment(value, ':'));
    var ampm := if hours.Some? && hours.value >= 12 then "PM" else "AM";
    var shown := Hour12(hours) + ":" + SecondField(value).GetOr("undefined");
    var r := shown + (" " + ampm);
    assert r[|r| - 3..] == " " + ampm;
    r
  }

  /** The hour of a clock time on the 12-hour dial. */
  function DialHour(h: nat): (r: nat)
    ensures 1 <= r <= 12 && r % 12 == h % 12
  {
    if h % 12 == 0 then 12 else h % 12
  }

  /**
   * On a clock time "HH:MM" the result is the dial hour, the minutes verbatim,
   * and "PM" exactly from 12:00 on (so 00:xx is 12 AM and 12:xx is 12 PM).
   */
  lemma To12HourOfClock(t: string)
    requires ScheduleSetup.IsClock(t)
    ensures var h := ScheduleSetup.ClockMinutes(t) / 60;
      To12Hour(t) == NatToString(DialHour(h)) + ":" + t[3..] + (if h >= 12 then " PM" else " AM")
  {
    var h := ScheduleSetup.ClockMinutes(t) / 60;
    ClockHourField(t);
    ClockMinutesField(t);
    DialHourText(h);
    SuffixTexts();
  }

  /** `hours % 12 || 12` of an hour is the numeral of its dial hour. */
  lemma DialHourText(h: nat)
    ensures Hour12(Some(h)) == NatToString(DialHour(h))
  {
  }

  lemma SuffixTexts()
    ensures " " + "PM" == " PM" && " " + "AM" == " AM"
  {
  }

  /** The first field of a clock time parses to its hour. */
  lemma ClockHourField(t: string)
    requires ScheduleSetup.IsClock(t)
    ensures ParseIntPrefix(FirstSegment(t, ':')) == Some(ScheduleSetup.ClockMinutes(t) / 60)
  {
    var h := ScheduleSetup.ClockMinutes(t) / 60;
    ScheduleSetup.ClockIsNumerals(t);
    IndexOfIs(t, ':', 2);
    var hh := t[..2];
    assert FirstSegment(t, ':') == hh;
    assert !IsSpace(hh[0]) && hh[0] != '+' && hh[0] != '-';
    assert TrimStart(hh) == hh;
    DigitRunIs(hh, 2);
    assert hh[..2] == hh;
    DigitsValueOfTwo(hh);
    assert DigitsValue(hh) == h;
  }

  /** The second field of a clock time is its minutes text. */
  lemma ClockMinutesField(t: string)
    requires ScheduleSetup.IsClock(t)
    ensures SecondField(t) == Some(t[3..])
  {
    ScheduleSetup.ClockIsNumerals(t);
    IndexOfIs(t, ':', 2);
    var mm := t[3..];
    assert mm == [t[3], t[4]];
    assert ':' !in mm;
    IndexOfAbsent(mm, ':');
    assert FirstSegment(mm, ':') == mm;
  }

  /** The 12-hour text loses nothing: different clock times are shown differently. */
  lemma To12HourInjective(t1: string, t2: string)
    requires ScheduleSetup.IsClock(t1) && ScheduleSetup.IsClock(t2)
    ensures To12Hour(t1) == To12Hour(t2) ==> t1 == t2
  {
    var h1, h2 := ScheduleSetup.ClockMinutes(t1) / 60, ScheduleSetup.ClockMinutes(t2) / 60;
    To12HourOfClock(t1);
    To12HourOfClock(t2);
    if To12Hour(t1) == To12Hour(t2) {
      var p1 := if h1 >= 12 then " PM" else " AM";
      var p2 := if h2 >= 12 then " PM" else " AM";
      TwelveHourParts(NatToString(DialHour(h1)), t1[3..], p1, NatToString(DialHour(h2)), t2[3..], p2);
      NatToStringInjective(DialHour(h1), DialHour(h2));
      SameDialSameClock(t1, t2);
    }
  }

  /** Two clock times with the same dial hour, half of the day and minutes text are equal. */
  lemma SameDialSameClock(t1: string, t2: string)
    requires ScheduleSetup.IsClock(t1) && ScheduleSetup.IsClock(t2)
    requires var h1, h2 := ScheduleSetup.ClockMinutes(t1) / 60, ScheduleSetup.ClockMinutes(t2) / 60;
      DialHour(h1) == DialHour(h2) && (h1 >= 12) == (h2 >= 12) && t1[3..] == t2[3..]
    ensures t1 == t2
  {
    var n1, n2 := ScheduleSetup.ClockMinutes(t1), ScheduleSetup.ClockMinutes(t2);
    SameDialSameHour(n1 / 60, n2 / 60);
    assert n1 % 60 == n2 % 60 by {
      assert t1[3] == t1[3..][0] == t2[3..][0] == t2[3];
      assert t1[4] == t1[3..][1] == t2[3..][1] == t2[4];
      ScheduleSetup.ClockIsNumerals(t1);
      ScheduleSetup.ClockIsNumerals(t2);
    }
    SameFieldsSameCount(n1, n2);
    ScheduleSetup.ClockOfMinutes(t1);
    ScheduleSetup.ClockOfMinutes(t2);
  }

  /** Within a day, the dial hour and the half of the day give back the hour. */
  lemma SameDialSameHour(h1: int, h2: int)
    requires 0 <= h1 < 24 && 0 <= h2 < 24
    requires DialHour(h1) == DialHour(h2) && (h1 >= 12) == (h2 >= 12)
    ensures h1 == h2
  {
  }

  /** A minute count is fixed by its hours and its minutes past the hour. */
  lemma SameFieldsSameCount(n1: int, n2: int)
    requires n1 / 60 == n2 / 60 && n1 % 60 == n2 % 60
    ensures n1 == n2
  {
  }

  /** The parts of "h:MM AM" are found again from the whole text. */
  lemma TwelveHourParts(n1: string, m1: string, p1: string, n2: string, m2: string, p2: string)
    requires |m1| == |m2| == 2 && |p1| == |p2| == 3
    requires n1 + ":" + m1 + p1 == n2 + ":" + m2 + p2
    ensures n1 == n2 && m1 == m2 && p1 == p2
  {
    var s := n1 + ":" + m1 + p1;
    assert |n1| == |n2|;
    assert n1 == s[..|n1|] == n2;
    assert m1 == s[|n1| + 1..|n1| + 3] == m2;
    assert p1 == s[|n1| + 3..] == p2;
  }

  // ------------------------------------------------------------- task dialog

  datatype Status = Pending | Completed | Cancelled

  /** The fields of a schedule event other than its id (the shape of `newEvent`). */
  datatype EventFields = EventFields(title: string, date: Date, time: string, status: Status,
                                     description: string, learningMethod: Option<Method>,
                                     content: Option<Content>)

  datatype ScheduleEvent = ScheduleEvent(id: string, fields: EventFields)

  /** `resetNewEvent`: an empty pending flashcards event dated today, without content. */
  function BlankEvent(today: Date): (e: EventFields)
    ensures e.title == "" && e.time == "" && e.description == "" && e.status == Pending
    ensures e.date == today && e.learningMethod == Some(Flashcards) && e.content.None?
  {
    EventFields("", today, "", Pending, "", Some(Flashcards), None)
  }

  /**
   * The learning-method select of the task dialog. With a selected event the
   * method is set and its content kept unless it is null, in which case the
   * method's stub is installed, titled `selected.title || newEvent.title ||
   * placeholder`; without one, the new event gets the method and the stub
   * unconditionally. The other event is left as it was.
   */
  function ChangeMethod(selected: Option<ScheduleEvent>, newEvent: EventFields, m: Method)
    : (r: (Option<ScheduleEvent>, EventFields))
    ensures selected.Some? ==>
      r.1 == newEvent && r.0.Some? && r.0.value.id == selected.value.id
      && r.0.value.fields == selected.value.fields.(learningMethod := r.0.value.fields.learningMethod,
                                                    content := r.0.value.fields.content)
      && r.0.value.fields.learningMethod == Some(m)
      && (selected.value.fields.content.Some? ==> r.0.value.fields.content == selected.value.fields.content)
      && (selected.value.fields.content.None? ==>
            r.0.value.fields.content
              == Some(DefaultContent(m, OrElse(selected.value.fields.title, newEvent.title))))
    ensures selected.None? ==>
      r.0.None?
      && r.1 == newEvent.(learningMethod := Some(m), content := Some(DefaultContent(m, newEvent.title)))
  {
    match selected
    case Some(e) =>
      var content := if e.fields.content.Some? then e.fields.content
                     else Some(DefaultContent(m, OrElse(e.fields.title, newEvent.title)));
      (Some(e.(fields := e.fields.(learningMethod := Some(m), content := content))), newEvent)
    case None =>
      (None, newEvent.(learningMethod := Some(m), content := Some(DefaultContent(m, newEvent.title))))
  }

  /** `handleStartLearning`: only a selected event can start learning. */
  function SelectedHandoff(selected: Option<ScheduleEvent>): (r: Option<Handoff>)
    ensures selected.None? ==> r.None?
    ensures selected.Some? ==> r == StartHandoff(selected.value.fields.learningMethod, selected.value.fields.content)
  {
    if selected.Some? then StartHandoff(selected.value.fields.learningMethod, selected.value.fields.content)
    else None
  }

  /**
   * Once a method is chosen for a selected event, learning can start, on that
   * method's route; the content handed over is the event's own when it had
   * some, and otherwise a stub that fits the method.
   */
  lemma ChangeMethodThenStart(selected: Option<ScheduleEvent>, newEvent: EventFields, m: Method)
    requires selected.Some?
    ensures var h := SelectedHandoff(ChangeMethod(selected, newEvent, m).0);
      h.Some? && h.value.route == "/" + MethodName(m)
      && (selected.value.fields.content.Some? ==> h.value.content == selected.value.fields.content.value)
      && (selected.value.fields.content.None? ==> Fits(m, h.value.content))
  {
  }

  /** The state of the schedule manager that its handlers change. */
  class TaskDialog {
    var selectedEvent: Option<ScheduleEvent>
    var newEvent: EventFields
    var currentDate: Date
    /** The month shown, as (year, month 0..11). */
    var currentMonth: (int, int)

    predicate Valid()
      reads this
    {
      0 <= currentMonth.1 < 12
    }

    constructor(today: Date)
      requires Calendar.Valid(today)
      ensures Valid()
      ensures selectedEvent.None? && newEvent == BlankEvent(today)
      ensures currentDate == today && currentMonth == (today.year, today.month)
    {
      selectedEvent := None;
      newEvent := BlankEvent(today);
      currentDate := today;
      currentMonth := (today.year, today.month);
    }

    /** `resetNewEvent`. */
    method ResetNewEvent(today: Date)
      modifies this
      ensures newEvent == BlankEvent(today)
      ensures selectedEvent == old(selectedEvent) && currentDate == old(currentDate)
      ensures currentMonth == old(currentMonth)
    {
      newEvent := BlankEvent(today);
    }

    /** `openNewTaskDialog`: nothing selected and a blank new event. */
    method OpenNewTaskDialog(today: Date)
      modifies this
      ensures selectedEvent.None? && newEvent == BlankEvent(today)
      ensures currentDate == old(currentDate) && currentMonth == old(currentMonth)
    {
      selectedEvent := None;
      ResetNewEvent(today);
    }

    /** `openTaskDetails(event)`. */
    method OpenTaskDetails(event: ScheduleEvent)
      modifies this
      ensures selectedEvent == Some(event)
      ensures newEvent == old(newEvent) && currentDate == old(currentDate) && currentMonth == old(currentMonth)
    {
      selectedEvent := Some(event);
    }

    /** `handleAddEvent`: hands the new event to `onAddEvent` and resets it. */
    method AddEvent(today: Date) returns (added: EventFields)
      modifies this
      ensures added == old(newEvent) && newEvent == BlankEvent(today)
      ensures selectedEvent == old(selectedEvent) && currentDate == old(currentDate)
      ensures currentMonth == old(currentMonth)
    {
      added := newEvent;
      ResetNewEvent(today);
    }

    /** `handleUpdateEvent`: hands the selected event, if any, to `onUpdateEvent`. */
    method UpdateEvent() returns (updated: Option<ScheduleEvent>)
      ensures updated == selectedEvent
    {
      updated := selectedEvent;
    }

    /** `handleDeleteEvent`: hands the selected event's id, if any, to `onDeleteEvent`. */
    method DeleteEvent() returns (deleted: Option<string>)
      ensures deleted.Some? <==> selectedEvent.Some?
      ensures deleted.Some? ==> deleted.value == selectedEvent.value.id
    {
      deleted := if selectedEvent.Some? then Some(selectedEvent.value.id) else None;
    }

    /** The time input: the selected event, or else the new event, gets the 12-hour text. */
    method EditTime(value: string)
      modifies this
      ensures selectedEvent.Some? ==>
        old(selectedEvent).Some?
        && selectedEvent == Some(old(selectedEvent).value.(fields := old(selectedEvent).value.fields.(time := To12Hour(value))))
        && newEvent == old(newEvent)
      ensures selectedEvent.None? ==>
        old(selectedEvent).None? && newEvent == old(newEvent).(time := To12Hour(value))
      ensures currentDate == old(currentDate) && currentMonth == old(currentMonth)
    {
      var formatted := To12Hour(value);
      match selectedEvent
      case Some(e) => selectedEvent := Some(e.(fields := e.fields.(time := formatted)));
      case None => newEvent := newEvent.(time := formatted);
    }

    /** The learning-method select. */
    method ChangeLearningMethod(m: Method)
      modifies this
      ensures (selectedEvent, newEvent) == ChangeMethod(old(selectedEvent), old(newEvent), m)
      ensures currentDate == old(currentDate) && currentMonth == old(currentMonth)
    {
      var r := ChangeMethod(selectedEvent, newEvent, m);
      selectedEvent := r.0;
      newEvent := r.1;
    }

    /** `handleStartLearning`. */
    method StartLearning() returns (handoff: Option<Handoff>)
      ensures handoff == SelectedHandoff(selectedEvent)
    {
      if selectedEvent.Some? {
        handoff := StartHandoff(selectedEvent.value.fields.learningMethod, selectedEvent.value.fields.content);
      } else {
        handoff := None;
      }
    }

    /** The previous-month button: the month before the one shown. */
    method ShowPreviousMonth()
      requires Valid()
      modifies this
      ensures Valid() && currentMonth == PrevMonth(old(currentMonth).0, old(currentMonth).1)
      ensures selectedEvent == old(selectedEvent) && newEvent == old(newEvent)
      ensures currentDate == old(currentDate)
    {
      currentMonth := PrevMonth(currentMonth.0, currentMonth.1);
    }

    /** The next-month button: the month after the one shown. */
    method ShowNextMonth()
      requires Valid()
      modifies this
      ensures Valid() && currentMonth == NextMonth(old(currentMonth).0, old(currentMonth).1)
      ensures selectedEvent == old(selectedEvent) && newEvent == old(newEvent)
      ensures currentDate == old(currentDate)
    {
      currentMonth := NextMonth(currentMonth.0, currentMonth.1);
    }

    /** A click on a grid cell selects its day and, outside the month shown, moves to its month. */
    method SelectCell(cell: Cell)
      requires Calendar.Valid(cell.date)
      modifies this
      ensures currentDate == cell.date
      ensures currentMonth == if cell.isCurrentMonth then old(currentMonth) else (cell.date.year, cell.date.month)
      ensures old(Valid()) ==> Valid()
      ensures selectedEvent == old(selectedEvent) && newEvent == old(newEvent)
    {
      currentDate := cell.date;
      if !cell.isCurrentMonth {
        currentMonth := (cell.date.year, cell.date.month);
      }
    }
  }
}
