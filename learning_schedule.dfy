/**
 * The learning schedule: a calendar of study sessions with an add dialog
 * (title, date, times, course, learning method with its stub content) and a
 * details dialog (toggle completion, change method, delete, start learning).
 */
module LearningSchedule {
  import opened Opt
  import opened Calendar
  import opened LearningContent
  import ScheduleManager

  /** A study session as the schedule receives it. */
  datatype StudyEvent = StudyEvent(
    id: string, title: string, date: Date, startTime: string, endTime: string,
    description: Option<string>, courseId: Option<string>, completed: bool,
    learningMethod: Option<Method>, content: Option<Content>)

  /** The add dialog's form (`newEvent`). */
  datatype NewEvent = NewEvent(
    title: string, date: Date, startTime: string, endTime: string, description: string,
    courseId: string, completed: bool, learningMethod: Method, content: Option<Content>)

  /** What `onAddEvent` receives: a session without id. */
  datatype EventDraft = EventDraft(
    title: string, date: Date, startTime: string, endTime: string, description: string,
    courseId: Option<string>, completed: bool, learningMethod: Method, content: Option<Content>)

  /** `resetNewEvent`: 09:00-10:00 flashcards, no content, not completed, empty texts. */
  function BlankNewEvent(today: Date): (e: NewEvent)
    ensures e.startTime == "09:00" && e.endTime == "10:00"
    ensures e.learningMethod == Flashcards && e.content.None? && !e.completed
    ensures e.title == "" && e.description == "" && e.courseId == "" && e.date == today
  {
    NewEvent("", today, "09:00", "10:00", "", "", false, Flashcards, None)
  }

  /**
   * The session `handleAddEvent` hands on: the form's fields, `completed`
   * forced to false, and an empty course id turned into `undefined`.
   */
  function Submission(form: NewEvent): (d: EventDraft)
    ensures !d.completed
    ensures d.courseId.None? <==> form.courseId == ""
    ensures d.courseId.Some? ==> d.courseId.value == form.courseId
    ensures d.title == form.title && d.date == form.date && d.startTime == form.startTime
    ensures d.endTime == form.endTime && d.description == form.description
    ensures d.learningMethod == form.learningMethod && d.content == form.content
  {
    EventDraft(form.title, form.date, form.startTime, form.endTime, form.description,
               if form.courseId == "" then None else Some(form.courseId), false,
               form.learningMethod, form.content)
  }

  /** Submitting ignores the form's own completion flag. */
  lemma SubmissionIgnoresCompleted(form: NewEvent)
    ensures Submission(form) == Submission(form.(completed := !form.completed))
  {
  }

  /** `handleToggleComplete(event)`: the same session with `completed` negated. */
  function Toggled(e: StudyEvent): (r: StudyEvent)
    ensures r.completed == !e.completed
    ensures r.(completed := e.completed) == e
  {
    e.(completed := !e.completed)
  }

  /** Toggling twice gives back the original session. */
  lemma ToggleTwice(e: StudyEvent)
    ensures Toggled(Toggled(e)) == e
  {
  }

  /** The sessions of the selected day, in order; no selected day shows none. */
  function CurrentDayEvents(events: seq<StudyEvent>, day: Option<Date>): (r: seq<StudyEvent>)
    ensures day.None? ==> r == []
    ensures day.Some? ==> r == ScheduleManager.EventsOn(events, (e: StudyEvent) => e.date, day.value)
  {
    if day.Some? then ScheduleManager.EventsOn(events, (e: StudyEvent) => e.date, day.value) else []
  }

  /** The state of the learning schedule that its handlers change. */
  class Planner {
    var date: Option<Date>
    var selectedEvent: Option<StudyEvent>
    var newEvent: NewEvent

    constructor(today: Date)
      ensures date == Some(today) && selectedEvent.None? && newEvent == BlankNewEvent(today)
    {
      date := Some(today);
      selectedEvent := None;
      newEvent := BlankNewEvent(today);
    }

    /** `handleDateSelect`. */
    method SelectDate(d: Option<Date>)
      modifies this
      ensures date == d && selectedEvent == old(selectedEvent) && newEvent == old(newEvent)
    {
      date := d;
    }

    /** The title input of the add dialog. */
    method EditTitle(title: string)
      modifies this
      ensures newEvent == old(newEvent).(title := title)
      ensures date == old(date) && selectedEvent == old(selectedEvent)
    {
      newEvent := newEvent.(title := title);
    }

    /** The course select of the add dialog. */
    method EditCourse(courseId: string)
      modifies this
      ensures newEvent == old(newEvent).(courseId := courseId)
      ensures date == old(date) && selectedEvent == old(selectedEvent)
    {
      newEvent := newEvent.(courseId := courseId);
    }

    /** The time inputs of the add dialog store the raw "HH:MM" values. */
    method EditTimes(startTime: string, endTime: string)
      modifies this
      ensures newEvent == old(newEvent).(startTime := startTime, endTime := endTime)
      ensures date == old(date) && selectedEvent == old(selectedEvent)
    {
      newEvent := newEvent.(startTime := startTime, endTime := endTime);
    }

    /** The add dialog's method select: the method and its stub content titled after the form. */
    method ChangeNewEventMethod(m: Method)
      modifies this
      ensures newEvent == old(newEvent).(learningMethod := m, content := Some(DefaultContent(m, old(newEvent).title)))
      ensures date == old(date) && selectedEvent == old(selectedEvent)
    {
      newEvent := newEvent.(learningMethod := m, content := Some(DefaultContent(m, newEvent.title)));
    }

    /** The details dialog's method select: only the method changes, the content stays. */
    method ChangeSelectedMethod(m: Method)
      requires selectedEvent.Some?
      modifies this
      ensures selectedEvent == Some(old(selectedEvent).value.(learningMethod := Some(m)))
      ensures selectedEvent.value.content == old(selectedEvent).value.content
      ensures date == old(date) && newEvent == old(newEvent)
    {
      selectedEvent := Some(selectedEvent.value.(learningMethod := Some(m)));
    }

    /**
     * "Add to Schedule": disabled while the title is empty; otherwise hands on
     * the submission and resets the form.
     */
    method AddEvent(today: Date) returns (added: Option<EventDraft>)
      modifies this
      ensures old(newEvent).title == "" ==> added.None? && newEvent == old(newEvent)
      ensures old(newEvent).title != "" ==>
        added == Some(Submission(old(newEvent))) && newEvent == BlankNewEvent(today)
      ensures added.Some? ==> added.value.title != "" && !added.value.completed
      ensures date == old(date) && selectedEvent == old(selectedEvent)
    {
      if newEvent.title == "" {
        added := None;
      } else {
        added := Some(Submission(newEvent));
        newEvent := BlankNewEvent(today);
      }
    }

    /** "Cancel" in the add dialog. */
    method CancelAdd(today: Date)
      modifies this
      ensures newEvent == BlankNewEvent(today)
      ensures date == old(date) && selectedEvent == old(selectedEvent)
    {
      newEvent := BlankNewEvent(today);
    }

    /** `handleEventClick(event)`. */
    method EventClick(event: StudyEvent)
      modifies this
      ensures selectedEvent == Some(event) && date == old(date) && newEvent == old(newEvent)
    {
      selectedEvent := Some(event);
    }

    /** `handleToggleComplete(event)`: hands the toggled session to `onUpdateEvent`. */
    method ToggleComplete(event: StudyEvent) returns (updated: StudyEvent)
      ensures updated == Toggled(event)
    {
      updated := event.(completed := !event.completed);
    }

    /** `handleDeleteEvent`: hands the selected session's id, if any, to `onDeleteEvent`. */
    method DeleteEvent() returns (deleted: Option<string>)
      ensures deleted.Some? <==> selectedEvent.Some?
      ensures deleted.Some? ==> deleted.value == selectedEvent.value.id
    {
      deleted := if selectedEvent.Some? then Some(selectedEvent.value.id) else None;
    }

    /** `handleStartLearning`. */
    method StartLearning() returns (handoff: Option<Handoff>)
      ensures selectedEvent.None? ==> handoff.None?
      ensures selectedEvent.Some? ==>
        handoff == StartHandoff(selectedEvent.value.learningMethod, selectedEvent.value.content)
    {
      if selectedEvent.Some? {
        handoff := StartHandoff(selectedEvent.value.learningMethod, selectedEvent.value.content);
      } else {
        handoff := None;
      }
    }
  }

  /**
   * A session added after choosing a method in the add dialog carries content
   * that fits the method, so once listed it can start learning on its route.
   */
  lemma AddedAfterMethodChoiceCanStart(form: NewEvent, m: Method)
    requires form.title != ""
    ensures var d := Submission(form.(learningMethod := m, content := Some(DefaultContent(m, form.title))));
      d.content.Some? && Fits(m, d.content.value) && d.content.value.title == form.title
      && StartHandoff(Some(d.learningMethod), d.content).Some?
      && StartHandoff(Some(d.learningMethod), d.content).value.route == "/" + MethodName(m)
  {
  }
}
