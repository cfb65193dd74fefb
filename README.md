# Learning platform: a verified model of its client-side logic

This project is a Dafny model of the state logic in a React learning platform. In the app a learner imports material, picks a learning method (flashcards, quizzes, a game or a chat) and has canned material "generated" behind a simulated progress bar. The learner then studies in one of four study views and plans sessions in a schedule. Around that sit an onboarding wizard, a tutorial overlay, registration and login forms, and a role guard on the dashboards.

Each core component becomes one Dafny module:

- Components whose handlers update React state become classes. Their fields are the `useState` variables and each handler is a method. The method's `ensures` states the whole new state, usually as `State() == old(State()).(...)`. Where the component keeps an invariant, a `Valid()` predicate holds it.
- Rules that only compute become functions with named results. Examples are validators, filters and sorts, label formatting, the recurrence generator's plan and the calendar grid. The lemmas beside them state what the rules promise.
- Simulated timers (`setInterval` progress bars) become `while` loops. Each loop runs the same tick function until it stops, with a `decreases` clause.

Shared modules:

- `Opt` holds the option type.
- `Text` holds characters, trimming, ASCII lower-casing, substring search, joining, decimal numerals, dot segments and the `parseInt` prefix rule (decimal, or hexadecimal after "0x").
- `Seqs` holds filtering and removal at an index.
- `Sorting` is a stable insertion sort on a two-part key. `Array.prototype.sort` is stable, so this fixes the order of equal keys.
- `Calendar` holds Gregorian day numbers, weekdays, month lengths and month stepping.
- `LearningContent` holds the per-method study material and the default material that both schedule views attach.

Clock readings, `Date.now`, "today" and random picks are parameters. Calls into the authentication service become response values that the form's `Answer` method takes.

## Model

| member | source | states |
|---|---|---|
| ScheduleSetup.ToggleDay | src/components/schedule/ScheduleSetup.tsx:77-82 | the toggled day's flag is negated and the other six flags are unchanged |
| ScheduleSetup.ToggleDayTwice | src/components/schedule/ScheduleSetup.tsx:77-82 | toggling the same day twice gives back the original selection |
| ScheduleSetup.NumberOf | src/components/schedule/ScheduleSetup.tsx:149 | `Number` of a time-input field is a number exactly when every character is a digit, and then it is the field's decimal value (0 for the empty field) |
| ScheduleSetup.NumberOfNumeral | src/components/schedule/ScheduleSetup.tsx:149 | the decimal numeral of a number reads back as that number |
| ScheduleSetup.JsRem | src/components/schedule/ScheduleSetup.tsx:151-152 | JavaScript `%` agrees with the mathematical remainder on non-negative operands |
| ScheduleSetup.AddMinutesNumerals | src/components/schedule/ScheduleSetup.tsx:149-153 | on an "HH:MM" time and minutes >= 0 the result is the zero-padded clock of (start minutes + minutes) mod 1440: the two-digit hour, ":" and the two-digit minutes |
| ScheduleSetup.AddMinutesIsClock | src/components/schedule/ScheduleSetup.tsx:148-154 | on an "HH:MM" time and minutes >= 0 the result is again a zero-padded "HH:MM" time (hours 0..23, minutes 0..59) whose minute count is (start + minutes) mod 1440 |
| ScheduleSetup.AddZeroMinutes | src/components/schedule/ScheduleSetup.tsx:148-154 | adding 0 minutes returns any zero-padded time unchanged |
| ScheduleSetup.AddNaNMinutes | src/components/schedule/ScheduleSetup.tsx:139 | a duration that `parseInt` turns into NaN gives the end time "NaN:NaN" |
| ScheduleSetup.GenerateMockSchedule | src/components/schedule/ScheduleSetup.tsx:115-146 | the loop over the 14 days returns the plan of 14 days: day by day, the session of each day the frequency selects |
| ScheduleSetup.PlannedSessionsSpec | src/components/schedule/ScheduleSetup.tsx:120-143 | the plan holds exactly one session per planned offset, in increasing offset order, each the session for that offset |
| ScheduleSetup.PlannedOffsetsSpec | src/components/schedule/ScheduleSetup.tsx:120-133 | every planned offset is below 14 and passes the frequency test, and offsets strictly increase |
| ScheduleSetup.DailyPlan | src/components/schedule/ScheduleSetup.tsx:129-130 | "daily" plans a session on every one of the days, offsets 0, 1, 2, ... |
| ScheduleSetup.WeeklyPlan | src/components/schedule/ScheduleSetup.tsx:132 | "weekly" plans exactly two sessions, at offsets 0 and 7 from the start date |
| ScheduleSetup.CustomPlan | src/components/schedule/ScheduleSetup.tsx:124-133 | "custom" plans offset i exactly when the flag of that date's weekday is set (with the intended lower-case English weekday key) |
| ScheduleSetup.SessionIdsDistinct | src/components/schedule/ScheduleSetup.tsx:135 | the ids "session-i" of two different offsets differ |
| ScheduleSetup.SessionAtFields | src/components/schedule/ScheduleSetup.tsx:134-141 | each session lies i days after the start, is not completed, carries the content title, starts at the preferred time and ends at `addMinutesToTime` of the preferred time and the `parseInt` of the duration |
| ScheduleSetup.SessionEndClock | src/components/schedule/ScheduleSetup.tsx:134-154 | with an "HH:MM" preferred time and a duration numeral of d minutes, every session ends at the zero-padded clock of (start minutes + d) mod 1440 |
| ScheduleSetup.WeekdayLabel | src/components/schedule/ScheduleSetup.tsx:124-126 | a weekday style other than "long", "short" or "narrow" throws a RangeError |
| ScheduleSetup.LabelsAreNotKeys | src/components/schedule/ScheduleSetup.tsx:124-131 | no weekday label Intl produces is a key of the selected-days record |
| ScheduleSetup.DayOfKey | src/components/schedule/ScheduleSetup.tsx:67-75 | a record key names the day with that key, and any other text names none |
| ScheduleSetup.ScheduleAsWrittenThrows | src/components/schedule/ScheduleSetup.tsx:124-126 | with the style "lowercase" as written, generation throws for every form |
| ScheduleSetup.ScheduleAsWrittenCustomEmpty | src/components/schedule/ScheduleSetup.tsx:124-133 | even with a style Intl accepts, a "custom" plan as written selects no day |
| Calendar.DaysInMonth | src/components/schedule/ScheduleManager.tsx:214-216 | the number of days of a month is 28 to 31, with 29 in February exactly in Gregorian leap years |
| Calendar.WeekdayOfAddDays | src/components/schedule/ScheduleSetup.tsx:121-122 | the date n days later falls n weekdays later, modulo 7 |
| ScheduleManager.LeadCells | src/components/schedule/ScheduleManager.tsx:220-227 | the leading block has as many cells as the weekday of the 1st (0..6) |
| ScheduleManager.MonthCells | src/components/schedule/ScheduleManager.tsx:230-236 | the middle block has one cell per day of the month |
| ScheduleManager.TrailCells | src/components/schedule/ScheduleManager.tsx:238-248 | the trailing block fills the grid up to 42 cells |
| ScheduleManager.GenerateMonthDays | src/components/schedule/ScheduleManager.tsx:209-250 | the three push loops produce exactly the leading, current and trailing blocks, in that order |
| ScheduleManager.GridShape | src/components/schedule/ScheduleManager.tsx:239-250 | the grid always has 42 cells, the trailing block 5 to 14 of them, and a cell is flagged current exactly when it lies in the middle block |
| ScheduleManager.GridDays | src/components/schedule/ScheduleManager.tsx:209-250 | every cell is a valid date and cell j is the day j - lead after the 1st, so consecutive cells are consecutive days |
| ScheduleManager.GridWeekdays | src/components/schedule/ScheduleManager.tsx:209-250 | cell j falls on weekday j mod 7, so every row starts on a Sunday |
| ScheduleManager.GridCurrentMonth | src/components/schedule/ScheduleManager.tsx:230-236 | a cell is flagged current exactly when its date lies in the month shown |
| ScheduleManager.EventsOn | src/components/schedule/ScheduleManager.tsx:199-206 | the result holds exactly the events with the day's (year, month, day) |
| ScheduleManager.EventsOnConcat | src/components/schedule/ScheduleManager.tsx:199-206 | the filter works piecewise, so input order is kept |
| ScheduleManager.EventsOnCount | src/components/schedule/ScheduleManager.tsx:199-206 | an event on the day occurs as often as in the input, any other event not at all |
| ScheduleManager.SecondField | src/components/schedule/ScheduleManager.tsx:542 | the minutes field is undefined exactly when the value holds no ':' |
| ScheduleManager.To12Hour | src/components/schedule/ScheduleManager.tsx:539-545 | the text ends in " PM" exactly when the parsed hour is at least 12, and in " AM" otherwise (NaN included) |
| ScheduleManager.DialHour | src/components/schedule/ScheduleManager.tsx:544 | the dial hour (h mod 12, or 12 when that is 0) is in 1..12 and agrees with h modulo 12 |
| ScheduleManager.ClockHourField | src/components/schedule/ScheduleManager.tsx:541 | `parseInt` of the first field of "HH:MM" is the hour |
| ScheduleManager.ClockMinutesField | src/components/schedule/ScheduleManager.tsx:542 | the second field of "HH:MM" is the minutes text, verbatim |
| ScheduleManager.To12HourOfClock | src/components/schedule/ScheduleManager.tsx:539-545 | "HH:MM" becomes the dial hour, ":", the minutes verbatim and " PM" exactly when the hour is at least 12, so 00:xx is 12 AM and 12:xx is 12 PM |
| ScheduleManager.To12HourInjective | src/components/schedule/ScheduleManager.tsx:539-545 | two different clock times are never shown as the same 12-hour text |
| ScheduleManager.BlankEvent | src/components/schedule/ScheduleManager.tsx:169-179 | the reset event is empty, pending, dated today, uses flashcards and has no content |
| ScheduleManager.ChangeMethod | src/components/schedule/ScheduleManager.tsx:601-674 | a selected event changes only its method and keeps non-null content (the method's stub only when it had none); without a selection the new event gets the method and the stub unconditionally |
| ScheduleManager.SelectedHandoff | src/components/schedule/ScheduleManager.tsx:155-167 | learning starts only for a selected event with a method and content, handing over exactly that pair |
| ScheduleManager.ChangeMethodThenStart | src/components/schedule/ScheduleManager.tsx:155-167 | after a method is chosen for a selected event, learning starts on that method's route with the event's own content, or a stub that fits the method |
| ScheduleManager.TaskDialog.constructor | src/components/schedule/ScheduleManager.tsx:112-127 | no event is selected, the new event is blank, and today's month is shown |
| ScheduleManager.TaskDialog.ResetNewEvent | src/components/schedule/ScheduleManager.tsx:169-179 | the new event becomes the blank event and nothing else changes |
| ScheduleManager.TaskDialog.OpenNewTaskDialog | src/components/schedule/ScheduleManager.tsx:181-185 | the selection is cleared and the new event is blank |
| ScheduleManager.TaskDialog.OpenTaskDetails | src/components/schedule/ScheduleManager.tsx:187-190 | the clicked event becomes the selection and nothing else changes |
| ScheduleManager.TaskDialog.AddEvent | src/components/schedule/ScheduleManager.tsx:135-139 | the pending new event is handed over as it was, then reset to blank |
| ScheduleManager.TaskDialog.UpdateEvent | src/components/schedule/ScheduleManager.tsx:141-146 | the selected event, if any, is handed over |
| ScheduleManager.TaskDialog.DeleteEvent | src/components/schedule/ScheduleManager.tsx:148-153 | an id is handed over exactly when an event is selected, and it is that event's id |
| ScheduleManager.TaskDialog.EditTime | src/components/schedule/ScheduleManager.tsx:539-556 | the selected event, or else the new event, gets the 12-hour text and the other is unchanged |
| ScheduleManager.TaskDialog.ChangeLearningMethod | src/components/schedule/ScheduleManager.tsx:601-675 | the selected and new events become those the method-change rule gives |
| ScheduleManager.TaskDialog.StartLearning | src/components/schedule/ScheduleManager.tsx:155-167 | the handoff is the one the start rule gives for the selection |
| ScheduleManager.TaskDialog.ShowPreviousMonth | src/components/schedule/ScheduleManager.tsx:324-327 | the month shown becomes the previous one (December of the year before after January) |
| ScheduleManager.TaskDialog.ShowNextMonth | src/components/schedule/ScheduleManager.tsx:379-382 | the month shown becomes the next one |
| ScheduleManager.TaskDialog.SelectCell | src/components/schedule/ScheduleManager.tsx:423-428 | the clicked day is selected, and a cell outside the month shown switches to its month |
| LearningContent.OrElse | src/components/schedule/LearningSchedule.tsx:507 | JavaScript's "or" on two strings: the first unless it is empty, then the second |
| LearningContent.DefaultContent | src/components/schedule/LearningSchedule.tsx:495-555 | the stub fits the method; flashcards: one card; quizzes: one question with 4 options and answer 0, a valid index; game: one level and one challenge; chat: one topic and one sample question; titled with the event's title or else the method's "New ..." placeholder |
| LearningContent.StartHandoff | src/components/schedule/LearningSchedule.tsx:201-213 | learning starts exactly when the event has both a method and content, navigating to "/" + the method with exactly that content |
| LearningContent.RoutesDistinct | src/components/schedule/LearningSchedule.tsx:208 | the four method routes differ, so the route determines the method |
| LearningSchedule.BlankNewEvent | src/components/schedule/LearningSchedule.tsx:227-239 | the reset form is 09:00 to 10:00, flashcards, no content, not completed, with empty title, description and course |
| LearningSchedule.Submission | src/components/schedule/LearningSchedule.tsx:180-191 | the emitted session copies the form's fields, has completed = false whatever the form says, and an undefined course exactly when the course id is empty |
| LearningSchedule.SubmissionIgnoresCompleted | src/components/schedule/LearningSchedule.tsx:188 | the form's own completion flag never reaches the emitted session |
| LearningSchedule.Toggled | src/components/schedule/LearningSchedule.tsx:215-218 | the same session with only `completed` negated |
| LearningSchedule.ToggleTwice | src/components/schedule/LearningSchedule.tsx:215-218 | toggling twice gives back the original session |
| LearningSchedule.CurrentDayEvents | src/components/schedule/LearningSchedule.tsx:241-250 | with no selected date the list is empty; otherwise it is the day filter on (year, month, day), in input order |
| LearningSchedule.Planner.constructor | src/components/schedule/LearningSchedule.tsx:158-174 | today is selected, no session is selected and the form is the blank one |
| LearningSchedule.Planner.SelectDate | src/components/schedule/LearningSchedule.tsx:176-178 | the selected date becomes the picked one, possibly none |
| LearningSchedule.Planner.EditTitle | src/components/schedule/LearningSchedule.tsx:408-409 | only the form's title changes |
| LearningSchedule.Planner.EditCourse | src/components/schedule/LearningSchedule.tsx:441-442 | only the form's course changes |
| LearningSchedule.Planner.EditTimes | src/components/schedule/LearningSchedule.tsx:466-482 | only the form's start and end times change, to the raw input values |
| LearningSchedule.Planner.ChangeNewEventMethod | src/components/schedule/LearningSchedule.tsx:495-555 | the form gets the method and that method's stub content, titled after the form |
| LearningSchedule.Planner.ChangeSelectedMethod | src/components/schedule/LearningSchedule.tsx:672-680 | the selected session changes only its method, and its content stays untouched |
| LearningSchedule.Planner.AddEvent | src/components/schedule/LearningSchedule.tsx:596-602 | with an empty title the disabled button does nothing; otherwise the submission is emitted and the form reset, so no emitted session is untitled or completed |
| LearningSchedule.Planner.CancelAdd | src/components/schedule/LearningSchedule.tsx:588-591 | the form is reset to the blank one |
| LearningSchedule.Planner.EventClick | src/components/schedule/LearningSchedule.tsx:196-199 | the clicked session becomes the selection |
| LearningSchedule.Planner.ToggleComplete | src/components/schedule/LearningSchedule.tsx:215-218 | the session handed to the update callback is the toggled one |
| LearningSchedule.Planner.DeleteEvent | src/components/schedule/LearningSchedule.tsx:220-225 | an id is handed over exactly when a session is selected, and it is that session's id |
| LearningSchedule.Planner.StartLearning | src/components/schedule/LearningSchedule.tsx:201-213 | the handoff is the start rule's for the selected session, and none without a selection |
| LearningSchedule.AddedAfterMethodChoiceCanStart | src/components/schedule/LearningSchedule.tsx:180-213 | a titled session added after a method choice carries content that fits the method, titled after the form, and can start learning on the method's route |
| FlashcardView.Advance | src/components/flashcards/FlashcardView.tsx:94-100 | the index moves up by exactly one while a card is shown and stays at n once past the end, so it never exceeds n |
| FlashcardView.Retreat | src/components/flashcards/FlashcardView.tsx:102-106 | the index moves down by one only when it is above 0 |
| FlashcardView.RetreatAfterAdvance | src/components/flashcards/FlashcardView.tsx:94-106 | Previous after Next returns to the card that was shown |
| FlashcardView.ShownPosition | src/components/flashcards/FlashcardView.tsx:160-162 | the counter shows index + 1 while a card is shown and n afterwards, always within 1..n for a non-empty deck |
| FlashcardView.CounterLabelDistinct | src/components/flashcards/FlashcardView.tsx:160-162 | two different shown cards get different "k/n cards" labels |
| FlashcardView.FlashcardSession.constructor | src/components/flashcards/FlashcardView.tsx:61-68 | the session starts at the first card with both lists empty, not playing and no dialog |
| FlashcardView.FlashcardSession.Next | src/components/flashcards/FlashcardView.tsx:94-100 | the index follows the Next rule and nothing else changes |
| FlashcardView.FlashcardSession.Previous | src/components/flashcards/FlashcardView.tsx:102-106 | the index follows the Previous rule and nothing else changes |
| FlashcardView.FlashcardSession.MarkLearned | src/components/flashcards/FlashcardView.tsx:108-113 | the current card's id is appended to the known list and the index advances; past the end nothing changes |
| FlashcardView.FlashcardSession.MarkReview | src/components/flashcards/FlashcardView.tsx:115-120 | the current card's id is appended to the review list and the index advances; past the end nothing changes |
| FlashcardView.FlashcardSession.Reset | src/components/flashcards/FlashcardView.tsx:122-127 | index 0, both lists empty and autoplay stopped |
| FlashcardView.FlashcardSession.TogglePlay | src/components/flashcards/FlashcardView.tsx:129-131 | only the playing flag flips |
| FlashcardView.FlashcardSession.CheckCompletion | src/components/flashcards/FlashcardView.tsx:88-92 | completion fires exactly when the index has reached n > 0, stopping autoplay, opening the dialog and reporting both lists and total n |
| FlashcardView.FlashcardSession.CloseCompletionDialog | src/components/flashcards/FlashcardView.tsx:144-147 | the dialog closes and the session is reset |
| QuizPage.CountCorrect | src/components/quizzes/QuizPage.tsx:72-77 | the count over the first k answers is at most k |
| QuizPage.Score | src/components/quizzes/QuizPage.tsx:71-78 | the score lies between 0 and the number of questions |
| QuizPage.FullScoreIffAllCorrect | src/components/quizzes/QuizPage.tsx:72-77 | the score equals the number of questions exactly when every recorded answer is the right index |
| QuizPage.UnansweredScoresNothing | src/components/quizzes/QuizPage.tsx:72-77 | slots still null never score |
| QuizPage.QuizSession.constructor | src/components/quizzes/QuizPage.tsx:40-44 | the answers start as one null per question, at the first question with nothing selected |
| QuizPage.QuizSession.SelectAnswer | src/components/quizzes/QuizPage.tsx:55-57 | only the selection changes |
| QuizPage.QuizSession.NextQuestion | src/components/quizzes/QuizPage.tsx:59-82 | no-op without a selection; otherwise the selection is written at the current index only, then the index advances by one with the selection cleared, or on the last question the score of all slots is counted by the loop and the results are shown |
| QuizPage.QuizSession.Complete | src/components/quizzes/QuizPage.tsx:84-95 | the report carries the score and the number of questions |
| GamePage.Start | src/components/gamification/GamePage.tsx:43-50 | every challenge starts uncompleted with its own name and description, at level 0 with no points |
| GamePage.StartConsistent | src/components/gamification/GamePage.tsx:34-50 | the opening state keeps the invariant: points are 50 per completed challenge, no repeats, flags agree with the list, level in range |
| GamePage.LevelAfter | src/components/gamification/GamePage.tsx:77-84 | the level rises by one exactly when a next level exists and the new points reach its threshold, else it stays |
| GamePage.LevelAfterMonotone | src/components/gamification/GamePage.tsx:77-84 | more points never give a lower level |
| GamePage.CompleteChallenge | src/components/gamification/GamePage.tsx:61-86 | a completed challenge changes nothing; otherwise it is appended, only its flag is set, 50 points are added and the level is re-evaluated once |
| GamePage.CompleteConsistent | src/components/gamification/GamePage.tsx:61-86 | completion preserves the invariant, so points = 50 times the completed count and the list has no duplicates |
| GamePage.CompleteIdempotent | src/components/gamification/GamePage.tsx:62 | completing the same challenge twice is the same as once |
| GamePage.CompleteLevel | src/components/gamification/GamePage.tsx:78-84 | the level never falls and rises by at most one per completion |
| GamePage.LevelName | src/components/gamification/GamePage.tsx:96 | the report uses the current level's name, or "Beginner" when it is absent or empty |
| GamePage.GameSession.constructor | src/components/gamification/GamePage.tsx:34-50 | the session starts in the opening state and keeps the invariant |
| GamePage.GameSession.CompleteChallengeAt | src/components/gamification/GamePage.tsx:61-86 | the new state is the completion rule applied to the old one, and the invariant is kept |
| GamePage.GameSession.Finish | src/components/gamification/GamePage.tsx:88-100 | the report carries the points, the level's name and the completed count |
| Text.ExtensionOf | src/components/create/CreateFlashcardsQuizzes.tsx:74 | `split(".").pop()` lower-cased is the lower-cased text after the last dot |
| CreateFlashcardsQuizzes.WithSide | src/components/create/CreateFlashcardsQuizzes.tsx:114-115 | only the named side of the card changes |
| CreateFlashcardsQuizzes.AcceptedExtensions | src/components/create/CreateFlashcardsQuizzes.tsx:74-79 | a file is accepted exactly when the text after its last dot is "csv" or "txt" in any case |
| CreateFlashcardsQuizzes.NoDotNoExtension | src/components/create/CreateFlashcardsQuizzes.tsx:74 | a name without a dot is its own extension |
| CreateFlashcardsQuizzes.SkipSpaces | src/components/create/CreateFlashcardsQuizzes.tsx:172 | `\s*` consumes exactly the maximal run of spaces |
| CreateFlashcardsQuizzes.LastBackFollows | src/components/create/CreateFlashcardsQuizzes.tsx:172 | the greedy `[^,]+` backtracks to the largest end after which `,?\s*Back:` matches |
| CreateFlashcardsQuizzes.FrontCaptureShape | src/components/create/CreateFlashcardsQuizzes.tsx:172 | the front group found at a "Front:" is non-empty and holds no comma |
| CreateFlashcardsQuizzes.FrontFrom | src/components/create/CreateFlashcardsQuizzes.tsx:172 | the leftmost front group is non-empty and holds no comma |
| CreateFlashcardsQuizzes.BackCaptureAt | src/components/create/CreateFlashcardsQuizzes.tsx:173 | the back group found at a "Back:" is non-empty and on one line |
| CreateFlashcardsQuizzes.BackFrom | src/components/create/CreateFlashcardsQuizzes.tsx:173 | the leftmost back group is non-empty and on one line |
| CreateFlashcardsQuizzes.ParseTranscription | src/components/create/CreateFlashcardsQuizzes.tsx:172-179 | a card results exactly when both patterns match, and it is the two groups trimmed |
| CreateFlashcardsQuizzes.ParseFormatted | src/components/create/CreateFlashcardsQuizzes.tsx:171-179 | "Front: x, Back: y" parses to the card (trimmed x, trimmed y) when x has no comma or colon, y is on one line and neither is blank |
| CreateFlashcardsQuizzes.NoFrontNoCard | src/components/create/CreateFlashcardsQuizzes.tsx:172-175 | a text without "Front:" in any case has no front match, so no card |
| CreateFlashcardsQuizzes.ParseSpaced | src/components/create/CreateFlashcardsQuizzes.tsx:171-179 | "Front: x Back: y" without the comma also parses to (trimmed x, trimmed y) when x has no comma or colon and y has no colon, is on one line and is not blank |
| CreateFlashcardsQuizzes.SampleTranscriptionCard | src/components/create/CreateFlashcardsQuizzes.tsx:61 | the text the recognizer delivers parses to the card "What is the capital of France?" / "Paris" |
| CreateFlashcardsQuizzes.Editor.constructor | src/components/create/CreateFlashcardsQuizzes.tsx:41-52 | the whole opening state: one blank card, one blank quiz item with four options, nothing recorded, uploaded or processing, no error |
| CreateFlashcardsQuizzes.Editor.AddFlashcard | src/components/create/CreateFlashcardsQuizzes.tsx:104-106 | one empty card is appended; every other state variable is unchanged |
| CreateFlashcardsQuizzes.Editor.UpdateFlashcard | src/components/create/CreateFlashcardsQuizzes.tsx:109-117 | only the named side of the named card changes; every other card and state variable is unchanged |
| CreateFlashcardsQuizzes.Editor.RemoveFlashcard | src/components/create/CreateFlashcardsQuizzes.tsx:120-126 | the card at the index is removed only when more than one is left, so the list never becomes empty; nothing else changes |
| CreateFlashcardsQuizzes.Editor.AddQuizItem | src/components/create/CreateFlashcardsQuizzes.tsx:129-134 | an item with four empty options and answer 0 is appended; nothing else changes |
| CreateFlashcardsQuizzes.Editor.UpdateQuestion | src/components/create/CreateFlashcardsQuizzes.tsx:137-145 | only the question text of the named item changes; nothing else changes |
| CreateFlashcardsQuizzes.Editor.UpdateCorrectAnswer | src/components/create/CreateFlashcardsQuizzes.tsx:419-425 | only the named item's answer changes, to one of its option indexes; nothing else changes |
| CreateFlashcardsQuizzes.Editor.UpdateQuizOption | src/components/create/CreateFlashcardsQuizzes.tsx:148-156 | exactly one option of one item changes, every item keeps four options, and nothing else changes |
| CreateFlashcardsQuizzes.Editor.RemoveQuizItem | src/components/create/CreateFlashcardsQuizzes.tsx:159-165 | the item at the index is removed only when more than one is left; nothing else changes |
| CreateFlashcardsQuizzes.Editor.ToggleRecording | src/components/create/CreateFlashcardsQuizzes.tsx:56-67 | recording flips; starting clears the transcription, stopping delivers the sample transcription; nothing else changes |
| CreateFlashcardsQuizzes.Editor.ClearTranscription | src/components/create/CreateFlashcardsQuizzes.tsx:571 | only the transcription is cleared |
| CreateFlashcardsQuizzes.Editor.ProcessTranscribedText | src/components/create/CreateFlashcardsQuizzes.tsx:168-186 | empty text changes nothing; a parsed card is appended and the text cleared; otherwise only the parse error is set |
| CreateFlashcardsQuizzes.Editor.HandleFileUpload | src/components/create/CreateFlashcardsQuizzes.tsx:70-84 | the error is cleared; a first file with another extension sets the upload error and stores nothing; an accepted one is stored and processed to 100%; nothing else changes |
| CreateFlashcardsQuizzes.Editor.RemoveUploadedFile | src/components/create/CreateFlashcardsQuizzes.tsx:514 | only the stored file is removed |
| CreateFlashcardsQuizzes.Editor.SimulateProcessing | src/components/create/CreateFlashcardsQuizzes.tsx:87-101 | the tick loop ends with processing off at 100%; nothing else changes |
| CreateFlashcardsQuizzes.Editor.SaveContent | src/components/create/CreateFlashcardsQuizzes.tsx:189-207 | after the same ticks the page returns to "/"; nothing else changes |
| Sorting.SortBy | src/components/recommendations/NextLearningContent.tsx:169-180 | the sort's result is ordered by the comparator's key and is a permutation of its input |
| Sorting.InsertSorted | src/components/recommendations/NextLearningContent.tsx:169-180 | inserting into an ordered list keeps it ordered |
| Sorting.SortByIdentity | src/components/recommendations/NextLearningContent.tsx:169-180 | a list already in key order is left exactly as it is |
| Sorting.InsertWithKey | src/components/recommendations/NextLearningContent.tsx:169-180 | inserting an element puts it in front of the elements of its own key and leaves the elements of every other key as they were |
| Sorting.SortByStable | src/components/recommendations/NextLearningContent.tsx:169-180 | the sort is stable: for every key, the elements with that key come out in their input order |
| Sorting.SortByStableFor | src/components/recommendations/NextLearningContent.tsx:169-180 | the same stability for any test that picks out exactly the elements of one key |
| Sorting.ConstantKeyIdentity | src/components/recommendations/NextLearningContent.tsx:179 | a comparator that answers 0 for every pair leaves the order unchanged |
| NextLearningContent.TabCases | src/components/recommendations/NextLearningContent.tsx:151-157 | "all" keeps every type; "quizzes" keeps types "quiz" and "quizzes"; any other tab keeps exactly the items of that type |
| NextLearningContent.StyleCases | src/components/recommendations/NextLearningContent.tsx:160-165 | "all" keeps everything; otherwise exactly the items matched to that style are kept |
| NextLearningContent.FilteredRecommendations | src/components/recommendations/NextLearningContent.tsx:148-180 | the result is a permutation of the items passing both filters, sorted by the chosen key |
| NextLearningContent.FilteredMembers | src/components/recommendations/NextLearningContent.tsx:148-180 | every listed item is an input item passing both filters, and every passing item is listed |
| NextLearningContent.FilteredCount | src/components/recommendations/NextLearningContent.tsx:148-180 | each passing item occurs as often as in the input, any other never |
| NextLearningContent.DescendingSorts | src/components/recommendations/NextLearningContent.tsx:170-172 | relevance, popularity and completion sorts give non-increasing order on that key |
| NextLearningContent.TimeSorts | src/components/recommendations/NextLearningContent.tsx:173-178 | time-asc and time-desc order by the integer prefix of the estimated time |
| NextLearningContent.HoursOfNumeral | src/components/recommendations/NextLearningContent.tsx:174 | "2.5 hours" and the like count as their whole-number prefix |
| NextLearningContent.EqualRelevanceKeepsOrder | src/components/recommendations/NextLearningContent.tsx:169-170 | under "relevance" the items of equal relevance keep the order they have among the filtered items |
| NextLearningContent.UnknownSortKeepsOrder | src/components/recommendations/NextLearningContent.tsx:179 | an unknown sort order keeps the filtered items in input order |
| NextLearningContent.ResetFilters | src/components/recommendations/NextLearningContent.tsx:390-393 | tab and style filter go back to "all" and the sort order is kept |
| NextLearningContent.ResetShowsEverything | src/components/recommendations/NextLearningContent.tsx:390-393 | after a reset every recommendation is listed again, as often as in the input |
| Text.Lower | src/components/dashboard/ContentLibrary.tsx:112 | `toLowerCase` keeps the length and lower-cases each ASCII letter |
| ContentLibrary.SearchCases | src/components/dashboard/ContentLibrary.tsx:110-115 | an empty query keeps every set; otherwise exactly the titles containing the query, ignoring case |
| ContentLibrary.TabCases | src/components/dashboard/ContentLibrary.tsx:118-125 | "all" keeps any set; "flashcards" and "notes" keep an equal type; "quizzes" keeps type "quiz"; any other tab keeps nothing |
| ContentLibrary.FilteredContent | src/components/dashboard/ContentLibrary.tsx:107-152 | the result is a permutation of the sets passing search and tab, sorted by the comparator's key |
| ContentLibrary.FilteredMembers | src/components/dashboard/ContentLibrary.tsx:107-126 | every listed set passes search and tab, and every passing set is listed |
| ContentLibrary.DateSorts | src/components/dashboard/ContentLibrary.tsx:129-136 | "newest" gives non-increasing and "oldest" non-decreasing creation dates |
| ContentLibrary.TitleSorts | src/components/dashboard/ContentLibrary.tsx:137-140 | the title sorts follow the collation order, ascending or descending |
| ContentLibrary.RecentlyStudiedSort | src/components/dashboard/ContentLibrary.tsx:141-149 | every set without `lastStudied` comes after every set with one, and those are ordered by it |
| ContentLibrary.UnstudiedKeepOrder | src/components/dashboard/ContentLibrary.tsx:141-149 | the comparator ties every pair of unstudied sets, so they keep the order they have among the filtered sets |
| ContentLibrary.UnknownSortKeepsOrder | src/components/dashboard/ContentLibrary.tsx:151 | an unknown sort order keeps the filtered sets in input order |
| ContentLibrary.NoFilterListsEverything | src/components/dashboard/ContentLibrary.tsx:107-126 | with no query and the "all" tab every set is listed, as often as it is stored |
| ImportPanel.Rejection | src/components/dashboard/ImportPanel.tsx:56-72 | an unsupported dotted extension is reported first, then a size over `maxFileSize` MB; a file is refused exactly when it is not accepted |
| ImportPanel.Check | src/components/dashboard/ImportPanel.tsx:51-78 | the per-file check gives each file its rejection |
| ImportPanel.Kept | src/components/dashboard/ImportPanel.tsx:54-75 | the loop keeps only items the check lets through, every such item, and no more than it was given |
| ImportPanel.LastRefusal | src/components/dashboard/ImportPanel.tsx:53-70 | the error is left empty exactly when no item is refused |
| ImportPanel.LastRefusalIsLast | src/components/dashboard/ImportPanel.tsx:53-70 | a left error is the refusal of a refused item after which every item passes (later errors overwrite earlier ones) |
| ImportPanel.KeptAll | src/components/dashboard/ImportPanel.tsx:54-75 | when nothing is refused the kept list is the input |
| ImportPanel.KeptCount | src/components/dashboard/ImportPanel.tsx:54-75 | each item is kept as often as it occurs if it passes, and never otherwise |
| ImportPanel.ValidFiles | src/components/dashboard/ImportPanel.tsx:51-78 | the returned files are accepted files of the input, and every accepted file is returned |
| ImportPanel.LastError | src/components/dashboard/ImportPanel.tsx:53-70 | no error is left exactly when every file is accepted |
| ImportPanel.LastErrorIsLastRefusal | src/components/dashboard/ImportPanel.tsx:53-70 | a left error is the message of the last refused file |
| ImportPanel.AllKeptIffNoError | src/components/dashboard/ImportPanel.tsx:51-78 | every file is kept if and only if no error is left |
| ImportPanel.ValidFilesCount | src/components/dashboard/ImportPanel.tsx:51-78 | an accepted file is kept as often as it was given, a refused one never |
| ImportPanel.DefaultDotted | src/components/dashboard/ImportPanel.tsx:32 | a dotted extension is a default type exactly when it is one of txt, pdf, docx, mp3, mp4 |
| ImportPanel.DefaultAccepts | src/components/dashboard/ImportPanel.tsx:32-33 | with the defaults, "stem.ext" is accepted iff the lower-cased `ext` is one of the five and the size is at most 50 MB |
| ImportPanel.IconIgnoresStemAndCase | src/components/dashboard/ImportPanel.tsx:133-157 | the icon of "stem.ext" depends only on the lower-cased `ext` |
| ImportPanel.DefaultTypesHaveIcons | src/components/dashboard/ImportPanel.tsx:133-157 | each default type gets a specific icon: text for txt, pdf and docx, audio for mp3, video for mp4 |
| ImportPanel.Panel.constructor | src/components/dashboard/ImportPanel.tsx:27-39 | the panel starts with no files, empty text and no error, and keeps the given settings |
| ImportPanel.Panel.ValidateFiles | src/components/dashboard/ImportPanel.tsx:51-78 | the loop returns `ValidFiles` and leaves `LastError` as the error, touching nothing else |
| ImportPanel.Panel.HandleFiles | src/components/dashboard/ImportPanel.tsx:80-112 | an empty drop changes nothing; otherwise the error is the last refusal, and a non-empty valid list becomes the selection and is reported |
| ImportPanel.Panel.HandleTextImport | src/components/dashboard/ImportPanel.tsx:114-121 | non-blank text is reported as typed and the box cleared; blank text sets the empty-text error |
| ImportPanel.Panel.HandleRemoveFile | src/components/dashboard/ImportPanel.tsx:123-131 | the selection loses exactly the file at `index` and the new selection is reported |
| ImportDialog.TextStepValid | src/components/import/ImportDialog.tsx:111-118 | on step 1 with the text method, Continue is valid exactly when the text has a character that is not white space |
| ImportDialog.DefaultTitle | src/components/import/ImportDialog.tsx:364-368 | without files the title is "New Learning Content"; with files it is the dot-free prefix of the first file's name, ending at its first dot |
| ImportDialog.DefaultTitleNoDot | src/components/import/ImportDialog.tsx:364-368 | a first file name without a dot is its own default title |
| ImportDialog.Dialog.constructor | src/components/import/ImportDialog.tsx:40-51 | the dialog starts on step 1 with the file method, no files, empty text, progress 0 and "flashcards" chosen |
| ImportDialog.Dialog.ChooseFiles | src/components/import/ImportDialog.tsx:58-73 | a non-empty drop or choice replaces the files; an empty one changes nothing |
| ImportDialog.Dialog.ChangeImportMethod | src/components/import/ImportDialog.tsx:124-130 | picking one of the three tabs on step 1 changes the method and nothing else |
| ImportDialog.Dialog.ChangeText | src/components/import/ImportDialog.tsx:75-77 | typing on step 1 replaces the text and nothing else |
| ImportDialog.Dialog.ChooseMethod | src/components/import/ImportDialog.tsx:280-285 | clicking one of the suggested methods on step 2 chooses it and changes nothing else |
| ImportDialog.Dialog.Continue | src/components/import/ImportDialog.tsx:79-118 | when the step is not valid (the button is disabled) nothing changes; otherwise step 1 ticks the progress up to 100 and moves to step 2, step 2 moves to step 3, and step 3 hands over the chosen method with the text or the files and resets step, files, text and progress; what is handed over is one of the suggested methods with a non-empty file list or a text that is not all white space |
| ImportDialog.Dialog.Back | src/components/import/ImportDialog.tsx:436-444 | one step back past step 1, nothing else changed |
| EmailRule.MatchesHasShape | src/components/auth/RegistrationPage.tsx:62 | every split the regular expression accepts has no white space, one '@' with text before it, and a '.' with text on both sides after it |
| EmailRule.ShapeMatches | src/components/auth/RegistrationPage.tsx:62 | every address of that shape is matched by the regular expression |
| EmailRule.EmailMatchesIffShape | src/components/auth/RegistrationPage.tsx:62 | the regular expression accepts exactly the addresses of the described shape |
| EmailRule.EmailErrorCases | src/components/auth/RegistrationPage.tsx:61-73 | an empty address is "required", another address without the shape is "invalid", and an address passes exactly when it has the shape |
| Registration.LookaheadInPassword | src/components/auth/RegistrationPage.tsx:77 | over allowed characters each look-ahead finds a character of its class exactly when one occurs |
| Registration.PasswordMatchesIffStrong | src/components/auth/RegistrationPage.tsx:76-77 | the regular expression accepts exactly the passwords of eight or more allowed characters with a lower-case letter, an upper-case letter, a digit and one of @$!%*?& |
| Registration.NameErrorCases | src/components/auth/RegistrationPage.tsx:48-59 | a blank name is "required", a one-character trimmed name is "too short", and a name passes exactly when it has two or more characters once trimmed |
| Registration.PasswordErrorCases | src/components/auth/RegistrationPage.tsx:75-90 | an empty password is "required", another weak one is "weak", and a password passes exactly when it is strong |
| Registration.ConfirmError | src/components/auth/RegistrationPage.tsx:92-103 | an empty confirmation is "required", a different one "do not match", and it passes exactly when it equals the password |
| Registration.TermsError | src/components/auth/RegistrationPage.tsx:105-113 | the terms pass exactly when they are agreed to |
| Registration.CaptchaError | src/components/auth/RegistrationPage.tsx:115-123 | the captcha passes exactly when it is verified |
| Registration.ConfirmAfterPasswordEdit | src/components/auth/RegistrationPage.tsx:137-144 | after a password edit an empty confirmation keeps its message, and a non-empty one passes exactly when it equals the new password |
| Registration.StaleConfirmCheck | src/components/auth/RegistrationPage.tsx:137-144 | as written, editing "Secret1!" to "Secret1!x" with confirmation "Secret1!" clears the mismatch message, while the intended check reports it |
| Registration.AllValidMeans | src/components/auth/RegistrationPage.tsx:172-189 | the form passes exactly when the trimmed name has at least two characters, the address and password have their shapes, the confirmation equals the password, and terms and captcha are set |
| Registration.CheckedPasses | src/components/auth/RegistrationPage.tsx:172-178 | after the six checks every message is empty exactly when the form passes |
| Registration.CheckedIdempotent | src/components/auth/RegistrationPage.tsx:172-178 | running the checks twice shows the same messages as running them once |
| Registration.Form.constructor | src/components/auth/RegistrationPage.tsx:28-46 | the form starts empty with role "student", nothing agreed or verified, and no messages |
| Registration.Form.ChangeName | src/components/auth/RegistrationPage.tsx:125-129 | the name takes the value and its message is refreshed; nothing else changes |
| Registration.Form.ChangeEmail | src/components/auth/RegistrationPage.tsx:131-135 | the address takes the value and its message is refreshed; nothing else changes |
| Registration.Form.ChangePassword | src/components/auth/RegistrationPage.tsx:137-144 | the password and its message are refreshed, and the confirmation message follows the intended re-check against the new password |
| Registration.Form.ChangeConfirmPassword | src/components/auth/RegistrationPage.tsx:146-152 | the confirmation takes the value and is checked against the current password |
| Registration.Form.ChangeRole | src/components/auth/RegistrationPage.tsx:154-156 | only the role changes |
| Registration.Form.ChangeTerms | src/components/auth/RegistrationPage.tsx:158-161 | the terms box and its message are refreshed |
| Registration.Form.SolveCaptcha | src/components/auth/RegistrationPage.tsx:164-167 | the captcha counts as verified and its message goes |
| Registration.Form.Submit | src/components/auth/RegistrationPage.tsx:169-200 | all six messages are refreshed; credentials are sent, with the error cleared, exactly when every field passes |
| Registration.Form.Answer | src/components/auth/RegistrationPage.tsx:202-214 | success goes to /login; a refusal shows its message or the stock one; a crash shows the unexpected-error message |
| Login.PasswordError | src/components/auth/LoginPage.tsx:45-56 | an empty password is "required", a shorter one "too short", and a password passes exactly when it has at least eight characters |
| Login.RegistrationPasswordLogsIn | src/components/auth/LoginPage.tsx:45-56 | every password the registration form accepts passes the login check |
| Login.LoginRuleIsWeaker | src/components/auth/LoginPage.tsx:45-56 | the converse fails: "abcdefgh" logs in but does not register |
| Login.RoleRedirect | src/components/auth/LoginPage.tsx:89-101 | each of student, instructor and admin goes to its own dashboard, and exactly the other roles go to /home |
| Login.Form.constructor | src/components/auth/LoginPage.tsx:21-29 | the form starts empty, not remembered, not loading and without messages |
| Login.Form.ChangeEmail | src/components/auth/LoginPage.tsx:58-62 | the address takes the value and its message is refreshed |
| Login.Form.ChangePassword | src/components/auth/LoginPage.tsx:64-68 | the password takes the value and its message is refreshed |
| Login.Form.ChangeRememberMe | src/components/auth/LoginPage.tsx:23 | only the remember-me flag changes |
| Login.Form.Submit | src/components/auth/LoginPage.tsx:70-85 | both messages are refreshed; loading starts, the error clears and the credentials go out exactly when the address has the e-mail shape and the password has eight characters |
| Login.Form.Answer | src/components/auth/LoginPage.tsx:84-109 | success with a user redirects by role; another answer shows its message or the stock one; a crash shows the unexpected-error message; loading ends in every case |
| Login.Form.SocialLogin | src/components/auth/LoginPage.tsx:112-123 | loading starts with the error cleared; a started redirect keeps the page loading, and a refused provider login shows "Failed to login with <provider>" and ends loading (the corrected handling of the finding below) |
| Login.SocialLoginOutcome | src/components/auth/LoginPage.tsx:112-123 | nothing but loading and the error change; loading stays on exactly when the redirect starts; a refusal shows the provider's failure message |
| Login.SocialLoginStuckAsWritten | src/components/auth/LoginPage.tsx:112-121 | as written, a refused provider login leaves the page loading with no message |
| Login.SocialLoginAgreesOnStart | src/components/auth/LoginPage.tsx:112-121 | the corrected handling and the code as written agree whenever the redirect starts |
| AppRoutes.RequiredRole | src/App.tsx:106-129 | exactly the three dashboards are guarded, each by its own role |
| AppRoutes.GuardLoopsAsWritten | src/App.tsx:58-69 | as written, a "guest" user refused by the admin dashboard is sent to the admin dashboard again |
| AppRoutes.Guard | src/App.tsx:46-72 | loading shows the placeholder; no user goes to /login; a signed-in user sees the page exactly when the route asks for no role or for theirs; a refused user goes to the page login sends that role to |
| AppRoutes.SameTableAsLogin | src/App.tsx:60-66 | for the three roles the guard's table and the login page's table agree |
| AppRoutes.NoRedirectLoop | src/App.tsx:46-72 | every redirect of a signed-in user lands on a page that renders for that user |
| AppRoutes.LoginLandsOnOpenPage | src/App.tsx:106-129 | the page login sends a user to lets that user in |
| AppRoutes.ProtectedRoute.constructor | src/App.tsx:34-35 | a guarded route starts without a user and loading, so it shows the placeholder |
| AppRoutes.ProtectedRoute.CheckAuth | src/App.tsx:37-44 | the looked-up user is stored and loading ends, so the placeholder goes; no user means a redirect to /login |
| HomeWorkflow.ImportedOf | src/components/home.tsx:114-122 | an absent or empty title becomes "Imported Content" and an absent or empty method becomes "content"; present values are kept |
| HomeWorkflow.DialogImportTitle | src/components/home.tsx:114-122 | an import through the dialog, which reports no title, is always titled "Imported Content" and typed by its method |
| HomeWorkflow.FileTitle | src/components/home.tsx:135-138 | the title is the first file's name before its first dot, or "Imported Content" when there is no file or that prefix is empty |
| HomeWorkflow.FileTitleNoDot | src/components/home.tsx:135-138 | a non-empty first file name without a dot is the title |
| HomeWorkflow.RouteOfKind | src/components/home.tsx:190-201 | exactly the four generated kinds open a study page: /flashcards, /quizzes, /game and /chat |
| HomeWorkflow.GeneratedRouteAgreesWithSchedule | src/components/home.tsx:186-202 | generated material opens the same study page as starting that method from a schedule event |
| HomeWorkflow.ResetOf | src/components/home.tsx:213-219 | the workflow returns to the import step with imported content, method, generated content and schedule cleared, nothing else changed |
| HomeWorkflow.Home.constructor | src/components/home.tsx:27-92 | the page starts on the import step with nothing open, selected or processing |
| HomeWorkflow.Home.CreateContent | src/components/home.tsx:96-98 | only the import dialog opens |
| HomeWorkflow.Home.StudyContent | src/components/home.tsx:104-107 | the set is recorded and studying starts |
| HomeWorkflow.Home.BackFromStudy | src/components/home.tsx:109-112 | studying ends and the set is cleared |
| HomeWorkflow.Home.ImportComplete | src/components/home.tsx:114-122 | the defaulted content is recorded, the suggestion step shows and the dialog closes |
| HomeWorkflow.Home.ProcessImport | src/components/home.tsx:124-170 | the ticks run until one finds 100; then progress is back at 0, the content is recorded and the suggestion step shows |
| HomeWorkflow.Home.FileSelect | src/components/home.tsx:124-146 | a file import records a "document" titled by `FileTitle` and shows the suggestion step |
| HomeWorkflow.Home.TextImport | src/components/home.tsx:148-170 | a text import records "Text Content" of type "text", whatever the text, and shows the suggestion step |
| HomeWorkflow.Home.MethodSelect | src/components/home.tsx:172-174 | only the selected method changes |
| HomeWorkflow.Home.ContinueToGeneration | src/components/home.tsx:176-180 | the generation step shows only when a method is selected; otherwise nothing changes |
| HomeWorkflow.Home.BackToSuggestion | src/components/home.tsx:182-184 | only the step changes, back to suggestion |
| HomeWorkflow.Home.ContentGenerated | src/components/home.tsx:186-202 | the material is kept; a known kind navigates to its page with the material, any other kind goes on to scheduling |
| HomeWorkflow.Home.BackToGeneration | src/components/home.tsx:204-206 | only the step changes, back to generation |
| HomeWorkflow.Home.ScheduleComplete | src/components/home.tsx:208-211 | the schedule is kept and the complete step shows |
| HomeWorkflow.Home.Reset | src/components/home.tsx:274-280 | the Done button, like the timer, gives `ResetOf` of the state |
| HomeWorkflow.Home.ShowDashboard | src/components/home.tsx:335-336 | the schedule view closes and the import step shows; no workflow data is cleared |
| HomeWorkflow.Home.ShowScheduleView | src/components/home.tsx:268 | only the schedule view opens |
| ContentGeneration.Payload | src/components/dashboard/ContentGeneration.tsx:135-235 | a payload exists exactly for the four known method ids; it carries that id, the form fields, `parseInt` of the minutes and canned material of that method under the form's title |
| ContentGeneration.SampleQuizWellAnswered | src/components/dashboard/ContentGeneration.tsx:162-192 | the canned quiz has three questions of four options each, every answer index pointing at one of them |
| ContentGeneration.StageBefore | src/components/dashboard/ContentGeneration.tsx:101-129 | the loading stage is always one of 0 to 3 |
| ContentGeneration.StagesInOrder | src/components/dashboard/ContentGeneration.tsx:99-129 | rising progress never lowers the loading stage |
| ContentGeneration.Generator.constructor | src/components/dashboard/ContentGeneration.tsx:34-48 | the form starts with the given title or "Your Content", an empty description, "medium", "15" minutes and no progress |
| ContentGeneration.Generator.Edit | src/components/dashboard/ContentGeneration.tsx:45-48 | the four form fields take the new values and the progress is untouched |
| ContentGeneration.Generator.Generate | src/components/dashboard/ContentGeneration.tsx:90-243 | the ticks run until one finds 100, which hands on `Payload` of the form; from a fresh start the last stage is 3, on a repeat run it stays 0 |
| OnboardingFlow.Updated | src/components/onboarding/OnboardingFlow.tsx:56-58 | the named field takes the value and every other field is kept |
| OnboardingFlow.UpdatesCommute | src/components/onboarding/OnboardingFlow.tsx:56-58 | updates of different fields commute, and a later update of the same field wins |
| OnboardingFlow.Toggle | src/components/onboarding/steps/LearningStyleStep.tsx:79-88 | checking appends the id; unchecking leaves exactly the other ids |
| OnboardingFlow.UncheckKeepsOrder | src/components/onboarding/steps/LearningStyleStep.tsx:84-86 | unchecking works piecewise over a split list, so the remaining ids keep their order |
| OnboardingFlow.UncheckAbsent | src/components/onboarding/steps/LearningStyleStep.tsx:84-86 | unchecking an id that is not in the list changes nothing |
| OnboardingFlow.CheckThenUncheck | src/components/onboarding/steps/LearningStyleStep.tsx:79-88 | checking and then unchecking a new id gives the list back |
| OnboardingFlow.Progress | src/components/onboarding/OnboardingFlow.tsx:75 | the bar shows 0 on the first step and 100 on the last |
| OnboardingFlow.ProgressIncreases | src/components/onboarding/OnboardingFlow.tsx:75 | each later step shows strictly more progress |
| OnboardingFlow.Flow.constructor | src/components/onboarding/OnboardingFlow.tsx:33-42 | the wizard starts on step 0 with an empty record |
| OnboardingFlow.Flow.UpdateData | src/components/onboarding/OnboardingFlow.tsx:56-58 | the record becomes `Updated` of the old one and the step stays |
| OnboardingFlow.Flow.Next | src/components/onboarding/OnboardingFlow.tsx:60-66 | below the last step the step advances; on the last step the record is handed over and the step stays |
| OnboardingFlow.Flow.Back | src/components/onboarding/OnboardingFlow.tsx:68-72 | one step back, except on the first step |
| LearningStyleStep.StyleToggle | src/components/onboarding/steps/LearningStyleStep.tsx:79-89 | only the style list changes, to `Toggle` of the old list |
| LearningStyleStep.CheckThenUncheckStyle | src/components/onboarding/steps/LearningStyleStep.tsx:79-89 | checking and then unchecking a style that was not chosen restores the record |
| LearningStyleStep.ToggleAndWarning | src/components/onboarding/steps/LearningStyleStep.tsx:79-141 | the box shows as toggled; checking clears the warning, unchecking raises it exactly when no other style was chosen |
| LearningPreferencesStep.PreferenceToggle | src/components/onboarding/steps/LearningPreferencesStep.tsx:49-61 | only the preference list changes, to `Toggle` of the old list |
| LearningPreferencesStep.CheckThenUncheckPreference | src/components/onboarding/steps/LearningPreferencesStep.tsx:49-61 | checking and then unchecking a preference that was not chosen restores the record |
| SummaryStep.Label | src/components/onboarding/steps/SummaryStep.tsx:27 | a key with a non-empty label shows the label; any other key shows itself |
| SummaryStep.Labels | src/components/onboarding/steps/SummaryStep.tsx:27 | each id is replaced by its label, position by position |
| SummaryStep.FormatList | src/components/onboarding/steps/SummaryStep.tsx:12-43 | no ids show "Not specified" and one id shows its label |
| SummaryStep.FormatListAppend | src/components/onboarding/steps/SummaryStep.tsx:27 | one more id adds ", " and its label at the end |
| SummaryStep.FormatLearningEnvironment | src/components/onboarding/steps/SummaryStep.tsx:45-57 | an empty answer shows "Not specified", a known one its label, any other itself |
| SummaryStep.FormatTimeAvailability | src/components/onboarding/steps/SummaryStep.tsx:59-70 | a known value shows its label, any other itself |
| SummaryStep.OrNotSpecified | src/components/onboarding/steps/SummaryStep.tsx:91 | the line is never empty, and a given answer shows as it is |
| SummaryStep.SummaryOf | src/components/onboarding/steps/SummaryStep.tsx:86-144 | every answer not given shows "Not specified"; a given occupation, topic or goal shows as typed, a given time its formatted label, given styles and preferences their labels joined by ", ", and the environment its formatted label |
| SummaryStep.OfferedStylesLabelled | src/components/onboarding/steps/SummaryStep.tsx:12-28 | every style the style step offers has a non-empty label other than its id, and the label table holds no other id |
| SummaryStep.OfferedPreferencesLabelled | src/components/onboarding/steps/SummaryStep.tsx:30-43 | every preference the preference step offers has a non-empty label other than its id, and the label table holds no other id |
| SummaryStep.EmptyRecordSummary | src/components/onboarding/steps/SummaryStep.tsx:86-144 | an empty record shows "Not specified" on all seven lines |
| SummaryStep.PreferencesAmbiguous | src/components/onboarding/steps/SummaryStep.tsx:30-43 | the preference line of "short-sessions" equals that of the two unknown ids "Short" and "frequent sessions" |
| TutorialOverlay.View | src/components/onboarding/TutorialOverlay.tsx:77-135 | a closed overlay shows nothing; an open one shows the current card and dot, "Previous" exactly past the first card, and "Finish" exactly on the last |
| TutorialOverlay.Tutorial.constructor | src/components/onboarding/TutorialOverlay.tsx:23 | the tutorial starts on the first card |
| TutorialOverlay.Tutorial.Next | src/components/onboarding/TutorialOverlay.tsx:63-69 | the tutorial completes exactly on the last card, where the card stays; otherwise it advances |
| TutorialOverlay.Tutorial.Previous | src/components/onboarding/TutorialOverlay.tsx:71-75 | one card back, except on the first card |
| ChatPage.Classify | src/components/chatting/ChatPage.tsx:95-121 | a greeting exactly when the lower-cased text contains "hello" or "hi"; otherwise help exactly when it contains "help" or "how"; otherwise the topic list exactly when it contains "topic" or "learn" |
| ChatPage.ThisIsAGreeting | src/components/chatting/ChatPage.tsx:97-100 | "This" is answered as a greeting, because the test looks for the substring "hi" |
| ChatPage.TopicLines | src/components/chatting/ChatPage.tsx:114 | no topics give no lines, and one topic gives "- " and the topic |
| ChatPage.TopicLinesAppend | src/components/chatting/ChatPage.tsx:114 | each further topic adds a new line "- " and the topic |
| ChatPage.ReplyBody | src/components/chatting/ChatPage.tsx:88-121 | the reply follows the classification: greeting, help, the topic lines, or the picked topic (none when there are no topics) |
| ChatPage.Exchanged | src/components/chatting/ChatPage.tsx:151 | the messages after the welcome: one fewer, and none of them a welcome |
| ChatPage.Chat.constructor | src/components/chatting/ChatPage.tsx:29-32 | the page starts without material, messages or input, and not typing |
| ChatPage.Chat.Open | src/components/chatting/ChatPage.tsx:35-55 | with material the list is its welcome alone; without it the page goes to /home and nothing changes |
| ChatPage.Chat.ChangeInput | src/components/chatting/ChatPage.tsx:31 | only the input changes |
| ChatPage.Chat.Send | src/components/chatting/ChatPage.tsx:70-83 | blank input changes nothing; otherwise exactly one user message with the raw input is appended, the input clears and typing starts |
| ChatPage.Chat.Reply | src/components/chatting/ChatPage.tsx:86-134 | exactly one assistant message with `ReplyBody` of the sent text is appended and typing ends; the welcome stays first |
| ChatPage.Chat.Complete | src/components/chatting/ChatPage.tsx:144-154 | the report is "chatting" with the material's title and the number of messages after the welcome |
| Calendar.AddDays | src/components/schedule/ScheduleSetup.tsx:121-122 | stepping a date forward by `n` days gives a valid date whose day number is `n` more |
| Calendar.PrevMonth | src/components/schedule/ScheduleManager.tsx:324-327 | the previous month is a month index, and the day after its last day is the 1st of the current month |
| Calendar.NextMonth | src/components/schedule/ScheduleManager.tsx:379-382 | the next month is a month index, and the day after the current month's last day is its 1st |
| Text.ParseIntPrefix | src/components/dashboard/ContentGeneration.tsx:144 | `parseInt` without a radix gives a number exactly when, after leading white space and an optional sign, "0x" or "0X" is followed by a hexadecimal digit, or, without that prefix, a decimal digit follows; otherwise NaN |
| Text.ParseIntOfNumeralWithSuffix | src/components/dashboard/ContentGeneration.tsx:144 | a decimal numeral followed by a non-digit reads as its value, unless a lone "0" is followed by "x" |
| Text.ParseIntOfHex | src/components/dashboard/ContentGeneration.tsx:144 | "0x" and a run of hexadecimal digits followed by a non-hex-digit reads as the run's base-16 value |
| Text.ParseIntHexExample | src/components/dashboard/ContentGeneration.tsx:144 | `parseInt("0x1A")` is 26 |
| Text.Extension | src/components/dashboard/ImportPanel.tsx:57 | the extension holds no dot and is the lower-cased tail of the name |
| Text.FirstSegment | src/components/import/ImportDialog.tsx:366 | the text before the first dot holds no dot, is a prefix of the name, and is followed by the dot when it is shorter than the name |

## Left out

- Rendering, styling, icons as images, animation and drag highlighting are not modelled. Open/close flags of dialogs are kept only where a handler sets them.
- Translated texts are not modelled: each message is a constructor or a constant string.
- Timer cadence is not modelled (300 ms, 200 ms, the 1-2 s chat delay, the 3 s reset). Each interval is run to its end in one method. A handler that React could run between two ticks is not modelled.
- Randomness becomes a parameter: the loading messages of the generation step are left out, and the chat page's random topic is a `pick` index.
- React batching, StrictMode double effects and stale closures are not modelled. Every handler reads the state current at its call, except the stale closure named under Findings.
- `Date` parsing of "YYYY-MM-DD" (UTC versus local time) is not modelled. Dates are (year, month, day) triples and "today" is a parameter.
- `setMonth` overflow on days 29-31 when stepping months is not modelled (src/components/schedule/ScheduleManager.tsx:325-326 and 380-381). The model steps (year, month) pairs.
- `localeCompare` is an abstract collation rank, and `toLowerCase` covers ASCII letters only.
- String lengths count characters, not UTF-16 code units.
- A NaN sort key is taken as 0 and an absent completion rate counts as 0. `createdAt` and `lastStudied` are day numbers.
- ScheduleSetup.NumberOf: covers only what a time input can hold, digits or nothing. JavaScript `Number` also reads " 7", "+7", "7.5" and "1e2", and the model reads those as NaN.
- ScheduleSetup.AddMinutesIsClock: is stated for non-negative minute counts only. A negative duration gives a negative JavaScript remainder and a malformed time. The duration field's bounds of 5 and 120 do not stop a typed value.
- ScheduleSetup.AddMinutesNumerals: is restricted to non-negative minute counts for the same reason.
- The quiz and game pages' redirect to /home when no material is handed in is not modelled. The chat page's redirect is modelled.
- The authentication service (`login`, `register`, `getCurrentUser`, `loginWithProvider`) is opaque. Its answers are parameters, and a successful social login is left to the provider's redirect.
- ImportDialog's title input is uncontrolled, so only its default value is modelled. The chat page's scroll effect and the `onSkip`/`onClose` callbacks are not modelled.
- LearningSchedule's date and description inputs are plain single-field setters and are not modelled.
- Keys of `Object.prototype` (such as "constructor") looked up in the label tables are treated as unknown keys.
- A `maxFileSize` that is not a whole number of megabytes is not modelled.
- ContentGeneration with an unknown method id hands on `undefined`, and home's `handleContentGenerated` then fails reading `content.type`. The model gives no payload in that case, and home's model takes only a payload that exists.
- Pressing "Generate" again while generating is not modelled, because the form is hidden then.
- AuthDialog, ForgotPasswordPage, FlashcardPage and the onboarding steps that only set one text field pass values through and are not part of this model.

## Findings

| source | as written | input that shows it | evidently intended | confidence | as-written member | corrected member |
|---|---|---|---|---|---|---|
| src/components/schedule/ScheduleSetup.tsx:124-126 | the weekday is read with `toLocaleDateString` and the style "lowercase", which Intl refuses with a RangeError; no style Intl accepts gives a lower-case key of `selectedDays` either | any form, for example frequency "daily" | look the day up by its lower-case English name, so that daily, weekly and custom plans are generated | not executed | ScheduleSetup.ScheduleAsWrittenThrows | ScheduleSetup.CustomPlan |
| src/components/auth/RegistrationPage.tsx:137-144 | after a password edit the confirmation is re-checked against the password from before the edit | password "Secret1!" and confirmation "Secret1!", then typing "x" into the password | re-check against the new password and report the mismatch | not executed | Registration.StaleConfirmCheck | Registration.ConfirmAfterPasswordEdit |
| src/App.tsx:67-68 | a user whose role is none of the three is sent to /admin-dashboard, which refuses them again | role "guest" opening /admin-dashboard | send such a user to /home, as the login page does | not executed | AppRoutes.GuardLoopsAsWritten | AppRoutes.NoRedirectLoop |
| src/components/auth/LoginPage.tsx:112-121 | the value of `loginWithProvider` is never read, and that call never throws: a refusal resolves to `{success: false}`, so the `catch` that shows the message and ends loading never runs | a provider call that resolves to `{success: false, error}` | show "Failed to login with <provider>" and end loading | not executed | Login.SocialLoginStuckAsWritten | Login.SocialLoginOutcome |
