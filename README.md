# Intern-track reminder core in Dafny

This project models the logic of a small task/reminder tracker for cohorts of interns ("batches")
that run through a 14-day onboarding schedule. A schedule maps a day number to an ordered list of
tasks. Each task is a text reminder or a named media attachment, has a 12-hour clock time, and is
marked done ("sent") once. Templates are reusable schedules. A batch copies a template when it is
launched. A recording batch is captured as a new template once it reaches day 14.

The model covers:

- the day arithmetic and the "has this time passed today" test (`Time`);
- the status a task card shows, and which badge and buttons it offers (`TaskCard`);
- the seed data: the generated default schedule and the initial template list (`Constants`);
- every state transformation of the controller, as a function from the old `AppState` to the new one (`App`);
- the handlers that loop, as methods with loops (`AppSweeps`, `Reminders`); the blank-template method states its new state directly, and the others are each proved equal to a specification function:
  - the blank-template `for` loop;
  - the auto-finalize sweep;
  - the reminder selection.

Two generic modules support them:

- `Seqs` holds `filter` and subsequences;
- `Strings` holds decimal rendering and a JavaScript-like `split`.

Modelling choices:

- Instants are integers in milliseconds.
- A time of day is milliseconds since local midnight.
- The clock is never read. `now`, the time of day and every fresh id (`Date.now()`-based in the program) are parameters. The auto-finalize sweep receives its fresh template ids as a function of the batch position.
- An optional string field (`templateName`, `downloadDirectory`, the active ids) is an `Option<string>`. JavaScript truthiness of such a field is `Truthy`: present and non-empty.
- The view and the active batch and template ids are parameters of the handlers that read them.
- Objects are values, so the `JSON.parse(JSON.stringify(...))` deep copies made when a batch is launched or a recording is captured need no separate modelling.

The auto-finalize sweep is modelled as the code runs it:

- `checkAutoFinalize` and `finalizeRecording` close over the state they were rendered with.
- The guard (recording flag, day, name existence) and the lookup of the batch are judged against that snapshot.
- The updates are applied to the accumulated state each queued update is handed.

`AppSweeps.SweepFrom` carries both the snapshot and the accumulator.

Three behaviours of the code that a reader may not expect:

- The recording flag is not terminal. Editing a batch sets it from the form again (`App.EditReopensRecording`).
- Two recording batches that share a template name are both captured in one sweep (`AppSweeps.SameNameCapturedTwice`). Every check in the sweep sees the templates as they were before it ran.
- A second sweep still adds nothing (`AppSweeps.AutoFinalizeIdempotent`).

## Model

| member | source | states |
|---|---|---|
| Time.CurrentDay | utils/time.ts:2-11 | the day is at least 1, and is 1 for a start in the future or at the start itself |
| Time.CurrentDayBounds | utils/time.ts:5-10 | after the start the day is the ceiling of the elapsed days: `(day-1)·DAY < now-start <= day·DAY` |
| Time.CurrentDayMonotone | utils/time.ts:5-10 | for a fixed start the day number never decreases as time advances |
| Time.CurrentDayReaches | utils/time.ts:8-10 | there is no upper clamp: exactly k days after the start it is day k, one millisecond later day k+1 |
| Time.ParseTime | utils/time.ts:14-15 | defines the split of a time string into hour, minute and modifier; `Time.ParseClockString` states that it reads back every rendered clock time |
| Time.ParseClockString | utils/time.ts:14-15 | splitting on the space and then the colon gives back the hour, the minute and the modifier of a rendered "HH:MM XM" time |
| Time.ConvertHour | utils/time.ts:17-18 | defines the 12-to-24-hour adjustment; `Time.ConvertHourCases` and `Time.ConvertHourBijective` state its behaviour |
| Time.ConvertHourCases | utils/time.ts:17-18 | for every hour and modifier: "PM" adds 12 below 12 and keeps 12 and above; "AM" maps 12 to 0 and keeps every other hour; any other or a missing modifier keeps the hour, so "0:30 PM" reads as 12, "13:00 PM" as 13 and "0:15 AM" as 0 |
| Time.ConvertHourBijective | utils/time.ts:17-18 | on 1..12 with AM/PM the conversion is a bijection onto 0..23, inverse to the 12-hour reading ("12 AM" is 0, "12 PM" is 12) |
| Time.IsTimePassed | utils/time.ts:13-25 | defines the strict comparison of the time of day with the scheduled time; `Time.TimePassedClock` and `Time.MidnightAndNoon` state its behaviour |
| Time.ScheduledMs | utils/time.ts:21-22 | defines the milliseconds after midnight that `setHours` gives, without clamping; `Time.TimePassedClock` states the comparison with it |
| Time.TimePassedClock | utils/time.ts:13-25 | a rendered clock time has passed exactly when the time of day is strictly after the converted hour and minute |
| Time.MidnightAndNoon | utils/time.ts:17-24 | "12:00 AM" has passed at every moment after midnight; "12:00 PM" only after noon |
| Time.RolledOverNeverPasses | utils/time.ts:21-24 | "11:75 PM" and "25:00 AM" roll over past midnight, so they never count as passed at a time of day within today |
| Time.FormatTimeForDisplay | utils/time.ts:27-29 | the stored string is shown unchanged |
| TaskCard.Status | components/TaskCard.tsx:33-43 | Completed iff done; Overdue iff not done and on an earlier day, or on the current day with the time passed; Upcoming iff not done and on a later day, or on the current day with the time not passed |
| TaskCard.TaskStatusOf | components/TaskCard.tsx:30-43 | the card's status: Completed iff done, past days overdue, future days upcoming, and on the current day overdue iff the time has passed |
| TaskCard.Badge | components/TaskCard.tsx:87-97 | a badge is shown iff not in template mode, and it reads "SENT" iff the task is done |
| TaskCard.BadgeNamesStatus | components/TaskCard.tsx:89-97 | outside template mode the badge names the derived status |
| TaskCard.ShowsMarkSent | components/TaskCard.tsx:141 | defines when "mark as sent" shows; `TaskCard.MarkSentOffer` states it |
| TaskCard.ShowsDelete | components/TaskCard.tsx:152 | defines when "delete" shows; `TaskCard.DeleteOffer` states it |
| TaskCard.MarkSentOffer | components/TaskCard.tsx:141-149 | "mark as sent" is offered exactly for overdue tasks outside template mode, and always beside an "OVERDUE" badge |
| TaskCard.DeleteOffer | components/TaskCard.tsx:152-156 | a sent batch task has no delete button; otherwise the button is there iff a handler is given |
| Constants.GenerateMockTasks | constants.tsx:4-29 | three tasks at 09:00 AM, 12:30 PM and 05:00 PM with ids `day-{d}-task-1..3`, none done, two media tasks with a file name and one text task without |
| Constants.MockTaskId | constants.tsx:6-22 | defines the id `day-{d}-task-{k}`; `Constants.MockTaskIdParts` and `Constants.MockTaskIdInjective` state its shape and injectivity |
| Constants.MockTaskIdParts | constants.tsx:6-22 | a generated id carries the day's decimal form after `day-` and the position digit at its end |
| Constants.MockTaskIdInjective | constants.tsx:6-22 | a generated id determines its day and its position |
| Constants.MockTaskIdsDistinct | constants.tsx:4-29 | generated ids are distinct within a day and across days |
| Constants.AddDays | constants.tsx:32 | the reduce adds exactly the listed days, each mapped to its tasks, and keeps the other entries |
| Constants.DayNumbers | constants.tsx:31 | the days 1..14 in order; `Constants.DayNumbersMembers` states its members |
| Constants.DayNumbersMembers | constants.tsx:31 | the listed days are exactly 1..14 |
| Constants.DefaultSchedule | constants.tsx:31-32 | defines `DEFAULT_SCHEDULE` as the reduce over days 1..14; `Constants.DefaultScheduleContents` states its contents |
| Constants.DefaultScheduleContents | constants.tsx:31-32 | the default schedule's keys are exactly 1..14 and day d holds the tasks generated for d |
| Constants.InitialTemplates | constants.tsx:34-40 | a single template with id `default-14-day` and the default schedule |
| App.InitialState | App.tsx:12 | no batches, no download directory, and the initial templates |
| App.FindTemplate | App.tsx:100 | the first template with the id, or none iff no template has it |
| App.FallbackTemplateName | App.tsx:109 | the fallback name is `Batch_` followed by the decimal form of the moment |
| App.FallbackNameInjective | App.tsx:109 | distinct moments give distinct fallback names |
| App.NewBatch | App.tsx:102-110 | the form's name and link, or "Batch Alpha" and the demo link when blank; the form's date and recording flag; a template name iff recording: the form's, or `Batch_<now>` when blank; the edited batch's schedule when editing, and its id unless that is blank, else the fresh id and the source schedule |
| App.CreateOrEditBatch | App.tsx:112-117 | launching appends the new batch and changes nothing else; editing replaces the batches with the edited id in place |
| App.ReplaceBatch | App.tsx:115 | the mapped list has the same length, the new batch where the id matches and the old batch elsewhere |
| App.SourceSchedule | App.tsx:100 | defines the schedule a new batch copies, the first matching template's or `DEFAULT_SCHEDULE`; `App.CreateBatchCopiesTemplate` states it |
| App.CreateBatchCopiesTemplate | App.tsx:100-107 | a new batch copies the schedule of the first template with the chosen id, or the default schedule when there is none |
| App.EditBatchKeepsSchedule | App.tsx:103-115 | an edit keeps the id and the whole schedule (with its sent marks) of the edited batch and leaves the other batches alone |
| App.EditReopensRecording | App.tsx:97-109 | an edit sets the recording flag from the form, and a ticked flag always comes with a non-blank template name |
| App.DeleteBatch | App.tsx:337 | exactly the batches without that id remain, in order; the count drops by the number of batches with that id |
| App.DeleteTemplate | App.tsx:363 | exactly the templates without that id remain, in order; the count drops by the number of templates with that id; batches are untouched |
| App.ResetBatch | App.tsx:340 | only the start date of the batches with that id changes, to now |
| App.ResetRestartsDayKeepsProgress | App.tsx:340 | a reset batch is on day 1 and keeps its schedule, sent marks and recording flag |
| App.TaskData | App.tsx:132-139 | the form's fields; the media name is cleared for text tasks; the edited task's id and sent mark are kept, while a new task gets the fresh id and is not sent |
| App.EditTarget | App.tsx:143-157 | the active batch in the schedule view, the active template in the template editor, else nothing |
| App.ApplyToTarget | App.tsx:141-172 | only the schedule of the target batch or template is rebuilt |
| App.ReplaceTask | App.tsx:149 | every task with the edited id is replaced in place; the others are kept |
| App.SaveTask | App.tsx:124-177 | defines `handleSaveTask` as the task data applied to the edit target; `App.SaveIntoDayPlacement` and `App.SaveTaskFrame` state its effect |
| App.SaveIntoDay | App.tsx:148-152 | defines the update of one day's list: replace the edited task in place, or append the new one; `App.SaveIntoDayPlacement` states it |
| App.SaveIntoDayPlacement | App.tsx:148-152 | a new task goes last; an edit replaces the task with its id where it stands, or changes nothing when no task has the id |
| App.SaveTaskFrame | App.tsx:141-173 | saving changes only the one day of the one schedule being edited |
| App.MarkDone | App.tsx:186-188 | the tasks with the id become sent; the others are unchanged |
| App.MarkTaskDone | App.tsx:179-193 | defines `markTaskDone`; `App.MarkTaskDoneEffect` and `App.MarkTaskDoneIdempotent` state its effect |
| App.MarkTaskDoneEffect | App.tsx:179-191 | with no active batch nothing changes; otherwise only the selected day of the active batch changes, every flag there is kept, and exactly the tasks with the id are newly set |
| App.MarkTaskDoneIdempotent | App.tsx:181-191 | marking twice is marking once |
| App.RemoveTask | App.tsx:217 | exactly the tasks without the id remain, in order; the count drops by the number of tasks with the id |
| App.RemoveTaskIdempotent | App.tsx:217 | deleting a task a second time changes nothing |
| App.DeleteTask | App.tsx:209-235 | defines `deleteTask` as the removal applied to the edit target; `App.DeleteTaskEffect` states its effect |
| App.DeleteTaskEffect | App.tsx:209-233 | deleting changes only the one day of the schedule being edited, to the list without the task |
| App.FindBatch | App.tsx:259 | the first batch with the id, or none iff no batch has it |
| App.StopRecording | App.tsx:269 | only the recording flag of the batches with the id is cleared |
| App.FinalizeFrom | App.tsx:258-270 | defines `finalizeRecording` with the lookup in the handler's snapshot and the update on the state it is handed; `App.FinalizeRecording`, `AppSweeps.StepTemplates` and `AppSweeps.StepBatches` state its effect |
| App.FinalizeRecording | App.tsx:258-270 | a missing batch or a blank name changes nothing; otherwise one template with the batch's name and schedule is appended and only that batch stops recording |
| AppSweeps.CreateBlankTemplate | App.tsx:248-254 | a blank name changes nothing; otherwise one template is appended with the name, the fresh id and days 1..14 each holding no task |
| AppSweeps.TemplateNamed | App.tsx:77 | defines `templates.some(t => t.name === name)`; `AppSweeps.AutoFinalizeDistinctIds` states how the sweep uses it |
| AppSweeps.Qualifies | App.tsx:76-79 | defines the sweep's guard: recording, day 14 or later, a non-blank name that no template of the snapshot carries; `AppSweeps.AutoFinalizeDistinctIds` states the batches it selects |
| AppSweeps.Step | App.tsx:75-80 | defines one visit of the sweep; `AppSweeps.StepTemplates` and `AppSweeps.StepBatches` state its effect |
| AppSweeps.SweepFrom | App.tsx:74-83 | defines the visits from one batch on; `AppSweeps.SweepFromTemplates`, `AppSweeps.SweepFromDirectory` and `AppSweeps.SweepFromBatches` state their effect |
| AppSweeps.AutoFinalize | App.tsx:74-83 | defines `checkAutoFinalize` on a state; `AppSweeps.AutoFinalizeShape`, `AppSweeps.AutoFinalizeDistinctIds` and `AppSweeps.AutoFinalizeIdempotent` state its effect |
| AppSweeps.CheckAutoFinalize | App.tsx:74-83 | the loop over the batches computes the sweep's specification function |
| AppSweeps.StepTemplates | App.tsx:75-79 | one visit appends the template it captures, if any |
| AppSweeps.StepBatches | App.tsx:75-79 | one effective visit clears the recording flag under the visited id, and changes nothing else |
| AppSweeps.SweepFromTemplates | App.tsx:74-83 | the sweep appends the templates of the effective visits in batch order |
| AppSweeps.SweepFromDirectory | App.tsx:74-83 | the sweep keeps the download directory |
| AppSweeps.SweepFromBatches | App.tsx:74-83 | the sweep only clears recording flags: a batch stops recording iff an effective visit names its id |
| AppSweeps.AutoFinalizeShape | App.tsx:74-83 | the whole sweep appends templates and only clears recording flags |
| AppSweeps.NewTemplatesQualify | App.tsx:75-79 | every template the sweep appends comes from a batch that qualified |
| AppSweeps.AutoFinalizeDistinctIds | App.tsx:74-83 | with distinct batch ids, a batch stops recording iff it records, is on day 14 or later, has a non-blank name and no template has that name; each such batch yields one template with its name and schedule, in batch order |
| AppSweeps.SameNameCapturedTwice | App.tsx:76-79 | two qualifying batches that share a name both yield a template in one sweep |
| AppSweeps.SweepNoOp | App.tsx:75-79 | when no batch qualifies (for instance, every name is already taken) the sweep changes nothing |
| AppSweeps.NotEffectiveAgain | App.tsx:75-79 | after a sweep, no batch can be captured again |
| AppSweeps.AutoFinalizeIdempotent | App.tsx:74-83 | a second sweep at the same moment changes nothing |
| Reminders.SortedKeys | App.tsx:61 | defines the order in which the day loop visits the keys; `Reminders.SortedKeysSorted` states it |
| Reminders.Pending | App.tsx:64-68 | defines a day's reminders; `Reminders.PendingMembership` states them |
| Reminders.DaysReminders | App.tsx:61-70 | defines the reminders of the visited days; `Reminders.DaysMembership` and `Reminders.DaysOrdered` state them |
| Reminders.BatchReminders | App.tsx:60-70 | defines a batch's reminders; `Reminders.BatchMembership` and `Reminders.BatchRemindersOrdered` state them |
| Reminders.AllReminders | App.tsx:59-71 | defines the whole selection; `Reminders.AllMembership` and `Reminders.RemindersShrink` state it |
| Reminders.Reminded | App.tsx:60-68 | defines the selection rule: a not-done task of the batch, on a day at or after its current day |
| Reminders.SortedKeysSorted | App.tsx:61 | the day loop visits every key once, in ascending order |
| Reminders.SortedKeysStep | App.tsx:61 | the day loop takes the smallest remaining key next |
| Reminders.CollectPending | App.tsx:64-68 | the task loop computes the day's pending reminders |
| Reminders.CollectBatch | App.tsx:60-70 | the day loop computes the batch's reminders |
| Reminders.CollectDays | App.tsx:60-70 | visiting the days in ascending key order collects exactly the pending tasks of the days from the current day on, in that order |
| Reminders.SelectReminders | App.tsx:57-72 | the batch loop computes the whole selection |
| Reminders.PendingMembership | App.tsx:64-66 | a day yields exactly its tasks that are not done |
| Reminders.DaysMembership | App.tsx:61-70 | visited days yield exactly their not-done tasks on days not before the current day |
| Reminders.BatchMembership | App.tsx:60-70 | a batch yields exactly the tasks the selection rule picks |
| Reminders.AllMembership | App.tsx:59-71 | the selection is exactly the not-done tasks on days at or after their batch's current day, over all batches |
| Reminders.DaysOrdered | App.tsx:61-70 | visiting days in ascending order yields reminders ordered by day |
| Reminders.BatchRemindersOrdered | App.tsx:61-70 | within a batch the reminders come smallest day first |
| Reminders.RemindersShrink | App.tsx:60-63 | as time advances the selection only shrinks |

## Left out

- Rendering: all JSX and styling of the app and the task card, and the presentation-only batch card with its floating-point progress bar.
- Persistence through `localStorage` and JSON. The model keeps the whole `AppState` as a value, so a save followed by a load is the identity by construction.
- Browser collaborators, which are foreign calls: the notification permission flow, the clipboard, the file picker, toasts and `setTimeout`, and the registration call inside the reminder loop. The reminder loop returns the reminders it would register, in order.
- `confirm` and `prompt` dialogs. Each delete is the update that runs after confirmation. A cancelled name prompt reads as the empty name.
- `handleDownloadMedia` and the download directory prompt; the directory is only carried along in the state.
- The real clock, id generation and ISO date parsing. Ids are parameters, and nothing is claimed about their uniqueness: they come from timestamps and can collide.
- The `useEffect` re-run mechanics. Each sweep is an explicit operation on a state.
- The `currentDay` the app computes for the active batch, with its default of 1. It is a parameter of the card model.
- Daylight-saving shifts: a day is always 24 hours long. The `setHours` rollover is modelled: `Time.ScheduledMs` is the plain sum of hours and minutes, so a time such as "11:75 PM" or "25:00 AM" lies past midnight, and a time of day within today never passes it, as in the source (`Time.RolledOverNeverPasses`).
- Floating-point division: `Math.ceil` of the elapsed days is computed exactly on integers.
- Time strings whose hour or minute field is not a run of decimal digits (`Number()` gives `NaN`, or 0 for an empty field). `Time.IsTimePassed` and `TaskCard.TaskStatusOf` require a well-formed time.
- Reminders.SortedKeys: it follows the ascending order `Object.entries` uses for non-negative integer keys. Negative day keys, which `Object.entries` lists in insertion order, are visited in ascending order as well.
- AppSweeps.AutoFinalizeDistinctIds: this exact characterization assumes distinct batch ids. `AppSweeps.AutoFinalizeShape` states the general case, where one visit stops every batch that carries the visited id.
