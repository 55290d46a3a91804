/** The logic of a task card: the status a task is shown with, and which badge and
    action buttons the card offers. */
module TaskCard {
  import opened Types
  import opened Time

  /** The status decision table, in priority order: done, past day, future day, then the clock. */
  function Status(isDone: bool, viewingDay: int, currentDay: int, timePassed: bool): (status: TaskStatus)
    ensures status == Completed <==> isDone
    ensures status == Overdue <==>
      !isDone && (viewingDay < currentDay || (viewingDay == currentDay && timePassed))
    ensures status == Upcoming <==>
      !isDone && (viewingDay > currentDay || (viewingDay == currentDay && !timePassed))
  {
    if isDone then Completed
    else if viewingDay < currentDay then Overdue
    else if viewingDay > currentDay then Upcoming
    else if timePassed then Overdue else Upcoming
  }

  /** The status of `task` on the card for `viewingDay`, with `nowOfDay` the current time of day. */
  function TaskStatusOf(task: Task, viewingDay: int, currentDay: int, nowOfDay: int): (status: TaskStatus)
    requires WellFormedTime(task.time)
    ensures status == Completed <==> task.isDone
    ensures !task.isDone && viewingDay < currentDay ==> status == Overdue
    ensures !task.isDone && viewingDay > currentDay ==> status == Upcoming
    ensures !task.isDone && viewingDay == currentDay ==>
      (status == Overdue <==> IsTimePassed(task.time, nowOfDay))
  {
    Status(task.isDone, viewingDay, currentDay, IsTimePassed(task.time, nowOfDay))
  }

  /** The word the task card's badge shows for a status. */
  function StatusLabel(status: TaskStatus): string {
    match status
    case Completed => "SENT"
    case Overdue => "OVERDUE"
    case Upcoming => "UPCOMING"
  }

  /** The badge: none in template mode, "SENT" for a done task, else OVERDUE or UPCOMING. */
  function Badge(isTemplateMode: bool, isDone: bool, status: TaskStatus): (badge: Option<string>)
    ensures badge.Some? <==> !isTemplateMode
    ensures badge == Some("SENT") <==> !isTemplateMode && isDone
  {
    if isTemplateMode then None
    else if isDone then Some("SENT")
    else Some(if status == Overdue then "OVERDUE" else "UPCOMING")
  }

  /** Outside template mode, the badge always names the derived status. */
  lemma BadgeNamesStatus(isDone: bool, viewingDay: int, currentDay: int, timePassed: bool)
    ensures Badge(false, isDone, Status(isDone, viewingDay, currentDay, timePassed)) ==
      Some(StatusLabel(Status(isDone, viewingDay, currentDay, timePassed)))
  {}

  /** Whether the card offers "MARK AS SENT". */
  predicate ShowsMarkSent(isTemplateMode: bool, status: TaskStatus, isDone: bool) {
    !isTemplateMode && status == Overdue && !isDone
  }

  /** Whether the card offers "Delete"; `hasDeleteHandler` is whether the page passed one. */
  predicate ShowsDelete(isTemplateMode: bool, isDone: bool, hasDeleteHandler: bool) {
    (isTemplateMode || !isDone) && hasDeleteHandler
  }

  /** With the derived status, "mark as sent" is offered exactly for overdue tasks outside template mode
      (already-sent tasks are never overdue), and never beside a "SENT" badge. */
  lemma MarkSentOffer(isTemplateMode: bool, isDone: bool, viewingDay: int, currentDay: int, timePassed: bool)
    ensures var status := Status(isDone, viewingDay, currentDay, timePassed);
      (ShowsMarkSent(isTemplateMode, status, isDone) <==> !isTemplateMode && status == Overdue) &&
      (ShowsMarkSent(isTemplateMode, status, isDone) ==>
         !isDone && Badge(isTemplateMode, isDone, status) == Some("OVERDUE"))
  {}

  /** A sent task of a batch cannot be deleted from its card; in template mode or for an unsent task
      the handler decides. */
  lemma DeleteOffer(isTemplateMode: bool, isDone: bool, hasDeleteHandler: bool)
    ensures !isTemplateMode && isDone ==> !ShowsDelete(isTemplateMode, isDone, hasDeleteHandler)
    ensures (isTemplateMode || !isDone) ==>
      (ShowsDelete(isTemplateMode, isDone, hasDeleteHandler) <==> hasDeleteHandler)
  {}
}
