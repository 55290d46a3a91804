/** The data model of the tracker. Values, not objects: the source rebuilds every record
    it changes with object/array spread, and batches receive their schedule by deep copy,
    which value semantics gives for free. */
module Types {

  datatype Option<T> = None | Some(value: T)

  /** A task is either an instructional text or a named media attachment. */
  datatype TaskType = Text | Media

  /** One scheduled reminder. `time` is a 12-hour clock string such as "09:00 AM". */
  datatype Task = Task(
    id: string,
    time: string,
    message: string,
    mediaName: string,
    isDone: bool,
    kind: TaskType)

  /** Day number to the ordered task list of that day. */
  type Schedule = map<int, seq<Task>>

  /** The task list of `day`; a day without an entry reads as the empty list (`schedule[day] || []`). */
  function DayTasks(schedule: Schedule, day: int): seq<Task> {
    if day in schedule then schedule[day] else []
  }

  datatype Template = Template(id: string, name: string, schedule: Schedule)

  /** `startDate` is the batch's start instant in milliseconds; `templateName` is `undefined` as `None`. */
  datatype Batch = Batch(
    id: string,
    name: string,
    whatsappLink: string,
    startDate: int,
    schedule: Schedule,
    isRecording: bool,
    templateName: Option<string>)

  datatype TaskStatus = Completed | Overdue | Upcoming

  datatype AppState = AppState(
    batches: seq<Batch>,
    templates: seq<Template>,
    downloadDirectory: Option<string>)

  /** JavaScript truthiness of an optional string: present and not empty. */
  predicate Truthy(s: Option<string>) {
    s.Some? && s.value != ""
  }
}
