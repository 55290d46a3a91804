/** The state controller: every handler of the app as a `prev => next` transformation of
    the `AppState` aggregate. The form fields, the active view and selection, the current
    time and the fresh ids the source takes from `Date.now()` are parameters. Confirmation
    dialogs are not modelled: each delete below is the update that runs once confirmed. */
module App {
  import opened Types
  import opened Seqs
  import opened Strings
  import opened Time
  import opened Constants

  /** The state the app starts with when nothing was persisted. */
  function InitialState(): (s: AppState)
    ensures s.batches == [] && s.downloadDirectory == None
    ensures |s.templates| == 1 && s.templates[0].id == DefaultTemplateId
    ensures s.templates[0].schedule == DefaultSchedule()
  {
    AppState([], InitialTemplates(), None)
  }

  predicate UniqueBatchIds(batches: seq<Batch>) {
    forall i, j :: 0 <= i < j < |batches| ==> batches[i].id != batches[j].id
  }

  // ---------------------------------------------------------------- batches

  /** The fields of the batch form. `templateName` is "" when left blank. */
  datatype BatchForm = BatchForm(
    name: string,
    link: string,
    date: int,
    templateId: string,
    recordNew: bool,
    templateName: string)

  const DefaultBatchName: string := "Batch Alpha"
  const DefaultLink: string := "https://chat.whatsapp.com/demo"

  /** `templates.find(t => t.id === id)`: the first template with that id. */
  function FindTemplate(templates: seq<Template>, id: string): (found: Option<Template>)
    ensures found.None? <==> forall i :: 0 <= i < |templates| ==> templates[i].id != id
    ensures found.Some? ==>
      exists i :: 0 <= i < |templates| && templates[i] == found.value &&
        templates[i].id == id && forall j :: 0 <= j < i ==> templates[j].id != id
  {
    if templates == [] then None
    else if templates[0].id == id then Some(templates[0])
    else
      var found := FindTemplate(templates[1..], id);
      if found.Some? then
        ghost var i :| 0 <= i < |templates[1..]| && templates[1..][i] == found.value &&
          templates[1..][i].id == id && forall j :: 0 <= j < i ==> templates[1..][j].id != id;
        assert templates[i + 1] == found.value;
        found
      else found
  }

  /** The schedule a new batch copies: the chosen template's, else the default one. */
  function SourceSchedule(templates: seq<Template>, templateId: string): Schedule {
    match FindTemplate(templates, templateId)
    case Some(t) => t.schedule
    case None => DefaultSchedule()
  }

  /** The name a recorded batch falls back to when the form leaves it blank: `Batch_${Date.now()}`. */
  function FallbackTemplateName(now: int): (name: string)
    ensures |name| > 6 && name[..6] == "Batch_" && name[6..] == IntToString(now)
  {
    "Batch_" + IntToString(now)
  }

  /** Fallback names of distinct moments are distinct. */
  lemma FallbackNameInjective(a: int, b: int)
    ensures FallbackTemplateName(a) == FallbackTemplateName(b) ==> a == b
  {
    if FallbackTemplateName(a) == FallbackTemplateName(b) {
      assert FallbackTemplateName(a)[6..] == FallbackTemplateName(b)[6..];
      IntToStringInjective(a, b);
    }
  }

  /** The batch built from the form; `editing` is the batch being edited, if any, and `now`
      the moment used for the fallback template name. */
  function NewBatch(templates: seq<Template>, form: BatchForm, editing: Option<Batch>, freshId: string, now: int)
    : (b: Batch)
    ensures b.name != "" && b.whatsappLink != ""
    ensures form.name != "" ==> b.name == form.name
    ensures form.name == "" ==> b.name == DefaultBatchName
    ensures form.link != "" ==> b.whatsappLink == form.link
    ensures form.link == "" ==> b.whatsappLink == DefaultLink
    ensures b.startDate == form.date && b.isRecording == form.recordNew
    ensures b.templateName.Some? <==> form.recordNew
    ensures form.recordNew ==> Truthy(b.templateName)
    ensures form.recordNew && form.templateName != "" ==> b.templateName == Some(form.templateName)
    ensures form.recordNew && form.templateName == "" ==> b.templateName == Some(FallbackTemplateName(now))
    ensures editing.Some? ==> b.schedule == editing.value.schedule
    ensures editing.Some? && editing.value.id != "" ==> b.id == editing.value.id
    ensures editing.Some? && editing.value.id == "" ==> b.id == freshId
    ensures editing.None? ==> b.id == freshId && b.schedule == SourceSchedule(templates, form.templateId)
  {
    Batch(
      if editing.Some? && editing.value.id != "" then editing.value.id else freshId,
      if form.name != "" then form.name else DefaultBatchName,
      if form.link != "" then form.link else DefaultLink,
      form.date,
      if editing.Some? then editing.value.schedule else SourceSchedule(templates, form.templateId),
      form.recordNew,
      if form.recordNew then Some(if form.templateName != "" then form.templateName else FallbackTemplateName(now))
      else None)
  }

  /** `handleCreateBatch`: append a new batch, or replace the edited one by id. */
  function CreateOrEditBatch(s: AppState, form: BatchForm, editing: Option<Batch>, freshId: string, now: int)
    : (r: AppState)
    ensures r.templates == s.templates && r.downloadDirectory == s.downloadDirectory
    ensures editing.None? ==>
      |r.batches| == |s.batches| + 1 && r.batches[..|s.batches|] == s.batches &&
      r.batches[|s.batches|] == NewBatch(s.templates, form, None, freshId, now)
    ensures editing.Some? ==>
      |r.batches| == |s.batches| &&
      forall i :: 0 <= i < |s.batches| ==>
        r.batches[i] == if s.batches[i].id == editing.value.id
                        then NewBatch(s.templates, form, editing, freshId, now) else s.batches[i]
  {
    var b := NewBatch(s.templates, form, editing, freshId, now);
    if editing.None? then
      s.(batches := s.batches + [b])
    else
      s.(batches := ReplaceBatch(s.batches, editing.value.id, b))
  }

  /** `batches.map(x => x.id === id ? b : x)` */
  function ReplaceBatch(batches: seq<Batch>, id: string, b: Batch): (r: seq<Batch>)
    ensures |r| == |batches|
    ensures forall i :: 0 <= i < |batches| ==> r[i] == if batches[i].id == id then b else batches[i]
  {
    seq(|batches|, i requires 0 <= i < |batches| => if batches[i].id == id then b else batches[i])
  }

  /** A new batch copies the schedule of the selected template, or the default schedule when
      no template has the selected id. */
  lemma CreateBatchCopiesTemplate(s: AppState, form: BatchForm, freshId: string, now: int)
    ensures var b := CreateOrEditBatch(s, form, None, freshId, now).batches[|s.batches|];
      (forall i :: 0 <= i < |s.templates| ==> s.templates[i].id != form.templateId) ==>
        b.schedule == DefaultSchedule()
    ensures var b := CreateOrEditBatch(s, form, None, freshId, now).batches[|s.batches|];
      forall i :: (0 <= i < |s.templates| && s.templates[i].id == form.templateId &&
                   (forall j :: 0 <= j < i ==> s.templates[j].id != form.templateId)) ==>
        b.schedule == s.templates[i].schedule
  {
    var found := FindTemplate(s.templates, form.templateId);
    if found.Some? {
      var k :| 0 <= k < |s.templates| && s.templates[k] == found.value &&
        s.templates[k].id == form.templateId && forall j :: 0 <= j < k ==> s.templates[j].id != form.templateId;
      forall i | 0 <= i < |s.templates| && s.templates[i].id == form.templateId &&
        (forall j :: 0 <= j < i ==> s.templates[j].id != form.templateId)
        ensures i == k
      {
      }
    }
  }

  /** Editing a stored batch keeps its id and its schedule, with every `isDone` flag, and leaves
      the other batches and the list length alone; with distinct ids no schedule changes at all. */
  lemma EditBatchKeepsSchedule(s: AppState, form: BatchForm, e: Batch, freshId: string, now: int)
    requires e in s.batches && e.id != ""
    ensures var r := CreateOrEditBatch(s, form, Some(e), freshId, now);
      |r.batches| == |s.batches| &&
      (forall i :: 0 <= i < |s.batches| && s.batches[i].id != e.id ==> r.batches[i] == s.batches[i]) &&
      (forall i :: 0 <= i < |s.batches| && s.batches[i].id == e.id ==>
         r.batches[i].id == e.id && r.batches[i].schedule == e.schedule)
    ensures UniqueBatchIds(s.batches) ==>
      var r := CreateOrEditBatch(s, form, Some(e), freshId, now);
      forall i :: 0 <= i < |s.batches| ==> r.batches[i].schedule == s.batches[i].schedule
  {
    var r := CreateOrEditBatch(s, form, Some(e), freshId, now);
    if UniqueBatchIds(s.batches) {
      var k :| 0 <= k < |s.batches| && s.batches[k] == e;
      forall i | 0 <= i < |s.batches| ensures r.batches[i].schedule == s.batches[i].schedule {
        if s.batches[i].id == e.id {
          if i != k {
            assert false;
          }
        }
      }
    }
  }

  /** Editing sets the recording flag from the form, so a batch whose recording was finalized
      records again when it is saved with "record as new template" ticked. */
  lemma EditReopensRecording(s: AppState, form: BatchForm, e: Batch, freshId: string, now: int, i: int)
    requires 0 <= i < |s.batches| && s.batches[i].id == e.id
    ensures CreateOrEditBatch(s, form, Some(e), freshId, now).batches[i].isRecording == form.recordNew
    ensures form.recordNew ==> Truthy(CreateOrEditBatch(s, form, Some(e), freshId, now).batches[i].templateName)
  {}

  /** The inline delete-batch update: drop every batch with that id. */
  function DeleteBatch(s: AppState, id: string): (r: AppState)
    ensures r.templates == s.templates && r.downloadDirectory == s.downloadDirectory
    ensures forall b :: b in r.batches <==> b in s.batches && b.id != id
    ensures IsSubsequence(r.batches, s.batches)
    ensures |r.batches| == |s.batches| - CountWhere(s.batches, (b: Batch) => b.id == id)
  {
    CountSplit(s.batches, (b: Batch) => b.id != id, (b: Batch) => b.id == id);
    s.(batches := Filter(s.batches, (b: Batch) => b.id != id))
  }

  /** The inline delete-template update: drop every template with that id. */
  function DeleteTemplate(s: AppState, id: string): (r: AppState)
    ensures r.batches == s.batches && r.downloadDirectory == s.downloadDirectory
    ensures forall t :: t in r.templates <==> t in s.templates && t.id != id
    ensures IsSubsequence(r.templates, s.templates)
    ensures |r.templates| == |s.templates| - CountWhere(s.templates, (t: Template) => t.id == id)
  {
    CountSplit(s.templates, (t: Template) => t.id != id, (t: Template) => t.id == id);
    s.(templates := Filter(s.templates, (t: Template) => t.id != id))
  }

  /** The inline reset update: move the start of the batches with that id to `now`. */
  function ResetBatch(s: AppState, id: string, now: int): (r: AppState)
    ensures r.templates == s.templates && r.downloadDirectory == s.downloadDirectory
    ensures |r.batches| == |s.batches|
    ensures forall i :: 0 <= i < |s.batches| ==>
      r.batches[i] == if s.batches[i].id == id then s.batches[i].(startDate := now) else s.batches[i]
  {
    s.(batches := seq(|s.batches|, i requires 0 <= i < |s.batches| =>
                        if s.batches[i].id == id then s.batches[i].(startDate := now) else s.batches[i]))
  }

  /** A reset batch is back on day 1 and keeps its whole schedule, completion marks included. */
  lemma ResetRestartsDayKeepsProgress(s: AppState, id: string, now: int, i: int)
    requires 0 <= i < |s.batches|
    ensures ResetBatch(s, id, now).batches[i].schedule == s.batches[i].schedule
    ensures ResetBatch(s, id, now).batches[i].isRecording == s.batches[i].isRecording
    ensures s.batches[i].id == id ==> CurrentDay(ResetBatch(s, id, now).batches[i].startDate, now) == 1
  {}

  // ---------------------------------------------------------------- tasks

  /** The fields of the task form. */
  datatype TaskForm = TaskForm(message: string, time: string, kind: TaskType, mediaName: string)

  /** `taskData`: the task saved from the form. */
  function TaskData(form: TaskForm, editingTask: Option<Task>, freshId: string): (t: Task)
    ensures t.message == form.message && t.time == form.time && t.kind == form.kind
    ensures t.mediaName == if form.kind == Text then "" else form.mediaName
    ensures t.isDone <==> editingTask.Some? && editingTask.value.isDone
    ensures editingTask.Some? && editingTask.value.id != "" ==> t.id == editingTask.value.id
    ensures editingTask.Some? && editingTask.value.id == "" ==> t.id == freshId
    ensures editingTask.None? ==> t.id == freshId
  {
    Task(
      if editingTask.Some? && editingTask.value.id != "" then editingTask.value.id else freshId,
      form.time,
      form.message,
      if form.kind == Media then form.mediaName else "",
      editingTask.Some? && editingTask.value.isDone,
      form.kind)
  }

  datatype View = Home | ScheduleView | Create | TemplateManager | TemplateEdit

  /** Which schedule a task edit applies to. */
  datatype Target = BatchTarget(batchId: string) | TemplateTarget(templateId: string) | NoTarget

  /** The batch in the schedule view, the template in the template editor, otherwise nothing. */
  function EditTarget(view: View, activeBatchId: Option<string>, activeTemplateId: Option<string>): (target: Target)
    ensures target.BatchTarget? <==> view == ScheduleView && Truthy(activeBatchId)
    ensures target.TemplateTarget? <==> view == TemplateEdit && Truthy(activeTemplateId)
    ensures target.BatchTarget? ==> target.batchId == activeBatchId.value
    ensures target.TemplateTarget? ==> target.templateId == activeTemplateId.value
  {
    if view == ScheduleView && Truthy(activeBatchId) then BatchTarget(activeBatchId.value)
    else if view == TemplateEdit && Truthy(activeTemplateId) then TemplateTarget(activeTemplateId.value)
    else NoTarget
  }

  /** Rebuild the schedule of the target batch or template with `update`, leaving everything else. */
  function ApplyToTarget(s: AppState, target: Target, update: Schedule -> Schedule): (r: AppState)
    ensures r.downloadDirectory == s.downloadDirectory
    ensures |r.batches| == |s.batches| && |r.templates| == |s.templates|
    ensures forall i :: 0 <= i < |s.batches| ==>
      r.batches[i] == if target == BatchTarget(s.batches[i].id)
                      then s.batches[i].(schedule := update(s.batches[i].schedule)) else s.batches[i]
    ensures forall i :: 0 <= i < |s.templates| ==>
      r.templates[i] == if target == TemplateTarget(s.templates[i].id)
                        then s.templates[i].(schedule := update(s.templates[i].schedule)) else s.templates[i]
  {
    match target
    case BatchTarget(id) =>
      s.(batches := seq(|s.batches|, i requires 0 <= i < |s.batches| =>
                          if s.batches[i].id == id
                          then s.batches[i].(schedule := update(s.batches[i].schedule)) else s.batches[i]))
    case TemplateTarget(id) =>
      s.(templates := seq(|s.templates|, i requires 0 <= i < |s.templates| =>
                            if s.templates[i].id == id
                            then s.templates[i].(schedule := update(s.templates[i].schedule)) else s.templates[i]))
    case NoTarget => s
  }

  /** `dayTasks.map(t => t.id === task.id ? task : t)` */
  function ReplaceTask(tasks: seq<Task>, task: Task): (r: seq<Task>)
    ensures |r| == |tasks|
    ensures forall i :: 0 <= i < |tasks| ==> r[i] == if tasks[i].id == task.id then task else tasks[i]
  {
    seq(|tasks|, i requires 0 <= i < |tasks| => if tasks[i].id == task.id then task else tasks[i])
  }

  /** The day list after saving `task`: edited in place, or appended at the end. */
  function SaveIntoDay(tasks: seq<Task>, task: Task, isEdit: bool): seq<Task> {
    if isEdit then ReplaceTask(tasks, task) else tasks + [task]
  }

  /** `handleSaveTask`: save the task of the form into day `day` of the schedule being edited. */
  function SaveTask(s: AppState, view: View, activeBatchId: Option<string>, activeTemplateId: Option<string>,
                    day: int, form: TaskForm, editingTask: Option<Task>, freshId: string): AppState
  {
    var task := TaskData(form, editingTask, freshId);
    ApplyToTarget(s, EditTarget(view, activeBatchId, activeTemplateId),
      (sched: Schedule) => sched[day := SaveIntoDay(DayTasks(sched, day), task, editingTask.Some?)])
  }

  /** Editing replaces the one task with the edited id where it stands; a new task goes last. */
  lemma SaveIntoDayPlacement(tasks: seq<Task>, task: Task, isEdit: bool, k: int)
    ensures !isEdit ==> SaveIntoDay(tasks, task, isEdit) == tasks + [task]
    ensures (isEdit && 0 <= k < |tasks| && tasks[k].id == task.id &&
             (forall i :: 0 <= i < |tasks| && i != k ==> tasks[i].id != task.id)) ==>
      SaveIntoDay(tasks, task, isEdit) == tasks[..k] + [task] + tasks[k + 1..]
    ensures isEdit && (forall i :: 0 <= i < |tasks| ==> tasks[i].id != task.id) ==>
      SaveIntoDay(tasks, task, isEdit) == tasks
  {
    var r := SaveIntoDay(tasks, task, isEdit);
    if isEdit && 0 <= k < |tasks| && tasks[k].id == task.id &&
      (forall i :: 0 <= i < |tasks| && i != k ==> tasks[i].id != task.id) {
      var e := tasks[..k] + [task] + tasks[k + 1..];
      assert |r| == |e|;
      forall i | 0 <= i < |r| ensures r[i] == e[i] {
        if i < k { assert e[i] == tasks[i]; } else if i > k { assert e[i] == tasks[i]; }
      }
    }
  }

  /** Saving a task changes only day `day` of the one schedule being edited: other days, other
      batches and other templates keep their values, and day `day` holds the saved list. */
  lemma SaveTaskFrame(s: AppState, view: View, activeBatchId: Option<string>, activeTemplateId: Option<string>,
                      day: int, form: TaskForm, editingTask: Option<Task>, freshId: string)
    ensures var r := SaveTask(s, view, activeBatchId, activeTemplateId, day, form, editingTask, freshId);
      var target := EditTarget(view, activeBatchId, activeTemplateId);
      var task := TaskData(form, editingTask, freshId);
      r.downloadDirectory == s.downloadDirectory &&
      |r.batches| == |s.batches| && |r.templates| == |s.templates| &&
      (forall i :: 0 <= i < |s.batches| ==>
         if target == BatchTarget(s.batches[i].id) then
           SameExceptDay(s.batches[i].schedule, r.batches[i].schedule, day) &&
           r.batches[i] == s.batches[i].(schedule := r.batches[i].schedule) &&
           DayTasks(r.batches[i].schedule, day) ==
             SaveIntoDay(DayTasks(s.batches[i].schedule, day), task, editingTask.Some?)
         else r.batches[i] == s.batches[i]) &&
      (forall i :: 0 <= i < |s.templates| ==>
         if target == TemplateTarget(s.templates[i].id) then
           SameExceptDay(s.templates[i].schedule, r.templates[i].schedule, day) &&
           r.templates[i] == s.templates[i].(schedule := r.templates[i].schedule) &&
           DayTasks(r.templates[i].schedule, day) ==
             SaveIntoDay(DayTasks(s.templates[i].schedule, day), task, editingTask.Some?)
         else r.templates[i] == s.templates[i])
  {}

  /** Two schedules agree on every day other than `day`. */
  predicate SameExceptDay(a: Schedule, b: Schedule, day: int) {
    && (forall d :: d in a && d != day ==> d in b && a[d] == b[d])
    && (forall d :: d in b && d != day ==> d in a)
  }

  /** `.map(task => task.id === taskId ? { ...task, isDone: true } : task)` */
  function MarkDone(tasks: seq<Task>, taskId: string): (r: seq<Task>)
    ensures |r| == |tasks|
    ensures forall i :: 0 <= i < |tasks| ==>
      r[i] == if tasks[i].id == taskId then tasks[i].(isDone := true) else tasks[i]
  {
    seq(|tasks|, i requires 0 <= i < |tasks| => if tasks[i].id == taskId then tasks[i].(isDone := true) else tasks[i])
  }

  /** `markTaskDone`: mark the task sent in the selected day of the active batch. */
  function MarkTaskDone(s: AppState, activeBatchId: Option<string>, selectedDay: int, taskId: string): AppState {
    if !Truthy(activeBatchId) then s
    else ApplyToTarget(s, BatchTarget(activeBatchId.value),
      (sched: Schedule) => sched[selectedDay := MarkDone(DayTasks(sched, selectedDay), taskId)])
  }

  /** Marking sets `isDone` on exactly the tasks with that id in the selected day of the active
      batch; nothing else changes, no flag is cleared, and with no active batch it is a no-op. */
  lemma MarkTaskDoneEffect(s: AppState, activeBatchId: Option<string>, selectedDay: int, taskId: string, i: int)
    requires 0 <= i < |s.batches|
    ensures !Truthy(activeBatchId) ==> MarkTaskDone(s, activeBatchId, selectedDay, taskId) == s
    ensures var r := MarkTaskDone(s, activeBatchId, selectedDay, taskId);
      r.templates == s.templates && r.downloadDirectory == s.downloadDirectory && |r.batches| == |s.batches|
    ensures var r := MarkTaskDone(s, activeBatchId, selectedDay, taskId);
      var b, b' := s.batches[i], r.batches[i];
      if Truthy(activeBatchId) && b.id == activeBatchId.value then
        b' == b.(schedule := b'.schedule) && SameExceptDay(b.schedule, b'.schedule, selectedDay) &&
        |DayTasks(b'.schedule, selectedDay)| == |DayTasks(b.schedule, selectedDay)| &&
        forall k :: 0 <= k < |DayTasks(b.schedule, selectedDay)| ==>
          var t, t' := DayTasks(b.schedule, selectedDay)[k], DayTasks(b'.schedule, selectedDay)[k];
          t' == t.(isDone := t'.isDone) && (t'.isDone <==> t.isDone || t.id == taskId)
      else b' == b
  {}

  /** Marking the same task twice is the same as marking it once. */
  lemma MarkTaskDoneIdempotent(s: AppState, activeBatchId: Option<string>, selectedDay: int, taskId: string)
    ensures var once := MarkTaskDone(s, activeBatchId, selectedDay, taskId);
      MarkTaskDone(once, activeBatchId, selectedDay, taskId) == once
  {
    var once := MarkTaskDone(s, activeBatchId, selectedDay, taskId);
    var twice := MarkTaskDone(once, activeBatchId, selectedDay, taskId);
    if Truthy(activeBatchId) {
      assert |twice.batches| == |once.batches|;
      forall i | 0 <= i < |once.batches| ensures twice.batches[i] == once.batches[i] {
        var b := once.batches[i];
        if b.id == activeBatchId.value {
          var ts := DayTasks(b.schedule, selectedDay);
          assert MarkDone(ts, taskId) == ts;
          assert b.schedule[selectedDay := MarkDone(ts, taskId)] == b.schedule;
        }
      }
    }
  }

  /** `dayTasks.filter(t => t.id !== taskId)` */
  function RemoveTask(tasks: seq<Task>, taskId: string): (r: seq<Task>)
    ensures forall t :: t in r <==> t in tasks && t.id != taskId
    ensures IsSubsequence(r, tasks)
    ensures |r| == |tasks| - CountWhere(tasks, (t: Task) => t.id == taskId)
  {
    CountSplit(tasks, (t: Task) => t.id != taskId, (t: Task) => t.id == taskId);
    Filter(tasks, (t: Task) => t.id != taskId)
  }

  /** Deleting a task a second time changes nothing. */
  lemma RemoveTaskIdempotent(tasks: seq<Task>, taskId: string)
    ensures RemoveTask(RemoveTask(tasks, taskId), taskId) == RemoveTask(tasks, taskId)
  {
    FilterIdempotent(tasks, (t: Task) => t.id != taskId);
  }

  /** `deleteTask`: remove the task from day `day` of the schedule being edited. */
  function DeleteTask(s: AppState, view: View, activeBatchId: Option<string>, activeTemplateId: Option<string>,
                      day: int, taskId: string): AppState
  {
    ApplyToTarget(s, EditTarget(view, activeBatchId, activeTemplateId),
      (sched: Schedule) => sched[day := RemoveTask(DayTasks(sched, day), taskId)])
  }

  /** Deleting leaves day `day` of the edited schedule without the task and with the other tasks in
      their order, and changes no other day, batch or template. */
  lemma DeleteTaskEffect(s: AppState, view: View, activeBatchId: Option<string>, activeTemplateId: Option<string>,
                         day: int, taskId: string)
    ensures var r := DeleteTask(s, view, activeBatchId, activeTemplateId, day, taskId);
      var target := EditTarget(view, activeBatchId, activeTemplateId);
      r.downloadDirectory == s.downloadDirectory &&
      |r.batches| == |s.batches| && |r.templates| == |s.templates| &&
      (forall i :: 0 <= i < |s.batches| ==>
         if target == BatchTarget(s.batches[i].id) then
           SameExceptDay(s.batches[i].schedule, r.batches[i].schedule, day) &&
           r.batches[i] == s.batches[i].(schedule := r.batches[i].schedule) &&
           DayTasks(r.batches[i].schedule, day) == RemoveTask(DayTasks(s.batches[i].schedule, day), taskId)
         else r.batches[i] == s.batches[i]) &&
      (forall i :: 0 <= i < |s.templates| ==>
         if target == TemplateTarget(s.templates[i].id) then
           SameExceptDay(s.templates[i].schedule, r.templates[i].schedule, day) &&
           r.templates[i] == s.templates[i].(schedule := r.templates[i].schedule) &&
           DayTasks(r.templates[i].schedule, day) == RemoveTask(DayTasks(s.templates[i].schedule, day), taskId)
         else r.templates[i] == s.templates[i])
  {}

  // ---------------------------------------------------------------- recording

  /** `batches.find(b => b.id === id)`: the first batch with that id. */
  function FindBatch(batches: seq<Batch>, id: string): (found: Option<Batch>)
    ensures found.None? <==> forall i :: 0 <= i < |batches| ==> batches[i].id != id
    ensures found.Some? ==>
      found.value.id == id &&
      exists i :: 0 <= i < |batches| && batches[i] == found.value && forall j :: 0 <= j < i ==> batches[j].id != id
  {
    if batches == [] then None
    else if batches[0].id == id then Some(batches[0])
    else
      var found := FindBatch(batches[1..], id);
      if found.Some? then
        ghost var i :| 0 <= i < |batches[1..]| && batches[1..][i] == found.value &&
          forall j :: 0 <= j < i ==> batches[1..][j].id != id;
        assert batches[i + 1] == found.value;
        found
      else found
  }

  /** `b.id === id ? { ...b, isRecording: false } : b` over all batches. */
  function StopRecording(batches: seq<Batch>, id: string): (r: seq<Batch>)
    ensures |r| == |batches|
    ensures forall i :: 0 <= i < |batches| ==>
      r[i] == if batches[i].id == id then batches[i].(isRecording := false) else batches[i]
  {
    seq(|batches|, i requires 0 <= i < |batches| =>
      if batches[i].id == id then batches[i].(isRecording := false) else batches[i])
  }

  /** `finalizeRecording` as the source runs it: the batch is looked up in the snapshot `snap` the
      handler closed over, and the update is applied to the state `prev` it is handed. */
  function FinalizeFrom(snap: AppState, prev: AppState, batchId: string, newId: string): AppState {
    match FindBatch(snap.batches, batchId)
    case None => prev
    case Some(b) =>
      if !Truthy(b.templateName) then prev
      else prev.(templates := prev.templates + [Template(newId, b.templateName.value, b.schedule)],
                 batches := StopRecording(prev.batches, batchId))
  }

  /** `finalizeRecording(batchId)`: capture the batch's schedule as a new template named after its
      `templateName` and stop its recording; a missing batch or a blank name changes nothing. */
  function FinalizeRecording(s: AppState, batchId: string, newId: string): (r: AppState)
    ensures r.downloadDirectory == s.downloadDirectory
    ensures FindBatch(s.batches, batchId).None? ==> r == s
    ensures FindBatch(s.batches, batchId).Some? && !Truthy(FindBatch(s.batches, batchId).value.templateName) ==> r == s
    ensures FindBatch(s.batches, batchId).Some? && Truthy(FindBatch(s.batches, batchId).value.templateName) ==>
      var b := FindBatch(s.batches, batchId).value;
      r.templates == s.templates + [Template(newId, b.templateName.value, b.schedule)] &&
      |r.batches| == |s.batches| &&
      forall i :: 0 <= i < |s.batches| ==>
        r.batches[i] == if s.batches[i].id == batchId then s.batches[i].(isRecording := false) else s.batches[i]
  {
    FinalizeFrom(s, s, batchId, newId)
  }
}
