/** Seed data: the generated default 14-day schedule and the initial template list. */
module Constants {
  import opened Types
  import opened Strings

  /** The id of the `k`-th generated task of `day`: `day-${day}-task-${k}`. */
  function MockTaskId(day: int, k: nat): string
    requires 1 <= k <= 3
  {
    "day-" + IntToString(day) + "-task-" + [DigitChar(k)]
  }

  /** An id is "day-", the day's decimal form, "-task-" and the position digit. */
  lemma MockTaskIdParts(day: int, k: nat)
    requires 1 <= k <= 3
    ensures var id, d := MockTaskId(day, k), IntToString(day);
      |id| == |d| + 11 && id[4..4 + |d|] == d && id[|id| - 1] == DigitChar(k)
  {
    var d := IntToString(day);
    var head := "day-" + d;
    assert MockTaskId(day, k) == head + ("-task-" + [DigitChar(k)]);
    assert head[4..] == d;
  }

  /** Generated ids determine their day and position: they are distinct within a day and across days. */
  lemma MockTaskIdInjective(d1: int, k1: nat, d2: int, k2: nat)
    requires 1 <= k1 <= 3 && 1 <= k2 <= 3
    ensures MockTaskId(d1, k1) == MockTaskId(d2, k2) ==> d1 == d2 && k1 == k2
  {
    if MockTaskId(d1, k1) == MockTaskId(d2, k2) {
      MockTaskIdParts(d1, k1);
      MockTaskIdParts(d2, k2);
      IntToStringInjective(d1, d2);
    }
  }

  // The fixed text of the generated tasks; the day number is spliced in between.
  const MorningOpening: string := "Good morning Interns! Welcome to Day "
  const MorningClosing: string := " tasks. Please review your objectives."
  const MiddayMessage: string := "Mid-day check-in. Don't forget to submit your progress reports for the morning session."
  const EveningMessage: string := "End of day recap. Please fill out your attendance logs."
  const IntroImageSuffix: string := "_Intro_Image.png"

  /** `generateMockTasks(day)`: a morning media task, a mid-day media task and an evening text task. */
  function GenerateMockTasks(day: int): (tasks: seq<Task>)
    ensures |tasks| == 3
    ensures tasks[0].time == "09:00 AM" && tasks[1].time == "12:30 PM" && tasks[2].time == "05:00 PM"
    ensures tasks[0].id == MockTaskId(day, 1) && tasks[1].id == MockTaskId(day, 2) && tasks[2].id == MockTaskId(day, 3)
    ensures !tasks[0].isDone && !tasks[1].isDone && !tasks[2].isDone
    ensures tasks[0].kind == Media && tasks[0].mediaName != ""
    ensures tasks[1].kind == Media && tasks[1].mediaName != ""
    ensures tasks[2].kind == Text && tasks[2].mediaName == ""
  {
    var d := IntToString(day);
    [ Task(MockTaskId(day, 1), "09:00 AM", MorningOpening + d + MorningClosing,
           "Day_" + d + IntroImageSuffix, false, Media),
      Task(MockTaskId(day, 2), "12:30 PM", MiddayMessage, "Checklist_D" + d + ".pdf", false, Media),
      Task(MockTaskId(day, 3), "05:00 PM", EveningMessage, "", false, Text) ]
  }

  /** The ids of one generated day are pairwise distinct, and differ from those of every other day. */
  lemma MockTaskIdsDistinct(d1: int, i: nat, d2: int, j: nat)
    requires i < 3 && j < 3
    requires d1 != d2 || i != j
    ensures GenerateMockTasks(d1)[i].id != GenerateMockTasks(d2)[j].id
  {
    GeneratedIdAt(d1, i);
    GeneratedIdAt(d2, j);
    MockTaskIdInjective(d1, i + 1, d2, j + 1);
  }

  lemma GeneratedIdAt(day: int, i: nat)
    requires i < 3
    ensures GenerateMockTasks(day)[i].id == MockTaskId(day, i + 1)
  {
    var tasks := GenerateMockTasks(day);
    if i == 0 {
      assert tasks[0].id == MockTaskId(day, 1);
    } else if i == 1 {
      assert tasks[1].id == MockTaskId(day, 2);
    } else {
      assert tasks[2].id == MockTaskId(day, 3);
    }
  }

  /** The `reduce` over `days` with `{ ...acc, [day]: tasksOf(day) }`. */
  function AddDays(acc: Schedule, days: seq<int>, tasksOf: int -> seq<Task>): (schedule: Schedule)
    ensures forall d :: d in schedule <==> d in acc || d in days
    ensures forall d :: d in days ==> schedule[d] == tasksOf(d)
    ensures forall d :: d in acc && d !in days ==> schedule[d] == acc[d]
    decreases |days|
  {
    if days == [] then acc
    else
      var rest := days[1..];
      assert forall d :: d in days <==> d == days[0] || d in rest;
      AddDays(acc[days[0] := tasksOf(days[0])], rest, tasksOf)
  }

  /** `Array.from({ length: 14 }, (_, i) => i + 1)` */
  function DayNumbers(): (days: seq<int>)
    ensures |days| == 14 && forall i :: 0 <= i < 14 ==> days[i] == i + 1
  {
    seq(14, i => i + 1)
  }

  /** `DEFAULT_SCHEDULE`: days 1..14, each with its generated tasks. */
  function DefaultSchedule(): Schedule {
    AddDays(map[], DayNumbers(), GenerateMockTasks)
  }

  /** The default schedule has exactly the days 1..14, and day d holds the tasks generated for d. */
  lemma DefaultScheduleContents()
    ensures forall d :: d in DefaultSchedule() <==> 1 <= d <= 14
    ensures forall d :: d in DefaultSchedule() ==> DefaultSchedule()[d] == GenerateMockTasks(d)
  {
    DayNumbersMembers();
  }

  lemma DayNumbersMembers()
    ensures forall d :: d in DayNumbers() <==> 1 <= d <= 14
  {
    var days := DayNumbers();
    forall d | 1 <= d <= 14 ensures d in days { assert days[d - 1] == d; }
  }

  const DefaultTemplateId: string := "default-14-day"

  /** `INITIAL_TEMPLATES`: the single built-in template. */
  function InitialTemplates(): (templates: seq<Template>)
    ensures |templates| == 1
    ensures templates[0].id == DefaultTemplateId && templates[0].schedule == DefaultSchedule()
  {
    [Template(DefaultTemplateId, "Standard 14-Day Onboarding", DefaultSchedule())]
  }
}
