/** The task selection of `scheduleAllNotifications`: for every batch, walk its schedule's days in
    the order `Object.entries` yields them (ascending day number) and, on the days from the batch's
    current day on, pick every task that is not done. The registration itself is external; the
    model returns the reminders in the order they would be registered. */
module Reminders {
  import opened Types
  import opened Time

  /** One registration: the task `task` of day `day` of the batch `batchId`. */
  datatype Reminder = Reminder(batchId: string, day: int, task: Task)

  // ---------------------------------------------------------------- key order

  predicate IsMin(ks: set<int>, m: int) {
    m in ks && forall x :: x in ks ==> m <= x
  }

  lemma HasElement(ks: set<int>)
    requires ks != {}
    ensures exists y :: y in ks
  {
    if forall y :: y !in ks { assert false; }
  }

  /** A non-empty finite set of integers has a least element. */
  lemma {:induction false} MinExists(ks: set<int>)
    requires ks != {}
    ensures exists m :: IsMin(ks, m)
    decreases |ks|
  {
    HasElement(ks);
    var y :| y in ks;
    var rest := ks - {y};
    if rest == {} {
      forall x | x in ks ensures y <= x { assert x !in rest; }
      assert IsMin(ks, y);
    } else {
      MinExists(rest);
      var m :| IsMin(rest, m);
      var least := if y < m then y else m;
      forall x | x in ks ensures least <= x { if x != y { assert x in rest; } }
      assert IsMin(ks, least);
    }
  }

  ghost function MinOf(ks: set<int>): (m: int)
    requires ks != {}
    ensures IsMin(ks, m)
  {
    MinExists(ks);
    var m :| IsMin(ks, m);
    m
  }

  /** The keys of a schedule in the order the day loop visits them. */
  ghost function SortedKeys(ks: set<int>): seq<int>
    decreases ks
  {
    if ks == {} then []
    else
      var m := MinOf(ks);
      [m] + SortedKeys(ks - {m})
  }

  predicate Ascending(days: seq<int>) {
    forall i, j :: 0 <= i < j < |days| ==> days[i] < days[j]
  }

  /** The key order lists every key once, in strictly ascending order. */
  lemma {:induction false} SortedKeysSorted(ks: set<int>)
    ensures forall x :: x in SortedKeys(ks) <==> x in ks
    ensures Ascending(SortedKeys(ks))
    decreases ks
  {
    if ks != {} {
      var m := MinOf(ks);
      SortedKeysSorted(ks - {m});
      var r := SortedKeys(ks);
      assert r == [m] + SortedKeys(ks - {m});
      forall i, j | 0 <= i < j < |r| ensures r[i] < r[j] {
        if i == 0 { assert r[j] in ks - {m}; }
      }
    }
  }

  /** Taking the least key first peels it off the front of the key order. */
  lemma SortedKeysStep(ks: set<int>, d: int)
    requires IsMin(ks, d)
    ensures SortedKeys(ks) == [d] + SortedKeys(ks - {d})
  {
    var m := MinOf(ks);
    assert m <= d && d <= m;
  }

  // ---------------------------------------------------------------- specification

  /** The reminders of one day: its tasks that are not done, in list order. */
  function Pending(batchId: string, day: int, tasks: seq<Task>): seq<Reminder>
    decreases |tasks|
  {
    if tasks == [] then []
    else
      Pending(batchId, day, tasks[..|tasks| - 1]) +
      (if tasks[|tasks| - 1].isDone then [] else [Reminder(batchId, day, tasks[|tasks| - 1])])
  }

  /** The reminders of the days `days` of a schedule, skipping the days before `curDay`. */
  function DaysReminders(batchId: string, schedule: Schedule, days: seq<int>, curDay: int): seq<Reminder>
    decreases |days|
  {
    if days == [] then []
    else
      var d := days[|days| - 1];
      DaysReminders(batchId, schedule, days[..|days| - 1], curDay) +
      (if d >= curDay && d in schedule then Pending(batchId, d, schedule[d]) else [])
  }

  /** The reminders of one batch at the instant `now`. */
  ghost function BatchReminders(b: Batch, now: int): seq<Reminder> {
    DaysReminders(b.id, b.schedule, SortedKeys(b.schedule.Keys), CurrentDay(b.startDate, now))
  }

  /** The reminders of all batches, batch by batch. */
  ghost function AllReminders(batches: seq<Batch>, now: int): seq<Reminder>
    decreases |batches|
  {
    if batches == [] then []
    else AllReminders(batches[..|batches| - 1], now) + BatchReminders(batches[|batches| - 1], now)
  }

  /** The selection rule: `r` is a task of batch `b` that is not done, on a day of `b`'s schedule
      that is not before `b`'s current day. */
  predicate Reminded(b: Batch, now: int, r: Reminder) {
    && r.batchId == b.id
    && r.day in b.schedule
    && r.day >= CurrentDay(b.startDate, now)
    && r.task in b.schedule[r.day]
    && !r.task.isDone
  }

  // ---------------------------------------------------------------- the loops

  /** `tasks.forEach(t => { if (!t.isDone) ... })` */
  method CollectPending(batchId: string, day: int, tasks: seq<Task>) returns (rs: seq<Reminder>)
    ensures rs == Pending(batchId, day, tasks)
  {
    rs := [];
    for k := 0 to |tasks|
      invariant rs == Pending(batchId, day, tasks[..k])
    {
      assert tasks[..k + 1][..k] == tasks[..k];
      if !tasks[k].isDone {
        rs := rs + [Reminder(batchId, day, tasks[k])];
      }
    }
    assert tasks[..|tasks|] == tasks;
  }

  /** `Object.entries(batch.schedule).forEach(...)` with the `dNum >= curDay` guard: the days are
      taken smallest first. */
  method CollectDays(batchId: string, schedule: Schedule, curDay: int) returns (rs: seq<Reminder>)
    ensures rs == DaysReminders(batchId, schedule, SortedKeys(schedule.Keys), curDay)
  {
    var remaining := schedule.Keys;
    ghost var order := SortedKeys(remaining);
    ghost var visited: seq<int> := [];
    rs := [];
    while remaining != {}
      invariant order == visited + SortedKeys(remaining)
      invariant rs == DaysReminders(batchId, schedule, visited, curDay)
      decreases remaining
    {
      MinExists(remaining);
      var d :| IsMin(remaining, d);
      SortedKeysStep(remaining, d);
      assert visited + ([d] + SortedKeys(remaining - {d})) == (visited + [d]) + SortedKeys(remaining - {d});
      DaysStep(batchId, schedule, visited, d, curDay);
      if d >= curDay && d in schedule {
        var day := CollectPending(batchId, d, schedule[d]);
        rs := rs + day;
      }
      visited := visited + [d];
      remaining := remaining - {d};
    }
    assert SortedKeys(remaining) == [];
    assert visited == order;
  }

  /** The reminders of one batch, from its current day on. */
  method CollectBatch(b: Batch, now: int) returns (rs: seq<Reminder>)
    ensures rs == BatchReminders(b, now)
  {
    var curDay := CurrentDay(b.startDate, now);
    rs := CollectDays(b.id, b.schedule, curDay);
  }

  lemma DaysStep(batchId: string, schedule: Schedule, visited: seq<int>, d: int, curDay: int)
    ensures DaysReminders(batchId, schedule, visited + [d], curDay) ==
      DaysReminders(batchId, schedule, visited, curDay) +
      (if d >= curDay && d in schedule then Pending(batchId, d, schedule[d]) else [])
  {
    assert (visited + [d])[..|visited|] == visited;
  }

  /** `scheduleAllNotifications`: the sweep over all batches. */
  method SelectReminders(batches: seq<Batch>, now: int) returns (rs: seq<Reminder>)
    ensures rs == AllReminders(batches, now)
  {
    rs := [];
    for i := 0 to |batches|
      invariant rs == AllReminders(batches[..i], now)
    {
      assert batches[..i + 1][..i] == batches[..i];
      var mine := CollectBatch(batches[i], now);
      rs := rs + mine;
    }
    assert batches[..|batches|] == batches;
  }

  // ---------------------------------------------------------------- what is selected

  lemma {:induction false} PendingMembership(batchId: string, day: int, tasks: seq<Task>, r: Reminder)
    ensures r in Pending(batchId, day, tasks) <==>
      r.batchId == batchId && r.day == day && r.task in tasks && !r.task.isDone
    decreases |tasks|
  {
    if tasks != [] {
      var init := tasks[..|tasks| - 1];
      PendingMembership(batchId, day, init, r);
      assert tasks == init + [tasks[|tasks| - 1]];
    }
  }

  lemma {:induction false} DaysMembership(batchId: string, schedule: Schedule, days: seq<int>, curDay: int, r: Reminder)
    ensures r in DaysReminders(batchId, schedule, days, curDay) <==>
      && r.batchId == batchId && r.day in days && r.day in schedule && r.day >= curDay
      && r.task in schedule[r.day] && !r.task.isDone
    decreases |days|
  {
    if days != [] {
      var init, d := days[..|days| - 1], days[|days| - 1];
      DaysMembership(batchId, schedule, init, curDay, r);
      assert days == init + [d];
      if d in schedule {
        PendingMembership(batchId, d, schedule[d], r);
      }
    }
  }

  /** A batch's reminders are exactly the tasks the selection rule picks. */
  lemma BatchMembership(b: Batch, now: int, r: Reminder)
    ensures r in BatchReminders(b, now) <==> Reminded(b, now, r)
  {
    SortedKeysSorted(b.schedule.Keys);
    DaysMembership(b.id, b.schedule, SortedKeys(b.schedule.Keys), CurrentDay(b.startDate, now), r);
  }

  /** Some batch of `batches` picks `r`. */
  ghost predicate RemindedBySome(batches: seq<Batch>, now: int, r: Reminder) {
    exists i :: 0 <= i < |batches| && Reminded(batches[i], now, r)
  }

  lemma RemindedBySomeSplit(batches: seq<Batch>, now: int, r: Reminder)
    requires batches != []
    ensures RemindedBySome(batches, now, r) <==>
      RemindedBySome(batches[..|batches| - 1], now, r) || Reminded(batches[|batches| - 1], now, r)
  {
    var init := batches[..|batches| - 1];
    if RemindedBySome(batches, now, r) {
      var i :| 0 <= i < |batches| && Reminded(batches[i], now, r);
      if i < |init| {
        assert init[i] == batches[i];
      }
    }
    if RemindedBySome(init, now, r) {
      var i :| 0 <= i < |init| && Reminded(init[i], now, r);
      assert batches[i] == init[i];
    }
  }

  /** The selection picks exactly the tasks that are not done and lie on a day not before their
      batch's current day, of every batch. */
  lemma {:induction false} AllMembership(batches: seq<Batch>, now: int, r: Reminder)
    ensures r in AllReminders(batches, now) <==> RemindedBySome(batches, now, r)
    decreases |batches|
  {
    if batches != [] {
      var init, last := batches[..|batches| - 1], batches[|batches| - 1];
      AllMembership(init, now, r);
      BatchMembership(last, now, r);
      RemindedBySomeSplit(batches, now, r);
      assert AllReminders(batches, now) == AllReminders(init, now) + BatchReminders(last, now);
    }
  }

  predicate DayOrdered(rs: seq<Reminder>) {
    forall i, j :: 0 <= i < j < |rs| ==> rs[i].day <= rs[j].day
  }

  /** Within one batch the reminders come day by day, smallest day first. */
  lemma {:induction false} DaysOrdered(batchId: string, schedule: Schedule, days: seq<int>, curDay: int)
    requires Ascending(days)
    ensures DayOrdered(DaysReminders(batchId, schedule, days, curDay))
    decreases |days|
  {
    if days != [] {
      var init, d := days[..|days| - 1], days[|days| - 1];
      DaysOrdered(batchId, schedule, init, curDay);
      var front := DaysReminders(batchId, schedule, init, curDay);
      var back := if d >= curDay && d in schedule then Pending(batchId, d, schedule[d]) else [];
      assert Ascending(init);
      forall r | r in front ensures r.day < d {
        DaysMembership(batchId, schedule, init, curDay, r);
        ElementBelowLast(days, r.day);
      }
      forall r | r in back ensures r.day == d {
        PendingMembership(batchId, d, schedule[d], r);
      }
      var rs := front + back;
      forall i, j | 0 <= i < j < |rs| ensures rs[i].day <= rs[j].day {
        if j < |front| {
          assert rs[i] == front[i] && rs[j] == front[j];
        } else {
          assert rs[j] == back[j - |front|];
          assert rs[j] in back;
          if i < |front| {
            assert rs[i] == front[i];
            assert rs[i] in front;
          } else {
            assert rs[i] == back[i - |front|];
            assert rs[i] in back;
          }
        }
      }
      assert DaysReminders(batchId, schedule, days, curDay) == rs;
    }
  }

  lemma ElementBelowLast(days: seq<int>, x: int)
    requires Ascending(days) && |days| > 0 && x in days[..|days| - 1]
    ensures x < days[|days| - 1]
  {
    var k :| 0 <= k < |days| - 1 && days[..|days| - 1][k] == x;
    assert days[k] == x;
  }

  lemma BatchRemindersOrdered(b: Batch, now: int)
    ensures DayOrdered(BatchReminders(b, now))
  {
    var keys := SortedKeys(b.schedule.Keys);
    SortedKeysSorted(b.schedule.Keys);
    assert BatchReminders(b, now) == DaysReminders(b.id, b.schedule, keys, CurrentDay(b.startDate, now));
    DaysOrdered(b.id, b.schedule, keys, CurrentDay(b.startDate, now));
  }

  /** As time advances the selection only shrinks: a task reminded later was reminded earlier. */
  lemma RemindersShrink(batches: seq<Batch>, t1: int, t2: int, r: Reminder)
    requires t1 <= t2
    requires r in AllReminders(batches, t2)
    ensures r in AllReminders(batches, t1)
  {
    AllMembership(batches, t2, r);
    var i :| 0 <= i < |batches| && Reminded(batches[i], t2, r);
    CurrentDayMonotone(batches[i].startDate, t1, t2);
    assert Reminded(batches[i], t1, r);
    AllMembership(batches, t1, r);
  }
}
