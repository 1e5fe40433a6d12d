/** The expo last-week planner: a schedule of days, each with tasks that can
    be ticked off, a recommended wake time derived from the earliest task,
    and daily progress and work-time totals. */
module ExpoFinal {
  import opened Common

  datatype Priority = Critical | High | Medium | Low

  /** `startTime` is absent for tasks added through the form. */
  datatype Task = Task(id: string, title: string, duration: int, priority: Priority, completed: bool,
                       startTime: Option<string>, category: string)

  datatype DaySchedule = DaySchedule(date: string, dayName: string, wakeUpTime: string, recommendedWakeUp: string,
                                     tasks: seq<Task>, notes: string)

  datatype NewTaskForm = NewTaskForm(title: string, duration: int, priority: Priority, category: string)

  const EmptyForm := NewTaskForm("", 30, Medium, "")

  datatype Planner = Planner(schedule: seq<DaySchedule>, selectedDate: string, newTask: NewTaskForm)

  // ---------------------------------------------------------------------
  // The recommended wake time

  /** A start time that the reduce takes into account: present and non-empty. */
  predicate HasStart(t: Task)
  {
    t.startTime.Some? && t.startTime.value != ""
  }

  /** The reduce's accumulator after the tasks of ts, "" for none yet: a
      start time replaces it when it is empty or the start time is smaller
      in string order. */
  function EarliestStart(ts: seq<Task>): string
  {
    if ts == [] then ""
    else
      var earliest := EarliestStart(ts[..|ts| - 1]);
      var task := ts[|ts| - 1];
      if !HasStart(task) then earliest
      else if earliest == "" || StrLt(task.startTime.value, earliest) then task.startTime.value
      else earliest
  }

  /** The accumulator is "" exactly when no task has a start time, and
      otherwise the smallest start time in string order. */
  lemma {:induction false} EarliestStartMeaning(ts: seq<Task>)
    ensures EarliestStart(ts) == "" <==> forall i :: 0 <= i < |ts| ==> !HasStart(ts[i])
    ensures EarliestStart(ts) != "" ==> exists i :: 0 <= i < |ts| && HasStart(ts[i]) && ts[i].startTime.value == EarliestStart(ts)
    ensures forall i :: 0 <= i < |ts| && HasStart(ts[i]) ==> !StrLt(ts[i].startTime.value, EarliestStart(ts))
  {
    if ts != [] {
      var init := ts[..|ts| - 1];
      EarliestStartMeaning(init);
      var e := EarliestStart(init);
      var task := ts[|ts| - 1];
      assert forall i :: 0 <= i < |init| ==> ts[i] == init[i];
      if HasStart(task) && e != "" && StrLt(task.startTime.value, e) {
        forall i | 0 <= i < |ts| && HasStart(ts[i]) ensures !StrLt(ts[i].startTime.value, task.startTime.value) {
          if i < |init| {
            if StrLt(ts[i].startTime.value, task.startTime.value) {
              StrLtTransitive(ts[i].startTime.value, task.startTime.value, e);
            }
          } else {
            StrLtIrreflexive(task.startTime.value);
          }
        }
      } else if HasStart(task) && e != "" {
        StrLtIrreflexive(e);
        StrLtTotal(task.startTime.value, e);
      } else if HasStart(task) {
        StrLtIrreflexive(task.startTime.value);
      }
    }
  }

  /** Every start time in the day is a "HH:MM" time of day. */
  predicate ClockStarts(ts: seq<Task>)
  {
    forall i :: 0 <= i < |ts| && HasStart(ts[i]) ==> IsClock(ts[i].startTime.value) && ClockHour(ts[i].startTime.value) < 24
  }

  lemma EarliestIsClock(ts: seq<Task>)
    requires ClockStarts(ts) && EarliestStart(ts) != ""
    ensures IsClock(EarliestStart(ts)) && ClockHour(EarliestStart(ts)) < 24
  {
    EarliestStartMeaning(ts);
  }

  /** calculateOptimalWakeTime: 07:00 without a timed task; otherwise 90
      minutes before the earliest start, with an hour below 5 raised to 5
      and the minute left as it is. */
  method CalculateOptimalWakeTime(day: DaySchedule) returns (wake: string)
    requires ClockStarts(day.tasks)
    ensures (forall i :: 0 <= i < |day.tasks| ==> !HasStart(day.tasks[i])) ==> wake == "07:00"
    ensures (exists i :: 0 <= i < |day.tasks| && HasStart(day.tasks[i])) ==>
      var start := EarliestStart(day.tasks);
      IsClock(start) && WakeFor(start, wake)
  {
    EarliestStartMeaning(day.tasks);
    if |day.tasks| == 0 {
      return "07:00";
    }
    var earliestTask := FindEarliest(day.tasks);
    if earliestTask == "" {
      return "07:00";
    }
    EarliestIsClock(day.tasks);
    wake := WakeBefore(earliestTask);
  }

  /** The reduce over the tasks. */
  method FindEarliest(tasks: seq<Task>) returns (earliest: string)
    ensures earliest == EarliestStart(tasks)
  {
    earliest := "";
    var index := 0;
    while index < |tasks|
      invariant 0 <= index <= |tasks|
      invariant earliest == EarliestStart(tasks[..index])
    {
      var task := tasks[index];
      assert tasks[..index + 1][..index] == tasks[..index];
      if HasStart(task) {
        if earliest == "" || StrLt(task.startTime.value, earliest) {
          earliest := task.startTime.value;
        }
      }
      index := index + 1;
    }
    assert tasks[..index] == tasks;
  }

  /** The wake time for a start: a two-digit "HH:MM", exactly 90 minutes
      earlier from 06:30 on, hour 5 with the start's minute shifted by 30
      before that. */
  predicate WakeFor(start: string, wake: string)
    requires IsClock(start)
  {
    IsClock(wake)
    && (ClockMinutes(start) >= 390 ==> ClockMinutes(wake) == ClockMinutes(start) - 90)
    && (ClockMinutes(start) < 390 ==> ClockHour(wake) == 5 && ClockMinute(wake) == (ClockMinute(start) + 30) % 60)
  }

  /** The step-by-step adjustment of wakeHour and wakeMinute. */
  method WakeBefore(earliestTask: string) returns (wake: string)
    requires IsClock(earliestTask) && ClockHour(earliestTask) < 24
    ensures WakeFor(earliestTask, wake)
  {
    ClockDigits(earliestTask);
    var hours := ClockHour(earliestTask);
    var minutes := ClockMinute(earliestTask);
    var wakeHour: int := hours as int - 1;
    var wakeMinute: int := minutes as int - 30;
    if wakeMinute < 0 {
      wakeMinute := wakeMinute + 60;
      wakeHour := wakeHour - 1;
    }
    if wakeHour < 5 {
      wakeHour := 5;
    }
    wake := Pad2(wakeHour) + ":" + Pad2(wakeMinute);
    ClockOfPad2(wakeHour, wakeMinute);
  }

  lemma ClockOfPad2(h: nat, m: nat)
    requires h < 100 && m < 60
    ensures IsClock(Pad2(h) + ":" + Pad2(m))
    ensures ClockHour(Pad2(h) + ":" + Pad2(m)) == h && ClockMinute(Pad2(h) + ":" + Pad2(m)) == m
  {
    var s := Pad2(h) + ":" + Pad2(m);
    assert s[..2] == Pad2(h) && s[3..] == Pad2(m);
    Pad2Parse(h);
    Pad2Parse(m);
    ParseTwoDigits(Pad2(m));
  }

  // ---------------------------------------------------------------------
  // Schedule edits

  function ToggleInDay(tasks: seq<Task>, taskId: string): (r: seq<Task>)
    ensures |r| == |tasks|
    ensures forall i :: 0 <= i < |r| ==>
      if tasks[i].id == taskId then r[i] == tasks[i].(completed := !tasks[i].completed) else r[i] == tasks[i]
  {
    seq(|tasks|, i requires 0 <= i < |tasks| =>
      if tasks[i].id == taskId then tasks[i].(completed := !tasks[i].completed) else tasks[i])
  }

  /** toggleTask: flips `completed` of the tasks with that id on the days with
      that date; every other day and task is unchanged. */
  function ToggleTask(schedule: seq<DaySchedule>, dateStr: string, taskId: string): (r: seq<DaySchedule>)
    ensures |r| == |schedule|
    ensures forall d :: 0 <= d < |r| ==>
      if schedule[d].date == dateStr then r[d] == schedule[d].(tasks := ToggleInDay(schedule[d].tasks, taskId))
      else r[d] == schedule[d]
  {
    seq(|schedule|, d requires 0 <= d < |schedule| =>
      if schedule[d].date == dateStr then schedule[d].(tasks := ToggleInDay(schedule[d].tasks, taskId)) else schedule[d])
  }

  /** Toggling the same task twice restores the schedule. */
  lemma ToggleTaskTwice(schedule: seq<DaySchedule>, dateStr: string, taskId: string)
    ensures ToggleTask(ToggleTask(schedule, dateStr, taskId), dateStr, taskId) == schedule
  {
    var once := ToggleTask(schedule, dateStr, taskId);
    var twice := ToggleTask(once, dateStr, taskId);
    forall d | 0 <= d < |schedule| ensures twice[d] == schedule[d] {
      if schedule[d].date == dateStr {
        assert ToggleInDay(ToggleInDay(schedule[d].tasks, taskId), taskId) == schedule[d].tasks;
      }
    }
  }

  /** The add-task button: with a title, a new uncompleted task without a
      start time goes at the end of the selected day and the form is reset;
      without one nothing happens. */
  function AddTask(p: Planner, id: string): (r: Planner)
    ensures p.newTask.title == "" ==> r == p
    ensures p.newTask.title != "" ==>
      r.selectedDate == p.selectedDate && r.newTask == EmptyForm && |r.schedule| == |p.schedule|
      && forall d :: 0 <= d < |r.schedule| ==>
        if p.schedule[d].date == p.selectedDate then
          r.schedule[d] == p.schedule[d].(tasks := p.schedule[d].tasks +
            [Task(id, p.newTask.title, p.newTask.duration, p.newTask.priority, false, None, p.newTask.category)])
        else r.schedule[d] == p.schedule[d]
  {
    if p.newTask.title == "" then p
    else
      var task := Task(id, p.newTask.title, p.newTask.duration, p.newTask.priority, false, None, p.newTask.category);
      var updated := seq(|p.schedule|, d requires 0 <= d < |p.schedule| =>
        if p.schedule[d].date == p.selectedDate then p.schedule[d].(tasks := p.schedule[d].tasks + [task]) else p.schedule[d]);
      Planner(updated, p.selectedDate, EmptyForm)
  }

  /** A task added through the form never carries a start time, so it does
      not move the recommended wake time. */
  lemma AddTaskKeepsEarliest(tasks: seq<Task>, t: Task)
    requires t.startTime == None
    ensures EarliestStart(tasks + [t]) == EarliestStart(tasks)
  {
    assert (tasks + [t])[..|tasks|] == tasks;
  }

  // ---------------------------------------------------------------------
  // Totals

  /** calculateDailyProgress: the rounded share of completed tasks. */
  function DailyProgress(day: DaySchedule): (r: int)
    ensures 0 <= r <= 100
    ensures day.tasks == [] ==> r == 0
  {
    if |day.tasks| == 0 then 0
    else Percent(Count(day.tasks, (t: Task) => t.completed), |day.tasks|)
  }

  /** Completing every task gives 100, completing none 0. */
  lemma DailyProgressExtremes(day: DaySchedule)
    requires day.tasks != []
    ensures (forall i :: 0 <= i < |day.tasks| ==> day.tasks[i].completed) ==> DailyProgress(day) == 100
    ensures (forall i :: 0 <= i < |day.tasks| ==> !day.tasks[i].completed) ==> DailyProgress(day) == 0
  {
    var done := (t: Task) => t.completed;
    if forall i :: 0 <= i < |day.tasks| ==> day.tasks[i].completed {
      CountAll(day.tasks, done);
    }
    if forall i :: 0 <= i < |day.tasks| ==> !day.tasks[i].completed {
      CountNone(day.tasks, done);
    }
  }

  function DurationOf(t: Task): int { t.duration }

  /** `total % 60` in JavaScript: the remainder takes the sign of total. */
  function JsRem60(total: int): int
  {
    if total >= 0 then total % 60 else -((-total) % 60)
  }

  /** calculateTotalWorkTime: the duration sum split into whole hours
      (rounded down) and the remainder in minutes. */
  function TotalWorkTime(tasks: seq<Task>): (r: (int, int))
    ensures var total := SumBy(tasks, DurationOf);
      total >= 0 ==> 60 * r.0 + r.1 == total && 0 <= r.1 < 60
  {
    var total := SumBy(tasks, DurationOf);
    (total / 60, JsRem60(total))
  }

  function FormatWorkTime(tasks: seq<Task>): string
  {
    var t := TotalWorkTime(tasks);
    IntToString(t.0) + "時間" + IntToString(t.1) + "分"
  }
}
