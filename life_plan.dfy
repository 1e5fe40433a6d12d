/** The life-plan simulator: phase plans adjusted by the three chosen
    scenario dimensions, the advice built from those choices, and the
    per-period task checklist. */
module LifePlan {
  import opened Common

  datatype ConditionLevel = Stable | Fragile
  datatype SupportLevel = Family | Medical | SelfCare
  datatype GoalFocus = Health | Legacy | Lifestyle

  datatype SimulationPhase = SimulationPhase(
    id: string, title: string, timeframe: string, focus: string,
    actions: seq<string>, watchPoints: seq<string>)

  /** The optional extras one scenario choice adds to one phase. */
  datatype Adjustment = Adjustment(actions: Option<seq<string>>, watchPoints: Option<seq<string>>)

  /** The adjustments of one choice, by phase id. */
  type PhaseAdjustments = map<string, Adjustment>

  // ---------------------------------------------------------------------
  // buildSimulationPlan

  /** `adjustment[phaseId]?.actions`, or nothing. */
  function ExtraActions(adjustment: PhaseAdjustments, phaseId: string): seq<string>
  {
    if phaseId in adjustment && adjustment[phaseId].actions.Some? then adjustment[phaseId].actions.value else []
  }

  function ExtraWatchPoints(adjustment: PhaseAdjustments, phaseId: string): seq<string>
  {
    if phaseId in adjustment && adjustment[phaseId].watchPoints.Some? then adjustment[phaseId].watchPoints.value else []
  }

  /** A phase with the extras of the condition, support and goal choices
      merged into its actions and watch points, first occurrences kept. */
  function PlannedPhase(phase: SimulationPhase, condition: PhaseAdjustments, support: PhaseAdjustments,
    goal: PhaseAdjustments): SimulationPhase
  {
    phase.(
      actions := Dedup(phase.actions + ExtraActions(condition, phase.id) + ExtraActions(support, phase.id)
        + ExtraActions(goal, phase.id)),
      watchPoints := Dedup(phase.watchPoints + ExtraWatchPoints(condition, phase.id)
        + ExtraWatchPoints(support, phase.id) + ExtraWatchPoints(goal, phase.id)))
  }

  function SimulationPlan(basePhases: seq<SimulationPhase>, condition: PhaseAdjustments,
    support: PhaseAdjustments, goal: PhaseAdjustments): (plan: seq<SimulationPhase>)
    ensures |plan| == |basePhases|
  {
    seq(|basePhases|, i requires 0 <= i < |basePhases| => PlannedPhase(basePhases[i], condition, support, goal))
  }

  /** `items.forEach(x => set.add(x))` on a set whose insertion order is `acc`. */
  method AddEach(acc: seq<string>, items: seq<string>) returns (r: seq<string>)
    ensures r == AddAll(acc, items)
  {
    r := acc;
    var i := 0;
    while i < |items|
      invariant 0 <= i <= |items|
      invariant AddAll(r, items[i..]) == AddAll(acc, items)
    {
      assert items[i..][1..] == items[i + 1..];
      if items[i] !in r {
        r := r + [items[i]];
      }
      i := i + 1;
    }
  }

  /** One list of a phase: a set seeded with the base list, then the extras
      of the condition, support and goal choices added in turn. */
  method MergeInto(base: seq<string>, fromCondition: seq<string>, fromSupport: seq<string>, fromGoal: seq<string>)
    returns (r: seq<string>)
    ensures r == Dedup(base + fromCondition + fromSupport + fromGoal)
  {
    r := AddEach([], base);
    r := AddEach(r, fromCondition);
    r := AddEach(r, fromSupport);
    r := AddEach(r, fromGoal);
    AddAllAppend([], base, fromCondition);
    AddAllAppend([], base + fromCondition, fromSupport);
    AddAllAppend([], base + fromCondition + fromSupport, fromGoal);
  }

  /** A merged list has no repeats, holds exactly the base and extra entries,
      and starts with the base list when that has no repeats itself. */
  lemma MergedMeaning(base: seq<string>, a: seq<string>, b: seq<string>, c: seq<string>)
    ensures var merged := Dedup(base + a + b + c);
      NoDup(merged)
      && (forall x :: x in merged <==> x in base || x in a || x in b || x in c)
      && (NoDup(base) ==> |base| <= |merged| && merged[..|base|] == base)
  {
    var extras := a + b + c;
    assert base + a + b + c == base + extras;
    DedupProps(base + extras);
    AddAllAppend([], base, extras);
    if NoDup(base) {
      DedupOfNoDup(base);
    }
  }

  /** buildSimulationPlan, given the adjustments of the chosen condition,
      support and goal. */
  method BuildSimulationPlan(basePhases: seq<SimulationPhase>, condition: PhaseAdjustments,
    support: PhaseAdjustments, goal: PhaseAdjustments) returns (plan: seq<SimulationPhase>)
    ensures plan == SimulationPlan(basePhases, condition, support, goal)
  {
    plan := [];
    var i := 0;
    while i < |basePhases|
      invariant 0 <= i <= |basePhases|
      invariant plan == SimulationPlan(basePhases[..i], condition, support, goal)
    {
      var phase := basePhases[i];
      var actions := MergeInto(phase.actions,
        ExtraActions(condition, phase.id), ExtraActions(support, phase.id), ExtraActions(goal, phase.id));
      var watchPoints := MergeInto(phase.watchPoints,
        ExtraWatchPoints(condition, phase.id), ExtraWatchPoints(support, phase.id), ExtraWatchPoints(goal, phase.id));
      plan := plan + [phase.(actions := actions, watchPoints := watchPoints)];
      assert basePhases[..i + 1][..i] == basePhases[..i];
      i := i + 1;
    }
    assert basePhases[..i] == basePhases;
  }

  /** The plan keeps the phases in order with everything but actions and
      watch points; the merged lists have no repeats, hold exactly the base
      and extra entries, and start with the base list when it has none. */
  lemma SimulationPlanMeaning(basePhases: seq<SimulationPhase>, condition: PhaseAdjustments,
    support: PhaseAdjustments, goal: PhaseAdjustments, i: nat)
    requires i < |basePhases|
    ensures var phase, planned := basePhases[i], SimulationPlan(basePhases, condition, support, goal)[i];
      planned == phase.(actions := planned.actions, watchPoints := planned.watchPoints)
      && NoDup(planned.actions) && NoDup(planned.watchPoints)
      && (forall x :: x in planned.actions <==>
        x in phase.actions || x in ExtraActions(condition, phase.id) || x in ExtraActions(support, phase.id)
        || x in ExtraActions(goal, phase.id))
      && (forall x :: x in planned.watchPoints <==>
        x in phase.watchPoints || x in ExtraWatchPoints(condition, phase.id)
        || x in ExtraWatchPoints(support, phase.id) || x in ExtraWatchPoints(goal, phase.id))
      && (NoDup(phase.actions) ==>
        |phase.actions| <= |planned.actions| && planned.actions[..|phase.actions|] == phase.actions)
      && (NoDup(phase.watchPoints) ==>
        |phase.watchPoints| <= |planned.watchPoints| && planned.watchPoints[..|phase.watchPoints|] == phase.watchPoints)
  {
    var phase := basePhases[i];
    MergedMeaning(phase.actions, ExtraActions(condition, phase.id), ExtraActions(support, phase.id),
      ExtraActions(goal, phase.id));
    MergedMeaning(phase.watchPoints, ExtraWatchPoints(condition, phase.id), ExtraWatchPoints(support, phase.id),
      ExtraWatchPoints(goal, phase.id));
  }

  // ---------------------------------------------------------------------
  // globalWatchPoints

  function AllWatchPoints(plan: seq<SimulationPhase>): seq<string>
  {
    if plan == [] then [] else AllWatchPoints(plan[..|plan| - 1]) + plan[|plan| - 1].watchPoints
  }

  /** `Array.from(new Set(plan.flatMap(p => p.watchPoints)))`. */
  function GlobalWatchPoints(plan: seq<SimulationPhase>): seq<string>
  {
    Dedup(AllWatchPoints(plan))
  }

  lemma {:induction false} AllWatchPointsMembers(plan: seq<SimulationPhase>)
    ensures forall x :: x in AllWatchPoints(plan) <==> exists i :: 0 <= i < |plan| && x in plan[i].watchPoints
  {
    if plan != [] {
      var init := plan[..|plan| - 1];
      AllWatchPointsMembers(init);
      forall x ensures x in AllWatchPoints(plan) <==> exists i :: 0 <= i < |plan| && x in plan[i].watchPoints {
        if x in AllWatchPoints(init) {
          var i :| 0 <= i < |init| && x in init[i].watchPoints;
          assert plan[i] == init[i];
        }
        if exists i :: 0 <= i < |plan| && x in plan[i].watchPoints {
          var i :| 0 <= i < |plan| && x in plan[i].watchPoints;
          if i < |init| { assert init[i] == plan[i]; }
        }
      }
    }
  }

  /** The global list names every phase's watch points, each once, and
      nothing else. */
  lemma GlobalWatchPointsMeaning(plan: seq<SimulationPhase>)
    ensures NoDup(GlobalWatchPoints(plan))
    ensures forall x :: x in GlobalWatchPoints(plan) <==> exists i :: 0 <= i < |plan| && x in plan[i].watchPoints
  {
    AllWatchPointsMembers(plan);
    DedupProps(AllWatchPoints(plan));
  }

  // ---------------------------------------------------------------------
  // buildScenarioHighlights and buildAiGuidance

  /** The highlight sentence chosen for each dimension, by the choice it
      speaks about. */
  datatype Highlight =
    | ConditionHighlight(condition: ConditionLevel)
    | SupportHighlight(support: SupportLevel)
    | GoalHighlight(goal: GoalFocus)

  /** buildScenarioHighlights: one sentence per choice dimension, in the
      order condition, support, goal. */
  method BuildScenarioHighlights(condition: ConditionLevel, support: SupportLevel, goal: GoalFocus)
    returns (highlights: seq<Highlight>)
    ensures |highlights| == 3
    ensures highlights[0] == ConditionHighlight(condition)
    ensures highlights[1] == SupportHighlight(support)
    ensures highlights[2] == GoalHighlight(goal)
  {
    highlights := [];
    if condition == Fragile {
      highlights := highlights + [ConditionHighlight(Fragile)];
    } else {
      highlights := highlights + [ConditionHighlight(Stable)];
    }
    match support {
      case Family => highlights := highlights + [SupportHighlight(Family)];
      case Medical => highlights := highlights + [SupportHighlight(Medical)];
      case SelfCare => highlights := highlights + [SupportHighlight(SelfCare)];
    }
    match goal {
      case Health => highlights := highlights + [GoalHighlight(Health)];
      case Legacy => highlights := highlights + [GoalHighlight(Legacy)];
      case Lifestyle => highlights := highlights + [GoalHighlight(Lifestyle)];
    }
  }

  /** The label (`labelText`) and note of the option the user chose in one dimension. */
  datatype ChoiceText = ChoiceText(labelText: string, note: string)

  /** The three prompts: the weekly-balance request built from the choices,
      the checklist before the next consultation, and the end-of-life
      document roadmap. */
  datatype Prompt =
    | WeeklyBalance(age: nat, condition: string, conditionNote: string, supportLabel: string, goalLabel: string)
    | ConsultationChecklist
    | DocumentRoadmap

  datatype AiGuidance = AiGuidance(focusSummary: string, prompts: seq<Prompt>, reminders: seq<string>,
    nudges: seq<string>)

  const ProfileAge := 71
  const ProfileCondition := "大きな手術後（開腹手術想定）から3か月"
  /** The standing reminder that the advice is not a medical judgement. */
  const MedicalDisclaimer := "AIの提案は医療判断ではないため、診断や処方が必要な内容は必ず主治医と確認しましょう。"

  /** The standing nudge to share the weekly records with the assistant. */
  const RecordSharingNudge := "体調・食事・気分の記録を週1回まとめてAIに共有すると、変化の兆候に気付きやすくなります。"

  function NonEmpty(s: seq<string>): (r: seq<string>)
    ensures forall x :: x in r <==> x in s && x != ""
  {
    Filter(s, (x: string) => x != "")
  }

  /** `parts.join(separator)`. */
  function Join(parts: seq<string>, separator: string): string
  {
    if parts == [] then "" else if |parts| == 1 then parts[0] else Join(parts[..|parts| - 1], separator) + separator + parts[|parts| - 1]
  }

  /** buildAiGuidance from the three chosen options. */
  function BuildAiGuidance(condition: ChoiceText, support: ChoiceText, goal: ChoiceText): (g: AiGuidance)
    ensures |g.prompts| == 3
    ensures g.prompts[0] == WeeklyBalance(ProfileAge, ProfileCondition, condition.note, support.labelText, goal.labelText)
    ensures g.prompts[1] == ConsultationChecklist && g.prompts[2] == DocumentRoadmap
    ensures forall x :: x in g.reminders <==> x == MedicalDisclaimer || (x == support.note && x != "")
    ensures forall x :: x in g.nudges <==> x == RecordSharingNudge || (x != "" && (x == condition.note || x == goal.note))
    ensures MedicalDisclaimer in g.reminders && RecordSharingNudge in g.nudges
    ensures 1 <= |g.reminders| <= 2 && 1 <= |g.nudges| <= 3
  {
    AiGuidance(
      Join(NonEmpty([condition.labelText, support.labelText, goal.labelText]), " / "),
      [WeeklyBalance(ProfileAge, ProfileCondition, condition.note, support.labelText, goal.labelText),
       ConsultationChecklist, DocumentRoadmap],
      NonEmpty([MedicalDisclaimer, support.note]),
      NonEmpty([condition.note, goal.note, RecordSharingNudge]))
  }

  // ---------------------------------------------------------------------
  // The checklist

  datatype Priority = High | MediumPriority | Low

  datatype Task = Task(id: string, title: string, category: string, priority: Priority, completed: bool, notes: string)

  datatype Period = Period(id: string, name: string, timeframe: string, description: string, tasks: seq<Task>)

  /** `tasks.map(t => t.id === taskId ? {...t, completed: !t.completed} : t)`. */
  function FlipTasks(tasks: seq<Task>, taskId: string): (r: seq<Task>)
    ensures |r| == |tasks|
    ensures forall j :: 0 <= j < |tasks| ==>
      r[j] == (if tasks[j].id == taskId then tasks[j].(completed := !tasks[j].completed) else tasks[j])
  {
    seq(|tasks|, j requires 0 <= j < |tasks| =>
      if tasks[j].id == taskId then tasks[j].(completed := !tasks[j].completed) else tasks[j])
  }

  /** toggleTask: flips the matching task of the matching period only. */
  function ToggleTask(periods: seq<Period>, periodId: string, taskId: string): (r: seq<Period>)
    ensures |r| == |periods|
    ensures forall i :: 0 <= i < |periods| && periods[i].id != periodId ==> r[i] == periods[i]
    ensures forall i :: 0 <= i < |periods| && periods[i].id == periodId ==>
      r[i] == periods[i].(tasks := FlipTasks(periods[i].tasks, taskId))
  {
    seq(|periods|, i requires 0 <= i < |periods| =>
      if periods[i].id == periodId then periods[i].(tasks := FlipTasks(periods[i].tasks, taskId)) else periods[i])
  }

  /** Toggling the same task twice restores the plan. */
  lemma ToggleTaskTwice(periods: seq<Period>, periodId: string, taskId: string)
    ensures ToggleTask(ToggleTask(periods, periodId, taskId), periodId, taskId) == periods
  {
    var once := ToggleTask(periods, periodId, taskId);
    var twice := ToggleTask(once, periodId, taskId);
    forall i | 0 <= i < |periods|
      ensures twice[i] == periods[i]
    {
      if periods[i].id == periodId {
        assert FlipTasks(FlipTasks(periods[i].tasks, taskId), taskId) == periods[i].tasks;
      }
    }
  }

  /** `tasks.map(t => t.id === taskId ? {...t, notes} : t)`. */
  function WithNotes(tasks: seq<Task>, taskId: string, notes: string): (r: seq<Task>)
    ensures |r| == |tasks|
    ensures forall j :: 0 <= j < |tasks| ==>
      r[j] == (if tasks[j].id == taskId then tasks[j].(notes := notes) else tasks[j])
  {
    seq(|tasks|, j requires 0 <= j < |tasks| => if tasks[j].id == taskId then tasks[j].(notes := notes) else tasks[j])
  }

  /** updateTaskNotes: rewrites the notes of the matching task of the
      matching period only. */
  function UpdateTaskNotes(periods: seq<Period>, periodId: string, taskId: string, notes: string): (r: seq<Period>)
    ensures |r| == |periods|
    ensures forall i :: 0 <= i < |periods| && periods[i].id != periodId ==> r[i] == periods[i]
    ensures forall i :: 0 <= i < |periods| && periods[i].id == periodId ==>
      r[i] == periods[i].(tasks := WithNotes(periods[i].tasks, taskId, notes))
  {
    seq(|periods|, i requires 0 <= i < |periods| =>
      if periods[i].id == periodId then periods[i].(tasks := WithNotes(periods[i].tasks, taskId, notes)) else periods[i])
  }

  /** Writing notes twice keeps the second; it never touches completion. */
  lemma UpdateTaskNotesLastWins(periods: seq<Period>, periodId: string, taskId: string, first: string, second: string)
    ensures UpdateTaskNotes(UpdateTaskNotes(periods, periodId, taskId, first), periodId, taskId, second)
      == UpdateTaskNotes(periods, periodId, taskId, second)
    ensures forall i, j :: 0 <= i < |periods| && 0 <= j < |periods[i].tasks| ==>
      UpdateTaskNotes(periods, periodId, taskId, first)[i].tasks[j].completed == periods[i].tasks[j].completed
  {
    var once := UpdateTaskNotes(periods, periodId, taskId, first);
    forall i | 0 <= i < |periods|
      ensures UpdateTaskNotes(once, periodId, taskId, second)[i] == UpdateTaskNotes(periods, periodId, taskId, second)[i]
    {
      if periods[i].id == periodId {
        assert WithNotes(WithNotes(periods[i].tasks, taskId, first), taskId, second)
          == WithNotes(periods[i].tasks, taskId, second);
      }
    }
  }

  function IsCompleted(t: Task): bool { t.completed }

  /** calculateProgress: 0 for no tasks, otherwise the rounded percentage of
      completed tasks. */
  function CalculateProgress(tasks: seq<Task>): (r: int)
    ensures tasks == [] ==> r == 0
    ensures tasks != [] ==> r == Percent(Count(tasks, IsCompleted), |tasks|)
    ensures 0 <= r <= 100
  {
    if |tasks| == 0 then 0 else Percent(Count(tasks, IsCompleted), |tasks|)
  }

  /** Completing an open task never lowers the progress. */
  lemma ProgressGrowsWhenCompleting(tasks: seq<Task>, taskId: string)
    requires forall j :: 0 <= j < |tasks| && tasks[j].id == taskId ==> !tasks[j].completed
    ensures CalculateProgress(tasks) <= CalculateProgress(FlipTasks(tasks, taskId))
  {
    if tasks != [] {
      var flipped := FlipTasks(tasks, taskId);
      CountMonotonePointwise(tasks, flipped);
      PercentMonotone(Count(tasks, IsCompleted), Count(flipped, IsCompleted), |tasks|);
    }
  }

  lemma {:induction false} CountMonotonePointwise(a: seq<Task>, b: seq<Task>)
    requires |a| == |b|
    requires forall j :: 0 <= j < |a| ==> a[j].completed ==> b[j].completed
    ensures Count(a, IsCompleted) <= Count(b, IsCompleted)
  {
    if a != [] {
      assert forall j :: 0 <= j < |a[1..]| ==> a[1..][j] == a[j + 1] && b[1..][j] == b[j + 1];
      CountMonotonePointwise(a[1..], b[1..]);
    }
  }
}
