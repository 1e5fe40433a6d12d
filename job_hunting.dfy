/** The job-hunting journey: the handover and fun-activity checklists,
    their progress percentages, and the company status counters. */
module JobHunting {
  import opened Common

  datatype CompanyStatus = Interested | Applied | Interview | Offer | Rejected | Declined

  datatype Company = Company(
    id: string, name: string, status: CompanyStatus, excitement: int, notes: string,
    interviewDate: Option<string>, emoji: string)

  datatype HandoverTask = HandoverTask(
    id: string, task: string, completed: bool, assignee: string, deadline: string, category: string)

  datatype ActivityCategory = Experience | Network | Travel | Skill

  datatype FunActivity = FunActivity(
    id: string, activity: string, completed: bool, emoji: string, category: ActivityCategory)

  // ---------------------------------------------------------------------
  // The two checklists

  /** toggleHandoverTask: flips `completed` of the tasks carrying that id. */
  function ToggleHandoverTask(tasks: seq<HandoverTask>, id: string): (r: seq<HandoverTask>)
    ensures |r| == |tasks|
    ensures forall i :: 0 <= i < |tasks| && tasks[i].id != id ==> r[i] == tasks[i]
    ensures forall i :: 0 <= i < |tasks| && tasks[i].id == id ==>
      r[i] == tasks[i].(completed := !tasks[i].completed)
  {
    seq(|tasks|, i requires 0 <= i < |tasks| =>
      if tasks[i].id == id then tasks[i].(completed := !tasks[i].completed) else tasks[i])
  }

  /** toggleFunActivity: flips `completed` of the activities carrying that id. */
  function ToggleFunActivity(activities: seq<FunActivity>, id: string): (r: seq<FunActivity>)
    ensures |r| == |activities|
    ensures forall i :: 0 <= i < |activities| && activities[i].id != id ==> r[i] == activities[i]
    ensures forall i :: 0 <= i < |activities| && activities[i].id == id ==>
      r[i] == activities[i].(completed := !activities[i].completed)
  {
    seq(|activities|, i requires 0 <= i < |activities| =>
      if activities[i].id == id then activities[i].(completed := !activities[i].completed) else activities[i])
  }

  /** Ticking the same box twice restores both lists. */
  lemma ToggleTwice(tasks: seq<HandoverTask>, activities: seq<FunActivity>, id: string)
    ensures ToggleHandoverTask(ToggleHandoverTask(tasks, id), id) == tasks
    ensures ToggleFunActivity(ToggleFunActivity(activities, id), id) == activities
  {
  }

  predicate TaskDone(t: HandoverTask) { t.completed }
  predicate ActivityDone(a: FunActivity) { a.completed }

  /** Overwriting one position changes a count by that position alone. */
  lemma {:induction false} CountUpdate<T>(s: seq<T>, i: nat, x: T, p: T -> bool)
    requires i < |s|
    ensures Count(s[i := x], p) == Count(s, p) - (if p(s[i]) then 1 else 0) + (if p(x) then 1 else 0)
  {
    if i > 0 {
      assert s[i := x][1..] == s[1..][i - 1 := x];
      CountUpdate(s[1..], i - 1, x, p);
    } else {
      assert s[i := x][1..] == s[1..];
    }
  }

  /** Ticking an open task whose id is unique completes exactly one more task. */
  lemma TickCompletesOne(tasks: seq<HandoverTask>, i: nat)
    requires i < |tasks| && !tasks[i].completed
    requires forall j :: 0 <= j < |tasks| && j != i ==> tasks[j].id != tasks[i].id
    ensures Count(ToggleHandoverTask(tasks, tasks[i].id), TaskDone) == Count(tasks, TaskDone) + 1
  {
    var t := tasks[i];
    assert ToggleHandoverTask(tasks, t.id) == tasks[i := t.(completed := true)];
    CountUpdate(tasks, i, t.(completed := true), TaskDone);
  }

  // ---------------------------------------------------------------------
  // Progress

  /** `Math.round(done / total * 100)`; an empty list divides by zero and
      yields NaN, written None. */
  function Progress(done: nat, total: nat): (r: Option<int>)
    requires done <= total
    ensures r.None? <==> total == 0
    ensures r.Some? ==> 0 <= r.value <= 100
    ensures r.Some? && done == 0 ==> r.value == 0
    ensures r.Some? && done == total ==> r.value == 100
  {
    if total == 0 then None else Some(Percent(done, total))
  }

  function HandoverProgress(tasks: seq<HandoverTask>): (r: Option<int>)
    ensures tasks != [] ==> r == Some(Percent(Count(tasks, TaskDone), |tasks|))
  {
    Progress(Count(tasks, TaskDone), |tasks|)
  }

  function FunProgress(activities: seq<FunActivity>): (r: Option<int>)
    ensures activities != [] ==> r == Some(Percent(Count(activities, ActivityDone), |activities|))
  {
    Progress(Count(activities, ActivityDone), |activities|)
  }

  /** Progress is 100% when every task is ticked... */
  lemma {:induction false} AllDoneIsFull(tasks: seq<HandoverTask>)
    requires tasks != [] && forall i :: 0 <= i < |tasks| ==> tasks[i].completed
    ensures HandoverProgress(tasks) == Some(100)
  {
    CountAll(tasks, TaskDone);
  }

  /** ...and is 0% when none is. */
  lemma {:induction false} NoneDoneIsZero(activities: seq<FunActivity>)
    requires activities != [] && forall i :: 0 <= i < |activities| ==> !activities[i].completed
    ensures FunProgress(activities) == Some(0)
  {
    CountNone(activities, ActivityDone);
  }

  /** Ticking an open, uniquely named task never lowers the shown progress. */
  lemma TickRaisesProgress(tasks: seq<HandoverTask>, i: nat)
    requires i < |tasks| && !tasks[i].completed
    requires forall j :: 0 <= j < |tasks| && j != i ==> tasks[j].id != tasks[i].id
    ensures HandoverProgress(tasks).value <= HandoverProgress(ToggleHandoverTask(tasks, tasks[i].id)).value
  {
    var after := ToggleHandoverTask(tasks, tasks[i].id);
    TickCompletesOne(tasks, i);
    PercentMonotone(Count(tasks, TaskDone), Count(after, TaskDone), |tasks|);
  }

  // ---------------------------------------------------------------------
  // The status counters

  predicate Considering(c: Company) { c.status == Interested }
  predicate InSelection(c: Company) { c.status == Applied || c.status == Interview }
  predicate Offered(c: Company) { c.status == Offer }

  datatype StatusCounts = StatusCounts(considering: nat, inSelection: nat, offers: nat)

  /** The three counters of the journey tab, which never count a company
      twice: together they are at most the number of companies. */
  function CountStatuses(companies: seq<Company>): (r: StatusCounts)
    ensures r.considering + r.inSelection + r.offers <= |companies|
  {
    CountExclusive3(companies, Considering, InSelection, Offered);
    StatusCounts(Count(companies, Considering), Count(companies, InSelection), Count(companies, Offered))
  }

  /** Three predicates of which at most one holds for every element count
      at most |s| together. */
  lemma {:induction false} CountExclusive3<T>(s: seq<T>, p: T -> bool, q: T -> bool, u: T -> bool)
    requires forall i :: 0 <= i < |s| ==>
      (if p(s[i]) then 1 else 0) + (if q(s[i]) then 1 else 0) + (if u(s[i]) then 1 else 0) <= 1
    ensures Count(s, p) + Count(s, q) + Count(s, u) <= |s|
  {
    if s != [] {
      assert forall i :: 0 <= i < |s[1..]| ==> s[1..][i] == s[i + 1];
      CountExclusive3(s[1..], p, q, u);
    }
  }

  /** Only rejected and declined companies fall outside the counters. */
  lemma {:induction false} CountersCoverOpenCompanies(companies: seq<Company>)
    requires forall i :: 0 <= i < |companies| ==>
      companies[i].status != Rejected && companies[i].status != Declined
    ensures var r := CountStatuses(companies); r.considering + r.inSelection + r.offers == |companies|
  {
    CountPartition3(companies, Considering, InSelection, Offered);
  }
}
