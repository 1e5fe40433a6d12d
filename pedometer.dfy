/** The expo pedometer page: one record per day with steps, active minutes,
    saved walking sessions and manual additions; an active session whose
    per-second tick turns the walking tempo into whole steps; the target
    streak and the daily completion.  Dates are "YYYY-MM-DD" strings and
    `today` is passed in. */
module Pedometer {
  import opened Common
  import Sorting

  datatype Intensity = Easy | Moderate | Vigorous

  datatype ManualEntry = ManualEntry(id: string, timestamp: string, steps: int, context: string)

  datatype SavedSession = SavedSession(
    id: string, startIso: string, endIso: string, steps: int, durationMinutes: int,
    tempo: nat, intensity: Intensity, area: string, labelText: string)

  datatype DailyRecord = DailyRecord(
    date: string, steps: int, activeMinutes: int, sessions: seq<SavedSession>, manualAdds: seq<ManualEntry>)

  /** A running session.  `accumulatedSteps` is kept in sixtieths of a step:
      a tempo of t steps per minute adds t sixtieths every second. */
  datatype ActiveSession = ActiveSession(
    id: string, startIso: string, tempo: nat, intensity: Intensity, area: string, labelText: string,
    elapsedSeconds: nat, accumulatedSixtieths: nat, loggedSteps: int, isPaused: bool)

  const DefaultDailyTarget := 8000
  const DefaultManualContext := "パビリオンの移動"

  function ZeroRecord(today: string): DailyRecord
  {
    DailyRecord(today, 0, 0, [], [])
  }

  /** At most one record per date. */
  ghost predicate UniqueDates(records: seq<DailyRecord>)
  {
    forall i, j :: 0 <= i < j < |records| ==> records[i].date != records[j].date
  }

  predicate HasDate(records: seq<DailyRecord>, date: string)
  {
    exists i :: 0 <= i < |records| && records[i].date == date
  }

  predicate StepsNonNegative(records: seq<DailyRecord>)
  {
    forall i :: 0 <= i < |records| ==> records[i].steps >= 0
  }

  // ---------------------------------------------------------------------
  // Handler bodies on the record list

  /** `prev.map(record => record.date !== today ? record : f(record))`. */
  function MapToday(records: seq<DailyRecord>, today: string, f: DailyRecord -> DailyRecord): (r: seq<DailyRecord>)
    ensures |r| == |records|
    ensures forall i :: 0 <= i < |r| ==> r[i] == if records[i].date == today then f(records[i]) else records[i]
  {
    seq(|records|, i requires 0 <= i < |records| => if records[i].date == today then f(records[i]) else records[i])
  }

  /** applyStepIncrement: a positive count goes onto today's record; any
      other count changes nothing. */
  function ApplyStepIncrement(records: seq<DailyRecord>, today: string, steps: int): (r: seq<DailyRecord>)
    ensures steps <= 0 ==> r == records
    ensures |r| == |records|
    ensures forall i :: 0 <= i < |r| ==> r[i].date == records[i].date
    ensures steps > 0 ==> forall i :: 0 <= i < |r| ==>
      if records[i].date == today then r[i] == records[i].(steps := records[i].steps + steps) else r[i] == records[i]
  {
    if steps <= 0 then records
    else MapToday(records, today, (record: DailyRecord) => record.(steps := record.steps + steps))
  }

  /** The effect that prepends a zero record for today when none exists. */
  function EnsureToday(records: seq<DailyRecord>, today: string): (r: seq<DailyRecord>)
    ensures HasDate(r, today)
    ensures HasDate(records, today) ==> r == records
    ensures !HasDate(records, today) ==> r == [ZeroRecord(today)] + records
  {
    if HasDate(records, today) then records
    else
      assert ([ZeroRecord(today)] + records)[0].date == today;
      [ZeroRecord(today)] + records
  }

  /** Running the effect again adds nothing, and dates stay unique. */
  lemma EnsureTodayOnce(records: seq<DailyRecord>, today: string)
    ensures EnsureToday(EnsureToday(records, today), today) == EnsureToday(records, today)
    ensures UniqueDates(records) ==> UniqueDates(EnsureToday(records, today))
  {
    if !HasDate(records, today) && UniqueDates(records) {
      var r := EnsureToday(records, today);
      forall i, j | 0 <= i < j < |r| ensures r[i].date != r[j].date {
        if i == 0 { assert r[j] == records[j - 1]; }
        else { assert r[i] == records[i - 1] && r[j] == records[j - 1]; }
      }
    }
  }

  /** `dailyRecords.find(record => record.date === today) ?? zero record`. */
  function TodayRecord(records: seq<DailyRecord>, today: string): (r: DailyRecord)
    ensures r.date == today
    ensures HasDate(records, today) ==> r in records
    ensures !HasDate(records, today) ==> r == ZeroRecord(today)
  {
    if records == [] then ZeroRecord(today)
    else if records[0].date == today then records[0]
    else
      var r := TodayRecord(records[1..], today);
      assert HasDate(records, today) ==> HasDate(records[1..], today) by {
        if HasDate(records, today) {
          var k :| 0 <= k < |records| && records[k].date == today;
          assert records[1..][k - 1] == records[k];
        }
      }
      r
  }

  /** With unique dates, today's record is the one entry dated today. */
  lemma TodayRecordUnique(records: seq<DailyRecord>, today: string, k: nat)
    requires UniqueDates(records) && k < |records| && records[k].date == today
    ensures TodayRecord(records, today) == records[k]
  {
    var r := TodayRecord(records, today);
    assert HasDate(records, today);
    var j :| 0 <= j < |records| && records[j] == r;
  }

  /** Only today's record gains the steps: its count rises by exactly steps
      and every other record is untouched. */
  lemma IncrementOnlyToday(records: seq<DailyRecord>, today: string, steps: int, k: nat)
    requires UniqueDates(records) && k < |records| && records[k].date == today && steps > 0
    ensures TodayRecord(ApplyStepIncrement(records, today, steps), today).steps == records[k].steps + steps
    ensures UniqueDates(ApplyStepIncrement(records, today, steps))
  {
    var r := ApplyStepIncrement(records, today, steps);
    TodayRecordUnique(r, today, k);
  }

  /** addManualSteps: a finite positive amount is rounded (so 0 < n < 0.5
      adds 0) and added to today's record, together with a manual entry of
      the same count put in front of its additions. */
  function AddManualSteps(records: seq<DailyRecord>, today: string, amount: JsNumber, context: string,
                          id: string, timestamp: string): (r: seq<DailyRecord>)
    ensures !amount.Finite? || amount.value <= 0.0 ==> r == records
    ensures |r| == |records|
    ensures amount.Finite? && amount.value > 0.0 ==> forall i :: 0 <= i < |r| ==>
      r[i].date == records[i].date
      && (records[i].date != today ==> r[i] == records[i])
      && (records[i].date == today ==>
            r[i].steps == records[i].steps + RoundReal(amount.value) && RoundReal(amount.value) >= 0
            && r[i].manualAdds == [ManualEntry(id, timestamp, RoundReal(amount.value), context)] + records[i].manualAdds
            && r[i].activeMinutes == records[i].activeMinutes && r[i].sessions == records[i].sessions)
  {
    if !amount.Finite? || amount.value <= 0.0 then records
    else
      var stepsToAdd := RoundReal(amount.value);
      MapToday(records, today, (record: DailyRecord) => record.(steps := record.steps + stepsToAdd,
        manualAdds := [ManualEntry(id, timestamp, stepsToAdd, context)] + record.manualAdds))
  }

  /** A manual amount below one half is accepted but adds no steps. */
  lemma SmallManualAmountAddsNothing(amount: real)
    requires 0.0 < amount < 0.5
    ensures RoundReal(amount) == 0
  {
  }

  // ---------------------------------------------------------------------
  // The session tick

  /** The whole steps the tick adds: floor(accumulated) - loggedSteps. */
  function TickIncrement(s: ActiveSession): int
  {
    (s.accumulatedSixtieths + s.tempo) / 60 - s.loggedSteps
  }

  /** The session after one tick of the interval. */
  function Ticked(s: ActiveSession): (r: ActiveSession)
    ensures s.isPaused ==> r == s
    ensures !s.isPaused ==>
      r == s.(elapsedSeconds := s.elapsedSeconds + 1,
              accumulatedSixtieths := s.accumulatedSixtieths + s.tempo,
              loggedSteps := s.loggedSteps + Max(TickIncrement(s), 0))
  {
    if s.isPaused then s
    else
      var nextAccumulated := s.accumulatedSixtieths + s.tempo;
      var increment := nextAccumulated / 60 - s.loggedSteps;
      s.(accumulatedSixtieths := nextAccumulated, elapsedSeconds := s.elapsedSeconds + 1,
         loggedSteps := s.loggedSteps + Max(increment, 0))
  }

  predicate LoggedIsFloor(s: ActiveSession)
  {
    s.loggedSteps == s.accumulatedSixtieths / 60
  }

  /** The tick keeps loggedSteps = floor(accumulatedSteps), and the steps it
      puts on today's record are exactly the rise in loggedSteps. */
  lemma TickKeepsFloor(s: ActiveSession)
    requires LoggedIsFloor(s)
    ensures LoggedIsFloor(Ticked(s))
    ensures !s.isPaused ==> Ticked(s).loggedSteps - s.loggedSteps == Max(TickIncrement(s), 0) >= 0
    ensures s.isPaused ==> Ticked(s) == s
  {
    var n := s.accumulatedSixtieths;
    assert n / 60 <= (n + s.tempo) / 60;
  }

  /** After a tick with one second elapsed the new floor counts every whole
      step walked so far. */
  lemma TickStepsTotal(s: ActiveSession)
    requires LoggedIsFloor(s) && !s.isPaused && s.accumulatedSixtieths == s.elapsedSeconds * s.tempo
    ensures Ticked(s).loggedSteps == (Ticked(s).elapsedSeconds * s.tempo) / 60
  {
    TickKeepsFloor(s);
  }

  // ---------------------------------------------------------------------
  // Ending a session

  /** `Math.max(1, Math.round(elapsedSeconds / 60))`. */
  function SessionMinutes(s: ActiveSession): (m: int)
    ensures m >= 1
    ensures m > 1 ==> 60 * (2 * m - 1) <= 2 * s.elapsedSeconds < 60 * (2 * m + 1)
  {
    Max(1, RoundDiv(s.elapsedSeconds, 60))
  }

  function SavedFrom(s: ActiveSession, endIso: string): SavedSession
  {
    SavedSession(s.id, s.startIso, endIso, s.loggedSteps, SessionMinutes(s), s.tempo, s.intensity, s.area, s.labelText)
  }

  /** finalizeSession's effect on the records: keeping a session with logged
      steps adds its minutes to today and puts it in front of today's
      sessions; discarding one takes its steps back off today, floored at 0;
      without logged steps, or without a session, nothing changes. */
  function FinalizeRecords(records: seq<DailyRecord>, active: Option<ActiveSession>, keepData: bool,
                           today: string, endIso: string): (r: seq<DailyRecord>)
    ensures active.None? || active.value.loggedSteps <= 0 ==> r == records
    ensures |r| == |records|
    ensures forall i :: 0 <= i < |r| ==> r[i].date == records[i].date && (records[i].date != today ==> r[i] == records[i])
    ensures active.Some? && active.value.loggedSteps > 0 && keepData ==> forall i :: 0 <= i < |r| && records[i].date == today ==>
      r[i] == records[i].(activeMinutes := records[i].activeMinutes + SessionMinutes(active.value),
                          sessions := [SavedFrom(active.value, endIso)] + records[i].sessions)
    ensures active.Some? && active.value.loggedSteps > 0 && !keepData ==> forall i :: 0 <= i < |r| && records[i].date == today ==>
      r[i] == records[i].(steps := Max(0, records[i].steps - active.value.loggedSteps))
  {
    match active
    case None => records
    case Some(s) =>
      if s.loggedSteps <= 0 then records
      else if keepData then
        MapToday(records, today, (record: DailyRecord) => record.(activeMinutes := record.activeMinutes + SessionMinutes(s),
          sessions := [SavedFrom(s, endIso)] + record.sessions))
      else
        MapToday(records, today, (record: DailyRecord) => record.(steps := Max(0, record.steps - s.loggedSteps)))
  }

  // ---------------------------------------------------------------------
  // Derived figures

  function DateKey(collate: string -> seq<int>): DailyRecord -> seq<int>
  {
    (record: DailyRecord) => collate(record.date)
  }

  /** `[...dailyRecords].sort((a, b) => b.date.localeCompare(a.date))`, with
      `collate` the collation key of localeCompare. */
  function ByDateDescending(records: seq<DailyRecord>, collate: string -> seq<int>): seq<DailyRecord>
  {
    Sorting.SortBy(records, DateKey(collate), true)
  }

  /** The streak loop: count records from the latest date while they meet
      the target; the first one that does not ends the count. */
  method Streak(records: seq<DailyRecord>, dailyTarget: int, today: string, collate: string -> seq<int>)
    returns (count: nat)
    ensures var sorted := ByDateDescending(records, collate);
      count <= |sorted|
      && (forall i :: 0 <= i < count ==> sorted[i].steps >= dailyTarget)
      && (count < |sorted| ==> sorted[count].steps < dailyTarget)
  {
    var sorted := ByDateDescending(records, collate);
    count := 0;
    var index := 0;
    while index < |sorted|
      invariant count == index <= |sorted|
      invariant forall i :: 0 <= i < count ==> sorted[i].steps >= dailyTarget
    {
      var meetsTarget := sorted[index].steps >= dailyTarget;
      if meetsTarget {
        count := count + 1;
      } else {
        if sorted[index].date != today {
          break;
        }
        break;
      }
      index := index + 1;
    }
  }

  /** `Math.min(100, Math.round((steps / dailyTarget) * 100 || 0))`: a zero
      target gives 100 once any step is taken (Infinity) and 0 otherwise
      (NaN). */
  function Completion(steps: nat, dailyTarget: int): int
  {
    if dailyTarget == 0 then (if steps == 0 then 0 else 100)
    else if dailyTarget > 0 then Min(100, RoundDiv(100 * steps, dailyTarget))
    else Min(100, RoundDiv(-100 * steps, -dailyTarget))
  }

  /** The completion lies in 0..100, is 0 without steps and 100 once the
      target is reached. */
  lemma CompletionBounds(steps: nat, dailyTarget: int)
    requires dailyTarget >= 0
    ensures 0 <= Completion(steps, dailyTarget) <= 100
    ensures steps == 0 ==> Completion(steps, dailyTarget) == 0
    ensures steps >= dailyTarget ==> Completion(steps, dailyTarget) == 100 || (steps == 0 && dailyTarget == 0)
  {
    if dailyTarget > 0 {
      PercentBounds(0, dailyTarget);
      PercentBounds(dailyTarget, dailyTarget);
      RoundDivMonotone(0, 100 * steps, dailyTarget);
      if steps >= dailyTarget {
        RoundDivMonotone(100 * dailyTarget, 100 * steps, dailyTarget);
      }
    }
  }

  /** More steps never lower the completion. */
  lemma CompletionMonotone(s1: int, s2: int, dailyTarget: int)
    requires 0 <= s1 <= s2 && dailyTarget > 0
    ensures Completion(s1, dailyTarget) <= Completion(s2, dailyTarget)
  {
    RoundDivMonotone(100 * s1, 100 * s2, dailyTarget);
  }

  /** weeklyRecords: the seven latest dates, oldest first. */
  function WeeklyRecords(records: seq<DailyRecord>, collate: string -> seq<int>): (r: seq<DailyRecord>)
    ensures |r| == Min(7, |records|)
    ensures forall i :: 0 <= i < |r| ==> r[i] == ByDateDescending(records, collate)[|r| - 1 - i]
  {
    var sorted := ByDateDescending(records, collate);
    var latest := if |sorted| > 7 then sorted[..7] else sorted;
    seq(|latest|, i requires 0 <= i < |latest| => latest[|latest| - 1 - i])
  }

  /** The week comes out in ascending date order, and no record left out is
      later than one kept. */
  lemma WeeklyRecordsOrdered(records: seq<DailyRecord>, collate: string -> seq<int>)
    ensures var r := WeeklyRecords(records, collate);
      forall i, j :: 0 <= i < j < |r| ==> !Sorting.LexLt(collate(r[j].date), collate(r[i].date))
    ensures var r := WeeklyRecords(records, collate); var sorted := ByDateDescending(records, collate);
      forall i, j :: 0 <= i < |r| && |r| <= j < |sorted| ==> !Sorting.LexLt(collate(r[i].date), collate(sorted[j].date))
  {
    var r := WeeklyRecords(records, collate);
    var sorted := ByDateDescending(records, collate);
    Sorting.SortBySorted(records, DateKey(collate), true);
    forall i, j | 0 <= i < j < |r| ensures !Sorting.LexLt(collate(r[j].date), collate(r[i].date)) {
      assert !Sorting.Before(DateKey(collate), true, sorted[|r| - 1 - i], sorted[|r| - 1 - j]);
    }
    forall i, j | 0 <= i < |r| && |r| <= j < |sorted| ensures !Sorting.LexLt(collate(r[i].date), collate(sorted[j].date)) {
      assert !Sorting.Before(DateKey(collate), true, sorted[j], sorted[|r| - 1 - i]);
    }
  }

  /** formatTime: zero-padded minutes and seconds that read back as the
      given number of seconds. */
  function FormatTime(seconds: nat): (r: string)
    ensures |r| >= 5 && r[|r| - 3] == ':'
    ensures forall i :: 0 <= i < |r| && i != |r| - 3 ==> IsDigit(r[i])
    ensures ParseNat(r[|r| - 2..]) < 60
    ensures 60 * ParseNat(r[..|r| - 3]) + ParseNat(r[|r| - 2..]) == seconds
  {
    var minutes := Pad2(seconds / 60);
    var secs := Pad2(seconds % 60);
    Pad2Parse(seconds / 60);
    Pad2Parse(seconds % 60);
    assert |minutes| >= 2 by { if seconds / 60 >= 10 { assert |NatToString(seconds / 60)| >= 2; } }
    var r := minutes + ":" + secs;
    assert r[|r| - 2..] == secs && r[..|r| - 3] == minutes;
    r
  }

  // ---------------------------------------------------------------------
  // The page state

  class PedometerPage {
    var records: seq<DailyRecord>
    var activeSession: Option<ActiveSession>
    var dailyTarget: int
    var manualContext: string

    /** What every handler keeps: one record per date, no negative step
        count, and an active session's logged steps equal to its whole
        accumulated steps. */
    ghost predicate Valid()
      reads this
    {
      UniqueDates(records) && StepsNonNegative(records)
      && (activeSession.Some? ==> LoggedIsFloor(activeSession.value) && activeSession.value.loggedSteps >= 0)
    }

    constructor(stored: seq<DailyRecord>)
      requires UniqueDates(stored) && StepsNonNegative(stored)
      ensures Valid() && records == stored && activeSession == None
      ensures dailyTarget == DefaultDailyTarget && manualContext == DefaultManualContext
    {
      records := stored;
      activeSession := None;
      dailyTarget := DefaultDailyTarget;
      manualContext := DefaultManualContext;
    }

    /** The effect that creates today's record. */
    method EnsureTodayRecord(today: string)
      requires Valid()
      modifies this
      ensures Valid() && records == EnsureToday(old(records), today)
      ensures activeSession == old(activeSession) && dailyTarget == old(dailyTarget) && manualContext == old(manualContext)
    {
      EnsureTodayOnce(records, today);
      records := EnsureToday(records, today);
    }

    /** One tick of the interval while a session runs. */
    method Tick(today: string)
      requires Valid()
      modifies this
      ensures Valid()
      ensures activeSession == (if old(activeSession).Some? then Some(Ticked(old(activeSession).value)) else None)
      ensures old(activeSession).Some? && !old(activeSession).value.isPaused ==>
        records == ApplyStepIncrement(old(records), today, TickIncrement(old(activeSession).value))
      ensures old(activeSession).None? || old(activeSession).value.isPaused ==> records == old(records)
      ensures dailyTarget == old(dailyTarget) && manualContext == old(manualContext)
    {
      if activeSession.None? || activeSession.value.isPaused {
        return;
      }
      var prev := activeSession.value;
      var increment := TickIncrement(prev);
      TickKeepsFloor(prev);
      if increment > 0 {
        records := ApplyStepIncrement(records, today, increment);
      }
      activeSession := Some(Ticked(prev));
    }

    method AddManual(amount: JsNumber, today: string, id: string, timestamp: string)
      requires Valid()
      modifies this
      ensures Valid() && records == AddManualSteps(old(records), today, amount, old(manualContext), id, timestamp)
      ensures !amount.Finite? || amount.value <= 0.0 ==> manualContext == old(manualContext)
      ensures amount.Finite? && amount.value > 0.0 ==> manualContext == DefaultManualContext
      ensures activeSession == old(activeSession) && dailyTarget == old(dailyTarget)
    {
      if !amount.Finite? || amount.value <= 0.0 {
        return;
      }
      records := AddManualSteps(records, today, amount, manualContext, id, timestamp);
      manualContext := DefaultManualContext;
    }

    /** startSession: a fresh session at tempo 120 in the first area. */
    method StartSession(id: string, startIso: string)
      requires Valid()
      modifies this
      ensures Valid() && records == old(records)
      ensures activeSession == Some(ActiveSession(id, startIso, 120, Moderate, "main-ring", "大屋根ウォーク", 0, 0, 0, false))
      ensures dailyTarget == old(dailyTarget) && manualContext == old(manualContext)
    {
      activeSession := Some(ActiveSession(id, startIso, 120, Moderate, "main-ring", "大屋根ウォーク", 0, 0, 0, false));
    }

    method TogglePause()
      requires Valid()
      modifies this
      ensures Valid() && records == old(records)
      ensures activeSession == if old(activeSession).Some? then Some(old(activeSession).value.(isPaused := !old(activeSession).value.isPaused)) else None
      ensures dailyTarget == old(dailyTarget) && manualContext == old(manualContext)
    {
      if activeSession.Some? {
        activeSession := Some(activeSession.value.(isPaused := !activeSession.value.isPaused));
      }
    }

    /** finalizeSession(keepData): always ends the session. */
    method FinalizeSession(keepData: bool, today: string, endIso: string)
      requires Valid()
      modifies this
      ensures Valid() && activeSession == None
      ensures records == FinalizeRecords(old(records), old(activeSession), keepData, today, endIso)
      ensures dailyTarget == old(dailyTarget) && manualContext == old(manualContext)
    {
      records := FinalizeRecords(records, activeSession, keepData, today, endIso);
      activeSession := None;
    }
  }
}
