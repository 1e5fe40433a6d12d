/** The expo ring lap counter: a stopwatch that counts laps of the 2 km
    ring, records the cumulative time of each lap, and keeps the finished
    walking sessions with their totals. */
module RingCounter {
  import opened Common

  datatype LapTime = LapTime(lap: nat, time: int, timestamp: string)

  datatype WalkingSession = WalkingSession(
    id: string, date: string, startTime: string, endTime: Option<string>,
    totalLaps: nat, totalTime: nat, totalSteps: int, totalCalories: int,
    lapTimes: seq<LapTime>, notes: string)

  /** The ring's circumference in metres. */
  const RingCircumference := 2000

  // ---------------------------------------------------------------------
  // Lap arithmetic

  /** `lapTimes[i]?.time || 0`. */
  function TimeAt(lapTimes: seq<LapTime>, i: int): int
  {
    if 0 <= i < |lapTimes| then lapTimes[i].time else 0
  }

  /** getLapTime: the first lap's cumulative time, then the difference of
      consecutive cumulative times. */
  function GetLapTime(lapTimes: seq<LapTime>, lapIndex: int): int
  {
    if lapIndex == 0 then TimeAt(lapTimes, 0)
    else TimeAt(lapTimes, lapIndex) - TimeAt(lapTimes, lapIndex - 1)
  }

  function SplitsUpTo(lapTimes: seq<LapTime>, k: nat): int
  {
    if k == 0 then GetLapTime(lapTimes, 0) else SplitsUpTo(lapTimes, k - 1) + GetLapTime(lapTimes, k)
  }

  /** The splits of laps 0..k add up to the cumulative time of lap k. */
  lemma {:induction false} SplitsSum(lapTimes: seq<LapTime>, k: nat)
    requires k < |lapTimes|
    ensures SplitsUpTo(lapTimes, k) == lapTimes[k].time
  {
    if k > 0 { SplitsSum(lapTimes, k - 1); }
  }

  ghost predicate NonDecreasingTimes(lapTimes: seq<LapTime>)
  {
    forall i, j :: 0 <= i < j < |lapTimes| ==> lapTimes[i].time <= lapTimes[j].time
  }

  /** With cumulative times that never decrease (and start at 0 or later)
      every split is non-negative. */
  lemma SplitsNonNegative(lapTimes: seq<LapTime>, i: nat)
    requires NonDecreasingTimes(lapTimes) && i < |lapTimes|
    requires forall k :: 0 <= k < |lapTimes| ==> lapTimes[k].time >= 0
    ensures GetLapTime(lapTimes, i) >= 0
  {
  }

  /** getAverageLapTime: 0 without laps, otherwise the elapsed time divided
      by the number of laps, rounded half up. */
  function AverageLapTime(time: int, lapTimes: seq<LapTime>): (r: int)
    ensures lapTimes == [] ==> r == 0
    ensures lapTimes != [] ==> |lapTimes| * (2 * r - 1) <= 2 * time < |lapTimes| * (2 * r + 1)
  {
    if |lapTimes| == 0 then 0 else RoundDiv(time, |lapTimes|)
  }

  /** calculateDistance in km: `laps * 2000 / 1000`. */
  function CalculateDistance(laps: nat): (km: real)
    ensures km == 2.0 * laps as real
  {
    (laps * RingCircumference) as real / 1000.0
  }

  datatype TotalStats = TotalStats(totalSessions: nat, totalLaps: int, totalDistance: real, totalTime: int, totalCalories: int)

  function LapsOf(s: WalkingSession): int { s.totalLaps }
  function TimeOf(s: WalkingSession): int { s.totalTime }
  function CaloriesOf(s: WalkingSession): int { s.totalCalories }

  /** getTotalStats: sums over the saved sessions; the distance is 2 km a lap. */
  function GetTotalStats(sessions: seq<WalkingSession>): (r: TotalStats)
    ensures r.totalSessions == |sessions|
    ensures r.totalDistance == 2.0 * r.totalLaps as real
  {
    var totalLaps := SumBy(sessions, LapsOf);
    TotalStats(|sessions|, totalLaps, (totalLaps * RingCircumference) as real / 1000.0,
      SumBy(sessions, TimeOf), SumBy(sessions, CaloriesOf))
  }

  /** Saving a session adds its laps, time and calories to the totals. */
  lemma TotalsOfSaved(s: WalkingSession, sessions: seq<WalkingSession>)
    ensures GetTotalStats([s] + sessions).totalLaps == s.totalLaps + GetTotalStats(sessions).totalLaps
    ensures GetTotalStats([s] + sessions).totalTime == s.totalTime + GetTotalStats(sessions).totalTime
    ensures GetTotalStats([s] + sessions).totalCalories == s.totalCalories + GetTotalStats(sessions).totalCalories
  {
    assert ([s] + sessions)[1..] == sessions;
  }

  /** Three digit groups joined by colons, the last two of width 2. */
  lemma JoinedClock(h: string, m: string, sec: string)
    requires |h| >= 2 && |m| == 2 && |sec| == 2
    requires forall i :: 0 <= i < |h| ==> IsDigit(h[i])
    requires forall i :: 0 <= i < 2 ==> IsDigit(m[i]) && IsDigit(sec[i])
    ensures var r := h + ":" + m + ":" + sec;
      |r| >= 8 && r[|r| - 3] == ':' && r[|r| - 6] == ':'
      && (forall i :: 0 <= i < |r| && i != |r| - 3 && i != |r| - 6 ==> IsDigit(r[i]))
      && r[|r| - 2..] == sec && r[|r| - 5..|r| - 3] == m && r[..|r| - 6] == h
  {
    var r := h + ":" + m + ":" + sec;
    forall i | 0 <= i < |r| && i != |r| - 3 && i != |r| - 6
      ensures IsDigit(r[i])
    {
      if i < |h| { assert r[i] == h[i]; }
      else if i < |h| + 3 { assert r[i] == m[i - |h| - 1]; }
      else { assert r[i] == sec[i - |h| - 4]; }
    }
  }

  lemma SplitSeconds(seconds: nat)
    ensures 3600 * (seconds / 3600) + 60 * ((seconds % 3600) / 60) + seconds % 60 == seconds
    ensures (seconds % 3600) / 60 < 60
  {
  }

  /** formatTime: zero-padded hours, minutes and seconds that read back as
      the given number of seconds. */
  function FormatTime(seconds: nat): (r: string)
    ensures |r| >= 8 && r[|r| - 3] == ':' && r[|r| - 6] == ':'
    ensures forall i :: 0 <= i < |r| && i != |r| - 3 && i != |r| - 6 ==> IsDigit(r[i])
    ensures ParseNat(r[|r| - 5..|r| - 3]) < 60 && ParseNat(r[|r| - 2..]) < 60
    ensures 3600 * ParseNat(r[..|r| - 6]) + 60 * ParseNat(r[|r| - 5..|r| - 3]) + ParseNat(r[|r| - 2..]) == seconds
  {
    var hours := seconds / 3600;
    var minutes := (seconds % 3600) / 60;
    var secs := seconds % 60;
    SplitSeconds(seconds);
    Pad2Parse(hours);
    Pad2Parse(minutes);
    Pad2Parse(secs);
    assert |Pad2(hours)| >= 2 by { if hours >= 10 { assert |NatToString(hours)| >= 2; } }
    JoinedClock(Pad2(hours), Pad2(minutes), Pad2(secs));
    Pad2(hours) + ":" + Pad2(minutes) + ":" + Pad2(secs)
  }

  // ---------------------------------------------------------------------
  // The counter

  class Counter {
    var laps: nat
    var isActive: bool
    var time: nat
    var lapTimes: seq<LapTime>
    var currentSession: Option<WalkingSession>
    var sessions: seq<WalkingSession>
    var notes: string

    /** Within a session the lap list numbers the laps 1..laps and its
        cumulative times never decrease nor pass the clock. */
    ghost predicate Valid()
      reads this
    {
      |lapTimes| == laps
      && (forall i :: 0 <= i < |lapTimes| ==> lapTimes[i].lap == i + 1 && 0 <= lapTimes[i].time <= time)
      && NonDecreasingTimes(lapTimes)
    }

    constructor(saved: seq<WalkingSession>)
      ensures Valid() && laps == 0 && !isActive && time == 0 && lapTimes == []
      ensures currentSession == None && sessions == saved && notes == ""
    {
      laps, isActive, time, lapTimes := 0, false, 0, [];
      currentSession, sessions, notes := None, saved, "";
    }

    /** startWalking: a new session with the clock, laps and lap list zeroed. */
    method StartWalking(id: string, date: string, startTime: string)
      modifies this
      ensures Valid()
      ensures currentSession == Some(WalkingSession(id, date, startTime, None, 0, 0, 0, 0, [], ""))
      ensures isActive && time == 0 && laps == 0 && lapTimes == [] && notes == "" && sessions == old(sessions)
    {
      currentSession := Some(WalkingSession(id, date, startTime, None, 0, 0, 0, 0, [], ""));
      isActive := true;
      time := 0;
      laps := 0;
      lapTimes := [];
      notes := "";
    }

    /** One second of the interval. */
    method Tick()
      requires Valid()
      modifies this
      ensures Valid()
      ensures time == (if old(isActive) then old(time) + 1 else old(time))
      ensures laps == old(laps) && lapTimes == old(lapTimes) && isActive == old(isActive)
      ensures currentSession == old(currentSession) && sessions == old(sessions) && notes == old(notes)
    {
      if isActive {
        time := time + 1;
      }
    }

    /** addLap: the next lap number with the current elapsed time. */
    method AddLap(timestamp: string)
      requires Valid()
      modifies this
      ensures Valid()
      ensures laps == old(laps) + 1 && lapTimes == old(lapTimes) + [LapTime(laps, time, timestamp)]
      ensures time == old(time) && isActive == old(isActive)
      ensures currentSession == old(currentSession) && sessions == old(sessions) && notes == old(notes)
    {
      var newLap := laps + 1;
      var lapTime := LapTime(newLap, time, timestamp);
      laps := newLap;
      lapTimes := lapTimes + [lapTime];
    }

    /** stopWalking: an open session is saved in front with the lap count,
        time, lap list and notes; the counter stops in every case.  The step
        and calorie estimates are passed in. */
    method StopWalking(endTime: string, steps: int, calories: int)
      requires Valid()
      modifies this
      ensures Valid() && !isActive && currentSession == None
      ensures old(currentSession).Some? ==>
        sessions == [old(currentSession).value.(endTime := Some(endTime), totalLaps := laps, totalTime := time,
          totalSteps := steps, totalCalories := calories, lapTimes := lapTimes, notes := notes)] + old(sessions)
      ensures old(currentSession).None? ==> sessions == old(sessions)
      ensures laps == old(laps) && time == old(time) && lapTimes == old(lapTimes) && notes == old(notes)
    {
      if currentSession.Some? {
        var finalSession := currentSession.value.(endTime := Some(endTime), totalLaps := laps, totalTime := time,
          totalSteps := steps, totalCalories := calories, lapTimes := lapTimes, notes := notes);
        sessions := [finalSession] + sessions;
        currentSession := None;
      }
      isActive := false;
    }

    /** resetCounter: everything of the current walk is dropped unsaved. */
    method ResetCounter()
      modifies this
      ensures Valid()
      ensures !isActive && time == 0 && laps == 0 && lapTimes == [] && currentSession == None && notes == ""
      ensures sessions == old(sessions)
    {
      isActive := false;
      time := 0;
      laps := 0;
      lapTimes := [];
      currentSession := None;
      notes := "";
    }
  }

  /** Laps recorded one after another are numbered from 1 and their splits
      add up to the last recorded time. */
  lemma LapListMeaning(lapTimes: seq<LapTime>, time: nat)
    requires forall i :: 0 <= i < |lapTimes| ==> lapTimes[i].lap == i + 1 && 0 <= lapTimes[i].time <= time
    requires NonDecreasingTimes(lapTimes) && lapTimes != []
    ensures SplitsUpTo(lapTimes, |lapTimes| - 1) == lapTimes[|lapTimes| - 1].time <= time
    ensures forall i :: 0 <= i < |lapTimes| ==> GetLapTime(lapTimes, i) >= 0
  {
    SplitsSum(lapTimes, |lapTimes| - 1);
  }
}
