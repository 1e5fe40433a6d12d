/** The browsing-history page: a log of page visits with the time spent on
    each, per-page statistics, a breadcrumb of the latest pages and a search
    over the log.  Timestamps are milliseconds since the epoch. */
module BrowsingHistory {
  import opened Common
  import Sorting

  datatype Entry = Entry(id: string, path: string, title: string, timestamp: int, duration: Option<int>, icon: string)

  datatype PageStats = PageStats(path: string, title: string, visitCount: nat, totalTime: int, lastVisit: int, icon: string)

  datatype PageData = PageData(title: string, icon: string)

  /** `pageInfo`: the pages whose visits are recorded. */
  const PageInfo: map<string, PageData> := map[
    "/" := PageData("ホーム", "🏠"),
    "/about" := PageData("このサイトについて", "ℹ️"),
    "/school-year" := PageData("学校カレンダー", "📅"),
    "/reunion" := PageData("同窓会", "🎓"),
    "/life-plan" := PageData("人生計画", "🌅"),
    "/expo-final" := PageData("万博ラストウィーク", "🎪"),
    "/expo-wait-time" := PageData("万博待ち時間案内", "⏰"),
    "/mountain-game" := PageData("登山シミュレーター", "⛰️"),
    "/station-guide" := PageData("駅構内案内", "🚉"),
    "/job-hunting" := PageData("就活", "💼"),
    "/browsing-history" := PageData("閲覧履歴", "📊")]

  const MaxEntries := 500
  const MaxDuration := 3600

  // ---------------------------------------------------------------------
  // Per-page statistics

  function DurationOr0(e: Entry): int
  {
    match e.duration
    case Some(d) => d
    case None => 0
  }

  /** The paths of the entries of known pages, in log order. */
  function KnownPaths(h: seq<Entry>): seq<string>
  {
    if h == [] then []
    else KnownPaths(h[..|h| - 1]) + (if h[|h| - 1].path in PageInfo then [h[|h| - 1].path] else [])
  }

  /** The number of entries for path p. */
  function Visits(h: seq<Entry>, p: string): nat
  {
    if h == [] then 0
    else Visits(h[..|h| - 1], p) + (if h[|h| - 1].path == p then 1 else 0)
  }

  /** The durations of p's entries summed, a missing one counting 0. */
  function TotalTime(h: seq<Entry>, p: string): int
  {
    if h == [] then 0
    else TotalTime(h[..|h| - 1], p) + (if h[|h| - 1].path == p then DurationOr0(h[|h| - 1]) else 0)
  }

  /** The timestamp of p's last entry in log order. */
  function LastVisit(h: seq<Entry>, p: string): Option<int>
  {
    if h == [] then None
    else if h[|h| - 1].path == p then Some(h[|h| - 1].timestamp)
    else LastVisit(h[..|h| - 1], p)
  }

  /** What the statistics say about a known path. */
  function Aggregate(h: seq<Entry>, p: string): PageStats
    requires p in PageInfo
  {
    PageStats(p, PageInfo[p].title, Visits(h, p), TotalTime(h, p),
      match LastVisit(h, p) case Some(t) => t case None => 0, PageInfo[p].icon)
  }

  /** The pages in the order in which they first appear in the log. */
  function StatsOrder(h: seq<Entry>): seq<string>
  {
    Dedup(KnownPaths(h))
  }

  function AggregatesOf(h: seq<Entry>, order: seq<string>): (r: seq<PageStats>)
    requires forall i :: 0 <= i < |order| ==> order[i] in PageInfo
    ensures |r| == |order| && forall i :: 0 <= i < |order| ==> r[i] == Aggregate(h, order[i])
  {
    if order == [] then [] else [Aggregate(h, order[0])] + AggregatesOf(h, order[1..])
  }

  function VisitKey(s: PageStats): seq<int> { [s.visitCount] }

  lemma {:induction false} KnownPathsMembers(h: seq<Entry>, p: string)
    ensures p in KnownPaths(h) <==> p in PageInfo && Visits(h, p) > 0
  {
    if h != [] { KnownPathsMembers(h[..|h| - 1], p); }
  }

  lemma StatsOrderKnown(h: seq<Entry>)
    ensures forall i :: 0 <= i < |StatsOrder(h)| ==> StatsOrder(h)[i] in PageInfo
  {
    DedupProps(KnownPaths(h));
    forall i | 0 <= i < |StatsOrder(h)| ensures StatsOrder(h)[i] in PageInfo {
      KnownPathsMembers(h, StatsOrder(h)[i]);
    }
  }

  /** The statistics as a function of the log: one entry per known page, by
      visit count, most visited first, ties in first-appearance order. */
  function Stats(h: seq<Entry>): seq<PageStats>
  {
    Sorting.SortBy(Aggregates(h), VisitKey, true)
  }

  /** The statistics before sorting, in first-appearance order. */
  function Aggregates(h: seq<Entry>): seq<PageStats>
  {
    StatsOrderKnown(h);
    AggregatesOf(h, StatsOrder(h))
  }

  /** One step of the statistics loop: how adding one entry changes the
      page order and the aggregates. */
  lemma StatsStep(h: seq<Entry>, i: nat)
    requires i < |h|
    ensures StatsOrder(h[..i + 1]) ==
      if h[i].path !in PageInfo || h[i].path in StatsOrder(h[..i]) then StatsOrder(h[..i])
      else StatsOrder(h[..i]) + [h[i].path]
    ensures h[..i + 1][..i] == h[..i]
  {
    var prefix := h[..i + 1];
    assert prefix[..|prefix| - 1] == h[..i];
    AddAllAppend([], KnownPaths(h[..i]), if h[i].path in PageInfo then [h[i].path] else []);
  }

  /** The body of calculateStats' forEach for the entry at index. */
  method Tally(h: seq<Entry>, index: nat, order: seq<string>, statsMap: map<string, PageStats>)
    returns (order': seq<string>, statsMap': map<string, PageStats>)
    requires index < |h|
    requires order == StatsOrder(h[..index])
    requires forall p :: p in statsMap <==> p in order
    requires forall p :: p in order ==> p in PageInfo && statsMap[p] == Aggregate(h[..index], p)
    ensures order' == StatsOrder(h[..index + 1])
    ensures forall p :: p in statsMap' <==> p in order'
    ensures forall p :: p in order' ==> p in PageInfo && statsMap'[p] == Aggregate(h[..index + 1], p)
  {
    var entry := h[index];
    var duration := DurationOr0(entry);
    StatsStep(h, index);
    ghost var prefix := h[..index + 1];
    assert prefix[..|prefix| - 1] == h[..index] && prefix[|prefix| - 1] == entry;
    order', statsMap' := order, statsMap;
    if entry.path in PageInfo {
      var pageData := PageInfo[entry.path];
      if entry.path in statsMap {
        var existing := statsMap[entry.path];
        statsMap' := statsMap[entry.path := existing.(visitCount := existing.visitCount + 1,
          totalTime := existing.totalTime + duration, lastVisit := entry.timestamp)];
      } else {
        DedupProps(KnownPaths(h[..index]));
        KnownPathsMembers(h[..index], entry.path);
        NoVisitsNoTime(h[..index], entry.path);
        statsMap' := statsMap[entry.path := PageStats(entry.path, pageData.title, 1, duration, entry.timestamp, pageData.icon)];
        order' := order + [entry.path];
      }
    }
    forall p | p in order' ensures p in PageInfo && statsMap'[p] == Aggregate(prefix, p) {
      if p != entry.path {
        assert Visits(prefix, p) == Visits(h[..index], p);
        assert TotalTime(prefix, p) == TotalTime(h[..index], p);
        assert LastVisit(prefix, p) == LastVisit(h[..index], p);
      }
    }
  }

  lemma {:induction false} NoVisitsNoTime(h: seq<Entry>, p: string)
    requires Visits(h, p) == 0
    ensures TotalTime(h, p) == 0 && LastVisit(h, p) == None
  {
    if h != [] { NoVisitsNoTime(h[..|h| - 1], p); }
  }

  /** calculateStats: one pass over the log building a map from path to
      statistics, then the map's values sorted by visit count. */
  method CalculateStats(h: seq<Entry>) returns (stats: seq<PageStats>)
    ensures stats == Stats(h)
  {
    var order: seq<string> := [];
    var statsMap: map<string, PageStats> := map[];
    var index := 0;
    while index < |h|
      invariant 0 <= index <= |h|
      invariant order == StatsOrder(h[..index])
      invariant forall p :: p in statsMap <==> p in order
      invariant forall p :: p in order ==> p in PageInfo && statsMap[p] == Aggregate(h[..index], p)
    {
      order, statsMap := Tally(h, index, order, statsMap);
      index := index + 1;
    }
    assert h[..index] == h;
    StatsOrderKnown(h);
    var values := seq(|order|, i requires 0 <= i < |order| => statsMap[order[i]]);
    assert values == AggregatesOf(h, order);
    stats := Sorting.SortBy(values, VisitKey, true);
  }

  /** An entry for a page outside pageInfo leaves the statistics as they are. */
  lemma UnknownPathSkipped(h: seq<Entry>, e: Entry)
    requires e.path !in PageInfo
    ensures Stats(h + [e]) == Stats(h)
  {
    var h' := h + [e];
    assert h'[..|h'| - 1] == h;
    assert KnownPaths(h') == KnownPaths(h);
    assert StatsOrder(h') == StatsOrder(h);
    StatsOrderKnown(h);
    assert AggregatesOf(h', StatsOrder(h)) == AggregatesOf(h, StatsOrder(h));
  }

  /** Each statistic is the aggregate of a known page with at least one
      visit, and no page appears twice. */
  lemma StatsMeaning(h: seq<Entry>)
    ensures forall s :: s in Stats(h) ==> s.path in PageInfo && s == Aggregate(h, s.path) && s.visitCount > 0
    ensures forall p :: p in PageInfo && Visits(h, p) > 0 ==> exists s :: s in Stats(h) && s.path == p
    ensures |Stats(h)| == |StatsOrder(h)| && NoDup(StatsOrder(h))
  {
    StatsOrderKnown(h);
    var order := StatsOrder(h);
    var values := AggregatesOf(h, order);
    DedupProps(KnownPaths(h));
    forall s | s in Stats(h) ensures s.path in PageInfo && s == Aggregate(h, s.path) && s.visitCount > 0 {
      assert s in multiset(Stats(h));
      assert s in multiset(values);
      var k :| 0 <= k < |values| && values[k] == s;
      KnownPathsMembers(h, order[k]);
    }
    forall p | p in PageInfo && Visits(h, p) > 0 ensures exists s :: s in Stats(h) && s.path == p {
      KnownPathsMembers(h, p);
      var k :| 0 <= k < |order| && order[k] == p;
      assert values[k] in multiset(values);
      assert values[k] in multiset(Stats(h));
    }
  }

  /** Most visited first; pages with equal counts in first-appearance order. */
  lemma StatsOrdered(h: seq<Entry>)
    ensures Sorting.Sorted(Stats(h), VisitKey, true)
    ensures forall k :: Sorting.KeyClass(Stats(h), VisitKey, k) == Sorting.KeyClass(Aggregates(h), VisitKey, k)
  {
    Sorting.SortByCorrect(Aggregates(h), VisitKey, true);
  }

  function VisitCountOf(s: PageStats): int { s.visitCount }

  function SumVisits(order: seq<string>, h: seq<Entry>): int
  {
    if order == [] then 0 else Visits(h, order[0]) + SumVisits(order[1..], h)
  }

  lemma {:induction false} SumVisitsAppendEntry(order: seq<string>, h: seq<Entry>, e: Entry)
    requires NoDup(order)
    ensures SumVisits(order, h + [e]) == SumVisits(order, h) + (if e.path in order then 1 else 0)
  {
    var h' := h + [e];
    assert h'[..|h'| - 1] == h;
    if order != [] {
      assert NoDup(order[1..]);
      assert e.path in order <==> e.path == order[0] || e.path in order[1..];
      SumVisitsAppendEntry(order[1..], h, e);
    }
  }

  lemma {:induction false} SumVisitsAppendPath(order: seq<string>, q: string, h: seq<Entry>)
    ensures SumVisits(order + [q], h) == SumVisits(order, h) + Visits(h, q)
  {
    if order != [] {
      assert (order + [q])[1..] == order[1..] + [q];
      SumVisitsAppendPath(order[1..], q, h);
    }
  }

  lemma {:induction false} SumVisitsCountsKnown(h: seq<Entry>)
    ensures SumVisits(StatsOrder(h), h) == |KnownPaths(h)|
  {
    if h != [] {
      var init, e := h[..|h| - 1], h[|h| - 1];
      assert h == init + [e];
      SumVisitsCountsKnown(init);
      var order := StatsOrder(init);
      DedupProps(KnownPaths(init));
      SumVisitsAppendEntry(order, init, e);
      StatsStep(h, |h| - 1);
      KnownPathsMembers(init, e.path);
      if e.path in PageInfo && e.path !in order {
        SumVisitsAppendPath(order, e.path, h);
      }
    }
  }

  lemma {:induction false} SumAggregates(h: seq<Entry>, order: seq<string>)
    requires forall i :: 0 <= i < |order| ==> order[i] in PageInfo
    ensures SumBy(AggregatesOf(h, order), VisitCountOf) == SumVisits(order, h)
  {
    if order != [] {
      assert AggregatesOf(h, order)[1..] == AggregatesOf(h, order[1..]);
      SumAggregates(h, order[1..]);
    }
  }

  /** The visit counts add up to the number of entries of known pages. */
  lemma VisitCountsSum(h: seq<Entry>)
    ensures SumBy(Stats(h), VisitCountOf) == |KnownPaths(h)|
  {
    StatsOrderKnown(h);
    var values := AggregatesOf(h, StatsOrder(h));
    SumByPermutation(Stats(h), values, VisitCountOf);
    SumAggregates(h, StatsOrder(h));
    SumVisitsCountsKnown(h);
  }

  // ---------------------------------------------------------------------
  // Recording a visit

  function NewEntry(path: string, now: int): Entry
    requires path in PageInfo
  {
    Entry(IntToString(now), path, PageInfo[path].title, now, None, PageInfo[path].icon)
  }

  /** `Math.min(Math.round((now - last) / 1000), 3600)`: the seconds since
      the previous visit, capped from above only. */
  function StayDuration(last: Entry, now: int): (d: int)
    ensures d <= MaxDuration
    ensures d < MaxDuration ==> 1000 * (2 * d - 1) <= 2 * (now - last.timestamp) < 1000 * (2 * d + 1)
  {
    Min(RoundDiv(now - last.timestamp, 1000), MaxDuration)
  }

  /** The log after addToHistory(path) at time now: the previous last entry
      gets its stay duration, the new entry goes at the end and only the
      newest 500 are kept. */
  function AddedLog(h: seq<Entry>, path: string, now: int): (r: seq<Entry>)
    ensures path !in PageInfo ==> r == h
    ensures path in PageInfo ==>
      |r| == Min(|h| + 1, MaxEntries)
      && r[|r| - 1] == NewEntry(path, now)
      && (|h| > 0 ==> r[|r| - 2] == h[|h| - 1].(duration := Some(StayDuration(h[|h| - 1], now))))
      && (forall i :: 0 <= i < |r| - 2 ==> r[i] == h[|h| + 1 - |r| + i])
  {
    if path !in PageInfo then h
    else
      var stamped := if |h| > 0 then h[|h| - 1 := h[|h| - 1].(duration := Some(StayDuration(h[|h| - 1], now)))] else h;
      var updated := stamped + [NewEntry(path, now)];
      if |updated| > MaxEntries then updated[|updated| - MaxEntries..] else updated
  }

  /** The visit log and the statistics shown beside it. */
  class HistoryStore {
    var entries: seq<Entry>
    var stats: seq<PageStats>

    /** The page on mount: the stored log is loaded and its statistics
        computed. */
    constructor(stored: seq<Entry>)
      ensures entries == stored && stats == Stats(stored)
    {
      var computed := CalculateStats(stored);
      entries := stored;
      stats := computed;
    }

    /** addToHistory followed by calculateStats. */
    method AddToHistory(path: string, now: int)
      modifies this
      ensures path !in PageInfo ==> entries == old(entries) && stats == old(stats)
      ensures path in PageInfo ==> entries == AddedLog(old(entries), path, now) && stats == Stats(entries)
    {
      if path !in PageInfo {
        return;
      }
      var updated := entries;
      if |updated| > 0 {
        var lastEntry := updated[|updated| - 1];
        updated := updated[|updated| - 1 := lastEntry.(duration := Some(StayDuration(lastEntry, now)))];
      }
      updated := updated + [NewEntry(path, now)];
      if |updated| > MaxEntries {
        updated := updated[|updated| - MaxEntries..];
      }
      entries := updated;
      stats := CalculateStats(updated);
    }

    /** clearHistory, once the dialog is confirmed. */
    method ClearHistory(confirmed: bool)
      modifies this
      ensures confirmed ==> entries == [] && stats == []
      ensures !confirmed ==> entries == old(entries) && stats == old(stats)
    {
      if confirmed {
        entries := [];
        stats := [];
      }
    }
  }

  // ---------------------------------------------------------------------
  // Views

  /** `history.slice(-5).reverse()`: the newest five entries, newest first. */
  function Breadcrumb(h: seq<Entry>): (r: seq<Entry>)
    ensures |r| == Min(5, |h|)
    ensures forall i :: 0 <= i < |r| ==> r[i] == h[|h| - 1 - i]
  {
    var recent := if |h| > 5 then h[|h| - 5..] else h;
    seq(|recent|, i requires 0 <= i < |recent| => recent[|recent| - 1 - i])
  }

  /** formatDuration: seconds below a minute, minutes and seconds below an
      hour, otherwise hours and minutes. */
  function FormatDuration(seconds: int): (r: string)
    ensures seconds < 60 ==> r == IntToString(seconds) + "秒"
    ensures 60 <= seconds < 3600 ==>
      exists m: nat, s: nat :: s < 60 && 60 * m + s == seconds && r == NatToString(m) + "分" + NatToString(s) + "秒"
    ensures 3600 <= seconds ==>
      exists h: nat, m: nat :: m < 60 && 3600 * h + 60 * m <= seconds < 3600 * h + 60 * (m + 1) && r == NatToString(h) + "時間" + NatToString(m) + "分"
  {
    if seconds < 60 then IntToString(seconds) + "秒"
    else if seconds < 3600 then NatToString(seconds / 60) + "分" + NatToString(seconds % 60) + "秒"
    else NatToString(seconds / 3600) + "時間" + NatToString((seconds % 3600) / 60) + "分"
  }

  /** The search: the folded query occurs in the folded title or path.
      `fold` stands for toLowerCase. */
  predicate MatchesSearch(e: Entry, query: string, fold: string -> string)
  {
    Contains(fold(e.title), fold(query)) || Contains(fold(e.path), fold(query))
  }

  /** filteredHistory with the date filter 'all'. */
  function SearchHistory(h: seq<Entry>, query: string, fold: string -> string): (r: seq<Entry>)
    ensures forall e :: e in r <==> e in h && MatchesSearch(e, query, fold)
  {
    Filter(h, e => MatchesSearch(e, query, fold))
  }

  /** An empty query keeps the whole log, in order. */
  lemma EmptySearchKeepsAll(h: seq<Entry>, fold: string -> string)
    requires fold("") == ""
    ensures SearchHistory(h, "", fold) == h
  {
    forall i | 0 <= i < |h| ensures MatchesSearch(h[i], "", fold) {
      ContainsEmpty(fold(h[i].title));
    }
    FilterAll(h, e => MatchesSearch(e, "", fold));
  }
}
