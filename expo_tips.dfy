/** The expo tips board: toggled filter and bookmark lists, the filtered
    and sorted tip list, its counters, recommended-route completion and the
    preparation checklist. */
module ExpoTips {
  import opened Common
  import Sorting

  datatype Category = Movement | Reservation | Food | Family | Relax | Tech
  datatype TimeSlot = Morning | Midday | Afternoon | Evening | Night
  datatype Level = LowLevel | MediumLevel | HighLevel
  datatype SortKey = ByPriority | ByTime | ByArea

  datatype Tip = Tip(id: string, title: string, category: Category, timeSlot: TimeSlot, area: string,
    estimatedMinutes: int, crowdLevel: Level, energyLevel: Level)

  /** A tip as the list shows it, with its bookmark flag. */
  datatype ShownTip = ShownTip(tip: Tip, bookmarked: bool)

  datatype RouteSegment = RouteSegment(time: string, title: string, linkedTipIds: seq<string>)
  datatype RoutePlan = RoutePlan(id: string, title: string, segments: seq<RouteSegment>)

  /** The page's selections. */
  datatype Board = Board(
    selectedCategories: seq<Category>, selectedTimeSlots: seq<TimeSlot>, onlyBookmarks: bool,
    sortKey: SortKey, bookmarks: seq<string>, completedChecklist: seq<string>)

  /** The number of preparation checklist items. */
  const ChecklistSize := 5

  // ---------------------------------------------------------------------
  // The four toggles: remove when present, append otherwise

  function ToggleCategory(b: Board, c: Category): (r: Board)
    ensures r == b.(selectedCategories := Toggle(b.selectedCategories, c))
    ensures c in r.selectedCategories <==> c !in b.selectedCategories
  {
    b.(selectedCategories := Toggle(b.selectedCategories, c))
  }

  function ToggleTimeSlot(b: Board, t: TimeSlot): (r: Board)
    ensures r == b.(selectedTimeSlots := Toggle(b.selectedTimeSlots, t))
    ensures t in r.selectedTimeSlots <==> t !in b.selectedTimeSlots
  {
    b.(selectedTimeSlots := Toggle(b.selectedTimeSlots, t))
  }

  function ToggleBookmark(b: Board, tipId: string): (r: Board)
    ensures r == b.(bookmarks := Toggle(b.bookmarks, tipId))
    ensures tipId in r.bookmarks <==> tipId !in b.bookmarks
  {
    b.(bookmarks := Toggle(b.bookmarks, tipId))
  }

  function ToggleChecklistItem(b: Board, itemId: string): (r: Board)
    ensures r == b.(completedChecklist := Toggle(b.completedChecklist, itemId))
    ensures itemId in r.completedChecklist <==> itemId !in b.completedChecklist
  {
    b.(completedChecklist := Toggle(b.completedChecklist, itemId))
  }

  ghost predicate Distinct(b: Board)
  {
    NoDup(b.selectedCategories) && NoDup(b.selectedTimeSlots) && NoDup(b.bookmarks) && NoDup(b.completedChecklist)
  }

  /** The toggles keep every list free of repeats, and toggling an absent
      entry twice gives the board back. */
  lemma TogglesKeepDistinct(b: Board, c: Category, t: TimeSlot, tipId: string, itemId: string)
    requires Distinct(b)
    ensures Distinct(ToggleCategory(b, c)) && Distinct(ToggleTimeSlot(b, t))
    ensures Distinct(ToggleBookmark(b, tipId)) && Distinct(ToggleChecklistItem(b, itemId))
    ensures c !in b.selectedCategories ==> ToggleCategory(ToggleCategory(b, c), c) == b
    ensures t !in b.selectedTimeSlots ==> ToggleTimeSlot(ToggleTimeSlot(b, t), t) == b
    ensures tipId !in b.bookmarks ==> ToggleBookmark(ToggleBookmark(b, tipId), tipId) == b
    ensures itemId !in b.completedChecklist ==> ToggleChecklistItem(ToggleChecklistItem(b, itemId), itemId) == b
  {
    ToggleNoDup(b.selectedCategories, c);
    ToggleNoDup(b.selectedTimeSlots, t);
    ToggleNoDup(b.bookmarks, tipId);
    ToggleNoDup(b.completedChecklist, itemId);
    ToggleTwice(b.selectedCategories, c);
    ToggleTwice(b.selectedTimeSlots, t);
    ToggleTwice(b.bookmarks, tipId);
    ToggleTwice(b.completedChecklist, itemId);
  }

  /** The congestion shortcut: a category is added only when absent. */
  function AddCategory(b: Board, c: Category): (r: Board)
    ensures c in r.selectedCategories
    ensures c in b.selectedCategories ==> r == b
    ensures c !in b.selectedCategories ==> r == b.(selectedCategories := b.selectedCategories + [c])
    ensures NoDup(b.selectedCategories) ==> NoDup(r.selectedCategories)
  {
    if c !in b.selectedCategories then b.(selectedCategories := b.selectedCategories + [c]) else b
  }

  /** The reset button: both filter sets cleared, bookmarks-only off and the
      priority order restored; bookmarks and the checklist stay. */
  function ResetFilters(b: Board): (r: Board)
    ensures r.selectedCategories == [] && r.selectedTimeSlots == [] && !r.onlyBookmarks && r.sortKey == ByPriority
    ensures r.bookmarks == b.bookmarks && r.completedChecklist == b.completedChecklist
  {
    b.(selectedCategories := [], selectedTimeSlots := [], onlyBookmarks := false, sortKey := ByPriority)
  }

  // ---------------------------------------------------------------------
  // filteredTips

  function WithBookmarks(baseTips: seq<Tip>, bookmarks: seq<string>): (r: seq<ShownTip>)
    ensures |r| == |baseTips|
    ensures forall i :: 0 <= i < |baseTips| ==> r[i] == ShownTip(baseTips[i], baseTips[i].id in bookmarks)
  {
    seq(|baseTips|, i requires 0 <= i < |baseTips| => ShownTip(baseTips[i], baseTips[i].id in bookmarks))
  }

  predicate Passes(b: Board, s: ShownTip)
  {
    (!b.onlyBookmarks || s.bookmarked)
    && (|b.selectedCategories| == 0 || s.tip.category in b.selectedCategories)
    && (|b.selectedTimeSlots| == 0 || s.tip.timeSlot in b.selectedTimeSlots)
  }

  /** `priorityOrder.indexOf(category)`. */
  function PriorityIndex(c: Category): int
  {
    match c
    case Movement => 0
    case Reservation => 1
    case Tech => 2
    case Food => 3
    case Family => 4
    case Relax => 5
  }

  /** `slotOrder.indexOf(timeSlot)`. */
  function SlotIndex(t: TimeSlot): int
  {
    match t
    case Morning => 0
    case Midday => 1
    case Afternoon => 2
    case Evening => 3
    case Night => 4
  }

  /** The comparator as an ascending sort key; `collate` stands for
      localeCompare(…, 'ja') on areas. */
  function TipKey(sortKey: SortKey, collate: string -> seq<int>): ShownTip -> seq<int>
  {
    match sortKey
    case ByTime => (s: ShownTip) => [s.tip.estimatedMinutes]
    case ByArea => (s: ShownTip) => collate(s.tip.area)
    case ByPriority => (s: ShownTip) => [PriorityIndex(s.tip.category), SlotIndex(s.tip.timeSlot), s.tip.estimatedMinutes]
  }

  function Kept(baseTips: seq<Tip>, b: Board): (r: seq<ShownTip>)
    ensures forall s :: s in r <==> s in WithBookmarks(baseTips, b.bookmarks) && Passes(b, s)
  {
    Filter(WithBookmarks(baseTips, b.bookmarks), (s: ShownTip) => Passes(b, s))
  }

  function FilteredTips(baseTips: seq<Tip>, b: Board, collate: string -> seq<int>): (r: seq<ShownTip>)
    ensures multiset(r) == multiset(Kept(baseTips, b))
  {
    Sorting.SortBy(Kept(baseTips, b), TipKey(b.sortKey, collate), false)
  }

  /** A tip is listed iff it passes the bookmark, category and time-slot
      filters; every listed tip is a base tip with its true bookmark flag. */
  lemma FilteredTipsMeaning(baseTips: seq<Tip>, b: Board, collate: string -> seq<int>, s: ShownTip)
    ensures s in FilteredTips(baseTips, b, collate) <==>
      s.tip in baseTips && s.bookmarked == (s.tip.id in b.bookmarks)
      && (!b.onlyBookmarks || s.bookmarked)
      && (|b.selectedCategories| == 0 || s.tip.category in b.selectedCategories)
      && (|b.selectedTimeSlots| == 0 || s.tip.timeSlot in b.selectedTimeSlots)
  {
    var view := FilteredTips(baseTips, b, collate);
    var kept := Kept(baseTips, b);
    assert s in view <==> s in multiset(view);
    assert s in kept <==> s in multiset(kept);
    var shown := WithBookmarks(baseTips, b.bookmarks);
    if s.tip in baseTips && s.bookmarked == (s.tip.id in b.bookmarks) {
      var i :| 0 <= i < |baseTips| && baseTips[i] == s.tip;
      assert shown[i] == s;
    }
  }

  /** The priority order: category rank, then time slot, then duration. */
  lemma PriorityOrder(baseTips: seq<Tip>, b: Board, collate: string -> seq<int>)
    requires b.sortKey == ByPriority
    ensures var view := FilteredTips(baseTips, b, collate);
      forall i, j :: 0 <= i < j < |view| ==> PriorityIndex(view[i].tip.category) <= PriorityIndex(view[j].tip.category)
  {
    var view := FilteredTips(baseTips, b, collate);
    var key := TipKey(ByPriority, collate);
    Sorting.SortBySorted(Kept(baseTips, b), key, false);
    forall i, j | 0 <= i < j < |view|
      ensures PriorityIndex(view[i].tip.category) <= PriorityIndex(view[j].tip.category)
    {
      assert !Sorting.LexLt(key(view[j]), key(view[i]));
      assert key(view[j])[0] == PriorityIndex(view[j].tip.category);
    }
  }

  /** The time order: shortest first. */
  lemma TimeOrder(baseTips: seq<Tip>, b: Board, collate: string -> seq<int>)
    requires b.sortKey == ByTime
    ensures var view := FilteredTips(baseTips, b, collate);
      forall i, j :: 0 <= i < j < |view| ==> view[i].tip.estimatedMinutes <= view[j].tip.estimatedMinutes
  {
    var view := FilteredTips(baseTips, b, collate);
    Sorting.SortBySorted(Kept(baseTips, b), TipKey(ByTime, collate), false);
    forall i, j | 0 <= i < j < |view|
      ensures view[i].tip.estimatedMinutes <= view[j].tip.estimatedMinutes
    {
      Sorting.SingletonKey(view[j].tip.estimatedMinutes, view[i].tip.estimatedMinutes);
    }
  }

  // ---------------------------------------------------------------------
  // Counters

  datatype Stats = Stats(total: nat, highEnergy: nat, morningFocus: nat, bookmarkedCount: nat)

  function TipStats(view: seq<ShownTip>): (r: Stats)
    ensures r.total == |view|
    ensures r.highEnergy <= r.total && r.morningFocus <= r.total && r.bookmarkedCount <= r.total
  {
    Stats(|view|, Count(view, (s: ShownTip) => s.tip.energyLevel == HighLevel),
      Count(view, (s: ShownTip) => s.tip.timeSlot == Morning), Count(view, (s: ShownTip) => s.bookmarked))
  }

  /** With bookmarks-only on, every listed tip counts as bookmarked. */
  lemma OnlyBookmarksCounted(baseTips: seq<Tip>, b: Board, collate: string -> seq<int>)
    requires b.onlyBookmarks
    ensures var st := TipStats(FilteredTips(baseTips, b, collate)); st.bookmarkedCount == st.total
  {
    var view := FilteredTips(baseTips, b, collate);
    forall i | 0 <= i < |view| ensures view[i].bookmarked {
      FilteredTipsMeaning(baseTips, b, collate, view[i]);
    }
    CountAll(view, (s: ShownTip) => s.bookmarked);
  }

  /** The checklist percentage, `round(completed / 5 * 100)`. */
  function ChecklistProgress(b: Board): (r: int)
    ensures |b.completedChecklist| <= ChecklistSize ==> 0 <= r <= 100
  {
    Percent(|b.completedChecklist|, ChecklistSize)
  }

  // ---------------------------------------------------------------------
  // Route completion

  predicate SegmentComplete(seg: RouteSegment, bookmarks: seq<string>)
  {
    forall id :: id in seg.linkedTipIds ==> id in bookmarks
  }

  /** getRouteCompletion: 0 without segments, otherwise the rounded share
      of segments whose linked tips are all bookmarked. */
  function RouteCompletion(route: RoutePlan, bookmarks: seq<string>): (r: int)
    ensures route.segments == [] ==> r == 0
    ensures route.segments != [] ==>
      r == Percent(Count(route.segments, (seg: RouteSegment) => SegmentComplete(seg, bookmarks)), |route.segments|)
    ensures 0 <= r <= 100
  {
    if |route.segments| == 0 then 0
    else Percent(Count(route.segments, (seg: RouteSegment) => SegmentComplete(seg, bookmarks)), |route.segments|)
  }

  /** Bookmarking more tips never lowers a route's completion. */
  lemma RouteCompletionMonotone(route: RoutePlan, fewer: seq<string>, more: seq<string>)
    requires forall id :: id in fewer ==> id in more
    ensures RouteCompletion(route, fewer) <= RouteCompletion(route, more)
  {
    if route.segments != [] {
      var p := (seg: RouteSegment) => SegmentComplete(seg, fewer);
      var q := (seg: RouteSegment) => SegmentComplete(seg, more);
      CountMonotone(route.segments, p, q);
      PercentMonotone(Count(route.segments, p), Count(route.segments, q), |route.segments|);
    }
  }
}
