/** The pavilion wait-time board: the periodic wait-time drift, the
    category and priority-access filters, the three sort orders and the
    colour bands. */
module ExpoWaitTime {
  import opened Common
  import Sorting

  datatype Popularity = VeryHigh | High | MediumPopularity | Low
  datatype PavilionCategory = Technology | Culture | Environment | Entertainment | FoodCategory
  datatype Status = Open | Closed | Maintenance

  datatype PriorityAccess = PriorityAccess(hasAccess: bool, conditions: seq<string>, waitTimeReduction: int)

  datatype Pavilion = Pavilion(
    id: string, name: string, area: string, waitTime: int, priorityAccess: PriorityAccess,
    popularity: Popularity, category: PavilionCategory, openTime: string, closeTime: string, status: Status)

  // ---------------------------------------------------------------------
  // The update step

  /** The random changes drawn for one step, one per pavilion, each
      `Math.floor(Math.random() * 21) - 10`. */
  predicate DeltasFor(ps: seq<Pavilion>, deltas: seq<int>)
  {
    |deltas| == |ps| && forall i :: 0 <= i < |deltas| ==> -10 <= deltas[i] <= 10
  }

  /** The interval body: pavilions under maintenance keep their wait time,
      every other one moves by its delta, never below 0. */
  function UpdateWaitTimes(ps: seq<Pavilion>, deltas: seq<int>): (r: seq<Pavilion>)
    requires DeltasFor(ps, deltas)
    ensures |r| == |ps|
    ensures forall i :: 0 <= i < |ps| && ps[i].status == Maintenance ==> r[i] == ps[i]
    ensures forall i :: 0 <= i < |ps| && ps[i].status != Maintenance ==>
      r[i] == ps[i].(waitTime := Max(0, ps[i].waitTime + deltas[i]))
  {
    seq(|ps|, i requires 0 <= i < |ps| =>
      if ps[i].status == Maintenance then ps[i] else ps[i].(waitTime := Max(0, ps[i].waitTime + deltas[i])))
  }

  predicate WaitTimesNonNegative(ps: seq<Pavilion>)
  {
    forall i :: 0 <= i < |ps| ==> ps[i].waitTime >= 0
  }

  /** An update keeps wait times non-negative, keeps every pavilion's
      identity, and moves each wait time by at most 10 minutes. */
  lemma UpdateKeepsBounds(ps: seq<Pavilion>, deltas: seq<int>)
    requires DeltasFor(ps, deltas) && WaitTimesNonNegative(ps)
    ensures WaitTimesNonNegative(UpdateWaitTimes(ps, deltas))
    ensures forall i :: 0 <= i < |ps| ==> UpdateWaitTimes(ps, deltas)[i].id == ps[i].id
    ensures forall i :: 0 <= i < |ps| ==>
      -10 <= UpdateWaitTimes(ps, deltas)[i].waitTime - ps[i].waitTime <= 10
  {
  }

  // ---------------------------------------------------------------------
  // The list view

  datatype SortBy = ByWaitTime | ByName | ByPopularity

  /** `popularityOrder[p]`. */
  function PopularityRank(p: Popularity): int
  {
    match p
    case VeryHigh => 0
    case High => 1
    case MediumPopularity => 2
    case Low => 3
  }

  /** The filter: a category filter of None stands for 'all'. */
  predicate Shown(p: Pavilion, category: Option<PavilionCategory>, priorityOnly: bool)
  {
    !(category.Some? && p.category != category.value) && !(priorityOnly && !p.priorityAccess.hasAccess)
  }

  function Kept(ps: seq<Pavilion>, category: Option<PavilionCategory>, priorityOnly: bool): (r: seq<Pavilion>)
    ensures forall p :: p in r <==> p in ps && Shown(p, category, priorityOnly)
  {
    Filter(ps, (p: Pavilion) => Shown(p, category, priorityOnly))
  }

  /** The comparator as an ascending key; `collate` stands for localeCompare on names. */
  function PavilionKey(sortBy: SortBy, collate: string -> seq<int>): Pavilion -> seq<int>
  {
    match sortBy
    case ByWaitTime => (p: Pavilion) => [p.waitTime]
    case ByName => (p: Pavilion) => collate(p.name)
    case ByPopularity => (p: Pavilion) => [PopularityRank(p.popularity)]
  }

  function FilteredAndSorted(ps: seq<Pavilion>, category: Option<PavilionCategory>, priorityOnly: bool,
    sortBy: SortBy, collate: string -> seq<int>): (r: seq<Pavilion>)
    ensures multiset(r) == multiset(Kept(ps, category, priorityOnly))
  {
    Sorting.SortBy(Kept(ps, category, priorityOnly), PavilionKey(sortBy, collate), false)
  }

  /** A pavilion is listed iff the category filter is 'all' or its own, and
      the priority-only filter is off or it offers priority access. */
  lemma ListedIff(ps: seq<Pavilion>, category: Option<PavilionCategory>, priorityOnly: bool,
    sortBy: SortBy, collate: string -> seq<int>, p: Pavilion)
    ensures p in FilteredAndSorted(ps, category, priorityOnly, sortBy, collate) <==>
      p in ps && (category.None? || p.category == category.value) && (!priorityOnly || p.priorityAccess.hasAccess)
  {
    var view := FilteredAndSorted(ps, category, priorityOnly, sortBy, collate);
    assert p in view <==> p in multiset(view);
    assert p in Kept(ps, category, priorityOnly) <==> p in multiset(Kept(ps, category, priorityOnly));
  }

  /** 'waitTime' lists the shortest waits first; 'popularity' lists
      very-high, high, medium, low. */
  lemma SortOrders(ps: seq<Pavilion>, category: Option<PavilionCategory>, priorityOnly: bool,
    sortBy: SortBy, collate: string -> seq<int>)
    ensures var view := FilteredAndSorted(ps, category, priorityOnly, sortBy, collate);
      (sortBy == ByWaitTime ==> forall i, j :: 0 <= i < j < |view| ==> view[i].waitTime <= view[j].waitTime)
      && (sortBy == ByPopularity ==>
        forall i, j :: 0 <= i < j < |view| ==> PopularityRank(view[i].popularity) <= PopularityRank(view[j].popularity))
  {
    var view := FilteredAndSorted(ps, category, priorityOnly, sortBy, collate);
    var key := PavilionKey(sortBy, collate);
    Sorting.SortBySorted(Kept(ps, category, priorityOnly), key, false);
    forall i, j | 0 <= i < j < |view|
      ensures sortBy == ByWaitTime ==> view[i].waitTime <= view[j].waitTime
      ensures sortBy == ByPopularity ==> PopularityRank(view[i].popularity) <= PopularityRank(view[j].popularity)
    {
      assert !Sorting.Before(key, false, view[j], view[i]);
      if sortBy == ByWaitTime {
        Sorting.SingletonKey(view[j].waitTime, view[i].waitTime);
      }
      if sortBy == ByPopularity {
        Sorting.SingletonKey(PopularityRank(view[j].popularity), PopularityRank(view[i].popularity));
      }
    }
  }

  // ---------------------------------------------------------------------
  // Colour bands

  datatype Band = Red | Orange | Yellow | Green

  /** getWaitTimeColor. */
  function WaitTimeBand(waitTime: int): (b: Band)
    ensures b == Red <==> waitTime >= 120
    ensures b == Orange <==> 60 <= waitTime < 120
    ensures b == Yellow <==> 30 <= waitTime < 60
    ensures b == Green <==> waitTime < 30
  {
    if waitTime >= 120 then Red
    else if waitTime >= 60 then Orange
    else if waitTime >= 30 then Yellow
    else Green
  }

  function BandRank(b: Band): int
  {
    match b
    case Green => 0
    case Yellow => 1
    case Orange => 2
    case Red => 3
  }

  /** A longer wait never shows a calmer colour. */
  lemma BandMonotone(shorter: int, longer: int)
    requires shorter <= longer
    ensures BandRank(WaitTimeBand(shorter)) <= BandRank(WaitTimeBand(longer))
  {
  }
}
