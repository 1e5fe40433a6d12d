/** The station guide: whether a facility is open at the current clock
    time, and the floor, category and search filter over the facilities. */
module StationGuide {
  import opened Common

  datatype FacilityCategory = Shop | Restaurant | Service | Transport | Amenity
  datatype Floor = B2 | B1 | F1 | F2 | F3

  datatype Facility = Facility(
    id: string, name: string, category: FacilityCategory, floor: Floor, description: string,
    openTime: string, closeTime: string, phone: Option<string>, isOpen: bool)

  /** The opening-hours text of facilities that never close. */
  const AllDay := "24時間"

  // ---------------------------------------------------------------------
  // isCurrentlyOpen

  /** The clock as the page writes it: zero-padded hours and minutes. */
  function CurrentTimeString(hours: nat, minutes: nat): (s: string)
    requires hours < 24 && minutes < 60
    ensures IsClock(s) && ClockMinutes(s) == 60 * hours + minutes
  {
    Pad2Parse(hours);
    Pad2Parse(minutes);
    var s := Pad2(hours) + ":" + Pad2(minutes);
    assert s[..2] == Pad2(hours) && s[3..] == Pad2(minutes);
    assert DigitValue(s[3]) < 6 by {
      var t := Pad2(minutes);
      ParseTwoDigits(t);
    }
    s
  }

  /** isCurrentlyOpen: always for all-day facilities, otherwise when the
      clock string lies between the opening and closing strings in string
      order. The stored isOpen flag plays no part. */
  predicate IsCurrentlyOpen(f: Facility, hours: nat, minutes: nat)
    requires hours < 24 && minutes < 60
  {
    f.openTime == AllDay
    || (StrLe(f.openTime, CurrentTimeString(hours, minutes)) && StrLe(CurrentTimeString(hours, minutes), f.closeTime))
  }

  /** Facilities whose hours are "24時間" are open at every minute. */
  lemma AllDayAlwaysOpen(f: Facility, hours: nat, minutes: nat)
    requires hours < 24 && minutes < 60 && f.openTime == AllDay
    ensures IsCurrentlyOpen(f, hours, minutes)
  {
  }

  /** With "HH:MM" hours the string comparison is the comparison of times:
      open iff the opening minute <= now <= the closing minute. */
  lemma OpenIffWithinHours(f: Facility, hours: nat, minutes: nat)
    requires hours < 24 && minutes < 60
    requires IsClock(f.openTime) && IsClock(f.closeTime)
    ensures IsCurrentlyOpen(f, hours, minutes) <==>
      ClockMinutes(f.openTime) <= 60 * hours + minutes <= ClockMinutes(f.closeTime)
  {
    var now := CurrentTimeString(hours, minutes);
    assert f.openTime != AllDay by { assert |AllDay| != 5; }
    ClockOrder(f.openTime, now);
    ClockOrder(now, f.closeTime);
  }

  /** A closing time of 24:00 or later is never passed before midnight, so
      such a facility is open from its opening time to the end of the day. */
  lemma LateCloseNeverPassed(f: Facility, hours: nat, minutes: nat)
    requires hours < 24 && minutes < 60
    requires IsClock(f.openTime) && IsClock(f.closeTime) && ClockHour(f.closeTime) >= 24
    ensures IsCurrentlyOpen(f, hours, minutes) <==> ClockMinutes(f.openTime) <= 60 * hours + minutes
  {
    OpenIffWithinHours(f, hours, minutes);
  }

  /** The answer depends only on the hours and the clock, not on isOpen. */
  lemma IsOpenFlagIgnored(f: Facility, flag: bool, hours: nat, minutes: nat)
    requires hours < 24 && minutes < 60
    ensures IsCurrentlyOpen(f.(isOpen := flag), hours, minutes) == IsCurrentlyOpen(f, hours, minutes)
  {
  }

  // ---------------------------------------------------------------------
  // filteredFacilities

  /** The search box: name or description contains the query after the
      `fold` text folding (toLowerCase) on both sides. */
  predicate MatchesSearch(f: Facility, query: string, fold: string -> string)
  {
    Contains(fold(f.name), fold(query)) || Contains(fold(f.description), fold(query))
  }

  /** A category of None stands for 'all'. */
  predicate Keeps(f: Facility, floor: Floor, category: Option<FacilityCategory>, query: string, fold: string -> string)
  {
    f.floor == floor && (category.None? || f.category == category.value) && MatchesSearch(f, query, fold)
  }

  function FilteredFacilities(facilities: seq<Facility>, floor: Floor, category: Option<FacilityCategory>,
    query: string, fold: string -> string): (r: seq<Facility>)
    ensures forall f :: f in r <==> f in facilities && Keeps(f, floor, category, query, fold)
  {
    Filter(facilities, (f: Facility) => Keeps(f, floor, category, query, fold))
  }

  function OnFloor(facilities: seq<Facility>, floor: Floor): seq<Facility>
  {
    Filter(facilities, (f: Facility) => f.floor == floor)
  }

  /** An empty query with category 'all' lists the whole floor in its order. */
  lemma {:induction false} EmptyQueryShowsFloor(facilities: seq<Facility>, floor: Floor, fold: string -> string)
    requires fold("") == ""
    ensures FilteredFacilities(facilities, floor, None, "", fold) == OnFloor(facilities, floor)
  {
    if facilities != [] {
      ContainsEmpty(fold(facilities[0].name));
      EmptyQueryShowsFloor(facilities[1..], floor, fold);
    }
  }
}
