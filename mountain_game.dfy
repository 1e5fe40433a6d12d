/** The mountain-climbing simulator: one game state that the purchase,
    start, climb, random-event, consume, rescue and reset handlers replace
    by a successor state. */
module MountainGame {
  import opened Common

  datatype Weather = Sunny | Cloudy | Rainy | Snowy | Storm
  datatype Gear = Boots | Jacket | Backpack | Rope | Oxygen
  datatype Item = Water | Food | Medicine
  datatype Difficulty = Easy | Medium | Hard | Expert
  datatype Status = Preparing | Climbing | Summit | Failed | Rescued

  datatype Equipment = Equipment(boots: bool, jacket: bool, backpack: bool, rope: bool, oxygen: bool)
  datatype Inventory = Inventory(water: int, food: int, medicine: int)

  /** The event log's lines, by the event each one reports. */
  datatype LogLine =
    | Prepared
    | PreparedAgain
    | Purchased(gear: Gear)
    | MissingGear(missing: seq<Gear>)
    | Started(routeName: string)
    | Exhausted
    | Reached(targetAltitude: int)
    | Climbed(altitude: real, staminaCost: int)
    | WeatherChanged(weather: Weather)
    | WaterUsed
    | Rockfall(damage: int)
    | Scenery(recovery: int)
    | Consumed(item: Item)
    | Rescue

  datatype GameState = GameState(
    stamina: int, altitude: real, weather: Weather, equipment: Equipment,
    inventory: Inventory, experience: int, isClimbing: bool, gameStatus: Status,
    eventLog: seq<LogLine>, currentRoute: Difficulty, maxAltitude: int)

  datatype Route = Route(name: string, difficulty: Difficulty, targetAltitude: int,
    staminaCost: int, requiredEquipment: seq<Gear>)

  const Routes: seq<Route> := [
    Route("初心者コース", Easy, 1000, 10, [Boots]),
    Route("中級者コース", Medium, 2500, 20, [Boots, Jacket, Backpack]),
    Route("上級者コース", Hard, 4000, 30, [Boots, Jacket, Backpack, Rope]),
    Route("エキスパートコース", Expert, 6000, 40, [Boots, Jacket, Backpack, Rope, Oxygen])
  ]

  /** The weather's stamina multiplier in tenths (1.0, 1.1, 1.3, 1.5, 2.0). */
  function MultiplierTenths(w: Weather): int
  {
    match w
    case Sunny => 10
    case Cloudy => 11
    case Rainy => 13
    case Snowy => 15
    case Storm => 20
  }

  // ---------------------------------------------------------------------
  // Lookups

  function HasGear(e: Equipment, g: Gear): bool
  {
    match g
    case Boots => e.boots
    case Jacket => e.jacket
    case Backpack => e.backpack
    case Rope => e.rope
    case Oxygen => e.oxygen
  }

  /** `{...equipment, [g]: true}`. */
  function WithGear(e: Equipment, g: Gear): (r: Equipment)
    ensures HasGear(r, g)
    ensures forall h :: h != g ==> HasGear(r, h) == HasGear(e, h)
  {
    match g
    case Boots => e.(boots := true)
    case Jacket => e.(jacket := true)
    case Backpack => e.(backpack := true)
    case Rope => e.(rope := true)
    case Oxygen => e.(oxygen := true)
  }

  function CountOf(inv: Inventory, item: Item): int
  {
    match item
    case Water => inv.water
    case Food => inv.food
    case Medicine => inv.medicine
  }

  /** `{...inventory, [item]: inventory[item] - 1}`. */
  function Decremented(inv: Inventory, item: Item): (r: Inventory)
    ensures CountOf(r, item) == CountOf(inv, item) - 1
    ensures forall other :: other != item ==> CountOf(r, other) == CountOf(inv, other)
  {
    match item
    case Water => inv.(water := inv.water - 1)
    case Food => inv.(food := inv.food - 1)
    case Medicine => inv.(medicine := inv.medicine - 1)
  }

  /** The stamina an item restores. */
  function Restores(item: Item): int
  {
    match item
    case Water => 10
    case Food => 20
    case Medicine => 30
  }

  /** `routes.find(r => r.difficulty === d)!`: the one route of that difficulty. */
  function RouteFor(d: Difficulty): (r: Route)
    ensures r in Routes && r.difficulty == d
    ensures forall other :: other in Routes && other.difficulty == d ==> other == r
  {
    match d
    case Easy => Routes[0]
    case Medium => Routes[1]
    case Hard => Routes[2]
    case Expert => Routes[3]
  }

  /** `Math.round(route.staminaCost * multiplier)`: every cost is a multiple
      of ten, so the product with a multiplier in tenths is a whole number. */
  function StaminaCost(route: Route, w: Weather): int
  {
    route.staminaCost * MultiplierTenths(w) / 10
  }

  lemma StaminaCostExact(route: Route, w: Weather)
    requires route in Routes
    ensures 10 * StaminaCost(route, w) == route.staminaCost * MultiplierTenths(w)
    ensures route.staminaCost <= StaminaCost(route, w) <= 2 * route.staminaCost
  {
  }

  /** The required gear not yet bought, in the route's order. */
  function MissingEquipment(route: Route, e: Equipment): (missing: seq<Gear>)
    ensures forall g :: g in missing <==> g in route.requiredEquipment && !HasGear(e, g)
  {
    Filter(route.requiredEquipment, (g: Gear) => !HasGear(e, g))
  }

  // ---------------------------------------------------------------------
  // Successor states

  const InitialEquipment := Equipment(false, false, false, false, false)
  const InitialInventory := Inventory(3, 3, 1)

  function InitialState(): (s: GameState)
    ensures s.stamina == 100 && s.gameStatus == Preparing && !s.isClimbing
  {
    GameState(100, 0.0, Sunny, InitialEquipment, InitialInventory, 0, false, Preparing,
      [Prepared], Easy, 0)
  }

  /** What every handler keeps: stamina within 0..100, no negative stock,
      climbing exactly in the climbing status, and non-negative records. */
  predicate Inv(s: GameState)
  {
    0 <= s.stamina <= 100
    && s.inventory.water >= 0 && s.inventory.food >= 0 && s.inventory.medicine >= 0
    && (s.isClimbing <==> s.gameStatus == Climbing)
    && s.experience >= 0 && s.maxAltitude >= 0 && s.altitude >= 0.0
  }

  /** purchaseEquipment: only while preparing; sets exactly that item. */
  function Purchase(s: GameState, g: Gear): (r: GameState)
    ensures s.gameStatus != Preparing ==> r == s
    ensures s.gameStatus == Preparing ==>
      HasGear(r.equipment, g)
      && (forall h :: h != g ==> HasGear(r.equipment, h) == HasGear(s.equipment, h))
      && r.eventLog == s.eventLog + [Purchased(g)]
      && r == s.(equipment := r.equipment, eventLog := r.eventLog)
  {
    if s.gameStatus != Preparing then s
    else s.(equipment := WithGear(s.equipment, g), eventLog := s.eventLog + [Purchased(g)])
  }

  /** startClimbing: refused with a log line while gear is missing, otherwise
      the climb on that route begins. */
  function StartClimbing(s: GameState, route: Route): (r: GameState)
    ensures (exists g :: g in route.requiredEquipment && !HasGear(s.equipment, g)) ==>
      r == s.(eventLog := s.eventLog + [MissingGear(MissingEquipment(route, s.equipment))])
    ensures (forall g :: g in route.requiredEquipment ==> HasGear(s.equipment, g)) ==>
      r == s.(isClimbing := true, gameStatus := Climbing, currentRoute := route.difficulty,
        eventLog := s.eventLog + [Started(route.name)])
  {
    var missing := MissingEquipment(route, s.equipment);
    if |missing| > 0 then
      assert missing[0] in missing;
      s.(eventLog := s.eventLog + [MissingGear(missing)])
    else
      s.(isClimbing := true, gameStatus := Climbing, currentRoute := route.difficulty,
        eventLog := s.eventLog + [Started(route.name)])
  }

  /** climbStep with the altitude gain drawn by the caller (50 to 150 m). */
  function ClimbStep(s: GameState, gain: real): (r: GameState)
    ensures s.stamina <= 0 ==>
      r == s.(gameStatus := Failed, isClimbing := false, eventLog := s.eventLog + [Exhausted])
    ensures s.stamina > 0 ==>
      r.stamina == Max(0, s.stamina - StaminaCost(RouteFor(s.currentRoute), s.weather))
      && r.equipment == s.equipment && r.inventory == s.inventory && r.weather == s.weather
      && r.currentRoute == s.currentRoute
    ensures s.stamina > 0 && s.altitude + gain >= RouteFor(s.currentRoute).targetAltitude as real ==>
      var target := RouteFor(s.currentRoute).targetAltitude;
      r.altitude == target as real && r.gameStatus == Summit && !r.isClimbing
      && r.experience == s.experience + target / 10 && r.maxAltitude == Max(s.maxAltitude, target)
    ensures s.stamina > 0 && s.altitude + gain < RouteFor(s.currentRoute).targetAltitude as real ==>
      r.altitude == s.altitude + gain && r.gameStatus == s.gameStatus && r.isClimbing == s.isClimbing
      && r.experience == s.experience && r.maxAltitude == s.maxAltitude
  {
    if s.stamina <= 0 then
      s.(gameStatus := Failed, isClimbing := false, eventLog := s.eventLog + [Exhausted])
    else
      var route := RouteFor(s.currentRoute);
      var cost := StaminaCost(route, s.weather);
      var newAltitude := s.altitude + gain;
      var newStamina := Max(0, s.stamina - cost);
      if newAltitude >= route.targetAltitude as real then
        s.(altitude := route.targetAltitude as real, stamina := newStamina, gameStatus := Summit,
          isClimbing := false, experience := s.experience + route.targetAltitude / 10,
          maxAltitude := Max(s.maxAltitude, route.targetAltitude),
          eventLog := s.eventLog + [Reached(route.targetAltitude)])
      else
        s.(altitude := newAltitude, stamina := newStamina,
          eventLog := s.eventLog + [Climbed(newAltitude, cost)])
  }

  /** What the random-event timer drew this time: an optional new weather,
      whether a water is used up, an optional rockfall damage (10..30) and an
      optional scenery recovery (5..20). */
  datatype Draw = Draw(newWeather: Option<Weather>, loseWater: bool, rockfall: Option<int>, scenery: Option<int>)

  predicate DrawInRange(d: Draw)
  {
    (d.rockfall.Some? ==> 10 <= d.rockfall.value <= 30)
    && (d.scenery.Some? ==> 5 <= d.scenery.value <= 20)
  }

  /** handleRandomEvent: the drawn events applied one after another. */
  function RandomEvent(s: GameState, d: Draw): (r: GameState)
    requires DrawInRange(d)
    ensures Inv(s) ==> Inv(r)
    ensures r.equipment == s.equipment && r.gameStatus == s.gameStatus && r.isClimbing == s.isClimbing
    ensures r.altitude == s.altitude && r.experience == s.experience && r.maxAltitude == s.maxAltitude
    ensures r.weather == (if d.newWeather.Some? then d.newWeather.value else s.weather)
    ensures r.inventory.water == (if d.loseWater then Max(0, s.inventory.water - 1) else s.inventory.water)
    ensures r.inventory.food == s.inventory.food && r.inventory.medicine == s.inventory.medicine
  {
    var s1 := if d.newWeather.Some? then
        s.(weather := d.newWeather.value, eventLog := s.eventLog + [WeatherChanged(d.newWeather.value)])
      else s;
    var s2 := if d.loseWater then
        s1.(inventory := s1.inventory.(water := Max(0, s1.inventory.water - 1)), eventLog := s1.eventLog + [WaterUsed])
      else s1;
    var s3 := if d.rockfall.Some? then
        s2.(stamina := Max(0, s2.stamina - d.rockfall.value), eventLog := s2.eventLog + [Rockfall(d.rockfall.value)])
      else s2;
    if d.scenery.Some? then
      s3.(stamina := Min(100, s3.stamina + d.scenery.value), eventLog := s3.eventLog + [Scenery(d.scenery.value)])
    else s3
  }

  /** consumeItem: nothing without stock; otherwise one fewer of the item and
      its stamina restored up to 100. */
  function ConsumeItem(s: GameState, item: Item): (r: GameState)
    ensures CountOf(s.inventory, item) <= 0 ==> r == s
    ensures CountOf(s.inventory, item) > 0 ==>
      CountOf(r.inventory, item) == CountOf(s.inventory, item) - 1
      && (forall other :: other != item ==> CountOf(r.inventory, other) == CountOf(s.inventory, other))
      && r.stamina == Min(100, s.stamina + Restores(item))
      && r == s.(stamina := r.stamina, inventory := r.inventory, eventLog := s.eventLog + [Consumed(item)])
  {
    if CountOf(s.inventory, item) <= 0 then s
    else s.(stamina := Min(100, s.stamina + Restores(item)), inventory := Decremented(s.inventory, item),
      eventLog := s.eventLog + [Consumed(item)])
  }

  /** rescueClimber: back at base with half stamina. */
  function RescueClimber(s: GameState): (r: GameState)
    ensures r.gameStatus == Rescued && !r.isClimbing && r.stamina == 50
    ensures r == s.(gameStatus := Rescued, isClimbing := false, stamina := 50, eventLog := s.eventLog + [Rescue])
  {
    s.(gameStatus := Rescued, isClimbing := false, stamina := 50, eventLog := s.eventLog + [Rescue])
  }

  /** resetGame: a fresh game that carries over experience and the best altitude. */
  function ResetGame(s: GameState): (r: GameState)
    ensures r == InitialState().(experience := s.experience, maxAltitude := s.maxAltitude, eventLog := [PreparedAgain])
  {
    GameState(100, 0.0, Sunny, InitialEquipment, InitialInventory, s.experience, false, Preparing,
      [PreparedAgain], Easy, s.maxAltitude)
  }

  // ---------------------------------------------------------------------
  // Properties across the handlers

  /** Every handler keeps the invariant. */
  lemma InvariantPreserved(s: GameState, g: Gear, route: Route, gain: real, d: Draw, item: Item)
    requires Inv(s) && gain >= 0.0 && DrawInRange(d)
    ensures Inv(InitialState())
    ensures Inv(Purchase(s, g)) && Inv(StartClimbing(s, route)) && Inv(ClimbStep(s, gain))
    ensures Inv(RandomEvent(s, d)) && Inv(ConsumeItem(s, item)) && Inv(RescueClimber(s)) && Inv(ResetGame(s))
  {
    var target := RouteFor(s.currentRoute).targetAltitude;
    assert target >= 1000;
  }

  /** Experience and the best altitude never decrease, across games too. */
  lemma RecordsNeverDecrease(s: GameState, g: Gear, route: Route, gain: real, d: Draw, item: Item)
    requires Inv(s) && DrawInRange(d)
    ensures var nexts := [Purchase(s, g), StartClimbing(s, route), ClimbStep(s, gain), RandomEvent(s, d),
        ConsumeItem(s, item), RescueClimber(s), ResetGame(s)];
      forall i :: 0 <= i < |nexts| ==> nexts[i].experience >= s.experience && nexts[i].maxAltitude >= s.maxAltitude
  {
    var target := RouteFor(s.currentRoute).targetAltitude;
    assert target >= 1000;
  }

  /** Reaching a summit is reflected in the best altitude. */
  lemma SummitRecorded(s: GameState, gain: real)
    requires s.stamina > 0
    requires ClimbStep(s, gain).gameStatus == Summit && s.gameStatus != Summit
    ensures ClimbStep(s, gain).maxAltitude >= RouteFor(s.currentRoute).targetAltitude
    ensures ClimbStep(s, gain).experience == s.experience + RouteFor(s.currentRoute).targetAltitude / 10
  {
  }

  // ---------------------------------------------------------------------
  // The page

  class Game {
    var state: GameState

    ghost predicate Valid()
      reads this
    {
      Inv(state)
    }

    constructor()
      ensures Valid() && state == InitialState()
    {
      state := InitialState();
    }

    method PurchaseEquipment(g: Gear)
      requires Valid()
      modifies this
      ensures Valid() && state == Purchase(old(state), g)
    {
      state := Purchase(state, g);
    }

    method StartClimbingOn(route: Route)
      requires Valid()
      modifies this
      ensures Valid() && state == StartClimbing(old(state), route)
    {
      state := StartClimbing(state, route);
    }

    /** One climbing step; Math.random() * 100 + 50 is passed in as `gain`. */
    method Climb(gain: real)
      requires Valid() && 50.0 <= gain < 150.0
      modifies this
      ensures Valid() && state == ClimbStep(old(state), gain)
    {
      InvariantPreserved(state, Boots, Routes[0], gain, Draw(None, false, None, None), Water);
      state := ClimbStep(state, gain);
    }

    method HandleRandomEvent(d: Draw)
      requires Valid() && DrawInRange(d)
      modifies this
      ensures Valid() && state == RandomEvent(old(state), d)
    {
      state := RandomEvent(state, d);
    }

    method Consume(item: Item)
      requires Valid()
      modifies this
      ensures Valid() && state == ConsumeItem(old(state), item)
    {
      state := ConsumeItem(state, item);
    }

    method Rescue()
      requires Valid()
      modifies this
      ensures Valid() && state == RescueClimber(old(state))
    {
      state := RescueClimber(state);
    }

    method Reset()
      requires Valid()
      modifies this
      ensures Valid() && state == ResetGame(old(state))
      ensures state.experience == old(state).experience && state.maxAltitude == old(state).maxAltitude
    {
      state := ResetGame(state);
    }
  }
}
