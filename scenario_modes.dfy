/** The hard-coded "Find Each Other" scenario (game/scenario_modes.py). */
module ScenarioModes {
  import opened Wrappers
  import opened Entities
  import opened WorldGraph
  import opened State

  /** The joint-victory sentinel. */
  const Both: string := "BOTH"

  const Lantern: Item := Item("lantern", "Faint Lantern",
    "A small lantern that pushes the darkness back just a little.", ["light"])
  const StrangePotion: Item := Item("potion", "Strange Potion",
    "A cloudy liquid in a cracked vial. It smells metallic.", ["potion"])
  const ClarityDraught: Item := Item("clarity", "Clarity Draught",
    "A clear, bitter liquid that somehow smells like cold air.", ["potion", "clarity"])

  const FoyerText: string := "A cold, dim foyer with a single flickering candle."
  const FoyerDetail: string := "Peeling wallpaper curls from the walls and a large portrait with scratched-out faces hangs crooked above the door."
  const HallText: string := "A narrow hallway. The walls seem closer than they should be."
  const HallDetail: string := "Uneven floorboards creak underfoot. Faded runner rugs lead past doorways, and the ceiling seems to sag in the middle."
  const LibraryText: string := "Dusty shelves tower above. You hear faint whispering."
  const LibraryDetail: string := "Dozens of cracked leather spines stare down at you. A ladder leans uselessly against a shelf, and loose pages litter the floor like fallen leaves."
  const CellarText: string := "Damp stone underfoot. Something drips in the dark."
  const CellarDetail: string := "Thick wooden beams hold up a low ceiling. Rusted hooks hang from chains, and old barrels sweat moisture in the chill."

  /** The two opening messages of the scenario. */
  const OpeningLines: seq<string> := [
    "You awaken in different parts of a strange place.",
    "Find each other before the darkness finds you."]

  /** The first two players of the dictionary, when there are two. The win
      checks read only the players and their dictionary order. */
  predicate FirstTwoColocated(players: map<string, Player>, order: seq<string>)
    requires forall j :: 0 <= j < |order| ==> order[j] in players
  {
    |order| >= 2 && players[order[0]].locationId == players[order[1]].locationId
  }

  /** The "meet" win rule: BOTH when the first two players share a room,
      otherwise (or with fewer than two players) nobody. */
  function CheckWinCondition(players: map<string, Player>, order: seq<string>): (r: Option<string>)
    requires forall j :: 0 <= j < |order| ==> order[j] in players
    ensures r == Some(Both) <==> FirstTwoColocated(players, order)
    ensures r != Some(Both) ==> r == None
  {
    if |order| < 2 then None
    else
      var p1 := players[order[0]];
      var p2 := players[order[1]];
      if p1.locationId == p2.locationId then Some(Both) else None
  }

  /** The manor as set up: rooms foyer, hall, library and cellar; the
      bidirectional edges foyer-hall, hall-library and hall-cellar; the
      lantern in the foyer, the potion in the library and the clarity
      draught in the cellar. */
  ghost predicate IsManor(world: World)
    reads world, world.locations.Values
  {
    && world.Valid() && world.Closed()
    && world.locations.Keys == {"foyer", "hall", "library", "cellar"}
    && world.locations["foyer"].neighbors == {"hall"}
    && world.locations["hall"].neighbors == {"foyer", "library", "cellar"}
    && world.locations["library"].neighbors == {"hall"}
    && world.locations["cellar"].neighbors == {"hall"}
    && world.locations["foyer"].items == [Lantern]
    && world.locations["hall"].items == []
    && world.locations["library"].items == [StrangePotion]
    && world.locations["cellar"].items == [ClarityDraught]
  }

  /** The four rooms of the manor, registered and not yet connected. */
  method ManorRooms() returns (world: World, foyer: Location, hall: Location, library: Location, cellar: Location)
    ensures fresh(world) && fresh(foyer) && fresh(hall) && fresh(library) && fresh(cellar)
    ensures world.Valid()
    ensures world.locations == map["foyer" := foyer, "hall" := hall, "library" := library, "cellar" := cellar]
    ensures foyer.neighbors == {} && hall.neighbors == {} && library.neighbors == {} && cellar.neighbors == {}
    ensures foyer.items == [] && hall.items == [] && library.items == [] && cellar.items == []
    ensures foyer.name == "Foyer" && hall.name == "Long Hallway" && library.name == "Library" && cellar.name == "Cellar"
  {
    world := new World();
    foyer := new Location("foyer", "Foyer", FoyerText, FoyerDetail);
    hall := new Location("hall", "Long Hallway", HallText, HallDetail);
    library := new Location("library", "Library", LibraryText, LibraryDetail);
    cellar := new Location("cellar", "Cellar", CellarText, CellarDetail);
    world.AddLocation(foyer);
    world.AddLocation(hall);
    world.AddLocation(library);
    world.AddLocation(cellar);
  }

  /** The three bidirectional edges foyer-hall, hall-library and hall-cellar. */
  method ConnectManor(world: World, foyer: Location, hall: Location, library: Location, cellar: Location)
    requires world.Valid()
    requires world.locations == map["foyer" := foyer, "hall" := hall, "library" := library, "cellar" := cellar]
    requires foyer.neighbors == {} && hall.neighbors == {} && library.neighbors == {} && cellar.neighbors == {}
    modifies foyer, hall, library, cellar
    ensures foyer.neighbors == {"hall"} && hall.neighbors == {"foyer", "library", "cellar"}
    ensures library.neighbors == {"hall"} && cellar.neighbors == {"hall"}
    ensures foyer.items == old(foyer.items) && hall.items == old(hall.items)
    ensures library.items == old(library.items) && cellar.items == old(cellar.items)
  {
    world.Connect("foyer", "hall", true);
    world.Connect("hall", "library", true);
    world.Connect("hall", "cellar", true);
  }

  /** Builds the manor in a fresh world. */
  method BuildManor() returns (world: World)
    ensures fresh(world) && fresh(world.locations.Values)
    ensures IsManor(world)
  {
    var foyer, hall, library, cellar;
    world, foyer, hall, library, cellar := ManorRooms();
    ConnectManor(world, foyer, hall, library, cellar);

    foyer.PlaceItem(Lantern);
    library.PlaceItem(StrangePotion);
    cellar.PlaceItem(ClarityDraught);
  }

  /** With exactly the players P1 and P2, the dictionary order holds just those two. */
  lemma PairOrder(state: GameState)
    requires state.PlayersWellFormed() && state.players.Keys == {"P1", "P2"}
    ensures |state.playerOrder| == 2
    ensures {state.playerOrder[0], state.playerOrder[1]} == {"P1", "P2"}
  {
    var o := state.playerOrder;
    forall i | 0 <= i < |o|
      ensures o[i] in {"P1", "P2"}
    {
      assert o[i] in o;
    }
    assert "P1" in o && "P2" in o;
    DistinctWithin(o, {"P1", "P2"});
  }

  /** A sequence without repeats drawn from s is no longer than s is large. */
  lemma {:induction false} DistinctWithin(o: seq<string>, s: set<string>)
    requires forall i, j :: 0 <= i < j < |o| ==> o[i] != o[j]
    requires forall i :: 0 <= i < |o| ==> o[i] in s
    ensures |o| <= |s|
  {
    if o != [] {
      var n := |o| - 1;
      DistinctWithin(o[..n], s - {o[n]});
    }
  }

  /** Builds the manor, puts P1 in the foyer and P2 in the library and adds
      the two opening messages. The source looks up "P1" and "P2" directly,
      so both must be players. */
  method InitialSetup(state: GameState)
    requires state.Valid()
    requires "P1" in state.players && "P2" in state.players
    modifies state`world, state`messages, state`players
    ensures state.Valid() && fresh(state.world) && fresh(state.world.locations.Values)
    ensures IsManor(state.world)
    ensures state.players == old(state.players)
      ["P1" := old(state.players["P1"]).(locationId := "foyer")]
      ["P2" := old(state.players["P2"]).(locationId := "library")]
    ensures state.messages == old(state.messages) + OpeningLines
    ensures state.players.Keys == {"P1", "P2"} ==> CheckWinCondition(state.players, state.playerOrder) == None
  {
    var world := BuildManor();
    state.world := world;
    PlaceAndGreet(state);
  }

  /** The player placement and the opening messages of the setup. */
  method PlaceAndGreet(state: GameState)
    requires state.Valid()
    requires "P1" in state.players && "P2" in state.players
    modifies state`messages, state`players
    ensures state.Valid()
    ensures state.players == old(state.players)
      ["P1" := old(state.players["P1"]).(locationId := "foyer")]
      ["P2" := old(state.players["P2"]).(locationId := "library")]
    ensures state.messages == old(state.messages) + OpeningLines
    ensures state.players.Keys == {"P1", "P2"} ==> CheckWinCondition(state.players, state.playerOrder) == None
  {
    var p1 := state.players["P1"];
    var p2 := state.players["P2"];
    var placed := state.players["P1" := p1.(locationId := "foyer")]["P2" := p2.(locationId := "library")];
    assert placed.Keys == state.players.Keys;
    state.players := placed;

    ghost var before := state.messages;
    state.AddMessage(OpeningLines[0]);
    state.AddMessage(OpeningLines[1]);
    assert state.messages == before + [OpeningLines[0], OpeningLines[1]];

    if state.players.Keys == {"P1", "P2"} {
      PairOrder(state);
    }
  }
}
