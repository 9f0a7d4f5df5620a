/** The data-driven scenario (game/yaml_scenario.py) over already-parsed
    rooms and items documents: building the world from the rooms, placing
    the items, putting the players on their start rooms and the win rules
    of its modes. */
module Yaml {
  import opened Wrappers
  import opened Text
  import opened Entities
  import opened WorldGraph
  import opened YamlDocs
  import opened State
  import ScenarioModes

  /** A location carries the texts of the room document it was made from:
      the key as id, the stripped id as the default name and empty texts as
      the default descriptions. */
  predicate MadeFrom(loc: Location, r: RoomDoc)
  {
    && loc.id == RoomKey(r)
    && loc.name == r.name.GetOr(RawRoomId(r))
    && loc.description == r.description.GetOr("")
    && loc.detailDescription == r.detailDescription.GetOr("")
  }

  /** The keys are those some room has, and every location was made from
      the last room with its key. */
  ghost predicate LocationsFrom(locations: map<string, Location>, rooms: seq<RoomDoc>)
  {
    forall k :: (k in locations <==> LastWithKey(rooms, k) >= 0) &&
      (k in locations ==> MadeFrom(locations[k], rooms[LastWithKey(rooms, k)]))
  }

  /** Storing the location made from rooms[i] under its key keeps every
      location made from the last room with its key. */
  lemma LocationsFromStep(m: map<string, Location>, rooms: seq<RoomDoc>, i: int, loc: Location)
    requires 0 <= i < |rooms| && MadeFrom(loc, rooms[i])
    requires LocationsFrom(m, rooms[..i])
    ensures LocationsFrom(m[loc.id := loc], rooms[..i + 1])
  {
    var m' := m[loc.id := loc];
    forall k
      ensures (k in m' <==> LastWithKey(rooms[..i + 1], k) >= 0) &&
        (k in m' ==> MadeFrom(m'[k], rooms[..i + 1][LastWithKey(rooms[..i + 1], k)]))
    {
      LastStep(rooms, i, k);
    }
  }

  /** The keys of such a dictionary are the room keys. */
  lemma KeysExact(locations: map<string, Location>, rooms: seq<RoomDoc>)
    requires LocationsFrom(locations, rooms)
    ensures locations.Keys == RoomKeys(rooms)
  {
    forall k ensures k in locations <==> k in RoomKeys(rooms) {
      RoomKeysExact(rooms, k);
    }
  }

  /** A fresh location for one room document. */
  method NewLocationFor(r: RoomDoc) returns (loc: Location)
    ensures fresh(loc) && MadeFrom(loc, r)
    ensures loc.neighbors == {} && loc.items == []
  {
    var rid := Strip(r.id.GetOr(""));
    loc := new Location(ToLower(rid), r.name.GetOr(rid), r.description.GetOr(""), r.detailDescription.GetOr(""));
  }

  /** No location has exits or items yet. */
  ghost predicate AllBare(world: World)
    reads world, world.locations.Values
  {
    forall k :: k in world.locations ==> world.locations[k].neighbors == {} && world.locations[k].items == []
  }

  /** The dictionary's first key is the first room's key. */
  ghost predicate FirstKey(order: seq<string>, rooms: seq<RoomDoc>)
  {
    if rooms == [] then order == [] else order != [] && order[0] == RoomKey(rooms[0])
  }

  /** The dictionary after the first pass over the rooms: one location per
      key, stored under its id and made from the last room with that key,
      keys listed once each in first-insertion order. */
  ghost predicate CreatedMap(locations: map<string, Location>, order: seq<string>, rooms: seq<RoomDoc>)
  {
    && (forall k :: k in locations ==> locations[k].id == k)
    && (forall k :: k in locations <==> k in order)
    && (forall i, j :: 0 <= i < j < |order| ==> order[i] != order[j])
    && LocationsFrom(locations, rooms)
    && FirstKey(order, rooms)
  }

  /** The world after the first pass over the rooms: the dictionary above,
      and no location has exits or items yet. */
  ghost predicate RoomsCreated(world: World, rooms: seq<RoomDoc>)
    reads world, world.locations.Values
  {
    CreatedMap(world.locations, world.order, rooms) && AllBare(world)
  }

  /** The key order after storing under key: unchanged for a key already
      present, the key appended otherwise (a Python dict insert). */
  function InsertOrder(order: seq<string>, present: set<string>, key: string): seq<string>
  {
    if key in present then order else order + [key]
  }

  /** Storing a location under its own id keeps every location under its id
      and the order listing each key once. */
  lemma OrderStep(locations: map<string, Location>, order: seq<string>, loc: Location)
    requires forall k :: k in locations ==> locations[k].id == k
    requires forall k :: k in locations <==> k in order
    requires forall i, j :: 0 <= i < j < |order| ==> order[i] != order[j]
    ensures var m := locations[loc.id := loc]; var o := InsertOrder(order, locations.Keys, loc.id);
      && (forall k :: k in m ==> m[k].id == k)
      && (forall k :: k in m <==> k in o)
      && (forall i, j :: 0 <= i < j < |o| ==> o[i] != o[j])
  {
  }

  /** The first key stays the first room's key. */
  lemma FirstKeyStep(locations: map<string, Location>, order: seq<string>, rooms: seq<RoomDoc>, i: int, loc: Location)
    requires 0 <= i < |rooms| && MadeFrom(loc, rooms[i])
    requires CreatedMap(locations, order, rooms[..i])
    ensures FirstKey(InsertOrder(order, locations.Keys, loc.id), rooms[..i + 1])
  {
    var order' := InsertOrder(order, locations.Keys, loc.id);
    assert rooms[..i + 1][0] == rooms[0];
    if i == 0 {
      assert forall k :: k !in locations by {
        forall k ensures k !in locations {
          assert LastWithKey(rooms[..0], k) == -1;
        }
      }
      assert order' == [loc.id];
    } else {
      assert order'[0] == order[0];
    }
  }

  /** Storing the location made from rooms[i] extends the dictionary of the
      first i rooms to that of the first i + 1. */
  lemma CreatedStep(locations: map<string, Location>, order: seq<string>, rooms: seq<RoomDoc>, i: int, loc: Location)
    requires 0 <= i < |rooms| && MadeFrom(loc, rooms[i])
    requires CreatedMap(locations, order, rooms[..i])
    ensures CreatedMap(locations[loc.id := loc], InsertOrder(order, locations.Keys, loc.id), rooms[..i + 1])
  {
    OrderStep(locations, order, loc);
    LocationsFromStep(locations, rooms, i, loc);
    FirstKeyStep(locations, order, rooms, i, loc);
  }

  /** Replacing or adding one entry adds at most that value to a map's values. */
  lemma ValuesUpdate(m: map<string, Location>, k: string, v: Location)
    ensures m[k := v].Values <= m.Values + {v}
  {
    forall x | x in m[k := v].Values ensures x in m.Values + {v} {
      var j :| j in m[k := v] && m[k := v][j] == x;
      if j != k {
        assert m[j] == x;
      }
    }
  }

  /** One step of the first pass: the location for rooms[i]. */
  method AddRoom(world: World, rooms: seq<RoomDoc>, i: int, ghost made: set<Location>) returns (loc: Location)
    requires 0 <= i < |rooms| && RawRoomId(rooms[i]) != ""
    requires RoomsCreated(world, rooms[..i]) && world.locations.Values <= made
    modifies world
    ensures RoomsCreated(world, rooms[..i + 1])
    ensures fresh(loc) && world.locations.Values <= made + {loc}
  {
    loc := NewLocationFor(rooms[i]);
    ghost var before := world.locations;
    CreatedStep(before, world.order, rooms, i, loc);
    world.AddLocation(loc);
    ValuesUpdate(before, loc.id, loc);
    forall k | k in world.locations
      ensures world.locations[k].neighbors == {} && world.locations[k].items == []
    {
      if k != loc.id {
        assert world.locations[k] == before[k];
      }
    }
  }

  /** The first pass of _build_world: a location per room, failing on the
      first room without a non-empty id. */
  method CreateRooms(rooms: seq<RoomDoc>) returns (res: Result<World>)
    ensures res.Ok? <==> AllRoomsHaveIds(rooms)
    ensures res.Ok? ==> fresh(res.value) && fresh(res.value.locations.Values) && RoomsCreated(res.value, rooms)
    ensures res.Ok? ==> res.value.locations.Keys == RoomKeys(rooms)
  {
    var world := new World();
    ghost var made: set<Location> := {};
    var i := 0;
    while i < |rooms|
      invariant 0 <= i <= |rooms|
      invariant fresh(world) && fresh(made) && world.locations.Values <= made
      invariant forall j :: 0 <= j < i ==> RawRoomId(rooms[j]) != ""
      invariant RoomsCreated(world, rooms[..i])
    {
      if Strip(rooms[i].id.GetOr("")) == [] {
        assert RawRoomId(rooms[i]) == "";
        return Err("rooms.yaml: room missing non-empty 'id'");
      }
      var loc := AddRoom(world, rooms, i, made);
      made := made + {loc};
      assert forall j :: 0 <= j < i + 1 ==> RawRoomId(rooms[j]) != "";
      i := i + 1;
    }
    assert rooms[..i] == rooms;
    KeysExact(world.locations, rooms);
    return Ok(world);
  }

  /** The neighbour sets are exactly the given edges: x is a neighbour of k
      when (k, x) is an edge. */
  ghost predicate NeighborsAre(world: World, edges: set<(string, string)>)
    reads world, world.locations.Values
  {
    forall k, x :: k in world.locations ==> (x in world.locations[k].neighbors <==> (k, x) in edges)
  }

  /** The item lists are the recorded ones. */
  ghost predicate ItemsAre(world: World, items: map<string, seq<Item>>)
    reads world, world.locations.Values
  {
    forall k :: k in world.locations ==> k in items && world.locations[k].items == items[k]
  }

  /** One bidirectional connection adds the edge in both orientations. */
  method ConnectPair(world: World, a: string, b: string, ghost edges: set<(string, string)>, ghost items: map<string, seq<Item>>)
    requires world.Valid() && a in world.locations && b in world.locations
    requires NeighborsAre(world, edges) && ItemsAre(world, items)
    modifies world.locations.Values
    ensures unchanged(world)
    ensures NeighborsAre(world, edges + {(a, b), (b, a)}) && ItemsAre(world, items)
  {
    world.Connect(a, b, true);
  }

  /** One exit of room rid, given the edges of the earlier rooms (prior) and
      of the earlier exits of this room (done). */
  method ConnectExit(world: World, rid: string, e: ExitDoc, edges: set<(string, string)>,
                     ghost prior: seq<RoomDoc>, ghost done: seq<ExitDoc>, ghost items: map<string, seq<Item>>)
    returns (res: Result<set<(string, string)>>)
    requires world.Valid() && rid in world.locations
    requires NeighborsAre(world, edges) && ItemsAre(world, items)
    requires edges == AllEdges(prior) + RoomEdges(rid, done)
    modifies world.locations.Values
    ensures unchanged(world)
    ensures res.Ok? <==> DestOk(e, world.locations.Keys)
    ensures res.Ok? ==> res.value == edges + ExitEdges(rid, e) && NeighborsAre(world, res.value)
    ensures ItemsAre(world, items)
  {
    var dest := ToLower(Strip(e.dest));
    assert dest == DestKey(e);
    if dest == [] {
      return Ok(edges);
    }
    if dest !in world.locations {
      return Err("rooms.yaml: exit points to missing room id");
    }
    if (rid, dest) in edges {
      AllEdgesSymmetric(prior, rid, dest);
      RoomEdgesSymmetric(rid, done, rid, dest);
      return Ok(edges);
    }
    ConnectPair(world, rid, dest, edges, items);
    return Ok(edges + {(rid, dest), (dest, rid)});
  }

  /** The exits of one room, on top of the edges of the earlier rooms. */
  method ConnectRoom(world: World, rid: string, exits: seq<ExitDoc>, connected: set<(string, string)>,
                     ghost prior: seq<RoomDoc>, ghost keys: set<string>, ghost items: map<string, seq<Item>>)
    returns (res: Result<set<(string, string)>>)
    requires world.Valid() && rid in world.locations && keys == world.locations.Keys
    requires NeighborsAre(world, connected) && ItemsAre(world, items)
    requires connected == AllEdges(prior)
    modifies world.locations.Values
    ensures unchanged(world)
    ensures res.Ok? <==> ExitsOk(exits, keys)
    ensures res.Ok? ==> res.value == connected + RoomEdges(rid, exits) && NeighborsAre(world, res.value)
    ensures ItemsAre(world, items)
  {
    ghost var locations := world.locations;
    var edges := connected;
    var j := 0;
    while j < |exits|
      invariant 0 <= j <= |exits|
      invariant world.locations == locations
      invariant edges == connected + RoomEdges(rid, exits[..j])
      invariant NeighborsAre(world, edges) && ItemsAre(world, items)
      invariant forall b :: 0 <= b < j ==> DestOk(exits[b], keys)
    {
      var r := ConnectExit(world, rid, exits[j], edges, prior, exits[..j], items);
      if r.Err? {
        return Err(r.error);
      }
      ExitStep(rid, exits, j);
      edges := r.value;
      j := j + 1;
    }
    assert exits[..j] == exits;
    return Ok(edges);
  }

  /** The second pass of _build_world: every exit connects its room and the
      destination both ways, an edge already connected is not connected
      again, an empty destination is skipped, and a destination that names
      no room fails. */
  method ConnectExits(world: World, rooms: seq<RoomDoc>) returns (res: Result<()>)
    requires world.Valid() && world.locations.Keys == RoomKeys(rooms)
    requires NeighborsAre(world, {})
    modifies world.locations.Values
    ensures unchanged(world)
    ensures res.Ok? <==> ExitsResolve(rooms, RoomKeys(rooms))
    ensures res.Ok? ==> NeighborsAre(world, AllEdges(rooms))
    ensures forall k :: k in world.locations ==> world.locations[k].items == old(world.locations[k].items)
  {
    ghost var locations := world.locations;
    ghost var keys := world.locations.Keys;
    ghost var items := ItemLists(world);
    var connected: set<(string, string)> := {};
    var i := 0;
    while i < |rooms|
      invariant 0 <= i <= |rooms|
      invariant world.locations == locations
      invariant connected == AllEdges(rooms[..i])
      invariant NeighborsAre(world, connected) && ItemsAre(world, items)
      invariant forall a :: 0 <= a < i ==> ExitsOk(ExitsOf(rooms[a]), keys)
    {
      var rid := ToLower(Strip(rooms[i].id.GetOr("")));
      var exits := rooms[i].exits.GetOr([]);
      assert rid == RoomKey(rooms[i]) && exits == ExitsOf(rooms[i]);
      InRoomKeys(rooms, i);
      var r := ConnectRoom(world, rid, exits, connected, rooms[..i], keys, items);
      if r.Err? {
        assert !ExitsOk(ExitsOf(rooms[i]), keys);
        return Err(r.error);
      }
      ghost var ok := ExitsOk(ExitsOf(rooms[i]), keys);
      assert ok;
      assert forall a :: 0 <= a < i + 1 ==> ExitsOk(ExitsOf(rooms[a]), keys) by {
        forall a | 0 <= a < i + 1 ensures ExitsOk(ExitsOf(rooms[a]), keys) {
          if a == i {
            assert ok;
          }
        }
      }
      connected := r.value;
      EdgesStep(rooms, i);
      i := i + 1;
    }
    assert rooms[..i] == rooms;
    return Ok(());
  }

  /** The world _build_world makes from the rooms: the dictionary of the
      first pass, neighbour sets that are exactly the edges the exits
      describe, no items, and every neighbour a room of the world. */
  ghost predicate BuiltFrom(world: World, rooms: seq<RoomDoc>)
    reads world, world.locations.Values
  {
    && ShapedFrom(world, rooms)
    && (forall k :: k in world.locations ==> world.locations[k].items == [])
  }

  /** The rooms and their connections as the room documents give them. */
  ghost predicate ShapedFrom(world: World, rooms: seq<RoomDoc>)
    reads world, world.locations.Values
  {
    && CreatedMap(world.locations, world.order, rooms)
    && world.Valid() && world.Ordered() && world.Closed()
    && world.locations.Keys == RoomKeys(rooms)
    && NeighborsAre(world, AllEdges(rooms))
  }

  /** _build_world: fails exactly when a room has no id or an exit names no
      room. */
  method BuildWorld(rooms: seq<RoomDoc>) returns (res: Result<World>)
    ensures res.Ok? <==> AllRoomsHaveIds(rooms) && ExitsResolve(rooms, RoomKeys(rooms))
    ensures res.Ok? ==> fresh(res.value) && fresh(res.value.locations.Values) && BuiltFrom(res.value, rooms)
  {
    var created := CreateRooms(rooms);
    if created.Err? {
      return Err(created.error);
    }
    var world := created.value;
    var connected := ConnectExits(world, rooms);
    if connected.Err? {
      return Err(connected.error);
    }
    forall k, n | k in world.locations && n in world.locations[k].neighbors
      ensures n in world.locations
    {
      EdgesWithinKeys(rooms, world.locations.Keys, k, n);
    }
    return Ok(world);
  }

  /** Every exit with a destination is a neighbour relation in both directions. */
  lemma ExitBecomesNeighbors(world: World, rooms: seq<RoomDoc>, a: int, b: int)
    requires BuiltFrom(world, rooms)
    requires 0 <= a < |rooms| && 0 <= b < |ExitsOf(rooms[a])| && DestKey(ExitsOf(rooms[a])[b]) != ""
    ensures var rid := RoomKey(rooms[a]); var dest := DestKey(ExitsOf(rooms[a])[b]);
      rid in world.locations && dest in world.locations &&
      dest in world.locations[rid].neighbors && rid in world.locations[dest].neighbors
  {
    InRoomKeys(rooms, a);
    ExitInAllEdges(rooms, a, b);
  }

  /** Neighbourhood in the built world is symmetric. */
  lemma NeighborsSymmetric(world: World, rooms: seq<RoomDoc>, k: string, n: string)
    requires BuiltFrom(world, rooms)
    requires k in world.locations && n in world.locations[k].neighbors
    ensures n in world.locations && k in world.locations[n].neighbors
  {
    AllEdgesSymmetric(rooms, k, n);
  }

  /** Each room's item list, by id. */
  ghost function ItemLists(world: World): (m: map<string, seq<Item>>)
    reads world, world.locations.Values
    ensures m.Keys == world.locations.Keys
    ensures forall k :: k in m ==> m[k] == world.locations[k].items
  {
    map k | k in world.locations :: world.locations[k].items
  }

  /** Each room's neighbour set, by id. */
  ghost function NeighborSets(world: World): (m: map<string, set<string>>)
    reads world, world.locations.Values
    ensures m.Keys == world.locations.Keys
    ensures forall k :: k in m ==> m[k] == world.locations[k].neighbors
  {
    map k | k in world.locations :: world.locations[k].neighbors
  }

  /** The neighbour sets are the recorded ones. */
  ghost predicate NeighborsSame(world: World, neighbors: map<string, set<string>>)
    reads world, world.locations.Values
  {
    forall k :: k in world.locations ==> k in neighbors && world.locations[k].neighbors == neighbors[k]
  }

  /** Every room's item list is its recorded list followed by the items the
      first definitions place there. */
  ghost predicate ItemsPlaced(world: World, items: map<string, seq<Item>>, docs: seq<ItemDoc>)
    reads world, world.locations.Values
  {
    forall k :: k in world.locations ==> k in items && world.locations[k].items == items[k] + ItemsAt(docs, k)
  }

  /** One item definition, appended to the list of its room. */
  method PlaceOne(world: World, docs: seq<ItemDoc>, i: int,
                  ghost items: map<string, seq<Item>>, ghost neighbors: map<string, set<string>>)
    returns (res: Result<()>)
    requires world.Valid() && 0 <= i < |docs|
    requires ItemsPlaced(world, items, docs[..i]) && NeighborsSame(world, neighbors)
    modifies world.locations.Values
    ensures unchanged(world)
    ensures res.Ok? <==> ItemOk(docs[i], world.locations.Keys)
    ensures res.Ok? ==> ItemsPlaced(world, items, docs[..i + 1])
    ensures NeighborsSame(world, neighbors)
  {
    var d := docs[i];
    var itemId := ToLower(Strip(d.id.GetOr("")));
    if itemId == [] {
      return Err("items.yaml: item missing non-empty 'id'");
    }
    var locId := ToLower(Strip(d.location.GetOr("")));
    if locId == [] {
      return Err("items.yaml: item missing 'location'");
    }
    if locId !in world.locations {
      return Err("items.yaml: item location not found in rooms.yaml");
    }
    var item := Item(itemId, d.name.GetOr(itemId), d.description.GetOr(""), d.tags.GetOr([]));
    assert item == MakeItem(d);
    world.locations[locId].PlaceItem(item);
    forall k | k in world.locations
      ensures world.locations[k].items == items[k] + ItemsAt(docs[..i + 1], k)
    {
      ItemStep(docs, i, k);
    }
    return Ok(());
  }

  lemma AllItemsOkStep(docs: seq<ItemDoc>, i: int, keys: set<string>)
    requires 0 <= i < |docs| && AllItemsOk(docs[..i], keys) && ItemOk(docs[i], keys)
    ensures AllItemsOk(docs[..i + 1], keys)
  {
    assert forall j :: 0 <= j < i ==> docs[..i + 1][j] == docs[..i][j];
  }

  /** _place_items: fails on the first definition without an id, without a
      location, or naming a room that does not exist; otherwise every room
      receives, after its own items, the items placed there in document order. */
  method PlaceItems(world: World, docs: seq<ItemDoc>) returns (res: Result<()>)
    requires world.Valid()
    modifies world.locations.Values
    ensures unchanged(world)
    ensures res.Ok? <==> AllItemsOk(docs, world.locations.Keys)
    ensures res.Ok? ==> forall k :: k in world.locations ==>
      world.locations[k].items == old(world.locations[k].items) + ItemsAt(docs, k)
    ensures forall k :: k in world.locations ==> world.locations[k].neighbors == old(world.locations[k].neighbors)
  {
    ghost var locations := world.locations;
    ghost var items := ItemLists(world);
    ghost var neighbors := NeighborSets(world);
    var i := 0;
    while i < |docs|
      invariant 0 <= i <= |docs|
      invariant world.locations == locations
      invariant ItemsPlaced(world, items, docs[..i]) && NeighborsSame(world, neighbors)
      invariant AllItemsOk(docs[..i], locations.Keys)
    {
      var r := PlaceOne(world, docs, i, items, neighbors);
      if r.Err? {
        assert !ItemOk(docs[i], locations.Keys);
        return Err(r.error);
      }
      AllItemsOkStep(docs, i, locations.Keys);
      i := i + 1;
    }
    assert docs[..i] == docs;
    return Ok(());
  }

  /** The world a successful load leaves behind: the dictionary of the
      first pass, and rooms whose neighbour sets are exactly the edges the
      exits describe and which hold the items placed there in document
      order. */
  ghost predicate LoadedFrom(world: World, rooms: seq<RoomDoc>, docs: seq<ItemDoc>)
    reads world, world.locations.Values
  {
    && CreatedMap(world.locations, world.order, rooms)
    && world.locations.Keys == RoomKeys(rooms)
    && Furnished(world.View(), rooms, docs)
  }

  /** The rooms' neighbours are the edges of the exits, every neighbour is a
      room, and each room holds the items the definitions place there. */
  ghost predicate Furnished(v: map<string, Room>, rooms: seq<RoomDoc>, docs: seq<ItemDoc>)
  {
    && (forall k, x :: k in v ==> (x in v[k].neighbors <==> (k, x) in AllEdges(rooms)))
    && (forall k, x :: k in v && x in v[k].neighbors ==> x in v)
    && (forall k :: k in v ==> v[k].items == ItemsAt(docs, k))
  }

  /** The documents load: every room has an id, no exit dangles and every
      item definition is accepted. */
  ghost predicate Loads(rooms: seq<RoomDoc>, docs: seq<ItemDoc>)
  {
    AllRoomsHaveIds(rooms) && ExitsResolve(rooms, RoomKeys(rooms)) && AllItemsOk(docs, RoomKeys(rooms))
  }

  /** The first key of the built world's dictionary, or "" for no rooms. */
  function FirstRoomKey(rooms: seq<RoomDoc>): string
  {
    if rooms == [] then "" else RoomKey(rooms[0])
  }

  /** A player's start: the configured room, else the first room. The
      configured id is used as written, not lowercased. */
  function StartRoom(c: ScenarioConfig, first: string, pid: string): string
  {
    if pid in c.starts then c.starts[pid] else first
  }

  /** The position in the player order of the first player whose start is
      not a room, or the number of players when every start is a room. */
  function FirstMissingStart(c: ScenarioConfig, first: string, keys: set<string>, order: seq<string>): (i: nat)
    ensures i <= |order|
    ensures forall j :: 0 <= j < i ==> StartRoom(c, first, order[j]) in keys
    ensures i < |order| ==> StartRoom(c, first, order[i]) !in keys
  {
    if order == [] then 0
    else if StartRoom(c, first, order[0]) !in keys then 0
    else 1 + FirstMissingStart(c, first, keys, order[1..])
  }

  const MeetText: string := "Find each other before the darkness finds you."

  /** The message announcing the mode. */
  function ModeMessage(mode: string): string
  {
    if mode == DefaultMode then MeetText else "Scenario mode: " + mode
  }

  /** The messages of a successful setup: the intro when it is not empty,
      then the mode message. */
  function OpeningMessages(c: ScenarioConfig): (r: seq<string>)
    ensures |r| == (if c.intro == "" then 1 else 2)
    ensures r[|r| - 1] == ModeMessage(c.mode)
    ensures c.intro != "" ==> r[0] == c.intro
  {
    (if c.intro == "" then [] else [c.intro]) + [ModeMessage(c.mode)]
  }

  /** The first key of a world's dictionary, or "" when it has none
      (`next(iter(world.locations.keys()), "")`). */
  function FirstKeyOf(world: World): string
    reads world
  {
    if world.order == [] then "" else world.order[0]
  }

  /** Where every player is, by player id. */
  function Whereabouts(players: map<string, Player>): map<string, string>
  {
    map k | k in players :: players[k].locationId
  }

  /** The outcome of the start loop, given where the players were before
      it: in dictionary order, the players before the first one whose start
      is not a room moved to their start, and the others stayed. */
  ghost predicate StartsPlaced(players: map<string, Player>, order: seq<string>, c: ScenarioConfig,
                               first: string, keys: set<string>, before: map<string, string>)
  {
    var m := FirstMissingStart(c, first, keys, order);
    forall j :: 0 <= j < |order| ==>
      && order[j] in players && order[j] in before
      && players[order[j]].locationId == if j < m then StartRoom(c, first, order[j]) else before[order[j]]
  }

  /** Everything about the players except where they are: the same keys,
      and the same record apart from the location. */
  ghost predicate OnlyMoved(players: map<string, Player>, before: map<string, Player>)
  {
    && players.Keys == before.Keys
    && forall k :: k in players ==> players[k] == before[k].(locationId := players[k].locationId)
  }

  /** The start-placement loop of initial_setup: players in dictionary
      order go to their start rooms; a start that is not a room stops the
      loop with an error, leaving the players before it moved. */
  method PlaceStarts(state: GameState, c: ScenarioConfig) returns (res: Result<()>)
    requires state.Valid()
    modifies state`players
    ensures state.Valid()
    ensures res.Ok? <==>
      FirstMissingStart(c, FirstKeyOf(state.world), state.world.locations.Keys, state.playerOrder) == |state.playerOrder|
    ensures StartsPlaced(state.players, state.playerOrder, c, FirstKeyOf(state.world), state.world.locations.Keys,
                         Whereabouts(old(state.players)))
    ensures OnlyMoved(state.players, old(state.players))
  {
    var first := FirstKeyOf(state.world);
    var ok;
    state.players, ok := MoveToStarts(state.players, state.playerOrder, state.world.locations.Keys, c, first);
    res := if ok then Ok(()) else Err("Start room does not exist in rooms.yaml");
  }

  /** The loop of PlaceStarts over the player map: in order, each player
      whose start is a room moves there, and the first whose start is not
      a room stops the loop. */
  method MoveToStarts(players: map<string, Player>, order: seq<string>, keys: set<string>,
                      c: ScenarioConfig, first: string) returns (moved: map<string, Player>, ok: bool)
    requires forall j :: 0 <= j < |order| ==> order[j] in players
    requires forall i, j :: 0 <= i < j < |order| ==> order[i] != order[j]
    ensures ok <==> FirstMissingStart(c, first, keys, order) == |order|
    ensures StartsPlaced(moved, order, c, first, keys, Whereabouts(players))
    ensures OnlyMoved(moved, players)
  {
    ghost var m := FirstMissingStart(c, first, keys, order);
    ghost var before := Whereabouts(players);
    moved, ok := players, true;
    var i := 0;
    while ok && i < |order|
      invariant 0 <= i <= |order| && i <= m
      invariant !ok ==> i == m < |order|
      invariant OnlyMoved(moved, players)
      invariant forall j :: 0 <= j < i ==> moved[order[j]].locationId == StartRoom(c, first, order[j])
      invariant forall j :: i <= j < |order| ==> moved[order[j]].locationId == before[order[j]]
    {
      var pid := order[i];
      var start := if pid in c.starts then c.starts[pid] else first;
      if start in keys {
        moved := moved[pid := moved[pid].(locationId := start)];
        i := i + 1;
      } else {
        ok := false;
      }
    }
  }

  /** _build_world followed by _place_items: fails exactly when the
      documents do not load. */
  method LoadWorld(rooms: seq<RoomDoc>, docs: seq<ItemDoc>) returns (res: Result<World>)
    ensures res.Ok? <==> Loads(rooms, docs)
    ensures res.Ok? ==> fresh(res.value) && fresh(res.value.locations.Values) && LoadedFrom(res.value, rooms, docs)
  {
    var built := BuildWorld(rooms);
    if built.Err? {
      return Err(built.error);
    }
    var world := built.value;
    ghost var before := NeighborSets(world);
    var placed := PlaceItems(world, docs);
    if placed.Err? {
      return Err(placed.error);
    }
    forall k, x | k in world.locations
      ensures x in world.locations[k].neighbors <==> (k, x) in AllEdges(rooms)
    {
      assert world.locations[k].neighbors == before[k];
    }
    forall k, n | k in world.locations && n in world.locations[k].neighbors
      ensures n in world.locations
    {
      assert n in before[k];
    }
    assert Furnished(world.View(), rooms, docs);
    return Ok(world);
  }

  /** The part of initial_setup after the world is installed: the players
      go to their starts, and only when every start exists are the opening
      messages added. */
  method Begin(state: GameState, c: ScenarioConfig) returns (res: Result<()>)
    requires state.Valid()
    modifies state`messages, state`players
    ensures state.Valid()
    ensures res.Ok? <==>
      FirstMissingStart(c, FirstKeyOf(state.world), state.world.locations.Keys, state.playerOrder) == |state.playerOrder|
    ensures StartsPlaced(state.players, state.playerOrder, c, FirstKeyOf(state.world), state.world.locations.Keys,
                         Whereabouts(old(state.players)))
    ensures state.messages == old(state.messages) + (if res.Ok? then OpeningMessages(c) else [])
    ensures OnlyMoved(state.players, old(state.players))
  {
    res := PlaceStarts(state, c);
    if res.Ok? {
      Announce(state, c);
    }
  }

  /** The opening messages: the intro when it is not empty, then the mode. */
  method Announce(state: GameState, c: ScenarioConfig)
    modifies state`messages
    ensures state.messages == old(state.messages) + OpeningMessages(c)
  {
    if c.intro != "" {
      state.AddMessage(c.intro);
    }
    state.AddMessage(ModeMessage(c.mode));
  }

  /** Installs a world whose keys and first key are given in the state and
      begins the session on it. */
  method Enter(state: GameState, world: World, c: ScenarioConfig, first: string, keys: set<string>)
    returns (res: Result<()>)
    requires state.Valid() && world.Valid()
    requires FirstKeyOf(world) == first && world.locations.Keys == keys
    modifies state`world, state`messages, state`players
    ensures state.Valid() && state.world == world
    ensures res.Ok? <==> FirstMissingStart(c, first, keys, state.playerOrder) == |state.playerOrder|
    ensures StartsPlaced(state.players, state.playerOrder, c, first, keys, Whereabouts(old(state.players)))
    ensures state.messages == old(state.messages) + (if res.Ok? then OpeningMessages(c) else [])
    ensures OnlyMoved(state.players, old(state.players))
  {
    state.world := world;
    res := Begin(state, c);
  }

  /** The data-driven scenario of one directory. Its configuration is loaded
      by initial_setup. */
  class YamlScenario {
    const dirName: string
    var config: Option<ScenarioConfig>

    constructor (dirName: string)
      ensures this.dirName == dirName && config == None
    {
      this.dirName := dirName;
      config := None;
    }

    /** The directory name until a configuration is loaded, then its name. */
    function Name(): (n: string)
      reads this
      ensures config.None? ==> n == dirName
      ensures config.Some? ==> n == config.value.name
    {
      if config.None? then dirName else config.value.name
    }

    /** initial_setup over the parsed rooms and items documents. The world
        and the configuration are replaced only once the rooms are built and
        the items placed; then the players are put on their starts, and only
        when all starts exist are the opening messages added. */
    method InitialSetup(state: GameState, roomsDoc: RoomsDoc, itemsDoc: ItemsDoc) returns (res: Result<()>)
      requires state.Valid()
      modifies this`config, state`world, state`messages, state`players
      ensures state.Valid()
      ensures !Loads(roomsDoc.rooms, itemsDoc.items) ==>
        && res.Err? && config == old(config) && state.world == old(state.world)
        && state.messages == old(state.messages) && state.players == old(state.players)
      ensures Loads(roomsDoc.rooms, itemsDoc.items) ==>
        var c := ParseConfig(roomsDoc, dirName);
        var first := FirstRoomKey(roomsDoc.rooms);
        var keys := RoomKeys(roomsDoc.rooms);
        && config == Some(c)
        && fresh(state.world) && state.world.locations.Keys == keys && FirstKeyOf(state.world) == first
        && (res.Ok? <==> FirstMissingStart(c, first, keys, state.playerOrder) == |state.playerOrder|)
        && StartsPlaced(state.players, state.playerOrder, c, first, keys, Whereabouts(old(state.players)))
        && state.messages == old(state.messages) + (if res.Ok? then OpeningMessages(c) else [])
      ensures OnlyMoved(state.players, old(state.players))
    {
      var c := ParseConfig(roomsDoc, dirName);
      var loaded := LoadWorld(roomsDoc.rooms, itemsDoc.items);
      if loaded.Err? {
        return Err(loaded.error);
      }
      var world := loaded.value;
      assert FirstKeyOf(world) == FirstRoomKey(roomsDoc.rooms);
      config := Some(c);
      res := Enter(state, world, c, FirstRoomKey(roomsDoc.rooms), RoomKeys(roomsDoc.rooms));
    }

    /** check_win_condition: nobody before a configuration is loaded; in
        "meet" mode the hard-coded scenario's rule; in "reach:X" mode the
        first player, in dictionary order, standing in X; in any other mode
        nobody. */
    function CheckWinCondition(players: map<string, Player>, order: seq<string>): (r: Option<string>)
      reads this
      requires forall j :: 0 <= j < |order| ==> order[j] in players
      ensures config.None? ==> r == None
      ensures config.Some? && config.value.mode == DefaultMode ==> r == ScenarioModes.CheckWinCondition(players, order)
      ensures config.Some? && StartsWith(config.value.mode, ReachPrefix) ==>
        var target := ReachTarget(config.value.mode);
        r == FirstAt(players, order, target)
      ensures config.Some? && config.value.mode != DefaultMode && !StartsWith(config.value.mode, ReachPrefix) ==> r == None
    {
      if config.None? then None
      else if config.value.mode == DefaultMode then ScenarioModes.CheckWinCondition(players, order)
      else if StartsWith(config.value.mode, ReachPrefix) then
        FirstAt(players, order, ReachTarget(config.value.mode))
      else None
    }
  }

  const ReachPrefix: string := "reach:"

  /** The room named by a "reach:X" mode, not lowercased: the mode is the
      prefix, a whitespace run, the target and a whitespace run, and the
      target neither starts nor ends with whitespace. */
  function ReachTarget(mode: string): (t: string)
    requires StartsWith(mode, ReachPrefix)
    ensures var rest := mode[|ReachPrefix|..]; var k := |rest| - |LStrip(rest)|;
      && k + |t| <= |rest| && mode == ReachPrefix + rest[..k] + t + rest[k + |t|..]
      && AllSpace(rest[..k]) && AllSpace(rest[k + |t|..])
      && (t != [] ==> !IsSpace(t[0]) && !IsSpace(t[|t| - 1]))
  {
    var rest := mode[|ReachPrefix|..];
    StripSlice(rest);
    assert mode == mode[..|ReachPrefix|] + rest;
    Strip(rest)
  }

  /** `s.split(c, 1)[1]`: the text after the first occurrence of c, or
      "" when c does not occur (where Python would raise IndexError). */
  function AfterFirst(s: string, c: char): string
  {
    if s == [] then [] else if s[0] == c then s[1..] else AfterFirst(s[1..], c)
  }

  /** When position k holds the first c, the text after the first c is
      what follows position k. */
  lemma {:induction false} AfterFirstAt(s: string, c: char, k: nat)
    requires k < |s| && s[k] == c
    requires forall i :: 0 <= i < k ==> s[i] != c
    ensures AfterFirst(s, c) == s[k + 1..]
  {
    if k > 0 {
      AfterFirstAt(s[1..], c, k - 1);
      assert s[1..][k..] == s[k + 1..];
    }
  }

  /** The reach target is `mode.split(":", 1)[1].strip()`: the prefix has
      no colon before its last character, so the first colon ends it. */
  lemma ReachTargetIsSplit(mode: string)
    requires StartsWith(mode, ReachPrefix)
    ensures ReachTarget(mode) == Strip(AfterFirst(mode, ':'))
  {
    var n := |ReachPrefix|;
    assert forall i :: 0 <= i < n ==> mode[i] == ReachPrefix[i] by {
      forall i | 0 <= i < n ensures mode[i] == ReachPrefix[i] {
        assert mode[..n][i] == mode[i];
      }
    }
    AfterFirstAt(mode, ':', n - 1);
  }

  /** The id of the first player, in dictionary order, located at target. */
  function FirstAt(players: map<string, Player>, order: seq<string>, target: string): (r: Option<string>)
    ensures r.Some? <==> exists j :: 0 <= j < |order| && order[j] in players && players[order[j]].locationId == target
    ensures r.Some? ==> exists j :: (0 <= j < |order| && order[j] in players && players[order[j]].locationId == target
      && r.value == players[order[j]].id
      && forall i :: 0 <= i < j && order[i] in players ==> players[order[i]].locationId != target)
  {
    if order == [] then None
    else if order[0] in players && players[order[0]].locationId == target then Some(players[order[0]].id)
    else
      var r := FirstAt(players, order[1..], target);
      if r.Some? then
        var j :| 0 <= j < |order[1..]| && order[1..][j] in players && players[order[1..][j]].locationId == target
          && r.value == players[order[1..][j]].id
          && forall i :: 0 <= i < j && order[1..][i] in players ==> players[order[1..][i]].locationId != target;
        assert order[j + 1] == order[1..][j];
        r
      else r
  }
}
