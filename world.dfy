/** Locations and the location graph (game/world.py). */
module WorldGraph {
  import opened Wrappers
  import opened Entities

  /** What a room holds at one moment: its texts, its neighbour ids and its items. */
  datatype Room = Room(id: string, name: string, description: string, detailDescription: string,
                       neighbors: set<string>, items: seq<Item>)

  /** A room: fixed identity and texts, a neighbour set that grows while the
      graph is built and an item list emptied by searching. */
  class Location {
    const id: string
    const name: string
    const description: string
    const detailDescription: string
    var neighbors: set<string>
    var items: seq<Item>

    /** Location(id, name, description, detail_description) with no
        neighbours and no items. */
    constructor (id: string, name: string, description: string, detailDescription: string)
      ensures this.id == id && this.name == name
      ensures this.description == description && this.detailDescription == detailDescription
      ensures neighbors == {} && items == []
    {
      this.id := id;
      this.name := name;
      this.description := description;
      this.detailDescription := detailDescription;
      neighbors := {};
      items := [];
    }

    /** The room's current contents as a value. */
    function View(): (r: Room)
      reads this
      ensures r.id == id && r.neighbors == neighbors && r.items == items
    {
      Room(id, name, description, detailDescription, neighbors, items)
    }

    /** A set insert: adding a neighbour that is already there changes nothing. */
    method AddNeighbor(neighborId: string)
      modifies this`neighbors
      ensures neighbors == old(neighbors) + {neighborId}
      ensures old(neighborId in neighbors) ==> neighbors == old(neighbors)
    {
      neighbors := neighbors + {neighborId};
    }

    /** Appends at the end; earlier items keep their order. */
    method PlaceItem(item: Item)
      modifies this`items
      ensures items == old(items) + [item]
      ensures |items| == old(|items|) + 1 && items[..old(|items|)] == old(items)
    {
      items := items + [item];
    }
  }

  /** The graph: a dictionary from id to location. `order` is the order in
      which keys were first inserted, which is the iteration order of a
      Python dict (overwriting a key keeps its position). */
  class World {
    var locations: map<string, Location>
    var order: seq<string>

    /** Every location is stored under its own id, so distinct keys hold
        distinct objects. */
    ghost predicate Valid()
      reads this
    {
      forall k :: k in locations ==> locations[k].id == k
    }

    /** `order` lists exactly the keys, each once. */
    ghost predicate Ordered()
      reads this
    {
      && (forall k :: k in locations <==> k in order)
      && (forall i, j :: 0 <= i < j < |order| ==> order[i] != order[j])
    }

    /** Every neighbour id names a location of the graph. */
    ghost predicate Closed()
      reads this, locations.Values
    {
      forall k, n :: k in locations && n in locations[k].neighbors ==> n in locations
    }

    /** The rooms of the graph as values, by id. */
    ghost function View(): (v: map<string, Room>)
      reads this, locations.Values
      ensures v.Keys == locations.Keys
      ensures forall k :: k in v ==> v[k] == locations[k].View()
    {
      map k | k in locations :: locations[k].View()
    }

    constructor ()
      ensures Valid() && Ordered() && locations == map[] && order == []
    {
      locations := map[];
      order := [];
    }

    /** Stores the location under its id, replacing any location already
        stored under that id. */
    method AddLocation(loc: Location)
      requires Valid()
      modifies this
      ensures Valid() && (old(Ordered()) ==> Ordered())
      ensures locations == old(locations)[loc.id := loc]
      ensures order == if loc.id in old(locations) then old(order) else old(order) + [loc.id]
    {
      if loc.id !in locations {
        order := order + [loc.id];
      }
      locations := locations[loc.id := loc];
    }

    /** Adds b to a's neighbours and, when bidirectional, a to b's; both ids
        must be present (the source raises KeyError otherwise). */
    method Connect(a: string, b: string, bidirectional: bool)
      requires Valid() && a in locations && b in locations
      modifies locations[a], locations[b]
      ensures locations[a].items == old(locations[a].items) && locations[b].items == old(locations[b].items)
      ensures locations[a].neighbors == old(locations[a].neighbors) + {b}
      ensures bidirectional ==> locations[b].neighbors == old(locations[b].neighbors) + {a}
      ensures !bidirectional && a != b ==> locations[b].neighbors == old(locations[b].neighbors)
      ensures forall k :: k in locations && k != a && k != b ==>
        locations[k].neighbors == old(locations[k].neighbors)
    {
      var la := locations[a];
      var lb := locations[b];
      la.AddNeighbor(lb.id);
      if bidirectional {
        lb.AddNeighbor(la.id);
      }
    }

    /** A lookup that gives None for an absent id instead of failing. */
    function GetLocation(id: string): (r: Option<Location>)
      reads this
      requires Valid()
      ensures r.Some? <==> id in locations
      ensures r.Some? ==> r.value == locations[id] && r.value.id == id
    {
      if id in locations then Some(locations[id]) else None
    }
  }
}
