/** The Item and Player records (game/entities.py). */
module Entities {

  /** An item never changes once created; it only moves between a room's
      item list and a player's inventory. */
  datatype Item = Item(id: string, name: string, description: string, tags: seq<string>)

  /** Item(id, name, description) with the default empty tag list. */
  function NewItem(id: string, name: string, description: string): (it: Item)
    ensures it.id == id && it.name == name && it.description == description
    ensures it.tags == []
  {
    Item(id, name, description, [])
  }

  const DefaultHealth: int := 10
  const DefaultSanity: int := 10

  /** A player. The engine changes a player's location, health, sanity and
      inventory by replacing the player's entry in the session's player map. */
  datatype Player = Player(id: string, name: string, locationId: string,
                           health: int, sanity: int, inventory: seq<Item>)

  /** Player(id, name, location_id) with the defaults health 10, sanity 10
      and an empty inventory. */
  function NewPlayer(id: string, name: string, locationId: string): (p: Player)
    ensures p.id == id && p.name == name && p.locationId == locationId
    ensures p.health == DefaultHealth && p.sanity == DefaultSanity
    ensures p.inventory == []
  {
    Player(id, name, locationId, DefaultHealth, DefaultSanity, [])
  }
}
