# Two-player text adventure: the turn and command engine in Dafny

This project models the core of a small two-player horror text adventure
(Python). Two players take turns typing commands. Each player stands in a room
of a graph of locations. They can look around, move to a neighbouring room,
search the room and take its items, use an item, and ask for their status.
After every turn-consuming command the acting player may be hit by an ambient
hazard. After that hazard, a player without health ends the game with no
winner. Otherwise the scenario's win rule may end it.

There are two scenarios:

- The hard-coded "Find Each Other" manor has four rooms and three items. It is
  won when the first two players meet.
- The data-driven scenario builds its graph from a rooms document and an items
  document. It normalises ids, connects each undirected edge once and rejects
  dangling references. Its win rule depends on its mode:
  - `meet` is won when the first two players meet;
  - `reach:<room>` is won by the first player standing in that room;
  - any other mode is never won.

The modules follow the source files:

| module | file | form |
|---|---|---|
| `Entities` | game/entities.py | datatypes `Item` and `Player`, with constructor functions giving the defaults |
| `WorldGraph` | game/world.py | classes `Location` and `World`, updated in place |
| `State` | game/game_state.py | class `GameState` (turn bookkeeping, player map, message queue), plus the turn step as a function |
| `Engine` | game/engine.py | class `GameEngine`, whose command handlers are methods over the state; pure helpers for splitting commands, item effects and the hazard |
| `ScenarioModes` | game/scenario_modes.py | the manor built by methods, and the `meet` win rule as a function |
| `YamlDocs`, `Yaml` | game/yaml_scenario.py | the parsed documents as datatypes; the spec functions over them (keys, edge set, item placement); the building loops as methods over a `World`; the scenario object as class `YamlScenario` |
| `Text`, `Wrappers` | — | the Python `str` methods the game uses (strip, lower, split, substring), restricted to ASCII; `Option` and `Result` |

How the source's state is represented:

- The random draw `random.random()` is the parameter `roll`, a real in [0, 1).
- An exception is an `Err` result carrying its message.
- Python dict iteration order is an explicit key sequence: `World.order`, and
  `GameState.playerOrder` for the players.
- Players are values in the state's player map. A handler that changes a
  player replaces that player's entry.

## Model

| member | source | states |
|---|---|---|
| Entities.NewItem | game/entities.py:7-12 | a new item keeps its id, name and description and has an empty tag list |
| Entities.NewPlayer | game/entities.py:15-22 | a new player has health 10, sanity 10 and an empty inventory, at the given location |
| WorldGraph.Location.constructor | game/world.py:8-15 | a new location has the given texts, no neighbours and no items |
| WorldGraph.Location.AddNeighbor | game/world.py:17-18 | set insert: the neighbours gain exactly the id, and adding an id already present changes nothing |
| WorldGraph.Location.PlaceItem | game/world.py:20-21 | the item is appended at the end and the earlier items keep their order |
| WorldGraph.World.constructor | game/world.py:25-26 | a new world has no locations |
| WorldGraph.World.AddLocation | game/world.py:28-29 | the location is stored under its own id, overwriting an earlier entry; the key order gains the id only when it is new; every location stays under its own id |
| WorldGraph.World.Connect | game/world.py:31-36 | both ids must be present; b joins a's neighbours; when bidirectional, a joins b's; when not, b's neighbours are unchanged (a ≠ b); no other location's neighbours change and no item list changes |
| WorldGraph.World.GetLocation | game/world.py:38-39 | Some exactly when the id is a key, and then it is the location stored there, whose id is that key; None otherwise |
| State.GameState.constructor | game/game_state.py:10-19 | the defaults: turn index 0, turn number 1, active, no winner, no messages |
| State.GameState.CurrentPlayer | game/game_state.py:21-22 | the player under the turn order's current entry |
| State.GameState.NextPlayer | game/game_state.py:24-28 | the index becomes (index + 1) mod the order's length and stays in range; the turn number grows by one exactly when the index wraps to 0; the result is the new current player |
| State.Advance | game/game_state.py:25-27 | one turn step: the index stays in [0, n), it is 0 exactly when index + 1 is a multiple of n, and only then does the turn number grow |
| State.TwoPlayerRound | game/game_state.py:25-27 | with two players, two steps return to the same index with the turn number one higher |
| State.FullRound | game/game_state.py:25-27 | from index 0, k < n steps reach index k with the same turn; n steps return to index 0 with the turn number one higher |
| State.GameState.AddMessage | game/game_state.py:30-31 | the message is appended after the earlier messages, which are kept; the state's invariant is kept |
| Engine.SplitCommand | game/engine.py:58-62 | the verb is not empty and the argument has no surrounding whitespace |
| Engine.SplitCommandParts | game/engine.py:58-62 | a stripped command is its first word, a whitespace gap and the argument, in that order and nothing else: the verb is the lowered first word and the argument is the rest as written; the gap is not empty before an argument |
| Engine.VerbHasNoSpace | game/engine.py:59-61 | the verb contains no whitespace |
| Engine.GapIsSpace | game/engine.py:59 | what separates the verb from the argument is all whitespace |
| Engine.GameEngine.ProcessCommand | game/engine.py:19-56 | when inactive, it returns false and changes nothing; otherwise it returns true exactly for look/l, move/go/m, search/s, use/u and status/stats, failed or not; a blank command, help/? and unknown verbs add the one matching reply and change no player, room or searched set |
| Engine.GameEngine.RoomOf | game/engine.py:64-67 | the player's room is found exactly when the player's location id is a key of the world, and it is the location stored there |
| Engine.GameEngine.DescribeSurroundings | game/engine.py:69-92 | exactly one message: "nowhere" without a room; otherwise the name line and the room's detail text when the player has searched the room and the detail is not blank, else its description |
| Engine.UnsearchedIgnoresDetail | game/engine.py:79-85 | before a search, rooms that differ only in their detail text give the same glance |
| Engine.SearchedShowsDetail | game/engine.py:81-90 | after a search, a non-blank detail text is the glance's second line |
| Engine.GameEngine.HandleLook | game/engine.py:94-134 | exactly one message is appended; "nowhere" without a room |
| Engine.GameEngine.HandleMove | game/engine.py:135-169 | without a room, with an empty target, or when no neighbour matches the target, the player does not move and exactly the matching message is added; a move always goes to a neighbour of the old room: the lowered target itself when it is a neighbour id, else a neighbour whose room's lowered name is the target; whenever some neighbour matches by id or by name (and no exit is the empty id), the player does move to a matching neighbour; no other player and no other field of the player changes; earlier messages are kept |
| Engine.GameEngine.ChooseDestination | game/engine.py:145-157 | the lowered target wins when it is a neighbour id; otherwise a name match; None exactly when no neighbour qualifies |
| Engine.GameEngine.FindByName | game/engine.py:152-157 | the set loop finds a neighbour whose room's lowered name is the target, or shows that none exists |
| Engine.GameEngine.Arrive | game/engine.py:163-169 | in an unknown room exactly the void message is added; otherwise "You move into <name>." and then the room's glance text are added |
| Engine.GameEngine.HandleSearch | game/engine.py:170-189 | without a room, nothing but one message; otherwise the room id joins the player's searched set, the inventory becomes the old inventory followed by the room's old items, the room's item list becomes empty (so an immediate second search moves nothing) and its neighbours stay; the one or two messages are given |
| Engine.FindItem | game/engine.py:205-209 | the index of the first inventory item whose lowered id equals the key or whose lowered name contains it; None exactly when no item matches |
| Engine.FirstMatchUnique | game/engine.py:205-209 | no item before the first match equals it, so list.remove removes that very entry |
| Engine.RemoveFirstAt | game/engine.py:222 | list.remove of an element that has no equal before position i drops exactly position i |
| Engine.UseItem | game/engine.py:215-234 | tag priority: clarity sets sanity to 10 and removes the item; else potion adds 3 health (unbounded), sets sanity to min(10, s + 2) and removes the item; else light sets sanity to min(10, s + 1) and keeps the item; else nothing changes; id, name and location never change |
| Engine.ClarityFirst | game/engine.py:218-228 | an item tagged both potion and clarity acts as clarity: health unchanged, sanity 10 |
| Engine.LightKept | game/engine.py:229-232 | a light is not used up |
| Engine.GameEngine.HandleUse | game/engine.py:191-234 | with an empty inventory, an empty target or no match, the players are unchanged and the matching message is added; otherwise the first matching item is used as UseItem says, and its two messages (one for no effect) are appended |
| Engine.GameEngine.HandleStatus | game/engine.py:236-244 | one message with the player's name, health, sanity and location |
| Engine.GameEngine.HandleHelp | game/engine.py:246-257 | the help text, as one message |
| Engine.Hazard | game/engine.py:269-276 | at most one stat changes, by exactly −1: sanity exactly when 0.2 ≤ roll < 0.35, health exactly when 0.35 ≤ roll < 0.45, each threshold being the binary64 value of its literal; no clamping |
| Engine.HazardAtWhisperBound | game/engine.py:271-276 | the double nearest 0.35 lies below 0.35, and a roll equal to it costs health, not sanity |
| Engine.GameEngine.ResolveAmbientDanger | game/engine.py:259-276 | only the acting player's entry changes, and it becomes Hazard of the old one; the roll's message, if any, is appended |
| Engine.FindFallen | game/engine.py:289-290 | the loop over the players finds one with health ≤ 0 exactly when such a player exists |
| Engine.GameEngine.Winner | game/engine.py:298 | the scenario's win check; for the manor, someone wins exactly when the first two players share a room |
| Engine.GameEngine.HandleWin | game/engine.py:302-309 | the game ends with that winner and one win message |
| Engine.GameEngine.EndOfTurn | game/engine.py:278-300 | when inactive, nothing changes; otherwise the acting player takes the hazard; then if anyone has health ≤ 0, the game ends with no winner and the darkness message, without a win check; otherwise the game ends exactly when the win check names a winner, who is recorded |
| Engine.GameEngine.Create | game/engine.py:13-17 | keeps the state and the scenario and runs the scenario's setup; the manor setup always succeeds, builds the manor, puts P1 in the foyer and P2 in the library and appends the two opening lines; the data-driven setup succeeds exactly when the documents load and every player's start room exists; when the documents do not load, world, players, messages and configuration are unchanged; when they load, the configuration is set, the world has the room keys, the players are moved to their starts in order up to the first missing one and no other player field changes, and the opening messages are appended only on success |
| ScenarioModes.CheckWinCondition | game/scenario_modes.py:86-95 | BOTH exactly when there are at least two players and the first two in the dictionary's order share a location; None otherwise |
| ScenarioModes.ManorRooms | game/scenario_modes.py:15-45 | exactly the keys foyer, hall, library and cellar, with their names, and no neighbours or items yet |
| ScenarioModes.ConnectManor | game/scenario_modes.py:47-49 | the neighbour sets of the three bidirectional edges foyer–hall, hall–library and hall–cellar |
| ScenarioModes.BuildManor | game/scenario_modes.py:15-73 | the manor: four rooms, the three edges both ways, the lantern [light] in the foyer, the potion [potion] in the library, the clarity draught [potion, clarity] in the cellar, the hall empty |
| ScenarioModes.InitialSetup | game/scenario_modes.py:14-84 | the state gets a fresh manor; P1 moves to the foyer and P2 to the library and nothing else about them changes; the two opening messages are appended; with exactly those two players there is no winner at setup |
| ScenarioModes.PlaceAndGreet | game/scenario_modes.py:77-84 | the player placement and the two messages of the setup; no winner afterwards when P1 and P2 are the only players |
| ScenarioModes.PairOrder | game/scenario_modes.py:86-91 | with exactly the players P1 and P2, the first two players of the dictionary are those two |
| YamlDocs.ParseConfig | game/yaml_scenario.py:129-148 | the defaults: the directory name, mode "meet", no starts, and an empty intro; a given intro loses exactly its trailing whitespace |
| YamlDocs.RoomKey | game/yaml_scenario.py:161-165 | a room's key is empty exactly when its stripped id is |
| YamlDocs.LastWithKeyIsLast | game/yaml_scenario.py:164-170 | a repeated id overwrites: no later room has the key of the surviving one |
| YamlDocs.RoomKeysExact | game/yaml_scenario.py:158-170 | the keys are exactly the keys some room has |
| YamlDocs.AllEdgesSymmetric | game/yaml_scenario.py:189-193 | the edge set the exits describe is symmetric |
| YamlDocs.ExitInAllEdges | game/yaml_scenario.py:181-193 | every exit with a destination yields its edge in both orientations |
| YamlDocs.EdgesWithinKeys | game/yaml_scenario.py:182-188 | when no exit dangles, both ends of every edge are room keys |
| YamlDocs.MakeItem | game/yaml_scenario.py:206-226 | the item's id is the normalised id; the name defaults to it and the tags to the empty list |
| YamlDocs.ItemsAtFromDocs | game/yaml_scenario.py:220-227 | every item in a room comes from a definition that names that room |
| YamlDocs.DocInItemsAt | game/yaml_scenario.py:220-227 | every definition's item is among the items of its room |
| Yaml.NewLocationFor | game/yaml_scenario.py:161-169 | the location for a room: the lowered key as id, the stripped id as the default name, empty texts as the default descriptions |
| Yaml.AddRoom | game/yaml_scenario.py:158-170 | one step of the first pass keeps the dictionary of the rooms so far |
| Yaml.CreateRooms | game/yaml_scenario.py:155-170 | fails exactly when some room has an empty id; otherwise the keys are the room keys, each location was made from the last room with its key, the first key is the first room's, and no room has exits or items |
| Yaml.ConnectExit | game/yaml_scenario.py:181-193 | one exit: an empty destination is skipped, a destination that is not a room fails, otherwise the edges of the exit, in both orientations, are added to the neighbour sets and to the returned edge set; items untouched |
| Yaml.ConnectRoom | game/yaml_scenario.py:174-193 | one room's exits: fails exactly when one of them dangles, otherwise adds their edges |
| Yaml.ConnectExits | game/yaml_scenario.py:172-193 | the second pass fails exactly when some exit dangles; otherwise every neighbour set is exactly the edges the exits describe, and no item list changes |
| Yaml.BuildWorld | game/yaml_scenario.py:150-195 | fails exactly when a room has no id or an exit dangles; otherwise the rooms are those of the first pass, the neighbours are the described edges, every neighbour is a room, and there are no items |
| Yaml.ExitBecomesNeighbors | game/yaml_scenario.py:181-193 | in a built world every accepted exit connects its room and the destination in both directions |
| Yaml.NeighborsSymmetric | game/yaml_scenario.py:189-193 | neighbourhood in a built world is symmetric |
| Yaml.PlaceOne | game/yaml_scenario.py:202-227 | one definition: fails on an empty id, an empty location or a location that is not a room; otherwise its item is appended to that room's list; neighbours untouched |
| Yaml.PlaceItems | game/yaml_scenario.py:197-227 | fails exactly when some definition is rejected; otherwise each room's list is its old list followed by the items placed there, in document order; neighbours untouched |
| Yaml.LoadWorld | game/yaml_scenario.py:66-68 | fails exactly when the documents do not load; otherwise a fresh world whose keys are the room keys, whose neighbours are the described edges and whose rooms hold exactly the items placed there |
| Yaml.FirstMissingStart | game/yaml_scenario.py:74-84 | the position of the first player whose start is not a room: every earlier player's start is a room |
| Yaml.MoveToStarts | game/yaml_scenario.py:74-84 | in dictionary order, each player moves to its configured start or the first room; the first start that is not a room stops the loop and reports failure; only locations change |
| Yaml.PlaceStarts | game/yaml_scenario.py:73-84 | the same on the state: succeeds exactly when every start is a room; players after a failure stay where they were |
| Yaml.OpeningMessages | game/yaml_scenario.py:85-91 | the intro when it is not empty, then "Find each other…" for meet or the mode line |
| Yaml.Announce | game/yaml_scenario.py:85-91 | the opening messages are appended |
| Yaml.Begin | game/yaml_scenario.py:73-91 | start placement, then the opening messages only when every start exists |
| Yaml.Enter | game/yaml_scenario.py:70-91 | the world is installed, then start placement and the opening messages |
| Yaml.YamlScenario.constructor | game/yaml_scenario.py:38-40 | no configuration is loaded |
| Yaml.YamlScenario.Name | game/yaml_scenario.py:42-47 | the directory name until a configuration is loaded, then the configured name |
| Yaml.YamlScenario.InitialSetup | game/yaml_scenario.py:49-91 | when the documents do not load, it fails and nothing changes; otherwise the configuration is stored, a fresh world with the room keys and first key is installed, the players are placed, and the messages are added only when every start exists |
| Yaml.YamlScenario.CheckWinCondition | game/yaml_scenario.py:93-118 | None before a configuration; the meet rule in mode "meet"; in mode "reach:X", the first player in dictionary order standing in X; None in any other mode |
| Yaml.ReachTarget | game/yaml_scenario.py:111-112 | the mode is the prefix, a whitespace run, the target and a whitespace run; the target is not lowercased and neither starts nor ends with whitespace |
| Yaml.ReachTargetIsSplit | game/yaml_scenario.py:112 | the target equals the text after the mode's first colon, stripped (`split(":", 1)[1].strip()`) |
| Yaml.FirstAt | game/yaml_scenario.py:113-116 | Some exactly when some player stands at the target, and then it is the id of the first such player in order |
| Text.StripSlice | game/engine.py:28 | strip removes only a whitespace prefix and a whitespace suffix and keeps the middle as written |
| Text.ContainsIff | game/engine.py:207 | the substring test holds exactly when the needle occurs at some position |

## Left out

- game/cli.py is not part of this model. It covers console input and output,
  screen clearing, argument parsing, text degradation and the quit command.
  The driver loop that calls `next_player` is also there.
- Reading the YAML files is not modelled. This covers the PyYAML import, the
  existence checks and `safe_load`. The rooms and items documents are
  already-parsed datatypes whose absent fields are `None`.
- The `isinstance` checks are not modelled: the typed documents cannot hold a
  value of the wrong shape. The `str()` coercions of scalars are not modelled
  either: the documents already hold strings.
- The error texts drop the ids the source interpolates into them.
- `random.random()` is not modelled: the draw is the `roll` parameter.
- Engine.Hazard: a roll may be any real in [0, 1), not only a double. The
  thresholds are the exact doubles the source compares with
  (Engine.NoiseBelow, Engine.WhisperBelow, Engine.WeightBelow), so every roll
  `random.random()` can return falls in the same band as in the source.
- The wording of the look message is not modelled, including the order in
  which the neighbour set is listed.
- Engine.GameEngine.HandleLook: only states that exactly one message is added.
  The listing order follows Python's set order.
- Engine.GameEngine.ProcessCommand: for a turn-consuming command it states the
  return value. Each handler's effect is stated on that handler's own contract.
- Engine.GameEngine.HandleMove: the by-name move is promised only when no
  exit is the empty id. A name match on a room whose id is "" is treated as
  "no path" by the source's `if not destination_id` (game/engine.py:159).
  Neither scenario can create such an exit: Yaml.CreateRooms rejects an empty
  room id, an empty exit destination is skipped, and the manor ids are fixed.
  So the guard excludes no reachable state. The messages of a successful move
  are stated by Engine.GameEngine.Arrive, not on HandleMove itself.
- game/engine.py:135 (`def _handle_move`) is indented by one space, which
  Python rejects as an IndentationError. The model follows the evident
  intent: a method of `GameEngine` like its neighbours.
- Yaml.ConnectExit: the source connects each unordered pair at most once
  (game/yaml_scenario.py:189-193). The model skips an edge already present,
  but no contract states that, because connecting a pair again leaves every
  neighbour set unchanged; the neighbour sets it states are the same either
  way.
- Engine.GameEngine.Create: with the data-driven scenario, the installed
  world's neighbours and items are stated by Yaml.LoadWorld, not here. Its
  keys, the configuration, the start placement and the messages are stated
  here.
- Yaml.YamlScenario.InitialSetup: states the installed world's keys and first
  key, not its neighbours and items. The world it installs is the one
  Yaml.LoadWorld returns, whose contract states neighbours and items.
  Carrying those facts over the later changes to the state was too costly to
  prove.
- A player is a value in the state's player map, not a shared mutable object.
  The source's aliasing of a `Player` is not modelled: it does not matter here,
  because every change goes through the dictionary's entry.
- Source `_build_world` skips an exit whose own room is not in the world
  (game/yaml_scenario.py:185-186). That check can never fire, because the first
  pass added every room, so the model leaves it out.
- The engine reads and writes `state.inspected_rooms`, but nothing in the
  source ever assigns it: the `GameState` dataclass does not declare it
  (game/game_state.py:10-19) and game/cli.py:33-37 builds the state without it. As
  written, the source raises AttributeError at game/engine.py:79, in
  `describe_surroundings` (first called at game/cli.py:61), and at
  game/engine.py:176, in `_handle_search`. The model declares it as a field
  that starts empty, which is evidently what the engine expects.
- HandleUse appends its one or two messages in one step rather than through
  two `add_message` calls. The resulting queue is the same.
- `lower()`, `strip()`, `split()` and `isspace()` are modelled on ASCII only.
  Non-ASCII case mappings and whitespace are out of scope.
- The connected-edge set of `_build_world` holds frozensets of two ids. It is
  modelled as a set of ordered pairs, each edge stored in both orientations.
- Looking up an unknown player id is a KeyError in the source. It is a
  precondition on the members that do the lookup.
- State.GameState.NextPlayer: requires a non-empty turn order. With an empty
  one the source raises ZeroDivisionError (game/game_state.py:25-26).
- State.GameState.CurrentPlayer: requires the turn index to be in range and
  its player to be present. Otherwise the source raises IndexError or KeyError
  (game/game_state.py:22).
- A scenario's `name` class attribute ("Find Each Other") is not modelled. The
  data-driven scenario's `name` property is (Yaml.YamlScenario.Name).
- game/scenario.py, the abstract scenario base, is the `Engine.Scenario`
  datatype with one case per scenario.
