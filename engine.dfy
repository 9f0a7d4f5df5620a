/** The command engine (game/engine.py): one command of one player at a
    time, and the end-of-turn hazard, death check and win check. */
module Engine {
  import opened Wrappers
  import opened Entities
  import opened Text
  import opened WorldGraph
  import opened State
  import opened YamlDocs
  import ScenarioModes
  import Yaml

  /* ---------- Commands as text ---------- */

  /** `command.split(maxsplit=1)` followed by lowering the verb and stripping
      the rest. Python's split skips leading whitespace and fails on a
      string that is all whitespace, which the engine never passes. */
  function SplitCommand(s: string): (r: (string, string))
    requires LStrip(s) != []
    ensures |r.0| > 0
    ensures r.1 == Strip(r.1)
  {
    var t := LStrip(s);
    var w := FirstSpace(t);
    var rest := LStrip(t[w..]);
    if rest == [] then (ToLower(t[..w]), "")
    else StripIdempotent(rest); (ToLower(t[..w]), Strip(rest))
  }

  /** Stripping twice is stripping once. */
  lemma StripIdempotent(s: string)
    ensures Strip(Strip(s)) == Strip(s)
  {
    StripNoop(Strip(s));
  }

  /** Lowering keeps whitespace and non-whitespace apart. */
  lemma LowerKeepsSpace(c: char)
    ensures IsSpace(LowerChar(c)) <==> IsSpace(c)
  {
  }

  /** A stripped command is its first word, a gap and the argument: the
      verb is that word lowered and the argument is the rest of the command
      exactly as written. The word holds no whitespace (VerbHasNoSpace) and
      the gap, which is not empty before an argument, is all whitespace
      (GapIsSpace). */
  lemma SplitCommandParts(s: string)
    requires s != [] && Strip(s) == s
    ensures var k := FirstSpace(s); var arg := LStrip(s[k..]);
      && SplitCommand(s) == (ToLower(s[..k]), arg)
      && k + |arg| <= |s| && s == s[..k] + s[k..|s| - |arg|] + arg
      && (arg != [] ==> k < |s| - |arg|)
  {
    ArgIsRest(s);
    RestIsSuffix(s, FirstSpace(s));
  }

  /** On a stripped command the argument is what follows the first word
      once its leading whitespace is dropped. */
  lemma ArgIsRest(s: string)
    requires s != [] && Strip(s) == s
    ensures LStrip(s) == s
    ensures SplitCommand(s).0 == ToLower(s[..FirstSpace(s)])
    ensures SplitCommand(s).1 == LStrip(s[FirstSpace(s)..])
  {
    var rest := LStrip(s[FirstSpace(s)..]);
    if rest != [] {
      LStripSlice(s[FirstSpace(s)..]);
      assert rest[|rest| - 1] == s[|s| - 1];
      StripNoop(rest);
    }
  }

  /** s is its first k characters, what lstrip drops after them and what
      lstrip keeps; something is dropped when the kept part is not empty
      and the tail starts with whitespace. */
  lemma RestIsSuffix(s: string, k: nat)
    requires k <= |s|
    requires k < |s| ==> IsSpace(s[k])
    ensures var rest := LStrip(s[k..]);
      && k + |rest| <= |s| && s == s[..k] + s[k..|s| - |rest|] + rest
      && (rest != [] ==> k < |s| - |rest|)
  {
    var rest := LStrip(s[k..]);
    LStripSlice(s[k..]);
    var m := |s| - |rest|;
    assert s[m..] == rest;
    assert s[..m] == s[..k] + s[k..m];
    assert s == s[..m] + s[m..];
  }

  /** What lstrip drops after position k is whitespace. */
  lemma GapIsSpace(s: string, k: nat)
    requires k <= |s|
    ensures |LStrip(s[k..])| <= |s| - k
    ensures forall i :: k <= i < |s| - |LStrip(s[k..])| ==> IsSpace(s[i])
  {
    var tail := s[k..];
    var rest := LStrip(tail);
    LStripSlice(tail);
    forall i | k <= i < |s| - |rest|
      ensures IsSpace(s[i])
    {
      assert s[i] == tail[..|tail| - |rest|][i - k];
    }
  }

  /** The lowered first word holds no whitespace. */
  lemma VerbHasNoSpace(s: string)
    ensures var v := ToLower(s[..FirstSpace(s)]); forall i :: 0 <= i < |v| ==> !IsSpace(v[i])
  {
    var w := s[..FirstSpace(s)];
    forall i | 0 <= i < |w|
      ensures !IsSpace(ToLower(w)[i])
    {
      ToLowerAt(w, i);
      FirstSpaceIsFirst(s, i);
      LowerKeepsSpace(w[i]);
    }
  }

  const LookVerbs: set<string> := {"look", "l"}
  const MoveVerbs: set<string> := {"move", "go", "m"}
  const SearchVerbs: set<string> := {"search", "s"}
  const UseVerbs: set<string> := {"use", "u"}
  const StatusVerbs: set<string> := {"status", "stats"}
  const HelpVerbs: set<string> := {"help", "?"}

  /** The verbs whose command consumes the turn, failed or not. */
  const TurnVerbs: set<string> := LookVerbs + MoveVerbs + SearchVerbs + UseVerbs + StatusVerbs

  /** Whether a command, as typed, consumes the acting player's turn. */
  predicate ConsumesTurn(command: string)
  {
    Strip(command) != [] && SplitCommand(Strip(command)).0 in TurnVerbs
  }

  const HesitateText: string := "You hesitate, doing nothing."
  const MutterText: string := "You mutter something unintelligible. Nothing happens. (Type 'help' for commands.)"
  const HelpText: string := "Commands:\n  look / l                     - Look around\n  move <room name or id>       - Move to an adjacent location\n  search / s                   - Search the area for items\n  use <item>                   - Use an item in your inventory\n  status                       - View your status\n  help                         - Show this help\n  end / quit                   - End the game\n"
  const NowhereText: string := "You are nowhere. That seems… bad."
  const CannotMoveText: string := "You cannot move from here."
  const MoveWhereText: string := "Move where?"
  const NoPathText: string := "You fumble in the dark, but there is no clear path that way."
  const VoidText: string := "You step into an undefined void. Odd."
  const NothingToSearchText: string := "There is nothing here to search."
  const FoundNothingText: string := "You search the area but find nothing useful."
  const PickUpText: string := "You pick them up."
  const NothingToUseText: string := "You have nothing to use."
  const UseWhatText: string := "Use what? (Hint: use <item id or name>)"
  const CannotFindText: string := "You fumble through your things but can't find that."
  const NoEffectText: string := "You fiddle with it, but nothing obvious happens."
  const NoiseText: string := "Something moves just out of sight. The air feels heavier."
  const WhisperText: string := "A whisper curls into your ear in a voice you almost recognize. (-1 sanity)"
  const WeightText: string := "A sudden, invisible weight presses on your chest. It hurts to breathe. (-1 health)"
  const DarknessText: string := "The darkness closes in. No one escapes."
  const MeetWinText: string := "You find each other in the darkness. For now, you are safe."

  /** The sanity ceiling of the item effects. */
  const MaxSanity: int := 10

  /** `sep.join(parts)`. */
  function Join(parts: seq<string>, sep: string): string
  {
    if parts == [] then "" else if |parts| == 1 then parts[0]
    else parts[0] + sep + Join(parts[1..], sep)
  }

  function Names(items: seq<Item>): seq<string>
  {
    if items == [] then [] else [items[0].name] + Names(items[1..])
  }

  /** Python str() of a natural number. */
  function NatText(n: nat): string
  {
    if n < 10 then ["0123456789"[n]] else NatText(n / 10) + ["0123456789"[n % 10]]
  }

  /** Python str() of an integer. */
  function IntText(n: int): string
  {
    if n < 0 then "-" + NatText(-n) else NatText(n)
  }

  /** The glance at a room: the name line, then the detail when the player
      has searched the room and the detail is not blank, else the
      description; a blank text adds no line. */
  function GlanceText(p: Player, room: Location, inspected: bool): string
  {
    var detail := Strip(room.detailDescription);
    var text := if inspected && detail != "" then detail else Strip(room.description);
    var first := p.name + ", you are in " + room.name + ".";
    if text == "" then first else first + "\n" + text
  }

  /** Before a search, the glance ignores the room's detail text: two rooms
      that differ only in it look the same. */
  lemma UnsearchedIgnoresDetail(p: Player, a: Location, b: Location)
    requires a.name == b.name && a.description == b.description
    ensures GlanceText(p, a, false) == GlanceText(p, b, false)
  {
  }

  /** After a search, a non-blank detail text replaces the description. */
  lemma SearchedShowsDetail(p: Player, room: Location)
    requires Strip(room.detailDescription) != ""
    ensures GlanceText(p, room, true) == p.name + ", you are in " + room.name + ".\n" + Strip(room.detailDescription)
  {
  }

  function StatusText(p: Player): string
  {
    p.name + "'s status:\n  Health: " + IntText(p.health) + "\n  Sanity: " + IntText(p.sanity)
      + "\n  Location: " + p.locationId + "\n"
  }

  /* ---------- Items ---------- */

  /** The use test: the lowered id equals the key or the lowered name
      contains it. */
  predicate Matches(it: Item, key: string)
  {
    ToLower(it.id) == key || Contains(ToLower(it.name), key)
  }

  /** i is the position of the first item that matches the key. */
  ghost predicate IsFirstMatch(inv: seq<Item>, key: string, i: int)
  {
    0 <= i < |inv| && Matches(inv[i], key) && forall j :: 0 <= j < i ==> !Matches(inv[j], key)
  }

  /** The first item of the inventory, in order, that matches the key. */
  method FindItem(inv: seq<Item>, key: string) returns (found: Option<nat>)
    ensures found.Some? ==> IsFirstMatch(inv, key, found.value)
    ensures found.None? ==> forall j :: 0 <= j < |inv| ==> !Matches(inv[j], key)
  {
    var i := 0;
    while i < |inv|
      invariant 0 <= i <= |inv|
      invariant forall j :: 0 <= j < i ==> !Matches(inv[j], key)
    {
      if ToLower(inv[i].id) == key || Contains(ToLower(inv[i].name), key) {
        return Some(i);
      }
      i := i + 1;
    }
    return None;
  }

  /** Python list.remove: drops the first element equal to x. */
  function RemoveFirst(s: seq<Item>, x: Item): (r: seq<Item>)
    ensures x !in s ==> r == s
    ensures x in s ==> |r| == |s| - 1
  {
    if s == [] then []
    else if s[0] == x then s[1..]
    else [s[0]] + RemoveFirst(s[1..], x)
  }

  /** When nothing before position i equals s[i], list.remove(s[i]) drops
      exactly position i. */
  lemma {:induction false} RemoveFirstAt(s: seq<Item>, i: nat)
    requires i < |s|
    requires forall j :: 0 <= j < i ==> s[j] != s[i]
    ensures RemoveFirst(s, s[i]) == s[..i] + s[i + 1..]
  {
    if i > 0 {
      RemoveFirstAt(s[1..], i - 1);
      assert s[1..][..i - 1] + s[1..][i..] == s[1..i] + s[i + 1..];
      assert s[..i] == [s[0]] + s[1..i];
    }
  }

  /** A matching item with an equal item before it would have been found
      first. */
  lemma FirstMatchUnique(inv: seq<Item>, key: string, i: int)
    requires IsFirstMatch(inv, key, i)
    ensures forall j :: 0 <= j < i ==> inv[j] != inv[i]
  {
  }

  /** The player after using the i-th inventory item, by tag priority:
      clarity restores sanity to the ceiling and uses the item up; else a
      potion gives 3 health and up to 2 sanity and is used up; else a light
      gives up to 1 sanity and is kept; else nothing happens. */
  function UseItem(p: Player, i: nat): (q: Player)
    requires i < |p.inventory|
    requires forall j :: 0 <= j < i ==> p.inventory[j] != p.inventory[i]
    ensures q.id == p.id && q.name == p.name && q.locationId == p.locationId
    ensures var it := p.inventory[i]; var rest := p.inventory[..i] + p.inventory[i + 1..];
      if "clarity" in it.tags then
        q.sanity == MaxSanity && q.health == p.health && q.inventory == rest
      else if "potion" in it.tags then
        q.health == p.health + 3 && q.sanity == (if p.sanity + 2 < MaxSanity then p.sanity + 2 else MaxSanity)
        && q.inventory == rest
      else if "light" in it.tags then
        q.sanity == (if p.sanity + 1 < MaxSanity then p.sanity + 1 else MaxSanity)
        && q.health == p.health && q.inventory == p.inventory
      else q == p
  {
    var it := p.inventory[i];
    RemoveFirstAt(p.inventory, i);
    if "clarity" in it.tags then p.(sanity := MaxSanity, inventory := RemoveFirst(p.inventory, it))
    else if "potion" in it.tags then
      p.(health := p.health + 3, sanity := Min(MaxSanity, p.sanity + 2), inventory := RemoveFirst(p.inventory, it))
    else if "light" in it.tags then p.(sanity := Min(MaxSanity, p.sanity + 1))
    else p
  }

  function Min(a: int, b: int): int
  {
    if a < b then a else b
  }

  /** The messages that report using an item. */
  function UseLines(it: Item): seq<string>
  {
    if "clarity" in it.tags then
      ["You drink the clear draught. The whispers fall silent.",
       "Your mind snaps back into focus. (Sanity fully restored)"]
    else if "potion" in it.tags then
      ["You drink the strange potion. Warmth spreads through your body.",
       "You feel a little safer. (+3 health, +2 sanity)"]
    else if "light" in it.tags then
      ["You raise the lantern. The darkness shrinks back a little.",
       "Your mind steadies. (+1 sanity)"]
    else [NoEffectText]
  }

  /** An item tagged both potion and clarity acts as clarity only: sanity
      goes to the ceiling and health is untouched. */
  lemma ClarityFirst(p: Player, i: nat)
    requires i < |p.inventory|
    requires forall j :: 0 <= j < i ==> p.inventory[j] != p.inventory[i]
    requires "clarity" in p.inventory[i].tags && "potion" in p.inventory[i].tags
    ensures UseItem(p, i).health == p.health && UseItem(p, i).sanity == MaxSanity
  {
  }

  /** Using a light never uses it up, so it can be used again. */
  lemma LightKept(p: Player, i: nat)
    requires i < |p.inventory|
    requires forall j :: 0 <= j < i ==> p.inventory[j] != p.inventory[i]
    requires "light" in p.inventory[i].tags && "potion" !in p.inventory[i].tags && "clarity" !in p.inventory[i].tags
    ensures UseItem(p, i).inventory == p.inventory
    ensures UseItem(p, i).sanity == Min(MaxSanity, p.sanity + 1)
  {
  }

  /* ---------- The hazard ---------- */

  /** The hazard thresholds are the binary64 values of the literals 0.2,
      0.35 and 0.45 that a roll of random.random() is compared with. The
      first and last lie just above their decimal, the middle one just
      below it. */
  const NoiseBelow: real := 0.200000000000000011102230246251565404236316680908203125
  const WhisperBelow: real := 0.34999999999999997779553950749686919152736663818359375
  const WeightBelow: real := 0.450000000000000011102230246251565404236316680908203125

  /** The player after the ambient hazard for a roll of random.random():
      below 0.2 only a noise, below 0.35 one sanity lost, below 0.45 one
      health lost, otherwise nothing. Sanity and health are not clamped. */
  function Hazard(p: Player, roll: real): (q: Player)
    ensures q == p || q == p.(sanity := p.sanity - 1) || q == p.(health := p.health - 1)
    ensures q.sanity != p.sanity <==> NoiseBelow <= roll < WhisperBelow
    ensures q.health != p.health <==> WhisperBelow <= roll < WeightBelow
  {
    if roll < NoiseBelow then p
    else if roll < WhisperBelow then p.(sanity := p.sanity - 1)
    else if roll < WeightBelow then p.(health := p.health - 1)
    else p
  }

  /** A roll equal to the double nearest 0.35 already costs health, not
      sanity, although it is below the decimal 0.35. */
  lemma HazardAtWhisperBound(p: Player)
    ensures WhisperBelow < 0.35
    ensures Hazard(p, WhisperBelow) == p.(health := p.health - 1)
  {
  }

  function HazardLines(roll: real): seq<string>
  {
    if roll < NoiseBelow then [NoiseText]
    else if roll < WhisperBelow then [WhisperText]
    else if roll < WeightBelow then [WeightText]
    else []
  }

  /** A neighbour d of a room with the given exits that a move with the
      lowered target goes to: the target itself when it is a neighbour id,
      otherwise a neighbour whose room's lowered name is the target. */
  ghost predicate MoveTarget(exits: set<string>, locations: map<string, Location>, key: string, d: string)
  {
    && d in exits
    && (key in exits ==> d == key)
    && (key !in exits ==> d in locations && ToLower(locations[d].name) == key)
  }

  /** The answer to a command that keeps the turn. */
  function Reply(command: string): string
  {
    if Strip(command) == [] then HesitateText
    else if SplitCommand(Strip(command)).0 in HelpVerbs then HelpText
    else MutterText
  }

  /** Some player has no health left. */
  ghost predicate AnyoneDown(players: map<string, Player>)
  {
    exists k :: k in players && players[k].health <= 0
  }

  /** The death check's loop over the players in dictionary order. */
  method FindFallen(players: map<string, Player>, order: seq<string>) returns (down: bool)
    requires forall k :: k in players <==> k in order
    ensures down <==> AnyoneDown(players)
  {
    var i := 0;
    while i < |order|
      invariant 0 <= i <= |order|
      invariant forall j :: 0 <= j < i ==> players[order[j]].health > 0
    {
      assert order[i] in order;
      if players[order[i]].health <= 0 {
        return true;
      }
      i := i + 1;
    }
    forall k | k in players
      ensures players[k].health > 0
    {
      assert k in order;
      var j :| 0 <= j < |order| && order[j] == k;
    }
    return false;
  }

  /** The win message: the joint one for BOTH, else the winner's id. */
  function WinText(winnerId: string): string
  {
    if winnerId == ScenarioModes.Both then MeetWinText else "Player " + winnerId + " has won."
  }

  /** The two scenarios the engine can run; the data-driven one comes with
      its parsed rooms and items documents. */
  datatype Scenario =
    | FindEachOther
    | DataDriven(yaml: Yaml.YamlScenario, rooms: RoomsDoc, items: ItemsDoc)

  class GameEngine {
    const state: GameState
    const scenario: Scenario

    constructor (state: GameState, scenario: Scenario)
      ensures this.state == state && this.scenario == scenario
    {
      this.state := state;
      this.scenario := scenario;
    }

    /** The scenario's check_win_condition on the given players. */
    function Winner(players: map<string, Player>, order: seq<string>): (r: Option<string>)
      reads this, if scenario.DataDriven? then {scenario.yaml} else {}
      requires forall j :: 0 <= j < |order| ==> order[j] in players
      ensures scenario.FindEachOther? ==> (r.Some? <==> ScenarioModes.FirstTwoColocated(players, order))
    {
      match scenario
      case FindEachOther => ScenarioModes.CheckWinCondition(players, order)
      case DataDriven(yaml, _, _) => yaml.CheckWinCondition(players, order)
    }

    /** _get_player_and_location: the player's room, if it is a room of the world. */
    function RoomOf(pid: string): (r: Option<Location>)
      reads this, state, state.world
      requires state.Valid() && pid in state.players
      ensures r.Some? <==> state.players[pid].locationId in state.world.locations
      ensures r.Some? ==> r.value == state.world.locations[state.players[pid].locationId]
    {
      state.world.GetLocation(state.players[pid].locationId)
    }

    /** The rooms a command of pid may change: at most the player's room. */
    function Footprint(pid: string): set<object>
      reads this, state, state.world
    {
      if pid in state.players && state.players[pid].locationId in state.world.locations
      then {state.world.locations[state.players[pid].locationId]} else {}
    }

    /** The rooms pid has searched (`inspected_rooms.get(pid, set())`). */
    function Inspected(pid: string): set<string>
      reads this, state
    {
      if pid in state.inspectedRooms then state.inspectedRooms[pid] else {}
    }

    /** Replaces the record of an existing player. */
    method SetPlayer(pid: string, p: Player)
      requires state.Valid() && pid in state.players
      modifies state`players
      ensures state.Valid()
      ensures state.players == old(state.players)[pid := p]
    {
      state.players := state.players[pid := p];
    }

    /** Shows the player's room: one message, the detailed text only once
        the player has searched the room. */
    method DescribeSurroundings(pid: string)
      requires state.Valid() && pid in state.players
      modifies state`messages
      ensures RoomOf(pid).None? ==> state.messages == old(state.messages) + [NowhereText]
      ensures RoomOf(pid).Some? ==>
        var room := RoomOf(pid).value;
        state.messages == old(state.messages) + [GlanceText(state.players[pid], room, room.id in Inspected(pid))]
    {
      var player := state.players[pid];
      var loc := state.world.GetLocation(player.locationId);
      if loc.None? {
        state.AddMessage(NowhereText);
        return;
      }
      var room := loc.value;
      state.AddMessage(GlanceText(player, room, room.id in Inspected(pid)));
    }

    /** The careful look: one message about the room, its exits in the
        set's order, its items and the player's inventory. */
    method HandleLook(pid: string)
      requires state.Valid() && pid in state.players
      modifies state`messages
      ensures exists m :: state.messages == old(state.messages) + [m]
      ensures RoomOf(pid).None? ==> state.messages == old(state.messages) + [NowhereText]
    {
      var player := state.players[pid];
      var loc := state.world.GetLocation(player.locationId);
      if loc.None? {
        state.AddMessage(NowhereText);
        return;
      }
      var room := loc.value;
      var detail := Strip(room.detailDescription);
      if detail == "" {
        detail := "You don't notice anything new.";
      }
      var lines := ["You take a careful look around " + room.name + ".", detail];
      if room.neighbors != {} {
        var names := [];
        var rest := room.neighbors;
        while rest != {}
          decreases rest
        {
          var nid :| nid in rest;
          var n := state.world.GetLocation(nid);
          names := names + [if n.Some? then n.value.name + " (" + nid + ")" else nid];
          rest := rest - {nid};
        }
        lines := lines + ["Exits lead to: " + Join(names, ", ") + "."];
      }
      if room.items != [] {
        lines := lines + ["On closer inspection, you notice: " + Join(Names(room.items), ", ") + " on the ground."];
      } else {
        lines := lines + ["You don't see anything obviously useful, just the unsettling details of the room."];
      }
      if player.inventory != [] {
        lines := lines + ["Carrying: " + Join(Names(player.inventory), ", ") + "."];
      }
      state.AddMessage(Join(lines, "\n"));
    }

    /** Moves the player to a neighbouring room named by id or by name,
        ignoring case. Any failure leaves the player where they were. */
    method HandleMove(pid: string, target: string)
      requires state.Valid() && pid in state.players
      modifies state`players, state`messages
      ensures state.Valid()
      ensures state.players.Keys == old(state.players.Keys)
      ensures forall k :: k in state.players && k != pid ==> state.players[k] == old(state.players[k])
      ensures state.players[pid] == old(state.players[pid]).(locationId := state.players[pid].locationId)
      ensures old(RoomOf(pid)).None? || target == [] ==> state.players == old(state.players)
      ensures old(RoomOf(pid)).Some? && state.players[pid].locationId != old(state.players[pid].locationId) ==>
        MoveTarget(old(RoomOf(pid).value.neighbors), state.world.locations, ToLower(target), state.players[pid].locationId)
      ensures old(RoomOf(pid)).Some? && target != [] && ToLower(target) in old(RoomOf(pid).value.neighbors) ==>
        state.players[pid].locationId == ToLower(target)
      ensures old(RoomOf(pid)).Some? && target != [] ==>
        var exits := old(RoomOf(pid).value.neighbors);
        "" !in exits && (exists d :: MoveTarget(exits, state.world.locations, ToLower(target), d)) ==>
        MoveTarget(exits, state.world.locations, ToLower(target), state.players[pid].locationId)
      ensures old(RoomOf(pid)).Some? ==>
        var exits := old(RoomOf(pid).value.neighbors);
        (forall d :: !MoveTarget(exits, state.world.locations, ToLower(target), d)) ==> state.players == old(state.players)
      ensures |old(state.messages)| < |state.messages| && state.messages[..|old(state.messages)|] == old(state.messages)
      ensures old(RoomOf(pid)).None? ==> state.messages == old(state.messages) + [CannotMoveText]
      ensures old(RoomOf(pid)).Some? && target == [] ==> state.messages == old(state.messages) + [MoveWhereText]
      ensures old(RoomOf(pid)).Some? && target != [] ==>
        var exits := old(RoomOf(pid).value.neighbors);
        (forall d :: !MoveTarget(exits, state.world.locations, ToLower(target), d)) ==>
        state.messages == old(state.messages) + [NoPathText]
    {
      var player := state.players[pid];
      var loc := state.world.GetLocation(player.locationId);
      if loc.None? {
        state.AddMessage(CannotMoveText);
        return;
      }
      if target == [] {
        state.AddMessage(MoveWhereText);
        return;
      }
      var room := loc.value;
      var key := ToLower(target);
      var destination := ChooseDestination(room, key);
      if destination.None? || destination.value == "" {
        state.AddMessage(NoPathText);
        return;
      }
      SetPlayer(pid, player.(locationId := destination.value));
      Arrive(pid);
    }

    /** The destination of a move with the lowered target: the target when
        it is a neighbour id, else a neighbour found by name. */
    method ChooseDestination(room: Location, key: string) returns (destination: Option<string>)
      requires state.Valid()
      ensures key in room.neighbors ==> destination == Some(key)
      ensures destination.Some? ==> MoveTarget(room.neighbors, state.world.locations, key, destination.value)
      ensures destination.None? ==> forall d :: !MoveTarget(room.neighbors, state.world.locations, key, d)
    {
      if key in room.neighbors {
        destination := Some(key);
      } else {
        destination := FindByName(room, key);
      }
    }

    /** The messages after a move: the arrival and the glance at the new
        room, or a note that the destination is not a room. */
    method Arrive(pid: string)
      requires state.Valid() && pid in state.players
      modifies state`messages
      ensures state.Valid()
      ensures RoomOf(pid).None? ==> state.messages == old(state.messages) + [VoidText]
      ensures RoomOf(pid).Some? ==>
        var room := RoomOf(pid).value;
        state.messages == old(state.messages) +
          ["You move into " + room.name + ".", GlanceText(state.players[pid], room, room.id in Inspected(pid))]
    {
      var newLoc := state.world.GetLocation(state.players[pid].locationId);
      if newLoc.Some? {
        state.AddMessage("You move into " + newLoc.value.name + ".");
        DescribeSurroundings(pid);
      } else {
        state.AddMessage(VoidText);
      }
    }

    /** The loop over the neighbour set looking for a room whose lowered
        name is the key; the set's order decides between several. */
    method FindByName(room: Location, key: string) returns (found: Option<string>)
      requires state.Valid() && key !in room.neighbors
      ensures found.Some? ==> MoveTarget(room.neighbors, state.world.locations, key, found.value)
      ensures found.None? ==> forall d :: !MoveTarget(room.neighbors, state.world.locations, key, d)
    {
      var rest := room.neighbors;
      while rest != {}
        invariant rest <= room.neighbors
        invariant forall d :: d in room.neighbors - rest ==> !MoveTarget(room.neighbors, state.world.locations, key, d)
        decreases rest
      {
        var nid :| nid in rest;
        var n := state.world.GetLocation(nid);
        if n.Some? && ToLower(n.value.name) == key {
          return Some(n.value.id);
        }
        rest := rest - {nid};
      }
      return None;
    }

    /** Marks the room as searched by the player and moves all its items,
        in order, to the end of the player's inventory. */
    method HandleSearch(pid: string)
      requires state.Valid() && pid in state.players
      modifies state`inspectedRooms, state`players, state`messages, Footprint(pid)
      ensures state.Valid()
      ensures old(RoomOf(pid)).None? ==>
        && state.players == old(state.players) && state.inspectedRooms == old(state.inspectedRooms)
        && state.messages == old(state.messages) + [NothingToSearchText]
      ensures old(RoomOf(pid)).Some? ==>
        var here := old(state.players[pid].locationId);
        var room := old(RoomOf(pid)).value;
        && state.inspectedRooms == old(state.inspectedRooms)[pid := old(Inspected(pid)) + {here}]
        && here in Inspected(pid)
        && state.players == old(state.players)[pid := old(state.players[pid]).(inventory := old(state.players[pid].inventory) + old(room.items))]
        && room.items == []
        && room.neighbors == old(room.neighbors)
        && state.messages == old(state.messages) +
             (if old(room.items) == [] then [FoundNothingText]
              else ["You search carefully and find: " + Join(Names(old(room.items)), ", ") + ".", PickUpText])
    {
      var player := state.players[pid];
      var loc := state.world.GetLocation(player.locationId);
      if loc.None? {
        state.AddMessage(NothingToSearchText);
        return;
      }
      var room := loc.value;
      state.inspectedRooms := state.inspectedRooms[pid := Inspected(pid) + {room.id}];
      if room.items == [] {
        assert player.(inventory := player.inventory + room.items) == player;
        state.AddMessage(FoundNothingText);
        return;
      }
      state.AddMessage("You search carefully and find: " + Join(Names(room.items), ", ") + ".");
      state.AddMessage(PickUpText);
      state.players := state.players[pid := player.(inventory := player.inventory + room.items)];
      room.items := [];
    }

    /** Uses the first inventory item whose id or name matches the target,
        ignoring case. With nothing carried, no target or no match, the
        player is unchanged. */
    method HandleUse(pid: string, target: string)
      requires state.Valid() && pid in state.players
      modifies state`players, state`messages
      ensures state.Valid()
      ensures var p := old(state.players[pid]); var key := ToLower(target);
        if p.inventory == [] || target == [] || (forall j :: 0 <= j < |p.inventory| ==> !Matches(p.inventory[j], key))
        then state.players == old(state.players)
        else exists i :: (IsFirstMatch(p.inventory, key, i)
          && (forall j :: 0 <= j < i ==> p.inventory[j] != p.inventory[i])
          && state.players == old(state.players)[pid := UseItem(p, i)]
          && state.messages == old(state.messages) + UseLines(p.inventory[i]))
      ensures old(state.players[pid].inventory) == [] ==> state.messages == old(state.messages) + [NothingToUseText]
      ensures old(state.players[pid].inventory) != [] && target == [] ==>
        state.messages == old(state.messages) + [UseWhatText]
      ensures var inv := old(state.players[pid].inventory);
        inv != [] && target != [] && (forall j :: 0 <= j < |inv| ==> !Matches(inv[j], ToLower(target))) ==>
        state.messages == old(state.messages) + [CannotFindText]
    {
      var player := state.players[pid];
      if player.inventory == [] {
        state.AddMessage(NothingToUseText);
        return;
      }
      if target == [] {
        state.AddMessage(UseWhatText);
        return;
      }
      var key := ToLower(target);
      var found := FindItem(player.inventory, key);
      if found.None? {
        state.AddMessage(CannotFindText);
        return;
      }
      var i := found.value;
      FirstMatchUnique(player.inventory, key, i);
      var lines := UseLines(player.inventory[i]);
      state.players := state.players[pid := UseItem(player, i)];
      state.messages := state.messages + lines;
    }

    /** One message with the player's name, health, sanity and location. */
    method HandleStatus(pid: string)
      requires state.Valid() && pid in state.players
      modifies state`messages
      ensures state.messages == old(state.messages) + [StatusText(state.players[pid])]
    {
      var player := state.players[pid];
      state.AddMessage(StatusText(player));
    }

    /** The help text, as one message. */
    method HandleHelp(pid: string)
      modifies state`messages
      ensures state.messages == old(state.messages) + [HelpText]
    {
      state.AddMessage(HelpText);
    }

    /** The ambient hazard for the acting player; no other player is touched. */
    method ResolveAmbientDanger(pid: string, roll: real)
      requires state.Valid() && pid in state.players
      modifies state`players, state`messages
      ensures state.Valid()
      ensures state.players == old(state.players)[pid := Hazard(old(state.players[pid]), roll)]
      ensures state.messages == old(state.messages) + HazardLines(roll)
    {
      var player := state.players[pid];
      if roll < NoiseBelow {
        state.AddMessage(NoiseText);
      } else if roll < WhisperBelow {
        SetPlayer(pid, player.(sanity := player.sanity - 1));
        state.AddMessage(WhisperText);
      } else if roll < WeightBelow {
        SetPlayer(pid, player.(health := player.health - 1));
        state.AddMessage(WeightText);
      }
    }

    /** Ends the game with the given winner. */
    method HandleWin(winnerId: string)
      modifies state`active, state`winnerId, state`messages
      ensures !state.active && state.winnerId == Some(winnerId)
      ensures state.messages == old(state.messages) + [WinText(winnerId)]
    {
      state.active := false;
      state.winnerId := Some(winnerId);
      state.AddMessage(WinText(winnerId));
    }

    /** The end of a turn that consumed the turn. Nothing happens once the
        game is over; otherwise the hazard strikes the acting player, then a
        player with no health left ends the game with no winner, and only
        when nobody is down does the scenario's win check run. */
    method EndOfTurn(pid: string, roll: real)
      requires state.Valid() && pid in state.players
      modifies state`players, state`messages, state`active, state`winnerId
      ensures state.Valid()
      ensures !old(state.active) ==>
        && state.players == old(state.players) && state.messages == old(state.messages)
        && !state.active && state.winnerId == old(state.winnerId)
      ensures old(state.active) ==>
        state.players == old(state.players)[pid := Hazard(old(state.players[pid]), roll)]
      ensures old(state.active) && AnyoneDown(state.players) ==>
        && !state.active && state.winnerId == None
        && state.messages == old(state.messages) + HazardLines(roll) + [DarknessText]
      ensures old(state.active) && !AnyoneDown(state.players) ==>
        var w := Winner(state.players, state.playerOrder);
        && state.active == w.None?
        && state.winnerId == (if w.Some? then w else old(state.winnerId))
        && state.messages == old(state.messages) + HazardLines(roll) + (if w.Some? then [WinText(w.value)] else [])
    {
      if !state.active {
        return;
      }
      ResolveAmbientDanger(pid, roll);
      var down := FindFallen(state.players, state.playerOrder);
      if down {
        state.active := false;
        state.winnerId := None;
        state.AddMessage(DarknessText);
        return;
      }
      if state.active {
        var winner := Winner(state.players, state.playerOrder);
        if winner.Some? {
          HandleWin(winner.value);
        }
      }
    }

    /** One command of one player. Nothing happens once the game is over.
        A blank command, help and unknown verbs answer with one message and
        keep the turn; look, move, search, use and status consume it, even
        when they fail. Only those five look the player up, so only they
        need the player to exist. */
    method ProcessCommand(pid: string, command: string) returns (consumed: bool)
      requires state.Valid()
      requires state.active && ConsumesTurn(command) ==> pid in state.players
      modifies state`players, state`messages, state`inspectedRooms, Footprint(pid)
      ensures state.Valid()
      ensures consumed <==> old(state.active) && ConsumesTurn(command)
      ensures !old(state.active) ==> unchanged(state) && forall o :: o in old(Footprint(pid)) ==> unchanged(o)
      ensures old(state.active) && !ConsumesTurn(command) ==>
        && state.players == old(state.players) && state.inspectedRooms == old(state.inspectedRooms)
        && (forall o :: o in old(Footprint(pid)) ==> unchanged(o))
        && state.messages == old(state.messages) + [Reply(command)]
    {
      if !state.active {
        return false;
      }
      var trimmed := Strip(command);
      if trimmed == [] {
        state.AddMessage(HesitateText);
        return false;
      }
      StripIdempotent(command);
      var (verb, arg) := SplitCommand(trimmed);
      consumed := true;
      if verb in LookVerbs {
        HandleLook(pid);
      } else if verb in MoveVerbs {
        HandleMove(pid, arg);
      } else if verb in SearchVerbs {
        HandleSearch(pid);
      } else if verb in UseVerbs {
        HandleUse(pid, arg);
      } else if verb in StatusVerbs {
        HandleStatus(pid);
      } else if verb in HelpVerbs {
        HandleHelp(pid);
        consumed := false;
      } else {
        state.AddMessage(MutterText);
        consumed := false;
      }
    }

    /** GameEngine(state, scenario): keeps both and runs the scenario's
        initial setup on the state, which for the data-driven scenario can
        fail. The hard-coded scenario looks up P1 and P2. */
    static method Create(state: GameState, scenario: Scenario) returns (res: Result<GameEngine>)
      requires state.Valid()
      requires scenario.FindEachOther? ==> "P1" in state.players && "P2" in state.players
      modifies state`world, state`messages, state`players, if scenario.DataDriven? then {scenario.yaml} else {}
      ensures state.Valid()
      ensures res.Ok? ==> fresh(res.value) && res.value.state == state && res.value.scenario == scenario
      ensures scenario.FindEachOther? ==> res.Ok? && ScenarioModes.IsManor(state.world)
      ensures scenario.FindEachOther? ==>
        && state.players == old(state.players)
             ["P1" := old(state.players["P1"]).(locationId := "foyer")]
             ["P2" := old(state.players["P2"]).(locationId := "library")]
        && state.messages == old(state.messages) + ScenarioModes.OpeningLines
      ensures scenario.DataDriven? ==>
        var rooms := scenario.rooms.rooms;
        var c := ParseConfig(scenario.rooms, scenario.yaml.dirName);
        var loads := Yaml.Loads(rooms, scenario.items.items);
        var first := Yaml.FirstRoomKey(rooms);
        (res.Ok? <==> (loads && Yaml.FirstMissingStart(c, first, RoomKeys(rooms), state.playerOrder) == |state.playerOrder|))
      ensures scenario.DataDriven? && !Yaml.Loads(scenario.rooms.rooms, scenario.items.items) ==>
        && state.world == old(state.world) && state.players == old(state.players)
        && state.messages == old(state.messages) && scenario.yaml.config == old(scenario.yaml.config)
      ensures scenario.DataDriven? && Yaml.Loads(scenario.rooms.rooms, scenario.items.items) ==>
        var rooms := scenario.rooms.rooms;
        var c := ParseConfig(scenario.rooms, scenario.yaml.dirName);
        var first := Yaml.FirstRoomKey(rooms);
        && scenario.yaml.config == Some(c)
        && fresh(state.world) && state.world.locations.Keys == RoomKeys(rooms)
        && Yaml.StartsPlaced(state.players, state.playerOrder, c, first, RoomKeys(rooms), Yaml.Whereabouts(old(state.players)))
        && Yaml.OnlyMoved(state.players, old(state.players))
        && state.messages == old(state.messages) + (if res.Ok? then Yaml.OpeningMessages(c) else [])
    {
      match scenario {
        case FindEachOther =>
          ScenarioModes.InitialSetup(state);
        case DataDriven(yaml, rooms, items) =>
          var setup := yaml.InitialSetup(state, rooms, items);
          if setup.Err? {
            return Err(setup.error);
          }
      }
      var engine := new GameEngine(state, scenario);
      return Ok(engine);
    }
  }
}
