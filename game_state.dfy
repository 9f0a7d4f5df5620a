/** Session state (game/game_state.py). */
module State {
  import opened Wrappers
  import opened Entities
  import opened WorldGraph

  /** The turn step of next_player on (index, turn number) for a turn order of
      length n: the index advances modulo n and the turn number grows exactly
      when the index wraps to 0. */
  function Advance(index: int, turnNumber: int, n: nat): (r: (int, int))
    requires n > 0
    ensures 0 <= r.0 < n
    ensures r.0 == 0 <==> (index + 1) % n == 0
    ensures r.1 == if r.0 == 0 then turnNumber + 1 else turnNumber
  {
    var i := (index + 1) % n;
    (i, if i == 0 then turnNumber + 1 else turnNumber)
  }

  /** With two players, two steps come back to the same index and add one turn. */
  lemma TwoPlayerRound(index: int, turnNumber: int)
    requires 0 <= index < 2
    ensures var r := Advance(index, turnNumber, 2); Advance(r.0, r.1, 2) == (index, turnNumber + 1)
  {
  }

  /** Stepping n times from index 0 comes back to index 0 and adds one turn. */
  lemma {:induction false} FullRound(n: nat, turnNumber: int, k: nat)
    requires n > 0 && k <= n
    ensures Steps(0, turnNumber, n, k) == (if k == n then (0, turnNumber + 1) else (k, turnNumber))
  {
    if k > 0 {
      FullRound(n, turnNumber, k - 1);
      assert Steps(0, turnNumber, n, k) == Advance(k - 1, turnNumber, n);
      ModStep(k, n);
    }
  }

  lemma ModStep(k: nat, n: nat)
    requires 0 < k <= n
    ensures k % n == if k == n then 0 else k
  {
  }

  /** k consecutive next_player steps. */
  function Steps(index: int, turnNumber: int, n: nat, k: nat): (r: (int, int))
    requires n > 0
    ensures 0 <= r.0 < n || (k == 0 && r.0 == index)
    ensures r.1 >= turnNumber
  {
    if k == 0 then (index, turnNumber)
    else var p := Steps(index, turnNumber, n, k - 1); Advance(p.0, p.1, n)
  }

  class GameState {
    var world: World
    /** The player dictionary; `playerOrder` is its iteration order. */
    var players: map<string, Player>
    const playerOrder: seq<string>
    const turnOrder: seq<string>
    var currentTurnIndex: nat
    var turnNumber: int
    var active: bool
    var winnerId: Option<string>
    var messages: seq<string>
    /** Per-player set of searched room ids. The source reads and writes this
        as an attribute the dataclass does not declare; it starts empty. */
    var inspectedRooms: map<string, set<string>>

    /** The player keys, listed once each in dictionary order. */
    ghost predicate PlayersWellFormed()
      reads this
    {
      && (forall k :: k in players <==> k in playerOrder)
      && (forall j :: 0 <= j < |playerOrder| ==> playerOrder[j] in players)
      && (forall i, j :: 0 <= i < j < |playerOrder| ==> playerOrder[i] != playerOrder[j])
    }

    ghost predicate Valid()
      reads this, world
    {
      && PlayersWellFormed()
      && world.Valid()
      && (currentTurnIndex == 0 || currentTurnIndex < |turnOrder|)
    }

    /** GameState(world, players, turn_order) with index 0, turn 1, active,
        no winner and no messages. */
    constructor (world: World, players: map<string, Player>, playerOrder: seq<string>, turnOrder: seq<string>)
      requires world.Valid()
      requires forall k :: k in players <==> k in playerOrder
      requires forall i, j :: 0 <= i < j < |playerOrder| ==> playerOrder[i] != playerOrder[j]
      ensures Valid()
      ensures this.world == world && this.players == players
      ensures this.playerOrder == playerOrder && this.turnOrder == turnOrder
      ensures currentTurnIndex == 0 && turnNumber == 1 && active && winnerId == None
      ensures messages == [] && inspectedRooms == map[]
    {
      forall j | 0 <= j < |playerOrder|
        ensures playerOrder[j] in players
      {
        assert playerOrder[j] in playerOrder;
      }
      this.world := world;
      this.players := players;
      this.playerOrder := playerOrder;
      this.turnOrder := turnOrder;
      currentTurnIndex := 0;
      turnNumber := 1;
      active := true;
      winnerId := None;
      messages := [];
      inspectedRooms := map[];
    }

    /** players[turn_order[current_turn_index]]. */
    function CurrentPlayer(): (p: Player)
      reads this
      requires currentTurnIndex < |turnOrder| && turnOrder[currentTurnIndex] in players
      ensures p == players[turnOrder[currentTurnIndex]]
    {
      players[turnOrder[currentTurnIndex]]
    }

    /** Passes the turn to the next entry of the turn order. The source
        divides by the length of the turn order and looks the new current
        player up, so both must be possible. */
    method NextPlayer() returns (p: Player)
      requires Valid() && |turnOrder| > 0
      requires turnOrder[(currentTurnIndex + 1) % |turnOrder|] in players
      modifies this`currentTurnIndex, this`turnNumber
      ensures Valid()
      ensures (currentTurnIndex, turnNumber) == Advance(old(currentTurnIndex), old(turnNumber), |turnOrder|)
      ensures currentTurnIndex < |turnOrder|
      ensures turnNumber == old(turnNumber) + (if currentTurnIndex == 0 then 1 else 0)
      ensures p == players[turnOrder[currentTurnIndex]]
    {
      currentTurnIndex := (currentTurnIndex + 1) % |turnOrder|;
      if currentTurnIndex == 0 {
        turnNumber := turnNumber + 1;
      }
      p := CurrentPlayer();
    }

    /** Appends one message; earlier messages are kept in order. */
    method AddMessage(message: string)
      modifies this`messages
      ensures messages == old(messages) + [message]
      ensures old(Valid()) ==> Valid()
    {
      messages := messages + [message];
    }
  }
}
