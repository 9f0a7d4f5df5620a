/** The already-parsed rooms and items documents of a data-driven scenario
    (game/yaml_scenario.py), and the pure functions over them: the scenario
    configuration, the normalised ids, the edge set the exits describe and
    the items each room receives. A field that is absent from a document is
    None. */
module YamlDocs {
  import opened Wrappers
  import opened Text
  import opened Entities

  datatype ExitDoc = ExitDoc(key: string, dest: string)

  datatype RoomDoc = RoomDoc(
    id: Option<string>,
    name: Option<string>,
    description: Option<string>,
    detailDescription: Option<string>,
    exits: Option<seq<ExitDoc>>)

  datatype ScenarioDoc = ScenarioDoc(
    name: Option<string>,
    mode: Option<string>,
    starts: Option<map<string, string>>,
    intro: Option<string>)

  datatype RoomsDoc = RoomsDoc(scenario: Option<ScenarioDoc>, rooms: seq<RoomDoc>)

  datatype ItemDoc = ItemDoc(
    id: Option<string>,
    name: Option<string>,
    description: Option<string>,
    tags: Option<seq<string>>,
    location: Option<string>)

  datatype ItemsDoc = ItemsDoc(items: seq<ItemDoc>)

  /** Immutable scenario settings read from the rooms document. */
  datatype ScenarioConfig = ScenarioConfig(name: string, mode: string, starts: map<string, string>, intro: string)

  const DefaultMode: string := "meet"

  /** The `scenario` section, with the defaults: the directory name as the
      name, mode "meet", no start rooms and no intro; the intro loses its
      trailing whitespace. */
  function ParseConfig(doc: RoomsDoc, dirName: string): (c: ScenarioConfig)
    ensures doc.scenario.None? ==> c == ScenarioConfig(dirName, DefaultMode, map[], "")
    ensures doc.scenario.Some? ==>
      var s := doc.scenario.value;
      && c.name == (if s.name.Some? then s.name.value else dirName)
      && c.mode == (if s.mode.Some? then s.mode.value else DefaultMode)
      && c.starts == (if s.starts.Some? then s.starts.value else map[])
      && (s.intro.None? ==> c.intro == "")
      && (s.intro.Some? ==> |c.intro| <= |s.intro.value| && c.intro == s.intro.value[..|c.intro|]
                            && AllSpace(s.intro.value[|c.intro|..]))
    ensures c.intro != [] ==> !IsSpace(c.intro[|c.intro| - 1])
  {
    var s := doc.scenario.GetOr(ScenarioDoc(None, None, None, None));
    RStripSlice(s.intro.GetOr(""));
    ScenarioConfig(s.name.GetOr(dirName), s.mode.GetOr(DefaultMode), s.starts.GetOr(map[]),
      RStrip(s.intro.GetOr("")))
  }

  /** The id as written, stripped (a room's default display name). */
  function RawRoomId(r: RoomDoc): string
  {
    Strip(r.id.GetOr(""))
  }

  /** The key a room is stored under: its id stripped and lowercased. */
  function RoomKey(r: RoomDoc): (k: string)
    ensures k == "" <==> RawRoomId(r) == ""
  {
    ToLower(RawRoomId(r))
  }

  function ExitsOf(r: RoomDoc): seq<ExitDoc>
  {
    r.exits.GetOr([])
  }

  /** An exit's destination key: stripped and lowercased. */
  function DestKey(e: ExitDoc): string
  {
    ToLower(Strip(e.dest))
  }

  /** Every room has a non-empty id. */
  predicate AllRoomsHaveIds(rooms: seq<RoomDoc>)
  {
    forall i :: 0 <= i < |rooms| ==> RawRoomId(rooms[i]) != ""
  }

  /** The keys of all rooms; a repeated id is one key. */
  function RoomKeys(rooms: seq<RoomDoc>): set<string>
  {
    if rooms == [] then {} else RoomKeys(rooms[..|rooms| - 1]) + {RoomKey(rooms[|rooms| - 1])}
  }

  /** The position of the last room with key k, or -1 when there is none. The
      last one is the room whose location survives, since a repeated id
      overwrites. */
  function LastWithKey(rooms: seq<RoomDoc>, k: string): (i: int)
    ensures -1 <= i < |rooms|
    ensures i >= 0 ==> RoomKey(rooms[i]) == k
  {
    if rooms == [] then -1
    else if RoomKey(rooms[|rooms| - 1]) == k then |rooms| - 1
    else LastWithKey(rooms[..|rooms| - 1], k)
  }

  /** No room after LastWithKey has the key. */
  lemma {:induction false} LastWithKeyIsLast(rooms: seq<RoomDoc>, k: string, j: int)
    requires LastWithKey(rooms, k) < j < |rooms|
    ensures RoomKey(rooms[j]) != k
  {
    var n := |rooms| - 1;
    if j < n {
      LastWithKeyIsLast(rooms[..n], k, j);
      assert rooms[..n][j] == rooms[j];
    }
  }

  /** Every room's key is a key. */
  lemma {:induction false} InRoomKeys(rooms: seq<RoomDoc>, i: int)
    requires 0 <= i < |rooms|
    ensures RoomKey(rooms[i]) in RoomKeys(rooms)
  {
    var n := |rooms| - 1;
    if i < n {
      InRoomKeys(rooms[..n], i);
      assert rooms[..n][i] == rooms[i];
    }
  }

  /** The keys are exactly the keys some room has. */
  lemma {:induction false} RoomKeysExact(rooms: seq<RoomDoc>, k: string)
    ensures k in RoomKeys(rooms) <==> LastWithKey(rooms, k) >= 0
  {
    if rooms != [] {
      RoomKeysExact(rooms[..|rooms| - 1], k);
    }
  }

  /** An exit is acceptable when its destination is empty (skipped) or names a room. */
  predicate DestOk(e: ExitDoc, keys: set<string>)
  {
    DestKey(e) == "" || DestKey(e) in keys
  }

  /** No exit of one room dangles. */
  predicate ExitsOk(exits: seq<ExitDoc>, keys: set<string>)
  {
    forall b :: 0 <= b < |exits| ==> DestOk(exits[b], keys)
  }

  /** No exit of any room dangles. */
  predicate ExitsResolve(rooms: seq<RoomDoc>, keys: set<string>)
  {
    forall a :: 0 <= a < |rooms| ==> ExitsOk(ExitsOf(rooms[a]), keys)
  }

  /** The pairs (rid, dest) and (dest, rid) for the first exits of one room;
      an empty destination adds nothing. An undirected edge is stored as
      both orientations. */
  function RoomEdges(rid: string, exits: seq<ExitDoc>): set<(string, string)>
  {
    if exits == [] then {} else RoomEdges(rid, exits[..|exits| - 1]) + ExitEdges(rid, exits[|exits| - 1])
  }

  /** The edges one exit of room rid adds: none for an empty destination,
      otherwise the edge in both orientations. */
  function ExitEdges(rid: string, e: ExitDoc): set<(string, string)>
  {
    if DestKey(e) == "" then {} else {(rid, DestKey(e)), (DestKey(e), rid)}
  }

  /** The undirected edges that the exits of all rooms describe. */
  function AllEdges(rooms: seq<RoomDoc>): set<(string, string)>
  {
    if rooms == [] then {}
    else AllEdges(rooms[..|rooms| - 1]) + RoomEdges(RoomKey(rooms[|rooms| - 1]), ExitsOf(rooms[|rooms| - 1]))
  }

  /** The edge set is symmetric. */
  lemma {:induction false} RoomEdgesSymmetric(rid: string, exits: seq<ExitDoc>, a: string, b: string)
    ensures (a, b) in RoomEdges(rid, exits) <==> (b, a) in RoomEdges(rid, exits)
  {
    if exits != [] {
      RoomEdgesSymmetric(rid, exits[..|exits| - 1], a, b);
    }
  }

  lemma {:induction false} AllEdgesSymmetric(rooms: seq<RoomDoc>, a: string, b: string)
    ensures (a, b) in AllEdges(rooms) <==> (b, a) in AllEdges(rooms)
  {
    if rooms != [] {
      var n := |rooms| - 1;
      AllEdgesSymmetric(rooms[..n], a, b);
      RoomEdgesSymmetric(RoomKey(rooms[n]), ExitsOf(rooms[n]), a, b);
    }
  }

  /** Every pair of RoomEdges starts or ends at rid and the other end is a
      non-empty destination of one of the exits. */
  lemma {:induction false} RoomEdgesShape(rid: string, exits: seq<ExitDoc>, a: string, b: string)
    requires (a, b) in RoomEdges(rid, exits)
    ensures exists j :: (0 <= j < |exits| && DestKey(exits[j]) != "" &&
      ((a == rid && b == DestKey(exits[j])) || (b == rid && a == DestKey(exits[j]))))
  {
    var n := |exits| - 1;
    if (a, b) in RoomEdges(rid, exits[..n]) {
      RoomEdgesShape(rid, exits[..n], a, b);
      var j :| 0 <= j < n && DestKey(exits[..n][j]) != "" &&
        ((a == rid && b == DestKey(exits[..n][j])) || (b == rid && a == DestKey(exits[..n][j])));
      assert exits[..n][j] == exits[j];
    } else {
      assert DestKey(exits[n]) != "";
    }
  }

  /** Every accepted exit yields its edge in both orientations. */
  lemma {:induction false} ExitInRoomEdges(rid: string, exits: seq<ExitDoc>, j: int)
    requires 0 <= j < |exits| && DestKey(exits[j]) != ""
    ensures (rid, DestKey(exits[j])) in RoomEdges(rid, exits)
    ensures (DestKey(exits[j]), rid) in RoomEdges(rid, exits)
  {
    var n := |exits| - 1;
    if j < n {
      ExitInRoomEdges(rid, exits[..n], j);
      assert exits[..n][j] == exits[j];
    }
  }

  lemma {:induction false} ExitInAllEdges(rooms: seq<RoomDoc>, a: int, b: int)
    requires 0 <= a < |rooms| && 0 <= b < |ExitsOf(rooms[a])| && DestKey(ExitsOf(rooms[a])[b]) != ""
    ensures (RoomKey(rooms[a]), DestKey(ExitsOf(rooms[a])[b])) in AllEdges(rooms)
    ensures (DestKey(ExitsOf(rooms[a])[b]), RoomKey(rooms[a])) in AllEdges(rooms)
  {
    var n := |rooms| - 1;
    if a < n {
      assert rooms[..n][a] == rooms[a];
      ExitInAllEdges(rooms[..n], a, b);
    } else {
      ExitInRoomEdges(RoomKey(rooms[a]), ExitsOf(rooms[a]), b);
    }
  }

  /** When no exit dangles, both ends of every edge are room keys. */
  lemma {:induction false} EdgesWithinKeys(rooms: seq<RoomDoc>, keys: set<string>, x: string, y: string)
    requires ExitsResolve(rooms, keys) && RoomKeys(rooms) <= keys
    requires (x, y) in AllEdges(rooms)
    ensures x in keys && y in keys
  {
    var n := |rooms| - 1;
    var pre := rooms[..n];
    assert forall i :: 0 <= i < n ==> pre[i] == rooms[i];
    if (x, y) in AllEdges(pre) {
      assert RoomKeys(pre) <= keys by {
        forall k | k in RoomKeys(pre) ensures k in keys {
          RoomKeysExact(pre, k);
          var i := LastWithKey(pre, k);
          assert pre[i] == rooms[i];
          InRoomKeys(rooms, i);
        }
      }
      assert ExitsResolve(pre, keys) by {
        forall a | 0 <= a < n ensures ExitsOk(ExitsOf(pre[a]), keys) {
          assert ExitsOk(ExitsOf(rooms[a]), keys);
        }
      }
      EdgesWithinKeys(pre, keys, x, y);
    } else {
      var ex := ExitsOf(rooms[n]);
      RoomEdgesShape(RoomKey(rooms[n]), ex, x, y);
      var j :| 0 <= j < |ex| && DestKey(ex[j]) != "" &&
        ((x == RoomKey(rooms[n]) && y == DestKey(ex[j])) || (y == RoomKey(rooms[n]) && x == DestKey(ex[j])));
      assert ExitsOk(ex, keys);
      assert DestOk(ex[j], keys);
    }
  }

  /** The key of an item: its id stripped and lowercased. */
  function ItemKey(d: ItemDoc): string
  {
    ToLower(Strip(d.id.GetOr("")))
  }

  /** The room an item is placed in: its location stripped and lowercased. */
  function ItemLocation(d: ItemDoc): string
  {
    ToLower(Strip(d.location.GetOr("")))
  }

  /** The item an item definition makes: name defaults to the key, the
      description to empty and the tags to none. */
  function MakeItem(d: ItemDoc): (it: Item)
    ensures it.id == ItemKey(d)
    ensures d.name.None? ==> it.name == ItemKey(d)
    ensures d.tags.None? ==> it.tags == []
  {
    Item(ItemKey(d), d.name.GetOr(ItemKey(d)), d.description.GetOr(""), d.tags.GetOr([]))
  }

  /** An item definition is accepted: a non-empty id and a location that names a room. */
  predicate ItemOk(d: ItemDoc, keys: set<string>)
  {
    ItemKey(d) != "" && ItemLocation(d) != "" && ItemLocation(d) in keys
  }

  predicate AllItemsOk(docs: seq<ItemDoc>, keys: set<string>)
  {
    forall i :: 0 <= i < |docs| ==> ItemOk(docs[i], keys)
  }

  /** The items, in document order, that the definitions place in room k. */
  function ItemsAt(docs: seq<ItemDoc>, k: string): (items: seq<Item>)
    ensures |items| <= |docs|
  {
    if docs == [] then []
    else
      var d := docs[|docs| - 1];
      ItemsAt(docs[..|docs| - 1], k) + (if ItemLocation(d) == k then [MakeItem(d)] else [])
  }

  /** Every item placed in room k comes from a definition that names k. */
  lemma {:induction false} ItemsAtFromDocs(docs: seq<ItemDoc>, k: string, it: Item)
    requires it in ItemsAt(docs, k)
    ensures exists i :: 0 <= i < |docs| && ItemLocation(docs[i]) == k && MakeItem(docs[i]) == it
  {
    var n := |docs| - 1;
    if it in ItemsAt(docs[..n], k) {
      ItemsAtFromDocs(docs[..n], k, it);
      var i :| 0 <= i < n && ItemLocation(docs[..n][i]) == k && MakeItem(docs[..n][i]) == it;
      assert docs[..n][i] == docs[i];
    }
  }

  /** Every accepted definition's item is among the items of its room. */
  lemma {:induction false} DocInItemsAt(docs: seq<ItemDoc>, i: int)
    requires 0 <= i < |docs|
    ensures MakeItem(docs[i]) in ItemsAt(docs, ItemLocation(docs[i]))
  {
    var n := |docs| - 1;
    if i < n {
      DocInItemsAt(docs[..n], i);
      assert docs[..n][i] == docs[i];
    }
  }

  /** One more room document: its key joins the keys. */
  lemma KeysStep(rooms: seq<RoomDoc>, i: int)
    requires 0 <= i < |rooms|
    ensures RoomKeys(rooms[..i + 1]) == RoomKeys(rooms[..i]) + {RoomKey(rooms[i])}
  {
    assert rooms[..i + 1][..i] == rooms[..i];
  }

  /** One more room document becomes the last room with its key. */
  lemma LastStep(rooms: seq<RoomDoc>, i: int, k: string)
    requires 0 <= i < |rooms|
    ensures LastWithKey(rooms[..i + 1], k) ==
      if RoomKey(rooms[i]) == k then i else LastWithKey(rooms[..i], k)
  {
    assert rooms[..i + 1][..i] == rooms[..i];
  }

  /** One more room document adds the edges of its exits. */
  lemma EdgesStep(rooms: seq<RoomDoc>, i: int)
    requires 0 <= i < |rooms|
    ensures AllEdges(rooms[..i + 1]) == AllEdges(rooms[..i]) + RoomEdges(RoomKey(rooms[i]), ExitsOf(rooms[i]))
  {
    assert rooms[..i + 1][..i] == rooms[..i];
  }

  /** One more exit of a room. */
  lemma ExitStep(rid: string, exits: seq<ExitDoc>, j: int)
    requires 0 <= j < |exits|
    ensures RoomEdges(rid, exits[..j + 1]) == RoomEdges(rid, exits[..j]) + ExitEdges(rid, exits[j])
  {
    assert exits[..j + 1][..j] == exits[..j];
  }

  /** One more item definition. */
  lemma ItemStep(docs: seq<ItemDoc>, i: int, k: string)
    requires 0 <= i < |docs|
    ensures ItemsAt(docs[..i + 1], k) == ItemsAt(docs[..i], k) +
      (if ItemLocation(docs[i]) == k then [MakeItem(docs[i])] else [])
  {
    assert docs[..i + 1][..i] == docs[..i];
  }
}
