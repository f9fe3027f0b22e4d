/**
 * The run-state store (useGameState.tsx): player position, health, level and
 * experience, the current floor with its dungeon and monsters, and the drops
 * waiting to be handed to the inventory. Every random draw and clock reading
 * the actions make is an argument.
 */
module GameStateStore {
  import opened GameTypes
  import opened TextUtil
  import opened DungeonGenerator
  import opened SeqUtil

  /** Every floor is generated on a 20 x 20 grid centred on the world origin. */
  const GridSize := 20
  const MaxHealth := 100
  const ExpPerLevel := 100
  /** The fixed damage of one player attack. */
  const PlayerAttack := 20
  const KillExp := 10
  const FirstFloorMonsters := 5
  const SpawnTries := 100
  const MonsterKinds: seq<string> := ["goblin", "orc", "skeleton"]

  // ---------------------------------------------------------------- drops

  /** One line of the drop table; its chance is kept as data, the roll comes from outside. */
  datatype DropEntry = DropEntry(name: string, icon: string, chancePercent: int)

  const DropTable: seq<DropEntry> := [
    DropEntry("Magic Shard", "💎", 30),
    DropEntry("Iron Ore", "⚡", 40),
    DropEntry("Ancient Bone", "🦴", 20),
    DropEntry("Dark Crystal", "🔮", 10)
  ]

  /** `${name.toLowerCase().replace(' ', '-')}-${Date.now()}` */
  function DropId(name: string, now: nat): string
  {
    ReplaceFirst(ToLower(name), ' ', '-') + "-" + NatToString(now)
  }

  /** Drops of one material picked up at different instants get different ids. */
  lemma DropIdsDistinct(name: string, now: nat, now': nat)
    requires now != now'
    ensures DropId(name, now) != DropId(name, now')
  {
    PrefixedNumbersDistinct(ReplaceFirst(ToLower(name), ' ', '-') + "-", now, now');
  }

  /** A drop id starts with the lower-cased first letter of the material's name. */
  lemma DropIdHead(name: string, now: nat)
    requires |name| > 0 && name[0] != ' '
    ensures |DropId(name, now)| > 0 && DropId(name, now)[0] == LowerChar(name[0])
  {
    var lowered := ToLower(name);
    assert lowered[0] == LowerChar(name[0]) != ' ';
    assert ReplaceFirst(lowered, ' ', '-')[0] == lowered[0];
  }

  /** Names whose lower-cased first letters differ give different drop ids at the same instant. */
  lemma DropIdsOfDifferentHeads(a: string, b: string, now: nat)
    requires |a| > 0 && |b| > 0 && a[0] != ' ' && b[0] != ' '
    requires LowerChar(a[0]) != LowerChar(b[0])
    ensures DropId(a, now) != DropId(b, now)
  {
    DropIdHead(a, now);
    DropIdHead(b, now);
  }

  /** The drops of one kill share a clock reading, yet their ids differ: the table's names start with different letters. */
  lemma DropTableIdsDistinct(now: nat, i: int, j: int)
    requires 0 <= i < |DropTable| && 0 <= j < |DropTable| && i != j
    ensures DropId(DropTable[i].name, now) != DropId(DropTable[j].name, now)
  {
    var a, b := DropTable[i].name, DropTable[j].name;
    assert a[0] != b[0] && 'A' <= a[0] <= 'Z' && 'A' <= b[0] <= 'Z';
    DropIdsOfDifferentHeads(a, b, now);
  }

  function DropItem(e: DropEntry, kind: string, now: nat): Item
  {
    Item(DropId(e.name, now), e.name, Material, e.icon, 1, "Dropped by " + kind, None)
  }

  /** Reference definition of a kill's drops: one item per entry whose roll came up, in table order. */
  function Rolled(table: seq<DropEntry>, rolls: seq<bool>, kind: string, now: nat): seq<Item>
    requires |rolls| == |table|
    decreases |table|
  {
    if table == [] then []
    else
      var n := |table|;
      Rolled(table[..n - 1], rolls[..n - 1], kind, now) + (if rolls[n - 1] then [DropItem(table[n - 1], kind, now)] else [])
  }

  /** How many of the rolls came up. */
  function CountTrue(rolls: seq<bool>): nat
    decreases |rolls|
  {
    if rolls == [] then 0 else CountTrue(rolls[..|rolls| - 1]) + (if rolls[|rolls| - 1] then 1 else 0)
  }

  /**
   * A kill yields exactly one item per table entry whose roll came up, so never
   * more than the table has entries, each a single unit of material.
   */
  lemma {:induction false} RolledMaterials(table: seq<DropEntry>, rolls: seq<bool>, kind: string, now: nat)
    requires |rolls| == |table|
    ensures |Rolled(table, rolls, kind, now)| == CountTrue(rolls)
    ensures |Rolled(table, rolls, kind, now)| <= |table|
    ensures forall it :: it in Rolled(table, rolls, kind, now) ==> it.itemType == Material && it.quantity == 1
    decreases |table|
  {
    if table != [] {
      RolledMaterials(table[..|table| - 1], rolls[..|rolls| - 1], kind, now);
    }
  }

  /** Every dropped item is the item of a table entry whose roll came up. */
  lemma {:induction false} RolledOnlyRolled(table: seq<DropEntry>, rolls: seq<bool>, kind: string, now: nat, it: Item)
    requires |rolls| == |table|
    requires it in Rolled(table, rolls, kind, now)
    ensures exists j :: 0 <= j < |table| && rolls[j] && it == DropItem(table[j], kind, now)
    decreases |table|
  {
    var n := |table|;
    var t', r' := table[..n - 1], rolls[..n - 1];
    var last := if rolls[n - 1] then [DropItem(table[n - 1], kind, now)] else [];
    assert Rolled(table, rolls, kind, now) == Rolled(t', r', kind, now) + last;
    if it in Rolled(t', r', kind, now) {
      RolledOnlyRolled(t', r', kind, now, it);
      var j :| 0 <= j < |t'| && r'[j] && it == DropItem(t'[j], kind, now);
      assert rolls[j] && table[j] == t'[j];
    } else {
      assert rolls[n - 1] && it == DropItem(table[n - 1], kind, now);
    }
  }

  /** The item of every table entry whose roll came up is among the drops. */
  lemma {:induction false} RolledAllRolled(table: seq<DropEntry>, rolls: seq<bool>, kind: string, now: nat, j: int)
    requires |rolls| == |table|
    requires 0 <= j < |table| && rolls[j]
    ensures DropItem(table[j], kind, now) in Rolled(table, rolls, kind, now)
    decreases |table|
  {
    var n := |table|;
    var before := Rolled(table[..n - 1], rolls[..n - 1], kind, now);
    var last := if rolls[n - 1] then [DropItem(table[n - 1], kind, now)] else [];
    assert Rolled(table, rolls, kind, now) == before + last;
    if j < n - 1 {
      assert table[..n - 1][j] == table[j] && rolls[..n - 1][j];
      RolledAllRolled(table[..n - 1], rolls[..n - 1], kind, now, j);
      assert DropItem(table[j], kind, now) in before;
    } else {
      assert last == [DropItem(table[j], kind, now)];
    }
  }

  /** The drop table names four different materials; with RolledMaterials, a kill never yields the same material twice. */
  lemma DropTableNamesDistinct()
    ensures forall i, j :: 0 <= i < j < |DropTable| ==> DropTable[i].name != DropTable[j].name
  {
  }

  /** The forEach over the drop table that builds a kill's drops. */
  method RollDrops(table: seq<DropEntry>, kind: string, rolls: seq<bool>, now: nat) returns (drops: seq<Item>)
    requires |rolls| == |table|
    ensures drops == Rolled(table, rolls, kind, now)
  {
    drops := [];
    var i := 0;
    while i < |table|
      invariant 0 <= i <= |table|
      invariant drops == Rolled(table[..i], rolls[..i], kind, now)
    {
      assert table[..i + 1][..i] == table[..i] && rolls[..i + 1][..i] == rolls[..i];
      if rolls[i] {
        drops := drops + [DropItem(table[i], kind, now)];
      }
      i := i + 1;
    }
    assert table[..i] == table && rolls[..i] == rolls;
  }

  // ---------------------------------------------------------------- spawning

  /** The Math.random draws behind one monster: up to 100 candidate spots, then the fallback and its type. */
  datatype SpawnDraw = SpawnDraw(tries: seq<(real, real)>, roomPick: real, offX: real, offY: real, kindPick: real)

  predicate IsSpawnDraw(s: SpawnDraw)
  {
    |s.tries| == SpawnTries &&
    (forall t :: 0 <= t < |s.tries| ==> IsDraw(s.tries[t].0) && IsDraw(s.tries[t].1)) &&
    IsDraw(s.roomPick) && IsDraw(s.offX) && IsDraw(s.offY) && IsDraw(s.kindPick)
  }

  /** `Math.random() * 18 - 9` on both axes. */
  function Candidate(t: (real, real)): Position
  {
    Position(t.0 * 18.0 - 9.0, t.1 * 18.0 - 9.0)
  }

  /** Math.floor(v + 10): the grid index under a world coordinate. */
  function GridCell(v: real): int { (v + 10.0).Floor }

  predicate InGrid(d: Dungeon, gx: int, gy: int) { 0 <= gx < d.width && 0 <= gy < d.height }

  /** `tiles[gx] && tiles[gx][gy] === kind`: a missing column or cell matches nothing. */
  predicate TileIs(d: Dungeon, gx: int, gy: int, kind: int)
  {
    0 <= gx < |d.tiles| && 0 <= gy < |d.tiles[gx]| && d.tiles[gx][gy] == kind
  }

  /** A candidate is kept when it is on a floor tile and outside the 2-unit square around the spawn point. */
  predicate SpawnOk(d: Dungeon, p: Position)
  {
    InGrid(d, GridCell(p.x), GridCell(p.y)) && TileIs(d, GridCell(p.x), GridCell(p.y), Floor) &&
    (p.x > 2.0 || p.x < -2.0 || p.y > 2.0 || p.y < -2.0)
  }

  /** The first acceptable candidate, or -1 when none is. */
  function FirstSpawn(d: Dungeon, tries: seq<(real, real)>): (t: int)
    ensures -1 <= t < |tries|
    ensures t == -1 <==> forall u :: 0 <= u < |tries| ==> !SpawnOk(d, Candidate(tries[u]))
    ensures t >= 0 ==> SpawnOk(d, Candidate(tries[t])) && forall u :: 0 <= u < t ==> !SpawnOk(d, Candidate(tries[u]))
  {
    if tries == [] then -1
    else if SpawnOk(d, Candidate(tries[0])) then 0
    else
      var t := FirstSpawn(d, tries[1..]);
      if t < 0 then -1 else t + 1
  }

  /** The world-space area a fallback spot in room `r` can take: offset 1 to width - 1 inside it. */
  predicate InRoomWorld(r: Room, p: Position)
  {
    (r.x - 9) as real <= p.x <= (r.x + r.width - 11) as real &&
    (r.y - 9) as real <= p.y <= (r.y + r.height - 11) as real
  }

  /** One axis of the fallback spot lies between 1 and size - 1 cells past the room's start. */
  lemma FallbackAxis(start: int, size: int, r: real)
    requires IsDraw(r) && size >= 2
    ensures (start - 9) as real <= start as real + r * (size - 2) as real + 1.0 - 10.0 <= (start + size - 11) as real
  {
    DrawTimesNonNegative(r, (size - 2) as real);
  }

  /**
   * Where a spawn draw puts a monster: the first acceptable candidate; failing
   * that, a spot inside the room the draw picks; failing that (no rooms), the
   * last candidate tried.
   */
  ghost predicate SpawnSpot(d: Dungeon, s: SpawnDraw, p: Position)
    requires IsSpawnDraw(s) && RoomsRoomy(d)
  {
    var t := FirstSpawn(d, s.tries);
    if t >= 0 then p == Candidate(s.tries[t])
    else if |d.rooms| > 0 then
      ScaledRange(s.roomPick, |d.rooms|);
      p == FallbackSpot(d.rooms[Scaled(s.roomPick, |d.rooms|)], s.offX, s.offY)
    else p == Candidate(s.tries[SpawnTries - 1])
  }

  predicate RoomsRoomy(d: Dungeon)
  {
    forall k :: 0 <= k < |d.rooms| ==> d.rooms[k].width >= 2 && d.rooms[k].height >= 2
  }

  /** The bounded retry loop: the first acceptable candidate, or the last one tried when none is. */
  method TrySpots(d: Dungeon, tries: seq<(real, real)>) returns (valid: bool, p: Position)
    requires |tries| == SpawnTries
    ensures valid <==> FirstSpawn(d, tries) >= 0
    ensures valid ==> p == Candidate(tries[FirstSpawn(d, tries)])
    ensures !valid ==> p == Candidate(tries[SpawnTries - 1])
  {
    var attempts := 0;
    valid := false;
    p := Position(0.0, 0.0);
    while !valid && attempts < SpawnTries
      invariant 0 <= attempts <= SpawnTries
      invariant attempts > 0 ==> p == Candidate(tries[attempts - 1])
      invariant valid ==> attempts > 0 && FirstSpawn(d, tries) == attempts - 1
      invariant !valid ==> forall u :: 0 <= u < attempts ==> !SpawnOk(d, Candidate(tries[u]))
    {
      p := Position(tries[attempts].0 * 18.0 - 9.0, tries[attempts].1 * 18.0 - 9.0);
      if SpawnOk(d, p) {
        valid := true;
      }
      attempts := attempts + 1;
    }
  }

  /** The fallback spot: `room.x + Math.random() * (room.width - 2) + 1`, shifted to world coordinates. */
  function FallbackSpot(room: Room, offX: real, offY: real): (p: Position)
    requires IsDraw(offX) && IsDraw(offY)
    requires room.width >= 2 && room.height >= 2
    ensures InRoomWorld(room, p)
  {
    FallbackAxis(room.x, room.width, offX);
    FallbackAxis(room.y, room.height, offY);
    Position(room.x as real + offX * (room.width - 2) as real + 1.0 - 10.0,
             room.y as real + offY * (room.height - 2) as real + 1.0 - 10.0)
  }

  /** The retry loop and the fallback of generateMonsters, for one monster. */
  method SpawnPosition(d: Dungeon, s: SpawnDraw) returns (p: Position)
    requires IsSpawnDraw(s)
    requires RoomsRoomy(d)
    ensures SpawnSpot(d, s, p)
  {
    var valid;
    valid, p := TrySpots(d, s.tries);
    if !valid && |d.rooms| > 0 {
      ScaledRange(s.roomPick, |d.rooms|);
      p := FallbackSpot(d.rooms[Scaled(s.roomPick, |d.rooms|)], s.offX, s.offY);
    }
  }

  /** Where a spawn spot lies, whichever way it was found. */
  lemma SpawnSpotKinds(d: Dungeon, s: SpawnDraw, p: Position)
    requires IsSpawnDraw(s) && RoomsRoomy(d) && SpawnSpot(d, s, p)
    ensures SpawnOk(d, p) || (exists k :: 0 <= k < |d.rooms| && InRoomWorld(d.rooms[k], p)) ||
      (|d.rooms| == 0 && -9.0 <= p.x < 9.0 && -9.0 <= p.y < 9.0)
  {
    var t := FirstSpawn(d, s.tries);
    if t < 0 && |d.rooms| > 0 {
      ScaledRange(s.roomPick, |d.rooms|);
    } else if t < 0 {
      assert IsDraw(s.tries[SpawnTries - 1].0) && IsDraw(s.tries[SpawnTries - 1].1);
    }
  }

  function MonsterId(i: nat): string { "monster-" + NatToString(i) }

  /** Monster number `i` of a floor, spawned from draw `s`. */
  ghost predicate Spawned(d: Dungeon, floor: int, s: SpawnDraw, i: nat, m: Monster)
    requires IsSpawnDraw(s) && RoomsRoomy(d)
  {
    ScaledRange(s.kindPick, |MonsterKinds|);
    m.id == MonsterId(i) && m.kind == MonsterKinds[Scaled(s.kindPick, |MonsterKinds|)] &&
    SpawnSpot(d, s, m.position) && m.health == 50 + 10 * floor && m.damage == 10 + 2 * floor
  }

  /**
   * generateMonsters(count, floor, dungeon): `count` monsters with ids
   * monster-0, monster-1, ..., health 50 + 10 * floor and damage 10 + 2 * floor.
   */
  method GenerateMonsters(count: nat, floor: int, d: Dungeon, draws: seq<SpawnDraw>) returns (monsters: seq<Monster>)
    requires |draws| == count
    requires forall i :: 0 <= i < count ==> IsSpawnDraw(draws[i])
    requires RoomsRoomy(d)
    ensures |monsters| == count
    ensures forall i :: 0 <= i < count ==> Spawned(d, floor, draws[i], i, monsters[i])
    ensures forall i :: 0 <= i < count ==>
      monsters[i].id == MonsterId(i) && monsters[i].kind in MonsterKinds &&
      monsters[i].health == 50 + 10 * floor && monsters[i].damage == 10 + 2 * floor
    ensures forall i, j :: 0 <= i < j < count ==> monsters[i].id != monsters[j].id
  {
    monsters := [];
    var i := 0;
    while i < count
      invariant 0 <= i <= count && |monsters| == i
      invariant forall j :: 0 <= j < i ==> Spawned(d, floor, draws[j], j, monsters[j])
    {
      var p := SpawnPosition(d, draws[i]);
      ScaledRange(draws[i].kindPick, |MonsterKinds|);
      var kind := MonsterKinds[Scaled(draws[i].kindPick, |MonsterKinds|)];
      monsters := monsters + [Monster(MonsterId(i), kind, p, 50 + floor * 10, 10 + floor * 2)];
      i := i + 1;
    }
    forall i, j | 0 <= i < j < count
      ensures monsters[i].id != monsters[j].id
    {
      PrefixedNumbersDistinct("monster-", i, j);
    }
  }

  // ---------------------------------------------------------------- run state

  /** The first room's centre in world coordinates, or the origin when there is no room. */
  function StartPosition(d: Dungeon): (p: Position)
    ensures |d.rooms| == 0 ==> p == Position(0.0, 0.0)
    ensures |d.rooms| > 0 ==> GridCell(p.x) == CenterX(d.rooms[0]) && GridCell(p.y) == CenterY(d.rooms[0])
  {
    if |d.rooms| > 0 then
      var first := d.rooms[0];
      Position((CenterX(first) - 10) as real, (CenterY(first) - 10) as real)
    else Position(0.0, 0.0)
  }

  /**
   * gainExp's arithmetic: reaching 100 converts 100 experience into one level,
   * once per call; experience plus 100 per level is conserved either way.
   */
  function LevelUp(exp: int, level: int, gained: int): (r: (int, int))
    ensures r.0 + ExpPerLevel * r.1 == exp + gained + ExpPerLevel * level
    ensures r.1 == level || r.1 == level + 1
    ensures r.1 == level + 1 <==> exp + gained >= ExpPerLevel
  {
    var total := exp + gained;
    if total >= ExpPerLevel then (total - ExpPerLevel, level + 1) else (total, level)
  }

  /** `monsters.find(m => m.id === id)` as an index, or -1. */
  function IndexOfMonster(monsters: seq<Monster>, id: string): int
  {
    FirstWhere(monsters, (m: Monster) => m.id == id)
  }

  /** `monsters.filter(m => m.id !== id)` */
  function WithoutMonster(monsters: seq<Monster>, id: string): seq<Monster>
  {
    Keep(monsters, (m: Monster) => m.id != id)
  }

  /** The play area's fixed bound, half the default grid less half a cell. */
  predicate InPlayArea(x: real, y: real)
  {
    -9.5 <= x <= 9.5 && -9.5 <= y <= 9.5
  }

  /** The layout check of movePlayer: the target cell is off the grid or a wall. */
  predicate Blocked(layout: Option<Dungeon>, x: real, y: real)
  {
    layout.Some? &&
    (!InGrid(layout.value, GridCell(x), GridCell(y)) || TileIs(layout.value, GridCell(x), GridCell(y), Wall))
  }

  predicate CanMoveTo(layout: Option<Dungeon>, x: real, y: real)
  {
    InPlayArea(x, y) && !Blocked(layout, x, y)
  }

  /** On a well-formed grid an accepted move always lands on a floor cell. */
  lemma AcceptedMoveLandsOnFloor(d: Dungeon, x: real, y: real)
    requires WellFormedGrid(d.width, d.height, d.tiles)
    requires CanMoveTo(Some(d), x, y)
    ensures TileIs(d, GridCell(x), GridCell(y), Floor)
  {
  }

  /**
   * What a freshly generated floor satisfies: a 20 x 20 grid whose rooms are
   * the reference placement and whose floor cells are exactly the rooms'
   * cells plus the corridors between consecutive rooms.
   */
  ghost predicate FreshFloor(d: Dungeon, floor: int, draws: seq<RoomDraw>)
    requires forall k :: 0 <= k < |draws| ==> IsRoomDraw(draws[k])
  {
    d.width == GridSize && d.height == GridSize && RoomsRoomy(d) &&
    WellFormedGrid(GridSize, GridSize, d.tiles) &&
    d.rooms == PlacedRooms(GridSize, GridSize, floor, draws) &&
    ValidRooms(GridSize, GridSize, d.rooms) &&
    (forall x, y :: 0 <= x < GridSize && 0 <= y < GridSize ==>
      (d.tiles[x][y] == Floor <==> InAnyRoom(d.rooms, x, y) || OnJoinedPath(d.rooms, |d.rooms| - 1, x, y))) &&
    (|d.rooms| > 0 ==> TileIs(d, GridCell(StartPosition(d).x), GridCell(StartPosition(d).y), Floor))
  }

  /** Generates a floor's dungeon and checks the start spot is floor. */
  method NewFloor(floor: int, draws: seq<RoomDraw>) returns (d: Dungeon)
    requires |draws| == Attempts
    requires forall k :: 0 <= k < |draws| ==> IsRoomDraw(draws[k])
    ensures FreshFloor(d, floor, draws) && RoomsRoomy(d)
  {
    d := GenerateDungeon(GridSize, GridSize, floor, draws);
    if |d.rooms| > 0 {
      var first := d.rooms[0];
      assert InRoom(first, CenterX(first), CenterY(first));
    }
  }

  /** The two-cell band along the edges of the grid, which the generator keeps clear of rooms. */
  predicate InBorder(x: int, y: int)
  {
    x < 2 || y < 2 || x >= GridSize - 2 || y >= GridSize - 2
  }

  /** No cell of a room placed inside the margin lies in the border band. */
  lemma RoomsAvoidBorder(rooms: seq<Room>, x: int, y: int)
    requires ValidRooms(GridSize, GridSize, rooms)
    requires InBorder(x, y)
    ensures !InAnyRoom(rooms, x, y)
  {
    forall k | 0 <= k < |rooms|
      ensures !InRoom(rooms[k], x, y)
    {
      assert InBounds(GridSize, GridSize, rooms[k]);
    }
  }

  /** No corridor between the centres of two rooms placed inside the margin touches the border band. */
  lemma CorridorsAvoidBorder(rooms: seq<Room>, x: int, y: int)
    requires ValidRooms(GridSize, GridSize, rooms)
    requires InBorder(x, y)
    ensures !OnJoinedPath(rooms, |rooms| - 1, x, y)
  {
    forall k | 0 <= k < |rooms| - 1
      ensures !Joins(rooms[k], rooms[k + 1], x, y)
    {
      assert InBounds(GridSize, GridSize, rooms[k]) && InBounds(GridSize, GridSize, rooms[k + 1]);
    }
  }

  /** On a fresh floor every cell of the border band is wall, so the grid is not all floor. */
  lemma FreshFloorBorderIsWall(d: Dungeon, floor: int, draws: seq<RoomDraw>, x: int, y: int)
    requires forall k :: 0 <= k < |draws| ==> IsRoomDraw(draws[k])
    requires FreshFloor(d, floor, draws)
    requires 0 <= x < GridSize && 0 <= y < GridSize && InBorder(x, y)
    ensures d.tiles[x][y] == Wall
  {
    RoomsAvoidBorder(d.rooms, x, y);
    CorridorsAvoidBorder(d.rooms, x, y);
  }

  class GameState {
    var gamePhase: GamePhase
    var playerPosition: Position
    var playerHealth: int
    var playerLevel: int
    var playerExp: int
    var currentFloor: int
    var dungeonLayout: Option<Dungeon>
    var monsters: seq<Monster>
    var pendingDrops: seq<Item>

    /** The store before the first game: origin, full health, level 1, floor 1, no dungeon. */
    constructor ()
      ensures gamePhase == Ready && playerPosition == Position(0.0, 0.0)
      ensures playerHealth == MaxHealth && playerLevel == 1 && playerExp == 0
      ensures currentFloor == 1 && dungeonLayout == None && monsters == [] && pendingDrops == []
    {
      gamePhase := Ready;
      playerPosition := Position(0.0, 0.0);
      playerHealth := MaxHealth;
      playerLevel := 1;
      playerExp := 0;
      currentFloor := 1;
      dungeonLayout := None;
      monsters := [];
      pendingDrops := [];
    }

    method SetGamePhase(phase: GamePhase)
      modifies this`gamePhase
      ensures gamePhase == phase
    {
      gamePhase := phase;
    }

    /**
     * initializeGame: floor 1 on a fresh 20 x 20 dungeon, the player at the first
     * room's centre (a floor cell) or the origin, five monsters, full health,
     * level 1, no experience, phase ready. Pending drops are left alone.
     */
    method InitializeGame(draws: seq<RoomDraw>, spawns: seq<SpawnDraw>)
      requires |draws| == Attempts && forall k :: 0 <= k < |draws| ==> IsRoomDraw(draws[k])
      requires |spawns| == FirstFloorMonsters && forall i :: 0 <= i < |spawns| ==> IsSpawnDraw(spawns[i])
      modifies this`playerPosition, this`playerHealth, this`playerLevel, this`playerExp
      modifies this`currentFloor, this`dungeonLayout, this`monsters, this`gamePhase
      ensures gamePhase == Ready && playerHealth == MaxHealth && playerLevel == 1 && playerExp == 0
      ensures currentFloor == 1 && dungeonLayout.Some? && FreshFloor(dungeonLayout.value, 1, draws)
      ensures playerPosition == StartPosition(dungeonLayout.value)
      ensures |monsters| == FirstFloorMonsters
      ensures forall i :: 0 <= i < |monsters| ==> Spawned(dungeonLayout.value, 1, spawns[i], i, monsters[i])
    {
      var dungeon := NewFloor(1, draws);
      var start := StartPosition(dungeon);
      var spawned := GenerateMonsters(FirstFloorMonsters, 1, dungeon, spawns);
      playerPosition := start;
      playerHealth := MaxHealth;
      playerLevel := 1;
      playerExp := 0;
      currentFloor := 1;
      dungeonLayout := Some(dungeon);
      monsters := spawned;
      gamePhase := Ready;
    }

    /** resetRun: starts over exactly as initializeGame does. */
    method ResetRun(draws: seq<RoomDraw>, spawns: seq<SpawnDraw>)
      requires |draws| == Attempts && forall k :: 0 <= k < |draws| ==> IsRoomDraw(draws[k])
      requires |spawns| == FirstFloorMonsters && forall i :: 0 <= i < |spawns| ==> IsSpawnDraw(spawns[i])
      modifies this`playerPosition, this`playerHealth, this`playerLevel, this`playerExp
      modifies this`currentFloor, this`dungeonLayout, this`monsters, this`gamePhase
      ensures gamePhase == Ready && playerHealth == MaxHealth && playerLevel == 1 && playerExp == 0
      ensures currentFloor == 1 && dungeonLayout.Some? && FreshFloor(dungeonLayout.value, 1, draws)
      ensures playerPosition == StartPosition(dungeonLayout.value)
      ensures |monsters| == FirstFloorMonsters
      ensures forall i :: 0 <= i < |monsters| ==> Spawned(dungeonLayout.value, 1, spawns[i], i, monsters[i])
    {
      InitializeGame(draws, spawns);
    }

    /**
     * movePlayer(dx, dy): the move is vetoed, changing nothing, when the target
     * leaves the play area or (with a layout) lands off the grid or on a wall.
     */
    method MovePlayer(dx: real, dy: real)
      modifies this`playerPosition
      ensures var x, y := old(playerPosition.x) + dx, old(playerPosition.y) + dy;
        playerPosition == if CanMoveTo(dungeonLayout, x, y) then Position(x, y) else old(playerPosition)
    {
      var newX := playerPosition.x + dx;
      var newY := playerPosition.y + dy;
      if newX < -9.5 || newX > 9.5 || newY < -9.5 || newY > 9.5 {
        return;
      }
      if dungeonLayout.Some? {
        var d := dungeonLayout.value;
        var gridX := (newX + 10.0).Floor;
        var gridY := (newY + 10.0).Floor;
        if 0 <= gridX < d.width && 0 <= gridY < d.height {
          if gridX < |d.tiles| && gridY < |d.tiles[gridX]| && d.tiles[gridX][gridY] == Wall {
            return;
          }
        } else {
          return;
        }
      }
      playerPosition := Position(newX, newY);
    }

    /** takeDamage: health drops to max(0, health - damage); reaching 0 ends the run. */
    method TakeDamage(damage: int)
      modifies this`playerHealth, this`gamePhase
      ensures playerHealth == if old(playerHealth) - damage > 0 then old(playerHealth) - damage else 0
      ensures gamePhase == if playerHealth == 0 then GameOver else old(gamePhase)
      ensures 0 <= old(playerHealth) <= MaxHealth && damage >= 0 ==> 0 <= playerHealth <= old(playerHealth)
    {
      var newHealth := if 0 > playerHealth - damage then 0 else playerHealth - damage;
      playerHealth := newHealth;
      if newHealth <= 0 {
        gamePhase := GameOver;
      }
    }

    /** healPlayer: health rises to min(100, health + amount). */
    method HealPlayer(amount: int)
      modifies this`playerHealth
      ensures playerHealth == if old(playerHealth) + amount < MaxHealth then old(playerHealth) + amount else MaxHealth
      ensures playerHealth <= MaxHealth
      ensures amount >= MaxHealth - old(playerHealth) ==> playerHealth == MaxHealth
    {
      playerHealth := if MaxHealth < playerHealth + amount then MaxHealth else playerHealth + amount;
    }

    /** gainExp: adds the experience and converts 100 of it into a level, at most once per call. */
    method GainExp(exp: int)
      modifies this`playerExp, this`playerLevel
      ensures (playerExp, playerLevel) == LevelUp(old(playerExp), old(playerLevel), exp)
    {
      var newExp := playerExp + exp;
      if newExp >= ExpPerLevel {
        playerExp, playerLevel := newExp - ExpPerLevel, playerLevel + 1;
      } else {
        playerExp := newExp;
      }
    }

    /**
     * attackMonster(id) with the four drop rolls and the clock: an unknown id
     * changes nothing; otherwise the first monster with that id loses 20 health,
     * and if that kills it the drops are replaced by the rolled ones, every
     * monster with that id is removed and 10 experience is gained.
     */
    method AttackMonster(monsterId: string, rolls: seq<bool>, now: nat)
      requires |rolls| == |DropTable|
      modifies this`monsters, this`pendingDrops, this`playerExp, this`playerLevel
      ensures var k := IndexOfMonster(old(monsters), monsterId);
        k < 0 ==> (monsters == old(monsters) && pendingDrops == old(pendingDrops) &&
          playerExp == old(playerExp) && playerLevel == old(playerLevel))
      ensures var k := IndexOfMonster(old(monsters), monsterId);
        k >= 0 && old(monsters)[k].health - PlayerAttack > 0 ==>
          monsters == old(monsters)[k := old(monsters)[k].(health := old(monsters)[k].health - PlayerAttack)] &&
          pendingDrops == old(pendingDrops) && playerExp == old(playerExp) && playerLevel == old(playerLevel)
      ensures var k := IndexOfMonster(old(monsters), monsterId);
        k >= 0 && old(monsters)[k].health - PlayerAttack <= 0 ==>
          monsters == WithoutMonster(old(monsters), monsterId) &&
          pendingDrops == Rolled(DropTable, rolls, old(monsters)[k].kind, now) &&
          (playerExp, playerLevel) == LevelUp(old(playerExp), old(playerLevel), KillExp)
    {
      var k := IndexOfMonster(monsters, monsterId);
      if k >= 0 {
        var hit := monsters[k].(health := monsters[k].health - PlayerAttack);
        monsters := monsters[k := hit];
        if hit.health <= 0 {
          var drops := RollDrops(DropTable, hit.kind, rolls, now);
          pendingDrops := drops;
          KeepIgnoresDropped(old(monsters), k, hit, (m: Monster) => m.id != monsterId);
          monsters := WithoutMonster(monsters, monsterId);
          GainExp(KillExp);
        }
      }
    }

    /**
     * nextFloor: one floor deeper, on a fresh dungeon, with 5 + floor monsters
     * scaled to it and the player at its first room's centre; health, level,
     * experience, phase and pending drops carry over.
     */
    method NextFloor(draws: seq<RoomDraw>, spawns: seq<SpawnDraw>)
      requires |draws| == Attempts && forall k :: 0 <= k < |draws| ==> IsRoomDraw(draws[k])
      requires |spawns| == FirstFloorMonsters + currentFloor + 1
      requires forall i :: 0 <= i < |spawns| ==> IsSpawnDraw(spawns[i])
      modifies this`currentFloor, this`dungeonLayout, this`monsters, this`playerPosition
      ensures currentFloor == old(currentFloor) + 1
      ensures dungeonLayout.Some? && FreshFloor(dungeonLayout.value, currentFloor, draws)
      ensures playerPosition == StartPosition(dungeonLayout.value)
      ensures |monsters| == FirstFloorMonsters + currentFloor
      ensures forall i :: 0 <= i < |monsters| ==>
        monsters[i].id == MonsterId(i) &&
        monsters[i].health == 50 + 10 * currentFloor && monsters[i].damage == 10 + 2 * currentFloor &&
        Spawned(dungeonLayout.value, currentFloor, spawns[i], i, monsters[i])
    {
      var newFloor := currentFloor + 1;
      var dungeon := NewFloor(newFloor, draws);
      var start := StartPosition(dungeon);
      var spawned := GenerateMonsters(FirstFloorMonsters + newFloor, newFloor, dungeon, spawns);
      currentFloor := newFloor;
      dungeonLayout := Some(dungeon);
      monsters := spawned;
      playerPosition := start;
    }

    /** clearPendingDrops: the inventory has taken the drops; the queue is emptied. */
    method ClearPendingDrops()
      modifies this`pendingDrops
      ensures pendingDrops == []
    {
      pendingDrops := [];
    }
  }

  /** Scenario, not part of the store: from level 1 with no experience, two awards of 60 give level 2 with 20 experience. */
  method TwoAwardsOfSixty() returns (exp: int, level: int)
    ensures exp == 20 && level == 2
  {
    var s := new GameState();
    s.GainExp(60);
    s.GainExp(60);
    exp, level := s.playerExp, s.playerLevel;
  }

  /** Scenario, not part of the store: healing by 1000 after a hit restores exactly full health. */
  method OverHeal() returns (health: int)
    ensures health == MaxHealth
  {
    var s := new GameState();
    s.TakeDamage(70);
    s.HealPlayer(1000);
    health := s.playerHealth;
  }
}
