/**
 * Procedural floor generation (dungeonGenerator.ts): a grid of walls in which up
 * to min(8 + floor, 15) non-overlapping rooms are carved, then consecutive rooms
 * are joined by L-shaped corridors. The grid is written in place as an array2;
 * the generated Dungeon hands out a frozen copy of it.
 */
module DungeonGenerator {

  const Floor := 0
  const Wall := 1

  /** Number of room proposals the generator examines. */
  const Attempts := 100

  datatype Room = Room(x: int, y: int, width: int, height: int)

  /** Columns `tiles[x]` of `height` cells each, indexed `tiles[x][y]`. */
  datatype Dungeon = Dungeon(width: int, height: int, tiles: seq<seq<int>>, rooms: seq<Room>)

  /** The four Math.random draws behind one room proposal, each in [0, 1). */
  datatype RoomDraw = RoomDraw(rx: real, ry: real, rw: real, rh: real)

  predicate IsDraw(r: real) { 0.0 <= r < 1.0 }

  predicate IsRoomDraw(d: RoomDraw) { IsDraw(d.rx) && IsDraw(d.ry) && IsDraw(d.rw) && IsDraw(d.rh) }

  /** Math.floor(r * n) for a draw r in [0, 1). */
  function Scaled(r: real, n: int): int { (r * n as real).Floor }

  /** A draw times a non-negative amount lies between 0 and that amount, strictly below a positive one. */
  lemma DrawTimesNonNegative(r: real, c: real)
    requires IsDraw(r) && c >= 0.0
    ensures 0.0 <= r * c <= c
    ensures c > 0.0 ==> r * c < c
  {
    assert r * c + (1.0 - r) * c == c;
    assert (1.0 - r) * c >= 0.0;
  }

  /** A draw times a non-positive amount lies between that amount and 0. */
  lemma DrawTimesNonPositive(r: real, c: real)
    requires IsDraw(r) && c <= 0.0
    ensures c <= r * c <= 0.0
  {
    DrawTimesNonNegative(r, -c);
    assert r * c == -(r * -c);
  }

  /** The floor of a value in [0, n) is in [0, n) for positive n; of one in [n, 0] it is in [n, 0] otherwise. */
  lemma FloorWithin(x: real, n: int)
    requires n > 0 ==> 0.0 <= x < n as real
    requires n <= 0 ==> n as real <= x <= 0.0
    ensures n > 0 ==> 0 <= x.Floor < n
    ensures n <= 0 ==> n <= x.Floor <= 0
  {
  }

  /** A draw times a whole number `n` lies in [0, n) for positive n and in [n, 0] otherwise. */
  lemma DrawTimesWhole(r: real, n: int) returns (x: real)
    requires IsDraw(r)
    ensures x == r * n as real
    ensures n > 0 ==> 0.0 <= x < n as real
    ensures n <= 0 ==> n as real <= x <= 0.0
  {
    x := r * n as real;
    if n > 0 {
      assert n as real > 0.0;
      DrawTimesNonNegative(r, n as real);
    } else {
      assert n as real <= 0.0;
      DrawTimesNonPositive(r, n as real);
    }
  }

  lemma ScaledRange(r: real, n: int)
    requires IsDraw(r)
    ensures n > 0 ==> 0 <= Scaled(r, n) < n
    ensures n <= 0 ==> n <= Scaled(r, n) <= 0
  {
    var x := DrawTimesWhole(r, n);
    FloorWithin(x, n);
  }

  /** The rectangle a draw proposes on a width x height grid. */
  function Proposal(width: int, height: int, d: RoomDraw): (r: Room)
    requires IsRoomDraw(d)
    ensures 4 <= r.width <= 9 && 4 <= r.height <= 9
    ensures width > 8 ==> 2 <= r.x < width - 6
    ensures width <= 8 ==> r.x + r.width >= width - 2
    ensures height > 8 ==> 2 <= r.y < height - 6
    ensures height <= 8 ==> r.y + r.height >= height - 2
  {
    ScaledRange(d.rx, width - 8);
    ScaledRange(d.ry, height - 8);
    ScaledRange(d.rw, 6);
    ScaledRange(d.rh, 6);
    Room(Scaled(d.rx, width - 8) + 2, Scaled(d.ry, height - 8) + 2, Scaled(d.rw, 6) + 4, Scaled(d.rh, 6) + 4)
  }

  /** Math.min(8 + floor, 15). */
  function RoomTarget(floor: int): (n: int)
    ensures n <= 15 && n <= 8 + floor
    ensures n == 15 || n == 8 + floor
  {
    if 8 + floor < 15 then 8 + floor else 15
  }

  /** The overlap test, which grows the rooms by a one-cell buffer. */
  predicate Overlaps(a: Room, b: Room)
  {
    a.x < b.x + b.width + 1 && a.x + a.width + 1 > b.x &&
    a.y < b.y + b.height + 1 && a.y + a.height + 1 > b.y
  }

  predicate OverlapsAny(rooms: seq<Room>, r: Room)
  {
    exists k :: 0 <= k < |rooms| && Overlaps(r, rooms[k])
  }

  /** Whether the generator keeps proposal `r` after accepting `rooms`. */
  predicate Accepts(width: int, height: int, rooms: seq<Room>, r: Room)
  {
    !OverlapsAny(rooms, r) && r.x + r.width < width - 2 && r.y + r.height < height - 2
  }

  /** A room lies strictly inside the grid border and has a drawn size. */
  predicate InBounds(width: int, height: int, r: Room)
  {
    4 <= r.width <= 9 && 4 <= r.height <= 9 &&
    2 <= r.x && r.x + r.width < width - 2 &&
    2 <= r.y && r.y + r.height < height - 2
  }

  predicate ValidRooms(width: int, height: int, rooms: seq<Room>)
  {
    (forall k :: 0 <= k < |rooms| ==> InBounds(width, height, rooms[k])) &&
    (forall i, j :: 0 <= i < |rooms| && 0 <= j < |rooms| && i != j ==> !Overlaps(rooms[i], rooms[j]))
  }

  /**
   * Reference definition of room placement: examine the draws in order, stopping
   * once `target` rooms were accepted, and keep each acceptable proposal.
   */
  function PlaceFrom(width: int, height: int, target: int, acc: seq<Room>, draws: seq<RoomDraw>): seq<Room>
    requires forall k :: 0 <= k < |draws| ==> IsRoomDraw(draws[k])
    decreases |draws|
  {
    if |draws| == 0 || |acc| >= target then acc
    else
      var r := Proposal(width, height, draws[0]);
      PlaceFrom(width, height, target, if Accepts(width, height, acc, r) then acc + [r] else acc, draws[1..])
  }

  function PlacedRooms(width: int, height: int, floor: int, draws: seq<RoomDraw>): seq<Room>
    requires forall k :: 0 <= k < |draws| ==> IsRoomDraw(draws[k])
  {
    PlaceFrom(width, height, RoomTarget(floor), [], draws)
  }

  /** Accepting a proposal keeps the rooms in bounds and pairwise apart. */
  lemma AcceptKeepsValid(width: int, height: int, rooms: seq<Room>, d: RoomDraw)
    requires IsRoomDraw(d)
    requires ValidRooms(width, height, rooms)
    requires Accepts(width, height, rooms, Proposal(width, height, d))
    ensures ValidRooms(width, height, rooms + [Proposal(width, height, d)])
  {
    var r := Proposal(width, height, d);
    var rs := rooms + [r];
    forall i, j | 0 <= i < |rs| && 0 <= j < |rs| && i != j
      ensures !Overlaps(rs[i], rs[j])
    {
      if j == |rooms| {
        assert !Overlaps(r, rooms[i]);
      } else if i == |rooms| {
        assert !Overlaps(r, rooms[j]);
      }
    }
  }

  /**
   * Placement keeps rooms in bounds and pairwise non-overlapping, never exceeds
   * the target (when started below it), accepts at most one room per draw, and
   * only ever extends what was accepted before.
   */
  lemma {:induction false} PlaceFromValid(width: int, height: int, target: int, acc: seq<Room>, draws: seq<RoomDraw>)
    requires forall k :: 0 <= k < |draws| ==> IsRoomDraw(draws[k])
    requires ValidRooms(width, height, acc)
    ensures var rs := PlaceFrom(width, height, target, acc, draws);
      ValidRooms(width, height, rs) &&
      |rs| <= |acc| + |draws| &&
      (|acc| <= target ==> |rs| <= target) &&
      acc <= rs
    decreases |draws|
  {
    if |draws| > 0 && |acc| < target {
      var r := Proposal(width, height, draws[0]);
      if Accepts(width, height, acc, r) {
        AcceptKeepsValid(width, height, acc, draws[0]);
        PlaceFromValid(width, height, target, acc + [r], draws[1..]);
      } else {
        PlaceFromValid(width, height, target, acc, draws[1..]);
      }
    }
  }

  /** Placement on the generator's own terms: at most min(8 + floor, 15) rooms, valid. */
  lemma PlacedRoomsValid(width: int, height: int, floor: int, draws: seq<RoomDraw>)
    requires forall k :: 0 <= k < |draws| ==> IsRoomDraw(draws[k])
    ensures var rs := PlacedRooms(width, height, floor, draws);
      ValidRooms(width, height, rs) && |rs| <= |draws| && |rs| <= if RoomTarget(floor) < 0 then 0 else RoomTarget(floor)
  {
    PlaceFromValid(width, height, RoomTarget(floor), [], draws);
  }

  predicate InRoom(r: Room, x: int, y: int)
  {
    r.x <= x < r.x + r.width && r.y <= y < r.y + r.height
  }

  predicate InAnyRoom(rooms: seq<Room>, x: int, y: int)
  {
    exists k :: 0 <= k < |rooms| && InRoom(rooms[k], x, y)
  }

  function CenterX(r: Room): int { r.x + r.width / 2 }
  function CenterY(r: Room): int { r.y + r.height / 2 }

  /** `v` is met by a loop variable stepping from `from` towards `to`, `to` excluded. */
  predicate Stepped(v: int, from: int, to: int)
  {
    (from <= v < to) || (to < v <= from)
  }

  /** The cells createCorridor(x1, y1, x2, y2) visits. */
  predicate OnCorridor(x1: int, y1: int, x2: int, y2: int, x: int, y: int)
  {
    (x1 != x2 && y == y1 && Stepped(x, x1, x2)) ||
    (y1 != y2 && x == x2 && Stepped(y, y1, y2))
  }

  /** The cells the two corridor calls joining room `a` to room `b` visit. */
  predicate Joins(a: Room, b: Room, x: int, y: int)
  {
    OnCorridor(CenterX(a), CenterY(a), CenterX(b), CenterY(a), x, y) ||
    OnCorridor(CenterX(b), CenterY(a), CenterX(b), CenterY(b), x, y)
  }

  /** Some pair (rooms[k], rooms[k + 1]) with k < n is joined through (x, y). */
  predicate OnJoinedPath(rooms: seq<Room>, n: int, x: int, y: int)
  {
    exists k :: 0 <= k < n && k + 1 < |rooms| && Joins(rooms[k], rooms[k + 1], x, y)
  }

  predicate Within(v: int, a: int, b: int) { (a <= v <= b) || (b <= v <= a) }

  /**
   * The full L path from the centre of `a` to the centre of `b`: along row
   * CenterY(a) to column CenterX(b), then along that column to CenterY(b).
   */
  predicate OnLPath(a: Room, b: Room, x: int, y: int)
  {
    (y == CenterY(a) && Within(x, CenterX(a), CenterX(b))) ||
    (x == CenterX(b) && Within(y, CenterY(a), CenterY(b)))
  }

  /** Every cell of the L path lies in one of the two rooms or on a carved corridor cell. */
  lemma LPathCovered(a: Room, b: Room, x: int, y: int)
    requires a.width >= 1 && a.height >= 1 && b.width >= 1 && b.height >= 1
    requires OnLPath(a, b, x, y)
    ensures InRoom(a, x, y) || InRoom(b, x, y) || Joins(a, b, x, y)
  {
  }

  /** The grid holds `width` columns of `height` cells, each a floor or a wall. */
  predicate WellFormedGrid(width: int, height: int, tiles: seq<seq<int>>)
  {
    |tiles| == width &&
    (forall x :: 0 <= x < width ==> |tiles[x]| == height) &&
    (forall x, y :: 0 <= x < width && 0 <= y < height ==> tiles[x][y] == Floor || tiles[x][y] == Wall)
  }

  /**
   * Carves one room to floor. Only cells inside the room change, and they all
   * become floor, so carving never turns a floor cell back into a wall.
   */
  method CarveRoom(tiles: array2<int>, r: Room)
    requires 0 <= r.x && r.x + r.width <= tiles.Length0
    requires 0 <= r.y && r.y + r.height <= tiles.Length1
    modifies tiles
    ensures forall x, y :: 0 <= x < tiles.Length0 && 0 <= y < tiles.Length1 ==>
      tiles[x, y] == if InRoom(r, x, y) then Floor else old(tiles[x, y])
  {
    var x := r.x;
    while x < r.x + r.width
      invariant r.x <= x <= r.x + r.width || (r.width <= 0 && x == r.x)
      invariant forall i, j :: 0 <= i < tiles.Length0 && 0 <= j < tiles.Length1 ==>
        tiles[i, j] == if InRoom(r, i, j) && i < x then Floor else old(tiles[i, j])
    {
      var y := r.y;
      while y < r.y + r.height
        invariant r.y <= y <= r.y + r.height || (r.height <= 0 && y == r.y)
        invariant forall i, j :: 0 <= i < tiles.Length0 && 0 <= j < tiles.Length1 ==>
          tiles[i, j] == if InRoom(r, i, j) && (i < x || (i == x && j < y)) then Floor else old(tiles[i, j])
      {
        tiles[x, y] := Floor;
        y := y + 1;
      }
      x := x + 1;
    }
  }

  /**
   * createCorridor: walks from (x1, y1) towards x2 along row y1, then from
   * (x2, y1) towards y2 along column x2, setting every visited cell that lies in
   * the grid to floor; cells outside the grid are skipped.
   */
  method CreateCorridor(tiles: array2<int>, x1: int, y1: int, x2: int, y2: int)
    modifies tiles
    ensures forall x, y :: 0 <= x < tiles.Length0 && 0 <= y < tiles.Length1 ==>
      tiles[x, y] == if OnCorridor(x1, y1, x2, y2, x, y) then Floor else old(tiles[x, y])
  {
    if x2 - x1 != 0 {
      var step := if x2 - x1 > 0 then 1 else -1;
      var x := x1;
      while x != x2
        invariant Within(x, x1, x2)
        invariant forall i, j :: 0 <= i < tiles.Length0 && 0 <= j < tiles.Length1 ==>
          tiles[i, j] == if j == y1 && Stepped(i, x1, x2) && !Within(i, x, x2) then Floor else old(tiles[i, j])
        decreases if x2 > x then x2 - x else x - x2
      {
        if 0 <= x < tiles.Length0 && 0 <= y1 < tiles.Length1 {
          tiles[x, y1] := Floor;
        }
        x := x + step;
      }
    }
    label Mid:
    if y2 - y1 != 0 {
      var step := if y2 - y1 > 0 then 1 else -1;
      var y := y1;
      while y != y2
        invariant Within(y, y1, y2)
        invariant forall i, j :: 0 <= i < tiles.Length0 && 0 <= j < tiles.Length1 ==>
          tiles[i, j] == if i == x2 && Stepped(j, y1, y2) && !Within(j, y, y2) then Floor else old@Mid(tiles[i, j])
        decreases if y2 > y then y2 - y else y - y2
      {
        if 0 <= x2 < tiles.Length0 && 0 <= y < tiles.Length1 {
          tiles[x2, y] := Floor;
        }
        y := y + step;
      }
    }
  }

  /** A value copy of the grid, column by column. */
  function Freeze(tiles: array2<int>): (g: seq<seq<int>>)
    reads tiles
    ensures |g| == tiles.Length0
    ensures forall x :: 0 <= x < tiles.Length0 ==> |g[x]| == tiles.Length1
    ensures forall x, y :: 0 <= x < tiles.Length0 && 0 <= y < tiles.Length1 ==> g[x][y] == tiles[x, y]
  {
    seq(tiles.Length0, x requires 0 <= x < tiles.Length0 reads tiles =>
      seq(tiles.Length1, y requires 0 <= y < tiles.Length1 reads tiles => tiles[x, y]))
  }

  /**
   * The attempt loop: examines the draws in order while fewer than `numRooms`
   * rooms were accepted, keeps each proposal that passes the overlap and border
   * test and carves it. Afterwards a cell is floor exactly when some accepted
   * room covers it.
   */
  method PlaceRooms(tiles: array2<int>, numRooms: int, draws: seq<RoomDraw>) returns (rooms: seq<Room>)
    requires |draws| == Attempts
    requires forall k :: 0 <= k < |draws| ==> IsRoomDraw(draws[k])
    requires forall x, y :: 0 <= x < tiles.Length0 && 0 <= y < tiles.Length1 ==> tiles[x, y] == Wall
    modifies tiles
    ensures rooms == PlaceFrom(tiles.Length0, tiles.Length1, numRooms, [], draws)
    ensures ValidRooms(tiles.Length0, tiles.Length1, rooms)
    ensures forall x, y :: 0 <= x < tiles.Length0 && 0 <= y < tiles.Length1 ==>
      tiles[x, y] == if InAnyRoom(rooms, x, y) then Floor else Wall
  {
    var width, height := tiles.Length0, tiles.Length1;
    rooms := [];
    var i := 0;
    while i < Attempts && |rooms| < numRooms
      invariant 0 <= i <= Attempts
      invariant ValidRooms(width, height, rooms)
      invariant PlaceFrom(width, height, numRooms, rooms, draws[i..]) == PlaceFrom(width, height, numRooms, [], draws)
      invariant forall x, y :: 0 <= x < width && 0 <= y < height ==>
        tiles[x, y] == if InAnyRoom(rooms, x, y) then Floor else Wall
    {
      var room := Proposal(width, height, draws[i]);
      assert draws[i..][1..] == draws[i + 1..];
      if Accepts(width, height, rooms, room) {
        AcceptKeepsValid(width, height, rooms, draws[i]);
        CarveRoom(tiles, room);
        AddRoomCovers(rooms, room);
        rooms := rooms + [room];
      }
      i := i + 1;
    }
  }

  lemma AddRoomCovers(rooms: seq<Room>, room: Room)
    ensures forall x, y :: InAnyRoom(rooms + [room], x, y) <==> InAnyRoom(rooms, x, y) || InRoom(room, x, y)
  {
    forall x, y
      ensures InAnyRoom(rooms + [room], x, y) <==> InAnyRoom(rooms, x, y) || InRoom(room, x, y)
    {
      if InRoom(room, x, y) {
        assert (rooms + [room])[|rooms|] == room;
      }
      if InAnyRoom(rooms, x, y) {
        var k :| 0 <= k < |rooms| && InRoom(rooms[k], x, y);
        assert (rooms + [room])[k] == rooms[k];
      }
    }
  }

  /**
   * The corridor loop: joins rooms[k] to rooms[k + 1] for every k, by a
   * horizontal corridor along the row of the first centre and a vertical one
   * along the column of the second.
   */
  method ConnectRooms(tiles: array2<int>, rooms: seq<Room>)
    requires forall x, y :: 0 <= x < tiles.Length0 && 0 <= y < tiles.Length1 ==>
      tiles[x, y] == if InAnyRoom(rooms, x, y) then Floor else Wall
    modifies tiles
    ensures forall x, y :: 0 <= x < tiles.Length0 && 0 <= y < tiles.Length1 ==>
      tiles[x, y] == if InAnyRoom(rooms, x, y) || OnJoinedPath(rooms, |rooms| - 1, x, y) then Floor else Wall
  {
    var k := 0;
    while k < |rooms| - 1
      invariant 0 <= k <= |rooms|
      invariant |rooms| > 0 ==> k <= |rooms| - 1
      invariant forall x, y :: 0 <= x < tiles.Length0 && 0 <= y < tiles.Length1 ==>
        tiles[x, y] == if InAnyRoom(rooms, x, y) || OnJoinedPath(rooms, k, x, y) then Floor else Wall
    {
      var roomA, roomB := rooms[k], rooms[k + 1];
      var centerAX, centerAY := CenterX(roomA), CenterY(roomA);
      var centerBX, centerBY := CenterX(roomB), CenterY(roomB);
      CreateCorridor(tiles, centerAX, centerAY, centerBX, centerAY);
      CreateCorridor(tiles, centerBX, centerAY, centerBX, centerBY);
      JoinedPathGrows(rooms, k);
      k := k + 1;
    }
  }

  lemma JoinedPathGrows(rooms: seq<Room>, k: int)
    requires 0 <= k && k + 1 < |rooms|
    ensures forall x, y :: OnJoinedPath(rooms, k + 1, x, y) <==>
      OnJoinedPath(rooms, k, x, y) || Joins(rooms[k], rooms[k + 1], x, y)
  {
    forall x, y
      ensures OnJoinedPath(rooms, k + 1, x, y) <==> OnJoinedPath(rooms, k, x, y) || Joins(rooms[k], rooms[k + 1], x, y)
    {
      if OnJoinedPath(rooms, k + 1, x, y) {
        var j :| 0 <= j < k + 1 && j + 1 < |rooms| && Joins(rooms[j], rooms[j + 1], x, y);
        if j < k {
          assert OnJoinedPath(rooms, k, x, y);
        }
      }
    }
  }

  /**
   * generateDungeon(width, height, floor) with its 100 room proposals drawn in
   * advance. The rooms are the ones the reference placement accepts, in
   * acceptance order; a cell is floor exactly when it lies in a room or on one of
   * the corridors joining consecutive rooms, and every cell of each L path is floor.
   */
  method GenerateDungeon(width: int, height: int, floor: int, draws: seq<RoomDraw>) returns (d: Dungeon)
    requires width >= 0 && height >= 0
    requires |draws| == Attempts
    requires forall k :: 0 <= k < |draws| ==> IsRoomDraw(draws[k])
    ensures d.width == width && d.height == height
    ensures WellFormedGrid(width, height, d.tiles)
    ensures d.rooms == PlacedRooms(width, height, floor, draws)
    ensures |d.rooms| <= RoomTarget(floor) || d.rooms == []
    ensures ValidRooms(width, height, d.rooms)
    ensures forall k, x, y {:trigger InRoom(d.rooms[k], x, y)} :: 0 <= k < |d.rooms| && InRoom(d.rooms[k], x, y) ==>
      0 <= x < width && 0 <= y < height && d.tiles[x][y] == Floor
    ensures forall k, x, y {:trigger OnLPath(d.rooms[k], d.rooms[k + 1], x, y)} :: 0 <= k < |d.rooms| - 1 && OnLPath(d.rooms[k], d.rooms[k + 1], x, y) ==>
      0 <= x < width && 0 <= y < height && d.tiles[x][y] == Floor
    ensures forall x, y :: 0 <= x < width && 0 <= y < height ==>
      (d.tiles[x][y] == Floor <==> InAnyRoom(d.rooms, x, y) || OnJoinedPath(d.rooms, |d.rooms| - 1, x, y))
  {
    var tiles := new int[width, height]((x, y) => Wall);
    var numRooms := RoomTarget(floor);
    var rooms := PlaceRooms(tiles, numRooms, draws);
    PlacedRoomsValid(width, height, floor, draws);
    ConnectRooms(tiles, rooms);
    d := Dungeon(width, height, Freeze(tiles), rooms);
    PathsAreFloor(width, height, d);
  }

  /** In a generated grid, every cell of each L path between consecutive rooms is floor. */
  lemma PathsAreFloor(width: int, height: int, d: Dungeon)
    requires ValidRooms(width, height, d.rooms)
    requires WellFormedGrid(width, height, d.tiles)
    requires forall x, y :: 0 <= x < width && 0 <= y < height ==>
      (d.tiles[x][y] == Floor <==> InAnyRoom(d.rooms, x, y) || OnJoinedPath(d.rooms, |d.rooms| - 1, x, y))
    ensures forall k, x, y {:trigger InRoom(d.rooms[k], x, y)} :: 0 <= k < |d.rooms| && InRoom(d.rooms[k], x, y) ==>
      0 <= x < width && 0 <= y < height && d.tiles[x][y] == Floor
    ensures forall k, x, y {:trigger OnLPath(d.rooms[k], d.rooms[k + 1], x, y)} :: 0 <= k < |d.rooms| - 1 && OnLPath(d.rooms[k], d.rooms[k + 1], x, y) ==>
      0 <= x < width && 0 <= y < height && d.tiles[x][y] == Floor
  {
    forall k, x, y | 0 <= k < |d.rooms| && InRoom(d.rooms[k], x, y)
      ensures 0 <= x < width && 0 <= y < height && d.tiles[x][y] == Floor
    {
      assert InBounds(width, height, d.rooms[k]);
      assert InAnyRoom(d.rooms, x, y);
      assert d.tiles[x][y] == Floor;
    }
    forall k, x, y | 0 <= k < |d.rooms| - 1 && OnLPath(d.rooms[k], d.rooms[k + 1], x, y)
      ensures 0 <= x < width && 0 <= y < height && d.tiles[x][y] == Floor
    {
      var a, b := d.rooms[k], d.rooms[k + 1];
      assert InBounds(width, height, a) && InBounds(width, height, b);
      LPathCovered(a, b, x, y);
      if InRoom(a, x, y) {
        assert InAnyRoom(d.rooms, x, y);
      } else if InRoom(b, x, y) {
        assert InAnyRoom(d.rooms, x, y);
      } else {
        assert OnJoinedPath(d.rooms, |d.rooms| - 1, x, y);
      }
    }
  }
}
