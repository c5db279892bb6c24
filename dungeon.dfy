/*
 * world/dungeon.py: one floor of the dungeon.  A new dungeon is solid WALL;
 * rooms and tunnels are carved into it as FLOOR, never on the outermost
 * ring of the map, and door candidates are the one-tile gaps where a tunnel
 * crosses a room's wall line.  The random choices of `generate` (room sizes
 * and positions, tunnel orientation, doors, population) are not modelled;
 * the tunnel orientation is a parameter.
 */
module Dungeon {
  import opened Common
  import Tile
  import Room
  import Zone

  /** A door candidate: position and the orientation of the wall it sits in. */
  type Candidate = (int, int, string)

  function Min(a: int, b: int): int { if a < b then a else b }

  function Max(a: int, b: int): int { if a < b then b else a }

  /** The cells _create_tunnel carves, before the border guard. */
  predicate OnTunnel(start: (int, int), end: (int, int), horizontalFirst: bool, x: int, y: int)
  {
    if horizontalFirst then
      (y == start.1 && Min(start.0, end.0) <= x <= Max(start.0, end.0)) ||
      (x == end.0 && Min(start.1, end.1) <= y <= Max(start.1, end.1))
    else
      (x == start.0 && Min(start.1, end.1) <= y <= Max(start.1, end.1)) ||
      (y == end.1 && Min(start.0, end.0) <= x <= Max(start.0, end.0))
  }

  /** Both ends of a tunnel and its corner lie on it, whichever leg comes first. */
  lemma TunnelEnds(start: (int, int), end: (int, int), horizontalFirst: bool)
    ensures OnTunnel(start, end, horizontalFirst, start.0, start.1)
    ensures OnTunnel(start, end, horizontalFirst, end.0, end.1)
    ensures horizontalFirst ==> OnTunnel(start, end, horizontalFirst, end.0, start.1)
    ensures !horizontalFirst ==> OnTunnel(start, end, horizontalFirst, start.0, end.1)
  {
  }

  class Dungeon {
    const zone: Zone.Zone
    const floor: int
    var rooms: seq<Room.Room>
    var stairsDown: Option<(int, int)>
    var stairsUp: Option<(int, int)>
    var bossSpawned: bool

    predicate Valid()
      reads this, zone
    {
      zone.Valid()
    }

    /** An empty floor: all WALL, zone type "dungeon", no rooms, no stairs. */
    constructor (width: nat, height: nat, floor: int)
      ensures Valid() && fresh(zone) && fresh(zone.tiles)
      ensures zone.width == width && zone.height == height && this.floor == floor
      ensures zone.zoneType == "dungeon"
      ensures forall x, y | 0 <= x < width && 0 <= y < height :: zone.tiles[x, y] == Tile.NewTile(Tile.Wall)
      ensures zone.entities == [] && zone.items == [] && rooms == []
      ensures stairsDown == None && stairsUp == None && !bossSpawned
    {
      zone := new Zone.Zone(width, height, "", "dungeon");
      this.floor := floor;
      rooms, stairsDown, stairsUp, bossSpawned := [], None, None, false;
    }

    /** _create_room: FLOOR on exactly the cells strictly inside the room and inside the map border. */
    method CreateRoom(room: Room.Room)
      requires Valid()
      modifies zone.tiles
      ensures forall x, y | 0 <= x < zone.width && 0 <= y < zone.height ::
        zone.tiles[x, y] == (if room.Contains(x, y) && zone.InsideBorder(x, y) then Tile.NewTile(Tile.Floor)
                             else old(zone.tiles[x, y]))
    {
      var x := room.x + 1;
      while x < room.X2()
        invariant forall a, b | 0 <= a < zone.width && 0 <= b < zone.height ::
          zone.tiles[a, b] == (if room.Contains(a, b) && zone.InsideBorder(a, b) && a < x
                               then Tile.NewTile(Tile.Floor) else old(zone.tiles[a, b]))
      {
        var y := room.y + 1;
        while y < room.Y2()
          invariant x < room.X2()
          invariant forall a, b | 0 <= a < zone.width && 0 <= b < zone.height ::
            zone.tiles[a, b] == (if room.Contains(a, b) && zone.InsideBorder(a, b) && (a < x || (a == x && b < y))
                                 then Tile.NewTile(Tile.Floor) else old(zone.tiles[a, b]))
        {
          if 0 < x < zone.width - 1 && 0 < y < zone.height - 1 {
            zone.tiles[x, y] := Tile.NewTile(Tile.Floor);
          }
          y := y + 1;
        }
        x := x + 1;
      }
    }

    /** _create_h_tunnel: FLOOR along row y from min(x1, x2) to max(x1, x2) inclusive, inside the border. */
    method CreateHTunnel(x1: int, x2: int, y: int)
      requires Valid()
      modifies zone.tiles
      ensures forall a, b | 0 <= a < zone.width && 0 <= b < zone.height ::
        zone.tiles[a, b] == (if b == y && Min(x1, x2) <= a <= Max(x1, x2) && zone.InsideBorder(a, b)
                             then Tile.NewTile(Tile.Floor) else old(zone.tiles[a, b]))
    {
      var x := Min(x1, x2);
      while x < Max(x1, x2) + 1
        invariant x <= Max(x1, x2) + 1
        invariant forall a, b | 0 <= a < zone.width && 0 <= b < zone.height ::
          zone.tiles[a, b] == (if b == y && Min(x1, x2) <= a < x && zone.InsideBorder(a, b)
                               then Tile.NewTile(Tile.Floor) else old(zone.tiles[a, b]))
      {
        if 0 < x < zone.width - 1 && 0 < y < zone.height - 1 {
          zone.tiles[x, y] := Tile.NewTile(Tile.Floor);
        }
        x := x + 1;
      }
    }

    /** _create_v_tunnel: FLOOR along column x from min(y1, y2) to max(y1, y2) inclusive, inside the border. */
    method CreateVTunnel(y1: int, y2: int, x: int)
      requires Valid()
      modifies zone.tiles
      ensures forall a, b | 0 <= a < zone.width && 0 <= b < zone.height ::
        zone.tiles[a, b] == (if a == x && Min(y1, y2) <= b <= Max(y1, y2) && zone.InsideBorder(a, b)
                             then Tile.NewTile(Tile.Floor) else old(zone.tiles[a, b]))
    {
      var y := Min(y1, y2);
      while y < Max(y1, y2) + 1
        invariant y <= Max(y1, y2) + 1
        invariant forall a, b | 0 <= a < zone.width && 0 <= b < zone.height ::
          zone.tiles[a, b] == (if a == x && Min(y1, y2) <= b < y && zone.InsideBorder(a, b)
                               then Tile.NewTile(Tile.Floor) else old(zone.tiles[a, b]))
      {
        if 0 < x < zone.width - 1 && 0 < y < zone.height - 1 {
          zone.tiles[x, y] := Tile.NewTile(Tile.Floor);
        }
        y := y + 1;
      }
    }

    /**
     * _create_tunnel with its coin flip as `horizontalFirst`: an L-shaped
     * corridor from start to end, carved inside the border only.
     */
    method CreateTunnel(start: (int, int), end: (int, int), horizontalFirst: bool)
      requires Valid()
      modifies zone.tiles
      ensures forall a, b | 0 <= a < zone.width && 0 <= b < zone.height ::
        zone.tiles[a, b] == (if OnTunnel(start, end, horizontalFirst, a, b) && zone.InsideBorder(a, b)
                             then Tile.NewTile(Tile.Floor) else old(zone.tiles[a, b]))
    {
      if horizontalFirst {
        CreateHTunnel(start.0, end.0, start.1);
        CreateVTunnel(start.1, end.1, end.0);
      } else {
        CreateVTunnel(start.1, end.1, start.0);
        CreateHTunnel(start.0, end.0, end.1);
      }
    }

    /** A FLOOR cell inside the border with non-walkable cells above and below. */
    predicate VerticalGap(x: int, y: int)
      requires Valid()
      reads this, zone, zone.tiles
    {
      zone.InsideBorder(x, y) && zone.tiles[x, y].tileType == Tile.Floor &&
      !zone.tiles[x, y - 1].Walkable() && !zone.tiles[x, y + 1].Walkable()
    }

    /** A FLOOR cell inside the border with non-walkable cells left and right. */
    predicate HorizontalGap(x: int, y: int)
      requires Valid()
      reads this, zone, zone.tiles
    {
      zone.InsideBorder(x, y) && zone.tiles[x, y].tileType == Tile.Floor &&
      !zone.tiles[x - 1, y].Walkable() && !zone.tiles[x + 1, y].Walkable()
    }

    /** What _find_door_candidates accepts on the four wall lines of `room`. */
    predicate DoorCandidate(room: Room.Room, c: Candidate)
      requires Valid()
      reads this, zone, zone.tiles
    {
      (c.2 == "vertical" && (c.0 == room.x || c.0 == room.X2()) && room.y < c.1 < room.Y2() && VerticalGap(c.0, c.1)) ||
      (c.2 == "horizontal" && (c.1 == room.y || c.1 == room.Y2()) && room.x < c.0 < room.X2() && HorizontalGap(c.0, c.1))
    }

    /** One vertical wall line: the gaps in column x for lo <= y < hi, top to bottom. */
    method ScanColumn(x: int, lo: int, hi: int) returns (r: seq<Candidate>)
      requires Valid()
      ensures forall i | 0 <= i < |r| :: r[i].0 == x && r[i].2 == "vertical" && lo <= r[i].1 < hi && VerticalGap(x, r[i].1)
      ensures forall y | lo <= y < hi && VerticalGap(x, y) :: (x, y, "vertical") in r
      ensures forall i, j | 0 <= i < j < |r| :: r[i].1 < r[j].1
    {
      r := [];
      var y := lo;
      while y < hi
        invariant y <= hi || r == []
        invariant forall i | 0 <= i < |r| :: r[i].0 == x && r[i].2 == "vertical" && lo <= r[i].1 < y && VerticalGap(x, r[i].1)
        invariant forall b | lo <= b < y && VerticalGap(x, b) :: (x, b, "vertical") in r
        invariant forall i, j | 0 <= i < j < |r| :: r[i].1 < r[j].1
      {
        if 0 < x < zone.width - 1 && 0 < y < zone.height - 1 {
          if zone.tiles[x, y].tileType == Tile.Floor {
            var wallAbove := y > 0 && !zone.tiles[x, y - 1].Walkable();
            var wallBelow := y < zone.height - 1 && !zone.tiles[x, y + 1].Walkable();
            if wallAbove && wallBelow {
              r := r + [(x, y, "vertical")];
            }
          }
        }
        y := y + 1;
      }
    }

    /** One horizontal wall line: the gaps in row y for lo <= x < hi, left to right. */
    method ScanRow(y: int, lo: int, hi: int) returns (r: seq<Candidate>)
      requires Valid()
      ensures forall i | 0 <= i < |r| :: r[i].1 == y && r[i].2 == "horizontal" && lo <= r[i].0 < hi && HorizontalGap(r[i].0, y)
      ensures forall x | lo <= x < hi && HorizontalGap(x, y) :: (x, y, "horizontal") in r
      ensures forall i, j | 0 <= i < j < |r| :: r[i].0 < r[j].0
    {
      r := [];
      var x := lo;
      while x < hi
        invariant x <= hi || r == []
        invariant forall i | 0 <= i < |r| :: r[i].1 == y && r[i].2 == "horizontal" && lo <= r[i].0 < x && HorizontalGap(r[i].0, y)
        invariant forall a | lo <= a < x && HorizontalGap(a, y) :: (a, y, "horizontal") in r
        invariant forall i, j | 0 <= i < j < |r| :: r[i].0 < r[j].0
      {
        if 0 < x < zone.width - 1 && 0 < y < zone.height - 1 {
          if zone.tiles[x, y].tileType == Tile.Floor {
            var wallLeft := x > 0 && !zone.tiles[x - 1, y].Walkable();
            var wallRight := x < zone.width - 1 && !zone.tiles[x + 1, y].Walkable();
            if wallLeft && wallRight {
              r := r + [(x, y, "horizontal")];
            }
          }
        }
        x := x + 1;
      }
    }

    /**
     * _find_door_candidates: the left, right, top and bottom wall lines in
     * that order; every candidate is a one-tile gap on the room's perimeter
     * and every such gap is a candidate.
     */
    method FindDoorCandidates(room: Room.Room) returns (r: seq<Candidate>)
      requires Valid()
      ensures forall i | 0 <= i < |r| :: DoorCandidate(room, r[i])
      ensures forall c | DoorCandidate(room, c) :: c in r
    {
      var left := ScanColumn(room.x, room.y + 1, room.Y2());
      var right := ScanColumn(room.X2(), room.y + 1, room.Y2());
      var top := ScanRow(room.y, room.x + 1, room.X2());
      var bottom := ScanRow(room.Y2(), room.x + 1, room.X2());
      r := left + right + top + bottom;
      forall c | DoorCandidate(room, c)
        ensures c in r
      {
        if c.2 == "vertical" && c.0 == room.x && room.y < c.1 < room.Y2() && VerticalGap(c.0, c.1) {
          assert c == (room.x, c.1, "vertical");
          assert c in left;
        } else if c.2 == "vertical" {
          assert c == (room.X2(), c.1, "vertical");
          assert c in right;
        } else if c.1 == room.y {
          assert c == (c.0, room.y, "horizontal");
          assert c in top;
        } else {
          assert c == (c.0, room.Y2(), "horizontal");
          assert c in bottom;
        }
      }
    }
  }

  /** Carving a room never turns a cell of the map's outer ring into FLOOR. */
  lemma RoomSparesBorder(width: int, height: int, room: Room.Room, x: int, y: int)
    requires 0 <= x < width && 0 <= y < height
    requires x == 0 || y == 0 || x == width - 1 || y == height - 1
    ensures !(room.Contains(x, y) && 0 < x < width - 1 && 0 < y < height - 1)
  {
  }
}
