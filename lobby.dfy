/*
 * world/lobby.py: the starting zone.  Its layout is a function of the map
 * size alone: a walled room centred on a VOID map with the dungeon
 * entrance just below the room's top wall, everything revealed.  The NPCs
 * that the state machine spawns into it are not modelled; the names it
 * manages are a parameter.
 */
module Lobby {
  import opened Common
  import Tile
  import Entity
  import Items
  import Zone
  import Player

  function Min(a: int, b: int): int { if a < b then a else b }

  /** min(30, w - 10) by min(20, h - 10). */
  function RoomWidth(w: int): int { Min(30, w - 10) }

  function RoomHeight(h: int): int { Min(20, h - 10) }

  /** The room's top-left corner: the map centre minus half the room, with floor division. */
  function RoomX(w: int): int { w / 2 - RoomWidth(w) / 2 }

  function RoomY(h: int): int { h / 2 - RoomHeight(h) / 2 }

  /** The dungeon entrance: the centre column, one row below the room's top wall. */
  function Entrance(w: int, h: int): (int, int) { (w / 2, RoomY(h) + 1) }

  predicate InRoom(w: int, h: int, x: int, y: int)
  {
    RoomX(w) <= x < RoomX(w) + RoomWidth(w) && RoomY(h) <= y < RoomY(h) + RoomHeight(h)
  }

  /** The cells the two wall loops of generate write. */
  predicate OnWall(w: int, h: int, x: int, y: int)
  {
    var rx, ry, rw, rh := RoomX(w), RoomY(h), RoomWidth(w), RoomHeight(h);
    (rx - 1 <= x <= rx + rw && (y == ry - 1 || y == ry + rh)) ||
    (ry - 1 <= y <= ry + rh && (x == rx - 1 || x == rx + rw))
  }

  /** The type the room-building loops leave at (x, y): the floor is written after the walls. */
  function RoomType(w: int, h: int, x: int, y: int): Tile.TileType
  {
    if InRoom(w, h, x, y) then Tile.Floor
    else if OnWall(w, h, x, y) then Tile.Wall
    else Tile.Void
  }

  /** The type generate leaves at (x, y): the entrance stairs overwrite the room. */
  function LayoutType(w: int, h: int, x: int, y: int): Tile.TileType
  {
    if (x, y) == Entrance(w, h) then Tile.StairsDown else RoomType(w, h, x, y)
  }

  /** The tile generate leaves at (x, y): the layout type, visible and explored. */
  function LayoutTile(w: int, h: int, x: int, y: int): Tile.Tile
  {
    Tile.Tile(LayoutType(w, h, x, y), true, true)
  }

  /** is_walkable on the generated layout. */
  predicate LayoutWalkable(w: int, h: int, x: int, y: int)
  {
    0 <= x < w && 0 <= y < h && Tile.Properties(LayoutType(w, h, x, y)).walkable
  }

  /** Where the player starts: near the bottom wall, one column right if that cell is not walkable. */
  function StartPosition(w: int, h: int): (int, int)
  {
    var p := (w / 2, RoomY(h) + RoomHeight(h) - 2);
    if LayoutWalkable(w, h, p.0, p.1) then p else (w / 2 + 1, p.1)
  }

  /** The list comprehension of spawn_npcs_from_states: entities whose name the state machine does not manage. */
  function Purged(es: seq<Entity.Entity>, names: set<string>): (r: seq<Entity.Entity>)
    reads set i | 0 <= i < |es| :: es[i]
    ensures |r| <= |es|
    ensures forall i | 0 <= i < |r| :: r[i] in es && r[i].name !in names
    ensures forall i | 0 <= i < |es| :: es[i].name !in names ==> es[i] in r
  {
    if es == [] then []
    else (if es[0].name !in names then [es[0]] else []) + Purged(es[1..], names)
  }

  /** The saved form of a lobby: its size, identity, entrance and floor items, never its tiles. */
  datatype LobbyDict = LobbyDict(width: int, height: int, zoneId: Option<string>, zoneType: string,
                                 dungeonEntrance: Option<(int, int)>, items: seq<Items.ItemDict>)

  class Lobby {
    const zone: Zone.Zone
    var dungeonEntrance: Option<(int, int)>
    var stairsDown: Option<(int, int)>
    var stairsUp: Option<(int, int)>

    predicate Valid()
      reads this, zone
    {
      zone.Valid()
    }

    /** A lobby before generate: an all-WALL zone of type "lobby" with no entrance yet. */
    constructor (width: nat, height: nat, zoneId: string)
      ensures Valid() && fresh(zone) && fresh(zone.tiles)
      ensures zone.width == width && zone.height == height && zone.zoneId == zoneId && zone.zoneType == "lobby"
      ensures zone.entities == [] && zone.items == []
      ensures dungeonEntrance == None && stairsDown == None && stairsUp == None
    {
      zone := new Zone.Zone(width, height, zoneId, "lobby");
      dungeonEntrance, stairsDown, stairsUp := None, None, None;
    }

    /** The first loop of generate: every tile a fresh VOID. */
    method FillVoid()
      requires Valid()
      modifies zone.tiles
      ensures forall a, b | 0 <= a < zone.width && 0 <= b < zone.height :: zone.tiles[a, b] == Tile.NewTile(Tile.Void)
    {
      var x := 0;
      while x < zone.width
        invariant 0 <= x <= zone.width
        invariant forall a, b | 0 <= a < x && 0 <= b < zone.height :: zone.tiles[a, b] == Tile.NewTile(Tile.Void)
      {
        var y := 0;
        while y < zone.height
          invariant 0 <= y <= zone.height
          invariant forall a, b | 0 <= a < x && 0 <= b < zone.height :: zone.tiles[a, b] == Tile.NewTile(Tile.Void)
          invariant forall b | 0 <= b < y :: zone.tiles[x, b] == Tile.NewTile(Tile.Void)
        {
          zone.tiles[x, y] := Tile.NewTile(Tile.Void);
          y := y + 1;
        }
        x := x + 1;
      }
    }

    /** The top and bottom wall rows, clipped to the map. */
    method BuildHorizontalWalls(rx: int, ry: int, rw: int, rh: int)
      requires Valid()
      modifies zone.tiles
      ensures forall a, b | 0 <= a < zone.width && 0 <= b < zone.height ::
        zone.tiles[a, b] == (if rx - 1 <= a <= rx + rw && (b == ry - 1 || b == ry + rh)
                             then Tile.NewTile(Tile.Wall) else old(zone.tiles[a, b]))
    {
      var x := rx - 1;
      while x < rx + rw + 1
        invariant x <= rx + rw + 1 || x == rx - 1
        invariant forall a, b | 0 <= a < zone.width && 0 <= b < zone.height ::
          zone.tiles[a, b] == (if rx - 1 <= a < x && (b == ry - 1 || b == ry + rh)
                               then Tile.NewTile(Tile.Wall) else old(zone.tiles[a, b]))
      {
        if 0 <= x < zone.width {
          if 0 <= ry - 1 < zone.height {
            zone.tiles[x, ry - 1] := Tile.NewTile(Tile.Wall);
          }
          if 0 <= ry + rh < zone.height {
            zone.tiles[x, ry + rh] := Tile.NewTile(Tile.Wall);
          }
        }
        x := x + 1;
      }
    }

    /** The left and right wall columns, clipped to the map. */
    method BuildVerticalWalls(rx: int, ry: int, rw: int, rh: int)
      requires Valid()
      modifies zone.tiles
      ensures forall a, b | 0 <= a < zone.width && 0 <= b < zone.height ::
        zone.tiles[a, b] == (if ry - 1 <= b <= ry + rh && (a == rx - 1 || a == rx + rw)
                             then Tile.NewTile(Tile.Wall) else old(zone.tiles[a, b]))
    {
      var y := ry - 1;
      while y < ry + rh + 1
        invariant y <= ry + rh + 1 || y == ry - 1
        invariant forall a, b | 0 <= a < zone.width && 0 <= b < zone.height ::
          zone.tiles[a, b] == (if ry - 1 <= b < y && (a == rx - 1 || a == rx + rw)
                               then Tile.NewTile(Tile.Wall) else old(zone.tiles[a, b]))
      {
        if 0 <= y < zone.height {
          if 0 <= rx - 1 < zone.width {
            zone.tiles[rx - 1, y] := Tile.NewTile(Tile.Wall);
          }
          if 0 <= rx + rw < zone.width {
            zone.tiles[rx + rw, y] := Tile.NewTile(Tile.Wall);
          }
        }
        y := y + 1;
      }
    }

    /** The room's floor, clipped to the map. */
    method BuildFloor(rx: int, ry: int, rw: int, rh: int)
      requires Valid()
      modifies zone.tiles
      ensures forall a, b | 0 <= a < zone.width && 0 <= b < zone.height ::
        zone.tiles[a, b] == (if rx <= a < rx + rw && ry <= b < ry + rh
                             then Tile.NewTile(Tile.Floor) else old(zone.tiles[a, b]))
    {
      var x := rx;
      while x < rx + rw
        invariant forall a, b | 0 <= a < zone.width && 0 <= b < zone.height ::
          zone.tiles[a, b] == (if rx <= a < x && a < rx + rw && ry <= b < ry + rh
                               then Tile.NewTile(Tile.Floor) else old(zone.tiles[a, b]))
      {
        var y := ry;
        while y < ry + rh
          invariant x < rx + rw
          invariant forall a, b | 0 <= a < zone.width && 0 <= b < zone.height ::
            zone.tiles[a, b] == (if ((rx <= a < x && a < rx + rw) || (a == x && ry <= b < y)) && ry <= b < ry + rh
                                 then Tile.NewTile(Tile.Floor) else old(zone.tiles[a, b]))
        {
          if 0 <= x < zone.width && 0 <= y < zone.height {
            zone.tiles[x, y] := Tile.NewTile(Tile.Floor);
          }
          y := y + 1;
        }
        x := x + 1;
      }
    }

    /** _reveal_all_tiles: every tile visible and explored, its type unchanged. */
    method RevealAllTiles()
      requires Valid()
      modifies zone.tiles
      ensures forall a, b | 0 <= a < zone.width && 0 <= b < zone.height ::
        zone.tiles[a, b] == old(zone.tiles[a, b]).(visible := true, explored := true)
    {
      var x := 0;
      while x < zone.width
        invariant 0 <= x <= zone.width
        invariant forall a, b | 0 <= a < zone.width && 0 <= b < zone.height ::
          zone.tiles[a, b] == if a < x then old(zone.tiles[a, b]).(visible := true, explored := true)
                              else old(zone.tiles[a, b])
      {
        var y := 0;
        while y < zone.height
          invariant 0 <= y <= zone.height
          invariant forall a, b | 0 <= a < zone.width && 0 <= b < zone.height ::
            zone.tiles[a, b] == if a < x || (a == x && b < y) then old(zone.tiles[a, b]).(visible := true, explored := true)
                                else old(zone.tiles[a, b])
        {
          zone.tiles[x, y] := zone.tiles[x, y].(visible := true, explored := true);
          y := y + 1;
        }
        x := x + 1;
      }
    }

    /** The room-building loops of generate, in order: VOID, top and bottom walls, side walls, floor. */
    method BuildRoom()
      requires Valid()
      modifies zone.tiles
      ensures forall a, b | 0 <= a < zone.width && 0 <= b < zone.height ::
        zone.tiles[a, b] == Tile.NewTile(RoomType(zone.width, zone.height, a, b))
    {
      var w, h := zone.width, zone.height;
      FillVoid();
      var rw, rh := RoomWidth(w), RoomHeight(h);
      var rx, ry := w / 2 - rw / 2, h / 2 - rh / 2;
      BuildHorizontalWalls(rx, ry, rw, rh);
      BuildVerticalWalls(rx, ry, rw, rh);
      BuildFloor(rx, ry, rw, rh);
    }

    /** The entrance stairs of generate, recorded as dungeon_entrance and stairs_down. */
    method PlaceEntrance()
      requires Valid() && zone.width >= 1 && zone.height >= 7
      requires forall a, b | 0 <= a < zone.width && 0 <= b < zone.height ::
        zone.tiles[a, b] == Tile.NewTile(RoomType(zone.width, zone.height, a, b))
      modifies zone.tiles, this`dungeonEntrance, this`stairsDown
      ensures forall a, b | 0 <= a < zone.width && 0 <= b < zone.height ::
        zone.tiles[a, b] == Tile.NewTile(LayoutType(zone.width, zone.height, a, b))
      ensures dungeonEntrance == Some(Entrance(zone.width, zone.height)) && stairsDown == dungeonEntrance
    {
      var e := Entrance(zone.width, zone.height);
      zone.tiles[e.0, e.1] := Tile.NewTile(Tile.StairsDown);
      dungeonEntrance := Some(e);
      stairsDown := dungeonEntrance;
    }

    /** The player's start as generate picks it, asking the zone whether the first choice is walkable. */
    method ChooseStart() returns (start: (int, int))
      requires Valid()
      requires forall a, b | 0 <= a < zone.width && 0 <= b < zone.height ::
        zone.tiles[a, b] == Tile.NewTile(LayoutType(zone.width, zone.height, a, b))
      ensures start == StartPosition(zone.width, zone.height)
    {
      var w, h := zone.width, zone.height;
      var rh := RoomHeight(h);
      var ry := h / 2 - rh / 2;
      start := (w / 2, ry + rh - 2);
      if !zone.IsWalkable(start.0, start.1) {
        start := (w / 2 + 1, ry + rh - 2);
      }
    }

    /**
     * spawn_npcs_from_states, up to the spawning itself: every entity whose
     * name is one of the state machine's NPCs is removed, so that it can be
     * spawned again in its current state.
     */
    method PurgeStateNpcs(npcNames: set<string>)
      modifies zone`entities
      ensures zone.entities == Purged(old(zone.entities), npcNames)
    {
      zone.entities := Purged(zone.entities, npcNames);
    }

    /**
     * generate: the tiles end as LayoutTile, the entrance is recorded both as
     * dungeon_entrance and stairs_down, and the player's start is returned.
     * The map must be at least one column wide and seven rows high, or the
     * entrance falls outside it.
     */
    method Generate(npcNames: set<string>) returns (start: (int, int))
      requires Valid() && zone.width >= 1 && zone.height >= 7
      modifies zone.tiles, zone`entities, this`dungeonEntrance, this`stairsDown
      ensures forall a, b | 0 <= a < zone.width && 0 <= b < zone.height ::
        zone.tiles[a, b] == LayoutTile(zone.width, zone.height, a, b)
      ensures dungeonEntrance == Some(Entrance(zone.width, zone.height)) && stairsDown == dungeonEntrance
      ensures start == StartPosition(zone.width, zone.height)
      ensures zone.entities == Purged(old(zone.entities), npcNames)
    {
      var w, h := zone.width, zone.height;
      BuildRoom();
      PlaceEntrance();
      start := ChooseStart();
      PurgeStateNpcs(npcNames);
      RevealAllTiles();
    }

    /** update_fov: reveals every tile and returns every position of the map, whatever the arguments. */
    method UpdateFov(x: int, y: int, radius: int) returns (visible: set<(int, int)>)
      requires Valid()
      modifies zone.tiles
      ensures forall a, b | 0 <= a < zone.width && 0 <= b < zone.height ::
        zone.tiles[a, b] == old(zone.tiles[a, b]).(visible := true, explored := true)
      ensures forall p :: p in visible <==> zone.InBounds(p.0, p.1)
    {
      RevealAllTiles();
      visible := {};
      var a := 0;
      while a < zone.width
        invariant 0 <= a <= zone.width
        invariant forall p :: p in visible <==> 0 <= p.0 < a && 0 <= p.1 < zone.height
      {
        var b := 0;
        while b < zone.height
          invariant 0 <= b <= zone.height
          invariant forall p :: p in visible <==> (0 <= p.0 < a && 0 <= p.1 < zone.height) || (p.0 == a && 0 <= p.1 < b)
        {
          visible := visible + {(a, b)};
          b := b + 1;
        }
        a := a + 1;
      }
    }

    /** to_dict: size, id, type, entrance and the floor items; the tiles are regenerated on load. */
    function ToDict(): (d: LobbyDict)
      reads this, zone, set i | 0 <= i < |zone.items| :: zone.items[i]
      ensures d.width == zone.width && d.height == zone.height && d.zoneId == Some(zone.zoneId)
      ensures d.dungeonEntrance == dungeonEntrance && d.items == Player.DictsOf(zone.items)
    {
      LobbyDict(zone.width, zone.height, Some(zone.zoneId), zone.zoneType, dungeonEntrance, Player.DictsOf(zone.items))
    }
  }

  /**
   * Lobby.from_dict: a lobby of the saved size (id "lobby_main" when none
   * is saved) generated afresh, holding the saved floor items as new
   * objects; null when an item lacks a required key.
   */
  method LobbyFromDict(d: LobbyDict, npcNames: set<string>) returns (l: Lobby?)
    requires d.width >= 1 && d.height >= 7
    ensures l == null <==> exists i | 0 <= i < |d.items| :: Items.FromDict(d.items[i]).None?
    ensures l != null ==> (l.Valid() && l.zone.width == d.width && l.zone.height == d.height &&
      l.zone.zoneId == Items.GetOr(d.zoneId, "lobby_main") && l.zone.zoneType == "lobby" &&
      l.dungeonEntrance == Some(Entrance(d.width, d.height)) && l.zone.entities == [] &&
      |l.zone.items| == |d.items| &&
      (forall i | 0 <= i < |d.items| :: Some(l.zone.items[i].Snapshot()) == Items.FromDict(d.items[i])) &&
      forall a, b | 0 <= a < d.width && 0 <= b < d.height :: l.zone.tiles[a, b] == LayoutTile(d.width, d.height, a, b))
  {
    var restored := Player.RestoreItems(d.items);
    if restored.None? {
      return null;
    }
    l := new Lobby(d.width, d.height, Items.GetOr(d.zoneId, "lobby_main"));
    var _ := l.Generate(npcNames);
    l.zone.items := l.zone.items + restored.value;
  }

  /**
   * Once the room is at least one column wide and two rows high (a map of at
   * least 11 by 12), the walkable cells are exactly the room's floor: the
   * entrance lies inside it.
   */
  lemma WalkableIffInRoom(w: int, h: int, x: int, y: int)
    requires w >= 11 && h >= 12
    ensures Tile.Properties(LayoutType(w, h, x, y)).walkable <==> InRoom(w, h, x, y)
  {
    var e := Entrance(w, h);
    assert InRoom(w, h, e.0, e.1);
  }

  /**
   * On a map of at least 11 by 12 the room is walled in: a walkable cell's
   * four neighbours lie on the map and none of them is VOID.
   */
  lemma RoomEnclosed(w: int, h: int, x: int, y: int, dx: int, dy: int)
    requires w >= 11 && h >= 12
    requires Tile.Properties(LayoutType(w, h, x, y)).walkable
    requires (dx == 0 && (dy == 1 || dy == -1)) || (dy == 0 && (dx == 1 || dx == -1))
    ensures 0 <= x + dx < w && 0 <= y + dy < h
    ensures LayoutType(w, h, x + dx, y + dy) != Tile.Void
  {
    WalkableIffInRoom(w, h, x, y);
  }

  /** With a room at least two rows high the player starts on its floor, at the centre column. */
  lemma StartOnFloor(w: int, h: int)
    requires w >= 11 && h >= 12
    ensures StartPosition(w, h) == (w / 2, RoomY(h) + RoomHeight(h) - 2)
    ensures InRoom(w, h, StartPosition(w, h).0, StartPosition(w, h).1)
  {
    WalkableIffInRoom(w, h, w / 2, RoomY(h) + RoomHeight(h) - 2);
  }
}
