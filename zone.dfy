/*
 * world/zone.py: a rectangular map of tiles indexed [x][y], with the
 * entities standing on it and the items lying on its floor.  The dungeon
 * (world/dungeon.py:416-532 repeats these queries word for word) and the
 * lobby both keep their map in a Zone.
 */
module Zone {
  import opened Common
  import Tile
  import Entity
  import Items

  /** Entity `e` stands at (x, y) and blocks movement. */
  predicate BlocksAt(e: Entity.Entity, x: int, y: int)
    reads e
  {
    e.x == x && e.y == y && e.blocks
  }

  /** The comprehension of get_items_at: the items of `xs` lying at (x, y), in list order. */
  function ItemsAt(xs: seq<Items.Item>, x: int, y: int): (r: seq<Items.Item>)
    reads set i | 0 <= i < |xs| :: xs[i]
    ensures |r| <= |xs|
    ensures forall i | 0 <= i < |r| :: r[i] in xs && r[i].x == x && r[i].y == y
    ensures forall i | 0 <= i < |xs| :: xs[i].x == x && xs[i].y == y ==> xs[i] in r
  {
    if xs == [] then []
    else (if xs[0].x == x && xs[0].y == y then [xs[0]] else []) + ItemsAt(xs[1..], x, y)
  }

  class Zone {
    const width: int
    const height: int
    const zoneId: string
    const zoneType: string
    const tiles: array2<Tile.Tile>
    var entities: seq<Entity.Entity>
    var items: seq<Items.Item>

    /** The tile matrix has `width` columns of `height` tiles. */
    predicate Valid()
      reads this
    {
      tiles.Length0 == width && tiles.Length1 == height
    }

    predicate InBounds(x: int, y: int)
    {
      0 <= x < width && 0 <= y < height
    }

    /** Not on the outermost ring of the map, which carving never touches. */
    predicate InsideBorder(x: int, y: int)
    {
      0 < x < width - 1 && 0 < y < height - 1
    }

    /** An empty zone: every tile a fresh WALL, no entities, no items. */
    constructor (width: nat, height: nat, zoneId: string, zoneType: string)
      ensures Valid() && fresh(tiles)
      ensures this.width == width && this.height == height
      ensures this.zoneId == zoneId && this.zoneType == zoneType
      ensures forall x, y | 0 <= x < width && 0 <= y < height :: tiles[x, y] == Tile.NewTile(Tile.Wall)
      ensures entities == [] && items == []
    {
      this.width, this.height, this.zoneId, this.zoneType := width, height, zoneId, zoneType;
      tiles := new Tile.Tile[width, height]((x, y) => Tile.NewTile(Tile.Wall));
      entities, items := [], [];
    }

    /** get_tile: the tile at (x, y), None outside the map. */
    function GetTile(x: int, y: int): (r: Option<Tile.Tile>)
      requires Valid()
      reads this, tiles
      ensures r.Some? <==> InBounds(x, y)
      ensures r.Some? ==> r.value == tiles[x, y]
    {
      if InBounds(x, y) then Some(tiles[x, y]) else None
    }

    /** is_walkable: false outside the map, otherwise the tile's own walkability. */
    predicate IsWalkable(x: int, y: int)
      requires Valid()
      reads this, tiles
      ensures IsWalkable(x, y) <==> GetTile(x, y).Some? && GetTile(x, y).value.Walkable()
    {
      InBounds(x, y) && tiles[x, y].Walkable()
    }

    /** is_transparent: false outside the map, otherwise the tile's own transparency. */
    predicate IsTransparent(x: int, y: int)
      requires Valid()
      reads this, tiles
      ensures IsTransparent(x, y) <==> GetTile(x, y).Some? && GetTile(x, y).value.Transparent()
    {
      InBounds(x, y) && tiles[x, y].Transparent()
    }

    /** get_blocking_entity_at: the first entity in list order that stands at (x, y) and blocks. */
    method GetBlockingEntityAt(x: int, y: int) returns (e: Entity.Entity?)
      ensures e == null <==> forall i | 0 <= i < |entities| :: !BlocksAt(entities[i], x, y)
      ensures e != null ==> exists i | 0 <= i < |entities| :: (entities[i] == e && BlocksAt(e, x, y) &&
        forall j | 0 <= j < i :: !BlocksAt(entities[j], x, y))
    {
      var i := 0;
      while i < |entities|
        invariant 0 <= i <= |entities|
        invariant forall j | 0 <= j < i :: !BlocksAt(entities[j], x, y)
      {
        var c := entities[i];
        if c.x == x && c.y == y && c.blocks {
          return c;
        }
        i := i + 1;
      }
      return null;
    }

    /** get_item_at: the first of the items get_items_at lists, or null when there is none. */
    method GetItemAt(x: int, y: int) returns (it: Items.Item?)
      ensures it == (if ItemsAt(items, x, y) == [] then null else ItemsAt(items, x, y)[0])
    {
      var i := 0;
      while i < |items|
        invariant 0 <= i <= |items|
        invariant ItemsAt(items, x, y) == ItemsAt(items[i..], x, y)
      {
        assert items[i..][1..] == items[i + 1..];
        if items[i].x == x && items[i].y == y {
          return items[i];
        }
        i := i + 1;
      }
      return null;
    }

    /** remove_item: drops the first occurrence; reports whether the item lay here. */
    method RemoveItem(item: Items.Item) returns (removed: bool)
      modifies this`items
      ensures removed <==> item in old(items)
      ensures items == RemoveFirst(old(items), item)
    {
      if item in items {
        items := RemoveFirst(items, item);
        return true;
      }
      return false;
    }

    /** add_item: places the item at (x, y), then appends it to the floor items. */
    method AddItem(item: Items.Item, x: int, y: int)
      modifies this`items, item`x, item`y
      ensures item.Snapshot() == old(item.Snapshot()).(x := x, y := y)
      ensures items == old(items) + [item]
    {
      item.MoveTo(x, y);
      items := items + [item];
    }
  }

  /** An item added at (x, y) is the one get_item_at finds there unless an earlier one lies there too. */
  lemma {:induction false} AddedItemFound(xs: seq<Items.Item>, item: Items.Item, x: int, y: int)
    requires item.x == x && item.y == y
    ensures ItemsAt(xs + [item], x, y) == ItemsAt(xs, x, y) + [item]
    decreases |xs|
  {
    if xs == [] {
      assert ItemsAt([item], x, y) == [item] + ItemsAt([], x, y);
    } else {
      assert (xs + [item])[1..] == xs[1..] + [item];
      AddedItemFound(xs[1..], item, x, y);
    }
  }
}
