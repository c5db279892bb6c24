/*
 * systems/inventory.py, GridInventory: an inventory laid out as a grid of
 * cells, in which every item covers a rectangle of gridWidth × gridHeight
 * cells whose top-left cell is recorded for it.
 *
 * The grid is the matrix grid[col][row] of the source, an array2 indexed
 * [gx, gy]; the record dict keyed by id(item) is a sequence of records in
 * insertion order with one record per item.
 */
module GridInventory {
  import opened Common
  import Items

  /** GRID_INVENTORY_WIDTH and GRID_INVENTORY_HEIGHT of config.py. */
  const GRID_INVENTORY_WIDTH: nat := 4
  const GRID_INVENTORY_HEIGHT: nat := 3

  /** One entry of the record dict: the item and its top-left cell. */
  datatype Record = Record(item: Items.Item, gx: int, gy: int)

  /** Cell (x, y) lies in the w × h rectangle whose top-left cell is (gx, gy). */
  predicate InRect(gx: int, gy: int, w: int, h: int, x: int, y: int)
  {
    gx <= x < gx + w && gy <= y < gy + h
  }

  predicate Covers(r: Record, x: int, y: int)
  {
    InRect(r.gx, r.gy, r.item.gridWidth, r.item.gridHeight, x, y)
  }

  /** The record's rectangle lies within a width × height grid. */
  predicate Inside(r: Record, width: int, height: int)
  {
    0 <= r.gx && 0 <= r.gy && r.gx + r.item.gridWidth <= width && r.gy + r.item.gridHeight <= height
  }

  /** The index of the first record whose rectangle covers (x, y), -1 when none does. */
  function OwnerIndex(rs: seq<Record>, x: int, y: int): (k: int)
    ensures -1 <= k < |rs|
    ensures k == -1 <==> forall i | 0 <= i < |rs| :: !Covers(rs[i], x, y)
    ensures k >= 0 ==> Covers(rs[k], x, y) && forall i | 0 <= i < k :: !Covers(rs[i], x, y)
  {
    if rs == [] then -1
    else if Covers(rs[0], x, y) then 0
    else
      var k := OwnerIndex(rs[1..], x, y);
      assert forall i | 0 < i < |rs| :: rs[i] == rs[1..][i - 1];
      if k == -1 then -1 else k + 1
  }

  /** The item whose rectangle covers (x, y), null when the cell is free. */
  function Owner(rs: seq<Record>, x: int, y: int): Items.Item?
  {
    var k := OwnerIndex(rs, x, y);
    if k < 0 then null else rs[k].item
  }

  /** The index of the item's record, -1 when it has none. */
  function RecordIndex(rs: seq<Record>, item: Items.Item): (k: int)
    ensures -1 <= k < |rs|
    ensures k == -1 <==> forall i | 0 <= i < |rs| :: rs[i].item != item
    ensures k >= 0 ==> rs[k].item == item && forall i | 0 <= i < k :: rs[i].item != item
  {
    if rs == [] then -1
    else if rs[0].item == item then 0
    else
      var k := RecordIndex(rs[1..], item);
      assert forall i | 0 < i < |rs| :: rs[i] == rs[1..][i - 1];
      if k == -1 then -1 else k + 1
  }

  /** Python's `d[key] = value`: an existing key keeps its place, a new one goes last. */
  function SetRecord(rs: seq<Record>, r: Record): (s: seq<Record>)
  {
    var k := RecordIndex(rs, r.item);
    if k < 0 then rs + [r] else rs[k := r]
  }

  /** `del d[key]` for a present key. */
  function DeleteAt(rs: seq<Record>, k: nat): (s: seq<Record>)
    requires k < |rs|
    ensures |s| == |rs| - 1
    ensures forall j | 0 <= j < |s| :: s[j] == rs[if j < k then j else j + 1]
  {
    rs[..k] + rs[k + 1..]
  }

  predicate Distinct(rs: seq<Record>)
  {
    forall i, j | 0 <= i < j < |rs| :: rs[i].item != rs[j].item
  }

  /** No cell is covered by two records. */
  ghost predicate Disjoint(rs: seq<Record>)
  {
    forall i, j, x, y | 0 <= i < |rs| && 0 <= j < |rs| && i != j && Covers(rs[i], x, y) :: !Covers(rs[j], x, y)
  }

  /** With disjoint records, the record covering a cell is its owner. */
  lemma OwnerUnique(rs: seq<Record>, i: nat, x: int, y: int)
    requires Disjoint(rs) && i < |rs| && Covers(rs[i], x, y)
    ensures OwnerIndex(rs, x, y) == i
  {
  }

  lemma OwnerSnoc(rs: seq<Record>, r: Record, x: int, y: int)
    requires forall i | 0 <= i < |rs| :: !Covers(rs[i], x, y) || !Covers(r, x, y)
    ensures Owner(rs + [r], x, y) == (if Covers(r, x, y) then r.item else Owner(rs, x, y))
  {
    var s := rs + [r];
    var k := OwnerIndex(rs, x, y);
    var k' := OwnerIndex(s, x, y);
    assert forall i | 0 <= i < |rs| :: s[i] == rs[i];
    if k >= 0 {
      assert k' == k;
    } else if Covers(r, x, y) {
      assert s[|rs|] == r;
      assert k' == |rs|;
    }
  }

  /** Deleting a record frees exactly its cells. */
  lemma OwnerDelete(rs: seq<Record>, k: nat, x: int, y: int)
    requires Disjoint(rs) && k < |rs|
    ensures Owner(DeleteAt(rs, k), x, y) == (if Covers(rs[k], x, y) then null else Owner(rs, x, y))
  {
    var s := DeleteAt(rs, k);
    var m := OwnerIndex(s, x, y);
    if m >= 0 {
      var i := if m < k then m else m + 1;
      assert s[m] == rs[i] && i != k;
      OwnerUnique(rs, i, x, y);
      if Covers(rs[k], x, y) {
        assert false;
      }
    } else if !Covers(rs[k], x, y) && OwnerIndex(rs, x, y) >= 0 {
      DeleteKeeps(rs, k, OwnerIndex(rs, x, y));
      assert false;
    }
  }

  lemma DeleteKeeps(rs: seq<Record>, k: nat, i: nat)
    requires k < |rs| && i < |rs| && i != k
    ensures var j := if i < k then i else i - 1; 0 <= j < |rs| - 1 && DeleteAt(rs, k)[j] == rs[i]
  {
  }

  lemma DeletePreserves(rs: seq<Record>, k: nat, width: int, height: int)
    requires k < |rs| && Distinct(rs) && Disjoint(rs)
    requires forall i | 0 <= i < |rs| :: Inside(rs[i], width, height)
    ensures var s := DeleteAt(rs, k);
      Distinct(s) && Disjoint(s) && forall i | 0 <= i < |s| :: Inside(s[i], width, height)
  {
    var s := DeleteAt(rs, k);
    forall i, j | 0 <= i < j < |s|
      ensures s[i].item != s[j].item
    {
      assert s[i] == rs[if i < k then i else i + 1];
      assert s[j] == rs[if j < k then j else j + 1];
    }
    forall i, j, x, y | 0 <= i < |s| && 0 <= j < |s| && i != j && Covers(s[i], x, y)
      ensures !Covers(s[j], x, y)
    {
      assert s[i] == rs[if i < k then i else i + 1];
      assert s[j] == rs[if j < k then j else j + 1];
    }
  }

  /** Fills the w × h rectangle at (gx, gy) with the item. */
  method FillRect(g: array2<Items.Item?>, gx: int, gy: int, w: int, h: int, item: Items.Item)
    requires 0 <= gx && 0 <= gy && gx + w <= g.Length0 && gy + h <= g.Length1
    modifies g
    ensures forall x, y | 0 <= x < g.Length0 && 0 <= y < g.Length1 ::
      g[x, y] == (if InRect(gx, gy, w, h, x, y) then item else old(g[x, y]))
  {
    var dx := 0;
    while dx < w
      invariant 0 <= dx && (dx <= w || dx == 0)
      invariant forall x, y | 0 <= x < g.Length0 && 0 <= y < g.Length1 ::
        g[x, y] == (if InRect(gx, gy, dx, h, x, y) then item else old(g[x, y]))
    {
      var dy := 0;
      while dy < h
        invariant 0 <= dy && (dy <= h || dy == 0)
        invariant forall x, y | 0 <= x < g.Length0 && 0 <= y < g.Length1 ::
          g[x, y] == (if InRect(gx, gy, dx, h, x, y) || (x == gx + dx && gy <= y < gy + dy) then item else old(g[x, y]))
      {
        g[gx + dx, gy + dy] := item;
        dy := dy + 1;
      }
      dx := dx + 1;
    }
  }

  /**
   * Empties the cells of the w × h rectangle at (gx, gy) that lie in the
   * grid and hold the item.
   */
  method ClearRect(g: array2<Items.Item?>, gx: int, gy: int, w: int, h: int, item: Items.Item)
    requires 0 <= gx && 0 <= gy
    modifies g
    ensures forall x, y | 0 <= x < g.Length0 && 0 <= y < g.Length1 ::
      g[x, y] == (if InRect(gx, gy, w, h, x, y) && old(g[x, y]) == item then null else old(g[x, y]))
  {
    var dx := 0;
    while dx < w
      invariant 0 <= dx && (dx <= w || dx == 0)
      invariant forall x, y | 0 <= x < g.Length0 && 0 <= y < g.Length1 ::
        g[x, y] == (if InRect(gx, gy, dx, h, x, y) && old(g[x, y]) == item then null else old(g[x, y]))
    {
      var dy := 0;
      while dy < h
        invariant 0 <= dy && (dy <= h || dy == 0)
        invariant forall x, y | 0 <= x < g.Length0 && 0 <= y < g.Length1 ::
          g[x, y] == (if (InRect(gx, gy, dx, h, x, y) || (x == gx + dx && gy <= y < gy + dy)) && old(g[x, y]) == item
                      then null else old(g[x, y]))
      {
        if gx + dx < g.Length0 && gy + dy < g.Length1 && g[gx + dx, gy + dy] == item {
          g[gx + dx, gy + dy] := null;
        }
        dy := dy + 1;
      }
      dx := dx + 1;
    }
  }

  /** Row-major order of top-left cells: (row, column). */
  predicate PosLe(a: Record, b: Record)
  {
    a.gy < b.gy || (a.gy == b.gy && a.gx <= b.gx)
  }

  predicate SortedByPos(rs: seq<Record>)
  {
    forall i, j | 0 <= i < j < |rs| :: PosLe(rs[i], rs[j])
  }

  /** Inserts r after every record not after it, keeping equal keys in arrival order. */
  function InsertByPos(sorted: seq<Record>, r: Record): (s: seq<Record>)
    requires SortedByPos(sorted)
    ensures SortedByPos(s) && multiset(s) == multiset(sorted) + multiset{r}
  {
    if sorted == [] then [r]
    else if PosLe(sorted[|sorted| - 1], r) then sorted + [r]
    else
      var init := sorted[..|sorted| - 1];
      var last := sorted[|sorted| - 1];
      assert sorted == init + [last];
      var t := InsertByPos(init, r);
      assert forall i | 0 <= i < |t| :: t[i] in multiset(t);
      assert forall i | 0 <= i < |init| :: PosLe(init[i], last);
      t + [last]
  }

  /**
   * get_all_items' sorted(key=(row, column)): the records in row-major order
   * of their top-left cells, the same records as before.
   */
  function SortByPos(rs: seq<Record>): (s: seq<Record>)
    ensures SortedByPos(s) && multiset(s) == multiset(rs)
  {
    if rs == [] then []
    else
      assert rs == rs[..|rs| - 1] + [rs[|rs| - 1]];
      InsertByPos(SortByPos(rs[..|rs| - 1]), rs[|rs| - 1])
  }

  function ItemsOf(rs: seq<Record>): (r: seq<Items.Item>)
    ensures |r| == |rs| && forall i | 0 <= i < |rs| :: r[i] == rs[i].item
  {
    seq(|rs|, i requires 0 <= i < |rs| => rs[i].item)
  }

  class GridInventory {
    const width: nat
    const height: nat
    /** grid[gx, gy]: the item covering the cell, or null. */
    const grid: array2<Items.Item?>
    var records: seq<Record>

    /**
     * One record per item; rectangles inside the grid and pairwise
     * disjoint; each cell holds the item whose rectangle covers it.
     */
    ghost predicate Valid()
      reads this, grid
    {
      grid.Length0 == width && grid.Length1 == height &&
      Distinct(records) && Disjoint(records) &&
      (forall i | 0 <= i < |records| :: Inside(records[i], width, height)) &&
      (forall x, y | 0 <= x < width && 0 <= y < height :: grid[x, y] == Owner(records, x, y))
    }

    /** An empty width × height grid (the defaults are GRID_INVENTORY_WIDTH × GRID_INVENTORY_HEIGHT). */
    constructor (width: nat, height: nat)
      ensures Valid() && fresh(grid) && records == []
      ensures this.width == width && this.height == height
    {
      this.width := width;
      this.height := height;
      grid := new Items.Item?[width, height]((x, y) => null);
      records := [];
    }

    /** __len__: one record per placed item. */
    function Len(): (n: nat)
      reads this
      ensures n == |records|
    {
      |records|
    }

    /** __contains__. */
    predicate Contains(item: Items.Item)
      reads this
    {
      RecordIndex(records, item) >= 0
    }

    /** get_item_at: the item covering an in-grid cell, null outside the grid. */
    function GetItemAt(gx: int, gy: int): (r: Items.Item?)
      requires Valid()
      reads this, grid
      ensures 0 <= gx < width && 0 <= gy < height ==> r == Owner(records, gx, gy)
      ensures !(0 <= gx < width && 0 <= gy < height) ==> r == null
    {
      if 0 <= gx < width && 0 <= gy < height then grid[gx, gy] else null
    }

    /** get_item_position: the recorded top-left cell, None for an item not in the grid. */
    function GetItemPosition(item: Items.Item): (r: Option<(int, int)>)
      reads this
      ensures r.None? <==> !Contains(item)
      ensures r.Some? ==> exists i | 0 <= i < |records| :: records[i] == Record(item, r.value.0, r.value.1)
    {
      var k := RecordIndex(records, item);
      if k < 0 then None else Some((records[k].gx, records[k].gy))
    }

    /** get_all_items: every placed item once, ordered by the row and then the column of its top-left cell. */
    function GetAllItems(): (r: seq<Items.Item>)
      reads this
      ensures |r| == |records|
      ensures forall i | 0 <= i < |r| :: Contains(r[i])
      ensures forall i | 0 <= i < |records| :: records[i].item in r
      ensures r == ItemsOf(SortByPos(records))
    {
      var s := SortByPos(records);
      SameRecords(s, records);
      ItemsOf(s)
    }

    /** get_item_by_index: position `index` of get_all_items, None outside it. */
    function GetItemByIndex(index: int): (r: Option<Items.Item>)
      reads this
      ensures r.Some? <==> 0 <= index < |records|
      ensures r.Some? ==> r.value == GetAllItems()[index]
    {
      var all := GetAllItems();
      if 0 <= index < |all| then Some(all[index]) else None
    }

    /** is_full: no cell is empty; with a valid grid, every cell is covered by a record. */
    method IsFull() returns (full: bool)
      requires Valid()
      ensures full <==> forall x, y | 0 <= x < width && 0 <= y < height :: grid[x, y] != null
      ensures full <==> forall x, y | 0 <= x < width && 0 <= y < height :: OwnerIndex(records, x, y) >= 0
    {
      forall x, y | 0 <= x < width && 0 <= y < height
        ensures grid[x, y] != null <==> OwnerIndex(records, x, y) >= 0
      {
        assert grid[x, y] == Owner(records, x, y);
      }
      var gx := 0;
      while gx < width
        invariant 0 <= gx <= width
        invariant forall x, y | 0 <= x < gx && 0 <= y < height :: grid[x, y] != null
      {
        var gy := 0;
        while gy < height
          invariant 0 <= gy <= height
          invariant forall y | 0 <= y < gy :: grid[gx, y] != null
        {
          if grid[gx, gy] == null {
            assert OwnerIndex(records, gx, gy) < 0;
            return false;
          }
          gy := gy + 1;
        }
        gx := gx + 1;
      }
      return true;
    }

    /** The item's rectangle at (gx, gy) lies in the grid and covers only empty cells. */
    ghost predicate Fits(item: Items.Item, gx: int, gy: int)
      requires grid.Length0 == width && grid.Length1 == height
      reads this, grid
    {
      0 <= gx && 0 <= gy && gx + item.gridWidth <= width && gy + item.gridHeight <= height &&
      forall x, y | InRect(gx, gy, item.gridWidth, item.gridHeight, x, y) :: grid[x, y] == null
    }

    /**
     * can_place.  With a valid grid it holds exactly when the rectangle lies
     * in the grid and no recorded item covers any of its cells.
     */
    method CanPlace(item: Items.Item, gx: int, gy: int) returns (ok: bool)
      requires Valid()
      ensures ok <==> Fits(item, gx, gy)
      ensures ok <==> (0 <= gx && 0 <= gy && gx + item.gridWidth <= width && gy + item.gridHeight <= height &&
                       forall x, y | InRect(gx, gy, item.gridWidth, item.gridHeight, x, y) :: OwnerIndex(records, x, y) == -1)
    {
      var w, h := item.gridWidth, item.gridHeight;
      forall x, y | InRect(gx, gy, w, h, x, y) && 0 <= x < width && 0 <= y < height
        ensures grid[x, y] == null <==> OwnerIndex(records, x, y) == -1
      {
        assert grid[x, y] == Owner(records, x, y);
      }
      if gx < 0 || gy < 0 || gx + w > width || gy + h > height {
        return false;
      }
      var dx := 0;
      while dx < w
        invariant 0 <= dx && (dx <= w || dx == 0)
        invariant forall x, y | InRect(gx, gy, dx, h, x, y) :: grid[x, y] == null
      {
        var dy := 0;
        while dy < h
          invariant 0 <= dy && (dy <= h || dy == 0)
          invariant forall x, y | x == gx + dx && gy <= y < gy + dy :: grid[x, y] == null
        {
          if grid[gx + dx, gy + dy] != null {
            return false;
          }
          dy := dy + 1;
        }
        dx := dx + 1;
      }
      return true;
    }

    /**
     * place.  When the item fits, its rectangle is filled with it and its
     * record set to (gx, gy); otherwise nothing changes.  The grid stays
     * valid when the item was not in it already.
     */
    method Place(item: Items.Item, gx: int, gy: int) returns (ok: bool)
      requires Valid()
      modifies this`records, grid
      ensures ok <==> old(Fits(item, gx, gy))
      ensures ok ==> records == SetRecord(old(records), Record(item, gx, gy))
      ensures ok ==> forall x, y | 0 <= x < width && 0 <= y < height ::
        grid[x, y] == (if InRect(gx, gy, item.gridWidth, item.gridHeight, x, y) then item else old(grid[x, y]))
      ensures !ok ==> records == old(records) && unchanged(grid)
      ensures old(!Contains(item)) ==> Valid()
    {
      ok := CanPlace(item, gx, gy);
      if !ok {
        return;
      }
      ghost var rs := records;
      var r := Record(item, gx, gy);
      FillRect(grid, gx, gy, item.gridWidth, item.gridHeight, item);
      records := SetRecord(records, r);
      if RecordIndex(rs, item) < 0 {
        PlacedValid(rs, r);
      }
    }

    /** After a new item's record is appended over cells that were free, the grid is valid again. */
    lemma PlacedValid(rs: seq<Record>, r: Record)
      requires grid.Length0 == width && grid.Length1 == height
      requires records == rs + [r] && RecordIndex(rs, r.item) < 0
      requires Distinct(rs) && Disjoint(rs) && forall i | 0 <= i < |rs| :: Inside(rs[i], width, height)
      requires Inside(r, width, height)
      requires forall i, x, y | 0 <= i < |rs| && Covers(r, x, y) :: !Covers(rs[i], x, y)
      requires forall x, y | 0 <= x < width && 0 <= y < height ::
        grid[x, y] == (if Covers(r, x, y) then r.item else Owner(rs, x, y))
      ensures Valid()
    {
      forall x, y | 0 <= x < width && 0 <= y < height
        ensures grid[x, y] == Owner(records, x, y)
      {
        OwnerSnoc(rs, r, x, y);
      }
      assert forall i | 0 <= i < |rs| :: records[i] == rs[i];
    }

    /**
     * auto_place: the item goes to the first position, scanning rows top to
     * bottom and each row left to right, at which it fits; nothing changes
     * when it fits nowhere.
     */
    method AutoPlace(item: Items.Item) returns (ok: bool, ghost at: (int, int))
      requires Valid()
      modifies this`records, grid
      ensures !ok ==> ((forall x, y | 0 <= x < width && 0 <= y < height :: !old(Fits(item, x, y))) &&
                       records == old(records) && unchanged(grid))
      ensures ok ==> (0 <= at.0 < width && 0 <= at.1 < height && old(Fits(item, at.0, at.1)) &&
                      records == SetRecord(old(records), Record(item, at.0, at.1)))
      ensures ok ==> forall x, y | 0 <= x < width && 0 <= y < height && (y < at.1 || (y == at.1 && x < at.0)) ::
        !old(Fits(item, x, y))
      ensures old(!Contains(item)) ==> Valid()
    {
      at := (0, 0);
      var gy := 0;
      while gy < height
        invariant 0 <= gy <= height
        invariant records == old(records) && unchanged(grid)
        invariant forall x, y | 0 <= x < width && 0 <= y < gy :: !old(Fits(item, x, y))
      {
        var gx := 0;
        while gx < width
          invariant 0 <= gx <= width
          invariant records == old(records) && unchanged(grid)
          invariant forall x, y | 0 <= x < width && 0 <= y < gy :: !old(Fits(item, x, y))
          invariant forall x | 0 <= x < gx :: !old(Fits(item, x, gy))
        {
          var fits := CanPlace(item, gx, gy);
          assert fits == old(Fits(item, gx, gy));
          if fits {
            var _ := Place(item, gx, gy);
            return true, (gx, gy);
          }
          gx := gx + 1;
        }
        gy := gy + 1;
      }
      return false, at;
    }

    /**
     * remove: an item not in the grid changes nothing; otherwise every cell
     * holding it is emptied and its record deleted.
     */
    method Remove(item: Items.Item) returns (ok: bool)
      requires Valid()
      modifies this`records, grid
      ensures Valid()
      ensures ok <==> old(Contains(item))
      ensures ok ==> records == DeleteAt(old(records), old(RecordIndex(records, item)))
      ensures !ok ==> records == old(records)
      ensures forall x, y | 0 <= x < width && 0 <= y < height ::
        grid[x, y] == (if old(grid[x, y]) == item then null else old(grid[x, y]))
    {
      var k := RecordIndex(records, item);
      if k < 0 {
        NotRecordedNotShown(item);
        return false;
      }
      RemoveAt(k);
      return true;
    }

    /** An item without a record shows in no cell. */
    lemma NotRecordedNotShown(item: Items.Item)
      requires Valid() && RecordIndex(records, item) < 0
      ensures forall x, y | 0 <= x < width && 0 <= y < height :: grid[x, y] != item
    {
      forall x, y | 0 <= x < width && 0 <= y < height
        ensures grid[x, y] != item
      {
        assert grid[x, y] == Owner(records, x, y);
      }
    }

    /** Deletes record k and empties the cells showing its item. */
    method RemoveAt(k: nat)
      requires Valid() && k < |records|
      modifies this`records, grid
      ensures Valid()
      ensures records == DeleteAt(old(records), k)
      ensures forall x, y | 0 <= x < width && 0 <= y < height ::
        grid[x, y] == (if old(grid[x, y]) == old(records)[k].item then null else old(grid[x, y]))
    {
      var r := records[k];
      ghost var rs := records;
      ClearRect(grid, r.gx, r.gy, r.item.gridWidth, r.item.gridHeight, r.item);
      records := DeleteAt(records, k);
      assert forall x, y | 0 <= x < width && 0 <= y < height :: old(grid[x, y]) == Owner(rs, x, y);
      RemovedValid(rs, k);
    }

    /** After a record is deleted and the cells showing its item emptied, the grid is valid again. */
    lemma RemovedValid(rs: seq<Record>, k: nat)
      requires grid.Length0 == width && grid.Length1 == height && k < |rs|
      requires Distinct(rs) && Disjoint(rs) && forall i | 0 <= i < |rs| :: Inside(rs[i], width, height)
      requires records == DeleteAt(rs, k)
      requires forall x, y | 0 <= x < width && 0 <= y < height ::
        grid[x, y] == (if Covers(rs[k], x, y) && Owner(rs, x, y) == rs[k].item then null else Owner(rs, x, y))
      ensures Valid()
      ensures forall x, y | 0 <= x < width && 0 <= y < height ::
        grid[x, y] == (if Owner(rs, x, y) == rs[k].item then null else Owner(rs, x, y))
    {
      DeletePreserves(rs, k, width, height);
      forall x, y | 0 <= x < width && 0 <= y < height
        ensures grid[x, y] == Owner(records, x, y)
        ensures grid[x, y] == (if Owner(rs, x, y) == rs[k].item then null else Owner(rs, x, y))
      {
        OwnerDelete(rs, k, x, y);
        if Covers(rs[k], x, y) {
          OwnerUnique(rs, k, x, y);
        }
      }
    }

    /** Placing an item that is not in the grid and removing it again leaves the grid as it was. */
    method PlaceThenRemove(item: Items.Item, gx: int, gy: int) returns (placed: bool)
      requires Valid() && !Contains(item)
      modifies this`records, grid
      ensures Valid() && records == old(records)
      ensures forall x, y | 0 <= x < width && 0 <= y < height :: grid[x, y] == old(grid[x, y])
    {
      NotRecordedNotShown(item);
      ghost var rs := records;
      placed := Place(item, gx, gy);
      if placed {
        assert records == rs + [Record(item, gx, gy)];
        assert forall i | 0 <= i < |rs| :: records[i] == rs[i];
        assert records[|rs|].item == item;
        assert RecordIndex(records, item) == |rs|;
        var _ := Remove(item);
        assert records == rs;
      }
    }

    /** clear: every cell empty and no records. */
    method Clear()
      requires grid.Length0 == width && grid.Length1 == height
      modifies this`records, grid
      ensures Valid() && records == []
    {
      var gx := 0;
      while gx < width
        invariant 0 <= gx <= width
        invariant forall x, y | 0 <= x < gx && 0 <= y < height :: grid[x, y] == null
      {
        var gy := 0;
        while gy < height
          invariant 0 <= gy <= height
          invariant forall x, y | 0 <= x < gx && 0 <= y < height :: grid[x, y] == null
          invariant forall y | 0 <= y < gy :: grid[gx, y] == null
        {
          grid[gx, gy] := null;
          gy := gy + 1;
        }
        gx := gx + 1;
      }
      records := [];
    }
  }

  /** A reordering of the records lists the same items. */
  lemma SameRecords(s: seq<Record>, rs: seq<Record>)
    requires multiset(s) == multiset(rs)
    ensures |s| == |rs|
    ensures forall i | 0 <= i < |s| :: RecordIndex(rs, s[i].item) >= 0
    ensures forall i | 0 <= i < |rs| :: rs[i].item in ItemsOf(s)
  {
    assert |s| == |multiset(s)| == |multiset(rs)| == |rs|;
    forall i | 0 <= i < |s|
      ensures RecordIndex(rs, s[i].item) >= 0
    {
      assert s[i] in multiset(rs);
    }
    forall i | 0 <= i < |rs|
      ensures rs[i].item in ItemsOf(s)
    {
      assert rs[i] in multiset(s);
      var j :| 0 <= j < |s| && s[j] == rs[i];
      assert ItemsOf(s)[j] == rs[i].item;
    }
  }
}
