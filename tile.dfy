/*
 * world/tile.py: the six tile kinds, their fixed property table and a
 * tile's exploration flags.  A tile is a value; the zones that own tiles
 * replace a cell's value when a flag changes.
 */
module Tile {
  import opened Common

  datatype TileType = Wall | Floor | Door | StairsDown | StairsUp | Void

  datatype TileProperties = TileProperties(walkable: bool, transparent: bool, glyph: string,
                                           color: string, darkColor: string)

  /** TILE_PROPERTIES, with the glyphs of config.SYMBOLS. */
  function Properties(t: TileType): (p: TileProperties)
    ensures p.walkable <==> (t != Void && t != Wall)
    ensures p.transparent <==> p.walkable
  {
    match t
    case Void => TileProperties(false, false, " ", "black", "black")
    case Wall => TileProperties(false, false, "#", "wall", "wall_dark")
    case Floor => TileProperties(true, true, ".", "floor", "floor_dark")
    case Door => TileProperties(true, true, "+", "door", "wall_dark")
    case StairsDown => TileProperties(true, true, ">", "stairs", "floor_dark")
    case StairsUp => TileProperties(true, true, "<", "stairs", "floor_dark")
  }

  /** TileType.name. */
  function TypeName(t: TileType): string
  {
    match t
    case Wall => "WALL"
    case Floor => "FLOOR"
    case Door => "DOOR"
    case StairsDown => "STAIRS_DOWN"
    case StairsUp => "STAIRS_UP"
    case Void => "VOID"
  }

  /** TileType[name]; an unknown name is a KeyError. */
  function TypeNamed(name: string): (r: Option<TileType>)
    ensures r.Some? ==> TypeName(r.value) == name
  {
    if name == "WALL" then Some(Wall)
    else if name == "FLOOR" then Some(Floor)
    else if name == "DOOR" then Some(Door)
    else if name == "STAIRS_DOWN" then Some(StairsDown)
    else if name == "STAIRS_UP" then Some(StairsUp)
    else if name == "VOID" then Some(Void)
    else None
  }

  lemma TypeNamedTypeName(t: TileType)
    ensures TypeNamed(TypeName(t)) == Some(t)
  {
  }

  /** The saved form of a tile: its type's name and the explored flag. */
  datatype TileDict = TileDict(typeName: string, explored: bool)

  datatype Tile = Tile(tileType: TileType, explored: bool, visible: bool)
  {
    predicate Walkable() { Properties(tileType).walkable }

    predicate Transparent() { Properties(tileType).transparent }

    function Glyph(): string { Properties(tileType).glyph }

    /** Lit colour when visible, the dark colour once explored, black otherwise. */
    function Color(): (c: string)
      ensures visible ==> c == Properties(tileType).color
      ensures !visible && explored ==> c == Properties(tileType).darkColor
      ensures !visible && !explored ==> c == "black"
    {
      if visible then Properties(tileType).color
      else if explored then Properties(tileType).darkColor
      else "black"
    }

    function ToDict(): (d: TileDict)
      ensures d.explored == explored
    {
      TileDict(TypeName(tileType), explored)
    }
  }

  /** Tile(tile_type): neither explored nor visible. */
  function NewTile(t: TileType): (r: Tile)
    ensures r.tileType == t && !r.explored && !r.visible
  {
    Tile(t, false, false)
  }

  /** Tile.from_dict: a fresh tile of the named type with the saved explored flag. */
  function FromDict(d: TileDict): (r: Option<Tile>)
    ensures r.Some? ==> TypeName(r.value.tileType) == d.typeName && r.value.explored == d.explored && !r.value.visible
    ensures r.None? <==> TypeNamed(d.typeName).None?
  {
    match TypeNamed(d.typeName)
    case None => None
    case Some(t) => Some(NewTile(t).(explored := d.explored))
  }

  /** Saving and restoring keeps the type and the explored flag and clears visibility. */
  lemma TileRoundTrip(t: Tile)
    ensures FromDict(t.ToDict()) == Some(t.(visible := false))
  {
    TypeNamedTypeName(t.tileType);
  }

  /** Walkability and transparency depend on the tile type alone. */
  lemma WalkableByTypeOnly(a: Tile, b: Tile)
    requires a.tileType == b.tileType
    ensures a.Walkable() == b.Walkable() && a.Transparent() == b.Transparent()
  {
  }
}
