/*
 * items/item.py, items/weapon.py, items/armor.py, items/special.py and the
 * data half of items/potion.py.
 *
 * Python's Item hierarchy (Item, Weapon, Armor, Potion, Gold, Amulet) is one
 * class here: what a subclass adds lives in `kind`, and the attributes that
 * are reassigned after construction (the position and a weapon's or armour's
 * durability) are the only `var` fields.  Everything about an item's data is
 * stated on the value `ItemValue`, which the class exposes as `Snapshot()`.
 */
module Items {
  import opened Common

  /** What each subclass adds to the base attributes. */
  datatype Kind =
    | Plain
    | WeaponKind(weaponType: string, maxDurability: int)
    | ArmorKind(armorType: string, maxDurability: int)
    | PotionKind(potionType: string, effect: string, effectValue: int, potionDuration: int)
    | GoldKind
    | AmuletKind

  /**
   * All attributes of an item.  `gridWidth`/`gridHeight` are the footprint the
   * grid inventory reads with getattr(item, 'grid_width', 1); only a weapon
   * restored from a save carries them explicitly.
   */
  datatype ItemValue = ItemValue(
    x: int, y: int, glyph: string, name: string, color: string, itemType: string,
    identified: bool, usable: bool, slot: Option<string>, persistent: bool,
    attackBonus: int, defenseBonus: int, value: int,
    gridWidth: int, gridHeight: int, durability: int, kind: Kind)

  /** Item(...) with its keyword defaults; the three bonuses start at 0. */
  function BaseValue(x: int, y: int, glyph: string, name: string, color: string, itemType: string,
                     identified: bool, usable: bool, slot: Option<string>, persistent: bool): (v: ItemValue)
    ensures v.attackBonus == 0 && v.defenseBonus == 0 && v.value == 0
    ensures v.x == x && v.y == y && v.name == name && v.itemType == itemType && v.slot == slot
    ensures v.persistent == persistent && v.kind == Plain && v.gridWidth == 1 && v.gridHeight == 1
  {
    ItemValue(x, y, glyph, name, color, itemType, identified, usable, slot, persistent, 0, 0, 0, 1, 1, 0, Plain)
  }

  /** Weapon(...): a weapon-slot item whose maximum durability is its initial durability. */
  function WeaponValue(x: int, y: int, weaponType: string, name: string, attackBonus: int, durability: int): (v: ItemValue)
    ensures IsWeapon(v) && v.durability == durability && v.kind.maxDurability == durability
    ensures v.attackBonus == attackBonus && v.kind.weaponType == weaponType && v.name == name
  {
    BaseValue(x, y, "/", name, "weapon", "weapon", true, false, Some("weapon"), false)
      .(attackBonus := attackBonus, durability := durability, kind := WeaponKind(weaponType, durability))
  }

  /** Armor(...): an armour-slot item whose maximum durability is its initial durability. */
  function ArmorValue(x: int, y: int, armorType: string, name: string, defenseBonus: int, durability: int): (v: ItemValue)
    ensures IsArmor(v) && v.durability == durability && v.kind.maxDurability == durability
    ensures v.defenseBonus == defenseBonus && v.kind.armorType == armorType && v.name == name
  {
    BaseValue(x, y, "[", name, "armor", "armor", true, false, Some("armor"), false)
      .(defenseBonus := defenseBonus, durability := durability, kind := ArmorKind(armorType, durability))
  }

  /** Potion(...): a usable item with no slot. */
  function PotionValue(x: int, y: int, potionType: string, name: string, effect: string, effectValue: int,
                       duration: int): (v: ItemValue)
    ensures IsPotion(v) && v.kind == PotionKind(potionType, effect, effectValue, duration) && v.name == name
  {
    BaseValue(x, y, "!", name, "potion", "potion", true, true, None, false)
      .(kind := PotionKind(potionType, effect, effectValue, duration))
  }

  /** Gold(x, y, amount): a single coin whatever the amount. */
  function GoldValue(x: int, y: int, amount: int): (v: ItemValue)
    ensures IsGold(v) && v.value == 1 && v.x == x && v.y == y
  {
    BaseValue(x, y, "$", "moneda de oro", "gold", "gold", true, false, None, false).(value := 1, kind := GoldKind)
  }

  /** Amulet(x, y). */
  function AmuletValue(x: int, y: int): (v: ItemValue)
    ensures IsAmulet(v) && v.x == x && v.y == y
  {
    BaseValue(x, y, "\"", "Amuleto de Yendor", "amulet", "amulet", true, false, None, false).(kind := AmuletKind)
  }

  /** The attributes every Weapon has, whatever happened to it since. */
  predicate IsWeapon(v: ItemValue)
  {
    v.kind.WeaponKind? && v.itemType == "weapon" && v.glyph == "/" && v.color == "weapon" && v.identified &&
    !v.usable && v.slot == Some("weapon") && v.defenseBonus == 0 && v.value == 0
  }

  predicate IsArmor(v: ItemValue)
  {
    v.kind.ArmorKind? && v.itemType == "armor" && v.glyph == "[" && v.color == "armor" && v.identified &&
    !v.usable && v.slot == Some("armor") && v.attackBonus == 0 && v.value == 0 &&
    v.gridWidth == 1 && v.gridHeight == 1
  }

  predicate IsPotion(v: ItemValue)
  {
    v.kind.PotionKind? && v.itemType == "potion" && v.glyph == "!" && v.color == "potion" &&
    v.usable && v.slot == None && v.attackBonus == 0 && v.defenseBonus == 0 && v.value == 0 &&
    v.gridWidth == 1 && v.gridHeight == 1 && v.durability == 0
  }

  predicate IsGold(v: ItemValue)
  {
    v.kind == GoldKind && v.itemType == "gold" && v.glyph == "$" && v.name == "moneda de oro" &&
    v.color == "gold" && v.identified && !v.usable && v.slot == None && !v.persistent &&
    v.attackBonus == 0 && v.defenseBonus == 0 && v.value == 1 &&
    v.gridWidth == 1 && v.gridHeight == 1 && v.durability == 0
  }

  predicate IsAmulet(v: ItemValue)
  {
    v.kind == AmuletKind && v.itemType == "amulet" && v.glyph == "\"" && v.name == "Amuleto de Yendor" &&
    v.color == "amulet" && v.identified && !v.usable && v.slot == None && !v.persistent &&
    v.attackBonus == 0 && v.defenseBonus == 0 && v.value == 0 &&
    v.gridWidth == 1 && v.gridHeight == 1 && v.durability == 0
  }

  /** A plain Item whose item_type does not name one of the subclasses. */
  predicate IsMisc(v: ItemValue)
  {
    v.kind == Plain && v.gridWidth == 1 && v.gridHeight == 1 && v.durability == 0 &&
    v.itemType !in {"potion", "weapon", "armor", "gold", "amulet"}
  }

  // ---------------------------------------------------------------------
  // Durability (weapon.py, armor.py)
  // ---------------------------------------------------------------------

  /** One confirmed hit: durability drops by one and never below zero. */
  function Worn(durability: int): (d: int)
    ensures d >= 0 && (durability > 0 ==> d == durability - 1) && (durability <= 0 ==> d == 0)
  {
    if durability - 1 > 0 then durability - 1 else 0
  }

  predicate IsBroken(v: ItemValue)
  {
    v.durability <= 0
  }

  /** get_effective_attack: the full bonus until the weapon breaks, then 0. */
  function EffectiveAttack(v: ItemValue): (a: int)
    ensures IsBroken(v) ==> a == 0
    ensures !IsBroken(v) ==> a == v.attackBonus
  {
    if IsBroken(v) then 0 else v.attackBonus
  }

  /** get_effective_defense: the full bonus until the armour breaks, then 0. */
  function EffectiveDefense(v: ItemValue): (d: int)
    ensures IsBroken(v) ==> d == 0
    ensures !IsBroken(v) ==> d == v.defenseBonus
  {
    if IsBroken(v) then 0 else v.defenseBonus
  }

  /** Durability after n confirmed hits. */
  function WornTimes(durability: int, n: nat): int
  {
    if n == 0 then durability else Worn(WornTimes(durability, n - 1))
  }

  /** A weapon or armour with durability d is broken after exactly d hits and stays broken. */
  lemma {:induction false} WornTimesValue(durability: int, n: nat)
    requires durability >= 0
    ensures WornTimes(durability, n) == if durability - n > 0 then durability - n else 0
  {
    if n > 0 {
      WornTimesValue(durability, n - 1);
    }
  }

  /** Wear never turns a weapon back into a working one and keeps everything else. */
  lemma WearKeepsWeapon(v: ItemValue)
    requires IsWeapon(v)
    ensures IsWeapon(v.(durability := Worn(v.durability)))
    ensures IsBroken(v) ==> IsBroken(v.(durability := Worn(v.durability)))
  {
  }

  // ---------------------------------------------------------------------
  // Item.use
  // ---------------------------------------------------------------------

  /** The base use: one refusal message, and the item is not consumed. */
  function BaseUse(v: ItemValue): (r: (seq<string>, bool))
    ensures |r.0| == 1 && !r.1
  {
    (["No puedes usar " + v.name + "."], false)
  }

  // ---------------------------------------------------------------------
  // Serialisation
  // ---------------------------------------------------------------------

  /** The dictionary form; a missing key is None. */
  datatype ItemDict = ItemDict(
    x: Option<int>, y: Option<int>, glyph: Option<string>, name: Option<string>, color: Option<string>,
    itemType: Option<string>, identified: Option<bool>, usable: Option<bool>, slot: Option<string>,
    attackBonus: Option<int>, defenseBonus: Option<int>, value: Option<int>, persistent: Option<bool>,
    weaponType: Option<string>, armorType: Option<string>, durability: Option<int>, maxDurability: Option<int>,
    potionType: Option<string>, effect: Option<string>, effectValue: Option<int>, duration: Option<int>,
    gridWidth: Option<int>, gridHeight: Option<int>)

  function GetOr<T>(o: Option<T>, default: T): T
  {
    if o.Some? then o.value else default
  }

  /** Item.to_dict and the subclasses' additions; "persistent" only when it is true. */
  function ToDict(v: ItemValue): (d: ItemDict)
    ensures d.persistent == (if v.persistent then Some(true) else None)
    ensures d.x == Some(v.x) && d.y == Some(v.y) && d.name == Some(v.name) && d.itemType == Some(v.itemType)
    ensures d.gridWidth == None && d.gridHeight == None
  {
    var base := ItemDict(Some(v.x), Some(v.y), Some(v.glyph), Some(v.name), Some(v.color), Some(v.itemType),
                         Some(v.identified), Some(v.usable), v.slot, Some(v.attackBonus), Some(v.defenseBonus),
                         Some(v.value), if v.persistent then Some(true) else None,
                         None, None, None, None, None, None, None, None, None, None);
    match v.kind
    case WeaponKind(wt, maxD) =>
      base.(weaponType := Some(wt), durability := Some(v.durability), maxDurability := Some(maxD))
    case ArmorKind(at, maxD) =>
      base.(armorType := Some(at), durability := Some(v.durability), maxDurability := Some(maxD))
    case PotionKind(pt, e, ev, dur) =>
      base.(potionType := Some(pt), effect := Some(e), effectValue := Some(ev), duration := Some(dur))
    case _ => base
  }

  /** Weapon.from_dict: the saved maximum wins, and the footprint defaults to 1x2. */
  function WeaponFromDict(d: ItemDict): (r: Option<ItemValue>)
    ensures r.Some? ==> IsWeapon(r.value)
  {
    if d.x.None? || d.y.None? || d.name.None? then None
    else
      var w := WeaponValue(d.x.value, d.y.value, GetOr(d.weaponType, "bronze_dagger"), d.name.value,
                           GetOr(d.attackBonus, 2), GetOr(d.durability, 8));
      Some(w.(kind := WeaponKind(w.kind.weaponType, GetOr(d.maxDurability, w.durability)),
              persistent := GetOr(d.persistent, false),
              gridWidth := GetOr(d.gridWidth, 1), gridHeight := GetOr(d.gridHeight, 2)))
  }

  function ArmorFromDict(d: ItemDict): (r: Option<ItemValue>)
    ensures r.Some? ==> IsArmor(r.value)
  {
    if d.x.None? || d.y.None? || d.name.None? then None
    else
      var a := ArmorValue(d.x.value, d.y.value, GetOr(d.armorType, "leather_armor"), d.name.value,
                          GetOr(d.defenseBonus, 2), GetOr(d.durability, 6));
      Some(a.(kind := ArmorKind(a.kind.armorType, GetOr(d.maxDurability, a.durability)),
              persistent := GetOr(d.persistent, false)))
  }

  function PotionFromDict(d: ItemDict): (r: Option<ItemValue>)
    ensures r.Some? ==> IsPotion(r.value)
  {
    if d.x.None? || d.y.None? || d.name.None? then None
    else
      var p := PotionValue(d.x.value, d.y.value, GetOr(d.potionType, "health_potion"), d.name.value,
                           GetOr(d.effect, "heal"), GetOr(d.effectValue, 10), GetOr(d.duration, 0));
      Some(p.(identified := GetOr(d.identified, true), persistent := GetOr(d.persistent, false)))
  }

  /**
   * Item.from_dict: dispatches on item_type (default "misc") to the subclass
   * readers; None stands for the KeyError of a missing required key.
   */
  function FromDict(d: ItemDict): (r: Option<ItemValue>)
    ensures r.Some? && GetOr(d.itemType, "misc") == "weapon" ==> IsWeapon(r.value)
    ensures r.Some? && GetOr(d.itemType, "misc") == "armor" ==> IsArmor(r.value)
    ensures r.Some? && GetOr(d.itemType, "misc") == "potion" ==> IsPotion(r.value)
    ensures r.Some? && GetOr(d.itemType, "misc") == "gold" ==> IsGold(r.value)
    ensures r.Some? && GetOr(d.itemType, "misc") == "amulet" ==> IsAmulet(r.value)
    ensures r.None? <==> (d.x.None? || d.y.None? ||
      (GetOr(d.itemType, "misc") in {"potion", "weapon", "armor"} && d.name.None?) ||
      (GetOr(d.itemType, "misc") !in {"potion", "weapon", "armor", "gold", "amulet"} &&
       (d.glyph.None? || d.name.None? || d.color.None?)))
  {
    var t := GetOr(d.itemType, "misc");
    if t == "potion" then PotionFromDict(d)
    else if t == "weapon" then WeaponFromDict(d)
    else if t == "armor" then ArmorFromDict(d)
    else if t == "gold" then
      if d.x.None? || d.y.None? then None else Some(GoldValue(d.x.value, d.y.value, GetOr(d.value, 1)))
    else if t == "amulet" then
      if d.x.None? || d.y.None? then None else Some(AmuletValue(d.x.value, d.y.value))
    else if d.x.None? || d.y.None? || d.glyph.None? || d.name.None? || d.color.None? then None
    else
      var b := BaseValue(d.x.value, d.y.value, d.glyph.value, d.name.value, d.color.value, t,
                         GetOr(d.identified, true), GetOr(d.usable, false), d.slot, GetOr(d.persistent, false));
      Some(b.(attackBonus := GetOr(d.attackBonus, 0), defenseBonus := GetOr(d.defenseBonus, 0),
              value := GetOr(d.value, 0)))
  }

  /** A misc item comes back with every attribute. */
  lemma MiscRoundTrip(v: ItemValue)
    requires IsMisc(v)
    ensures FromDict(ToDict(v)) == Some(v)
  {
  }

  /**
   * A weapon keeps its type, name, bonus, durability and maximum; its
   * inventory footprint comes back as 1x2 because it is not saved.
   */
  lemma WeaponRoundTrip(v: ItemValue)
    requires IsWeapon(v)
    ensures FromDict(ToDict(v)) == Some(v.(gridWidth := 1, gridHeight := 2))
  {
  }

  lemma ArmorRoundTrip(v: ItemValue)
    requires IsArmor(v)
    ensures FromDict(ToDict(v)) == Some(v)
  {
  }

  lemma PotionRoundTrip(v: ItemValue)
    requires IsPotion(v)
    ensures FromDict(ToDict(v)) == Some(v)
  {
  }

  /** Gold restores to a coin of value 1 and an amulet to the amulet at the saved position. */
  lemma SpecialRoundTrip(v: ItemValue)
    requires IsGold(v) || IsAmulet(v)
    ensures FromDict(ToDict(v)) == Some(v)
  {
  }

  // ---------------------------------------------------------------------
  // The item object
  // ---------------------------------------------------------------------

  class Item {
    var x: int
    var y: int
    const glyph: string
    const name: string
    const color: string
    const itemType: string
    const identified: bool
    const usable: bool
    const slot: Option<string>
    const persistent: bool
    const attackBonus: int
    const defenseBonus: int
    const value: int
    const gridWidth: int
    const gridHeight: int
    var durability: int
    const kind: Kind

    function Snapshot(): (v: ItemValue)
      reads this
    {
      ItemValue(x, y, glyph, name, color, itemType, identified, usable, slot, persistent,
                attackBonus, defenseBonus, value, gridWidth, gridHeight, durability, kind)
    }

    /** An object carrying exactly the attributes v. */
    constructor (v: ItemValue)
      ensures Snapshot() == v
    {
      x, y, glyph, name, color, itemType := v.x, v.y, v.glyph, v.name, v.color, v.itemType;
      identified, usable, slot, persistent := v.identified, v.usable, v.slot, v.persistent;
      attackBonus, defenseBonus, value := v.attackBonus, v.defenseBonus, v.value;
      gridWidth, gridHeight, durability, kind := v.gridWidth, v.gridHeight, v.durability, v.kind;
    }

    /** Weapon.use_weapon (and Armor.take_hit): one hit of wear; returns what is left. */
    method Wear() returns (left: int)
      modifies this`durability
      ensures durability == Worn(old(durability)) && left == durability
    {
      durability := if durability - 1 > 0 then durability - 1 else 0;
      left := durability;
    }

    /** Moves the item to (nx, ny), as Zone.add_item does before appending it. */
    method MoveTo(nx: int, ny: int)
      modifies this`x, this`y
      ensures Snapshot() == old(Snapshot()).(x := nx, y := ny)
    {
      x, y := nx, ny;
    }
  }

  /** Item.from_dict as an object: a fresh item, or null for a missing key. */
  method ItemFromDict(d: ItemDict) returns (it: Item?)
    ensures it == null <==> FromDict(d).None?
    ensures it != null ==> fresh(it) && it.Snapshot() == FromDict(d).value
  {
    var r := FromDict(d);
    if r.None? {
      it := null;
    } else {
      it := new Item(r.value);
    }
  }
}
