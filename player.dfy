/*
 * entities/player.py: the player's list inventory (capped at
 * INVENTORY_CAPACITY), the four equipment slots, attack and defence with
 * equipment, the persistent-item filter used on death, and the save
 * dictionary.  The player's position and glyph live in its Entity body and
 * its combat stats in its Fighter.
 */
module Player {
  import opened Common
  import Items
  import Entity

  const INVENTORY_CAPACITY: nat := 26
  const PLAYER_BASE_HP: int := 37
  const PLAYER_BASE_ATTACK: int := 5
  const PLAYER_BASE_DEFENSE: int := 2

  /** The equipment slots a new player has, in dictionary order. */
  const SLOTS: seq<string> := ["weapon", "armor", "ring_left", "ring_right"]

  datatype FighterDict = FighterDict(maxHp: int, hp: int, baseAttack: int, baseDefense: int, level: int)

  datatype PlayerDict = PlayerDict(
    x: int, y: int, fighter: FighterDict, gold: int, currentFloor: int, totalXp: int, hasAmulet: bool,
    inventory: seq<Items.ItemDict>, equipped: map<string, Option<Items.ItemDict>>)

  /** The saved form of each item, in order. */
  function DictsOf(xs: seq<Items.Item>): (r: seq<Items.ItemDict>)
    reads set i | 0 <= i < |xs| :: xs[i]
    ensures |r| == |xs| && forall i | 0 <= i < |xs| :: r[i] == Items.ToDict(xs[i].Snapshot())
  {
    if xs == [] then [] else [Items.ToDict(xs[0].Snapshot())] + DictsOf(xs[1..])
  }

  class Player {
    const body: Entity.Entity
    const fighter: Entity.Fighter
    var inventory: seq<Items.Item>
    var equipped: map<string, Option<Items.Item>>
    var gold: int
    var currentFloor: int
    var totalXp: int
    var hasAmulet: bool
    /** Set by a poison potion that kills the player; Python reads it with getattr. */
    var deathCause: Option<string>
    /** The `_pending_donation` flag the wandering merchant raises. */
    var pendingDonation: bool

    constructor (x: int, y: int)
      ensures fresh(body) && fresh(fighter)
      ensures body.x == x && body.y == y && body.glyph == "@" && body.blocks
      ensures fighter.maxHp == PLAYER_BASE_HP && fighter.hp == PLAYER_BASE_HP && fighter.Valid()
      ensures fighter.baseAttack == PLAYER_BASE_ATTACK && fighter.baseDefense == PLAYER_BASE_DEFENSE
      ensures fighter.level == 1 && fighter.attackBonus == 0 && fighter.defenseBonus == 0
      ensures inventory == [] && equipped == map s | s in SLOTS :: None
      ensures gold == 0 && currentFloor == 1 && totalXp == 0 && !hasAmulet
      ensures deathCause == None && !pendingDonation
    {
      body := new Entity.Entity(x, y, "@", "Héroe", "player", true);
      fighter := new Entity.Fighter(PLAYER_BASE_HP, PLAYER_BASE_ATTACK, PLAYER_BASE_DEFENSE, 0, 1);
      inventory := [];
      equipped := map s | s in SLOTS :: None;
      gold, currentFloor, totalXp, hasAmulet := 0, 1, 0, false;
      deathCause, pendingDonation := None, false;
    }

    /**
     * The state from_dict arrives at: a new player whose fighter, progression,
     * inventory and slots are then overwritten from the save.
     */
    constructor Restored(d: PlayerDict, f: Entity.Fighter, inv: seq<Items.Item>, eq: map<string, Option<Items.Item>>)
      ensures fresh(body) && body.x == d.x && body.y == d.y && body.glyph == "@" && body.blocks
      ensures fighter == f && inventory == inv && equipped == eq
      ensures gold == d.gold && currentFloor == d.currentFloor && totalXp == d.totalXp && hasAmulet == d.hasAmulet
      ensures deathCause == None && !pendingDonation
    {
      body := new Entity.Entity(d.x, d.y, "@", "Héroe", "player", true);
      fighter := f;
      inventory, equipped := inv, eq;
      gold, currentFloor, totalXp, hasAmulet := d.gold, d.currentFloor, d.totalXp, d.hasAmulet;
      deathCause, pendingDonation := None, false;
    }

    /** Appends unless the list already holds INVENTORY_CAPACITY items. */
    method AddToInventory(item: Items.Item) returns (ok: bool)
      modifies this`inventory
      ensures ok <==> |old(inventory)| < INVENTORY_CAPACITY
      ensures ok ==> inventory == old(inventory) + [item]
      ensures !ok ==> inventory == old(inventory)
    {
      if |inventory| >= INVENTORY_CAPACITY {
        return false;
      }
      inventory := inventory + [item];
      return true;
    }

    /** Removes the first occurrence of this very item. */
    method RemoveFromInventory(item: Items.Item) returns (ok: bool)
      modifies this`inventory
      ensures ok <==> item in old(inventory)
      ensures inventory == RemoveFirst(old(inventory), item)
    {
      ok := item in inventory;
      inventory := RemoveFirst(inventory, item);
    }

    /** get_inventory_item: None outside the list. */
    function GetInventoryItem(index: int): (r: Option<Items.Item>)
      reads this
      ensures r.Some? <==> 0 <= index < |inventory|
      ensures r.Some? ==> r.value == inventory[index]
    {
      if 0 <= index < |inventory| then Some(inventory[index]) else None
    }

    /** Puts the item in its slot when that is one of the player's slots, replacing the previous one. */
    method Equip(item: Items.Item) returns (messages: seq<string>)
      modifies this`equipped
      ensures item.slot.Some? && item.slot.value != "" && item.slot.value in old(equipped) ==>
        equipped == old(equipped)[item.slot.value := Some(item)] &&
        |messages| == (if old(equipped)[item.slot.value].Some? then 2 else 1)
      ensures !(item.slot.Some? && item.slot.value != "" && item.slot.value in old(equipped)) ==>
        equipped == old(equipped) && messages == ["No puedes equipar " + item.name + "."]
    {
      messages := [];
      if item.slot.Some? && item.slot.value != "" && item.slot.value in equipped {
        var s := item.slot.value;
        if equipped[s].Some? {
          messages := messages + ["Te quitas " + equipped[s].value.name + "."];
        }
        equipped := equipped[s := Some(item)];
        messages := messages + ["Equipas " + item.name + "."];
      } else {
        messages := ["No puedes equipar " + item.name + "."];
      }
    }

    /** Empties a filled slot; an empty or unknown slot changes nothing. */
    method Unequip(slot: string) returns (messages: seq<string>)
      modifies this`equipped
      ensures slot in old(equipped) && old(equipped)[slot].Some? ==>
        equipped == old(equipped)[slot := None] && |messages| == 1
      ensures !(slot in old(equipped) && old(equipped)[slot].Some?) ==>
        equipped == old(equipped) && messages == ["No tienes nada equipado ahí."]
    {
      if slot in equipped && equipped[slot].Some? {
        var item := equipped[slot].value;
        equipped := equipped[slot := None];
        messages := ["Te quitas " + item.name + "."];
      } else {
        messages := ["No tienes nada equipado ahí."];
      }
    }

    function EquippedValue(slot: string): (r: Option<Items.ItemValue>)
      reads this, if slot in equipped && equipped[slot].Some? then {equipped[slot].value} else {}
    {
      if slot in equipped && equipped[slot].Some? then Some(equipped[slot].value.Snapshot()) else None
    }

    /** Fighter attack plus the equipped weapon's effective attack. */
    function Attack(): (a: int)
      reads this, fighter, if "weapon" in equipped && equipped["weapon"].Some? then {equipped["weapon"].value} else {}
      ensures EquippedValue("weapon").None? ==> a == fighter.Attack()
      ensures EquippedValue("weapon").Some? && Items.IsBroken(EquippedValue("weapon").value) ==> a == fighter.Attack()
      ensures EquippedValue("weapon").Some? && !Items.IsBroken(EquippedValue("weapon").value) ==>
        a == fighter.Attack() + EquippedValue("weapon").value.attackBonus
    {
      fighter.Attack() + (if EquippedValue("weapon").Some? then Items.EffectiveAttack(EquippedValue("weapon").value) else 0)
    }

    /** Fighter defence plus the equipped armour's effective defence. */
    function Defense(): (d: int)
      reads this, fighter, if "armor" in equipped && equipped["armor"].Some? then {equipped["armor"].value} else {}
      ensures EquippedValue("armor").None? ==> d == fighter.Defense()
      ensures EquippedValue("armor").Some? && Items.IsBroken(EquippedValue("armor").value) ==> d == fighter.Defense()
      ensures EquippedValue("armor").Some? && !Items.IsBroken(EquippedValue("armor").value) ==>
        d == fighter.Defense() + EquippedValue("armor").value.defenseBonus
    {
      fighter.Defense() + (if EquippedValue("armor").Some? then Items.EffectiveDefense(EquippedValue("armor").value) else 0)
    }

    /** The persistent items of the inventory, in order. */
    function GetPersistentItems(): (r: seq<Items.Item>)
      reads this, set i | 0 <= i < |inventory| :: inventory[i]
      ensures forall it | it in r :: it in inventory && it.persistent
      ensures forall it | it in inventory && it.persistent :: it in r
    {
      Persistent(inventory)
    }

    static function Persistent(xs: seq<Items.Item>): (r: seq<Items.Item>)
      ensures forall it | it in r :: it in xs && it.persistent
      ensures forall it | it in xs && it.persistent :: it in r
    {
      if xs == [] then []
      else (if xs[0].persistent then [xs[0]] else []) + Persistent(xs[1..])
    }

    /**
     * On death: only persistent items stay in the inventory, and every slot
     * holding a non-persistent item is emptied.  Returns the kept items.
     */
    method ClearNonPersistentItems() returns (kept: seq<Items.Item>)
      modifies this`inventory, this`equipped
      ensures kept == Persistent(old(inventory)) && inventory == kept
      ensures equipped.Keys == old(equipped).Keys
      ensures forall s | s in equipped ::
        equipped[s] == (if old(equipped)[s].Some? && !old(equipped)[s].value.persistent then None else old(equipped)[s])
    {
      kept := Persistent(inventory);
      inventory := kept;
      equipped := map s | s in equipped ::
        if equipped[s].Some? && !equipped[s].value.persistent then None else equipped[s];
    }

    /** The per-turn update: the fighter's bonuses count down and vanish when they run out. */
    method Update()
      modifies fighter`bonusDuration, fighter`attackBonus, fighter`defenseBonus
      ensures old(fighter.bonusDuration) > 0 ==> fighter.bonusDuration == old(fighter.bonusDuration) - 1
      ensures old(fighter.bonusDuration) <= 0 ==> unchanged(fighter)
      ensures old(fighter.bonusDuration) == 1 ==> fighter.attackBonus == 0 && fighter.defenseBonus == 0
      ensures old(fighter.bonusDuration) > 1 ==>
        fighter.attackBonus == old(fighter.attackBonus) && fighter.defenseBonus == old(fighter.defenseBonus)
    {
      fighter.UpdateBonuses();
    }

    /** to_dict: position, fighter stats, progression, inventory and slots. */
    function ToDict(): (d: PlayerDict)
      reads this, body, fighter, set i | 0 <= i < |inventory| :: inventory[i]
      reads set s | s in equipped && equipped[s].Some? :: equipped[s].value
      ensures d.x == body.x && d.y == body.y && d.gold == gold && d.currentFloor == currentFloor
      ensures d.totalXp == totalXp && d.hasAmulet == hasAmulet
      ensures d.fighter == FighterDict(fighter.maxHp, fighter.hp, fighter.baseAttack, fighter.baseDefense, fighter.level)
      ensures |d.inventory| == |inventory| &&
        forall i | 0 <= i < |inventory| :: d.inventory[i] == Items.ToDict(inventory[i].Snapshot())
      ensures d.equipped.Keys == equipped.Keys
    {
      PlayerDict(body.x, body.y,
                 FighterDict(fighter.maxHp, fighter.hp, fighter.baseAttack, fighter.baseDefense, fighter.level),
                 gold, currentFloor, totalXp, hasAmulet,
                 DictsOf(inventory),
                 map s | s in equipped :: if equipped[s].Some? then Some(Items.ToDict(equipped[s].value.Snapshot())) else None)
    }
  }

  /** The restored hit points: the setter clamps the saved hp to the restored maximum. */
  function RestoredHp(f: FighterDict): (hp: int)
    ensures 0 <= f.hp <= f.maxHp ==> hp == f.hp
  {
    Entity.Clamp(f.hp, f.maxHp)
  }

  /** The saved items as fresh objects, or None when one of them lacks a required key. */
  method RestoreItems(ds: seq<Items.ItemDict>) returns (r: Option<seq<Items.Item>>)
    ensures r.None? <==> exists i | 0 <= i < |ds| :: Items.FromDict(ds[i]).None?
    ensures r.Some? ==> (|r.value| == |ds| &&
      forall i | 0 <= i < |ds| :: fresh(r.value[i]) && Some(r.value[i].Snapshot()) == Items.FromDict(ds[i]))
  {
    var i := 0;
    var inv: seq<Items.Item> := [];
    while i < |ds|
      invariant 0 <= i <= |ds| && |inv| == i
      invariant forall j | 0 <= j < i :: fresh(inv[j]) && Some(inv[j].Snapshot()) == Items.FromDict(ds[j])
    {
      var it := Items.ItemFromDict(ds[i]);
      if it == null {
        return None;
      }
      inv := inv + [it];
      i := i + 1;
    }
    return Some(inv);
  }

  /** The slots a restored player has: its own four plus every saved slot that holds an item. */
  function RestoredSlots(m: map<string, Option<Items.ItemDict>>): set<string>
  {
    (set s | s in SLOTS) + (set s | s in m && m[s].Some?)
  }

  /** One fresh object per saved slot that holds an item. */
  method CreateEquipped(m: map<string, Option<Items.ItemDict>>) returns (r: Option<map<string, Items.Item>>)
    ensures r.None? <==> exists s | s in m && m[s].Some? :: Items.FromDict(m[s].value).None?
    ensures r.Some? ==> (r.value.Keys == (set s | s in m && m[s].Some?) &&
      forall s | s in r.value :: fresh(r.value[s]) && Some(r.value[s].Snapshot()) == Items.FromDict(m[s].value))
  {
    var created: map<string, Items.Item> := map[];
    var todo := m.Keys;
    while todo != {}
      invariant todo <= m.Keys
      invariant created.Keys == set s | s in m && s !in todo && m[s].Some?
      invariant forall s | s in created :: fresh(created[s]) && Some(created[s].Snapshot()) == Items.FromDict(m[s].value)
      decreases todo
    {
      var s :| s in todo;
      if m[s].Some? {
        var it := Items.ItemFromDict(m[s].value);
        if it == null {
          return None;
        }
        created := created[s := it];
      }
      todo := todo - {s};
    }
    return Some(created);
  }

  /** The saved equipment as fresh objects on top of four empty slots. */
  method RestoreEquipped(m: map<string, Option<Items.ItemDict>>) returns (r: Option<map<string, Option<Items.Item>>>)
    ensures r.None? <==> exists s | s in m && m[s].Some? :: Items.FromDict(m[s].value).None?
    ensures r.Some? ==> (r.value.Keys == RestoredSlots(m) &&
      forall s | s in r.value ::
        if s in m && m[s].Some? then r.value[s].Some? && fresh(r.value[s].value) &&
          Some(r.value[s].value.Snapshot()) == Items.FromDict(m[s].value)
        else r.value[s] == None)
  {
    var created := CreateEquipped(m);
    if created.None? {
      return None;
    }
    var c := created.value;
    return Some(map s | s in RestoredSlots(m) :: if s in c then Some(c[s]) else None);
  }

  /**
   * Player.from_dict: a fresh player with the saved position, stats and
   * progression; each saved item becomes a fresh object.  None stands for the
   * KeyError of an item dictionary that lacks a required key.
   */
  method PlayerFromDict(d: PlayerDict) returns (p: Player?)
    ensures p != null ==> (fresh(p) && p.body.x == d.x && p.body.y == d.y && p.gold == d.gold &&
      p.currentFloor == d.currentFloor && p.totalXp == d.totalXp && p.hasAmulet == d.hasAmulet &&
      p.fighter.maxHp == d.fighter.maxHp && p.fighter.hp == RestoredHp(d.fighter) &&
      p.fighter.baseAttack == d.fighter.baseAttack && p.fighter.baseDefense == d.fighter.baseDefense &&
      p.fighter.level == d.fighter.level &&
      |p.inventory| == |d.inventory| &&
      (forall i | 0 <= i < |d.inventory| :: Some(p.inventory[i].Snapshot()) == Items.FromDict(d.inventory[i])) &&
      p.equipped.Keys == RestoredSlots(d.equipped) &&
      (forall s | s in p.equipped :: p.equipped[s].Some? <==> s in d.equipped && d.equipped[s].Some?) &&
      (forall s | s in d.equipped && d.equipped[s].Some? ::
         p.equipped[s].Some? && Some(p.equipped[s].value.Snapshot()) == Items.FromDict(d.equipped[s].value)))
    ensures p == null <==> ((exists i | 0 <= i < |d.inventory| :: Items.FromDict(d.inventory[i]).None?) ||
      (exists s | s in d.equipped && d.equipped[s].Some? :: Items.FromDict(d.equipped[s].value).None?))
  {
    var f := new Entity.Fighter(d.fighter.maxHp, d.fighter.baseAttack, d.fighter.baseDefense, 0, d.fighter.level);
    f.SetHp(d.fighter.hp);
    var inv := RestoreItems(d.inventory);
    if inv.None? {
      return null;
    }
    var eq := RestoreEquipped(d.equipped);
    if eq.None? {
      return null;
    }
    p := new Player.Restored(d, f, inv.value, eq.value);
  }
}
