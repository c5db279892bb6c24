/*
 * systems/inventory.py, Inventory: picking an item up from the floor,
 * dropping one, using one and equipping one.  The dungeon floor is the
 * floor of a Zone (the dungeon keeps its items the same way), and the
 * event manager that pick-up notifies is passed in with the world its
 * actions act on.
 */
module Inventory {
  import opened Common
  import Items
  import Player
  import Zone
  import Potion
  import Events

  /** The event the first gold pick-up triggers, which unlocks NPCs. */
  const FIRST_GOLD_PICKUP := "first_gold_pickup"

  /** Some slot of the player holds this very item. */
  predicate IsEquipped(equipped: map<string, Option<Items.Item>>, item: Items.Item)
  {
    exists s | s in equipped :: equipped[s] == Some(item)
  }

  /** What Potion.UseItem reports as consumed: a potion with one of the three known effects. */
  predicate Consumable(item: Items.Item)
  {
    item.kind.PotionKind? && item.kind.effect in {"heal", "poison", "strength"}
  }

  /**
   * pickup_item: the first floor item under the player is taken.  Gold
   * goes to the purse (and the first pick-up fires its event), the amulet
   * sets the flag; any other item moves to the inventory if there is room
   * and otherwise stays on the floor.
   */
  method PickupItem<W>(player: Player.Player, zone: Zone.Zone, em: Events.EventManager<W>, w: W)
    returns (messages: seq<string>, w': W, ghost picked: Option<Items.Item>)
    requires em.Valid()
    modifies player`gold, player`hasAmulet, player`inventory, zone`items, em`status, em`triggered
    ensures em.Valid() && em.events == old(em.events)
    ensures var here := old(Zone.ItemsAt(zone.items, player.body.x, player.body.y));
      picked == if here == [] then None else Some(here[0])
    ensures picked.None? ==>
      messages == ["No hay nada aquí para recoger."] && zone.items == old(zone.items) &&
      player.gold == old(player.gold) && player.inventory == old(player.inventory) &&
      player.hasAmulet == old(player.hasAmulet) && em.triggered == old(em.triggered)
    ensures picked.Some? && picked.value.itemType == "gold" ==>
      messages == ["Recoges una moneda de oro."] &&
      player.gold == old(player.gold) + picked.value.value && zone.items == RemoveFirst(old(zone.items), picked.value) &&
      player.inventory == old(player.inventory) && player.hasAmulet == old(player.hasAmulet) &&
      em.triggered == (if FIRST_GOLD_PICKUP in old(em.triggered) || FIRST_GOLD_PICKUP !in em.events
                       then old(em.triggered) else old(em.triggered) + {FIRST_GOLD_PICKUP})
    ensures picked.Some? && picked.value.itemType == "amulet" ==>
      player.hasAmulet && zone.items == RemoveFirst(old(zone.items), picked.value) &&
      messages == ["¡Has encontrado el Amuleto de Ámbar!", "¡Ahora debes escapar ascendiendo a la superficie!"] &&
      player.gold == old(player.gold) && player.inventory == old(player.inventory) &&
      em.triggered == old(em.triggered)
    ensures picked.Some? && picked.value.itemType != "gold" && picked.value.itemType != "amulet" ==>
      player.gold == old(player.gold) && player.hasAmulet == old(player.hasAmulet) &&
      em.triggered == old(em.triggered) &&
      (|old(player.inventory)| < Player.INVENTORY_CAPACITY ==>
         player.inventory == old(player.inventory) + [picked.value] &&
         zone.items == RemoveFirst(old(zone.items), picked.value) &&
         messages == ["Recoges " + picked.value.name + "."]) &&
      (|old(player.inventory)| >= Player.INVENTORY_CAPACITY ==>
         player.inventory == old(player.inventory) && zone.items == old(zone.items) &&
         messages == ["Tu inventario está lleno (no cabe en el grid)."])
  {
    var here := Zone.ItemsAt(zone.items, player.body.x, player.body.y);
    if here == [] {
      return ["No hay nada aquí para recoger."], w, None;
    }
    var item := here[0];
    picked := Some(item);
    if item.itemType == "gold" {
      messages, w' := PickupGold(player, zone, em, w, item);
    } else if item.itemType == "amulet" {
      messages := PickupAmulet(player, zone, item);
      w' := w;
    } else {
      messages := PickupToInventory(player, zone, item);
      w' := w;
    }
  }

  /** The gold branch of pickup_item. */
  method PickupGold<W>(player: Player.Player, zone: Zone.Zone, em: Events.EventManager<W>, w: W, item: Items.Item)
    returns (messages: seq<string>, w': W)
    requires em.Valid()
    modifies player`gold, zone`items, em`status, em`triggered
    ensures em.Valid() && em.events == old(em.events)
    ensures player.gold == old(player.gold) + item.value && zone.items == RemoveFirst(old(zone.items), item)
    ensures messages == ["Recoges una moneda de oro."]
    ensures em.triggered == (if FIRST_GOLD_PICKUP in old(em.triggered) || FIRST_GOLD_PICKUP !in em.events
                             then old(em.triggered) else old(em.triggered) + {FIRST_GOLD_PICKUP})
  {
    w' := w;
    player.gold := player.gold + item.value;
    var _ := zone.RemoveItem(item);
    messages := ["Recoges una moneda de oro."];
    if !em.IsEventTriggered(FIRST_GOLD_PICKUP) {
      var _, w1 := em.Trigger(FIRST_GOLD_PICKUP, w, true);
      w' := w1;
    }
  }

  /** The amulet branch of pickup_item. */
  method PickupAmulet(player: Player.Player, zone: Zone.Zone, item: Items.Item) returns (messages: seq<string>)
    modifies player`hasAmulet, zone`items
    ensures player.hasAmulet && zone.items == RemoveFirst(old(zone.items), item)
    ensures messages == ["¡Has encontrado el Amuleto de Ámbar!", "¡Ahora debes escapar ascendiendo a la superficie!"]
  {
    player.hasAmulet := true;
    var _ := zone.RemoveItem(item);
    messages := ["¡Has encontrado el Amuleto de Ámbar!", "¡Ahora debes escapar ascendiendo a la superficie!"];
  }

  /** The last branch of pickup_item: into the inventory if there is room, otherwise nowhere. */
  method PickupToInventory(player: Player.Player, zone: Zone.Zone, item: Items.Item) returns (messages: seq<string>)
    modifies player`inventory, zone`items
    ensures |old(player.inventory)| < Player.INVENTORY_CAPACITY ==>
      player.inventory == old(player.inventory) + [item] && zone.items == RemoveFirst(old(zone.items), item) &&
      messages == ["Recoges " + item.name + "."]
    ensures |old(player.inventory)| >= Player.INVENTORY_CAPACITY ==>
      player.inventory == old(player.inventory) && zone.items == old(zone.items) &&
      messages == ["Tu inventario está lleno (no cabe en el grid)."]
  {
    var ok := player.AddToInventory(item);
    if ok {
      var _ := zone.RemoveItem(item);
      messages := ["Recoges " + item.name + "."];
    } else {
      messages := ["Tu inventario está lleno (no cabe en el grid)."];
    }
  }

  /**
   * drop_item_direct: an equipped item is refused; any other item leaves
   * the inventory (if it was there) and lands on the floor at the player's
   * position.
   */
  method DropItemDirect(player: Player.Player, zone: Zone.Zone, item: Items.Item) returns (messages: seq<string>)
    modifies player`inventory, zone`items, item`x, item`y
    ensures IsEquipped(player.equipped, item) ==>
      (messages == ["Primero debes desequipar " + item.name + "."] && player.inventory == old(player.inventory) &&
       zone.items == old(zone.items) && item.x == old(item.x) && item.y == old(item.y))
    ensures !IsEquipped(player.equipped, item) ==>
      (player.inventory == RemoveFirst(old(player.inventory), item) && zone.items == old(zone.items) + [item] &&
       item.x == player.body.x && item.y == player.body.y && messages == ["Sueltas " + item.name + "."])
  {
    if IsEquipped(player.equipped, item) {
      return ["Primero debes desequipar " + item.name + "."];
    }
    var _ := player.RemoveFromInventory(item);
    zone.AddItem(item, player.body.x, player.body.y);
    messages := ["Sueltas " + item.name + "."];
  }

  /**
   * drop_item: the item at `index` is dropped as drop_item_direct drops
   * it; an index outside the inventory changes nothing.
   */
  method DropItem(player: Player.Player, zone: Zone.Zone, index: int) returns (messages: seq<string>)
    modifies player`inventory, zone`items, if 0 <= index < |player.inventory| then {player.inventory[index]} else {}
    ensures !(0 <= index < |old(player.inventory)|) ==>
      (messages == ["No tienes ese item."] && player.inventory == old(player.inventory) && zone.items == old(zone.items))
    ensures 0 <= index < |old(player.inventory)| ==> var item := old(player.inventory)[index];
      (IsEquipped(player.equipped, item) ==> player.inventory == old(player.inventory) && zone.items == old(zone.items)) &&
      (!IsEquipped(player.equipped, item) ==>
         player.inventory == RemoveFirst(old(player.inventory), item) && zone.items == old(zone.items) + [item] &&
         item.x == player.body.x && item.y == player.body.y)
  {
    var found := player.GetInventoryItem(index);
    if found.None? {
      return ["No tienes ese item."];
    }
    messages := DropItemDirect(player, zone, found.value);
  }

  /**
   * use_item: an item that cannot be used is refused; otherwise it is used
   * and leaves the inventory exactly when the use consumed it.
   */
  method UseItem(player: Player.Player, index: int) returns (messages: seq<string>)
    modifies player`inventory, player.fighter`hp, player.fighter`attackBonus, player.fighter`bonusDuration,
      player`deathCause
    ensures !(0 <= index < |old(player.inventory)|) ==>
      messages == ["No tienes ese item."] && player.inventory == old(player.inventory)
    ensures 0 <= index < |old(player.inventory)| ==> var item := old(player.inventory)[index];
      (!item.usable ==> messages == ["No puedes usar " + item.name + "."] && player.inventory == old(player.inventory)) &&
      (item.usable && Consumable(item) ==> player.inventory == RemoveFirst(old(player.inventory), item)) &&
      (!Consumable(item) ==> player.inventory == old(player.inventory))
  {
    var found := player.GetInventoryItem(index);
    if found.None? {
      return ["No tienes ese item."];
    }
    var item := found.value;
    if !item.usable {
      return ["No puedes usar " + item.name + "."];
    }
    var useMessages, consumed := Potion.UseItem(item, player);
    messages := useMessages;
    if consumed {
      var _ := player.RemoveFromInventory(item);
    }
  }

  /** equip_item: an item without a slot is refused; otherwise the player equips it. */
  method EquipItem(player: Player.Player, index: int) returns (messages: seq<string>)
    modifies player`equipped
    ensures !(0 <= index < |player.inventory|) ==> messages == ["No tienes ese item."] && player.equipped == old(player.equipped)
    ensures 0 <= index < |player.inventory| ==> var item := player.inventory[index];
      (item.slot.Some? && item.slot.value != "" && item.slot.value in old(player.equipped) ==>
         player.equipped == old(player.equipped)[item.slot.value := Some(item)]) &&
      (!(item.slot.Some? && item.slot.value != "" && item.slot.value in old(player.equipped)) ==>
         player.equipped == old(player.equipped))
  {
    var found := player.GetInventoryItem(index);
    if found.None? {
      return ["No tienes ese item."];
    }
    var item := found.value;
    if item.slot.None? || item.slot.value == "" {
      return ["No puedes equipar " + item.name + "."];
    }
    messages := player.Equip(item);
  }

  /**
   * Dropping an unequipped item and picking it up again (nothing else on
   * that floor cell, room in the pack) puts it back at the end of the
   * inventory and leaves the floor as it was.
   */
  lemma {:induction false} DropThenPickup(inv: seq<Items.Item>, floor: seq<Items.Item>, item: Items.Item, x: int, y: int)
    requires item in inv && Zone.ItemsAt(floor, x, y) == [] && item.x == x && item.y == y
    requires |inv| <= Player.INVENTORY_CAPACITY
    ensures |RemoveFirst(inv, item)| < Player.INVENTORY_CAPACITY
    ensures Zone.ItemsAt(floor + [item], x, y) == [item]
    ensures RemoveFirst(floor + [item], item) == floor || item in floor
  {
    Zone.AddedItemFound(floor, item, x, y);
    if item !in floor {
      RemoveFirstSplit(floor + [item], item, |floor|);
      assert (floor + [item])[..|floor|] == floor;
    }
  }
}
