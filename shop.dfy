/*
 * systems/shop.py: shops selling items for gold, the price and name tables
 * of config.py they read, and the wandering merchant's shop whose stock is
 * unlocked by cumulative donations and filled only when the run's restock
 * was paid.
 *
 * A ShopItem is an object: buy_item lowers its stock in place.  The item a
 * purchase hands over comes from the item factory of items/item.py, which is
 * not part of this model; BuyItem receives what the factory returned (null
 * for an unknown id).
 */
module Shop {
  import opened Common
  import Items
  import Player
  import Events

  // ---------------------------------------------------------------------
  // config.py: the data the shop reads (config.py:401-620)
  // ---------------------------------------------------------------------

  datatype PotionData = PotionData(name: string, effect: string, value: int, duration: Option<int>, price: int)
  datatype WeaponData = WeaponData(name: string, attackBonus: int, durability: int, price: int)
  datatype ArmorData = ArmorData(name: string, defenseBonus: int, durability: int, price: int)

  const POTION_DATA: map<string, PotionData> := map[
    "health_potion" := PotionData("Poción de Vida", "heal", 20, None, 5),
    "greater_health_potion" := PotionData("Poción de Vida Mayor", "heal", 50, None, 15),
    "strength_potion" := PotionData("Poción de Fuerza", "strength", 3, Some(20), 15),
    "poison_potion" := PotionData("Poción de Veneno", "poison", -25, None, 0)
  ]

  const WEAPON_DATA: map<string, WeaponData> := map[
    "bronze_dagger" := WeaponData("Daga de bronce", 1, 5, 3),
    "dagger" := WeaponData("Daga", 2, 5, 5),
    "holy_dagger" := WeaponData("Daga Sagrada", 12, 10, 25),
    "short_sword" := WeaponData("Espada corta", 3, 8, 6),
    "bronze_hammer" := WeaponData("Martillo de bronce", 4, 6, 6),
    "hammer" := WeaponData("Martillo", 4, 8, 8),
    "long_sword" := WeaponData("Espada larga", 5, 10, 10),
    "war_axe" := WeaponData("Hacha de guerra", 10, 8, 15),
    "lance" := WeaponData("Lanza", 15, 4, 12),
    "dragon_lance" := WeaponData("Lanza Dragontina", 20, 4, 25),
    "commander_sword" := WeaponData("Espada de comandante", 10, 10, 20)
  ]

  const ARMOR_DATA: map<string, ArmorData> := map[
    "leather_armor" := ArmorData("Armadura de Cuero", 2, 6, 3),
    "chain_mail" := ArmorData("Cota de Mallas", 4, 10, 6),
    "plate_armor" := ArmorData("Armadura de Placas", 7, 14, 10),
    "dragon_armor" := ArmorData("Armadura de Dragón", 12, 17, 20)
  ]

  /** The names _auto_name gives the special items. */
  const SPECIAL_NAMES: map<string, string> := map[
    "gold" := "Moneda de oro", "amulet" := "Amuleto de Ámbar", "heart_key" := "Llave con forma de corazón"
  ]

  // ---------------------------------------------------------------------
  // Prices, names, descriptions
  // ---------------------------------------------------------------------

  /** get_item_price: the price in the first of the potion, weapon and armour tables holding the id; 0 otherwise. */
  function GetItemPrice(itemId: string): (p: int)
    ensures itemId in POTION_DATA ==> p == POTION_DATA[itemId].price
    ensures itemId !in POTION_DATA && itemId in WEAPON_DATA ==> p == WEAPON_DATA[itemId].price
    ensures itemId !in POTION_DATA && itemId !in WEAPON_DATA && itemId in ARMOR_DATA ==> p == ARMOR_DATA[itemId].price
    ensures itemId !in POTION_DATA && itemId !in WEAPON_DATA && itemId !in ARMOR_DATA ==> p == 0
  {
    if itemId in POTION_DATA then POTION_DATA[itemId].price
    else if itemId in WEAPON_DATA then WEAPON_DATA[itemId].price
    else if itemId in ARMOR_DATA then ARMOR_DATA[itemId].price
    else 0
  }

  /** No id costs less than nothing. */
  lemma PricesNonNegative(itemId: string)
    ensures GetItemPrice(itemId) >= 0
  {
    if itemId in POTION_DATA {
      assert forall k | k in POTION_DATA :: POTION_DATA[k].price >= 0;
    } else if itemId in WEAPON_DATA {
      assert forall k | k in WEAPON_DATA :: WEAPON_DATA[k].price >= 0;
    } else if itemId in ARMOR_DATA {
      assert forall k | k in ARMOR_DATA :: ARMOR_DATA[k].price >= 0;
    }
  }

  /** _auto_name: the table name, then the special names, then the id itself. */
  function AutoName(itemId: string): (n: string)
    ensures itemId in POTION_DATA ==> n == POTION_DATA[itemId].name
    ensures itemId !in POTION_DATA && itemId in WEAPON_DATA ==> n == WEAPON_DATA[itemId].name
    ensures itemId !in POTION_DATA && itemId !in WEAPON_DATA && itemId in ARMOR_DATA ==> n == ARMOR_DATA[itemId].name
    ensures itemId !in POTION_DATA && itemId !in WEAPON_DATA && itemId !in ARMOR_DATA ==>
      n == (if itemId in SPECIAL_NAMES then SPECIAL_NAMES[itemId] else itemId)
  {
    if itemId in POTION_DATA then POTION_DATA[itemId].name
    else if itemId in WEAPON_DATA then WEAPON_DATA[itemId].name
    else if itemId in ARMOR_DATA then ARMOR_DATA[itemId].name
    else if itemId in SPECIAL_NAMES then SPECIAL_NAMES[itemId]
    else itemId
  }

  /** _auto_description: a short text from the table data; unknown ids describe themselves. */
  function AutoDescription(itemId: string): (d: string)
    ensures (itemId !in POTION_DATA && itemId !in WEAPON_DATA && itemId !in ARMOR_DATA &&
             itemId !in SPECIAL_NAMES) ==> d == itemId
    ensures itemId in POTION_DATA && POTION_DATA[itemId].effect == "poison" ==> d == "Efecto desconocido"
  {
    if itemId in POTION_DATA then
      var data := POTION_DATA[itemId];
      if data.effect == "heal" then "Restaura " + IntToString(data.value) + " HP"
      else if data.effect == "strength" then
        "+" + IntToString(data.value) + " ATK por " + IntToString(GetOr(data.duration, 0)) + " turnos"
      else if data.effect == "poison" then "Efecto desconocido"
      else data.name
    else if itemId in WEAPON_DATA then
      "+" + IntToString(WEAPON_DATA[itemId].attackBonus) + " ATK, " + IntToString(WEAPON_DATA[itemId].durability) + " usos"
    else if itemId in ARMOR_DATA then
      "+" + IntToString(ARMOR_DATA[itemId].defenseBonus) + " DEF, " + IntToString(ARMOR_DATA[itemId].durability) + " usos"
    else if itemId == "gold" then "1 moneda de oro"
    else if itemId == "amulet" then "El legendario amuleto"
    else if itemId == "heart_key" then "Llave especial"
    else itemId
  }

  function GetOr<T>(o: Option<T>, default: T): T
  {
    if o.Some? then o.value else default
  }

  // ---------------------------------------------------------------------
  // Shop items
  // ---------------------------------------------------------------------

  /** The fields of a ShopItem; stock -1 is unlimited. */
  datatype ShopItemValue = ShopItemValue(itemId: string, name: string, description: string, price: int, stock: int)

  /** create_shop_item: a given name, description or price wins over the looked-up one. */
  function CreateShopItem(itemId: string, price: Option<int>, stock: int, name: Option<string>,
                          description: Option<string>): (v: ShopItemValue)
    ensures v.itemId == itemId && v.stock == stock
    ensures v.name == (if name.Some? then name.value else AutoName(itemId))
    ensures v.description == (if description.Some? then description.value else AutoDescription(itemId))
    ensures v.price == (if price.Some? then price.value else GetItemPrice(itemId))
  {
    ShopItemValue(itemId, GetOr(name, AutoName(itemId)), GetOr(description, AutoDescription(itemId)),
                  GetOr(price, GetItemPrice(itemId)), stock)
  }

  class ShopItem {
    const itemId: string
    const name: string
    const description: string
    const price: int
    var stock: int

    function Value(): ShopItemValue
      reads this
    {
      ShopItemValue(itemId, name, description, price, stock)
    }

    constructor (v: ShopItemValue)
      ensures Value() == v
    {
      itemId, name, description, price, stock := v.itemId, v.name, v.description, v.price, v.stock;
    }
  }

  function Values(xs: seq<ShopItem>): (vs: seq<ShopItemValue>)
    reads set i | 0 <= i < |xs| :: xs[i]
    ensures |vs| == |xs| && forall i | 0 <= i < |xs| :: vs[i] == xs[i].Value()
  {
    seq(|xs|, i reads xs requires 0 <= i < |xs| => xs[i].Value())
  }

  /** The index of the first item with the name, -1 when there is none. */
  function FirstWithName(xs: seq<ShopItem>, name: string): (k: int)
    ensures -1 <= k < |xs|
    ensures k == -1 <==> forall i | 0 <= i < |xs| :: xs[i].name != name
    ensures k >= 0 ==> xs[k].name == name && forall i | 0 <= i < k :: xs[i].name != name
  {
    if xs == [] then -1
    else if xs[0].name == name then 0
    else
      var k := FirstWithName(xs[1..], name);
      assert forall i | 0 < i < |xs| :: xs[i] == xs[1..][i - 1];
      if k == -1 then -1 else k + 1
  }

  /** Whether buy_item(index) succeeds, given the item the factory made and the player's state. */
  predicate CanBuy(xs: seq<ShopItemValue>, index: int, created: bool, gold: int, inventorySize: int)
  {
    0 <= index < |xs| && xs[index].stock != 0 && gold >= xs[index].price && created &&
    inventorySize < Player.INVENTORY_CAPACITY
  }

  class Shop {
    const name: string
    var items: seq<ShopItem>
    /** The items restock copies (_default_items). */
    var defaultItems: seq<ShopItem>

    /**
     * No object is both on sale and a restock template, so purchases never
     * touch the templates.
     */
    predicate Separate()
      reads this
    {
      forall i, j | 0 <= i < |items| && 0 <= j < |defaultItems| :: items[i] != defaultItems[j]
    }

    /** Shop(name, items): a copy of the list; no restock templates yet. */
    constructor (name: string, items: seq<ShopItem>)
      ensures this.name == name && this.items == items && defaultItems == []
    {
      this.name := name;
      this.items := items;
      defaultItems := [];
    }

    function GetItemCount(): (n: nat)
      reads this
      ensures n == |items|
    {
      |items|
    }

    /**
     * buy_item.  It fails, changing nothing, on a bad index, zero stock, too
     * little gold, a failed creation or a full inventory.  Otherwise the
     * player pays the price and receives the item; a limited stock drops by
     * one and the entry leaves the list when it reaches zero.
     */
    method BuyItem(player: Player.Player, index: int, created: Items.Item?) returns (ok: bool)
      modifies this`items, player`gold, player`inventory, if 0 <= index < |items| then {items[index]} else {}
      ensures ok <==> CanBuy(old(Values(items)), index, created != null, old(player.gold), old(|player.inventory|))
      ensures !ok ==> (items == old(items) && player.gold == old(player.gold) &&
                       player.inventory == old(player.inventory) && Values(items) == old(Values(items)))
      ensures ok ==> var s := old(items)[index];
        player.gold == old(player.gold) - s.price && player.inventory == old(player.inventory) + [created] &&
        (old(s.stock) > 0 ==> s.stock == old(s.stock) - 1) && (old(s.stock) < 0 ==> s.stock == old(s.stock)) &&
        items == (if s.stock == 0 then old(items)[..index] + old(items)[index + 1..] else old(items))
      ensures old(Separate()) ==> Separate() && Values(defaultItems) == old(Values(defaultItems))
    {
      if index < 0 || index >= |items| {
        return false;
      }
      var shopItem := items[index];
      if shopItem.stock == 0 {
        return false;
      }
      if player.gold < shopItem.price {
        return false;
      }
      if created == null {
        return false;
      }
      ok := player.AddToInventory(created);
      if !ok {
        return false;
      }
      player.gold := player.gold - shopItem.price;
      if shopItem.stock > 0 {
        shopItem.stock := shopItem.stock - 1;
        if shopItem.stock == 0 {
          items := items[..index] + items[index + 1..];
        }
      }
    }

    /** add_item: appended at the end. */
    method AddItem(item: ShopItem)
      modifies this`items
      ensures items == old(items) + [item]
    {
      items := items + [item];
    }

    /** remove_item: the first item of that name leaves; the answer says whether there was one. */
    method RemoveItem(name: string) returns (found: bool)
      modifies this`items
      ensures found <==> FirstWithName(old(items), name) >= 0
      ensures var k := FirstWithName(old(items), name);
        items == if k >= 0 then old(items)[..k] + old(items)[k + 1..] else old(items)
    {
      var i := 0;
      while i < |items|
        invariant 0 <= i <= |items| && items == old(items)
        invariant forall j | 0 <= j < i :: items[j].name != name
      {
        if items[i].name == name {
          items := items[..i] + items[i + 1..];
          return true;
        }
        i := i + 1;
      }
      return false;
    }

    method SetItems(xs: seq<ShopItem>)
      modifies this`items
      ensures items == xs
    {
      items := xs;
    }

    method ClearItems()
      modifies this`items
      ensures items == []
    {
      items := [];
    }

    /** restock: the items become fresh copies of the templates, field for field. */
    method Restock()
      modifies this`items
      ensures |items| == |defaultItems| && forall i | 0 <= i < |items| :: fresh(items[i])
      ensures Values(items) == Values(defaultItems)
      ensures Separate()
    {
      var xs: seq<ShopItem> := [];
      var i := 0;
      while i < |defaultItems|
        invariant 0 <= i <= |defaultItems| && |xs| == i
        invariant forall k | 0 <= k < i :: fresh(xs[k]) && xs[k].Value() == defaultItems[k].Value()
      {
        var copy := new ShopItem(defaultItems[i].Value());
        xs := xs + [copy];
        i := i + 1;
      }
      items := xs;
    }

    /** get_item_by_name: the first item of that name, null when there is none. */
    method GetItemByName(name: string) returns (r: ShopItem?)
      ensures var k := FirstWithName(items, name);
        (k == -1 ==> r == null) && (k >= 0 ==> r == items[k])
    {
      var i := 0;
      while i < |items|
        invariant 0 <= i <= |items|
        invariant forall j | 0 <= j < i :: items[j].name != name
      {
        if items[i].name == name {
          return items[i];
        }
        i := i + 1;
      }
      return null;
    }
  }

  // ---------------------------------------------------------------------
  // The wandering merchant's unlocks
  // ---------------------------------------------------------------------
  /** MERCHANT_ITEM_POOL: the items in the order donations unlock them. */
  const MERCHANT_ITEM_POOL: seq<string> := [
    "health_potion", "bronze_dagger", "leather_armor", "short_sword", "chain_mail", "greater_health_potion",
    "long_sword", "plate_armor", "strength_potion", "war_axe", "commander_sword", "dragon_armor"
  ]

  /** The price of the first n pool items together. */
  function PriceSum(pool: seq<string>, n: nat): int
    requires n <= |pool|
  {
    if n == 0 then 0 else PriceSum(pool, n - 1) + GetItemPrice(pool[n - 1])
  }

  /** Threshold i is the cumulative price of items 0..i. */
  function Thresholds(pool: seq<string>): (ts: seq<int>)
    ensures |ts| == |pool| && forall i | 0 <= i < |pool| :: ts[i] == PriceSum(pool, i + 1)
  {
    seq(|pool|, i requires 0 <= i < |pool| => PriceSum(pool, i + 1))
  }

  /** How many leading thresholds the total reaches. */
  function LeadingReached(ts: seq<int>, total: int): (k: nat)
    ensures k <= |ts|
    ensures forall i | 0 <= i < k :: ts[i] <= total
    ensures k < |ts| ==> ts[k] > total
  {
    if ts == [] || ts[0] > total then 0
    else
      var k := LeadingReached(ts[1..], total);
      assert forall i | 0 < i <= k :: ts[i] == ts[1..][i - 1];
      k + 1
  }

  /** The number of pool items the donations unlock. */
  function UnlockedCount(pool: seq<string>, donatedTotal: int): nat
  {
    LeadingReached(Thresholds(pool), donatedTotal)
  }

  /** A count that reaches the first k thresholds and stops at the next is the leading count. */
  lemma LeadingReachedUnique(ts: seq<int>, total: int, k: nat)
    requires k <= |ts| && (forall i | 0 <= i < k :: ts[i] <= total) && (k < |ts| ==> ts[k] > total)
    ensures LeadingReached(ts, total) == k
  {
    var m := LeadingReached(ts, total);
  }

  /** get_unlock_thresholds (of MERCHANT_ITEM_POOL, passed as pool): the running sum of the prices. */
  method GetUnlockThresholds(pool: seq<string>) returns (thresholds: seq<int>)
    ensures thresholds == Thresholds(pool)
  {
    thresholds := [];
    var cumulative := 0;
    var i := 0;
    while i < |pool|
      invariant 0 <= i <= |pool| && |thresholds| == i
      invariant cumulative == PriceSum(pool, i)
      invariant forall j | 0 <= j < i :: thresholds[j] == PriceSum(pool, j + 1)
    {
      cumulative := cumulative + GetItemPrice(pool[i]);
      thresholds := thresholds + [cumulative];
      i := i + 1;
    }
  }

  /** get_unlocked_count: items unlock in pool order while the donations cover the running sum. */
  method GetUnlockedCount(pool: seq<string>, donatedTotal: int) returns (count: nat)
    ensures count == UnlockedCount(pool, donatedTotal)
  {
    ghost var ts := Thresholds(pool);
    count := 0;
    var cumulative := 0;
    var i := 0;
    while i < |pool|
      invariant 0 <= i <= |pool| && count == i
      invariant cumulative == PriceSum(pool, i)
      invariant forall j | 0 <= j < i :: ts[j] <= donatedTotal
    {
      cumulative := cumulative + GetItemPrice(pool[i]);
      if donatedTotal >= cumulative {
        count := count + 1;
      } else {
        LeadingReachedUnique(ts, donatedTotal, count);
        return;
      }
      i := i + 1;
    }
    LeadingReachedUnique(ts, donatedTotal, count);
  }

  /** Donating more never locks an item again. */
  lemma {:induction false} LeadingReachedMonotone(ts: seq<int>, a: int, b: int)
    requires a <= b
    ensures LeadingReached(ts, a) <= LeadingReached(ts, b)
    decreases |ts|
  {
    if ts != [] && ts[0] <= a {
      LeadingReachedMonotone(ts[1..], a, b);
    }
  }

  lemma UnlockedCountMonotone(pool: seq<string>, a: int, b: int)
    requires a <= b
    ensures UnlockedCount(pool, a) <= UnlockedCount(pool, b) <= |pool|
  {
    LeadingReachedMonotone(Thresholds(pool), a, b);
  }

  predicate PricesPositive(pool: seq<string>)
  {
    forall i | 0 <= i < |pool| :: GetItemPrice(pool[i]) > 0
  }

  /** Every item of the merchant's pool costs something. */
  lemma PoolPricesPositive()
    ensures PricesPositive(MERCHANT_ITEM_POOL)
  {
  }

  lemma {:induction false} SumsIncrease(pool: seq<string>, i: nat, j: nat)
    requires PricesPositive(pool)
    requires i < j <= |pool|
    ensures PriceSum(pool, i) < PriceSum(pool, j)
    decreases j - i
  {
    if j > i + 1 {
      SumsIncrease(pool, i, j - 1);
    }
  }

  /**
   * With positive prices, item i is unlocked exactly when the donations
   * reach its threshold: the leading count is then the count of all
   * thresholds reached.
   */
  lemma UnlockedIff(pool: seq<string>, donatedTotal: int, i: nat)
    requires PricesPositive(pool) && i < |pool|
    ensures i < UnlockedCount(pool, donatedTotal) <==> donatedTotal >= Thresholds(pool)[i]
  {
    var k := UnlockedCount(pool, donatedTotal);
    if k < i && donatedTotal >= Thresholds(pool)[i] {
      SumsIncrease(pool, k + 1, i + 1);
      assert false;
    }
  }

  /** The shop entry for pool item i: looked-up name, description and price, stock 1. */
  function PoolEntry(pool: seq<string>, i: nat): ShopItemValue
    requires i < |pool|
  {
    CreateShopItem(pool[i], None, 1, None, None)
  }

  /** What the merchant offers once the restock is paid: one unit of each unlocked pool item, in pool order. */
  function OnOffer(pool: seq<string>, donatedTotal: int): (vs: seq<ShopItemValue>)
    ensures |vs| == UnlockedCount(pool, donatedTotal) <= |pool|
    ensures forall i | 0 <= i < |vs| :: vs[i] == PoolEntry(pool, i) && vs[i].stock == 1
  {
    seq(UnlockedCount(pool, donatedTotal), i requires 0 <= i < UnlockedCount(pool, donatedTotal) <= |pool| => PoolEntry(pool, i))
  }

  method NewPoolEntry(pool: seq<string>, i: nat) returns (e: ShopItem)
    requires i < |pool|
    ensures fresh(e) && e.Value() == PoolEntry(pool, i)
  {
    e := new ShopItem(CreateShopItem(pool[i], None, 1, None, None));
  }

  /** _get_unlocked_merchant_items: fresh entries for the unlocked prefix of the pool, in order. */
  method GetUnlockedMerchantItems(pool: seq<string>, donatedTotal: int) returns (items: seq<ShopItem>)
    ensures |items| == UnlockedCount(pool, donatedTotal) <= |pool|
    ensures forall i | 0 <= i < |items| :: fresh(items[i]) && items[i].Value() == PoolEntry(pool, i)
  {
    ghost var ts := Thresholds(pool);
    items := [];
    var cumulative := 0;
    var i := 0;
    while i < |pool|
      invariant 0 <= i <= |pool| && |items| == i
      invariant cumulative == PriceSum(pool, i)
      invariant forall j | 0 <= j < i :: ts[j] <= donatedTotal
      invariant forall j | 0 <= j < i :: fresh(items[j]) && items[j].Value() == PoolEntry(pool, j)
    {
      cumulative := cumulative + GetItemPrice(pool[i]);
      if donatedTotal < cumulative {
        LeadingReachedUnique(ts, donatedTotal, i);
        return;
      }
      var entry := NewPoolEntry(pool, i);
      items := items + [entry];
      i := i + 1;
    }
    LeadingReachedUnique(ts, donatedTotal, i);
  }

  /** The event-data keys the merchant's shop is built from. */
  const DONATED_TOTAL_KEY := "merchant_donated_total"
  const RESTOCK_PAID_KEY := "merchant_restock_paid"

  /**
   * _create_merchant_shop_from_state as written: the restock templates are
   * a shallow copy of the list on sale, so they are the very objects that
   * buy_item lowers the stock of.
   */
  method CreateMerchantShopFromStateAsWritten(ev: Events.EventState) returns (shop: Shop)
    ensures fresh(shop) && shop.name == "Comerciante" && shop.defaultItems == shop.items
    ensures !ev.Flag(RESTOCK_PAID_KEY) ==> shop.items == []
    ensures ev.Flag(RESTOCK_PAID_KEY) ==>
      |shop.items| == UnlockedCount(MERCHANT_ITEM_POOL, ev.IntOr(DONATED_TOTAL_KEY, 0)) &&
      forall i | 0 <= i < |shop.items| :: fresh(shop.items[i]) && shop.items[i].Value() == PoolEntry(MERCHANT_ITEM_POOL, i)
  {
    var items: seq<ShopItem> := [];
    if ev.Flag(RESTOCK_PAID_KEY) {
      items := GetUnlockedMerchantItems(MERCHANT_ITEM_POOL, ev.IntOr(DONATED_TOTAL_KEY, 0));
    }
    shop := new Shop("Comerciante", items);
    shop.defaultItems := items;
  }

  /**
   * _create_merchant_shop_from_state with the templates as separate copies,
   * which restock's promise to bring back the original stock needs.
   */
  method CreateMerchantShopFromState(ev: Events.EventState) returns (shop: Shop)
    ensures fresh(shop) && shop.name == "Comerciante" && shop.Separate()
    ensures Values(shop.defaultItems) == Values(shop.items)
    ensures !ev.Flag(RESTOCK_PAID_KEY) ==> shop.items == []
    ensures ev.Flag(RESTOCK_PAID_KEY) ==>
      |shop.items| == UnlockedCount(MERCHANT_ITEM_POOL, ev.IntOr(DONATED_TOTAL_KEY, 0)) &&
      forall i | 0 <= i < |shop.items| :: fresh(shop.items[i]) && shop.items[i].Value() == PoolEntry(MERCHANT_ITEM_POOL, i)
    ensures Values(shop.items) == if ev.Flag(RESTOCK_PAID_KEY) then OnOffer(MERCHANT_ITEM_POOL, ev.IntOr(DONATED_TOTAL_KEY, 0)) else []
  {
    var items: seq<ShopItem> := [];
    if ev.Flag(RESTOCK_PAID_KEY) {
      items := GetUnlockedMerchantItems(MERCHANT_ITEM_POOL, ev.IntOr(DONATED_TOTAL_KEY, 0));
      assert Values(items) == OnOffer(MERCHANT_ITEM_POOL, ev.IntOr(DONATED_TOTAL_KEY, 0));
    }
    shop := ShopWithTemplates(items);
  }

  /** The merchant's shop on sale with `items`, restocking from those very items and selling copies of them. */
  method ShopWithTemplates(items: seq<ShopItem>) returns (shop: Shop)
    ensures fresh(shop) && shop.name == "Comerciante" && shop.Separate() && shop.defaultItems == items
    ensures |shop.items| == |items| && forall i | 0 <= i < |items| :: fresh(shop.items[i]) && shop.items[i].Value() == items[i].Value()
  {
    shop := new Shop("Comerciante", items);
    shop.defaultItems := items;
    shop.Restock();
  }

  /** A run in which 5 gold was donated and the restock paid. */
  function DonatedFive(): Events.EventState
  {
    Events.EventState({}, 0, map[DONATED_TOTAL_KEY := Events.VInt(5), RESTOCK_PAID_KEY := Events.VBool(true)])
  }

  /**
   * The first threshold is the price of a health potion, 5, and the second
   * is 8, so 5 donated gold unlocks one health potion with stock 1.
   */
  lemma DonatedFiveUnlocksOnePotion()
    ensures Thresholds(MERCHANT_ITEM_POOL)[0] == 5 && Thresholds(MERCHANT_ITEM_POOL)[1] == 8
    ensures DonatedFive().Flag(RESTOCK_PAID_KEY) && DonatedFive().IntOr(DONATED_TOTAL_KEY, 0) == 5
    ensures UnlockedCount(MERCHANT_ITEM_POOL, 5) == 1
    ensures PoolEntry(MERCHANT_ITEM_POOL, 0).price == 5 && PoolEntry(MERCHANT_ITEM_POOL, 0).stock == 1
  {
    var ts := Thresholds(MERCHANT_ITEM_POOL);
    assert ts[0] == 5 && ts[1] == 8;
    LeadingReachedUnique(ts, 5, 1);
  }

  /** A player on the lobby floor holding exactly the given gold and nothing else. */
  method PlayerWithGold(gold: int) returns (p: Player.Player)
    ensures fresh(p) && p.gold == gold && p.inventory == []
  {
    p := new Player.Player(0, 0);
    p.gold := gold;
  }

  /**
   * Under the shallow copy, buying the last unit of any item and then
   * restocking leaves that item sold out: the purchase lowered the stock of
   * the template itself.
   */
  method BuyLastThenRestockAliased(shop: Shop, player: Player.Player, index: int, created: Items.Item)
    requires shop.defaultItems == shop.items
    requires CanBuy(Values(shop.items), index, true, player.gold, |player.inventory|)
    requires shop.items[index].stock == 1
    modifies shop`items, player`gold, player`inventory, shop.items[index]
    ensures |shop.items| == |shop.defaultItems| && shop.items[index].stock == 0
  {
    var ok := shop.BuyItem(player, index, created);
    shop.Restock();
    assert shop.items[index].Value() == shop.defaultItems[index].Value();
  }

  /** With separate templates, restocking after a purchase brings back every template's stock. */
  method BuyThenRestockSeparate(shop: Shop, player: Player.Player, index: int, created: Items.Item?)
    requires shop.Separate()
    modifies shop`items, player`gold, player`inventory, if 0 <= index < |shop.items| then {shop.items[index]} else {}
    ensures Values(shop.items) == Values(shop.defaultItems) == old(Values(shop.defaultItems))
  {
    var ok := shop.BuyItem(player, index, created);
    shop.Restock();
  }

  /**
   * The shallow copy in a concrete run: 5 gold donated and the restock
   * paid give one health potion with stock 1; after the player buys it,
   * restock brings it back sold out.  Returns the restocked stock.
   */
  method RestockAfterPurchaseAsWritten() returns (stock: int)
    ensures stock == 0
  {
    DonatedFiveUnlocksOnePotion();
    var shop := CreateMerchantShopFromStateAsWritten(DonatedFive());
    var player := PlayerWithGold(5);
    var item := new Items.Item(Items.PotionValue(0, 0, "health_potion", "Poción de Vida", "heal", 20, 0));
    BuyLastThenRestockAliased(shop, player, 0, item);
    stock := shop.items[0].stock;
  }

  /** The same run with separate templates: restock brings the potion back with stock 1. */
  method RestockAfterPurchaseCorrected() returns (stock: int)
    ensures stock == 1
  {
    DonatedFiveUnlocksOnePotion();
    var shop := CreateMerchantShopFromState(DonatedFive());
    var player := PlayerWithGold(5);
    var item := new Items.Item(Items.PotionValue(0, 0, "health_potion", "Poción de Vida", "heal", 20, 0));
    BuyThenRestockSeparate(shop, player, 0, item);
    stock := shop.items[0].stock;
  }

  /**
   * What a merchant shop built from the event data offers: once the restock
   * is paid, one unit of each unlocked pool item in pool order, and nothing
   * before.
   */
  predicate Offers(vs: seq<ShopItemValue>, ev: Events.EventState, pool: seq<string>)
  {
    vs == if ev.Flag(RESTOCK_PAID_KEY) then OnOffer(pool, ev.IntOr(DONATED_TOTAL_KEY, 0)) else []
  }

  /** The merchant's shop as get_merchant_shop builds it: restock templates of equal value, entries as Offers says. */
  method BuildMerchantShop(ev: Events.EventState) returns (s: Shop)
    ensures fresh(s) && s.name == "Comerciante" && s.Separate()
    ensures Values(s.defaultItems) == Values(s.items) && Offers(Values(s.items), ev, MERCHANT_ITEM_POOL)
  {
    s := CreateMerchantShopFromState(ev);
  }

  /**
   * The lazily created merchant shop (get_merchant_shop,
   * reset_merchant_shop, refresh_merchant_shop); it builds the shop with
   * separate restock templates.
   */
  class MerchantShopCache {
    var shop: Shop?

    constructor ()
      ensures shop == null
    {
      shop := null;
    }

    /**
     * get_merchant_shop: the existing shop, or a new one built from the event
     * data.  A new one is built in the corrected form, with separate restock
     * templates.
     */
    method Get(ev: Events.EventState) returns (s: Shop)
      modifies this
      ensures shop == s
      ensures old(shop) != null ==> s == old(shop)
      ensures old(shop) == null ==> fresh(s) && s.name == "Comerciante" && s.Separate()
      ensures old(shop) == null ==> Values(s.defaultItems) == Values(s.items) && Offers(Values(s.items), ev, MERCHANT_ITEM_POOL)
    {
      if shop != null {
        return shop;
      }
      s := BuildMerchantShop(ev);
      Store(s);
    }

    /** Keeps s as the cached shop; s itself is untouched. */
    method Store(s: Shop)
      modifies this
      ensures shop == s
      ensures s.Separate() == old(s.Separate())
      ensures Values(s.items) == old(Values(s.items)) && Values(s.defaultItems) == old(Values(s.defaultItems))
    {
      shop := s;
    }

    /** reset_merchant_shop: the restock is unpaid again and the shop will be rebuilt. */
    method Reset<W>(em: Events.EventManager<W>)
      requires em.Valid()
      modifies this, em`data
      ensures em.Valid()
      ensures shop == null && em.data == old(em.data)[RESTOCK_PAID_KEY := Events.VBool(false)]
    {
      em.SetData(RESTOCK_PAID_KEY, Events.VBool(false));
      shop := null;
    }

    /** refresh_merchant_shop: the shop will be rebuilt from the current event data. */
    method Refresh()
      modifies this
      ensures shop == null
    {
      shop := null;
    }
  }

  /**
   * reset_merchant_shop at the start of a run, then get_merchant_shop: the
   * merchant's shop is built anew and offers nothing (nor restocks
   * anything) until the restock is paid again.
   */
  method ResetEmptiesShop<W>(cache: MerchantShopCache, em: Events.EventManager<W>) returns (s: Shop)
    requires em.Valid()
    modifies cache, em`data
    ensures em.Valid() && em.events == old(em.events) && cache.shop == s
    ensures !em.State().Flag(RESTOCK_PAID_KEY)
    ensures fresh(s) && s.name == "Comerciante" && s.items == [] && s.defaultItems == []
  {
    cache.Reset(em);
    s := cache.Get(em.State());
  }
}
