/*
 * systems/event_helpers.py: ready-made event conditions and actions.  A
 * condition reads the player, the current zone or the event store; an
 * action changes the zone's entity or item list, the player's gold or the
 * player's inventory.
 *
 * The factories of the source return closures; here a condition is a
 * predicate of its parameters and the state it reads, and an action is a
 * method taking the factory's parameters and the (player, zone) pair.  The
 * objects that entity_factory and item_factory would create are passed in
 * already made.
 */
module EventHelpers {
  import opened Common
  import Entity
  import Items
  import Player
  import Zone
  import Events

  // ---------------------------------------------------------------------
  // Conditions
  // ---------------------------------------------------------------------

  /** condition_player_level: the fighter's level reaches the minimum. */
  predicate PlayerLevel(p: Player.Player, minLevel: int)
    reads p.fighter
  {
    p.fighter.level >= minLevel
  }

  /** condition_player_floor: the player is on exactly that floor. */
  predicate PlayerFloor(p: Player.Player, floor: int)
    reads p
  {
    p.currentFloor == floor
  }

  /** condition_player_has_item: some inventory item carries the name. */
  predicate PlayerHasItem(p: Player.Player, itemName: string)
    reads p
  {
    exists i | 0 <= i < |p.inventory| :: p.inventory[i].name == itemName
  }

  /** condition_player_has_gold: the gold reaches the minimum. */
  predicate PlayerHasGold(p: Player.Player, minGold: int)
    reads p
  {
    p.gold >= minGold
  }

  /** The zone-type guard: a missing or empty type (falsy in Python) accepts every zone. */
  predicate ZoneAccepted(zone: Zone.Zone, zoneType: Option<string>)
  {
    !(zoneType.Some? && zoneType.value != "" && zone.zoneType != zoneType.value)
  }

  /** condition_entity_exists. */
  predicate EntityExists(zone: Zone.Zone, entityName: string, zoneType: Option<string>)
    reads zone, set i | 0 <= i < |zone.entities| :: zone.entities[i]
  {
    ZoneAccepted(zone, zoneType) && exists i | 0 <= i < |zone.entities| :: zone.entities[i].name == entityName
  }

  /** condition_event_triggered, on the event manager the condition consults. */
  predicate EventTriggered<W>(m: Events.EventManager<W>, eventId: string)
    reads m
  {
    m.IsEventTriggered(eventId)
  }

  /**
   * action_trigger_event followed by condition_event_triggered: the
   * condition holds afterwards exactly when it held before or the trigger
   * went through, and a trigger that skips conditions goes through for
   * every registered id.
   */
  method TriggerThenCheck<W>(m: Events.EventManager<W>, eventId: string, w: W, skipConditions: bool)
    returns (ok: bool, w': W)
    requires m.Valid()
    modifies m`status, m`triggered
    ensures m.Valid()
    ensures EventTriggered(m, eventId) <==> ok || old(EventTriggered(m, eventId))
    ensures skipConditions && eventId in m.events ==> ok && EventTriggered(m, eventId)
  {
    ok, w' := m.Trigger(eventId, w, skipConditions);
  }

  // ---------------------------------------------------------------------
  // Looking entities up by name
  // ---------------------------------------------------------------------

  /** The index of the first entity with the name, -1 when there is none. */
  function FirstNamed(es: seq<Entity.Entity>, name: string): (k: int)
    reads set i | 0 <= i < |es| :: es[i]
    ensures -1 <= k < |es|
    ensures k == -1 <==> forall i | 0 <= i < |es| :: es[i].name != name
    ensures k >= 0 ==> es[k].name == name && forall i | 0 <= i < k :: es[i].name != name
  {
    if es == [] then -1
    else if es[0].name == name then 0
    else
      var k := FirstNamed(es[1..], name);
      assert forall i | 0 < i < |es| :: es[i] == es[1..][i - 1];
      if k == -1 then -1 else k + 1
  }

  /** The list without its first entity of that name (unchanged when there is none). */
  function WithoutFirstNamed(es: seq<Entity.Entity>, name: string): (r: seq<Entity.Entity>)
    reads set i | 0 <= i < |es| :: es[i]
  {
    var k := FirstNamed(es, name);
    if k == -1 then es else es[..k] + es[k + 1..]
  }

  /** How many entities carry the name. */
  function CountNamed(es: seq<Entity.Entity>, name: string): (n: nat)
    reads set i | 0 <= i < |es| :: es[i]
    ensures n <= |es|
  {
    if es == [] then 0 else (if es[0].name == name then 1 else 0) + CountNamed(es[1..], name)
  }

  lemma {:induction false} CountNamedAppend(a: seq<Entity.Entity>, b: seq<Entity.Entity>, name: string)
    ensures CountNamed(a + b, name) == CountNamed(a, name) + CountNamed(b, name)
    decreases |a|
  {
    if a == [] {
      assert a + b == b;
    } else {
      assert (a + b)[0] == a[0] && (a + b)[1..] == a[1..] + b;
      CountNamedAppend(a[1..], b, name);
    }
  }

  /**
   * Removing the first entity of a name removes exactly one of that name
   * when there is one, and nothing otherwise; the other entities keep
   * their order.
   */
  lemma WithoutFirstNamedCount(es: seq<Entity.Entity>, name: string)
    ensures var k := FirstNamed(es, name);
      CountNamed(WithoutFirstNamed(es, name), name) == CountNamed(es, name) - (if k >= 0 then 1 else 0)
  {
    var k := FirstNamed(es, name);
    if k >= 0 {
      var before, after := es[..k], es[k + 1..];
      assert es == before + ([es[k]] + after);
      assert WithoutFirstNamed(es, name) == before + after;
      CountWithout(before, es[k], after, name);
    }
  }

  /** Taking out one entity with the name lowers the count by one. */
  lemma CountWithout(before: seq<Entity.Entity>, e: Entity.Entity, after: seq<Entity.Entity>, name: string)
    requires e.name == name
    ensures CountNamed(before + ([e] + after), name) == CountNamed(before + after, name) + 1
  {
    assert CountNamed([e], name) == 1;
    CountNamedAppend(before, [e] + after, name);
    CountNamedAppend([e], after, name);
    CountNamedAppend(before, after, name);
  }

  /** condition_entity_exists holds exactly when the remove action would find an entity to remove. */
  lemma ExistsIffRemovable(zone: Zone.Zone, entityName: string, zoneType: Option<string>)
    ensures EntityExists(zone, entityName, zoneType) <==>
      ZoneAccepted(zone, zoneType) && FirstNamed(zone.entities, entityName) >= 0
  {
  }

  // ---------------------------------------------------------------------
  // Actions
  // ---------------------------------------------------------------------

  /**
   * action_add_entity_to_zone with an explicit position: the entity made
   * by the factory is appended only in a zone of the target type.
   */
  method AddEntityToZone(zone: Zone.Zone, entity: Entity.Entity, zoneType: string)
    modifies zone`entities
    ensures zone.zoneType == zoneType ==> zone.entities == old(zone.entities) + [entity]
    ensures zone.zoneType != zoneType ==> zone.entities == old(zone.entities)
  {
    if zone.zoneType != zoneType {
      return;
    }
    zone.entities := zone.entities + [entity];
  }

  /** action_remove_entity_from_zone: the first entity of that name goes, in an accepted zone only. */
  method RemoveEntityFromZone(zone: Zone.Zone, entityName: string, zoneType: Option<string>)
    modifies zone`entities
    ensures !ZoneAccepted(zone, zoneType) ==> zone.entities == old(zone.entities)
    ensures ZoneAccepted(zone, zoneType) ==> zone.entities == WithoutFirstNamed(old(zone.entities), entityName)
    ensures ZoneAccepted(zone, zoneType) ==>
      (EntityExists(zone, entityName, zoneType) <==> old(CountNamed(zone.entities, entityName)) >= 2)
  {
    if !ZoneAccepted(zone, zoneType) {
      return;
    }
    var es := zone.entities;
    RemovedStillExists(es, entityName);
    var i := 0;
    while i < |es|
      invariant 0 <= i <= |es| && zone.entities == es
      invariant forall j | 0 <= j < i :: es[j].name != entityName
    {
      if es[i].name == entityName {
        assert FirstNamed(es, entityName) == i;
        assert WithoutFirstNamed(es, entityName) == es[..i] + es[i + 1..];
        zone.entities := es[..i] + es[i + 1..];
        return;
      }
      i := i + 1;
    }
  }

  /**
   * action_add_item_to_zone with an explicit position: the item made by
   * the factory is appended only in a zone of the target type.
   */
  method AddItemToZone(zone: Zone.Zone, item: Items.Item, zoneType: string)
    modifies zone`items
    ensures zone.zoneType == zoneType ==> zone.items == old(zone.items) + [item]
    ensures zone.zoneType != zoneType ==> zone.items == old(zone.items)
  {
    if zone.zoneType != zoneType {
      return;
    }
    zone.items := zone.items + [item];
  }

  /** The inventory size action_give_item_to_player checks against. */
  const GIVE_CAPACITY: nat := 26

  /** action_give_item_to_player: the item is appended while there is room for it. */
  method GiveItemToPlayer(p: Player.Player, item: Items.Item)
    modifies p`inventory
    ensures |old(p.inventory)| < GIVE_CAPACITY ==> p.inventory == old(p.inventory) + [item]
    ensures |old(p.inventory)| >= GIVE_CAPACITY ==> p.inventory == old(p.inventory)
  {
    if |p.inventory| < GIVE_CAPACITY {
      p.inventory := p.inventory + [item];
    }
  }

  /** The gold after action_modify_player_gold: the sum, floored at zero. */
  function GoldAfter(gold: int, amount: int): (g: int)
    ensures g >= 0
    ensures gold + amount >= 0 ==> g == gold + amount
    ensures gold + amount < 0 ==> g == 0
  {
    if gold + amount < 0 then 0 else gold + amount
  }

  method ModifyPlayerGold(p: Player.Player, amount: int)
    modifies p`gold
    ensures p.gold == GoldAfter(old(p.gold), amount)
  {
    var g := p.gold + amount;
    p.gold := if g > 0 then g else 0;
  }

  /**
   * Giving keeps the inventory within the capacity, and a player who was
   * given an item with room left now has an item of that name.
   */
  lemma GiveKeepsCapacity(inv: seq<Items.Item>, item: Items.Item)
    requires |inv| <= GIVE_CAPACITY
    ensures var r := if |inv| < GIVE_CAPACITY then inv + [item] else inv;
      |r| <= GIVE_CAPACITY && (|inv| < GIVE_CAPACITY ==> exists i | 0 <= i < |r| :: r[i].name == item.name)
  {
    if |inv| < GIVE_CAPACITY {
      assert (inv + [item])[|inv|] == item;
    }
  }

  /**
   * condition_player_has_gold after action_modify_player_gold: the
   * condition holds exactly when the sum reaches the minimum, or the
   * minimum is at most zero and the floor at zero meets it.
   */
  lemma GoldConditionAfter(gold: int, amount: int, minGold: int)
    ensures GoldAfter(gold, amount) >= minGold <==> gold + amount >= minGold || minGold <= 0
  {
  }

  /** Some entity carries the name exactly when the count of that name is positive. */
  lemma {:induction false} NamedIffCounted(es: seq<Entity.Entity>, name: string)
    ensures (exists i | 0 <= i < |es| :: es[i].name == name) <==> CountNamed(es, name) > 0
    decreases |es|
  {
    if es != [] {
      NamedIffCounted(es[1..], name);
      if CountNamed(es[1..], name) > 0 {
        var i :| 0 <= i < |es[1..]| && es[1..][i].name == name;
        assert es[i + 1].name == name;
      }
      if exists i | 0 <= i < |es| :: es[i].name == name {
        var i :| 0 <= i < |es| && es[i].name == name;
        if i > 0 {
          assert es[1..][i - 1].name == name;
        }
      }
    }
  }

  /**
   * condition_entity_exists after action_remove_entity_from_zone in an
   * accepted zone: the name is still present exactly when the zone held
   * at least two entities of that name.
   */
  lemma RemovedStillExists(es: seq<Entity.Entity>, name: string)
    ensures var r := WithoutFirstNamed(es, name);
      (exists i | 0 <= i < |r| :: r[i].name == name) <==> CountNamed(es, name) >= 2
  {
    var r := WithoutFirstNamed(es, name);
    WithoutFirstNamedCount(es, name);
    NamedIffCounted(r, name);
    NamedIffCounted(es, name);
  }

  /**
   * condition_player_has_item after action_give_item_to_player: the player
   * holds the name exactly when they held it before, or there was room and
   * the given item carries it.
   */
  lemma GiveThenHasItem(inv: seq<Items.Item>, item: Items.Item, name: string)
    ensures var r := if |inv| < GIVE_CAPACITY then inv + [item] else inv;
      (exists i | 0 <= i < |r| :: r[i].name == name) <==>
        (exists i | 0 <= i < |inv| :: inv[i].name == name) || (|inv| < GIVE_CAPACITY && item.name == name)
  {
    if |inv| < GIVE_CAPACITY {
      var r := inv + [item];
      assert r[|inv|] == item;
      if exists i | 0 <= i < |inv| :: inv[i].name == name {
        var i :| 0 <= i < |inv| && inv[i].name == name;
        assert r[i] == inv[i];
      }
      if exists i | 0 <= i < |r| :: r[i].name == name {
        var i :| 0 <= i < |r| && r[i].name == name;
        if i < |inv| {
          assert inv[i] == r[i];
        }
      }
    }
  }
}
