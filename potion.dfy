/*
 * items/potion.py, Potion.use: the effect of drinking a potion on the
 * player's fighter, and the dispatch of Item.use that inventories call.
 */
module Potion {
  import opened Common
  import Items
  import Entity
  import Player

  function Abs(n: int): (r: int)
    ensures r >= 0 && (r == n || r == -n)
  {
    if n < 0 then -n else n
  }

  /**
   * Potion.use.  "heal" heals by the effect value, "poison" deals its
   * absolute value as damage and records a poison death, "strength" adds to
   * the attack bonus and restarts the bonus duration; those are consumed.  Any
   * other effect changes nothing and the potion is kept.
   */
  method UsePotion(v: Items.ItemValue, player: Player.Player) returns (messages: seq<string>, consumed: bool)
    requires v.kind.PotionKind?
    modifies player.fighter`hp, player.fighter`attackBonus, player.fighter`bonusDuration, player`deathCause
    ensures consumed <==> v.kind.effect in {"heal", "poison", "strength"}
    ensures |messages| == 1
    ensures v.kind.effect == "heal" ==>
      player.fighter.hp == Entity.Clamp(old(player.fighter.hp) + v.kind.effectValue, player.fighter.maxHp) &&
      player.fighter.attackBonus == old(player.fighter.attackBonus) &&
      player.fighter.bonusDuration == old(player.fighter.bonusDuration) && player.deathCause == old(player.deathCause)
    ensures v.kind.effect == "poison" ==>
      player.fighter.hp == Entity.Clamp(old(player.fighter.hp) - Abs(v.kind.effectValue), player.fighter.maxHp) &&
      player.fighter.attackBonus == old(player.fighter.attackBonus) &&
      player.fighter.bonusDuration == old(player.fighter.bonusDuration) &&
      player.deathCause == (if player.fighter.hp <= 0 then Some("poison") else old(player.deathCause))
    ensures v.kind.effect == "strength" ==>
      player.fighter.hp == old(player.fighter.hp) &&
      player.fighter.attackBonus == old(player.fighter.attackBonus) + v.kind.effectValue &&
      player.fighter.bonusDuration == v.kind.potionDuration && player.deathCause == old(player.deathCause)
    ensures v.kind.effect !in {"heal", "poison", "strength"} ==>
      player.fighter.hp == old(player.fighter.hp) && player.fighter.attackBonus == old(player.fighter.attackBonus) &&
      player.fighter.bonusDuration == old(player.fighter.bonusDuration) && player.deathCause == old(player.deathCause)
  {
    var f := player.fighter;
    consumed := true;
    if v.kind.effect == "heal" {
      var healed := f.Heal(v.kind.effectValue);
      if healed > 0 {
        messages := ["Bebes " + v.name + ". Te curas " + IntToString(healed) + " puntos de vida."];
      } else {
        messages := ["Bebes " + v.name + ", pero ya estás a máxima salud."];
      }
    } else if v.kind.effect == "poison" {
      var damage := Abs(v.kind.effectValue);
      var _ := f.TakeDamage(damage);
      messages := ["¡La poción está envenenada! Sufres " + IntToString(damage) + " de daño."];
      if f.IsDead() {
        player.deathCause := Some("poison");
      }
    } else if v.kind.effect == "strength" {
      f.attackBonus := f.attackBonus + v.kind.effectValue;
      f.bonusDuration := v.kind.potionDuration;
      messages := ["Bebes " + v.name + ". Tu fuerza aumenta en " + IntToString(v.kind.effectValue) +
                   " por " + IntToString(v.kind.potionDuration) + " turnos."];
    } else {
      messages := ["Bebes " + v.name + ". No pasa nada."];
      consumed := false;
    }
  }

  /** Item.use as inventories call it: potions drink, every other item refuses. */
  method UseItem(item: Items.Item, player: Player.Player) returns (messages: seq<string>, consumed: bool)
    modifies player.fighter`hp, player.fighter`attackBonus, player.fighter`bonusDuration, player`deathCause
    ensures !item.kind.PotionKind? ==> ((messages, consumed) == Items.BaseUse(item.Snapshot()) &&
      unchanged(player.fighter) && unchanged(player))
    ensures consumed <==> item.kind.PotionKind? && item.kind.effect in {"heal", "poison", "strength"}
    ensures item.kind.PotionKind? ==> |messages| == 1
    ensures item.kind.PotionKind? && item.kind.effect == "heal" ==>
      player.fighter.hp == Entity.Clamp(old(player.fighter.hp) + item.kind.effectValue, player.fighter.maxHp) &&
      player.fighter.attackBonus == old(player.fighter.attackBonus) &&
      player.fighter.bonusDuration == old(player.fighter.bonusDuration) && player.deathCause == old(player.deathCause)
    ensures item.kind.PotionKind? && item.kind.effect == "poison" ==>
      player.fighter.hp == Entity.Clamp(old(player.fighter.hp) - Abs(item.kind.effectValue), player.fighter.maxHp) &&
      player.fighter.attackBonus == old(player.fighter.attackBonus) &&
      player.fighter.bonusDuration == old(player.fighter.bonusDuration) &&
      player.deathCause == (if player.fighter.hp <= 0 then Some("poison") else old(player.deathCause))
    ensures item.kind.PotionKind? && item.kind.effect == "strength" ==>
      player.fighter.hp == old(player.fighter.hp) &&
      player.fighter.attackBonus == old(player.fighter.attackBonus) + item.kind.effectValue &&
      player.fighter.bonusDuration == item.kind.potionDuration && player.deathCause == old(player.deathCause)
    ensures item.kind.PotionKind? && item.kind.effect !in {"heal", "poison", "strength"} ==>
      player.fighter.hp == old(player.fighter.hp) && player.fighter.attackBonus == old(player.fighter.attackBonus) &&
      player.fighter.bonusDuration == old(player.fighter.bonusDuration) && player.deathCause == old(player.deathCause)
  {
    var v := item.Snapshot();
    if v.kind.PotionKind? {
      messages, consumed := UsePotion(v, player);
    } else {
      messages, consumed := Items.BaseUse(v).0, Items.BaseUse(v).1;
    }
  }

  /** A heal potion restores at most its value and never beyond the maximum. */
  lemma HealBounded(hp: int, maxHp: int, value: int)
    requires 0 <= hp <= maxHp && value >= 0
    ensures hp <= Entity.Clamp(hp + value, maxHp) <= maxHp
    ensures Entity.Clamp(hp + value, maxHp) - hp <= value
  {
  }

  /** A poison potion kills exactly when its strength reaches the remaining hit points. */
  lemma PoisonKillsIff(hp: int, maxHp: int, value: int)
    requires 0 <= hp <= maxHp
    ensures Entity.Clamp(hp - Abs(value), maxHp) <= 0 <==> Abs(value) >= hp
  {
  }
}
