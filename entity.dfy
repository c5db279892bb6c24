/*
 * entities/entity.py: the base Entity (position, glyph, name, blocking) and
 * the Fighter combat component whose hit points are kept inside [0, max_hp]
 * by the `hp` property setter.
 */
module Entity {

  /** The hp setter: max(0, min(value, max_hp)). */
  function Clamp(value: int, maxHp: int): (r: int)
    ensures r >= 0
    ensures maxHp >= 0 ==> r <= maxHp
    ensures 0 <= value <= maxHp ==> r == value
    ensures value > maxHp && maxHp >= 0 ==> r == maxHp
    ensures value < 0 ==> r == 0
  {
    var m := if value < maxHp then value else maxHp;
    if m > 0 then m else 0
  }

  /** take_damage never applies negative damage. */
  function ActualDamage(amount: int): (d: int)
    ensures d >= 0 && (amount >= 0 ==> d == amount) && (amount < 0 ==> d == 0)
  {
    if amount > 0 then amount else 0
  }

  /** Healing by a non-negative amount from a valid hp restores min(amount, missing hp). */
  lemma HealAmount(hp: int, maxHp: int, amount: int)
    requires 0 <= hp <= maxHp && amount >= 0
    ensures Clamp(hp + amount, maxHp) - hp == (if amount < maxHp - hp then amount else maxHp - hp)
  {
  }

  /** Damage from a valid hp leaves max(0, hp - damage). */
  lemma DamageAmount(hp: int, maxHp: int, amount: int)
    requires 0 <= hp <= maxHp
    ensures Clamp(hp - ActualDamage(amount), maxHp) == (if hp - ActualDamage(amount) > 0 then hp - ActualDamage(amount) else 0)
  {
  }

  class Entity {
    var x: int
    var y: int
    var glyph: string
    var name: string
    var color: string
    var blocks: bool

    constructor (x: int, y: int, glyph: string, name: string, color: string, blocks: bool)
      ensures this.x == x && this.y == y && this.glyph == glyph && this.name == name
      ensures this.color == color && this.blocks == blocks
    {
      this.x, this.y, this.glyph, this.name, this.color, this.blocks := x, y, glyph, name, color, blocks;
    }

    /** The `position` property. */
    function Position(): (p: (int, int))
      reads this
      ensures p.0 == x && p.1 == y
    {
      (x, y)
    }

    /** The `position` setter. */
    method SetPosition(p: (int, int))
      modifies this`x, this`y
      ensures Position() == p
    {
      x, y := p.0, p.1;
    }
  }

  class Fighter {
    var maxHp: int
    var hp: int
    var baseAttack: int
    var baseDefense: int
    var xp: int
    var level: int
    var attackBonus: int
    var defenseBonus: int
    var bonusDuration: int

    /** hp within [0, max_hp]: holds for every fighter built with a non-negative max_hp. */
    predicate Valid()
      reads this
    {
      0 <= hp <= maxHp
    }

    /** A new fighter starts at full health with no bonuses. */
    constructor (maxHp: int, attack: int, defense: int, xp: int, level: int)
      ensures this.maxHp == maxHp && hp == maxHp && baseAttack == attack && baseDefense == defense
      ensures this.xp == xp && this.level == level
      ensures attackBonus == 0 && defenseBonus == 0 && bonusDuration == 0
      ensures maxHp >= 0 ==> Valid()
    {
      this.maxHp, hp, baseAttack, baseDefense := maxHp, maxHp, attack, defense;
      this.xp, this.level := xp, level;
      attackBonus, defenseBonus, bonusDuration := 0, 0, 0;
    }

    function Attack(): int
      reads this
    {
      baseAttack + attackBonus
    }

    function Defense(): int
      reads this
    {
      baseDefense + defenseBonus
    }

    predicate IsDead()
      reads this
    {
      hp <= 0
    }

    /** The hp setter. */
    method SetHp(value: int)
      modifies this`hp
      ensures hp == Clamp(value, maxHp)
      ensures maxHp >= 0 ==> Valid()
    {
      var m := if value < maxHp then value else maxHp;
      hp := if m > 0 then m else 0;
    }

    /** Applies max(0, amount) damage and reports that amount, even past the remaining hp. */
    method TakeDamage(amount: int) returns (actual: int)
      modifies this`hp
      ensures actual == ActualDamage(amount)
      ensures hp == Clamp(old(hp) - actual, maxHp)
      ensures maxHp >= 0 ==> Valid()
    {
      actual := if amount > 0 then amount else 0;
      SetHp(hp - actual);
    }

    /** Heals and reports the hp actually gained. */
    method Heal(amount: int) returns (healed: int)
      modifies this`hp
      ensures hp == Clamp(old(hp) + amount, maxHp) && healed == hp - old(hp)
      ensures maxHp >= 0 ==> Valid()
      ensures old(Valid()) && amount >= 0 ==> 0 <= healed <= amount
    {
      var before := hp;
      SetHp(hp + amount);
      healed := hp - before;
    }

    /** A running bonus counts down one turn; both bonuses vanish when it runs out. */
    method UpdateBonuses()
      modifies this`bonusDuration, this`attackBonus, this`defenseBonus
      ensures old(bonusDuration) <= 0 ==> unchanged(this)
      ensures old(bonusDuration) > 0 ==> bonusDuration == old(bonusDuration) - 1
      ensures old(bonusDuration) == 1 ==> attackBonus == 0 && defenseBonus == 0
      ensures old(bonusDuration) > 1 ==> attackBonus == old(attackBonus) && defenseBonus == old(defenseBonus)
    {
      if bonusDuration > 0 {
        bonusDuration := bonusDuration - 1;
        if bonusDuration <= 0 {
          attackBonus := 0;
          defenseBonus := 0;
        }
      }
    }
  }
}
