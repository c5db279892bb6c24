/*
 * entities/monster.py: a dungeon monster.  Its position, glyph, name and
 * blocking flag live in its Entity body (the object the dungeon's entity
 * list holds), its combat stats in its Fighter.  The chase step moves one
 * cell towards a target, only onto a walkable cell no blocking entity
 * occupies; death turns the monster into a non-blocking corpse.
 *
 * What needs floats or randomness stays outside: whether the monster sees
 * the player (a distance square root and a line-of-sight walk) is passed to
 * Update as `canSee`, and Update reports an attack or a random wander step
 * as its Action instead of carrying it out.
 */
module Monster {
  import opened Common
  import Entity
  import Zone
  import Dungeon
  import Player

  datatype MonsterData = MonsterData(
    name: string, symbol: string, color: string, hp: int, attack: int, defense: int, xp: int,
    minLevel: int, maxLevel: int, isBoss: bool)

  /** The monster table of the configuration. */
  const MONSTER_DATA: map<string, MonsterData> := map[
    "rat" := MonsterData("Rata", "r", "rat", 7, 2, 0, 5, 1, 3, false),
    "bat" := MonsterData("Murciélago", "B", "bat", 10, 5, 0, 8, 2, 4, false),
    "goblin" := MonsterData("Goblin", "g", "goblin", 17, 8, 1, 15, 3, 5, false),
    "snake" := MonsterData("Serpiente", "S", "snake", 15, 10, 0, 12, 4, 6, false),
    "skeleton" := MonsterData("Esqueleto", "s", "skeleton", 20, 13, 2, 20, 5, 7, false),
    "orc" := MonsterData("Orco", "o", "orc", 25, 17, 3, 30, 6, 8, false),
    "zombie" := MonsterData("Zombie", "Z", "zombie", 30, 13, 4, 35, 6, 9, false),
    "wraith" := MonsterData("Espectro", "W", "wraith", 25, 18, 3, 50, 7, 10, false),
    "troll" := MonsterData("Troll", "T", "troll", 45, 20, 5, 60, 8, 10, false),
    "dragon" := MonsterData("Dragón", "D", "dragon", 75, 20, 8, 100, 9, 10, false),
    "ancient_dragon" := MonsterData("Dragón Anciano", "D", "ancient_dragon", 160, 20, 15, 500, 10, 10, true)
  ]

  /** The data a monster type is built from: its own entry, or the rat's for an unknown type. */
  function DataFor(monsterType: string): (d: MonsterData)
    ensures monsterType in MONSTER_DATA ==> d == MONSTER_DATA[monsterType]
    ensures monsterType !in MONSTER_DATA ==> d == MONSTER_DATA["rat"]
  {
    if monsterType in MONSTER_DATA then MONSTER_DATA[monsterType] else MONSTER_DATA["rat"]
  }

  /** Every monster of the table starts alive: a positive max_hp. */
  lemma DataHpPositive(monsterType: string)
    ensures DataFor(monsterType).hp > 0
  {
    var d := DataFor(monsterType);
    assert d in MONSTER_DATA.Values;
  }

  /** `v // abs(v)` for non-zero v, and 0 for 0: the unit direction of a difference. */
  function Sign(v: int): (s: int)
    ensures -1 <= s <= 1
    ensures (s == 0 <==> v == 0) && (s > 0 <==> v > 0)
  {
    if v > 0 then 1 else if v < 0 then -1 else 0
  }

  /**
   * The moves _move_towards tries, in order: the diagonal when both
   * directions are non-zero, then the horizontal step, then the vertical
   * one.  (The source then tries the horizontal and vertical steps once
   * more; MoveTowards shows that those repeats can never succeed.)
   */
  function Steps(sx: int, sy: int): (r: seq<(int, int)>)
  {
    (if sx != 0 && sy != 0 then [(sx, sy)] else []) +
    (if sx != 0 then [(sx, 0)] else []) +
    (if sy != 0 then [(0, sy)] else [])
  }

  /**
   * Every move tried goes one cell at most along each axis, towards the
   * target on each axis it moves along, and is never the null move; moves
   * are tried only when the target is elsewhere.
   */
  lemma StepsTowards(dx: int, dy: int)
    ensures var r := Steps(Sign(dx), Sign(dy));
      (r == [] <==> dx == 0 && dy == 0) &&
      forall i | 0 <= i < |r| ::
        (r[i].0 == 0 || r[i].0 == Sign(dx)) && (r[i].1 == 0 || r[i].1 == Sign(dy)) && r[i] != (0, 0)
  {
  }

  /**
   * `distance_to(player) < 1.5` on integer positions: sqrt(dx² + dy²) < 1.5
   * holds exactly when dx² + dy² <= 2.
   */
  predicate Near(dx: int, dy: int)
  {
    dx * dx + dy * dy <= 2
  }

  /** The hunt attacks exactly the eight neighbours (and the monster's own cell). */
  lemma NearIsNeighbour(dx: int, dy: int)
    ensures Near(dx, dy) <==> -1 <= dx <= 1 && -1 <= dy <= 1
  {
    if dx > 1 || dx < -1 {
      assert dx * dx >= 4 by { SquareAtLeast(dx); }
      assert dy * dy >= 0;
    } else if dy > 1 || dy < -1 {
      assert dy * dy >= 4 by { SquareAtLeast(dy); }
      assert dx * dx >= 0;
    }
  }

  lemma SquareAtLeast(v: int)
    requires v > 1 || v < -1
    ensures v * v >= 4
  {
    if v > 1 {
      assert v * v >= 2 * v;
    } else {
      assert v * v >= -2 * v;
    }
  }

  /** The three things update can leave for the caller after the AI step. */
  datatype Action = NoAction | Attacks | Chased(moved: bool) | Wanders

  /** The saved form of a monster. */
  datatype MonsterDict = MonsterDict(x: int, y: int, monsterType: string, hp: int, aiState: string, isDead: bool)

  /** The cell (x, y) of the map can be stepped onto: walkable, and no entity on the map blocks it. */
  predicate Free(z: Zone.Zone, x: int, y: int)
    requires z.Valid()
    reads z, z.tiles, set i | 0 <= i < |z.entities| :: z.entities[i]
  {
    z.IsWalkable(x, y) && forall i | 0 <= i < |z.entities| :: !Zone.BlocksAt(z.entities[i], x, y)
  }

  /**
   * The move _move_towards makes in direction (sx, sy), given whether the
   * diagonal, the horizontal and the vertical move lead onto a free cell:
   * the first free one of Steps, in that order; None when none is free.
   */
  function Chosen(sx: int, sy: int, fd: bool, fx: bool, fy: bool): (r: Option<(int, int)>)
  {
    if sx != 0 && sy != 0 && fd then Some((sx, sy))
    else if sx != 0 && fx then Some((sx, 0))
    else if sy != 0 && fy then Some((0, sy))
    else None
  }

  /**
   * The chosen move is one of Steps, taken only when it is free; every
   * move Steps lists before it is blocked, and none is chosen only when
   * every move of Steps is blocked.
   */
  lemma ChosenIsFirstFreeStep(sx: int, sy: int, fd: bool, fx: bool, fy: bool)
    ensures var steps := Steps(sx, sy);
      var free := (s: (int, int)) => if s.0 != 0 && s.1 != 0 then fd else if s.1 == 0 then fx else fy;
      var c := Chosen(sx, sy, fd, fx, fy);
      (c.None? <==> forall i | 0 <= i < |steps| :: !free(steps[i])) &&
      (c.Some? ==> exists k | 0 <= k < |steps| :: steps[k] == c.value && free(steps[k]) &&
                     forall i | 0 <= i < k :: !free(steps[i]))
  {
    var steps := Steps(sx, sy);
    var c := Chosen(sx, sy, fd, fx, fy);
    if c.Some? {
      var k := if c.value.0 != 0 && c.value.1 != 0 then 0
               else if c.value.1 == 0 then (if sy != 0 then 1 else 0)
               else |steps| - 1;
      assert steps[k] == c.value;
    }
  }

  class Monster {
    const body: Entity.Entity
    const fighter: Entity.Fighter
    const monsterType: string
    const isBoss: bool
    const dungeon: Dungeon.Dungeon?
    var aiState: string
    var target: Player.Player?
    var lastKnownPlayerPos: Option<(int, int)>

    /** The fighter keeps the max_hp of the monster's data and its hp within [0, max_hp]. */
    predicate Valid()
      reads this, fighter
    {
      fighter.maxHp == DataFor(monsterType).hp && fighter.Valid()
    }

    /** The dungeon, when there is one, has a well-formed tile matrix. */
    predicate MapReady()
      reads this, dungeon, if dungeon != null then {dungeon.zone} else {}
    {
      dungeon != null ==> dungeon.zone.Valid()
    }

    /**
     * The monster's data (the rat's for an unknown type), a blocking body
     * at (x, y), a full-health fighter and an idle AI.
     */
    constructor (x: int, y: int, monsterType: string, dungeon: Dungeon.Dungeon?)
      ensures fresh(body) && fresh(fighter)
      ensures body.x == x && body.y == y && body.blocks
      ensures var d := DataFor(monsterType);
        body.glyph == d.symbol && body.name == d.name && body.color == d.color && isBoss == d.isBoss &&
        fighter.maxHp == d.hp && fighter.hp == d.hp && fighter.baseAttack == d.attack &&
        fighter.baseDefense == d.defense && fighter.xp == d.xp
      ensures this.monsterType == monsterType && this.dungeon == dungeon
      ensures aiState == "idle" && target == null && lastKnownPlayerPos == None
      ensures Valid()
    {
      var d := DataFor(monsterType);
      DataHpPositive(monsterType);
      body := new Entity.Entity(x, y, d.symbol, d.name, d.color, true);
      fighter := new Entity.Fighter(d.hp, d.attack, d.defense, d.xp, 1);
      this.monsterType, isBoss, this.dungeon := monsterType, d.isBoss, dungeon;
      aiState, target, lastKnownPlayerPos := "idle", null, None;
    }

    /** The move by (dx, dy) from where the monster stands leads onto a free cell of its dungeon. */
    predicate FreeAt(dx: int, dy: int)
      requires MapReady()
      reads this, body, dungeon
      reads if dungeon != null then {dungeon.zone, dungeon.zone.tiles} else {}
      reads if dungeon != null then set i | 0 <= i < |dungeon.zone.entities| :: dungeon.zone.entities[i] else {}
    {
      dungeon != null && Free(dungeon.zone, body.x + dx, body.y + dy)
    }

    /** _try_move: one step by (dx, dy), taken only onto a cell the monster can enter. */
    method TryMove(dx: int, dy: int) returns (moved: bool)
      requires MapReady()
      modifies body`x, body`y
      ensures moved <==> old(FreeAt(dx, dy))
      ensures moved ==> body.x == old(body.x) + dx && body.y == old(body.y) + dy
      ensures !moved ==> unchanged(body)
    {
      var nx, ny := body.x + dx, body.y + dy;
      if dungeon == null || !dungeon.zone.IsWalkable(nx, ny) {
        return false;
      }
      var es := dungeon.zone.entities;
      var i := 0;
      while i < |es|
        invariant 0 <= i <= |es|
        invariant forall j | 0 <= j < i :: !Zone.BlocksAt(es[j], nx, ny)
      {
        if es[i].x == nx && es[i].y == ny && es[i].blocks {
          return false;
        }
        i := i + 1;
      }
      body.x, body.y := nx, ny;
      moved := true;
    }

    /**
     * _move_towards: the first of Steps that the monster can take is taken;
     * nothing moves when none can (or when it already stands on the target).
     * The tries the source repeats after a failure add nothing.
     */
    method MoveTowards(targetX: int, targetY: int) returns (moved: bool)
      requires MapReady()
      modifies body`x, body`y
      ensures var sx, sy := Sign(targetX - old(body.x)), Sign(targetY - old(body.y));
        var c := Chosen(sx, sy, old(FreeAt(sx, sy)), old(FreeAt(sx, 0)), old(FreeAt(0, sy)));
        (moved <==> c.Some?) &&
        (moved ==> body.x == old(body.x) + c.value.0 && body.y == old(body.y) + c.value.1) &&
        (!moved ==> body.x == old(body.x) && body.y == old(body.y))
    {
      var dx, dy := Sign(targetX - body.x), Sign(targetY - body.y);
      if dx != 0 && dy != 0 {
        moved := TryMove(dx, dy);
        if moved {
          return;
        }
      }
      moved := TryAxes(dx, dy);
      if moved {
        return;
      }
      if dx != 0 && dy != 0 {
        moved := TryAxes(dx, dy);
      }
    }

    /**
     * The straight tries of _move_towards: the horizontal step if dx is
     * non-zero, then the vertical step if dy is non-zero.  The source
     * makes these tries twice (the second time only when both are
     * non-zero); a failed round leaves everything as it was, so the second
     * round fails too.
     */
    method TryAxes(dx: int, dy: int) returns (moved: bool)
      requires MapReady()
      modifies body`x, body`y
      ensures moved <==> (dx != 0 && old(FreeAt(dx, 0))) || (dy != 0 && old(FreeAt(0, dy)))
      ensures moved && dx != 0 && old(FreeAt(dx, 0)) ==> body.x == old(body.x) + dx && body.y == old(body.y)
      ensures moved && !(dx != 0 && old(FreeAt(dx, 0))) ==> body.x == old(body.x) && body.y == old(body.y) + dy
      ensures !moved ==> unchanged(body)
    {
      moved := false;
      if dx != 0 {
        moved := TryMove(dx, 0);
        if moved {
          return;
        }
      }
      if dy != 0 {
        moved := TryMove(0, dy);
      }
    }

    /**
     * The AI-state part of update for a living monster: seeing the player
     * starts (or keeps) the hunt and remembers where the player is; a hunter
     * standing on the remembered spot without seeing the player goes idle.
     */
    method Observe(player: Player.Player, canSee: bool)
      modifies this`aiState, this`target, this`lastKnownPlayerPos
      ensures canSee ==>
        aiState == "hunting" && target == player && lastKnownPlayerPos == Some((player.body.x, player.body.y))
      ensures !canSee ==> target == old(target)
      ensures !canSee && old(aiState) == "hunting" && old(lastKnownPlayerPos) == Some((body.x, body.y)) ==>
        aiState == "idle" && lastKnownPlayerPos == None
      ensures !canSee && !(old(aiState) == "hunting" && old(lastKnownPlayerPos) == Some((body.x, body.y))) ==>
        aiState == old(aiState) && lastKnownPlayerPos == old(lastKnownPlayerPos)
    {
      if canSee {
        aiState, target, lastKnownPlayerPos := "hunting", player, Some((player.body.x, player.body.y));
      } else if aiState == "hunting" && lastKnownPlayerPos.Some? {
        if (body.x, body.y) == lastKnownPlayerPos.value {
          aiState, lastKnownPlayerPos := "idle", None;
        }
      }
    }

    /**
     * The acting part of update: a hunter with a target attacks a player
     * next to it and otherwise chases; an idle monster wanders.
     */
    method Act(player: Player.Player) returns (action: Action)
      requires MapReady()
      modifies body`x, body`y
      ensures action == Attacks <==>
        aiState == "hunting" && target != null && Near(player.body.x - old(body.x), player.body.y - old(body.y))
      ensures action.Chased? <==>
        aiState == "hunting" && target != null && !Near(player.body.x - old(body.x), player.body.y - old(body.y))
      ensures action == Wanders <==> aiState == "idle"
      ensures !action.Chased? ==> body.x == old(body.x) && body.y == old(body.y)
    {
      if aiState == "hunting" && target != null {
        if Near(player.body.x - body.x, player.body.y - body.y) {
          action := Attacks;
        } else {
          var moved := MoveTowards(player.body.x, player.body.y);
          action := Chased(moved);
        }
      } else if aiState == "idle" {
        action := Wanders;
      } else {
        action := NoAction;
      }
    }

    /**
     * update: a dead monster does nothing and says nothing; a living one
     * observes and then acts.
     */
    method Update(player: Player.Player, canSee: bool) returns (action: Action)
      requires MapReady()
      modifies this`aiState, this`target, this`lastKnownPlayerPos, body`x, body`y
      ensures old(fighter.IsDead()) ==> action == NoAction && unchanged(this) && unchanged(body)
      ensures !old(fighter.IsDead()) && canSee ==>
        aiState == "hunting" && target == player && lastKnownPlayerPos == Some((old(player.body.x), old(player.body.y)))
      ensures !old(fighter.IsDead()) && !canSee ==> target == old(target)
      ensures !old(fighter.IsDead()) && !canSee && old(aiState) == "hunting" && old(lastKnownPlayerPos) == Some((old(body.x), old(body.y))) ==>
        aiState == "idle" && lastKnownPlayerPos == None
      ensures !old(fighter.IsDead()) && !canSee && !(old(aiState) == "hunting" && old(lastKnownPlayerPos) == Some((old(body.x), old(body.y)))) ==>
        aiState == old(aiState) && lastKnownPlayerPos == old(lastKnownPlayerPos)
      ensures !old(fighter.IsDead()) ==> (action == Attacks <==>
        aiState == "hunting" && target != null && Near(player.body.x - old(body.x), player.body.y - old(body.y)))
      ensures !old(fighter.IsDead()) ==> (action.Chased? <==>
        aiState == "hunting" && target != null && !Near(player.body.x - old(body.x), player.body.y - old(body.y)))
      ensures !old(fighter.IsDead()) ==> (action == Wanders <==> aiState == "idle")
      ensures !action.Chased? ==> body.x == old(body.x) && body.y == old(body.y)
    {
      if fighter.hp <= 0 {
        return NoAction;
      }
      Observe(player, canSee);
      action := Act(player);
    }

    /** die: the announcement, and the body becomes a non-blocking '%' corpse named after the monster. */
    method Die() returns (messages: seq<string>)
      modifies body`glyph, body`color, body`blocks, body`name
      ensures messages == ["¡El " + old(body.name) + " muere!"]
      ensures body.glyph == "%" && body.color == "dark_gray" && !body.blocks
      ensures body.name == "restos de " + old(body.name)
      ensures forall x, y :: !Zone.BlocksAt(body, x, y)
    {
      messages := ["¡El " + body.name + " muere!"];
      body.glyph, body.color, body.blocks := "%", "dark_gray", false;
      body.name := "restos de " + body.name;
    }

    /** to_dict. */
    function ToDict(): (d: MonsterDict)
      reads this, body, fighter
      ensures d.x == body.x && d.y == body.y && d.monsterType == monsterType && d.hp == fighter.hp
      ensures d.aiState == aiState && d.isDead == fighter.IsDead()
    {
      MonsterDict(body.x, body.y, monsterType, fighter.hp, aiState, fighter.hp <= 0)
    }
  }

  /**
   * from_dict: a monster of the saved type at the saved position, with the
   * saved hp (through the clamping setter) and AI state; a dead one gets the
   * corpse glyph, colour and blocking flag back (its name stays the
   * species name, without the "restos de" that die gives it).
   */
  method FromDict(d: MonsterDict, dungeon: Dungeon.Dungeon?) returns (m: Monster)
    ensures fresh(m) && fresh(m.body) && fresh(m.fighter) && m.dungeon == dungeon && m.Valid()
    ensures m.body.x == d.x && m.body.y == d.y && m.monsterType == d.monsterType && m.aiState == d.aiState
    ensures m.fighter.hp == Entity.Clamp(d.hp, DataFor(d.monsterType).hp)
    ensures d.isDead ==> m.body.glyph == "%" && m.body.color == "dark_gray" && !m.body.blocks
    ensures !d.isDead ==> m.body.glyph == DataFor(d.monsterType).symbol && m.body.blocks
    ensures m.body.name == DataFor(d.monsterType).name
    ensures RestorableDict(d) ==> m.ToDict() == d
  {
    m := new Monster(d.x, d.y, d.monsterType, dungeon);
    m.fighter.SetHp(d.hp);
    m.aiState := d.aiState;
    if d.isDead {
      m.body.glyph, m.body.color, m.body.blocks := "%", "dark_gray", false;
    }
  }

  /** A record from_dict reproduces exactly: hp within the type's max_hp, is_dead matching hp. */
  predicate RestorableDict(d: MonsterDict)
  {
    0 <= d.hp <= DataFor(d.monsterType).hp && d.isDead == (d.hp <= 0)
  }

  /** Whatever a valid monster saves is such a record, so saving and restoring it round-trips. */
  lemma SavedIsRestorable(m: Monster)
    requires m.Valid()
    ensures RestorableDict(m.ToDict())
  {
  }
}
