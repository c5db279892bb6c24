# Mansion Ambar: a verified model of the NPC state machine and its game

Mansion Ambar is a roguelike in Python.  The player goes down a mansion
floor by floor and comes back to a lobby after every death.  Between runs a
small cast of NPCs tells its stories: the Stranger and his granddaughter,
the wandering merchant, the alchemist, and the librarian with his dog
Hermes.  A finite-state machine (systems/npc_states.py) drives the
storylines.  For each NPC it keeps the registered states, the current state
and a completion status per state.  Its transitions are guarded by reads of
a persistent event store (systems/events.py), which remembers the events
already triggered, the number of finished runs and a few counters.

This project is a Dafny model of that engine, of the NPC content that plugs
into it, and of the systems the content acts on.  Those systems are the
player and their inventory, items and shops, the dialog navigator, dialog
trees, the developer console, the dungeon and lobby maps, field-of-view
lines, monsters and the message log.  It also models the parts of the
Game object that keep integer state: menu cursors, the inventory list, the
donation selector, the console history, the unlocks on a death by poison,
and what happens when a dialog closes.

Each source file is one module (`npc_states.dfy` models
systems/npc_states.py, and so on).  `common.dfy` holds the Python string
and integer operations the source relies on.  `content.dfy` holds what the
NPC modules share.  `npcs.dfy` models content/npcs/__init__.py.  The form
follows the source:

- Objects whose fields change in place are classes with `modifies` and
  `reads` frames.  These are the state manager, the event manager, the
  player, items, shops, inventories, the dialog manager, zones and the
  Game.
- Loops are methods with invariants, proved against specification
  functions.
- Pure computations are functions with lemmas: guards, spawn conditions,
  state tables, text splitting and line drawing.

Some inputs come from outside the game's logic:

- Randomness arrives as parameters: the `lucky` draw of a spawn, and the
  tunnel orientation.
- The items a factory would create are passed in, with null for a failed
  creation.
- The condition and action callables of events and dialog states are
  functions over a world value.

## Model

| member | source | states |
|---|---|---|
| `Tile.Properties` | world/tile.py:33-76 | a tile type is walkable exactly when it is neither VOID nor WALL, and transparent exactly when walkable |
| `Tile.TypeNamed` | world/tile.py:142-146 | looking a type up by name finds only the type of that name; an unknown name is an error |
| `Tile.TypeNamedTypeName` | world/tile.py:12-19 | every tile type is found again from its own name |
| `Tile.Tile.Color` | world/tile.py:121-128 | the lit colour when visible, the dark colour when explored but not visible, black otherwise |
| `Tile.Tile.ToDict` | world/tile.py:134-139 | the saved record keeps the explored flag |
| `Tile.NewTile` | world/tile.py:89-98 | a new tile has the given type and is neither explored nor visible |
| `Tile.FromDict` | world/tile.py:142-146 | restoring fails exactly on an unknown type name; otherwise it keeps type and explored flag and is not visible |
| `Tile.TileRoundTrip` | world/tile.py:134-146 | saving then restoring a tile gives the same tile with visibility cleared |
| `Tile.WalkableByTypeOnly` | world/tile.py:101-113 | walkability and transparency depend on the tile type alone |
| `Room.Room.X2` | world/room.py:26-28 | the right edge lies `width` columns right of x |
| `Room.Room.Y2` | world/room.py:31-33 | the bottom edge lies `height` rows below y |
| `Room.Room.Center` | world/room.py:36-40 | each coordinate of the centre is the floor of the midpoint of the two edges |
| `Room.Room.Inner` | world/room.py:43-50 | the interior slices run from one past the top-left corner up to the far edges, walls excluded |
| `Room.IntersectsSymmetric` | world/room.py:52-65 | two rooms intersect regardless of which one asks |
| `Room.TouchingIntersects` | world/room.py:52-65 | rooms that only share an edge column count as intersecting (the test uses <=) |
| `Room.IntersectsSelf` | world/room.py:52-65 | a room of non-negative size intersects itself |
| `Room.ContainsIffInner` | world/room.py:43-78 | a point is contained exactly when it lies in both interior slices |
| `Room.CenterContained` | world/room.py:36-78 | with both sides at least 2 the centre is an interior point |
| `Room.ContainsImpliesIntersects` | world/room.py:52-78 | two rooms that contain a common point intersect |
| `Zone.ItemsAt` | world/zone.py:150-161 | the items at a position are exactly the listed items lying there, none invented |
| `Zone.Zone.constructor` | world/zone.py:33-61 | a new zone has the given size, id and type, every tile a fresh WALL, and no entities or items |
| `Zone.Zone.GetTile` | world/zone.py:103-116 | a tile is returned exactly for in-bounds positions, and it is the tile stored there |
| `Zone.Zone.IsWalkable` | world/zone.py:73-86 | walkable exactly when in bounds and the tile there is walkable |
| `Zone.Zone.IsTransparent` | world/zone.py:88-101 | transparent exactly when in bounds and the tile there is transparent |
| `Zone.Zone.GetBlockingEntityAt` | world/zone.py:118-132 | the first entity in list order that blocks at the position, or none when no entity blocks there |
| `Zone.Zone.GetItemAt` | world/zone.py:134-148 | the first item lying at the position, or none |
| `Zone.Zone.RemoveItem` | world/zone.py:163-176 | reports whether the item was on the floor and removes its first occurrence |
| `Zone.Zone.AddItem` | world/zone.py:178-189 | the item is moved to the position (nothing else about it changes) and appended to the floor items |
| `Zone.AddedItemFound` | world/zone.py:150-189 | after adding an item at a position, the items there are the earlier ones followed by it |
| `Items.BaseValue` | items/item.py:31-73 | a new item has the given position, name, type and slot, no bonuses or value, a 1x1 footprint and no subclass data |
| `Items.WeaponValue` | items/weapon.py:30-68 | a new weapon has the weapon slot, its attack bonus and type, and a maximum durability equal to its initial durability |
| `Items.ArmorValue` | items/armor.py:30-65 | a new armour has the armour slot, its defence bonus and type, and a maximum durability equal to its initial durability |
| `Items.PotionValue` | items/potion.py:25-62 | a new potion is a usable potion carrying its type, effect, value and duration |
| `Items.GoldValue` | items/special.py:59-80 | a gold item is a single coin of value 1 whatever amount is asked for |
| `Items.AmuletValue` | items/special.py:19-37 | an amulet lies at the given position |
| `Items.Worn` | items/weapon.py:70-81 | one hit lowers durability by one and never below zero |
| `Items.EffectiveAttack` | items/weapon.py:83-96 | a broken weapon gives no attack, a working one its full bonus |
| `Items.EffectiveDefense` | items/armor.py:80-93 | a broken armour gives no defence, a working one its full bonus |
| `Items.WornTimesValue` | items/weapon.py:70-85 | after n hits the durability is d - n, or 0 once the item has broken |
| `Items.WearKeepsWeapon` | items/weapon.py:70-85 | wear keeps a weapon a weapon and a broken weapon broken |
| `Items.BaseUse` | items/item.py:75-85 | a plain item refuses with one message and is not consumed |
| `Items.ToDict` | items/item.py:91-110 | the saved record holds position, name and type, and "persistent" only when it is true |
| `Items.WeaponFromDict` | items/weapon.py:114-131 | a restored weapon record is a weapon |
| `Items.ArmorFromDict` | items/armor.py:111-124 | a restored armour record is an armour |
| `Items.PotionFromDict` | items/potion.py:131-144 | a restored potion record is a potion |
| `Items.FromDict` | items/item.py:113-149 | restoring dispatches on item_type (default misc) to the matching kind, and fails exactly when a required key is missing |
| `Items.MiscRoundTrip` | items/item.py:91-149 | a plain item comes back with every attribute |
| `Items.WeaponRoundTrip` | items/weapon.py:102-131 | a weapon comes back whole except its footprint, which is not saved and returns as 1x2 |
| `Items.ArmorRoundTrip` | items/armor.py:99-124 | an armour comes back whole |
| `Items.PotionRoundTrip` | items/potion.py:119-144 | a potion comes back whole |
| `Items.SpecialRoundTrip` | items/special.py:43-95 | gold and amulets come back whole |
| `Items.Item.constructor` | items/item.py:31-73 | a new item object carries exactly the given attributes |
| `Items.Item.Wear` | items/weapon.py:70-81 | one hit of wear and the durability left |
| `Items.Item.MoveTo` | world/zone.py:178-189 | only the position changes |
| `Items.ItemFromDict` | items/item.py:113-149 | a fresh item with the restored attributes, or none exactly when restoring fails |
| `Potion.UsePotion` | items/potion.py:64-107 | heal, poison and strength are consumed with one message each, with the stated effect on hp, attack bonus, bonus duration or cause of death; other effects change nothing |
| `Potion.UseItem` | items/item.py:75-85 | a potion is drunk with one message and the effect its kind names: heal raises hp by the amount up to the maximum, poison lowers hp by the amount's magnitude down to 0 and at 0 records poison as the cause of death, strength adds the attack bonus and sets the bonus duration, and an unknown effect changes nothing; any other item refuses and changes nothing |
| `Potion.HealBounded` | items/potion.py:64-107 | a heal restores at most its value and never beyond the maximum |
| `Potion.PoisonKillsIff` | items/potion.py:64-107 | a poison kills exactly when its strength reaches the remaining hit points |
| `Entity.Clamp` | entities/entity.py:258-260 | hp is kept between 0 and the maximum: values in range are kept, values above become the maximum, negatives become 0 |
| `Entity.ActualDamage` | entities/entity.py:277-289 | damage is never negative |
| `Entity.HealAmount` | entities/entity.py:291-303 | healing a valid hp restores the smaller of the amount and the missing hp |
| `Entity.DamageAmount` | entities/entity.py:277-289 | damage leaves max(0, hp - damage) |
| `Entity.Entity.constructor` | entities/entity.py:25-53 | a new entity has the given position, glyph, name, colour and blocking flag |
| `Entity.Entity.Position` | entities/entity.py:56-58 | the position is the pair (x, y) |
| `Entity.Entity.SetPosition` | entities/entity.py:61-63 | the position becomes the given pair |
| `Entity.Fighter.constructor` | entities/entity.py:222-250 | a new fighter starts at full health with its base stats and no bonuses |
| `Entity.Fighter.SetHp` | entities/entity.py:258-260 | hp becomes the clamped value and the fighter stays valid |
| `Entity.Fighter.TakeDamage` | entities/entity.py:277-289 | applies and reports max(0, amount) damage, even past the remaining hp |
| `Entity.Fighter.Heal` | entities/entity.py:291-303 | hp rises by the clamped amount and the report is exactly the hp gained, between 0 and the amount |
| `Entity.Fighter.UpdateBonuses` | entities/entity.py:305-311 | a running bonus counts down one turn and both bonuses vanish when it runs out; with no bonus running nothing changes |
| `Player.Player.constructor` | entities/player.py:36-82 | a new player stands at the given position with full base health and stats, level 1, no gold, floor 1, an empty inventory and four empty slots |
| `Player.Player.Restored` | entities/player.py:330-369 | the player from_dict builds: saved position, gold, floor, experience and amulet flag, with the restored fighter, inventory and slots |
| `Player.Player.AddToInventory` | entities/player.py:165-178 | the item is appended exactly when fewer than the capacity are held; otherwise nothing changes |
| `Player.Player.RemoveFromInventory` | entities/player.py:180-193 | succeeds exactly when the item is held, and removes its first occurrence |
| `Player.Player.GetInventoryItem` | entities/player.py:223-235 | the item at an index inside the list, none outside it |
| `Player.Player.Equip` | entities/player.py:237-261 | an item with one of the player's slots replaces that slot's content (two messages when it swapped one out); otherwise a refusal and no change |
| `Player.Player.Unequip` | entities/player.py:263-282 | a filled slot is emptied with one message; an empty or unknown slot changes nothing |
| `Player.Player.Attack` | entities/player.py:85-91 | fighter attack plus the equipped weapon's bonus, nothing for a missing or broken weapon |
| `Player.Player.Defense` | entities/player.py:99-105 | fighter defence plus the equipped armour's bonus, nothing for a missing or broken armour |
| `Player.Player.GetPersistentItems` | entities/player.py:195-205 | exactly the persistent items of the inventory |
| `Player.Player.ClearNonPersistentItems` | entities/player.py:207-221 | only persistent items stay, and each slot holding a non-persistent item is emptied |
| `Player.Player.Update` | entities/player.py:297-299 | the fighter's bonus counts down one turn; both bonuses vanish when it runs out and stay while turns remain |
| `Player.Player.ToDict` | entities/player.py:301-327 | the save holds position, gold, floor, experience, amulet, fighter stats, each item's record in order and each slot's record |
| `Player.RestoredHp` | entities/player.py:330-369 | a valid saved hp is restored unchanged |
| `Player.RestoreItems` | entities/player.py:330-369 | each saved item becomes a fresh object with its attributes, failing exactly when one record lacks a required key |
| `Player.CreateEquipped` | entities/player.py:330-369 | each filled saved slot becomes a fresh object, failing exactly when one record lacks a required key |
| `Player.RestoreEquipped` | entities/player.py:330-369 | the saved equipment on top of empty slots: filled slots get fresh restored items, the rest stay empty |
| `Player.PlayerFromDict` | entities/player.py:330-369 | a fresh player with the saved position, stats, progression, items and slots |
| `Monster.DataFor` | entities/monster.py:44 | a known type's own entry, the rat's entry for an unknown type |
| `Monster.DataHpPositive` | config.py:273-396 | every monster of the table starts with positive hit points |
| `Monster.Sign` | entities/monster.py:181-189 | the unit direction of a difference: 0 exactly for 0, with the difference's sign otherwise |
| `Monster.StepsTowards` | entities/monster.py:169-209 | each move tried goes at most one cell along each axis, towards the target on every axis it moves along, is never the null move, and moves are tried only when the target is elsewhere |
| `Monster.NearIsNeighbour` | entities/monster.py:146-151 | a distance below 1.5 means exactly one of the eight neighbouring cells or the same cell |
| `Monster.ChosenIsFirstFreeStep` | entities/monster.py:169-209 | the chosen move is the first free move in trial order, and none is chosen exactly when every move is blocked |
| `Monster.Monster.constructor` | entities/monster.py:28-70 | a blocking body at the position with the type's glyph, name and colour, and a full-health fighter with the type's stats |
| `Monster.Monster.TryMove` | entities/monster.py:211-236 | the step is taken exactly when the target cell is free, and otherwise the monster stays put |
| `Monster.Monster.MoveTowards` | entities/monster.py:169-209 | the monster moves by the first free step towards the target, or stays put when none is free |
| `Monster.Monster.TryAxes` | entities/monster.py:192-209 | the horizontal step if it is possible, else the vertical one, else no move |
| `Monster.Monster.Observe` | entities/monster.py:72-108 | seeing the player starts or keeps the hunt and records where the player is; a hunter that reached the last known spot without seeing the player goes idle |
| `Monster.Monster.Act` | entities/monster.py:72-153 | a hunter next to the player attacks, a hunter further away chases, an idle monster wanders |
| `Monster.Monster.Update` | entities/monster.py:72-108 | a dead monster does nothing; for a living one, seeing the player makes it hunt the player and remember the player's square, a hunter standing on the remembered square without seeing the player goes idle and forgets it, and otherwise the state stays; then it attacks exactly when hunting a target next to it, chases exactly when hunting a target further away, wanders exactly when idle, and moves only when chasing |
| `Monster.Monster.Die` | entities/monster.py:246-262 | one announcement, and the body becomes a non-blocking dark-grey corpse named "restos de" the monster |
| `Monster.Monster.ToDict` | entities/monster.py:264-278 | the save holds position, type, hp, AI state and whether the monster is dead |
| `Monster.FromDict` | entities/monster.py:281-332 | a fresh monster of the saved type at the saved position with the clamped saved hp and AI state; a dead one gets the corpse glyph, colour and blocking flag back |
| `Monster.SavedIsRestorable` | entities/monster.py:264-332 | whatever a valid monster saves can be restored |
| `Dungeon.TunnelEnds` | world/dungeon.py:154-173 | both ends of a tunnel and its corner lie on it, whichever leg comes first |
| `Dungeon.Dungeon.constructor` | world/dungeon.py:43-78 | a new floor is all WALL, of zone type "dungeon", with no rooms, entities, items or stairs |
| `Dungeon.Dungeon.CreateRoom` | world/dungeon.py:142-152 | FLOOR on exactly the cells strictly inside the room and inside the map border; every other tile unchanged |
| `Dungeon.Dungeon.CreateHTunnel` | world/dungeon.py:175-179 | FLOOR along the row between the two columns inclusive, inside the border; every other tile unchanged |
| `Dungeon.Dungeon.CreateVTunnel` | world/dungeon.py:181-185 | FLOOR along the column between the two rows inclusive, inside the border; every other tile unchanged |
| `Dungeon.Dungeon.CreateTunnel` | world/dungeon.py:154-173 | an L-shaped corridor from start to end, with the leg order given by the coin flip, carved inside the border only |
| `Dungeon.Dungeon.ScanColumn` | world/dungeon.py:231-250 | exactly the one-tile gaps of a vertical wall line, top to bottom |
| `Dungeon.Dungeon.ScanRow` | world/dungeon.py:251-270 | exactly the one-tile gaps of a horizontal wall line, left to right |
| `Dungeon.Dungeon.FindDoorCandidates` | world/dungeon.py:210-270 | every candidate is a one-tile gap on the room's perimeter, and every such gap is a candidate |
| `Dungeon.RoomSparesBorder` | world/dungeon.py:142-152 | carving a room never turns a cell of the map's outer ring into FLOOR |
| `Lobby.Purged` | world/lobby.py:128-145 | exactly the entities whose name the state machine does not manage, in order |
| `Lobby.Lobby.constructor` | world/lobby.py:28-47 | a new lobby is an all-WALL zone of type "lobby" with the given size and id, no entities or items, and no entrance yet |
| `Lobby.Lobby.FillVoid` | world/lobby.py:61-64 | every tile becomes a fresh VOID |
| `Lobby.Lobby.BuildHorizontalWalls` | world/lobby.py:75-84 | WALL on the rows above and below the room, clipped to the map; every other tile unchanged |
| `Lobby.Lobby.BuildVerticalWalls` | world/lobby.py:86-94 | WALL on the columns left and right of the room, clipped to the map; every other tile unchanged |
| `Lobby.Lobby.BuildFloor` | world/lobby.py:96-100 | FLOOR on the room's cells, clipped to the map; every other tile unchanged |
| `Lobby.Lobby.RevealAllTiles` | world/lobby.py:147-155 | every tile becomes visible and explored and keeps its type |
| `Lobby.Lobby.BuildRoom` | world/lobby.py:61-100 | after the four passes every tile has the type the room layout gives it |
| `Lobby.Lobby.PlaceEntrance` | world/lobby.py:102-108 | the stairs down are placed one row inside the top wall at the centre column and recorded as both dungeon entrance and stairs down |
| `Lobby.Lobby.ChooseStart` | world/lobby.py:110-117 | the player's start is the centre column near the bottom wall, or the next column when that cell is not walkable |
| `Lobby.Lobby.PurgeStateNpcs` | world/lobby.py:128-145 | removes every entity whose name is one of the state machine's NPCs |
| `Lobby.Lobby.Generate` | world/lobby.py:49-126 | the tiles end in the lobby layout, the entrance is recorded as both dungeon entrance and stairs down, and the start position is returned |
| `Lobby.Lobby.UpdateFov` | world/lobby.py:157-181 | every tile is revealed and every in-bounds position is returned, whatever the arguments |
| `Lobby.Lobby.ToDict` | world/lobby.py:183-199 | the save holds size, id, entrance and the floor items' records |
| `Lobby.LobbyFromDict` | world/lobby.py:202-224 | a freshly generated lobby of the saved size (id "lobby_main" by default) with the saved items; fails exactly when an item record lacks a required key |
| `Lobby.WalkableIffInRoom` | world/lobby.py:61-108 | on a map of at least 11 by 12 the walkable cells are exactly the room's floor, entrance included |
| `Lobby.RoomEnclosed` | world/lobby.py:61-108 | on a map of at least 11 by 12 every walkable cell's four neighbours lie on the map and none is VOID |
| `Lobby.StartOnFloor` | world/lobby.py:110-117 | on a map of at least 11 by 12 the player starts on the floor at the centre column |
| `Fov.StepErr` | systems/fov.py:195-206 | one pass of the loop updates the error term by the steps taken on each axis |
| `Fov.GetLine` | systems/fov.py:169-208 | the loop's points are exactly the Bresenham line from the first point to the second |
| `Fov.LinePointsShape` | systems/fov.py:169-208 | from any point the loop reaches, the remaining points start there, end at the target and step towards it |
| `Fov.LineShape` | systems/fov.py:169-208 | the line starts at the first point, ends at the second, and each step moves each coordinate by at most one towards the target |
| `Fov.HasLineOfSight` | systems/fov.py:139-166 | sight is clear exactly when every interior point of the line is transparent |
| `Fov.ShortLine` | systems/fov.py:169-208 | from at most one cell away on each axis the line has at most two points |
| `Fov.NeighboursSeeEachOther` | systems/fov.py:139-166 | cells that are equal or touch, diagonals included, always see each other |
| `MessageLog.Bounded` | ui/message_log.py:22-30 | a log of maximum length n holds the last min(length, n) entries |
| `MessageLog.Recent` | ui/message_log.py:53-63 | the last `count` entries, with Python's slice rules for 0 and negative counts |
| `MessageLog.Tagged` | ui/message_log.py:42-51 | every text paired with the same colour, in order |
| `MessageLog.MessageLog.constructor` | ui/message_log.py:22-30 | a new log is empty and keeps the given maximum |
| `MessageLog.MessageLog.Add` | ui/message_log.py:32-40 | the pair is appended and a full log drops its oldest entry |
| `MessageLog.MessageLog.AddMultiple` | ui/message_log.py:42-51 | all texts are appended in order with one colour, keeping only the newest entries |
| `MessageLog.MessageLog.GetRecent` | ui/message_log.py:53-63 | the newest `count` messages |
| `MessageLog.MessageLog.Clear` | ui/message_log.py:65-67 | the log is empty and keeps its maximum |
| `MessageLog.MessageLog.GetColorRgb` | ui/message_log.py:69-79 | the colour of a known key, the default message grey otherwise |
| `MessageLog.BoundedAppend` | ui/message_log.py:32-51 | trimming after every add is the same as trimming once at the end |
| `MessageLog.RecentIgnoresBound` | ui/message_log.py:32-63 | as long as no more than the maximum are asked for, recent messages are those an unbounded log would give |
| `MessageLog.NewestIsRecent` | ui/message_log.py:32-63 | with room for one message, the newest one added is what get_recent(1) returns |
| `Events.RunActionsAppend` | systems/events.py:86-95 | running two action lists in turn is running their concatenation |
| `Events.AllHoldAppend` | systems/events.py:73-84 | a condition list holds exactly when both of its halves hold |
| `Events.PersistentStatuses` | systems/events.py:291-308 | the saved statuses are exactly those of persistent events, unchanged |
| `Events.ApplyStatuses` | systems/events.py:310-329 | a saved status replaces a registered event's status; unregistered saved ids are ignored |
| `Events.ApplyPersistentStatuses` | systems/events.py:291-329 | restoring the statuses just saved leaves every registered status as it was |
| `Events.AllLocked` | systems/events.py:331-343 | every event is set back to LOCKED |
| `Events.ScanFrom` | systems/events.py:196-224 | the scan from a position onwards keeps the set of registered events |
| `Events.ScanTriggersFired` | systems/events.py:196-224 | the triggered set grows by exactly the ids the scan fires |
| `Events.ScanFiresInOrder` | systems/events.py:196-224 | the ids a scan fires come in registration order |
| `Events.ScanStatusMoves` | systems/events.py:196-224 | statuses only move forward (LOCKED to AVAILABLE to TRIGGERED), and an event reaches TRIGGERED exactly when the scan fires it |
| `Events.EventManager.State` | systems/events.py:226-275 | the view the conditions read: the triggered set, run count and data |
| `Events.EventManager.constructor` | systems/events.py:135-147 | a new manager has no events, nothing triggered, zero runs and no data |
| `Events.EventManager.Register` | systems/events.py:149-160 | the event is stored by id (a re-registered id keeps its place) and starts TRIGGERED when its id was already triggered |
| `Events.EventManager.Trigger` | systems/events.py:162-194 | succeeds exactly for a registered event whose conditions hold (or are skipped), running its actions and marking it triggered; otherwise nothing changes |
| `Events.EventManager.ScanOne` | systems/events.py:207-222 | one event's turn in the scan, as one step of the scan's definition |
| `Events.EventManager.ScanAt` | systems/events.py:205-222 | the turn of the k-th registered event leaves the rest of the scan unchanged |
| `Events.EventManager.CheckAndTrigger` | systems/events.py:196-224 | the events are visited in registration order as the scan describes, and the fired ids are returned in that order |
| `Events.EventManager.CompleteRun` | systems/events.py:226-233 | the run count grows by one |
| `Events.EventManager.SetData` | systems/events.py:239-250 | the value under the key is overwritten and nothing else changes |
| `Events.EventManager.GetData` | systems/events.py:252-263 | the stored value, or none for a missing key |
| `Events.EventManager.GetEventStatus` | systems/events.py:277-289 | the status of a registered event, none for an unknown id |
| `Events.EventManager.ToDict` | systems/events.py:291-308 | the save holds the triggered set, the run count, the data and the statuses of persistent events |
| `Events.EventManager.FromDict` | systems/events.py:310-329 | an empty save changes nothing; otherwise missing parts fall back to empty or zero and saved statuses replace registered ones |
| `Events.EventManager.ClearAll` | systems/events.py:331-343 | forgets every trigger and datum, zeroes the runs and locks every event |
| `Events.SaveLoadRoundTrip` | systems/events.py:291-329 | saving then loading with the same events gives back the triggered set, run count, data and every status |
| `EventHelpers.TriggerThenCheck` | systems/event_helpers.py:103-118 | after the event manager's trigger_event, condition_event_triggered holds exactly when it held before or the trigger went through, and a trigger that skips conditions always goes through for a registered id |
| `EventHelpers.FirstNamed` | systems/event_helpers.py:197-205 | the index of the first entity with the name, or -1 exactly when none has it |
| `EventHelpers.CountNamed` | systems/event_helpers.py:84-100 | no more entities carry the name than there are entities |
| `EventHelpers.CountNamedAppend` | systems/event_helpers.py:84-100 | counting names is additive over concatenation |
| `EventHelpers.WithoutFirstNamedCount` | systems/event_helpers.py:186-207 | removing the first entity of a name removes exactly one of that name when there is one, none otherwise |
| `EventHelpers.ExistsIffRemovable` | systems/event_helpers.py:84-207 | the existence condition holds exactly when the remove action would find an entity to remove |
| `EventHelpers.NamedIffCounted` | systems/event_helpers.py:84-100 | some entity carries the name exactly when the count of that name is positive |
| `EventHelpers.RemovedStillExists` | systems/event_helpers.py:186-207 | after removing the first entity of a name, the name is still present exactly when there were at least two |
| `EventHelpers.AddEntityToZone` | systems/event_helpers.py:133-183 | the entity is appended only in a zone of the target type; elsewhere nothing changes |
| `EventHelpers.RemoveEntityFromZone` | systems/event_helpers.py:186-207 | the first entity of that name is removed, and only in an accepted zone; there condition_entity_exists holds afterwards exactly when the zone held two or more of that name |
| `EventHelpers.AddItemToZone` | systems/event_helpers.py:210-250 | the item is appended only in a zone of the target type; elsewhere nothing changes |
| `EventHelpers.GiveItemToPlayer` | systems/event_helpers.py:253-268 | the item is appended while the inventory has room, otherwise nothing changes |
| `EventHelpers.GoldAfter` | systems/event_helpers.py:271-284 | the new gold is the sum, floored at zero |
| `EventHelpers.ModifyPlayerGold` | systems/event_helpers.py:271-284 | the player's gold becomes the floored sum |
| `EventHelpers.GiveKeepsCapacity` | systems/event_helpers.py:253-268 | giving keeps the inventory within capacity, and with room left the item is then held |
| `EventHelpers.GoldConditionAfter` | systems/event_helpers.py:68-81 | after action_modify_player_gold, condition_player_has_gold holds exactly when the sum reaches the minimum or the minimum is at most zero |
| `EventHelpers.GiveThenHasItem` | systems/event_helpers.py:52-65 | after action_give_item_to_player, condition_player_has_item holds exactly when it held before or there was room and the item carries the name |
| `NpcStates.NewConfig` | systems/npc_states.py:60-70 | a configuration with every keyword at its default: no zone, floor, position or dialogs, glyph "?", colour "white", no transitions and no conditions |
| `NpcStates.FirstCaseMatchSpec` | systems/npc_states.py:104-114 | the search for a key equal ignoring case returns the first such key in registration order, or the name when there is none |
| `NpcStates.NormalizeResolution` | systems/npc_states.py:104-114 | a name resolves to the exact key if registered, else to the first registered key equal ignoring case, else to itself |
| `NpcStates.NormalizeIdempotent` | systems/npc_states.py:104-114 | normalising a normalised name changes nothing |
| `NpcStates.SetCompletionIn` | systems/npc_states.py:169-174 | the entry for (NPC, state) becomes the status and every other entry keeps its value |
| `NpcStates.DialogFor` | systems/npc_states.py:236-255 | none exactly when the state has neither dialog, otherwise one of the state's two dialogs: the completed dialog when the stored status is COMPLETED and it exists, the main dialog when the status is anything else and it exists |
| `NpcStates.TransitionFromFirst` | systems/npc_states.py:201-218 | the scan follows the first transition in list order that is taken, stops at the first guard that raises, and otherwise finds nothing; guards only ever reset entries |
| `NpcStates.TransitionFromPure` | systems/npc_states.py:201-218 | without guard side effects the completion map is left unchanged |
| `NpcStates.FloorMatches` | systems/npc_states.py:559-583 | the floor matches only when the state fixes a floor or has a spawn condition, a fixed floor equals the zone's floor, and a spawn condition, if any, accepts; together these three suffice |
| `NpcStates.DeferredFromFirst` | systems/npc_states.py:524-544 | the deferred scan picks the first eligible transition whose guard holds without a player; guards that raise or fail are passed over |
| `NpcStates.ZoneStates` | systems/npc_states.py:609-612 | exactly the NPC's states whose zone type is the zone's, in registration order |
| `NpcStates.CrossValidFromSpec` | systems/npc_states.py:659-671 | the cross-zone check passes exactly when some incoming cross-zone guard holds without a player, raising guards counting as false |
| `NpcStates.CheckCandidateSpec` | systems/npc_states.py:617-674 | a candidate is accepted exactly when it is an initial state: its floor or spawn condition passes, it is not LOCKED, some same-zone predecessor (if any) is COMPLETED and some cross-zone guard (if any) holds |
| `NpcStates.FindInitialFromSpec` | systems/npc_states.py:585-676 | the search returns a state of the zone that was initial when examined, after states that were not; without guard side effects it is the first initial state in registration order |
| `NpcStates.DialogIgnoresCompletionCondition` | systems/npc_states.py:220-255 | the dialog chosen never depends on the completion condition |
| `NpcStates.TransitionSpecProperties` | systems/npc_states.py:176-218 | with no current state or no configuration for it nothing changes; a move goes to the first taken transition's target, which becomes current and IN_PROGRESS while the old state becomes COMPLETED; with only_cross_zone same-zone targets are skipped |
| `NpcStates.SpawnFromCurrentProperties` | systems/npc_states.py:516-554 | from a COMPLETED current state a deferred transition is followed to a state of this zone (and floor) whose guard holds, which becomes current and IN_PROGRESS; otherwise the current state shows only in its own zone (and matching floor) |
| `NpcStates.SpawnInitialProperties` | systems/npc_states.py:556-557 | with no usable current state the state found belongs to the zone, and without guard side effects it is the first initial state in registration order |
| `NpcStates.RegisterKeepsInv` | systems/npc_states.py:90-102 | registration keeps the manager's invariant: every NPC has its state map, its completion map and an order covering its states |
| `NpcStates.NpcStateManager.constructor` | systems/npc_states.py:80-88 | a new manager has no NPCs, no current states and no completion entries |
| `NpcStates.NpcStateManager.Register` | systems/npc_states.py:90-102 | the configuration is filed under (NPC, state id), replacing an earlier one; that state's completion is reset to NOT_STARTED, and no current state is chosen |
| `NpcStates.NpcStateManager.NormalizeNpcName` | systems/npc_states.py:104-114 | the name the manager files it under |
| `NpcStates.NpcStateManager.GetStateConfig` | systems/npc_states.py:116-121 | the configuration filed under the normalised name and state id, or none |
| `NpcStates.NpcStateManager.GetCurrentState` | systems/npc_states.py:148-151 | the NPC's current state, or none |
| `NpcStates.NpcStateManager.SetCurrentState` | systems/npc_states.py:153-160 | the current state becomes the given one, and a NOT_STARTED completion entry is added only when there is none |
| `NpcStates.NpcStateManager.GetStateCompletion` | systems/npc_states.py:162-167 | the stored status, NOT_STARTED when none is stored |
| `NpcStates.NpcStateManager.SetStateCompletion` | systems/npc_states.py:169-174 | the entry for (NPC, state) becomes the status; nothing else changes |
| `NpcStates.NpcStateManager.GetDialogForState` | systems/npc_states.py:220-255 | the dialog chosen by the stored status for a configured state, none otherwise |
| `NpcStates.NpcStateManager.CheckAndTransition` | systems/npc_states.py:176-218 | the result and the new current and completion maps are those the transition rules give |
| `NpcStates.NpcStateManager.DecideTransition` | systems/npc_states.py:185-218 | the transition decision on the maps, for the normalised name |
| `NpcStates.NpcStateManager.ScanTransitions` | systems/npc_states.py:201-218 | the loop over transitions computes the first-match scan and keeps every completion entry |
| `NpcStates.NpcStateManager.DeferredTransition` | systems/npc_states.py:524-544 | the loop over deferred transitions computes the deferred scan |
| `NpcStates.NpcStateManager.ClassifyIncoming` | systems/npc_states.py:635-644 | the incoming transitions sorted into same-zone predecessors and cross-zone transitions |
| `NpcStates.NpcStateManager.CrossZoneValid` | systems/npc_states.py:659-671 | the cross-zone guard loop computes the cross-zone check |
| `NpcStates.NpcStateManager.AnyPredecessorCompleted` | systems/npc_states.py:648-654 | whether some same-zone predecessor is COMPLETED |
| `NpcStates.NpcStateManager.CheckCandidateState` | systems/npc_states.py:617-674 | one candidate's examination |
| `NpcStates.NpcStateManager.FindInitialStateForZone` | systems/npc_states.py:585-676 | the loop over the zone's states computes the initial-state search and keeps every completion entry |
| `NpcStates.NpcStateManager.SpawnFromCurrentState` | systems/npc_states.py:516-554 | the branch for a configured current state computes its specification |
| `NpcStates.NpcStateManager.GetSpawnState` | systems/npc_states.py:485-557 | the state shown and the new current and completion maps are those the spawn rules give |
| `NpcStates.NpcStateManager.DecideSpawn` | systems/npc_states.py:498-557 | the spawn decision on the maps, for the normalised name |
| `Text.Added` | systems/text.py:81-88 | the node is stored under its id, replacing an earlier one; a new id is appended to the insertion order, an existing one keeps its place |
| `Text.AddedWellKeyed` | systems/text.py:81-88 | adding a node keeps every node stored under its own id, with the order listing each key once |
| `Text.AddAllLookup` | systems/text.py:81-88 | after adding nodes with distinct ids, each is stored under its id |
| `Text.AddAllFrame` | systems/text.py:81-88 | adding nodes grows the key set by exactly their ids and leaves other nodes alone |
| `Text.AddAllOrder` | systems/text.py:81-88 | adding nodes with distinct new ids appends those ids to the order |
| `Text.AddAllWellKeyed` | systems/text.py:81-88 | adding several nodes keeps the dictionary well keyed |
| `Text.DialogTree.constructor` | systems/text.py:71-79 | a new tree has no nodes, and its start id is taken without checking that such a node exists |
| `Text.DialogTree.AddNode` | systems/text.py:81-88 | the node is stored under its id, replacing an earlier one, and the tree stays well keyed |
| `Text.DialogTree.GetNode` | systems/text.py:90-100 | the node stored under the id, none when there is none |
| `Text.DialogTree.GetStartNode` | systems/text.py:102-104 | exactly the lookup of the start id |
| `Text.DialogTree.ToDict` | systems/text.py:106-126 | the save holds the start id and one entry per node, in insertion order |
| `Text.Entries` | systems/text.py:112-125 | one entry per node id, in insertion order, each holding that node's record |
| `Text.DialogTreeFromDict` | systems/text.py:129-147 | a fresh, well-keyed tree with the saved start id and the decoded nodes |
| `Text.NodeRoundTrip` | systems/text.py:106-147 | a node comes back with its id, speaker, text, auto-advance flag and options' text and targets, but without its callables |
| `Text.TreeRoundTrip` | systems/text.py:106-147 | saving and loading a tree keeps the node ids in their order and every node without its callables |
| `Text.DecodedEntries` | systems/text.py:106-147 | decoding the saved entries gives each node, without its callables, under its own id |
| `Text.FromString` | systems/text.py:181-191 | the lines join back with newlines into the original text, with the given title and auto-close flag |
| `Text.ContentFromDict` | systems/text.py:202-208 | missing lines restore as none and a missing auto-close flag as false |
| `Text.ContentRoundTrip` | systems/text.py:193-208 | text content comes back with its lines, title and auto-close flag |
| `Text.NewInteractiveText` | systems/text.py:225-253 | construction fails exactly for a DIALOG without a tree or a SIMPLE without content; AMBIENT is not checked |
| `Text.CreateDialog` | systems/text.py:256-267 | a DIALOG component holding the tree on the given interaction key, with no text content and no auto-trigger |
| `Text.CreateSimpleText` | systems/text.py:270-290 | a SIMPLE component on the given interaction key whose lines join back to the text |
| `Text.CreateAmbientText` | systems/text.py:293-305 | an AMBIENT component that closes and triggers by itself and whose lines join back to the text |
| `Common.CycleInverse` | systems/dialog_manager.py:199-209 | moving an option cursor forward and then back modulo the option count (or back, then forward) returns it to where it was; the game's menu and inventory cursors move the same way |
| `DialogManager.StripAll` | systems/dialog_manager.py:64 | every part stripped, in order |
| `DialogManager.NonEmpty` | systems/dialog_manager.py:64 | only non-empty parts, all taken from the list |
| `DialogManager.Chain` | systems/dialog_manager.py:66-85 | one node per message; each but the last has the single option "Continuar" leading to the next, and the last keeps the original options |
| `DialogManager.ChainDistinct` | systems/dialog_manager.py:66-85 | the chain's nodes have distinct ids when the ids given are distinct |
| `DialogManager.StartIdsDistinct` | systems/dialog_manager.py:66-85 | the ids _temp_0 .. _temp_{k-1} are distinct |
| `DialogManager.SepIdsDistinct` | systems/dialog_manager.py:270-300 | the temporary ids made for one node are distinct |
| `DialogManager.ChainStored` | systems/dialog_manager.py:66-85 | after adding the chain, node i holds message i and continues to node i+1, the last one has the original options, and every other node is kept |
| `DialogManager.StartSplitShape` | systems/dialog_manager.py:61-87 | when the start node splits into several messages, the new start is _temp_0 and the chain of temporary nodes is stored |
| `DialogManager.SeparatorSplitShape` | systems/dialog_manager.py:257-306 | when a node splits into several messages, the current node becomes the first temporary one and the chain is stored |
| `DialogManager.TempNodesUntouched` | systems/dialog_manager.py:257-260 | temporary nodes are never split again |
| `DialogManager.QueuedText` | systems/dialog_manager.py:139-166 | a queued entry is the given content, or a text whose lines join back to the given string, with its title and no auto-close |
| `DialogManager.AddChain` | systems/dialog_manager.py:66-85 | the loops add the chain of nodes in order |
| `DialogManager.SplitStart` | systems/dialog_manager.py:61-87 | the start node's splitting computes its specification |
| `DialogManager.SplitAt` | systems/dialog_manager.py:257-306 | one node's splitting computes its specification and returns the new current id |
| `DialogManager.DialogManager.constructor` | systems/dialog_manager.py:31-39 | a new manager shows nothing and has an empty queue |
| `DialogManager.DialogManager.StartDialog` | systems/dialog_manager.py:41-103 | fails with no change exactly when the tree or its start node is missing; otherwise the dialog is shown at the (possibly split) start node with selection 0 and no text |
| `DialogManager.DialogManager.StartText` | systems/dialog_manager.py:105-116 | the text is shown and any dialog is dropped |
| `DialogManager.DialogManager.QueueText` | systems/dialog_manager.py:118-128 | the text is appended to the queue |
| `DialogManager.DialogManager.QueueDialog` | systems/dialog_manager.py:130-137 | the dialog is appended to the queue |
| `DialogManager.DialogManager.QueueMultipleTexts` | systems/dialog_manager.py:139-166 | one queued text per entry, in order, after the existing queue |
| `DialogManager.DialogManager.ProcessQueue` | systems/dialog_manager.py:168-186 | false with no change on an empty queue; otherwise the head is removed and shown, first in first out |
| `DialogManager.DialogManager.Close` | systems/dialog_manager.py:308-322 | nothing is shown any more, and then the next queued item, if any, is shown |
| `DialogManager.DialogManager.ClearQueue` | systems/dialog_manager.py:324-326 | the queue is empty |
| `DialogManager.DialogManager.GetCurrentNode` | systems/dialog_manager.py:188-197 | the current node, none without a tree or with no, empty or unknown current id |
| `DialogManager.DialogManager.SelectNextOption` | systems/dialog_manager.py:199-203 | the cursor moves forward modulo the option count; no change without options |
| `DialogManager.DialogManager.SelectPreviousOption` | systems/dialog_manager.py:205-209 | the cursor moves back modulo the option count; no change without options |
| `DialogManager.DialogManager.ProcessNodeWithSeparators` | systems/dialog_manager.py:250-306 | the current node is split when its id is not temporary and its text breaks into several messages; otherwise nothing changes |
| `DialogManager.DialogManager.SelectOption` | systems/dialog_manager.py:211-248 | false with no change without a node, options or an in-range selection; true without action when the condition rejects; otherwise the action runs, then the dialog moves to the next node with selection 0, or closes and returns false: with an empty queue nothing is shown, otherwise the head leaves the queue and is shown (a text, or a tree started at its start node; a tree without its start node shows nothing) |
| `Shop.GetItemPrice` | systems/shop.py:125-142 | the price from the first of the potion, weapon and armour tables that holds the id, and 0 for any other id |
| `Shop.PricesNonNegative` | systems/shop.py:125-142 | no id has a negative price |
| `Shop.AutoName` | systems/shop.py:97-122 | the first table that knows the id names it, looked up as potions, then weapons, then armour; else the special name; else the id itself |
| `Shop.AutoDescription` | systems/shop.py:53-94 | a description built from the table data (a poison potion hides its effect), and the id itself for an unknown id |
| `Shop.CreateShopItem` | systems/shop.py:145-182 | a name, description or price passed in wins over the looked-up one; the id and stock are kept |
| `Shop.ShopItem.constructor` | systems/shop.py:25-40 | the entry holds the given id, name, description, price and stock |
| `Shop.Values` | systems/shop.py:185-205 | the field values of the entries, in order |
| `Shop.FirstWithName` | systems/shop.py:268-282 | the index of the first entry with the name, or -1 exactly when no entry has it |
| `Shop.Shop.constructor` | systems/shop.py:194-205 | the shop holds the name and the items, with no restock templates |
| `Shop.Shop.GetItemCount` | systems/shop.py:253-257 | the number of entries on sale |
| `Shop.Shop.BuyItem` | systems/shop.py:207-251 | succeeds exactly when the index is valid, the stock is not zero, the gold covers the price, the item can be created and the inventory has room; then the gold drops by the price, the item is added, a limited stock drops by one and a sold-out entry leaves the list; otherwise nothing changes; separate restock templates stay untouched |
| `Shop.Shop.AddItem` | systems/shop.py:259-266 | the entry is appended |
| `Shop.Shop.RemoveItem` | systems/shop.py:268-282 | the first entry with the name leaves, and the answer says whether there was one |
| `Shop.Shop.SetItems` | systems/shop.py:284-291 | the list is replaced |
| `Shop.Shop.ClearItems` | systems/shop.py:293-295 | the list is empty |
| `Shop.Shop.Restock` | systems/shop.py:297-311 | the entries become fresh copies of the templates, field for field, apart from the templates |
| `Shop.Shop.GetItemByName` | systems/shop.py:313-326 | the first entry with the name, or null when there is none |
| `Shop.Thresholds` | systems/shop.py:374-390 | threshold i is the total price of the first i+1 pool items |
| `Shop.LeadingReached` | systems/shop.py:393-414 | the number k of leading thresholds the total reaches: all before k are reached and the k-th is not |
| `Shop.LeadingReachedUnique` | systems/shop.py:393-414 | that count is the only one with this property |
| `Shop.GetUnlockThresholds` | systems/shop.py:374-390 | the loop computes the running sums |
| `Shop.GetUnlockedCount` | systems/shop.py:393-414 | the loop, which stops at the first threshold not reached, computes the unlocked count |
| `Shop.LeadingReachedMonotone` | systems/shop.py:393-414 | a larger total never reaches fewer thresholds |
| `Shop.UnlockedCountMonotone` | systems/shop.py:393-414 | donating more never locks an item again, and the count never exceeds the pool |
| `Shop.PoolPricesPositive` | systems/shop.py:358-371 | every item in the merchant's pool has a positive price |
| `Shop.SumsIncrease` | systems/shop.py:374-390 | with positive prices the thresholds strictly increase |
| `Shop.UnlockedIff` | systems/shop.py:393-414 | with positive prices, item i is unlocked exactly when the donations reach its threshold |
| `Shop.NewPoolEntry` | systems/shop.py:429-434 | a fresh entry for pool item i with stock 1 |
| `Shop.OnOffer` | systems/shop.py:417-438 | what a paid restock offers: as many entries as items are unlocked, never more than the pool, entry i being one unit of pool item i |
| `Shop.GetUnlockedMerchantItems` | systems/shop.py:417-438 | fresh entries with stock 1 for the unlocked prefix of the pool, in order |
| `Shop.CreateMerchantShopFromStateAsWritten` | systems/shop.py:441-464 | the shop "Comerciante" is empty until the restock is paid, then holds the unlocked items, and its templates are the very same objects |
| `Shop.CreateMerchantShopFromState` | systems/shop.py:441-464 | the same shop with templates that are separate copies of equal value; entry i is pool item i with stock 1, for exactly the unlocked prefix of the pool (corrected form, see Findings) |
| `Shop.BuildMerchantShop` | systems/shop.py:441-464 | a fresh shop "Comerciante" with separate templates of equal value, offering nothing before the restock is paid and exactly OnOffer after |
| `Shop.DonatedFiveUnlocksOnePotion` | systems/shop.py:358-414 | the first two thresholds are 5 and 8, so 5 donated gold unlocks exactly one health potion |
| `Shop.BuyLastThenRestockAliased` | systems/shop.py:297-311 | under the shallow copy, buying the last unit and then restocking leaves that item sold out |
| `Shop.BuyThenRestockSeparate` | systems/shop.py:297-311 | with separate templates, restocking after any purchase brings back every template's stock |
| `Shop.RestockAfterPurchaseAsWritten` | systems/shop.py:441-464 | in the concrete run the restocked potion comes back with stock 0 |
| `Shop.RestockAfterPurchaseCorrected` | systems/shop.py:297-311 | with separate templates the restocked potion comes back with stock 1 |
| `Shop.MerchantShopCache.constructor` | systems/shop.py:465 | no shop is built yet |
| `Shop.MerchantShopCache.Get` | systems/shop.py:468-482 | the existing shop, or a fresh shop named "Comerciante", kept in the cache, whose entries are one unit of each unlocked pool item in pool order once the restock is paid and none before (corrected form, see Findings) |
| `Shop.MerchantShopCache.Reset` | systems/shop.py:485-495 | the restock is marked unpaid in the event data and the shop will be rebuilt |
| `Shop.MerchantShopCache.Refresh` | systems/shop.py:498-507 | the shop will be rebuilt |
| `Shop.ResetEmptiesShop` | systems/shop.py:468-495 | reset_merchant_shop then get_merchant_shop: the restock flag is down and the cache holds a freshly built "Comerciante" shop with no items and no restock templates |
| `DevCommands.Finish` | systems/dev_commands.py:201-205 | a handler's messages are passed through, and an exception becomes a single line starting "Error ejecutando comando: " |
| `DevCommands.BlankIffAllSpace` | systems/dev_commands.py:182-188 | a line yields no output exactly when it is all whitespace |
| `DevCommands.StripIdempotent` | systems/dev_commands.py:182-188 | stripping twice is stripping once |
| `DevCommands.ParseTyped` | systems/dev_commands.py:182-193 | a command word and argument words separated by single spaces are read back as that command, lower-cased, with exactly those arguments |
| `DevCommands.JoinTokensStripped` | systems/dev_commands.py:182-188 | words joined by spaces have nothing to strip |
| `DevCommands.WordsOfJoin` | systems/dev_commands.py:186 | split() gives back the words that were joined by single spaces |
| `DevCommands.LessTrichotomy` | systems/dev_commands.py:742 | the string order used for sorting is a strict total order |
| `DevCommands.Insert` | systems/dev_commands.py:742 | inserting a new name into a sorted list keeps it sorted and adds just that name |
| `DevCommands.SortedNames` | systems/dev_commands.py:742 | the command names, strictly sorted, each once |
| `DevCommands.Pad15` | systems/dev_commands.py:743 | the name left-aligned in a field of at least 15 characters, padded with spaces |
| `DevCommands.HelpText` | systems/dev_commands.py:739-748 | a title line, then for each name in order its padded name with the description and its usage line |
| `DevCommands.GoldAfter` | systems/dev_commands.py:280-290 | the new gold is never negative, and is the old gold plus the amount whenever that is not negative |
| `DevCommands.CmdGold` | systems/dev_commands.py:280-290 | without an argument, the usage line; a non-numeric amount changes nothing; otherwise the gold moves by the amount, floored at zero |
| `DevCommands.CmdGoto` | systems/dev_commands.py:207-227 | the usage line without an argument, a number error for a non-numeric one, a range error outside 1..10; otherwise that floor is reported for the game to change to |
| `DevCommands.CmdTeleport` | systems/dev_commands.py:336-353 | the player moves to (x, y) with the reply "Teletransportado a (x, y)." only when both coordinates parse and the cell is walkable; otherwise the usage, number or not-walkable reply and no move |
| `DevCommands.CmdHeal` | systems/dev_commands.py:292-295 | the player is back at full health |
| `DevCommands.DevCommandManager.constructor` | systems/dev_commands.py:45-155 | the console is enabled, with the thirteen built-in commands, each filed under its own name |
| `DevCommands.DevCommandManager.RegisterCommand` | systems/dev_commands.py:157-167 | the command is filed under its name and replaces any earlier one; every command stays filed under its own name |
| `DevCommands.DevCommandManager.CmdHelp` | systems/dev_commands.py:739-748 | the help text for the commands in name order |
| `DevCommands.DevCommandManager.Execute` | systems/dev_commands.py:169-205 | the disabled reply when disabled; nothing for a blank line; the unknown reply for a name with no command; otherwise the command's handler runs, and an exception it raises becomes one error line |
| `DevCommands.DevCommandManager.Run` | systems/dev_commands.py:199-205 | only goto reports a floor, always within 1..10; a handler the game runs leaves the player alone and yields its outcome |
| `DevCommands.HelpLength` | systems/dev_commands.py:739-748 | help has one title line and two lines per command |
| `DevCommands.ReRegisterReplaces` | systems/dev_commands.py:157-167 | registering the same name twice keeps one command, the last one |
| `Inventory.PickupItem` | systems/inventory.py:236-288 | with nothing under the player, nothing changes and the "nothing here" reply; otherwise the first item there is taken: gold goes to the purse with the coin reply and the first gold pick-up triggers its event, the amulet sets the flag with its two replies, and any other item moves into the inventory with "Recoges <name>." when there is room and stays on the floor with the full-inventory reply when there is not |
| `Inventory.PickupGold` | systems/inventory.py:256-268 | the gold rises by the coin's value, the coin leaves the floor with the coin reply, and "first_gold_pickup" is triggered unless it already was or is not registered |
| `Inventory.PickupAmulet` | systems/inventory.py:271-276 | the amulet flag is set, the amulet leaves the floor and both amulet replies are given in order |
| `Inventory.PickupToInventory` | systems/inventory.py:279-286 | with room, the item moves from the floor to the end of the inventory with "Recoges <name>."; without room, nothing moves and the full-inventory reply is given |
| `Inventory.DropItemDirect` | systems/inventory.py:325-350 | an equipped item is refused with no change; any other item leaves the inventory and lands on the floor at the player's position |
| `Inventory.DropItem` | systems/inventory.py:291-322 | an index outside the inventory changes nothing; otherwise the item there is dropped as DropItemDirect drops it |
| `Inventory.UseItem` | systems/inventory.py:353-385 | a bad index or an unusable item changes nothing; a used item leaves the inventory exactly when the use consumed it |
| `Inventory.EquipItem` | systems/inventory.py:388-415 | a bad index or an item without a slot changes nothing; otherwise the item fills its slot when the player has that slot |
| `Inventory.DropThenPickup` | systems/inventory.py:236-350 | dropping an unequipped item on an empty cell and picking it up again finds room in the pack, picks that very item and leaves the floor as it was |
| `GridInventory.OwnerIndex` | systems/inventory.py:60-64 | the first record whose rectangle covers the cell, or -1 exactly when none does |
| `GridInventory.RecordIndex` | systems/inventory.py:52-53 | the item's record, or -1 exactly when it has none |
| `GridInventory.DeleteAt` | systems/inventory.py:166-167 | the records with record k removed, the others in order |
| `GridInventory.OwnerUnique` | systems/inventory.py:90-127 | with no two items overlapping, the record covering a cell is the owner that the grid shows |
| `GridInventory.OwnerDelete` | systems/inventory.py:147-169 | deleting a record frees exactly its cells |
| `GridInventory.DeletePreserves` | systems/inventory.py:147-169 | deleting a record keeps the records distinct, non-overlapping and inside the grid |
| `GridInventory.FillRect` | systems/inventory.py:122-124 | the nested loops fill exactly the w by h rectangle with the item and leave every other cell alone |
| `GridInventory.ClearRect` | systems/inventory.py:160-164 | the nested loops empty exactly the cells of the rectangle that hold the item |
| `GridInventory.InsertByPos` | systems/inventory.py:55-58 | inserting a record keeps the row-major order and adds just that record |
| `GridInventory.SortByPos` | systems/inventory.py:55-58 | the same records, ordered by the row and then the column of their top-left cells |
| `GridInventory.GridInventory.constructor` | systems/inventory.py:32-42 | an empty grid of the given size, with no records |
| `GridInventory.GridInventory.Len` | systems/inventory.py:44-46 | one per placed item |
| `GridInventory.GridInventory.GetItemAt` | systems/inventory.py:60-64 | the item covering a cell inside the grid, and null outside it |
| `GridInventory.GridInventory.GetItemPosition` | systems/inventory.py:66-71 | the recorded top-left cell, and None exactly when the item is not in the grid |
| `GridInventory.GridInventory.GetAllItems` | systems/inventory.py:55-58 | every placed item, each once, in row-major order of their top-left cells: the items of the records as SortByPos orders them, which is sorted by (row, column) and a permutation of the records |
| `GridInventory.GridInventory.GetItemByIndex` | systems/inventory.py:73-78 | the item at that position of GetAllItems, and None exactly when the index is outside it |
| `GridInventory.GridInventory.IsFull` | systems/inventory.py:80-88 | true exactly when no cell is empty, which is when every cell is covered by a record |
| `GridInventory.GridInventory.CanPlace` | systems/inventory.py:90-110 | true exactly when the rectangle lies in the grid and no placed item covers any of its cells |
| `GridInventory.GridInventory.Place` | systems/inventory.py:112-127 | when the item fits, its rectangle is filled with it and its position recorded; otherwise nothing changes; placing an item not already in the grid keeps the no-overlap invariant |
| `GridInventory.GridInventory.PlacedValid` | systems/inventory.py:112-127 | appending a record over free cells keeps the grid consistent with its records |
| `GridInventory.GridInventory.AutoPlace` | systems/inventory.py:129-145 | the item goes to the first position in row-major order (rows outer, columns inner) at which it fits; nothing changes when it fits nowhere |
| `GridInventory.GridInventory.Remove` | systems/inventory.py:147-169 | false with no change for an item not in the grid; otherwise its cells are emptied and its record deleted, and the grid stays valid |
| `GridInventory.GridInventory.NotRecordedNotShown` | systems/inventory.py:52-53 | an item with no record shows in no cell |
| `GridInventory.GridInventory.RemoveAt` | systems/inventory.py:158-167 | record k is deleted and exactly the cells showing its item are emptied |
| `GridInventory.GridInventory.RemovedValid` | systems/inventory.py:147-169 | deleting a record and emptying its cells keeps the grid consistent with its records |
| `GridInventory.GridInventory.PlaceThenRemove` | systems/inventory.py:112-169 | placing an item that is not in the grid and removing it again leaves the records and every cell as they were |
| `GridInventory.GridInventory.Clear` | systems/inventory.py:171-178 | every cell is empty and there are no records |
| `GridInventory.SameRecords` | systems/inventory.py:55-58 | a reordering of the records lists the same items |
| `Content.OutcomeOf` | systems/npc_states.py:25-38 | a guard's boolean answer as an outcome: it holds exactly when the answer is true, and it never raises |
| `Content.Guarded` | systems/npc_states.py:25-38 | a transition to the target with that description, guarded by a read of the event store |
| `Content.SpawnIf` | systems/npc_states.py:42-70 | a spawn condition whose answer depends only on the event store |
| `Content.ScanOne` | systems/npc_states.py:202-218 | with a single guard that does not raise, the scan moves to its target exactly when the guard holds (and the target is not deferred) |
| `Content.ScanTwo` | systems/npc_states.py:202-218 | with two guards that do not raise, the first one that holds decides the move, in list order |
| `Content.DeferredOne` | systems/npc_states.py:485-557 | with a single guard that does not raise, the deferred scan at spawn moves to its target exactly when the target is eligible and the guard holds |
| `Content.RegisteredOthers` | systems/npc_states.py:90-102 | registering states under one NPC leaves every other NPC's states as they were |
| `Content.RegisteredLookup` | systems/npc_states.py:90-102 | with distinct state ids, each registered state is filed under its own id, the NPC is present, other NPCs are untouched and its unregistered states are kept |
| `Content.RegisteredFiled` | systems/npc_states.py:90-102 | with distinct state ids, the NPC is present after a non-empty registration and each configuration is filed under its own id |
| `Content.RegisteredKeepsOwn` | systems/npc_states.py:90-102 | an NPC's earlier states whose ids are not registered again stay as they were |
| `Content.RegisteredFresh` | systems/npc_states.py:90-102 | registering a new NPC files exactly the states listed, by id |
| `Content.ConfigMapLookup` | systems/npc_states.py:90-102 | with distinct ids, each listed state is found under its own id |
| `Content.RegisterAll` | systems/npc_states.py:90-102 | registering a module's list in order keeps the manager valid, chooses no current state, leaves every registered state NOT_STARTED, and leaves the completion of every other NPC as it was |
| `Content.ForcedEffect` | systems/npc_states.py:153-174 | a forced move sets the new state IN_PROGRESS, sets the state left COMPLETED and changes no other entry |
| `Content.ForcedAbsorbsPlaceholder` | systems/npc_states.py:153-160 | the NOT_STARTED entry that set_current_state may add for the new state is overwritten at once |
| `Content.ForceState` | content/npcs/nieta.py:42-60 | the current state becomes the target, and the completion map is the forced move's |
| `Content.NormDistinct` | systems/npc_states.py:104-114 | names that differ when lower-cased normalise to different names |
| `Content.Triggering` | systems/events.py:162-191 | a triggered id is added exactly when it is registered, and nothing else is added |
| `Content.TriggeringEachAdds` | systems/events.py:162-191 | a run of unconditional triggers adds exactly the registered ids among them |
| `Content.UnregisteredTriggersRefused` | game_events.py:16-270 | seven ids the content triggers are never registered, so trigger_event refuses them and they stay untriggered |
| `Content.TriggerOnce` | content/npcs/alchemist.py:27-31 | as written: an id that is not yet triggered is triggered through trigger_event, so an unregistered id stays untriggered |
| `Content.MarkTriggered` | content/npcs/alchemist.py:27-31 | as evidently intended: afterwards the id is triggered, whether or not it is registered, with a registered event's actions run as before |
| `Content.AddTriggered` | content/npcs/stranger.py:454 | the id is added to the triggered set |
| `Npcs.RegisterAllNpcs` | content/npcs/__init__.py:13-42 | each module's registration runs in turn, chooses no current state, and files the states RegisterEach says; systems/npc_states.py:678-689 runs it when the manager is built |
| `Npcs.RegisterInTurn` | content/npcs/__init__.py:26-42 | the loop over the modules registers each entry's states in turn |
| `Npcs.RegisterEachFiled` | content/npcs/__init__.py:13-42 | registering entries with distinct names and non-empty lists adds exactly those names, files each list by id under its own name and leaves every other NPC as it was |
| `Npcs.RegisterOne` | systems/npc_states.py:90-102 | one registration adds its NPC's name and keeps every other NPC |
| `MerchantWanderer.RestockAction` | content/npcs/merchant_wanderer.py:61-70 | the player pays the fixed cost of 15, the restock is marked paid so it is no longer offered, and the cached shop is dropped |
| `MerchantWanderer.RestockThenVisit` | content/npcs/merchant_wanderer.py:61-70 | after paying the restock, the next visit builds a fresh shop "Comerciante", now cached, whose entry i is one unit of pool item i, for exactly the pool prefix the unchanged donation total unlocks, with restock templates of equal value |
| `MerchantWanderer.RestockOncePerRun` | content/npcs/merchant_wanderer.py:41-70 | once paid, the restock is not offered again whatever the gold, and an offered restock never leaves the purse negative |
| `MerchantWanderer.OpenDonationAction` | content/npcs/merchant_wanderer.py:73-85 | only the flag the game reads when the dialog closes is raised |
| `MerchantWanderer.Register` | content/npcs/merchant_wanderer.py:166-184 | the single greeting state is registered under "Comerciante Errante", NOT_STARTED, with no current state chosen |
| `MerchantWanderer.SpawnsIffFirstGold` | content/npcs/merchant_wanderer.py:153-184 | in the lobby the greeting passes the spawn filter exactly when the first gold coin has been picked up; it has no transitions |
| `Alchemist.Register` | content/npcs/alchemist.py:104-153 | the greeting and cadaver states are registered under "Alquimista", both NOT_STARTED, with no current state chosen |
| `Alchemist.Filed` | content/npcs/alchemist.py:124-153 | each of the two states is found under its own id |
| `Alchemist.Layout` | content/npcs/alchemist.py:124-153 | both states are lobby states at (50, 22) |
| `Alchemist.GreetingTransition` | content/npcs/alchemist.py:134-140 | greeting moves to cadaver exactly when alchemist_second_poison is triggered, except when only cross-zone moves are allowed, since both states are in the lobby; the guard never raises |
| `Alchemist.DeferredAtSpawn` | content/npcs/alchemist.py:134-140 | at a lobby spawn with greeting COMPLETED, the deferred move to cadaver is taken exactly when alchemist_second_poison is triggered |
| `Alchemist.SpawnConditions` | content/npcs/alchemist.py:133-152 | in the lobby, greeting passes the spawn filter exactly when the alchemist is unlocked, and cadaver exactly when the player died of poison twice |
| `Alchemist.OnGreetingCompleteAsWritten` | content/npcs/alchemist.py:27-31 | as written: alchemist_greeting_done goes through trigger_event, so while it is unregistered it stays untriggered and the greeting never counts as done |
| `Alchemist.OnGreetingComplete` | content/npcs/alchemist.py:27-31 | as evidently intended: afterwards alchemist_greeting_done is triggered and the greeting counts as done |
| `Librarian.HermesSpawnIff` | content/npcs/librarian.py:319-345 | Hermes appears exactly on odd floors after the first potion and before the meeting |
| `Librarian.LibrarianIsHermesThenDraw` | content/npcs/librarian.py:284-316 | the librarian's spawn condition is Hermes's checks followed by the draw, which the forced spawn skips; whenever the librarian spawns, Hermes's condition holds too |
| `Librarian.Register` | content/npcs/librarian.py:347-441 | the librarian's two states and then Hermes's two are registered, with no current state chosen; afterwards each of the librarian's and each of Hermes's states is NOT_STARTED (registering Hermes leaves the librarian's completion alone) |
| `Librarian.Filed` | content/npcs/librarian.py:366-441 | each of the four states is found under its own id |
| `Librarian.DungeonSpawnFilters` | content/npcs/librarian.py:366-420 | on a dungeon floor the floor check admits dungeon_encounter exactly when the librarian's spawn condition holds, and with_librarian_dungeon exactly when Hermes's does |
| `Librarian.MeetingTransitions` | content/npcs/librarian.py:379-425 | both NPCs move from their dungeon state to their lobby state exactly when librarian_dungeon_met is triggered, also when a dialog closes, since the move leaves the dungeon |
| `Librarian.MeetingLostAsWritten` | content/npcs/librarian.py:89-95 | as written, with the shipped event registrations: librarian_dungeon_met is refused, so the librarian never leaves the dungeon and keeps being offered there |
| `Librarian.MeetingCountsCorrected` | content/npcs/librarian.py:89-95 | with the meeting marked, both NPCs follow to the lobby and neither is offered in the dungeon again |
| `Librarian.OnDungeonEncounterComplete` | content/npcs/librarian.py:89-95 | in its corrected form (see Findings), the meeting is marked as triggered, so the dungeon encounter counts as complete |
| `Librarian.OnLobbyDialogComplete` | content/npcs/librarian.py:183-189 | in its corrected form (see Findings), the lobby dialog is marked as triggered, so the lobby state counts as complete |
| `Stranger.IndignadoCheckCases` | content/npcs/stranger.py:674-696 | the guard holds exactly from the third potion on; below that it resets the state to IN_PROGRESS exactly when the last potion was given in another run, and otherwise simply fails |
| `Stranger.RunsSinceIff` | content/npcs/stranger.py:632-642 | each timed guard holds exactly from `wait` runs after a recorded, non-negative run |
| `Stranger.MisionNietaCompletedAsks` | content/npcs/stranger.py:172-188 | before help is accepted, the short dialog is the main dialog entered at the help question; once accepted it is a plain text |
| `Stranger.Register` | content/npcs/stranger.py:528-838 | the twelve states are registered under "Stranger", all NOT_STARTED, with no current state chosen |
| `Stranger.IdsDistinct` | content/npcs/stranger.py:528-838 | the twelve state ids are distinct |
| `Stranger.Distinct` | content/npcs/stranger.py:528-838 | no two registered states share an id |
| `Stranger.Filed` | content/npcs/stranger.py:528-838 | each registered state is found under its own id |
| `Stranger.AboutWeaponsTransition` | content/npcs/stranger.py:562-591 | about_weapons moves to mision_nieta exactly when the weapons dialog is done and a later run has begun; both are lobby states, so a dialog close leaves the move to the next spawn |
| `Stranger.ContratadoTransitions` | content/npcs/stranger.py:738-779 | contratado_mercenario tries the poison route first and the four-run timeout second; both lead out of the lobby, so neither is deferred |
| `Stranger.AyudarTransition` | content/npcs/stranger.py:674-714 | from the third potion on, mision_nieta_ayudar moves to indignado (deferred to the spawn when a dialog closes); before that nothing moves, and in a run without a potion the state is reset to IN_PROGRESS |
| `Stranger.DesaparecidoTransition` | content/npcs/stranger.py:801-822 | desaparecido moves to cadaver_envenenado exactly from two runs after the poison was given |
| `Stranger.OnFloor5Complete` | content/npcs/stranger.py:35-39 | stranger_floor5_met is triggered |
| `Stranger.OnWeaponsDialogComplete` | content/npcs/stranger.py:67-75 | the first time, the weapons event is triggered and the run recorded; afterwards nothing changes |
| `Stranger.WeaponsNeedAnotherRun` | content/npcs/stranger.py:562-576 | after the first weapons dialog in run r, the next move waits: its guard is false up to run r and true in every later run; a repeated dialog records nothing |
| `Stranger.OnPotionsDialogComplete` | content/npcs/stranger.py:112-116 | stranger_lobby_potions_unlocked is triggered |
| `Stranger.OnAcceptHelp` | content/npcs/stranger.py:141-147 | both events go through trigger_event without a check, so their actions run again on a repeat |
| `Stranger.AcceptHelpRegistered` | content/npcs/stranger.py:141-147 | both ids are registered, so accepting help always triggers both |
| `Stranger.GiveIfCreated` | content/npcs/stranger.py:245-247 | the item is added when it was created and there is room |
| `Stranger.OnGiveHeartKey` | content/npcs/stranger.py:241-249 | the key goes to the pack if it was created and fits, and the run is recorded for the later disappearance |
| `Stranger.DesaparecenAfterThreeRuns` | content/npcs/stranger.py:632-642 | after the key is given in run r, the disappearance is due exactly from run r+3 on |
| `Stranger.OnGivePotion` | content/npcs/stranger.py:288-307 | at most one potion per run: a gift in a new run adds the potion, counts one more and records the run; a second visit in the same run changes nothing |
| `Stranger.GiftOncePerRun` | content/npcs/stranger.py:288-307 | a second gift in the same run changes nothing, and a gift raises the count by one exactly when it is due |
| `Stranger.GiftsCount` | content/npcs/stranger.py:288-307 | visits in strictly increasing runs, the first not the run of the last gift, each give a potion: the count grows by the number of visits and the last run is recorded |
| `Stranger.ThreeGiftsIndignado` | content/npcs/stranger.py:674-696 | three visits in three different runs, starting from no gifts, make the indignado guard hold and the indignado state spawnable |
| `Stranger.OnIndignadoComplete` | content/npcs/stranger.py:345-349 | in its corrected form (see Findings), stranger_indignado is triggered |
| `Stranger.Created` | content/npcs/stranger.py:448-475 | dropping the items that failed to be created never yields more items than were offered |
| `Stranger.ReceivedPrefix` | entities/player.py:165-178 | handing items over keeps the pack and appends the created items in order until it is full; the rest are lost |
| `Stranger.GiveAll` | content/npcs/stranger.py:461-464 | the loop hands each created item over in turn |
| `Stranger.OnLootCadaverEnvenenado` | content/npcs/stranger.py:448-475 | the corpse is marked looted, then the letter, fifty coins, the greater potion and the perfume are handed over in that order, each if it was created and fits |
| `Stranger.LootOverflowsEmptyPack` | content/npcs/stranger.py:448-475 | even into an empty pack of 26 slots, only the letter and 25 coins fit; the remaining coins, the potion and the perfume are lost |
| `Stranger.CreatedAll` | content/npcs/stranger.py:448-475 | when every item was created, the created list is exactly those items in order |
| `Nieta.Register` | content/npcs/nieta.py:330-522 | the eight states are registered under "nieta", all NOT_STARTED, and no current state is chosen |
| `Nieta.IdsDistinct` | content/npcs/nieta.py:330-522 | the eight state ids are distinct |
| `Nieta.Filed` | content/npcs/nieta.py:330-522 | each registered state is found under its own id |
| `Nieta.FoundSpawnIff` | content/npcs/nieta.py:344-362 | on a dungeon floor, found passes the floor check exactly on floor 2 or deeper, after help was accepted, and with a lucky draw |
| `Nieta.ObligadaTransition` | content/npcs/nieta.py:367-395 | obligada moves to desaparecida exactly when the Stranger's disappearance is due; the move leaves the lobby, so it is taken even when a dialog closes |
| `Nieta.AyudandoTransition` | content/npcs/nieta.py:402-429 | ayudando moves to descubierta once stranger_indignado is triggered; the move stays in the dungeon, so a dialog close leaves it to the next spawn |
| `Nieta.DescubiertaTransitions` | content/npcs/nieta.py:432-481 | descubierta tries the poison first: with the poison given she flees, also when a dialog closes; otherwise, when the timeout is due, she becomes her corpse, which waits for the next spawn when a dialog closes |
| `Nieta.CadaverDoneTransition` | content/npcs/nieta.py:492-516 | the corpse is retired exactly in a run after the recorded, non-negative looting run |
| `Nieta.NamesApart` | content/npcs/nieta.py:52-59 | "Stranger" and "nieta" normalise to different names, so updating one NPC never touches the other |
| `Nieta.OnObligar` | content/npcs/nieta.py:42-63 | the three story events go through trigger_event; the Stranger is moved to mision_capturar_nieta and the granddaughter to obligada, with the completion statuses set as listed |
| `Nieta.TriggerThree` | content/npcs/nieta.py:48-50 | three triggers in a row are three single triggers applied in order |
| `Nieta.OnAyudar` | content/npcs/nieta.py:76-97 | the three story events go through trigger_event; the Stranger is moved to mision_nieta_ayudar and the granddaughter to ayudando, with the completion statuses set as listed |
| `Nieta.ChoiceOutcomes` | content/npcs/nieta.py:42-97 | with the registered events, each choice triggers all three of its events; obligar completes mision_nieta and starts the capture, while ayudar starts the help mission and leaves mision_nieta as it was; either way found is completed |
| `Nieta.OnDescubiertaComplete` | content/npcs/nieta.py:132-147 | in its corrected form (see Findings), nieta_descubierta is marked as triggered, the run is recorded, and the Stranger is moved from indignado to contratado_mercenario |
| `Nieta.CadaverJuntosAfterFourRuns` | content/npcs/stranger.py:742-755 | without the poison, the corpses are due exactly from four runs after the discovery; with the poison, never |
| `Nieta.FirstPoison` | content/npcs/nieta.py:175-181 | the index of the first poison potion, or the pack's length when there is none; it is below the length exactly when the pack holds a poison potion |
| `Nieta.PoisonUsedUp` | content/npcs/nieta.py:188-192 | with a poison potion in the pack, exactly that one item leaves it and every other stays; without one, the pack is unchanged |
| `Nieta.RemoveFirstPoison` | content/npcs/nieta.py:188-192 | the loop removes the first poison potion and keeps the rest in order |
| `Nieta.HandOver` | content/npcs/nieta.py:188-198 | the potion leaves the pack, nieta_veneno_entregado is marked as triggered (corrected form, see Findings) and the run is recorded |
| `Nieta.Flee` | content/npcs/nieta.py:200-209 | the granddaughter is forced from descubierta to huida and the Stranger from contratado_mercenario to desaparecido |
| `Nieta.OnGivePoison` | content/npcs/nieta.py:183-209 | one poison potion leaves the pack, the poison counts as given (corrected form, see Findings), the run is recorded, the granddaughter flees and the Stranger disappears |
| `Nieta.PoisonRoute` | content/npcs/stranger.py:742-810 | after the poison at run r, the route without poison is closed for good and the poisoned corpse is due exactly from run r+2 |
| `Nieta.OnLootCadaverNieta` | content/npcs/nieta.py:300-314 | the corpse is marked looted, the run is recorded, and the heart-shaped key is handed over if it was created and fits |
| `Nieta.CorpseRetiredNextRun` | content/npcs/nieta.py:300-314 | looting in run r completes the corpse state and retires it from run r+1 on |
| `Game.FollowMinimal` | game.py:320-340 | after a cursor move the scroll puts the cursor in the twelve-line window; it stays put when the cursor was already visible, and otherwise moves no further than any window that shows the cursor |
| `Game.PageDownShowsItem` | game.py:349-353 | on a non-empty inventory PageDown puts the cursor on an item at the top of a window that shows it |
| `Game.PageDownEmpty` | game.py:349-353 | on an empty inventory PageDown leaves the cursor at -1 |
| `Game.Game.HandleInventoryKey` | game.py:303-372 | Escape and I close the list and reset cursor and scroll; Up and Down wrap the cursor round the list and scroll it into view; PageUp and PageDown move by a page and put the cursor at the top of the window; D toggles drop mode; other keys change nothing |
| `Game.Game.constructor` | game.py:48-111 | the game starts in the main menu, with empty console, closed menus, a zero donation and no remembered interaction |
| `Game.Game.HandlePauseKey` | game.py:535-562 | Escape resumes; Up and Down wrap round the three entries; Enter resumes, opens the options remembering the pause menu, or stops the game |
| `Game.Game.HandleOptionsKey` | game.py:564-593 | Escape and the Back entry return to the remembered state; Up and Down wrap round the entries; the volume entry changes no state of the model |
| `Game.Game.OpenDonation` | game.py:726-731 | the selector opens at zero on the units digit |
| `Game.DonationStaysInRange` | game.py:743-760 | with a non-negative purse, Up and Down keep the amount between 0 and min(99, gold); Up never lowers it and Down never raises it |
| `Game.UnitsStepping` | game.py:752-755 | k presses of Up on the units digit from zero reach min(k, 99, gold) |
| `Game.Game.HandleDonationKey` | game.py:733-783 | Left and Right pick the digit; Up and Down step the amount within range; Enter with a positive amount moves it from the purse to merchant_donated_total and drops the cached merchant shop, then closes; Escape closes |
| `Game.DonationConserves` | game.py:762-771 | a donation moves gold from the purse to the donated total without creating or losing any |
| `Game.RememberKeepsNewest` | game.py:796-801 | the history keeps at most 50 commands and always ends with the newest ones, in order |
| `Game.Game.HandleConsoleKey` | game.py:785-868 | Escape closes and clears the input; Enter stores a non-blank command and closes; Up and Down walk the history, Down past the newest entry clears the input; Backspace and printable keys edit the input; the history index stays valid |
| `Game.PoisonDeaths` | game.py:476-482 | the first death by poison unlocks the alchemist; the second also marks the second poisoning and completes the greeting; a third changes nothing |
| `Game.Game.ApplyDeathUnlocks` | game.py:476-482 | a death by poison applies those unlocks, and any other cause leaves the events as they were |
| `Game.InteractionStateWins` | game.py:1124-1139 | when an interaction state was saved, it is the state completed, whatever the current state has become |
| `Game.CloseMarkEffect` | game.py:1134-1145 | closing a dialog completes the state exactly when its configuration has a completion condition, and touches no other entry |
| `Game.Game.MarkClosed` | game.py:1134-1145 | the completion step applied to one state through the manager |
| `Game.Game.OnDialogClosed` | game.py:1102-1189 | without a remembered NPC nothing changes; otherwise the state is marked as above, only cross-zone transitions are taken, and game events are checked after a transition; both remembered references are cleared |

## Left out

- Drawing, pygame input, fonts, sprites, music and sounds are not modelled.
  Keys reach the handlers already mapped to what they mean.
- Floating point is not modelled: the music volume in the options menu, the
  shadow-casting field of view (FOV.compute and its helpers), experience
  curves, and distance_to, which uses a square root.
  - What they decide is passed in where the core needs it, for example
    whether a monster can see the player.
- Random choices are parameters, not draws: room sizes and positions, which
  monster or item spawns, a monster's wander step, and the spawn chances
  (the `lucky` argument).
  - One `lucky` value stands for the one draw each spawn decision makes.
- Item creation by id (create_item) is a parameter, not code.
  - Its result is passed in, with null for an id the factory does not know.
- Save files and the save menu are not modelled: save_manager I/O and
  reading or writing JSON.
  - The dictionaries an object would save are modelled as values where the
    core builds them (Player, Item, Tile).
- GridInventory's to_dict, from_dict and from_item_list are serialisation
  and are not modelled.
- Inventory.get_inventory_display and get_equipment_display only build UI
  tuples and are not modelled.
- Inventory.unequip_item delegates to Player.unequip_item, which is
  modelled on the player.
- Nothing from create_npc_entity is modelled: the entity and its sprite,
  its spawn position near another NPC, sprite_override and the blocks flag.
  - The model keeps which state spawns, not where it stands.
- Only the state changes of _on_dialog_closed are modelled.
  - Game.Game.OnDialogClosed: refreshing the entity's dialog text and
    applying the new state to an entity that is still in the zone
    (apply_npc_state) are not modelled.
  - Removing the entity and logging messages are not modelled either.
- get_npc_states, get_all_npc_states and determine_target_state are
  lookups for the developer console and are not modelled.
- _respawn_in_lobby rebuilds the player and the zone and is not modelled.
  - Game.Game.ApplyDeathUnlocks covers only the event unlocks of
    _handle_player_death.
- Several developer handlers run on the game, not on the manager: give,
  level, xp, event, killall, amulet, clear and npc_state.
  - DevCommands.Execute receives their outcome (messages, or an exception's
    text) as a parameter.
  - Game.Game.HandleConsoleKey stores the command but does not run it,
    because running it is DevCommands.Run.
- Game.Game.HandleInventoryKey covers the keys that move the cursor or
  close the list.
  - Enter hands the item to the inventory operations, which are modelled
    as Inventory.UseItem, Inventory.EquipItem and Inventory.DropItem.
- Npcs.RegisterAllNpcs replaces package discovery by import with an
  explicit list of the five modules that register states.
  - The state manager's constructor builds the empty manager, and the
    registration is the step that follows it.
  - In Python, __init__ calls the registration through
    _register_default_states.
- Stranger.OnGivePotion skips a potion that failed to be created.
  - Python hands None to add_to_inventory there (content/npcs/stranger.py:300-301).
  - The model leaves the inventory unchanged instead.
- Nieta.FoundSpawnIff answers false for a zone with no floor number.
  - There, Python's `floor < 2` in nieta_found_spawn_condition would raise.
- Shop.MerchantShopCache.Get builds a new shop in the corrected form,
  with restock templates that are copies.
  - get_merchant_shop (systems/shop.py:468-482) builds it through
    _create_merchant_shop_from_state, whose templates are the very
    same objects; that form is Shop.CreateMerchantShopFromStateAsWritten
    (see Findings).
- Case folding is ASCII lower-casing only; Unicode case rules are not
  modelled.
- Common.ParseInt accepts an optional sign and ASCII digits only.
  - Python's int() also accepts underscores between digits ("1_000") and
    Unicode decimal digits.
  - This reaches the gold, goto and teleport console commands
    (systems/dev_commands.py:280-290), which reject such text in the model.
- Common.IsSpace is ASCII whitespace plus the separators 28-31 only.
  - Python's str.split and str.strip also treat \x85, \xa0, \u1680,
    \u2000-\u200a, \u2028, \u2029, \u202f, \u205f and \u3000 as
    whitespace.
- Monster.FromDict does not restore interactive_text
  (entities/monster.py:306-330).
  - Dialog trees and text content are not part of the saved monster
    dictionary in the model.
- Integers are unbounded, like Python's, so nothing wraps around.
- Dafny has no default arguments, so MessageLog's defaults are constants
  that callers pass.
  - They are MessageLog.MAX_MESSAGES for the constructor,
    MessageLog.DEFAULT_COLOR for add and add_multiple, and
    MessageLog.DEFAULT_RECENT_COUNT for get_recent (ui/message_log.py:22,
    32, 42, 53).
- The event, dialog and transition callables are named or given as
  functions.
  - Their Python closures over global managers are not modelled.
  - Each one reads an explicit event-store value instead.

## Findings

| source | as written | input that shows it | evidently intended | confidence | as-written member | corrected member |
|---|---|---|---|---|---|---|
| content/npcs/librarian.py:89-95 | The dialog actions mark story progress with `event_manager.trigger_event(id, ..., skip_conditions=True)`. For an id that no event was registered under, trigger_event returns False and triggers nothing. "alchemist_greeting_done", "librarian_dungeon_met", "librarian_lobby_dialog_completed", "stranger_indignado", "nieta_descubierta", "nieta_veneno_entregado" and "first_gold_pickup" are such ids (Content.UnregisteredTriggersRefused). | The librarian's dungeon dialog ends on an odd floor. librarian_dungeon_met stays untriggered, so the librarian never moves to the lobby and keeps being offered in the dungeon. | After the action, the id counts as triggered, as the looting actions and the death handler do by adding to triggered_events. | high (not executed) | Librarian.MeetingLostAsWritten | Librarian.MeetingCountsCorrected |
| systems/shop.py:441-460 | _create_merchant_shop_from_state sets `_default_items = list(items)`, a shallow copy that holds the same ShopItem objects. buy_item lowers the stock of those objects, so it also lowers the templates that restock copies from. | Donate 5 gold and pay the restock. The shop offers one health potion with stock 1. Buy it, then restock: the potion comes back with stock 0. | Restock restores the stock the shop was built with, which needs copies of the ShopItems. | medium (not executed; restock is not called from the merchant's flow in this source) | Shop.RestockAfterPurchaseAsWritten | Shop.RestockAfterPurchaseCorrected |
