/*
 * content/npcs/librarian.py: the librarian, met once on an odd dungeon
 * floor and then resting in the lobby, and Hermes, his dog, who follows
 * him.  The random half-chance of the librarian's spawn is the `lucky`
 * draw; the developer flag that forces it is the `force` parameter.
 */
module Librarian {
  import opened Common
  import Events
  import NpcStates
  import Content

  const LIBRARIAN := "Bibliotecario"
  const HERMES := "Hermes"

  const DUNGEON_ENCOUNTER := "dungeon_encounter"
  const LOBBY_REST := "lobby_rest"
  const WITH_LIBRARIAN_DUNGEON := "with_librarian_dungeon"
  const WITH_LIBRARIAN_LOBBY := "with_librarian_lobby"

  const FIRST_POTION := "merchant_first_potion_bought"
  const MET := "librarian_dungeon_met"
  const LOBBY_DIALOG_COMPLETED := "librarian_lobby_dialog_completed"

  predicate Met(ev: Events.EventState) { ev.IsTriggered(MET) }
  predicate LobbyDialogCompleted(ev: Events.EventState) { ev.IsTriggered(LOBBY_DIALOG_COMPLETED) }

  /** _hermes_dungeon_spawn_condition: the deterministic checks, in the source's order. */
  predicate HermesSpawn(floor: Option<int>, ev: Events.EventState)
  {
    if !ev.IsTriggered(FIRST_POTION) then false
    else if ev.IsTriggered(MET) then false
    else if floor.None? || floor.value % 2 == 0 then false
    else true
  }

  /** _librarian_dungeon_spawn_condition: the same checks, then the forced spawn or the draw. */
  predicate LibrarianSpawn(force: bool, floor: Option<int>, ev: Events.EventState, lucky: bool)
  {
    if !ev.IsTriggered(FIRST_POTION) then false
    else if ev.IsTriggered(MET) then false
    else if floor.None? || floor.value % 2 == 0 then false
    else if force then true
    else lucky
  }

  /** Hermes appears exactly on odd floors after the first potion and before the meeting. */
  lemma HermesSpawnIff(floor: Option<int>, ev: Events.EventState)
    ensures HermesSpawn(floor, ev) <==>
      FIRST_POTION in ev.triggered && MET !in ev.triggered && floor.Some? && floor.value % 2 == 1
  {
  }

  /**
   * The librarian's condition is Hermes's followed by the draw: the
   * deterministic checks come first, the forced spawn skips the draw, and
   * whenever the librarian spawns Hermes's condition holds too.
   */
  lemma LibrarianIsHermesThenDraw(force: bool, floor: Option<int>, ev: Events.EventState, lucky: bool)
    ensures LibrarianSpawn(force, floor, ev, lucky) == (HermesSpawn(floor, ev) && (force || lucky))
    ensures LibrarianSpawn(force, floor, ev, lucky) ==> HermesSpawn(floor, ev)
    ensures force ==> LibrarianSpawn(force, floor, ev, lucky) == HermesSpawn(floor, ev)
    ensures !HermesSpawn(floor, ev) ==> forall f, l :: !LibrarianSpawn(f, floor, ev, l)
  {
  }

  function DungeonEncounter<P>(force: bool): NpcStates.StateConfig<P, Content.Dialog>
  {
    NpcStates.NewConfig<P, Content.Dialog>(DUNGEON_ENCOUNTER).(
      zoneType := Some("dungeon"),
      glyph := "B",
      color := "white",
      dialog := Some((ev: Events.EventState) => Content.Tree("create_librarian_dungeon_dialog", "greeting")),
      completionCondition := Some(Content.DoneIf<P>(Met)),
      spawnCondition := Some((floor: Option<int>, ev: Events.EventState, lucky: bool) => LibrarianSpawn(force, floor, ev, lucky)),
      transitions := [Content.Guarded<P>(LOBBY_REST, Met, "Después de hablar con el Bibliotecario en la mazmorra")])
  }

  function LobbyRest<P>(): NpcStates.StateConfig<P, Content.Dialog>
  {
    NpcStates.NewConfig<P, Content.Dialog>(LOBBY_REST).(
      zoneType := Some("lobby"),
      position := Some((32, 14)),
      glyph := "B",
      color := "white",
      dialog := Some((ev: Events.EventState) => Content.Tree("create_librarian_lobby_dialog", "greeting")),
      completedDialog := Some((ev: Events.EventState) => Content.Simple("create_librarian_lobby_completed")),
      completionCondition := Some(Content.DoneIf<P>(LobbyDialogCompleted)))
  }

  function WithLibrarianDungeon<P>(): NpcStates.StateConfig<P, Content.Dialog>
  {
    NpcStates.NewConfig<P, Content.Dialog>(WITH_LIBRARIAN_DUNGEON).(
      zoneType := Some("dungeon"),
      glyph := "d",
      color := "white",
      dialog := Some((ev: Events.EventState) => Content.Tree("create_hermes_dialog", "bark")),
      completedDialog := Some((ev: Events.EventState) => Content.Tree("create_hermes_completed", "bark")),
      completionCondition := Some(Content.DoneIf<P>(Met)),
      spawnCondition := Some((floor: Option<int>, ev: Events.EventState, lucky: bool) => HermesSpawn(floor, ev)),
      transitions := [Content.Guarded<P>(WITH_LIBRARIAN_LOBBY, Met, "Sigue al Bibliotecario al lobby")])
  }

  function WithLibrarianLobby<P>(): NpcStates.StateConfig<P, Content.Dialog>
  {
    NpcStates.NewConfig<P, Content.Dialog>(WITH_LIBRARIAN_LOBBY).(
      zoneType := Some("lobby"),
      glyph := "d",
      color := "white",
      dialog := Some((ev: Events.EventState) => Content.Tree("create_hermes_dialog", "bark")),
      completedDialog := Some((ev: Events.EventState) => Content.Tree("create_hermes_completed", "bark")))
  }

  function LibrarianStates<P>(force: bool): seq<NpcStates.StateConfig<P, Content.Dialog>>
  {
    [DungeonEncounter(force), LobbyRest()]
  }

  function HermesStates<P>(): seq<NpcStates.StateConfig<P, Content.Dialog>>
  {
    [WithLibrarianDungeon(), WithLibrarianLobby()]
  }

  /** register_npc_states: the librarian's two states, then Hermes's two. */
  method Register<P>(m: NpcStates.NpcStateManager<P, Content.Dialog>, force: bool)
    requires m.Valid()
    modifies m`states, m`npcOrder, m`stateOrder, m`completion
    ensures m.Valid()
    ensures m.states == Content.Registered(Content.Registered(old(m.states), LIBRARIAN, LibrarianStates(force)),
                                           HERMES, HermesStates())
    ensures m.current == old(m.current)
    ensures forall c | c in LibrarianStates<P>(force) :: NpcStates.CompletionIn(m.completion, LIBRARIAN, c.stateId) == NpcStates.NotStarted
    ensures forall c | c in HermesStates<P>() :: NpcStates.CompletionIn(m.completion, HERMES, c.stateId) == NpcStates.NotStarted
  {
    Content.RegisterAll(m, LIBRARIAN, LibrarianStates(force));
    Content.RegisterAll(m, HERMES, HermesStates());
  }

  lemma Filed<P>(force: bool)
    ensures var cm := Content.ConfigMap(LibrarianStates<P>(force));
      DUNGEON_ENCOUNTER in cm && cm[DUNGEON_ENCOUNTER] == DungeonEncounter(force) &&
      LOBBY_REST in cm && cm[LOBBY_REST] == LobbyRest()
    ensures var cm := Content.ConfigMap(HermesStates<P>());
      WITH_LIBRARIAN_DUNGEON in cm && cm[WITH_LIBRARIAN_DUNGEON] == WithLibrarianDungeon() &&
      WITH_LIBRARIAN_LOBBY in cm && cm[WITH_LIBRARIAN_LOBBY] == WithLibrarianLobby()
  {
    Content.ConfigMapLookup(LibrarianStates<P>(force), 0);
    Content.ConfigMapLookup(LibrarianStates<P>(force), 1);
    Content.ConfigMapLookup(HermesStates<P>(), 0);
    Content.ConfigMapLookup(HermesStates<P>(), 1);
  }

  /**
   * On a dungeon floor the engine's floor check admits dungeon_encounter
   * exactly when the librarian's spawn condition holds, and
   * with_librarian_dungeon exactly when Hermes's does.
   */
  lemma DungeonSpawnFilters<P>(force: bool, floor: Option<int>, ev: Events.EventState, lucky: bool)
    ensures NpcStates.FloorMatches(DungeonEncounter<P>(force), floor, ev, lucky) == LibrarianSpawn(force, floor, ev, lucky)
    ensures NpcStates.FloorMatches(WithLibrarianDungeon<P>(), floor, ev, lucky) == HermesSpawn(floor, ev)
  {
  }

  /**
   * dungeon_encounter -> lobby_rest and Hermes's dungeon -> lobby state
   * are taken exactly when librarian_dungeon_met is triggered, also when a
   * dialog closes, since both lead out of the dungeon.
   */
  lemma MeetingTransitions<P>(force: bool, x: NpcStates.TransCtx<P, Content.Dialog>,
                              y: NpcStates.TransCtx<P, Content.Dialog>, comp: NpcStates.CompMap)
    requires x.cfgs == Content.ConfigMap(LibrarianStates<P>(force)) && x.fromZone == Some("dungeon")
    requires y.cfgs == Content.ConfigMap(HermesStates<P>()) && y.fromZone == Some("dungeon")
    ensures NpcStates.TransitionFrom(x, DungeonEncounter<P>(force).transitions, 0, comp) ==
      NpcStates.TStep(if MET in x.ev.triggered then NpcStates.Moved(LOBBY_REST) else NpcStates.NoTransition, comp)
    ensures NpcStates.TransitionFrom(y, WithLibrarianDungeon<P>().transitions, 0, comp) ==
      NpcStates.TStep(if MET in y.ev.triggered then NpcStates.Moved(WITH_LIBRARIAN_LOBBY) else NpcStates.NoTransition, comp)
  {
    Filed<P>(force);
    var t := DungeonEncounter<P>(force).transitions[0];
    assert t.condition(Some(x.player), x.ev) == Content.OutcomeOf(Met(x.ev));
    Content.ScanOne(x, t, comp);
    var h := WithLibrarianDungeon<P>().transitions[0];
    assert h.condition(Some(y.player), y.ev) == Content.OutcomeOf(Met(y.ev));
    Content.ScanOne(y, h, comp);
  }

  /**
   * on_dungeon_encounter_complete as written, with the shipped event
   * registrations: librarian_dungeon_met is refused, so the librarian
   * never leaves the dungeon and keeps appearing there.
   */
  lemma MeetingLostAsWritten<P>(force: bool, x: NpcStates.TransCtx<P, Content.Dialog>, comp: NpcStates.CompMap,
                                floor: Option<int>, lucky: bool)
    requires x.cfgs == Content.ConfigMap(LibrarianStates<P>(force)) && x.fromZone == Some("dungeon")
    requires MET !in x.ev.triggered
    ensures var ev' := x.ev.(triggered := Content.Triggering(Content.GAME_EVENT_IDS, x.ev.triggered, MET));
      NpcStates.TransitionFrom(x.(ev := ev'), DungeonEncounter<P>(force).transitions, 0, comp).result == NpcStates.NoTransition &&
      LibrarianSpawn(force, floor, ev', lucky) == LibrarianSpawn(force, floor, x.ev, lucky)
  {
    var ev' := x.ev.(triggered := Content.Triggering(Content.GAME_EVENT_IDS, x.ev.triggered, MET));
    assert ev' == x.ev;
    MeetingTransitions(force, x, x.(cfgs := Content.ConfigMap(HermesStates<P>())), comp);
  }

  /**
   * The corrected action marks the meeting: both NPCs then follow to the
   * lobby and neither is offered in the dungeon again.
   */
  lemma MeetingCountsCorrected<P>(force: bool, x: NpcStates.TransCtx<P, Content.Dialog>,
                                  y: NpcStates.TransCtx<P, Content.Dialog>, comp: NpcStates.CompMap)
    requires x.cfgs == Content.ConfigMap(LibrarianStates<P>(force)) && x.fromZone == Some("dungeon")
    requires y.cfgs == Content.ConfigMap(HermesStates<P>()) && y.fromZone == Some("dungeon")
    requires x.ev.triggered == y.ev.triggered
    ensures var ev' := x.ev.(triggered := x.ev.triggered + {MET});
      NpcStates.TransitionFrom(x.(ev := ev'), DungeonEncounter<P>(force).transitions, 0, comp).result == NpcStates.Moved(LOBBY_REST) &&
      NpcStates.TransitionFrom(y.(ev := ev'), WithLibrarianDungeon<P>().transitions, 0, comp).result == NpcStates.Moved(WITH_LIBRARIAN_LOBBY) &&
      forall floor, lucky :: !LibrarianSpawn(force, floor, ev', lucky) && !HermesSpawn(floor, ev')
  {
    var ev' := x.ev.(triggered := x.ev.triggered + {MET});
    MeetingTransitions(force, x.(ev := ev'), y.(ev := ev'), comp);
  }

  /** on_dungeon_encounter_complete: the meeting is marked (corrected form, see Content.MarkTriggered). */
  method OnDungeonEncounterComplete<W>(em: Events.EventManager<W>, w: W) returns (w': W)
    requires em.Valid()
    modifies em`status, em`triggered
    ensures em.Valid()
    ensures em.triggered == old(em.triggered) + {MET}
    ensures Met(em.State())
  {
    w' := Content.MarkTriggered(em, MET, w);
  }

  /** on_lobby_dialog_complete: the lobby dialog is marked done (corrected form). */
  method OnLobbyDialogComplete<W>(em: Events.EventManager<W>, w: W) returns (w': W)
    requires em.Valid()
    modifies em`status, em`triggered
    ensures em.Valid()
    ensures em.triggered == old(em.triggered) + {LOBBY_DIALOG_COMPLETED}
    ensures LobbyDialogCompleted(em.State())
  {
    w' := Content.MarkTriggered(em, LOBBY_DIALOG_COMPLETED, w);
  }
}
