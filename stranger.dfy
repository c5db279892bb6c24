/*
 * content/npcs/stranger.py: the Stranger's storyline.  Transition, spawn
 * and completion conditions are pure reads of the event store; the dialog
 * actions record runs in the event data, trigger events and hand items to
 * the player.  Item creation (create_item) is not part of this model: the
 * items an action would create are passed in, null where creation fails.
 */
module Stranger {
  import opened Common
  import Events
  import NpcStates
  import Content
  import Items
  import Player

  const NAME := "Stranger"

  // State ids
  const START := "start"
  const ABOUT_WEAPONS := "about_weapons"
  const MISION_NIETA := "mision_nieta"
  const WAITING := "waiting"
  const MISION_CAPTURAR_NIETA := "mision_capturar_nieta"
  const DESAPARECEN := "stranger_y_nieta_desaparecen"
  const MISION_NIETA_AYUDAR := "mision_nieta_ayudar"
  const INDIGNADO_STATE := "indignado"
  const CONTRATADO_MERCENARIO := "contratado_mercenario"
  const CADAVER_JUNTOS := "cadaver_juntos"
  const DESAPARECIDO := "desaparecido"
  const CADAVER_ENVENENADO := "cadaver_envenenado"

  // Event ids
  const FLOOR5_MET := "stranger_floor5_met"
  const WEAPONS_UNLOCKED := "stranger_lobby_weapons_unlocked"
  const POTIONS_UNLOCKED := "stranger_lobby_potions_unlocked"
  const HELP_ACCEPTED := "stranger_help_accepted"
  const GRANDDAUGHTER_SPAWN_ENABLED := "granddaughter_spawn_enabled"
  const CAPTURAR_STARTED := "mision_capturar_nieta_started"
  const AYUDAR_STARTED := "mision_nieta_ayudar_started"
  const INDIGNADO := "stranger_indignado"
  const DESCUBIERTA := "nieta_descubierta"
  const VENENO := "nieta_veneno_entregado"
  const CADAVER_LOOTED := "stranger_cadaver_looted"

  // Event data keys
  const WEAPONS_AT := "stranger_weapons_completed_at_run"
  const CAPTURAR_AT := "mision_capturar_nieta_completed_at_run"
  const POTIONS_GIVEN := "stranger_potions_given"
  const POTION_LAST_RUN := "stranger_potion_last_run"
  const MERCENARIO_AT := "contratado_mercenario_entered_at_run"
  const DESAPARECIDO_AT := "stranger_desaparecido_at_run"

  // ---------------------------------------------------------------------
  // Conditions
  // ---------------------------------------------------------------------

  predicate Floor5Met(ev: Events.EventState) { ev.IsTriggered(FLOOR5_MET) }
  predicate WeaponsCompleted(ev: Events.EventState) { ev.IsTriggered(WEAPONS_UNLOCKED) }
  predicate PotionsUnlocked(ev: Events.EventState) { ev.IsTriggered(POTIONS_UNLOCKED) }
  predicate HelpAccepted(ev: Events.EventState) { ev.IsTriggered(HELP_ACCEPTED) }
  predicate CapturarStarted(ev: Events.EventState) { ev.IsTriggered(CAPTURAR_STARTED) }
  predicate AyudarStarted(ev: Events.EventState) { ev.IsTriggered(AYUDAR_STARTED) }
  predicate Descubierta(ev: Events.EventState) { ev.IsTriggered(DESCUBIERTA) }
  predicate Veneno(ev: Events.EventState) { ev.IsTriggered(VENENO) }
  predicate CadaverLooted(ev: Events.EventState) { ev.IsTriggered(CADAVER_LOOTED) }
  predicate Always(ev: Events.EventState) { true }

  /** check_weapons_and_run_completed: the weapons dialog is done and a later run has started. */
  predicate WeaponsAndRunCompleted(ev: Events.EventState)
  {
    ev.IsTriggered(WEAPONS_UNLOCKED) && ev.runCount > ev.IntOr(WEAPONS_AT, -1)
  }

  /** The shared shape of the timed guards: a run is recorded under key and `wait` runs have passed since. */
  predicate RunsSince(ev: Events.EventState, key: string, wait: int)
  {
    var at := ev.IntOr(key, -1);
    at >= 0 && ev.runCount >= at + wait
  }

  /** check_desaparecen_transition */
  predicate DesaparecenDue(ev: Events.EventState) { RunsSince(ev, CAPTURAR_AT, 3) }

  /** check_cadaver_juntos_transition */
  predicate CadaverJuntosDue(ev: Events.EventState)
  {
    !ev.IsTriggered(VENENO) && RunsSince(ev, MERCENARIO_AT, 4)
  }

  /** check_cadaver_envenenado_transition */
  predicate CadaverEnvenenadoDue(ev: Events.EventState) { RunsSince(ev, DESAPARECIDO_AT, 2) }

  /**
   * check_indignado_transition: holds from the third potion on; before that
   * it fails, and in a run in which no potion was given yet it also resets
   * mision_nieta_ayudar to IN_PROGRESS.
   */
  function IndignadoCheck(ev: Events.EventState): NpcStates.Outcome
  {
    if ev.IntOr(POTIONS_GIVEN, 0) >= 3 then NpcStates.Holds
    else if ev.IntOr(POTION_LAST_RUN, -1) != ev.runCount then NpcStates.FailsResetting(NAME, MISION_NIETA_AYUDAR)
    else NpcStates.Fails
  }

  /** The indignado spawn condition. */
  predicate IndignadoSpawn(ev: Events.EventState)
  {
    ev.IsTriggered(INDIGNADO) || ev.IntOr(POTIONS_GIVEN, 0) >= 3
  }

  /** The cadaver_juntos spawn condition. */
  predicate CadaverJuntosSpawn(ev: Events.EventState)
  {
    !ev.IsTriggered(VENENO) && ev.IsTriggered(DESCUBIERTA)
  }

  /** The guard reaches its verdict from the event store alone and has exactly the three outcomes the source describes. */
  lemma IndignadoCheckCases(ev: Events.EventState)
    ensures IndignadoCheck(ev) == NpcStates.Holds <==> ev.IntOr(POTIONS_GIVEN, 0) >= 3
    ensures IndignadoCheck(ev).FailsResetting? <==>
      ev.IntOr(POTIONS_GIVEN, 0) < 3 && ev.IntOr(POTION_LAST_RUN, -1) != ev.runCount
    ensures IndignadoCheck(ev).FailsResetting? ==> IndignadoCheck(ev) == NpcStates.FailsResetting(NAME, MISION_NIETA_AYUDAR)
    ensures !IndignadoCheck(ev).Raises?
  {
  }

  /** Each timed guard holds exactly from `wait` runs after a recorded, non-negative run. */
  lemma RunsSinceIff(ev: Events.EventState, key: string, wait: int, at: int)
    requires key in ev.data && Events.AsInt(ev.data[key]) == at
    ensures RunsSince(ev, key, wait) <==> at >= 0 && ev.runCount >= at + wait
  {
  }

  // ---------------------------------------------------------------------
  // Dialogs
  // ---------------------------------------------------------------------

  /**
   * create_stranger_mision_nieta_completed: a thank-you text once help was
   * accepted; otherwise the mission dialog again, entered at the question.
   */
  function MisionNietaCompleted(ev: Events.EventState): Content.Dialog
  {
    if ev.IsTriggered(HELP_ACCEPTED) then Content.Simple("create_stranger_mision_nieta_completed")
    else Content.Tree("create_stranger_mision_nieta_dialog", "help_request")
  }

  /** The main mission dialog, entered at its first node. */
  function MisionNietaDialog(ev: Events.EventState): Content.Dialog
  {
    Content.Tree("create_stranger_mision_nieta_dialog", "start")
  }

  /**
   * Before help is accepted the short dialog is the main dialog re-entered
   * at the help question; once accepted it is a plain text.
   */
  lemma MisionNietaCompletedAsks(ev: Events.EventState)
    ensures !HelpAccepted(ev) ==> MisionNietaCompleted(ev) == Content.Tree(MisionNietaDialog(ev).factory, "help_request")
    ensures HelpAccepted(ev) ==> MisionNietaCompleted(ev).Simple?
  {
  }

  // ---------------------------------------------------------------------
  // States
  // ---------------------------------------------------------------------

  function StartState<P>(): NpcStates.StateConfig<P, Content.Dialog>
  {
    NpcStates.NewConfig<P, Content.Dialog>(START).(
      zoneType := Some("dungeon"),
      floor := Some(4),
      dialog := Some((ev: Events.EventState) => Content.Tree("create_stranger_floor5_dialog", "greeting")),
      completionCondition := Some(Content.DoneIf<P>(Floor5Met)),
      transitions := [Content.Guarded<P>(ABOUT_WEAPONS, Floor5Met, "Después de hablar en piso 5")])
  }

  function AboutWeapons<P>(): NpcStates.StateConfig<P, Content.Dialog>
  {
    NpcStates.NewConfig<P, Content.Dialog>(ABOUT_WEAPONS).(
      zoneType := Some("lobby"),
      position := Some((40, 20)),
      dialog := Some((ev: Events.EventState) => Content.Tree("create_stranger_about_weapons_dialog", "start")),
      completedDialog := Some((ev: Events.EventState) => Content.Simple("create_stranger_about_weapons_completed")),
      completionCondition := Some(Content.DoneIf<P>(WeaponsCompleted)),
      transitions := [Content.Guarded<P>(MISION_NIETA, WeaponsAndRunCompleted,
                                         "Después de desbloquear armas Y completar una run")])
  }

  function MisionNieta<P>(): NpcStates.StateConfig<P, Content.Dialog>
  {
    NpcStates.NewConfig<P, Content.Dialog>(MISION_NIETA).(
      zoneType := Some("lobby"),
      position := Some((40, 20)),
      dialog := Some(MisionNietaDialog),
      completedDialog := Some(MisionNietaCompleted),
      completionCondition := Some(Content.DoneIf<P>(PotionsUnlocked)),
      transitions := [Content.Guarded<P>(WAITING, HelpAccepted, "Después de aceptar ayudar")])
  }

  function Waiting<P>(): NpcStates.StateConfig<P, Content.Dialog>
  {
    NpcStates.NewConfig<P, Content.Dialog>(WAITING).(
      zoneType := Some("lobby"),
      position := Some((40, 20)),
      dialog := Some((ev: Events.EventState) => Content.Tree("create_stranger_waiting_dialog", "waiting")))
  }

  function MisionCapturarNieta<P>(): NpcStates.StateConfig<P, Content.Dialog>
  {
    NpcStates.NewConfig<P, Content.Dialog>(MISION_CAPTURAR_NIETA).(
      zoneType := Some("lobby"),
      position := Some((40, 20)),
      dialog := Some((ev: Events.EventState) => Content.Tree("create_stranger_mision_capturar_nieta_dialog", "start")),
      completedDialog := Some((ev: Events.EventState) => Content.Simple("create_stranger_mision_capturar_nieta_completed")),
      completionCondition := Some(Content.DoneIf<P>(CapturarStarted)),
      spawnCondition := Some(Content.SpawnIf(CapturarStarted)),
      transitions := [Content.Guarded<P>(DESAPARECEN, DesaparecenDue,
                                         "Después de 3 runs tras completar mision_capturar_nieta")])
  }

  function Desaparecen<P>(): NpcStates.StateConfig<P, Content.Dialog>
  {
    NpcStates.NewConfig<P, Content.Dialog>(DESAPARECEN)
  }

  function MisionNietaAyudar<P>(): NpcStates.StateConfig<P, Content.Dialog>
  {
    NpcStates.NewConfig<P, Content.Dialog>(MISION_NIETA_AYUDAR).(
      zoneType := Some("lobby"),
      position := Some((40, 20)),
      dialog := Some((ev: Events.EventState) => Content.Tree("create_stranger_mision_nieta_ayudar_dialog", "start")),
      completedDialog := Some((ev: Events.EventState) => Content.Simple("create_stranger_mision_nieta_ayudar_completed")),
      completionCondition := Some(Content.DoneIf<P>(Always)),
      spawnCondition := Some(Content.SpawnIf(AyudarStarted)),
      transitions := [NpcStates.Transition(INDIGNADO_STATE, (p: Option<P>, ev: Events.EventState) => IndignadoCheck(ev),
                                           "Después de dar 3 pociones al jugador")])
  }

  function Indignado<P>(): NpcStates.StateConfig<P, Content.Dialog>
  {
    NpcStates.NewConfig<P, Content.Dialog>(INDIGNADO_STATE).(
      zoneType := Some("lobby"),
      position := Some((40, 20)),
      dialog := Some((ev: Events.EventState) => Content.Tree("create_stranger_indignado_dialog", "start")),
      completedDialog := Some((ev: Events.EventState) => Content.Simple("create_stranger_indignado_completed")),
      completionCondition := Some(Content.DoneIf<P>(Always)),
      spawnCondition := Some(Content.SpawnIf(IndignadoSpawn)),
      transitions := [Content.Guarded<P>(CONTRATADO_MERCENARIO, Descubierta,
                                         "Cuando la nieta completa su diálogo de descubierta")])
  }

  function ContratadoMercenario<P>(): NpcStates.StateConfig<P, Content.Dialog>
  {
    NpcStates.NewConfig<P, Content.Dialog>(CONTRATADO_MERCENARIO).(
      zoneType := Some("lobby"),
      position := Some((40, 20)),
      dialog := Some((ev: Events.EventState) => Content.Tree("create_stranger_contratado_mercenario_dialog", "start")),
      completedDialog := Some((ev: Events.EventState) => Content.Simple("create_stranger_contratado_mercenario_completed")),
      completionCondition := Some(Content.DoneIf<P>(Always)),
      spawnCondition := Some(Content.SpawnIf(Descubierta)),
      transitions := [
        Content.Guarded<P>(DESAPARECIDO, Veneno, "Cuando la nieta recibe el veneno y huye"),
        Content.Guarded<P>(CADAVER_JUNTOS, CadaverJuntosDue, "Ambos mueren tras 4 runs sin que el jugador dé el veneno")])
  }

  function CadaverJuntos<P>(): NpcStates.StateConfig<P, Content.Dialog>
  {
    NpcStates.NewConfig<P, Content.Dialog>(CADAVER_JUNTOS).(
      zoneType := Some("dungeon"),
      floor := Some(2),
      glyph := "%",
      color := "dark_red",
      dialog := Some((ev: Events.EventState) => Content.Tree("create_stranger_cadaver_juntos_dialog", "discover")),
      completedDialog := Some((ev: Events.EventState) => Content.Simple("create_stranger_cadaver_juntos_completed")),
      completionCondition := Some(Content.DoneIf<P>(Always)),
      spawnCondition := Some(Content.SpawnIf(CadaverJuntosSpawn)))
  }

  function Desaparecido<P>(): NpcStates.StateConfig<P, Content.Dialog>
  {
    NpcStates.NewConfig<P, Content.Dialog>(DESAPARECIDO).(
      transitions := [Content.Guarded<P>(CADAVER_ENVENENADO, CadaverEnvenenadoDue,
                                         "Cadáver del Stranger aparece 2 runs después de darle el veneno a la nieta")])
  }

  function CadaverEnvenenado<P>(): NpcStates.StateConfig<P, Content.Dialog>
  {
    NpcStates.NewConfig<P, Content.Dialog>(CADAVER_ENVENENADO).(
      zoneType := Some("dungeon"),
      floor := Some(2),
      glyph := "%",
      color := "dark_red",
      dialog := Some((ev: Events.EventState) => Content.Tree("create_stranger_cadaver_envenenado_dialog", "discover")),
      completedDialog := Some((ev: Events.EventState) => Content.Simple("create_stranger_cadaver_envenenado_completed")),
      completionCondition := Some(Content.DoneIf<P>(CadaverLooted)),
      spawnCondition := Some(Content.SpawnIf(Veneno)))
  }

  /** The states in the order register_npc_states registers them. */
  function States<P>(): seq<NpcStates.StateConfig<P, Content.Dialog>>
  {
    [StartState(), AboutWeapons(), MisionNieta(), Waiting(), MisionCapturarNieta(), Desaparecen(),
     MisionNietaAyudar(), Indignado(), ContratadoMercenario(), CadaverJuntos(), Desaparecido(), CadaverEnvenenado()]
  }

  /** register_npc_states */
  method Register<P>(m: NpcStates.NpcStateManager<P, Content.Dialog>)
    requires m.Valid()
    modifies m`states, m`npcOrder, m`stateOrder, m`completion
    ensures m.Valid()
    ensures m.states == Content.Registered(old(m.states), NAME, States())
    ensures m.current == old(m.current)
    ensures forall c | c in States<P>() :: NpcStates.CompletionIn(m.completion, NAME, c.stateId) == NpcStates.NotStarted
  {
    Content.RegisterAll(m, NAME, States());
  }

  /** The state ids, in registration order. */
  const IDS := [START, ABOUT_WEAPONS, MISION_NIETA, WAITING, MISION_CAPTURAR_NIETA, DESAPARECEN,
                MISION_NIETA_AYUDAR, INDIGNADO_STATE, CONTRATADO_MERCENARIO, CADAVER_JUNTOS, DESAPARECIDO, CADAVER_ENVENENADO]

  lemma IdsDistinct()
    ensures forall i, j | 0 <= i < j < |IDS| :: IDS[i] != IDS[j]
  {
    forall i, j | 0 <= i < j < |IDS|
      ensures IDS[i] != IDS[j]
    {
      assert |IDS[i]| != |IDS[j]| || IDS[i][0] != IDS[j][0] || IDS[i][1] != IDS[j][1] || IDS[i][|IDS[i]| - 1] != IDS[j][|IDS[j]| - 1];
    }
  }

  lemma Distinct<P>()
    ensures Content.DistinctIds(States<P>())
  {
    var cfgs := States<P>();
    assert forall i | 0 <= i < |cfgs| :: cfgs[i].stateId == IDS[i];
    IdsDistinct();
  }

  /** Where a registered state can be found, for the states the transition lemmas visit. */
  lemma Filed<P>(i: int)
    requires 0 <= i < 12
    ensures var cm := Content.ConfigMap(States<P>());
      States<P>()[i].stateId in cm && cm[States<P>()[i].stateId] == States<P>()[i]
  {
    Distinct<P>();
    Content.ConfigMapLookup(States<P>(), i);
  }

  // ---------------------------------------------------------------------
  // Transitions as the engine scans them
  // ---------------------------------------------------------------------

  /**
   * about_weapons -> mision_nieta needs the weapons dialog and a run later
   * than the recorded one; both are lobby states, so a dialog close leaves
   * it to the next spawn.
   */
  lemma AboutWeaponsTransition<P>(x: NpcStates.TransCtx<P, Content.Dialog>, comp: NpcStates.CompMap)
    requires x.cfgs == Content.ConfigMap(States<P>()) && x.fromZone == Some("lobby")
    ensures NpcStates.TransitionFrom(x, AboutWeapons<P>().transitions, 0, comp) ==
      NpcStates.TStep(if !x.onlyCrossZone && WeaponsAndRunCompleted(x.ev) then NpcStates.Moved(MISION_NIETA)
                      else NpcStates.NoTransition, comp)
  {
    Filed<P>(2);
    var t := AboutWeapons<P>().transitions[0];
    assert t.condition(Some(x.player), x.ev) == Content.OutcomeOf(WeaponsAndRunCompleted(x.ev));
    Content.ScanOne(x, t, comp);
  }

  /**
   * contratado_mercenario tries the poison route first and the timeout
   * second; both lead out of the lobby, so neither is deferred.
   */
  lemma ContratadoTransitions<P>(x: NpcStates.TransCtx<P, Content.Dialog>, comp: NpcStates.CompMap)
    requires x.cfgs == Content.ConfigMap(States<P>()) && x.fromZone == Some("lobby")
    ensures NpcStates.TransitionFrom(x, ContratadoMercenario<P>().transitions, 0, comp) ==
      NpcStates.TStep(if Veneno(x.ev) then NpcStates.Moved(DESAPARECIDO)
                      else if CadaverJuntosDue(x.ev) then NpcStates.Moved(CADAVER_JUNTOS)
                      else NpcStates.NoTransition, comp)
  {
    Filed<P>(9);
    Filed<P>(10);
    var ts := ContratadoMercenario<P>().transitions;
    assert ts[0].condition(Some(x.player), x.ev) == Content.OutcomeOf(Veneno(x.ev));
    assert ts[1].condition(Some(x.player), x.ev) == Content.OutcomeOf(CadaverJuntosDue(x.ev));
    Content.ScanTwo(x, ts[0], ts[1], comp);
  }

  /**
   * mision_nieta_ayudar -> indignado: from the third potion on the guard
   * holds (deferred to the spawn when a dialog closes, both being lobby
   * states); before that no transition happens, and in a run without a
   * potion the state is reset to IN_PROGRESS.
   */
  lemma AyudarTransition<P>(x: NpcStates.TransCtx<P, Content.Dialog>, comp: NpcStates.CompMap)
    requires x.cfgs == Content.ConfigMap(States<P>()) && x.fromZone == Some("lobby")
    ensures NpcStates.TransitionFrom(x, MisionNietaAyudar<P>().transitions, 0, comp) ==
      if x.ev.IntOr(POTIONS_GIVEN, 0) >= 3 then
        NpcStates.TStep(if x.onlyCrossZone then NpcStates.NoTransition else NpcStates.Moved(INDIGNADO_STATE), comp)
      else if x.ev.IntOr(POTION_LAST_RUN, -1) != x.ev.runCount then
        NpcStates.TStep(NpcStates.NoTransition,
                        NpcStates.SetCompletionIn(comp, NpcStates.NormalizeIn(x.keys, NAME), MISION_NIETA_AYUDAR, NpcStates.InProgress))
      else NpcStates.TStep(NpcStates.NoTransition, comp)
  {
    Filed<P>(7);
    var ts := MisionNietaAyudar<P>().transitions;
    var o := ts[0].condition(Some(x.player), x.ev);
    assert o == IndignadoCheck(x.ev);
    var comp' := NpcStates.ApplyOutcome(x.keys, comp, o);
    assert NpcStates.TransitionFrom(x, ts, 1, comp') == NpcStates.TStep(NpcStates.NoTransition, comp');
  }

  /** desaparecido -> cadaver_envenenado is due two runs after the poison was given. */
  lemma DesaparecidoTransition<P>(x: NpcStates.TransCtx<P, Content.Dialog>, comp: NpcStates.CompMap)
    requires x.cfgs == Content.ConfigMap(States<P>()) && x.fromZone.None?
    ensures NpcStates.TransitionFrom(x, Desaparecido<P>().transitions, 0, comp) ==
      NpcStates.TStep(if CadaverEnvenenadoDue(x.ev) then NpcStates.Moved(CADAVER_ENVENENADO) else NpcStates.NoTransition, comp)
  {
    Filed<P>(11);
    var t := Desaparecido<P>().transitions[0];
    assert t.condition(Some(x.player), x.ev) == Content.OutcomeOf(CadaverEnvenenadoDue(x.ev));
    Content.ScanOne(x, t, comp);
  }

  // ---------------------------------------------------------------------
  // Dialog actions
  // ---------------------------------------------------------------------

  /** on_stranger_floor5_complete */
  method OnFloor5Complete<W>(em: Events.EventManager<W>, w: W) returns (w': W)
    requires em.Valid()
    modifies em`status, em`triggered
    ensures em.Valid()
    ensures em.triggered == old(em.triggered) + {FLOOR5_MET}
  {
    w' := Content.MarkTriggered(em, FLOOR5_MET, w);
  }

  /** The event store after the weapons dialog's action. */
  function WeaponsRecorded(ev: Events.EventState): Events.EventState
  {
    if ev.IsTriggered(WEAPONS_UNLOCKED) then ev
    else ev.(triggered := ev.triggered + {WEAPONS_UNLOCKED}, data := ev.data[WEAPONS_AT := Events.VInt(ev.runCount)])
  }

  /** on_weapons_dialog_complete: the run is recorded only the first time. */
  method OnWeaponsDialogComplete<W>(em: Events.EventManager<W>, w: W) returns (w': W)
    requires em.Valid()
    modifies em`status, em`triggered, em`data
    ensures em.Valid()
    ensures em.State() == WeaponsRecorded(old(em.State()))
  {
    w' := w;
    if !em.IsEventTriggered(WEAPONS_UNLOCKED) {
      w' := Content.MarkTriggered(em, WEAPONS_UNLOCKED, w);
      em.SetData(WEAPONS_AT, Events.VInt(em.runCount));
    }
  }

  /**
   * The first weapons dialog at run r makes the next transition wait for a
   * later run: the guard is false in any run up to r and true in every run
   * after it.  A repeated dialog records nothing.
   */
  lemma WeaponsNeedAnotherRun(ev: Events.EventState, n: int)
    requires !WeaponsCompleted(ev)
    ensures WeaponsAndRunCompleted(WeaponsRecorded(ev).(runCount := n)) <==> n > ev.runCount
    ensures WeaponsRecorded(WeaponsRecorded(ev)) == WeaponsRecorded(ev)
  {
  }

  /** on_potions_dialog_complete */
  method OnPotionsDialogComplete<W>(em: Events.EventManager<W>, w: W) returns (w': W)
    requires em.Valid()
    modifies em`status, em`triggered
    ensures em.Valid()
    ensures em.triggered == old(em.triggered) + {POTIONS_UNLOCKED}
  {
    w' := Content.MarkTriggered(em, POTIONS_UNLOCKED, w);
  }

  /** on_accept_help: both events are triggered unconditionally (their actions run again on a repeat). */
  method OnAcceptHelp<W>(em: Events.EventManager<W>, w: W) returns (w': W)
    requires em.Valid()
    modifies em`status, em`triggered
    ensures em.Valid()
    ensures em.triggered == Content.TriggeringEach(em.events.Keys, old(em.triggered), [HELP_ACCEPTED, GRANDDAUGHTER_SPAWN_ENABLED])
    ensures em.events == old(em.events) && em.data == old(em.data) && em.runCount == old(em.runCount)
  {
    ghost var t0 := em.triggered;
    var _, w1 := em.Trigger(HELP_ACCEPTED, w, true);
    var _, w2 := em.Trigger(GRANDDAUGHTER_SPAWN_ENABLED, w1, true);
    w' := w2;
    assert [HELP_ACCEPTED, GRANDDAUGHTER_SPAWN_ENABLED][..1] == [HELP_ACCEPTED];
    assert [HELP_ACCEPTED][..0] == [];
    assert Content.TriggeringEach(em.events.Keys, t0, [HELP_ACCEPTED]) == Content.Triggering(em.events.Keys, t0, HELP_ACCEPTED);
  }

  /** Both ids are registered, so accepting help enables the granddaughter's spawn and moves mision_nieta on. */
  lemma AcceptHelpRegistered(triggered: set<string>)
    ensures Content.TriggeringEach(Content.GAME_EVENT_IDS, triggered, [HELP_ACCEPTED, GRANDDAUGHTER_SPAWN_ENABLED]) ==
      triggered + {HELP_ACCEPTED, GRANDDAUGHTER_SPAWN_ENABLED}
  {
    Content.TriggeringEachAdds(Content.GAME_EVENT_IDS, triggered, [HELP_ACCEPTED, GRANDDAUGHTER_SPAWN_ENABLED]);
    assert (set id | id in [HELP_ACCEPTED, GRANDDAUGHTER_SPAWN_ENABLED] && id in Content.GAME_EVENT_IDS) ==
      {HELP_ACCEPTED, GRANDDAUGHTER_SPAWN_ENABLED};
  }

  /** player.add_to_inventory(item) for an item that may have failed to be created. */
  method GiveIfCreated(player: Player.Player, item: Items.Item?)
    modifies player`inventory
    ensures player.inventory == Received(old(player.inventory), [item])
  {
    if item != null {
      var _ := player.AddToInventory(item);
    }
  }

  /**
   * on_give_heart_key: the key goes to the pack if it was created and
   * there is room, and the run is recorded for the later disappearance.
   */
  method OnGiveHeartKey<W>(player: Player.Player, em: Events.EventManager<W>, key: Items.Item?)
    requires em.Valid()
    modifies player`inventory, em`data
    ensures em.Valid()
    ensures player.inventory == Received(old(player.inventory), [key])
    ensures em.data == old(em.data)[CAPTURAR_AT := Events.VInt(em.runCount)]
  {
    GiveIfCreated(player, key);
    em.SetData(CAPTURAR_AT, Events.VInt(em.runCount));
  }

  /**
   * After the heart key is given at run r >= 0, Stranger and granddaughter
   * are due to disappear exactly from run r + 3 on.
   */
  lemma DesaparecenAfterThreeRuns(ev: Events.EventState, n: int)
    requires ev.runCount >= 0
    ensures DesaparecenDue(ev.(data := ev.data[CAPTURAR_AT := Events.VInt(ev.runCount)], runCount := n))
      <==> n >= ev.runCount + 3
  {
  }

  /** The event data after on_give_potion. */
  function GiftData(ev: Events.EventState): map<string, Events.Value>
  {
    if ev.IntOr(POTION_LAST_RUN, -1) == ev.runCount then ev.data
    else ev.data[POTIONS_GIVEN := Events.VInt(ev.IntOr(POTIONS_GIVEN, 0) + 1)][POTION_LAST_RUN := Events.VInt(ev.runCount)]
  }

  /** Whether on_give_potion hands a potion over in this run. */
  predicate GiftDue(ev: Events.EventState)
  {
    ev.IntOr(POTION_LAST_RUN, -1) != ev.runCount
  }

  /**
   * on_give_potion: at most one potion per run; each gift counts one more
   * potion and records the run.
   */
  method OnGivePotion<W>(player: Player.Player, em: Events.EventManager<W>, potion: Items.Item?)
    requires em.Valid()
    modifies player`inventory, em`data
    ensures em.Valid()
    ensures em.data == GiftData(old(em.State()))
    ensures player.inventory == if GiftDue(old(em.State())) then Received(old(player.inventory), [potion])
                                else old(player.inventory)
  {
    var last := if POTION_LAST_RUN in em.data then Events.AsInt(em.data[POTION_LAST_RUN]) else -1;
    if last == em.runCount {
      return;
    }
    GiveIfCreated(player, potion);
    var count := if POTIONS_GIVEN in em.data then Events.AsInt(em.data[POTIONS_GIVEN]) else 0;
    em.SetData(POTIONS_GIVEN, Events.VInt(count + 1));
    em.SetData(POTION_LAST_RUN, Events.VInt(em.runCount));
  }

  /**
   * Within one run a second gift changes nothing, and a gift raises the
   * count by one exactly when it is due.
   */
  lemma GiftOncePerRun(ev: Events.EventState)
    ensures GiftData(ev.(data := GiftData(ev))) == GiftData(ev)
    ensures ev.(data := GiftData(ev)).IntOr(POTIONS_GIVEN, 0) == ev.IntOr(POTIONS_GIVEN, 0) + (if GiftDue(ev) then 1 else 0)
    ensures !GiftDue(ev.(data := GiftData(ev)))
  {
  }

  /** The event store after a gift in each of the given runs in turn. */
  function GiftsInRuns(ev: Events.EventState, runs: seq<int>): Events.EventState
    decreases |runs|
  {
    if runs == [] then ev
    else
      var before := GiftsInRuns(ev, runs[..|runs| - 1]).(runCount := runs[|runs| - 1]);
      before.(data := GiftData(before))
  }

  predicate StrictlyIncreasing(runs: seq<int>)
  {
    forall i, j | 0 <= i < j < |runs| :: runs[i] < runs[j]
  }

  /**
   * Visiting in strictly increasing runs, the first of them not the run of
   * the last recorded gift, every visit gives a potion: the count grows by
   * the number of runs and the last run is recorded.
   */
  lemma {:induction false} GiftsCount(ev: Events.EventState, runs: seq<int>)
    requires StrictlyIncreasing(runs)
    requires runs != [] ==> runs[0] != ev.IntOr(POTION_LAST_RUN, -1)
    ensures GiftsInRuns(ev, runs).IntOr(POTIONS_GIVEN, 0) == ev.IntOr(POTIONS_GIVEN, 0) + |runs|
    ensures runs != [] ==> GiftsInRuns(ev, runs).IntOr(POTION_LAST_RUN, -1) == runs[|runs| - 1]
    decreases |runs|
  {
    if runs != [] {
      var init := runs[..|runs| - 1];
      GiftsCount(ev, init);
      var r := runs[|runs| - 1];
      var before := GiftsInRuns(ev, init).(runCount := r);
      if init != [] {
        assert init[|init| - 1] < r;
      }
      assert GiftDue(before);
    }
  }

  /**
   * Three visits in three different runs, starting from no gifts, make
   * the indignado guard hold and the indignado state spawnable.
   */
  lemma ThreeGiftsIndignado(ev: Events.EventState, r1: int, r2: int, r3: int)
    requires POTIONS_GIVEN !in ev.data && POTION_LAST_RUN !in ev.data
    requires 0 <= r1 < r2 < r3
    ensures IndignadoCheck(GiftsInRuns(ev, [r1, r2, r3])) == NpcStates.Holds
    ensures IndignadoSpawn(GiftsInRuns(ev, [r1, r2, r3]))
  {
    GiftsCount(ev, [r1, r2, r3]);
  }

  /** on_indignado_complete */
  method OnIndignadoComplete<W>(em: Events.EventManager<W>, w: W) returns (w': W)
    requires em.Valid()
    modifies em`status, em`triggered
    ensures em.Valid()
    ensures em.triggered == old(em.triggered) + {INDIGNADO}
  {
    w' := Content.MarkTriggered(em, INDIGNADO, w);
  }

  // ---------------------------------------------------------------------
  // Handing over several items
  // ---------------------------------------------------------------------

  /** The pack after add_to_inventory of each created item in turn; the pack refuses items once full. */
  function Received(inv: seq<Items.Item>, items: seq<Items.Item?>): seq<Items.Item>
    decreases |items|
  {
    if items == [] then inv
    else
      var r := Received(inv, items[..|items| - 1]);
      var last := items[|items| - 1];
      if last != null && |r| < Player.INVENTORY_CAPACITY then r + [last] else r
  }

  /** The items that were created, in order. */
  function Created(items: seq<Items.Item?>): (r: seq<Items.Item>)
    ensures |r| <= |items|
    decreases |items|
  {
    if items == [] then []
    else Created(items[..|items| - 1]) + (if items[|items| - 1] != null then [items[|items| - 1]] else [])
  }

  function Min(a: int, b: int): int { if a <= b then a else b }

  /**
   * Handing items over keeps the pack and appends the created items in
   * order until it is full: everything past the capacity is lost.
   */
  lemma {:induction false} ReceivedPrefix(inv: seq<Items.Item>, items: seq<Items.Item?>)
    requires |inv| <= Player.INVENTORY_CAPACITY
    ensures Received(inv, items) == inv + Created(items)[..Min(|Created(items)|, Player.INVENTORY_CAPACITY - |inv|)]
    decreases |items|
  {
    if items != [] {
      var init := items[..|items| - 1];
      ReceivedPrefix(inv, init);
      var c := Created(init);
      var k := Min(|c|, Player.INVENTORY_CAPACITY - |inv|);
      var last := items[|items| - 1];
      if last != null && |inv| + k < Player.INVENTORY_CAPACITY {
        assert Created(items) == c + [last];
        assert (c + [last])[..k + 1] == c[..k] + [last];
      } else if last != null {
        assert Created(items) == c + [last];
        assert (c + [last])[..k] == c[..k];
      }
    }
  }

  /** for each item: if it was created, player.add_to_inventory(item). */
  method GiveAll(player: Player.Player, items: seq<Items.Item?>)
    modifies player`inventory
    ensures player.inventory == Received(old(player.inventory), items)
  {
    var i := 0;
    while i < |items|
      invariant 0 <= i <= |items|
      invariant player.inventory == Received(old(player.inventory), items[..i])
    {
      assert items[..i + 1][..i] == items[..i];
      GiveIfCreated(player, items[i]);
      i := i + 1;
    }
    assert items[..|items|] == items;
  }

  /**
   * _on_loot_cadaver_envenenado: the corpse is marked looted, then the
   * letter, fifty coins, the greater potion and the perfume are handed
   * over in that order, each if it was created and fits.
   */
  method OnLootCadaverEnvenenado<W>(player: Player.Player, em: Events.EventManager<W>, carta: Items.Item?,
                                    golds: seq<Items.Item?>, potion: Items.Item?, perfume: Items.Item?)
    requires em.Valid() && |golds| == 50
    modifies player`inventory, em`triggered
    ensures em.Valid()
    ensures em.triggered == old(em.triggered) + {CADAVER_LOOTED}
    ensures player.inventory == Received(old(player.inventory), [carta] + golds + [potion, perfume])
  {
    Content.AddTriggered(em, CADAVER_LOOTED);
    GiveAll(player, [carta] + golds + [potion, perfume]);
  }

  /**
   * The loot is the letter, 50 coins, the potion and the perfume, 53
   * items in that order.  The pack has at most 26 slots, so even from an
   * empty pack the potion and the perfume are always lost behind the
   * coins: only the letter and 25 coins fit.
   */
  lemma LootOverflowsEmptyPack(carta: Items.Item, golds: seq<Items.Item>, potion: Items.Item, perfume: Items.Item)
    requires |golds| == 50
    ensures var items: seq<Items.Item?> := [carta] + golds + [potion, perfume];
      Received([], items) == [carta] + golds[..25]
  {
    var items: seq<Items.Item?> := [carta] + golds + [potion, perfume];
    ReceivedPrefix([], items);
    CreatedAll(items, [carta] + golds + [potion, perfume]);
    assert ([carta] + golds + [potion, perfume])[..26] == [carta] + golds[..25];
  }

  lemma {:induction false} CreatedAll(items: seq<Items.Item?>, xs: seq<Items.Item>)
    requires |items| == |xs| && forall i | 0 <= i < |xs| :: items[i] == xs[i]
    ensures Created(items) == xs
    decreases |items|
  {
    if items != [] {
      CreatedAll(items[..|items| - 1], xs[..|xs| - 1]);
      assert xs == xs[..|xs| - 1] + [xs[|xs| - 1]];
    }
  }
}
