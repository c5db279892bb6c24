/*
 * content/npcs/nieta.py: the Stranger's granddaughter.  Her dialog actions
 * force both her and the Stranger into new states; the poison she may be
 * given decides how the storyline ends.
 */
module Nieta {
  import opened Common
  import Events
  import NpcStates
  import Content
  import Items
  import Player
  import Stranger

  const NAME := "nieta"

  // State ids
  const FOUND := "found"
  const OBLIGADA := "obligada"
  const DESAPARECIDA := "desaparecida"
  const AYUDANDO := "ayudando"
  const DESCUBIERTA_STATE := "descubierta"
  const HUIDA := "huida"
  const CADAVER_JUNTOS_NIETA := "cadaver_juntos_nieta"
  const CADAVER_JUNTOS_NIETA_DONE := "cadaver_juntos_nieta_done"

  // Event ids and data keys
  const GRANDDAUGHTER_FOUND := "granddaughter_found"
  const NIETA_OBLIGADA := "nieta_obligada"
  const NIETA_AYUDANDO := "nieta_ayudando"
  const NIETA_CADAVER_LOOTED := "nieta_cadaver_looted"
  const LOOTED_AT := "cadaver_juntos_looted_at_run"

  /** The potion type that can be handed to the granddaughter. */
  const POISON_POTION := "poison_potion"

  // ---------------------------------------------------------------------
  // Conditions
  // ---------------------------------------------------------------------

  predicate Found(ev: Events.EventState) { ev.IsTriggered(GRANDDAUGHTER_FOUND) }
  predicate Obligada(ev: Events.EventState) { ev.IsTriggered(NIETA_OBLIGADA) }
  predicate Ayudando(ev: Events.EventState) { ev.IsTriggered(NIETA_AYUDANDO) }
  predicate StrangerIndignado(ev: Events.EventState) { ev.IsTriggered(Stranger.INDIGNADO) }
  predicate NietaCadaverLooted(ev: Events.EventState) { ev.IsTriggered(NIETA_CADAVER_LOOTED) }

  /**
   * nieta_found_spawn_condition: from floor 2 down, once help was accepted,
   * with a 40% draw (`lucky`).  A missing floor cannot be compared with 2;
   * it is taken as no spawn.
   */
  predicate FoundSpawn(floor: Option<int>, ev: Events.EventState, lucky: bool)
  {
    if floor.None? || floor.value < 2 then false
    else if !ev.IsTriggered(Stranger.HELP_ACCEPTED) then false
    else lucky
  }

  /** The cadaver_juntos_nieta -> done guard: the key was looted in an earlier run. */
  predicate LootedBefore(ev: Events.EventState)
  {
    var at := ev.IntOr(LOOTED_AT, -1);
    at >= 0 && ev.runCount > at
  }

  // ---------------------------------------------------------------------
  // States
  // ---------------------------------------------------------------------

  function FoundState<P>(): NpcStates.StateConfig<P, Content.Dialog>
  {
    NpcStates.NewConfig<P, Content.Dialog>(FOUND).(
      zoneType := Some("dungeon"),
      dialog := Some((ev: Events.EventState) => Content.Tree("create_nieta_dialog", "greeting")),
      completedDialog := Some((ev: Events.EventState) => Content.Simple("create_nieta_completed")),
      completionCondition := Some(Content.DoneIf<P>(Found)),
      spawnCondition := Some(FoundSpawn))
  }

  function ObligadaState<P>(): NpcStates.StateConfig<P, Content.Dialog>
  {
    NpcStates.NewConfig<P, Content.Dialog>(OBLIGADA).(
      zoneType := Some("lobby"),
      position := Some((45, 20)),
      dialog := Some((ev: Events.EventState) => Content.Tree("create_nieta_obligada_dialog", "obligada")),
      completedDialog := Some((ev: Events.EventState) => Content.Simple("create_nieta_obligada_completed")),
      completionCondition := Some(Content.DoneIf<P>(Stranger.Always)),
      spawnCondition := Some(Content.SpawnIf(Obligada)),
      transitions := [Content.Guarded<P>(DESAPARECIDA, Stranger.DesaparecenDue,
                                         "Desaparece junto con el Stranger tras 3 runs")])
  }

  function Desaparecida<P>(): NpcStates.StateConfig<P, Content.Dialog>
  {
    NpcStates.NewConfig<P, Content.Dialog>(DESAPARECIDA)
  }

  function AyudandoState<P>(): NpcStates.StateConfig<P, Content.Dialog>
  {
    NpcStates.NewConfig<P, Content.Dialog>(AYUDANDO).(
      zoneType := Some("dungeon"),
      floor := Some(1),
      completedDialog := Some((ev: Events.EventState) => Content.Simple("create_nieta_completed")),
      completionCondition := Some(Content.DoneIf<P>(Stranger.Always)),
      spawnCondition := Some(Content.SpawnIf(Ayudando)),
      transitions := [Content.Guarded<P>(DESCUBIERTA_STATE, StrangerIndignado, "Cuando Stranger entra en estado indignado")])
  }

  function DescubiertaState<P>(): NpcStates.StateConfig<P, Content.Dialog>
  {
    NpcStates.NewConfig<P, Content.Dialog>(DESCUBIERTA_STATE).(
      zoneType := Some("dungeon"),
      floor := Some(1),
      dialog := Some((ev: Events.EventState) => Content.Tree("create_nieta_descubierta_dialog", "descubierta")),
      completedDialog := Some((ev: Events.EventState) => Content.Tree("create_nieta_descubierta_completed", "descubierta_short")),
      completionCondition := Some(Content.DoneIf<P>(Stranger.Descubierta)),
      spawnCondition := Some(Content.SpawnIf(StrangerIndignado)),
      transitions := [
        Content.Guarded<P>(HUIDA, Stranger.Veneno, "Cuando el jugador da el veneno a la nieta"),
        Content.Guarded<P>(CADAVER_JUNTOS_NIETA, Stranger.CadaverJuntosDue,
                           "Ambos mueren tras 4 runs sin que el jugador dé el veneno")])
  }

  function Huida<P>(): NpcStates.StateConfig<P, Content.Dialog>
  {
    NpcStates.NewConfig<P, Content.Dialog>(HUIDA)
  }

  function CadaverJuntosNieta<P>(): NpcStates.StateConfig<P, Content.Dialog>
  {
    NpcStates.NewConfig<P, Content.Dialog>(CADAVER_JUNTOS_NIETA).(
      zoneType := Some("dungeon"),
      floor := Some(2),
      glyph := "%",
      color := "dark_red",
      dialog := Some((ev: Events.EventState) => Content.Tree("create_nieta_cadaver_juntos_dialog", "discover")),
      completedDialog := Some((ev: Events.EventState) => Content.Simple("create_nieta_cadaver_juntos_completed")),
      completionCondition := Some(Content.DoneIf<P>(NietaCadaverLooted)),
      spawnCondition := Some(Content.SpawnIf(Stranger.CadaverJuntosSpawn)),
      transitions := [Content.Guarded<P>(CADAVER_JUNTOS_NIETA_DONE, LootedBefore,
                                         "Quest completada: llave recogida en run anterior")])
  }

  function CadaverJuntosNietaDone<P>(): NpcStates.StateConfig<P, Content.Dialog>
  {
    NpcStates.NewConfig<P, Content.Dialog>(CADAVER_JUNTOS_NIETA_DONE)
  }

  /** The states in the order register_npc_states registers them. */
  function States<P>(): seq<NpcStates.StateConfig<P, Content.Dialog>>
  {
    [FoundState(), ObligadaState(), Desaparecida(), AyudandoState(), DescubiertaState(), Huida(),
     CadaverJuntosNieta(), CadaverJuntosNietaDone()]
  }

  /** register_npc_states */
  method Register<P>(m: NpcStates.NpcStateManager<P, Content.Dialog>)
    requires m.Valid()
    modifies m`states, m`npcOrder, m`stateOrder, m`completion
    ensures m.Valid()
    ensures m.states == Content.Registered(old(m.states), NAME, States())
    ensures m.current == old(m.current)
    ensures forall c | c in States<P>() :: NpcStates.CompletionIn(m.completion, NAME, c.stateId) == NpcStates.NotStarted
  {
    Content.RegisterAll(m, NAME, States());
  }

  /** The state ids, in registration order. */
  const IDS := [FOUND, OBLIGADA, DESAPARECIDA, AYUDANDO, DESCUBIERTA_STATE, HUIDA, CADAVER_JUNTOS_NIETA,
                CADAVER_JUNTOS_NIETA_DONE]

  lemma IdsDistinct()
    ensures forall i, j | 0 <= i < j < |IDS| :: IDS[i] != IDS[j]
  {
    forall i, j | 0 <= i < j < |IDS|
      ensures IDS[i] != IDS[j]
    {
      assert |IDS[i]| != |IDS[j]| || IDS[i][0] != IDS[j][0] || IDS[i][|IDS[i]| - 1] != IDS[j][|IDS[j]| - 1];
    }
  }

  lemma Filed<P>(i: int)
    requires 0 <= i < 8
    ensures var cm := Content.ConfigMap(States<P>());
      States<P>()[i].stateId in cm && cm[States<P>()[i].stateId] == States<P>()[i]
  {
    var cfgs := States<P>();
    assert forall k | 0 <= k < |cfgs| :: cfgs[k].stateId == IDS[k];
    IdsDistinct();
    Content.ConfigMapLookup(cfgs, i);
  }

  // ---------------------------------------------------------------------
  // Spawning and transitions as the engine sees them
  // ---------------------------------------------------------------------

  /**
   * On a dungeon floor, found passes the floor check exactly on floor 2 or
   * deeper, after help was accepted, and with a lucky draw.
   */
  lemma FoundSpawnIff<P>(floor: Option<int>, ev: Events.EventState, lucky: bool)
    ensures NpcStates.FloorMatches(FoundState<P>(), floor, ev, lucky) <==>
      floor.Some? && floor.value >= 2 && Stranger.HelpAccepted(ev) && lucky
  {
  }

  /** obligada -> desaparecida leaves the lobby, so it is taken whenever its guard holds. */
  lemma ObligadaTransition<P>(x: NpcStates.TransCtx<P, Content.Dialog>, comp: NpcStates.CompMap)
    requires x.cfgs == Content.ConfigMap(States<P>()) && x.fromZone == Some("lobby")
    ensures NpcStates.TransitionFrom(x, ObligadaState<P>().transitions, 0, comp) ==
      NpcStates.TStep(if Stranger.DesaparecenDue(x.ev) then NpcStates.Moved(DESAPARECIDA) else NpcStates.NoTransition, comp)
  {
    Filed<P>(2);
    var t := ObligadaState<P>().transitions[0];
    assert t.condition(Some(x.player), x.ev) == Content.OutcomeOf(Stranger.DesaparecenDue(x.ev));
    Content.ScanOne(x, t, comp);
  }

  /**
   * ayudando -> descubierta stays in the dungeon: when a dialog closes it
   * is left to the next spawn, otherwise it follows stranger_indignado.
   */
  lemma AyudandoTransition<P>(x: NpcStates.TransCtx<P, Content.Dialog>, comp: NpcStates.CompMap)
    requires x.cfgs == Content.ConfigMap(States<P>()) && x.fromZone == Some("dungeon")
    ensures NpcStates.TransitionFrom(x, AyudandoState<P>().transitions, 0, comp) ==
      NpcStates.TStep(if !x.onlyCrossZone && StrangerIndignado(x.ev) then NpcStates.Moved(DESCUBIERTA_STATE)
                      else NpcStates.NoTransition, comp)
  {
    Filed<P>(4);
    var t := AyudandoState<P>().transitions[0];
    assert t.condition(Some(x.player), x.ev) == Content.OutcomeOf(StrangerIndignado(x.ev));
    Content.ScanOne(x, t, comp);
  }

  /**
   * descubierta tries the poison route first: with the poison given she
   * flees (leaving every zone, so also when a dialog closes); otherwise,
   * after the timeout, she moves to her corpse on floor 2, which as a
   * dungeon state waits for the next spawn when a dialog closes.
   */
  lemma DescubiertaTransitions<P>(x: NpcStates.TransCtx<P, Content.Dialog>, comp: NpcStates.CompMap)
    requires x.cfgs == Content.ConfigMap(States<P>()) && x.fromZone == Some("dungeon")
    ensures NpcStates.TransitionFrom(x, DescubiertaState<P>().transitions, 0, comp) ==
      NpcStates.TStep(if Stranger.Veneno(x.ev) then NpcStates.Moved(HUIDA)
                      else if !x.onlyCrossZone && Stranger.CadaverJuntosDue(x.ev) then NpcStates.Moved(CADAVER_JUNTOS_NIETA)
                      else NpcStates.NoTransition, comp)
  {
    Filed<P>(5);
    Filed<P>(6);
    var ts := DescubiertaState<P>().transitions;
    assert ts[0].condition(Some(x.player), x.ev) == Content.OutcomeOf(Stranger.Veneno(x.ev));
    assert ts[1].condition(Some(x.player), x.ev) == Content.OutcomeOf(Stranger.CadaverJuntosDue(x.ev));
    Content.ScanTwo(x, ts[0], ts[1], comp);
  }

  /** The corpse is retired in any run after the one in which the key was looted. */
  lemma CadaverDoneTransition<P>(x: NpcStates.TransCtx<P, Content.Dialog>, comp: NpcStates.CompMap)
    requires x.cfgs == Content.ConfigMap(States<P>()) && x.fromZone == Some("dungeon")
    ensures NpcStates.TransitionFrom(x, CadaverJuntosNieta<P>().transitions, 0, comp) ==
      NpcStates.TStep(if LootedBefore(x.ev) then NpcStates.Moved(CADAVER_JUNTOS_NIETA_DONE) else NpcStates.NoTransition, comp)
  {
    Filed<P>(7);
    var t := CadaverJuntosNieta<P>().transitions[0];
    assert t.condition(Some(x.player), x.ev) == Content.OutcomeOf(LootedBefore(x.ev));
    Content.ScanOne(x, t, comp);
  }

  // ---------------------------------------------------------------------
  // Dialog actions
  // ---------------------------------------------------------------------

  /** The statuses after the two forced moves of on_obligar_nieta. */
  function ObligarStatuses(comp: NpcStates.CompMap, s: string, n: string): NpcStates.CompMap
  {
    Content.Forced(Content.Forced(comp, s, Some(Stranger.MISION_NIETA), Stranger.MISION_CAPTURAR_NIETA),
                   n, Some(FOUND), OBLIGADA)
  }

  /** The statuses after the two forced moves of on_ayudar_nieta. */
  function AyudarStatuses(comp: NpcStates.CompMap, s: string, n: string): NpcStates.CompMap
  {
    Content.Forced(Content.Forced(comp, s, None, Stranger.MISION_NIETA_AYUDAR), n, Some(FOUND), AYUDANDO)
  }

  /** The Stranger and the granddaughter are filed under different names. */
  lemma NamesApart(keys: seq<string>)
    ensures NpcStates.NormalizeIn(keys, Stranger.NAME) != NpcStates.NormalizeIn(keys, NAME)
  {
    assert |Lower(Stranger.NAME)| != |Lower(NAME)|;
    Content.NormDistinct(keys, Stranger.NAME, NAME);
  }

  /**
   * on_obligar_nieta: the three story events are triggered, the Stranger
   * moves from mision_nieta to mision_capturar_nieta and the granddaughter
   * from found to obligada.
   */
  method OnObligar<P, W>(em: Events.EventManager<W>, m: NpcStates.NpcStateManager<P, Content.Dialog>, w: W)
    returns (w': W)
    requires em.Valid() && m.Valid()
    modifies em`status, em`triggered, m`current, m`completion
    ensures em.Valid() && m.Valid()
    ensures em.triggered == Content.TriggeringEach(em.events.Keys, old(em.triggered),
                              [Stranger.CAPTURAR_STARTED, NIETA_OBLIGADA, GRANDDAUGHTER_FOUND])
    ensures em.data == old(em.data) && em.runCount == old(em.runCount)
    ensures m.current == old(m.current)[m.Norm(Stranger.NAME) := Stranger.MISION_CAPTURAR_NIETA][m.Norm(NAME) := OBLIGADA]
    ensures m.completion == ObligarStatuses(old(m.completion), m.Norm(Stranger.NAME), m.Norm(NAME))
  {
    ghost var t0 := em.triggered;
    var _, w1 := em.Trigger(Stranger.CAPTURAR_STARTED, w, true);
    var _, w2 := em.Trigger(NIETA_OBLIGADA, w1, true);
    var _, w3 := em.Trigger(GRANDDAUGHTER_FOUND, w2, true);
    w' := w3;
    Content.ForceState(m, Stranger.NAME, Some(Stranger.MISION_NIETA), Stranger.MISION_CAPTURAR_NIETA);
    Content.ForceState(m, NAME, Some(FOUND), OBLIGADA);
    TriggerThree(em.events.Keys, t0, Stranger.CAPTURAR_STARTED, NIETA_OBLIGADA, GRANDDAUGHTER_FOUND);
  }

  /** Three unconditional triggers in a row. */
  lemma TriggerThree(registered: set<string>, t: set<string>, a: string, b: string, c: string)
    ensures Content.TriggeringEach(registered, t, [a, b, c]) ==
      Content.Triggering(registered, Content.Triggering(registered, Content.Triggering(registered, t, a), b), c)
  {
    assert [a, b, c][..2] == [a, b];
    assert [a, b][..1] == [a];
    assert [a][..0] == [];
    assert Content.TriggeringEach(registered, t, []) == t;
    var t1 := Content.TriggeringEach(registered, t, [a]);
    assert t1 == Content.Triggering(registered, t, a);
    var t2 := Content.TriggeringEach(registered, t, [a, b]);
    assert t2 == Content.Triggering(registered, t1, b);
  }

  /**
   * on_ayudar_nieta: the three story events are triggered, the Stranger
   * starts mision_nieta_ayudar without completing mision_nieta, and the
   * granddaughter moves from found to ayudando.
   */
  method OnAyudar<P, W>(em: Events.EventManager<W>, m: NpcStates.NpcStateManager<P, Content.Dialog>, w: W)
    returns (w': W)
    requires em.Valid() && m.Valid()
    modifies em`status, em`triggered, m`current, m`completion
    ensures em.Valid() && m.Valid()
    ensures em.triggered == Content.TriggeringEach(em.events.Keys, old(em.triggered),
                              [Stranger.AYUDAR_STARTED, NIETA_AYUDANDO, GRANDDAUGHTER_FOUND])
    ensures em.data == old(em.data) && em.runCount == old(em.runCount)
    ensures m.current == old(m.current)[m.Norm(Stranger.NAME) := Stranger.MISION_NIETA_AYUDAR][m.Norm(NAME) := AYUDANDO]
    ensures m.completion == AyudarStatuses(old(m.completion), m.Norm(Stranger.NAME), m.Norm(NAME))
  {
    ghost var t0 := em.triggered;
    var _, w1 := em.Trigger(Stranger.AYUDAR_STARTED, w, true);
    var _, w2 := em.Trigger(NIETA_AYUDANDO, w1, true);
    var _, w3 := em.Trigger(GRANDDAUGHTER_FOUND, w2, true);
    w' := w3;
    Content.ForceState(m, Stranger.NAME, None, Stranger.MISION_NIETA_AYUDAR);
    Content.ForceState(m, NAME, Some(FOUND), AYUDANDO);
    TriggerThree(em.events.Keys, t0, Stranger.AYUDAR_STARTED, NIETA_AYUDANDO, GRANDDAUGHTER_FOUND);
  }

  /**
   * With the shipped registrations all three events of each choice are
   * triggered.  Obligar completes mision_nieta and starts the capture;
   * ayudar starts the help mission and leaves mision_nieta as it was, so
   * both missions stay active.  Either way found is completed.
   */
  lemma ChoiceOutcomes(keys: seq<string>, comp: NpcStates.CompMap, t: set<string>)
    ensures Content.TriggeringEach(Content.GAME_EVENT_IDS, t, [Stranger.CAPTURAR_STARTED, NIETA_OBLIGADA, GRANDDAUGHTER_FOUND]) ==
      t + {Stranger.CAPTURAR_STARTED, NIETA_OBLIGADA, GRANDDAUGHTER_FOUND}
    ensures Content.TriggeringEach(Content.GAME_EVENT_IDS, t, [Stranger.AYUDAR_STARTED, NIETA_AYUDANDO, GRANDDAUGHTER_FOUND]) ==
      t + {Stranger.AYUDAR_STARTED, NIETA_AYUDANDO, GRANDDAUGHTER_FOUND}
    ensures var s, n := NpcStates.NormalizeIn(keys, Stranger.NAME), NpcStates.NormalizeIn(keys, NAME);
      var ob := ObligarStatuses(comp, s, n);
      var ay := AyudarStatuses(comp, s, n);
      NpcStates.CompletionIn(ob, s, Stranger.MISION_NIETA) == NpcStates.Completed &&
      NpcStates.CompletionIn(ob, s, Stranger.MISION_CAPTURAR_NIETA) == NpcStates.InProgress &&
      NpcStates.CompletionIn(ob, n, FOUND) == NpcStates.Completed &&
      NpcStates.CompletionIn(ob, n, OBLIGADA) == NpcStates.InProgress &&
      NpcStates.CompletionIn(ay, s, Stranger.MISION_NIETA) == NpcStates.CompletionIn(comp, s, Stranger.MISION_NIETA) &&
      NpcStates.CompletionIn(ay, s, Stranger.MISION_NIETA_AYUDAR) == NpcStates.InProgress &&
      NpcStates.CompletionIn(ay, n, FOUND) == NpcStates.Completed &&
      NpcStates.CompletionIn(ay, n, AYUDANDO) == NpcStates.InProgress
  {
    var ob := [Stranger.CAPTURAR_STARTED, NIETA_OBLIGADA, GRANDDAUGHTER_FOUND];
    var ay := [Stranger.AYUDAR_STARTED, NIETA_AYUDANDO, GRANDDAUGHTER_FOUND];
    Content.TriggeringEachAdds(Content.GAME_EVENT_IDS, t, ob);
    Content.TriggeringEachAdds(Content.GAME_EVENT_IDS, t, ay);
    assert (set id | id in ob && id in Content.GAME_EVENT_IDS) == {Stranger.CAPTURAR_STARTED, NIETA_OBLIGADA, GRANDDAUGHTER_FOUND};
    assert (set id | id in ay && id in Content.GAME_EVENT_IDS) == {Stranger.AYUDAR_STARTED, NIETA_AYUDANDO, GRANDDAUGHTER_FOUND};
    var s, n := NpcStates.NormalizeIn(keys, Stranger.NAME), NpcStates.NormalizeIn(keys, NAME);
    NamesApart(keys);
    var c1 := Content.Forced(comp, s, Some(Stranger.MISION_NIETA), Stranger.MISION_CAPTURAR_NIETA);
    Content.ForcedEffect(comp, s, Some(Stranger.MISION_NIETA), Stranger.MISION_CAPTURAR_NIETA);
    Content.ForcedEffect(c1, n, Some(FOUND), OBLIGADA);
    var c2 := Content.Forced(comp, s, None, Stranger.MISION_NIETA_AYUDAR);
    Content.ForcedEffect(comp, s, None, Stranger.MISION_NIETA_AYUDAR);
    Content.ForcedEffect(c2, n, Some(FOUND), AYUDANDO);
  }

  /**
   * on_descubierta_complete: nieta_descubierta counts as triggered, the
   * Stranger moves from indignado to contratado_mercenario and the run is
   * recorded for the timeout of the route without poison.
   */
  method OnDescubiertaComplete<P, W>(em: Events.EventManager<W>, m: NpcStates.NpcStateManager<P, Content.Dialog>, w: W)
    returns (w': W)
    requires em.Valid() && m.Valid()
    modifies em`status, em`triggered, em`data, m`current, m`completion
    ensures em.Valid() && m.Valid()
    ensures em.triggered == old(em.triggered) + {Stranger.DESCUBIERTA}
    ensures em.data == old(em.data)[Stranger.MERCENARIO_AT := Events.VInt(em.runCount)]
    ensures m.current == old(m.current)[m.Norm(Stranger.NAME) := Stranger.CONTRATADO_MERCENARIO]
    ensures m.completion == Content.Forced(old(m.completion), m.Norm(Stranger.NAME),
                                           Some(Stranger.INDIGNADO_STATE), Stranger.CONTRATADO_MERCENARIO)
  {
    w' := Content.MarkTriggered(em, Stranger.DESCUBIERTA, w);
    Content.ForceState(m, Stranger.NAME, Some(Stranger.INDIGNADO_STATE), Stranger.CONTRATADO_MERCENARIO);
    em.SetData(Stranger.MERCENARIO_AT, Events.VInt(em.runCount));
  }

  /**
   * Without the poison, the corpses are due exactly from four runs after
   * the discovery; with it, never.
   */
  lemma CadaverJuntosAfterFourRuns(ev: Events.EventState, n: int)
    requires ev.runCount >= 0
    ensures var ev' := ev.(data := ev.data[Stranger.MERCENARIO_AT := Events.VInt(ev.runCount)], runCount := n);
      Stranger.CadaverJuntosDue(ev') <==> !Stranger.Veneno(ev) && n >= ev.runCount + 4
  {
  }

  // ---------------------------------------------------------------------
  // Giving the poison
  // ---------------------------------------------------------------------

  /** isinstance(item, Potion) and item.potion_type == "poison_potion" */
  predicate IsPoison(item: Items.Item)
  {
    item.kind.PotionKind? && item.kind.potionType == POISON_POTION
  }

  /** has_poison_potion: the option to hand over the poison is offered. */
  predicate HasPoisonPotion(inv: seq<Items.Item>)
  {
    exists i | 0 <= i < |inv| :: IsPoison(inv[i])
  }

  /** The position of the first poison potion in the pack, |inv| when there is none. */
  function FirstPoison(inv: seq<Items.Item>): (i: nat)
    ensures i <= |inv|
    ensures i < |inv| ==> IsPoison(inv[i])
    ensures forall j | 0 <= j < i :: !IsPoison(inv[j])
    ensures i < |inv| <==> HasPoisonPotion(inv)
    decreases |inv|
  {
    if inv == [] then 0
    else if IsPoison(inv[0]) then 0
    else
      var k := FirstPoison(inv[1..]);
      assert forall j | 1 <= j < 1 + k :: inv[j] == inv[1..][j - 1];
      assert 1 + k < |inv| ==> inv[1 + k] == inv[1..][k];
      assert HasPoisonPotion(inv) ==> HasPoisonPotion(inv[1..]) by {
        if HasPoisonPotion(inv) {
          var j :| 0 <= j < |inv| && IsPoison(inv[j]);
          assert j > 0 && inv[1..][j - 1] == inv[j];
        }
      }
      1 + k
  }

  /** The pack after the first poison potion, if any, is taken out. */
  function WithoutFirstPoison(inv: seq<Items.Item>): seq<Items.Item>
  {
    var i := FirstPoison(inv);
    if i < |inv| then inv[..i] + inv[i + 1..] else inv
  }

  /**
   * Handing over the poison uses up exactly one poison potion: the pack
   * loses that one item and keeps every other in order.
   */
  lemma PoisonUsedUp(inv: seq<Items.Item>)
    ensures HasPoisonPotion(inv) ==>
      |WithoutFirstPoison(inv)| == |inv| - 1 &&
      multiset(WithoutFirstPoison(inv)) + multiset{inv[FirstPoison(inv)]} == multiset(inv)
    ensures !HasPoisonPotion(inv) ==> WithoutFirstPoison(inv) == inv
  {
    var i := FirstPoison(inv);
    if i < |inv| {
      SplitAt(inv, i);
    }
  }

  lemma SplitAt(inv: seq<Items.Item>, i: int)
    requires 0 <= i < |inv|
    ensures multiset(inv[..i] + inv[i + 1..]) + multiset{inv[i]} == multiset(inv)
  {
    assert inv == inv[..i] + [inv[i]] + inv[i + 1..];
  }

  /** The loop of on_give_poison: find the first poison potion and remove it from the list. */
  method RemoveFirstPoison(player: Player.Player)
    modifies player`inventory
    ensures player.inventory == WithoutFirstPoison(old(player.inventory))
  {
    var i := 0;
    while i < |player.inventory|
      invariant 0 <= i <= |player.inventory|
      invariant player.inventory == old(player.inventory)
      invariant forall j | 0 <= j < i :: !IsPoison(player.inventory[j])
    {
      var item := player.inventory[i];
      if IsPoison(item) {
        assert item !in player.inventory[..i];
        RemoveFirstSplit(player.inventory, item, i);
        var _ := player.RemoveFromInventory(item);
        return;
      }
      i := i + 1;
    }
  }

  /**
   * on_give_poison: one poison potion leaves the pack, the poison counts
   * as given, the run is recorded, the granddaughter flees and the
   * Stranger disappears.
   */
  method OnGivePoison<P, W>(player: Player.Player, em: Events.EventManager<W>,
                            m: NpcStates.NpcStateManager<P, Content.Dialog>, w: W) returns (w': W)
    requires em.Valid() && m.Valid()
    modifies player`inventory, em`status, em`triggered, em`data, m`current, m`completion
    ensures em.Valid() && m.Valid()
    ensures player.inventory == WithoutFirstPoison(old(player.inventory))
    ensures em.triggered == old(em.triggered) + {Stranger.VENENO}
    ensures em.data == old(em.data)[Stranger.DESAPARECIDO_AT := Events.VInt(em.runCount)]
    ensures m.current == old(m.current)[m.Norm(NAME) := HUIDA][m.Norm(Stranger.NAME) := Stranger.DESAPARECIDO]
    ensures m.completion == Content.Forced(Content.Forced(old(m.completion), m.Norm(NAME), Some(DESCUBIERTA_STATE), HUIDA),
                                           m.Norm(Stranger.NAME), Some(Stranger.CONTRATADO_MERCENARIO), Stranger.DESAPARECIDO)
  {
    w' := HandOver(player, em, w);
    Flee(m);
  }

  /** The first half of on_give_poison: the potion changes hands and the run is recorded. */
  method HandOver<W>(player: Player.Player, em: Events.EventManager<W>, w: W) returns (w': W)
    requires em.Valid()
    modifies player`inventory, em`status, em`triggered, em`data
    ensures em.Valid()
    ensures player.inventory == WithoutFirstPoison(old(player.inventory))
    ensures em.triggered == old(em.triggered) + {Stranger.VENENO}
    ensures em.data == old(em.data)[Stranger.DESAPARECIDO_AT := Events.VInt(em.runCount)]
  {
    RemoveFirstPoison(player);
    w' := Content.MarkTriggered(em, Stranger.VENENO, w);
    em.SetData(Stranger.DESAPARECIDO_AT, Events.VInt(em.runCount));
  }

  /** The two forced moves of on_give_poison. */
  method Flee<P>(m: NpcStates.NpcStateManager<P, Content.Dialog>)
    requires m.Valid()
    modifies m`current, m`completion
    ensures m.Valid()
    ensures m.current == old(m.current)[m.Norm(NAME) := HUIDA][m.Norm(Stranger.NAME) := Stranger.DESAPARECIDO]
    ensures m.completion == Content.Forced(Content.Forced(old(m.completion), m.Norm(NAME), Some(DESCUBIERTA_STATE), HUIDA),
                                           m.Norm(Stranger.NAME), Some(Stranger.CONTRATADO_MERCENARIO), Stranger.DESAPARECIDO)
  {
    Content.ForceState(m, NAME, Some(DESCUBIERTA_STATE), HUIDA);
    Content.ForceState(m, Stranger.NAME, Some(Stranger.CONTRATADO_MERCENARIO), Stranger.DESAPARECIDO);
  }

  /**
   * After the poison is given at run r >= 0 the route without poison is
   * closed for good, the Stranger's poisoned corpse may spawn, and its
   * state is due exactly from run r + 2.
   */
  lemma PoisonRoute(ev: Events.EventState, n: int)
    requires ev.runCount >= 0
    ensures var ev' := ev.(triggered := ev.triggered + {Stranger.VENENO},
                           data := ev.data[Stranger.DESAPARECIDO_AT := Events.VInt(ev.runCount)], runCount := n);
      (Stranger.CadaverEnvenenadoDue(ev') <==> n >= ev.runCount + 2) &&
      !Stranger.CadaverJuntosDue(ev') && !Stranger.CadaverJuntosSpawn(ev') && Stranger.Veneno(ev')
  {
  }

  // ---------------------------------------------------------------------
  // Looting the corpse
  // ---------------------------------------------------------------------

  /**
   * _on_loot_cadaver_nieta: the corpse is marked looted, the run recorded,
   * and the heart-shaped key handed over if it was created and fits.
   */
  method OnLootCadaverNieta<W>(player: Player.Player, em: Events.EventManager<W>, key: Items.Item?)
    requires em.Valid()
    modifies player`inventory, em`triggered, em`data
    ensures em.Valid()
    ensures em.triggered == old(em.triggered) + {NIETA_CADAVER_LOOTED}
    ensures em.data == old(em.data)[LOOTED_AT := Events.VInt(em.runCount)]
    ensures player.inventory == Stranger.Received(old(player.inventory), [key])
  {
    Content.AddTriggered(em, NIETA_CADAVER_LOOTED);
    em.SetData(LOOTED_AT, Events.VInt(em.runCount));
    Stranger.GiveIfCreated(player, key);
  }

  /** Looting at run r >= 0 completes the corpse state and retires it from the next run on. */
  lemma CorpseRetiredNextRun(ev: Events.EventState, n: int)
    requires ev.runCount >= 0
    ensures var ev' := ev.(triggered := ev.triggered + {NIETA_CADAVER_LOOTED},
                           data := ev.data[LOOTED_AT := Events.VInt(ev.runCount)]);
      NietaCadaverLooted(ev') && (LootedBefore(ev'.(runCount := n)) <==> n > ev.runCount)
  {
  }
}
