/*
 * content/npcs/alchemist.py: the alchemist of the lobby, unlocked by a
 * death by poison; a second such death turns it into a corpse.
 */
module Alchemist {
  import opened Common
  import Events
  import NpcStates
  import Content

  const NAME := "Alquimista"
  const GREETING := "greeting"
  const CADAVER := "cadaver"

  const UNLOCKED := "alchemist_unlocked"
  const SECOND_POISON := "alchemist_second_poison"
  const GREETING_DONE := "alchemist_greeting_done"

  predicate Unlocked(ev: Events.EventState) { ev.IsTriggered(UNLOCKED) }
  predicate SecondPoison(ev: Events.EventState) { ev.IsTriggered(SECOND_POISON) }
  predicate GreetingDone(ev: Events.EventState) { ev.IsTriggered(GREETING_DONE) }

  function Greeting<P>(): NpcStates.StateConfig<P, Content.Dialog>
  {
    NpcStates.NewConfig<P, Content.Dialog>(GREETING).(
      zoneType := Some("lobby"),
      position := Some((50, 22)),
      glyph := "9",
      color := "potion",
      dialog := Some((ev: Events.EventState) => Content.Tree("create_alchemist_greeting_dialog", "greeting")),
      completedDialog := Some((ev: Events.EventState) => Content.Simple("create_alchemist_greeting_completed")),
      completionCondition := Some(Content.DoneIf<P>(GreetingDone)),
      spawnCondition := Some(Content.SpawnIf(Unlocked)),
      transitions := [Content.Guarded<P>(CADAVER, SecondPoison, "Después de la segunda muerte por veneno")])
  }

  function Cadaver<P>(): NpcStates.StateConfig<P, Content.Dialog>
  {
    NpcStates.NewConfig<P, Content.Dialog>(CADAVER).(
      zoneType := Some("lobby"),
      position := Some((50, 22)),
      glyph := "9",
      color := "potion",
      dialog := Some((ev: Events.EventState) => Content.Tree("create_alchemist_cadaver_dialog", "cadaver")),
      completedDialog := Some((ev: Events.EventState) => Content.Simple("create_alchemist_cadaver_completed")),
      spawnCondition := Some(Content.SpawnIf(SecondPoison)))
  }

  function States<P>(): seq<NpcStates.StateConfig<P, Content.Dialog>>
  {
    [Greeting(), Cadaver()]
  }

  /** register_npc_states */
  method Register<P>(m: NpcStates.NpcStateManager<P, Content.Dialog>)
    requires m.Valid()
    modifies m`states, m`npcOrder, m`stateOrder, m`completion
    ensures m.Valid()
    ensures m.states == Content.Registered(old(m.states), NAME, States())
    ensures m.current == old(m.current)
    ensures NpcStates.CompletionIn(m.completion, NAME, GREETING) == NpcStates.NotStarted
    ensures NpcStates.CompletionIn(m.completion, NAME, CADAVER) == NpcStates.NotStarted
  {
    Content.RegisterAll(m, NAME, States());
  }

  lemma Filed<P>()
    ensures var cm := Content.ConfigMap(States<P>());
      GREETING in cm && cm[GREETING] == Greeting() && CADAVER in cm && cm[CADAVER] == Cadaver()
  {
    Content.ConfigMapLookup(States<P>(), 0);
    Content.ConfigMapLookup(States<P>(), 1);
  }

  /** Both states are lobby states at (50, 22). */
  lemma Layout<P>()
    ensures forall c | c in States<P>() :: c.zoneType == Some("lobby") && c.position == Some((50, 22))
  {
  }

  /**
   * greeting -> cadaver is taken exactly when alchemist_second_poison is
   * triggered, except when a dialog closes: both states are in the lobby,
   * so with only cross-zone transitions allowed it is left to the next
   * spawn.  Its guard has no side effect.
   */
  lemma GreetingTransition<P>(x: NpcStates.TransCtx<P, Content.Dialog>, comp: NpcStates.CompMap)
    requires x.cfgs == Content.ConfigMap(States<P>()) && x.fromZone == Some("lobby")
    ensures var r := NpcStates.TransitionFrom(x, Greeting<P>().transitions, 0, comp);
      r.comp == comp &&
      r.result == if !x.onlyCrossZone && SECOND_POISON in x.ev.triggered then NpcStates.Moved(CADAVER)
                  else NpcStates.NoTransition
  {
    Filed<P>();
    var t := Greeting<P>().transitions[0];
    assert t.condition(Some(x.player), x.ev) == Content.OutcomeOf(SecondPoison(x.ev));
    Content.ScanOne(x, t, comp);
  }

  /**
   * At a lobby spawn with greeting COMPLETED, the deferred transition is
   * followed exactly when alchemist_second_poison is triggered; otherwise
   * the greeting is shown again.
   */
  lemma DeferredAtSpawn<P>(c: NpcStates.SpawnCtx<P, Content.Dialog>, current: map<string, string>, comp: NpcStates.CompMap)
    requires c.cfgs == Content.ConfigMap(States<P>()) && c.zoneType == "lobby"
    requires NpcStates.CompletionIn(comp, c.n, GREETING) == NpcStates.Completed
    ensures GREETING in c.cfgs
    ensures NpcStates.SpawnFromCurrent(c, current, comp, GREETING).found ==
      Some(if SECOND_POISON in c.ev.triggered then CADAVER else GREETING)
  {
    Filed<P>();
    var t := Greeting<P>().transitions[0];
    assert t.condition(None, c.ev) == Content.OutcomeOf(SecondPoison(c.ev));
    Content.DeferredOne(c, t, comp);
  }

  /** In the lobby, greeting passes the spawn filter iff the alchemist is unlocked, cadaver iff poisoned twice. */
  lemma SpawnConditions<P>(c: NpcStates.SpawnCtx<P, Content.Dialog>)
    requires c.cfgs == Content.ConfigMap(States<P>()) && c.zoneType == "lobby"
    ensures GREETING in c.cfgs && CADAVER in c.cfgs
    ensures NpcStates.SpawnFilter(c, GREETING) <==> UNLOCKED in c.ev.triggered
    ensures NpcStates.SpawnFilter(c, CADAVER) <==> SECOND_POISON in c.ev.triggered
  {
    Filed<P>();
  }

  /**
   * on_greeting_complete as written: when alchemist_greeting_done is not a
   * registered event (and the shipped registration does not register it)
   * the trigger is refused and the greeting's completion condition stays
   * false.
   */
  method OnGreetingCompleteAsWritten<W>(em: Events.EventManager<W>, w: W) returns (w': W)
    requires em.Valid()
    modifies em`status, em`triggered
    ensures em.Valid()
    ensures em.triggered == Content.Triggering(em.events.Keys, old(em.triggered), GREETING_DONE)
    ensures GREETING_DONE !in em.events ==> em.triggered == old(em.triggered)
  {
    w' := Content.TriggerOnce(em, GREETING_DONE, w);
  }

  /** on_greeting_complete as intended: afterwards the greeting counts as done. */
  method OnGreetingComplete<W>(em: Events.EventManager<W>, w: W) returns (w': W)
    requires em.Valid()
    modifies em`status, em`triggered
    ensures em.Valid()
    ensures em.triggered == old(em.triggered) + {GREETING_DONE}
    ensures GreetingDone(em.State())
  {
    w' := Content.MarkTriggered(em, GREETING_DONE, w);
  }
}
