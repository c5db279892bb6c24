/*
 * What the NPC content modules under content/npcs share when they plug
 * into the state machine: the dialog a factory builds, guards that read
 * the event store, registering a list of state configurations, the
 * scripted state changes dialog actions force, and the ways a dialog
 * action marks an event as triggered.
 */
module Content {
  import opened Common
  import Events
  import NpcStates

  /**
   * The dialog a factory of the content builds, named by its factory: a
   * dialog tree entered at `start`, or a simple text.  The authored text
   * itself is not modelled.
   */
  datatype Dialog = Tree(factory: string, start: string) | Simple(factory: string)

  function OutcomeOf(b: bool): (o: NpcStates.Outcome)
    ensures o == NpcStates.Holds <==> b
    ensures o.Holds? || o.Fails?
  {
    if b then NpcStates.Holds else NpcStates.Fails
  }

  /** A StateTransition whose guard is a pure read of the event store. */
  function Guarded<P>(target: string, g: Events.EventState -> bool, description: string): (t: NpcStates.Transition<P>)
    ensures t.target == target && t.description == description
  {
    NpcStates.Transition(target, (p: Option<P>, ev: Events.EventState) => OutcomeOf(g(ev)), description)
  }

  /** A completion condition that is a pure read of the event store. */
  function DoneIf<P>(g: Events.EventState -> bool): (Option<P>, Events.EventState) -> bool
  {
    (p: Option<P>, ev: Events.EventState) => g(ev)
  }

  /** A spawn condition that ignores the floor and any random draw. */
  function SpawnIf(g: Events.EventState -> bool): (s: (Option<int>, Events.EventState, bool) -> bool)
    ensures forall floor, ev, lucky :: s(floor, ev, lucky) == g(ev)
  {
    (floor: Option<int>, ev: Events.EventState, lucky: bool) => g(ev)
  }

  /** A guard without side effect: it holds or fails. */
  predicate Pure(o: NpcStates.Outcome)
  {
    o.Holds? || o.Fails?
  }

  /** check_and_transition's scan of a one-guard list. */
  lemma ScanOne<P, D>(x: NpcStates.TransCtx<P, D>, t: NpcStates.Transition<P>, comp: NpcStates.CompMap)
    requires Pure(t.condition(Some(x.player), x.ev))
    ensures NpcStates.TransitionFrom(x, [t], 0, comp) ==
      NpcStates.TStep(if NpcStates.Taken(x, [t], 0) then NpcStates.Moved(t.target) else NpcStates.NoTransition, comp)
  {
    assert NpcStates.TransitionFrom(x, [t], 1, comp) == NpcStates.TStep(NpcStates.NoTransition, comp);
  }

  /** check_and_transition's scan of a two-guard list: the first guard is tried first. */
  lemma ScanTwo<P, D>(x: NpcStates.TransCtx<P, D>, t1: NpcStates.Transition<P>, t2: NpcStates.Transition<P>,
                      comp: NpcStates.CompMap)
    requires Pure(t1.condition(Some(x.player), x.ev)) && Pure(t2.condition(Some(x.player), x.ev))
    ensures NpcStates.TransitionFrom(x, [t1, t2], 0, comp) ==
      NpcStates.TStep(if NpcStates.Taken(x, [t1, t2], 0) then NpcStates.Moved(t1.target)
                      else if NpcStates.Taken(x, [t1, t2], 1) then NpcStates.Moved(t2.target)
                      else NpcStates.NoTransition, comp)
  {
    assert NpcStates.TransitionFrom(x, [t1, t2], 2, comp) == NpcStates.TStep(NpcStates.NoTransition, comp);
  }

  /** The deferred scan at spawn of a one-guard list. */
  lemma DeferredOne<P, D>(c: NpcStates.SpawnCtx<P, D>, t: NpcStates.Transition<P>, comp: NpcStates.CompMap)
    requires Pure(t.condition(None, c.ev))
    ensures NpcStates.DeferredFrom(c, [t], 0, comp) ==
      NpcStates.Step(if NpcStates.SpawnEligible(c, t) && t.condition(None, c.ev).Holds? then Some(t.target) else None, comp)
  {
    assert NpcStates.DeferredFrom(c, [t], 1, comp) == NpcStates.Step(None, comp);
  }

  // ---------------------------------------------------------------------
  // Registration
  // ---------------------------------------------------------------------

  /** The manager's configurations after register_npc_state(name, c) for each c of cfgs in turn. */
  function Registered<P, D>(states: map<string, map<string, NpcStates.StateConfig<P, D>>>, name: string,
                            cfgs: seq<NpcStates.StateConfig<P, D>>): map<string, map<string, NpcStates.StateConfig<P, D>>>
    decreases |cfgs|
  {
    if cfgs == [] then states
    else
      var s := Registered(states, name, cfgs[..|cfgs| - 1]);
      var c := cfgs[|cfgs| - 1];
      s[name := (if name in s then s[name] else map[])[c.stateId := c]]
  }

  predicate DistinctIds<P, D>(cfgs: seq<NpcStates.StateConfig<P, D>>)
  {
    forall i, j | 0 <= i < j < |cfgs| :: cfgs[i].stateId != cfgs[j].stateId
  }

  /**
   * With distinct state ids every configuration is filed under its own id
   * under `name`, no other NPC's configurations change, and the NPC keeps
   * the states it had.
   */
  lemma {:induction false} RegisteredLookup<P, D>(states: map<string, map<string, NpcStates.StateConfig<P, D>>>,
                                                  name: string, cfgs: seq<NpcStates.StateConfig<P, D>>)
    requires DistinctIds(cfgs)
    ensures var r := Registered(states, name, cfgs);
      (|cfgs| > 0 ==> name in r) &&
      (forall i | 0 <= i < |cfgs| :: cfgs[i].stateId in r[name] && r[name][cfgs[i].stateId] == cfgs[i]) &&
      (forall m | m != name :: (m in r <==> m in states) && (m in r ==> r[m] == states[m])) &&
      (name in states ==> name in r && forall s | s in states[name] && s !in (set c | c in cfgs :: c.stateId) ::
         s in r[name] && r[name][s] == states[name][s])
  {
    RegisteredFiled(states, name, cfgs);
    RegisteredKeepsOwn(states, name, cfgs);
    forall m | m != name
      ensures var r := Registered(states, name, cfgs); (m in r <==> m in states) && (m in r ==> r[m] == states[m])
    {
      RegisteredOthers(states, name, cfgs, m);
    }
  }

  /** Each registered configuration is filed under its own id. */
  lemma {:induction false} RegisteredFiled<P, D>(states: map<string, map<string, NpcStates.StateConfig<P, D>>>,
                                                 name: string, cfgs: seq<NpcStates.StateConfig<P, D>>)
    requires DistinctIds(cfgs)
    ensures var r := Registered(states, name, cfgs);
      (|cfgs| > 0 ==> name in r) &&
      forall i | 0 <= i < |cfgs| :: cfgs[i].stateId in r[name] && r[name][cfgs[i].stateId] == cfgs[i]
    decreases |cfgs|
  {
    if cfgs != [] {
      var init := cfgs[..|cfgs| - 1];
      var c := cfgs[|cfgs| - 1];
      assert forall i | 0 <= i < |init| :: init[i] == cfgs[i] && init[i].stateId != c.stateId;
      assert DistinctIds(init);
      RegisteredFiled(states, name, init);
    }
  }

  /** The NPC's earlier states whose ids are not registered again stay as they were. */
  lemma {:induction false} RegisteredKeepsOwn<P, D>(states: map<string, map<string, NpcStates.StateConfig<P, D>>>,
                                                    name: string, cfgs: seq<NpcStates.StateConfig<P, D>>)
    ensures var r := Registered(states, name, cfgs);
      name in states ==> name in r && forall s | s in states[name] && s !in (set c | c in cfgs :: c.stateId) ::
        s in r[name] && r[name][s] == states[name][s]
    decreases |cfgs|
  {
    if cfgs != [] {
      var init := cfgs[..|cfgs| - 1];
      assert (set x | x in init :: x.stateId) <= (set x | x in cfgs :: x.stateId);
      RegisteredKeepsOwn(states, name, init);
    }
  }

  /** Registering under one name leaves every other NPC's configurations as they were. */
  lemma {:induction false} RegisteredOthers<P, D>(states: map<string, map<string, NpcStates.StateConfig<P, D>>>,
                                                  name: string, cfgs: seq<NpcStates.StateConfig<P, D>>, other: string)
    requires other != name
    ensures other in Registered(states, name, cfgs) <==> other in states
    ensures other in states ==> Registered(states, name, cfgs)[other] == states[other]
    decreases |cfgs|
  {
    if cfgs != [] {
      RegisteredOthers(states, name, cfgs[..|cfgs| - 1], other);
    }
  }

  /** The states of one NPC filed by id, as registering cfgs in order leaves them. */
  function ConfigMap<P, D>(cfgs: seq<NpcStates.StateConfig<P, D>>): map<string, NpcStates.StateConfig<P, D>>
    decreases |cfgs|
  {
    if cfgs == [] then map[]
    else ConfigMap(cfgs[..|cfgs| - 1])[cfgs[|cfgs| - 1].stateId := cfgs[|cfgs| - 1]]
  }

  /** Registering under a name not seen before files exactly ConfigMap(cfgs) under it. */
  lemma {:induction false} RegisteredFresh<P, D>(states: map<string, map<string, NpcStates.StateConfig<P, D>>>,
                                                 name: string, cfgs: seq<NpcStates.StateConfig<P, D>>)
    requires name !in states && cfgs != []
    ensures name in Registered(states, name, cfgs) && Registered(states, name, cfgs)[name] == ConfigMap(cfgs)
    decreases |cfgs|
  {
    var init := cfgs[..|cfgs| - 1];
    if init != [] {
      RegisteredFresh(states, name, init);
    }
  }

  /** With distinct ids each configuration is found under its own id. */
  lemma {:induction false} ConfigMapLookup<P, D>(cfgs: seq<NpcStates.StateConfig<P, D>>, i: int)
    requires DistinctIds(cfgs) && 0 <= i < |cfgs|
    ensures cfgs[i].stateId in ConfigMap(cfgs) && ConfigMap(cfgs)[cfgs[i].stateId] == cfgs[i]
    decreases |cfgs|
  {
    var init := cfgs[..|cfgs| - 1];
    if i < |cfgs| - 1 {
      assert DistinctIds(init);
      assert init[i] == cfgs[i];
      ConfigMapLookup(init, i);
    }
  }

  /**
   * register_npc_states of a content module: each configuration is
   * registered in list order under the same NPC name; registration never
   * chooses a current state and leaves each registered state NOT_STARTED.
   */
  method RegisterAll<P, D>(m: NpcStates.NpcStateManager<P, D>, name: string, cfgs: seq<NpcStates.StateConfig<P, D>>)
    requires m.Valid()
    modifies m`states, m`npcOrder, m`stateOrder, m`completion
    ensures m.Valid()
    ensures m.states == Registered(old(m.states), name, cfgs)
    ensures m.current == old(m.current)
    ensures forall c | c in cfgs :: NpcStates.CompletionIn(m.completion, name, c.stateId) == NpcStates.NotStarted
    ensures forall n, s | n != name :: NpcStates.CompletionIn(m.completion, n, s) == NpcStates.CompletionIn(old(m.completion), n, s)
  {
    var k := 0;
    while k < |cfgs|
      invariant 0 <= k <= |cfgs|
      invariant m.Valid() && m.current == old(m.current)
      invariant m.states == Registered(old(m.states), name, cfgs[..k])
      invariant k > 0 ==> name in m.states
      invariant forall j | 0 <= j < k :: NpcStates.CompletionIn(m.completion, name, cfgs[j].stateId) == NpcStates.NotStarted
      invariant forall n, s | n != name :: NpcStates.CompletionIn(m.completion, n, s) == NpcStates.CompletionIn(old(m.completion), n, s)
    {
      ghost var comp0 := m.completion;
      ghost var inner := if name in m.states then m.completion[name] else map[];
      RegisterStep(old(m.states), name, cfgs, k);
      m.Register(name, cfgs[k]);
      RegisterCompletionStep(comp0, m.completion, inner, name, cfgs, k);
      k := k + 1;
    }
    assert cfgs[..|cfgs|] == cfgs;
  }

  lemma RegisterStep<P, D>(states0: map<string, map<string, NpcStates.StateConfig<P, D>>>, name: string,
                           cfgs: seq<NpcStates.StateConfig<P, D>>, k: int)
    requires 0 <= k < |cfgs|
    ensures var s := Registered(states0, name, cfgs[..k]); var c := cfgs[k];
      Registered(states0, name, cfgs[..k + 1]) == s[name := (if name in s then s[name] else map[])[c.stateId := c]]
  {
    assert cfgs[..k + 1][..k] == cfgs[..k];
  }

  lemma RegisterCompletionStep<P, D>(comp0: NpcStates.CompMap, comp1: NpcStates.CompMap, inner: map<string, NpcStates.Completion>, name: string,
                                     cfgs: seq<NpcStates.StateConfig<P, D>>, k: int)
    requires 0 <= k < |cfgs|
    requires k > 0 ==> name in comp0
    requires forall j | 0 <= j < k :: NpcStates.CompletionIn(comp0, name, cfgs[j].stateId) == NpcStates.NotStarted
    requires k > 0 ==> inner == comp0[name]
    requires comp1 == comp0[name := inner[cfgs[k].stateId := NpcStates.NotStarted]]
    ensures forall j | 0 <= j < k + 1 :: NpcStates.CompletionIn(comp1, name, cfgs[j].stateId) == NpcStates.NotStarted
    ensures forall n, s | n != name :: NpcStates.CompletionIn(comp1, n, s) == NpcStates.CompletionIn(comp0, n, s)
  {
  }

  // ---------------------------------------------------------------------
  // Scripted state changes
  // ---------------------------------------------------------------------

  /**
   * The completion map after a dialog action moves NPC n to state `to`:
   * `from` (when given) becomes COMPLETED and `to` IN_PROGRESS.
   */
  function Forced(comp: NpcStates.CompMap, n: string, from: Option<string>, to: string): NpcStates.CompMap
  {
    var c1 := if from.Some? then NpcStates.SetCompletionIn(comp, n, from.value, NpcStates.Completed) else comp;
    NpcStates.SetCompletionIn(c1, n, to, NpcStates.InProgress)
  }

  /** What a forced move does to the completion statuses, entry by entry. */
  lemma ForcedEffect(comp: NpcStates.CompMap, n: string, from: Option<string>, to: string)
    ensures NpcStates.CompletionIn(Forced(comp, n, from, to), n, to) == NpcStates.InProgress
    ensures from.Some? && from.value != to ==>
      NpcStates.CompletionIn(Forced(comp, n, from, to), n, from.value) == NpcStates.Completed
    ensures forall m, s | m != n || (s != to && (from.None? || s != from.value)) ::
      NpcStates.CompletionIn(Forced(comp, n, from, to), m, s) == NpcStates.CompletionIn(comp, m, s)
  {
  }

  /** The NOT_STARTED entry set_current_state may add for `to` is overwritten at once. */
  lemma ForcedAbsorbsPlaceholder(comp: NpcStates.CompMap, n: string, from: Option<string>, to: string)
    ensures Forced(NpcStates.SetCompletionIn(comp, n, to, NpcStates.NotStarted), n, from, to) == Forced(comp, n, from, to)
  {
    var inner := if n in comp then comp[n] else map[];
    var c0 := NpcStates.SetCompletionIn(comp, n, to, NpcStates.NotStarted);
    assert c0 == comp[n := inner[to := NpcStates.NotStarted]];
    ForcedUnfold(c0, n, from, to);
    ForcedUnfold(comp, n, from, to);
    if from.Some? {
      InnerPlaceholderAbsorbed(inner, from.value, to);
    } else {
      assert inner[to := NpcStates.NotStarted][to := NpcStates.InProgress] == inner[to := NpcStates.InProgress];
    }
  }

  /** A forced move rewrites only the NPC's own map. */
  lemma ForcedUnfold(comp: NpcStates.CompMap, n: string, from: Option<string>, to: string)
    ensures var inner := if n in comp then comp[n] else map[];
      var left := if from.Some? then inner[from.value := NpcStates.Completed] else inner;
      Forced(comp, n, from, to) == comp[n := left[to := NpcStates.InProgress]]
  {
  }

  /** Within one NPC's map, a placeholder for `to` is lost once `to` is written again. */
  lemma InnerPlaceholderAbsorbed(inner: map<string, NpcStates.Completion>, f: string, to: string)
    ensures inner[to := NpcStates.NotStarted][f := NpcStates.Completed][to := NpcStates.InProgress]
         == inner[f := NpcStates.Completed][to := NpcStates.InProgress]
  {
    var a := inner[to := NpcStates.NotStarted][f := NpcStates.Completed][to := NpcStates.InProgress];
    var b := inner[f := NpcStates.Completed][to := NpcStates.InProgress];
    assert a.Keys == b.Keys;
    forall k | k in a
      ensures a[k] == b[k]
    {
      if k != to && k != f {
        assert a[k] == inner[k] == b[k];
      }
    }
  }

  /**
   * set_current_state(name, to), then set_state_completion(name, from,
   * COMPLETED) when a state is left, then set_state_completion(name, to,
   * IN_PROGRESS): the scripted move of nieta.py's dialog actions.
   */
  method ForceState<P, D>(m: NpcStates.NpcStateManager<P, D>, name: string, from: Option<string>, to: string)
    requires m.Valid()
    modifies m`current, m`completion
    ensures m.Valid()
    ensures m.current == old(m.current)[old(m.Norm(name)) := to]
    ensures m.completion == Forced(old(m.completion), old(m.Norm(name)), from, to)
  {
    ghost var n := m.Norm(name);
    ghost var comp0 := m.completion;
    m.SetCurrentState(name, to);
    ForcedAbsorbsPlaceholder(comp0, n, from, to);
    if from.Some? {
      m.SetStateCompletion(name, from.value, NpcStates.Completed);
    }
    m.SetStateCompletion(name, to, NpcStates.InProgress);
  }

  /** Names that differ ignoring case normalise to different names. */
  lemma NormDistinct(keys: seq<string>, a: string, b: string)
    requires Lower(a) != Lower(b)
    ensures NpcStates.NormalizeIn(keys, a) != NpcStates.NormalizeIn(keys, b)
  {
    NpcStates.NormalizeResolution(keys, a);
    NpcStates.NormalizeResolution(keys, b);
  }

  // ---------------------------------------------------------------------
  // Marking events from dialog actions
  // ---------------------------------------------------------------------

  /**
   * The event ids register_all_game_events registers (game_events.py): the
   * only ids trigger_event accepts.
   */
  const GAME_EVENT_IDS: set<string> := {
    "stranger_floor5_met", "stranger_lobby_weapons_unlocked", "stranger_lobby_potions_unlocked",
    "stranger_help_accepted", "granddaughter_spawn_enabled", "granddaughter_found",
    "mision_capturar_nieta_started", "mision_nieta_ayudar_started", "nieta_obligada", "nieta_ayudando"}

  /** The triggered set after trigger_event(id, skip_conditions=True) with `registered` the known ids. */
  function Triggering(registered: set<string>, triggered: set<string>, id: string): (t: set<string>)
    ensures id in t <==> id in triggered || id in registered
    ensures triggered <= t <= triggered + {id}
  {
    if id in registered then triggered + {id} else triggered
  }

  /** The triggered set after trigger_event(id, skip_conditions=True) for each id in turn. */
  function TriggeringEach(registered: set<string>, triggered: set<string>, ids: seq<string>): set<string>
    decreases |ids|
  {
    if ids == [] then triggered
    else Triggering(registered, TriggeringEach(registered, triggered, ids[..|ids| - 1]), ids[|ids| - 1])
  }

  /** A run of unconditional triggers adds exactly the registered ids among them. */
  lemma {:induction false} TriggeringEachAdds(registered: set<string>, triggered: set<string>, ids: seq<string>)
    ensures TriggeringEach(registered, triggered, ids) == triggered + (set id | id in ids && id in registered)
    decreases |ids|
  {
    if ids != [] {
      var init := ids[..|ids| - 1];
      TriggeringEachAdds(registered, triggered, init);
      assert ids == init + [ids[|ids| - 1]];
      assert (set id | id in ids && id in registered) ==
        (set id | id in init && id in registered) + (if ids[|ids| - 1] in registered then {ids[|ids| - 1]} else {});
    }
  }

  /**
   * Ids the content triggers with trigger_event although no event with that
   * id is ever registered: with the shipped registrations the trigger is
   * refused and the id never becomes triggered that way.
   */
  lemma UnregisteredTriggersRefused(triggered: set<string>)
    ensures forall id | id in {"first_gold_pickup", "alchemist_greeting_done", "librarian_dungeon_met", "librarian_lobby_dialog_completed",
                               "stranger_indignado", "nieta_descubierta", "nieta_veneno_entregado"} ::
      id !in GAME_EVENT_IDS && Triggering(GAME_EVENT_IDS, triggered, id) == triggered
  {
  }

  /**
   * `if not event_manager.is_event_triggered(id): trigger_event(id, ...,
   * skip_conditions=True)` as the dialog actions write it: an id the
   * manager has not registered is refused and stays untriggered.
   */
  method TriggerOnce<W>(em: Events.EventManager<W>, id: string, w: W) returns (w': W)
    requires em.Valid()
    modifies em`status, em`triggered
    ensures em.Valid()
    ensures em.triggered == Triggering(em.events.Keys, old(em.triggered), id)
    ensures em.status == if id in old(em.triggered) || id !in em.events then old(em.status)
                         else old(em.status)[id := Events.Triggered]
    ensures id in old(em.triggered) || id !in em.events ==> w' == w
    ensures em.events == old(em.events) && em.runCount == old(em.runCount) && em.data == old(em.data)
  {
    w' := w;
    if !em.IsEventTriggered(id) {
      var _, w1 := em.Trigger(id, w, true);
      w' := w1;
    }
  }

  /**
   * What those actions evidently intend: afterwards the event counts as
   * triggered.  A registered event is triggered as before (running its
   * actions); an unregistered id is added to the triggered set directly, as
   * the looting actions and the death handler do.
   */
  method MarkTriggered<W>(em: Events.EventManager<W>, id: string, w: W) returns (w': W)
    requires em.Valid()
    modifies em`status, em`triggered
    ensures em.Valid()
    ensures em.triggered == old(em.triggered) + {id}
    ensures em.status == if id in old(em.triggered) || id !in em.events then old(em.status)
                         else old(em.status)[id := Events.Triggered]
    ensures em.events == old(em.events) && em.runCount == old(em.runCount) && em.data == old(em.data)
  {
    w' := w;
    if !em.IsEventTriggered(id) {
      if id in em.events {
        var _, w1 := em.Trigger(id, w, true);
        w' := w1;
      } else {
        em.triggered := em.triggered + {id};
      }
    }
  }

  /** `event_manager.triggered_events.add(id)` */
  method AddTriggered<W>(em: Events.EventManager<W>, id: string)
    requires em.Valid()
    modifies em`triggered
    ensures em.Valid()
    ensures em.triggered == old(em.triggered) + {id}
  {
    em.triggered := em.triggered + {id};
  }
}
