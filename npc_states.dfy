/*
 * The NPC finite-state machine (systems/npc_states.py).
 *
 * The manager keeps, per NPC name, the registered state configurations
 * (in registration order), the NPC's current state and a completion status
 * per state.  Transition guards and spawn conditions are supplied by the
 * content: a guard sees an optional view of the player and the event store,
 * and answers with an Outcome; a spawn condition sees the dungeon floor,
 * the event store and the result of a random draw.
 *
 * Guards are called with no player in the spawn paths; those paths count
 * a raised TypeError/AttributeError as "false", while check_and_transition
 * lets it propagate (TransitionResult.Raised).
 */
module NpcStates {
  import opened Common
  import Events

  datatype Completion = NotStarted | InProgress | Completed | Locked

  /**
   * What calling a transition guard does: it holds, it fails, it fails
   * after setting the completion of (npc, state) to IN_PROGRESS (the one
   * side effect a shipped guard has), or it raises.
   */
  datatype Outcome = Holds | Fails | FailsResetting(npc: string, state: string) | Raises

  datatype Transition<!P> = Transition(
    target: string,
    condition: (Option<P>, Events.EventState) -> Outcome,
    description: string)

  /** NPCStateConfig; `glyph` is the ASCII fallback character. */
  datatype StateConfig<!P, D> = StateConfig(
    stateId: string,
    zoneType: Option<string>,
    floor: Option<int>,
    position: Option<(int, int)>,
    glyph: string,
    color: string,
    dialog: Option<Events.EventState -> D>,
    completedDialog: Option<Events.EventState -> D>,
    transitions: seq<Transition<P>>,
    completionCondition: Option<(Option<P>, Events.EventState) -> bool>,
    spawnCondition: Option<(Option<int>, Events.EventState, bool) -> bool>)

  /** A configuration with every keyword left at its default. */
  function NewConfig<P, D>(stateId: string): (c: StateConfig<P, D>)
    ensures c.stateId == stateId && c.zoneType.None? && c.floor.None? && c.position.None?
    ensures c.glyph == "?" && c.color == "white" && c.transitions == []
    ensures c.dialog.None? && c.completedDialog.None?
    ensures c.completionCondition.None? && c.spawnCondition.None?
  {
    StateConfig(stateId, None, None, None, "?", "white", None, None, [], None, None)
  }

  type CompMap = map<string, map<string, Completion>>

  // ---------------------------------------------------------------------
  // Name normalisation
  // ---------------------------------------------------------------------

  /** `a.lower() == b.lower()` */
  predicate EqualIgnoringCase(a: string, b: string)
  {
    Lower(a) == Lower(b)
  }

  /** The first key from index k on that equals `name` ignoring case, or `name`. */
  function FirstCaseMatch(keys: seq<string>, name: string, k: nat): string
    decreases |keys| - k
  {
    if k >= |keys| then name
    else if EqualIgnoringCase(keys[k], name) then keys[k]
    else FirstCaseMatch(keys, name, k + 1)
  }

  /** normalize_npc_name over the registered names `keys`, in dict order. */
  function NormalizeIn(keys: seq<string>, name: string): string
  {
    if name in keys then name else FirstCaseMatch(keys, name, 0)
  }

  lemma {:induction false} FirstCaseMatchSpec(keys: seq<string>, name: string, k: nat)
    requires k <= |keys|
    ensures var r := FirstCaseMatch(keys, name, k);
      (r == name && forall i | k <= i < |keys| :: !EqualIgnoringCase(keys[i], name)) ||
      (exists i | k <= i < |keys| :: r == keys[i] && EqualIgnoringCase(keys[i], name) &&
         forall j | k <= j < i :: !EqualIgnoringCase(keys[j], name))
    decreases |keys| - k
  {
    if k < |keys| {
      if EqualIgnoringCase(keys[k], name) {
        assert FirstCaseMatch(keys, name, k) == keys[k];
      } else {
        FirstCaseMatchSpec(keys, name, k + 1);
      }
    }
  }

  /**
   * Resolution order: the exact key; else the first key (in registration
   * order) equal ignoring case; else the name unchanged.
   */
  lemma NormalizeResolution(keys: seq<string>, name: string)
    ensures name in keys ==> NormalizeIn(keys, name) == name
    ensures name !in keys ==>
      (NormalizeIn(keys, name) == name && forall i | 0 <= i < |keys| :: !EqualIgnoringCase(keys[i], name)) ||
      (exists i | 0 <= i < |keys| :: NormalizeIn(keys, name) == keys[i] && EqualIgnoringCase(keys[i], name) &&
         forall j | 0 <= j < i :: !EqualIgnoringCase(keys[j], name))
  {
    FirstCaseMatchSpec(keys, name, 0);
  }

  /** Normalising a normalised name changes nothing. */
  lemma NormalizeIdempotent(keys: seq<string>, name: string)
    ensures NormalizeIn(keys, NormalizeIn(keys, name)) == NormalizeIn(keys, name)
  {
    FirstCaseMatchSpec(keys, name, 0);
  }

  // ---------------------------------------------------------------------
  // Completion map
  // ---------------------------------------------------------------------

  /** get_state_completion: NOT_STARTED when there is no entry. */
  function CompletionIn(comp: CompMap, n: string, s: string): Completion
  {
    if n in comp && s in comp[n] then comp[n][s] else NotStarted
  }

  /** set_state_completion on an already normalised name. */
  function SetCompletionIn(comp: CompMap, n: string, s: string, c: Completion): (r: CompMap)
    ensures CompletionIn(r, n, s) == c
    ensures forall m, t | m != n || t != s :: CompletionIn(r, m, t) == CompletionIn(comp, m, t)
    ensures r.Keys == comp.Keys + {n}
    ensures forall m | m in comp :: comp[m].Keys <= r[m].Keys
  {
    comp[n := (if n in comp then comp[n] else map[])[s := c]]
  }

  /** The side effect of a guard's outcome on the completion map. */
  function ApplyOutcome(keys: seq<string>, comp: CompMap, o: Outcome): CompMap
  {
    if o.FailsResetting? then SetCompletionIn(comp, NormalizeIn(keys, o.npc), o.state, InProgress) else comp
  }

  /** `b` agrees with `a` except on entries that `b` has as IN_PROGRESS. */
  ghost predicate OnlyResets(a: CompMap, b: CompMap)
  {
    a.Keys <= b.Keys && (forall m | m in a :: a[m].Keys <= b[m].Keys) &&
    forall m, t :: CompletionIn(b, m, t) == CompletionIn(a, m, t) || CompletionIn(b, m, t) == InProgress
  }

  lemma OnlyResetsTrans(a: CompMap, b: CompMap, c: CompMap)
    requires OnlyResets(a, b) && OnlyResets(b, c)
    ensures OnlyResets(a, c)
  {
  }

  lemma ApplyOutcomeOnlyResets(keys: seq<string>, comp: CompMap, o: Outcome)
    ensures OnlyResets(comp, ApplyOutcome(keys, comp, o))
  {
  }

  // ---------------------------------------------------------------------
  // Dialog selection
  // ---------------------------------------------------------------------

  /**
   * get_dialog_for_state once the configuration is found: the short dialog
   * when the stored completion is COMPLETED and one exists, else the main
   * dialog, else the short dialog, else nothing.
   */
  function DialogFor<P, D>(cfg: StateConfig<P, D>, c: Completion, ev: Events.EventState): (r: Option<D>)
    ensures r.None? <==> cfg.dialog.None? && cfg.completedDialog.None?
    ensures r.Some? ==> (cfg.dialog.Some? && r.value == cfg.dialog.value(ev)) ||
                        (cfg.completedDialog.Some? && r.value == cfg.completedDialog.value(ev))
    ensures c == Completed && cfg.completedDialog.Some? ==> r == Some(cfg.completedDialog.value(ev))
    ensures c != Completed && cfg.dialog.Some? ==> r == Some(cfg.dialog.value(ev))
  {
    if c == Completed && cfg.completedDialog.Some? then Some(cfg.completedDialog.value(ev))
    else if cfg.dialog.Some? then Some(cfg.dialog.value(ev))
    else if cfg.completedDialog.Some? then Some(cfg.completedDialog.value(ev))
    else None
  }

  // ---------------------------------------------------------------------
  // check_and_transition
  // ---------------------------------------------------------------------

  datatype TransitionResult = NoTransition | Moved(target: string) | Raised

  datatype TStep = TStep(result: TransitionResult, comp: CompMap)

  /** Everything a transition scan reads but does not change. */
  datatype TransCtx<!P, D> = TransCtx(
    keys: seq<string>,
    cfgs: map<string, StateConfig<P, D>>,
    fromZone: Option<string>,
    player: P,
    ev: Events.EventState,
    onlyCrossZone: bool)

  /** With only_cross_zone, a holding transition to a same-zone state is deferred. */
  predicate DeferredToSpawn<P, D>(x: TransCtx<P, D>, t: Transition<P>)
  {
    x.onlyCrossZone && t.target in x.cfgs && x.cfgs[t.target].zoneType == x.fromZone
  }

  /** The guard at index i is followed: it holds and is not deferred. */
  predicate Taken<P, D>(x: TransCtx<P, D>, ts: seq<Transition<P>>, i: int)
    requires 0 <= i < |ts|
  {
    ts[i].condition(Some(x.player), x.ev) == Holds && !DeferredToSpawn(x, ts[i])
  }

  predicate RaisesAt<P, D>(x: TransCtx<P, D>, ts: seq<Transition<P>>, i: int)
    requires 0 <= i < |ts|
  {
    ts[i].condition(Some(x.player), x.ev) == Raises
  }

  /** The scan of the transition list from index k, threading guard side effects. */
  function TransitionFrom<P, D>(x: TransCtx<P, D>, ts: seq<Transition<P>>, k: nat, comp: CompMap): TStep
    decreases |ts| - k
  {
    if k >= |ts| then TStep(NoTransition, comp)
    else
      var o := ts[k].condition(Some(x.player), x.ev);
      if o == Raises then TStep(Raised, comp)
      else if o == Holds && !DeferredToSpawn(x, ts[k]) then TStep(Moved(ts[k].target), comp)
      else TransitionFrom(x, ts, k + 1, ApplyOutcome(x.keys, comp, o))
  }

  /**
   * The scan follows the first transition, in list order, that is taken, and
   * stops at the first guard that raises; guards only ever reset entries.
   */
  lemma TransitionFromFirst<P, D>(x: TransCtx<P, D>, ts: seq<Transition<P>>, k: nat, comp: CompMap)
    requires k <= |ts|
    ensures var r := TransitionFrom(x, ts, k, comp);
      OnlyResets(comp, r.comp) &&
      (r.result.Moved? ==> exists j | k <= j < |ts| ::
         Taken(x, ts, j) && ts[j].target == r.result.target &&
         forall i | k <= i < j :: !Taken(x, ts, i) && !RaisesAt(x, ts, i)) &&
      (r.result.Raised? ==> exists j | k <= j < |ts| ::
         RaisesAt(x, ts, j) && forall i | k <= i < j :: !Taken(x, ts, i) && !RaisesAt(x, ts, i)) &&
      (r.result.NoTransition? ==> forall i | k <= i < |ts| :: !Taken(x, ts, i) && !RaisesAt(x, ts, i))
  {
    TransitionFromResets(x, ts, k, comp);
    TransitionFromChoice(x, ts, k, comp);
  }

  /** Guards met during the scan only ever reset entries. */
  lemma {:induction false} TransitionFromResets<P, D>(x: TransCtx<P, D>, ts: seq<Transition<P>>, k: nat, comp: CompMap)
    requires k <= |ts|
    ensures OnlyResets(comp, TransitionFrom(x, ts, k, comp).comp)
    decreases |ts| - k
  {
    if k < |ts| {
      var o := ts[k].condition(Some(x.player), x.ev);
      if o != Raises && !(o == Holds && !DeferredToSpawn(x, ts[k])) {
        var comp' := ApplyOutcome(x.keys, comp, o);
        TransitionFromResets(x, ts, k + 1, comp');
        ApplyOutcomeOnlyResets(x.keys, comp, o);
        OnlyResetsTrans(comp, comp', TransitionFrom(x, ts, k + 1, comp').comp);
      }
    }
  }

  /** The scan's result is decided by the first transition that is taken or raises. */
  lemma {:induction false} TransitionFromChoice<P, D>(x: TransCtx<P, D>, ts: seq<Transition<P>>, k: nat, comp: CompMap)
    requires k <= |ts|
    ensures var r := TransitionFrom(x, ts, k, comp);
      (r.result.Moved? ==> exists j | k <= j < |ts| ::
         Taken(x, ts, j) && ts[j].target == r.result.target &&
         forall i | k <= i < j :: !Taken(x, ts, i) && !RaisesAt(x, ts, i)) &&
      (r.result.Raised? ==> exists j | k <= j < |ts| ::
         RaisesAt(x, ts, j) && forall i | k <= i < j :: !Taken(x, ts, i) && !RaisesAt(x, ts, i)) &&
      (r.result.NoTransition? ==> forall i | k <= i < |ts| :: !Taken(x, ts, i) && !RaisesAt(x, ts, i))
    decreases |ts| - k
  {
    if k < |ts| {
      var o := ts[k].condition(Some(x.player), x.ev);
      if o == Raises {
        assert RaisesAt(x, ts, k);
      } else if o == Holds && !DeferredToSpawn(x, ts[k]) {
        assert Taken(x, ts, k);
      } else {
        TransitionFromChoice(x, ts, k + 1, ApplyOutcome(x.keys, comp, o));
      }
    }
  }

  /** Without guard side effects, a scan that finds nothing changes nothing. */
  lemma {:induction false} TransitionFromPure<P, D>(x: TransCtx<P, D>, ts: seq<Transition<P>>, k: nat, comp: CompMap)
    requires k <= |ts|
    requires forall i | k <= i < |ts| :: !ts[i].condition(Some(x.player), x.ev).FailsResetting?
    ensures TransitionFrom(x, ts, k, comp).comp == comp
    decreases |ts| - k
  {
    if k < |ts| {
      TransitionFromPure(x, ts, k + 1, comp);
    }
  }

  // ---------------------------------------------------------------------
  // Spawn-state decision
  // ---------------------------------------------------------------------

  /**
   * _floor_matches_for_spawn: a fixed floor must equal the zone's floor and
   * then the spawn condition decides if there is one; with no fixed floor a
   * spawn condition is required and decides.
   */
  function FloorMatches<P, D>(cfg: StateConfig<P, D>, floor: Option<int>, ev: Events.EventState, lucky: bool): (r: bool)
    ensures r ==> cfg.floor.Some? || cfg.spawnCondition.Some?
    ensures r ==> cfg.floor.None? || cfg.floor == floor
    ensures r ==> cfg.spawnCondition.None? || cfg.spawnCondition.value(floor, ev, lucky)
    ensures cfg.floor.Some? || cfg.spawnCondition.Some? ==>
      (cfg.floor.None? || cfg.floor == floor) && (cfg.spawnCondition.None? || cfg.spawnCondition.value(floor, ev, lucky)) ==> r
  {
    if cfg.floor.Some? then
      if cfg.floor != floor then false
      else if cfg.spawnCondition.Some? then cfg.spawnCondition.value(floor, ev, lucky)
      else true
    else if cfg.spawnCondition.None? then false
    else cfg.spawnCondition.value(floor, ev, lucky)
  }

  /** Everything a spawn decision for one NPC reads but does not change. */
  datatype SpawnCtx<!P, D> = SpawnCtx(
    keys: seq<string>,
    n: string,
    cfgs: map<string, StateConfig<P, D>>,
    ord: seq<string>,
    zoneType: string,
    floor: Option<int>,
    ev: Events.EventState,
    lucky: bool)

  ghost predicate WellFormed<P, D>(c: SpawnCtx<P, D>)
  {
    forall s | s in c.ord :: s in c.cfgs
  }

  datatype Step = Step(found: Option<string>, comp: CompMap)
  datatype Verdict = Verdict(ok: bool, comp: CompMap)

  /** A transition out of a completed current state may be followed at spawn. */
  predicate SpawnEligible<P, D>(c: SpawnCtx<P, D>, t: Transition<P>)
  {
    t.target in c.cfgs && c.cfgs[t.target].zoneType == Some(c.zoneType) &&
    (c.zoneType == "dungeon" ==> FloorMatches(c.cfgs[t.target], c.floor, c.ev, c.lucky))
  }

  /** Deferred transitions out of a COMPLETED current state, from index k. */
  function DeferredFrom<P, D>(c: SpawnCtx<P, D>, ts: seq<Transition<P>>, k: nat, comp: CompMap): Step
    decreases |ts| - k
  {
    if k >= |ts| then Step(None, comp)
    else if !SpawnEligible(c, ts[k]) then DeferredFrom(c, ts, k + 1, comp)
    else
      var o := ts[k].condition(None, c.ev);
      if o == Holds then Step(Some(ts[k].target), comp)
      else DeferredFrom(c, ts, k + 1, ApplyOutcome(c.keys, comp, o))
  }

  /**
   * The deferred scan picks the first eligible transition whose guard holds
   * with no player; guards that raise or fail are passed over.
   */
  lemma {:induction false} DeferredFromFirst<P, D>(c: SpawnCtx<P, D>, ts: seq<Transition<P>>, k: nat, comp: CompMap)
    requires k <= |ts|
    ensures var r := DeferredFrom(c, ts, k, comp);
      OnlyResets(comp, r.comp) &&
      (r.found.Some? ==> exists j | k <= j < |ts| ::
         SpawnEligible(c, ts[j]) && ts[j].condition(None, c.ev) == Holds && ts[j].target == r.found.value &&
         forall i | k <= i < j :: !(SpawnEligible(c, ts[i]) && ts[i].condition(None, c.ev) == Holds)) &&
      (r.found.None? ==> forall i | k <= i < |ts| :: !(SpawnEligible(c, ts[i]) && ts[i].condition(None, c.ev) == Holds))
    decreases |ts| - k
  {
    if k < |ts| {
      if !SpawnEligible(c, ts[k]) {
        DeferredFromFirst(c, ts, k + 1, comp);
      } else {
        var o := ts[k].condition(None, c.ev);
        if o != Holds {
          var comp' := ApplyOutcome(c.keys, comp, o);
          DeferredFromFirst(c, ts, k + 1, comp');
          ApplyOutcomeOnlyResets(c.keys, comp, o);
          OnlyResetsTrans(comp, comp', DeferredFrom(c, ts, k + 1, comp').comp);
        }
      }
    }
  }

  /** The states of the NPC whose zone_type is the zone's, in registration order. */
  function ZoneStates<P, D>(cfgs: map<string, StateConfig<P, D>>, ord: seq<string>, zoneType: string): (zs: seq<string>)
    requires forall s | s in ord :: s in cfgs
    ensures forall s | s in zs :: s in ord && cfgs[s].zoneType == Some(zoneType)
    ensures forall s | s in ord && cfgs[s].zoneType == Some(zoneType) :: s in zs
  {
    if ord == [] then []
    else (if cfgs[ord[0]].zoneType == Some(zoneType) then [ord[0]] else []) + ZoneStates(cfgs, ord[1..], zoneType)
  }

  /** Same-zone predecessors of s contributed by the transitions ts[..j] of state `other`. */
  function SameFrom<P>(sameZone: bool, other: string, ts: seq<Transition<P>>, s: string, j: nat): seq<string>
    requires j <= |ts|
  {
    if j == 0 then []
    else SameFrom(sameZone, other, ts, s, j - 1) + (if sameZone && ts[j - 1].target == s then [other] else [])
  }

  /** Cross-zone incoming transitions of s among ts[..j] of a state of another zone. */
  function CrossFrom<P>(sameZone: bool, ts: seq<Transition<P>>, s: string, j: nat): seq<Transition<P>>
    requires j <= |ts|
  {
    if j == 0 then []
    else CrossFrom(sameZone, ts, s, j - 1) + (if !sameZone && ts[j - 1].target == s then [ts[j - 1]] else [])
  }

  function SameZoneOf<P, D>(c: SpawnCtx<P, D>, other: string): bool
    requires other in c.cfgs
  {
    c.cfgs[other].zoneType == Some(c.zoneType)
  }

  /** Same-zone predecessors of s among the states ord[..k], in dict order. */
  function SameIncoming<P, D>(c: SpawnCtx<P, D>, s: string, k: nat): seq<string>
    requires WellFormed(c) && k <= |c.ord|
  {
    if k == 0 then []
    else
      var o := c.ord[k - 1];
      SameIncoming(c, s, k - 1) + SameFrom(SameZoneOf(c, o), o, c.cfgs[o].transitions, s, |c.cfgs[o].transitions|)
  }

  /** Cross-zone incoming transitions of s among the states ord[..k], in dict order. */
  function CrossIncoming<P, D>(c: SpawnCtx<P, D>, s: string, k: nat): seq<Transition<P>>
    requires WellFormed(c) && k <= |c.ord|
  {
    if k == 0 then []
    else
      var o := c.ord[k - 1];
      CrossIncoming(c, s, k - 1) + CrossFrom(SameZoneOf(c, o), c.cfgs[o].transitions, s, |c.cfgs[o].transitions|)
  }

  /** Some same-zone predecessor is COMPLETED (the `any(...)` of the source). */
  predicate AnyCompleted(comp: CompMap, n: string, preds: seq<string>)
  {
    exists i | 0 <= i < |preds| :: CompletionIn(comp, n, preds[i]) == Completed
  }

  /** The cross-zone guards from index k: the first that holds makes the state valid. */
  function CrossValidFrom<P, D>(c: SpawnCtx<P, D>, cross: seq<Transition<P>>, k: nat, comp: CompMap): Verdict
    decreases |cross| - k
  {
    if k >= |cross| then Verdict(false, comp)
    else
      var o := cross[k].condition(None, c.ev);
      if o == Holds then Verdict(true, comp)
      else CrossValidFrom(c, cross, k + 1, ApplyOutcome(c.keys, comp, o))
  }

  lemma {:induction false} CrossValidFromSpec<P, D>(c: SpawnCtx<P, D>, cross: seq<Transition<P>>, k: nat, comp: CompMap)
    requires k <= |cross|
    ensures var v := CrossValidFrom(c, cross, k, comp);
      OnlyResets(comp, v.comp) &&
      (v.ok <==> exists i | k <= i < |cross| :: cross[i].condition(None, c.ev) == Holds)
    decreases |cross| - k
  {
    if k < |cross| {
      var o := cross[k].condition(None, c.ev);
      if o != Holds {
        var comp' := ApplyOutcome(c.keys, comp, o);
        CrossValidFromSpec(c, cross, k + 1, comp');
        ApplyOutcomeOnlyResets(c.keys, comp, o);
        OnlyResetsTrans(comp, comp', CrossValidFrom(c, cross, k + 1, comp').comp);
      }
    }
  }

  /** The zone-level spawn filter of one candidate state. */
  predicate SpawnFilter<P, D>(c: SpawnCtx<P, D>, s: string)
    requires s in c.cfgs
  {
    var cfg := c.cfgs[s];
    (c.zoneType == "dungeon" ==> FloorMatches(cfg, c.floor, c.ev, c.lucky)) &&
    (c.zoneType != "dungeon" && cfg.spawnCondition.Some? ==> cfg.spawnCondition.value(None, c.ev, c.lucky))
  }

  /** Whether candidate s is an initial state, given the completion map as it is now. */
  function CheckCandidate<P, D>(c: SpawnCtx<P, D>, s: string, comp: CompMap): Step
    requires WellFormed(c) && s in c.cfgs
  {
    if !SpawnFilter(c, s) then Step(None, comp)
    else if CompletionIn(comp, c.n, s) == Locked then Step(None, comp)
    else
      var same := SameIncoming(c, s, |c.ord|);
      var cross := CrossIncoming(c, s, |c.ord|);
      if |same| > 0 && !AnyCompleted(comp, c.n, same) then Step(None, comp)
      else if |cross| > 0 then
        var v := CrossValidFrom(c, cross, 0, comp);
        Step(if v.ok then Some(s) else None, v.comp)
      else Step(Some(s), comp)
  }

  /** _find_initial_state_for_zone over the zone's states from index k. */
  function FindInitialFrom<P, D>(c: SpawnCtx<P, D>, zs: seq<string>, k: nat, comp: CompMap): Step
    requires WellFormed(c) && forall s | s in zs :: s in c.cfgs
    decreases |zs| - k
  {
    if k >= |zs| then Step(None, comp)
    else
      var r := CheckCandidate(c, zs[k], comp);
      if r.found.Some? then r else FindInitialFrom(c, zs, k + 1, r.comp)
  }

  /**
   * The declarative reading of an initial state: it passes the floor and
   * spawn filter, is not LOCKED, has a COMPLETED same-zone predecessor if it
   * has any, and some cross-zone guard into it holds if it has any.
   */
  ghost predicate IsInitial<P, D>(c: SpawnCtx<P, D>, s: string, comp: CompMap)
    requires WellFormed(c) && s in c.cfgs
  {
    var same := SameIncoming(c, s, |c.ord|);
    var cross := CrossIncoming(c, s, |c.ord|);
    SpawnFilter(c, s) && CompletionIn(comp, c.n, s) != Locked &&
    (|same| > 0 ==> AnyCompleted(comp, c.n, same)) &&
    (|cross| > 0 ==> exists i | 0 <= i < |cross| :: cross[i].condition(None, c.ev) == Holds)
  }

  /** s is the first state of zs that is an initial state. */
  ghost predicate FirstInitial<P, D>(c: SpawnCtx<P, D>, zs: seq<string>, s: string, comp: CompMap)
    requires WellFormed(c) && forall t | t in zs :: t in c.cfgs
  {
    exists j | 0 <= j < |zs| :: zs[j] == s && IsInitial(c, zs[j], comp) && forall i | 0 <= i < j :: !IsInitial(c, zs[i], comp)
  }

  lemma CheckCandidateSpec<P, D>(c: SpawnCtx<P, D>, s: string, comp: CompMap)
    requires WellFormed(c) && s in c.cfgs
    ensures var r := CheckCandidate(c, s, comp);
      OnlyResets(comp, r.comp) &&
      (r.found.Some? <==> IsInitial(c, s, comp)) && (r.found.Some? ==> r.found.value == s)
  {
    var cross := CrossIncoming(c, s, |c.ord|);
    CrossValidFromSpec(c, cross, 0, comp);
  }

  /**
   * The search returns a state of the zone that was an initial state when
   * it was examined; every state examined before it was not.  If no guard
   * into the zone's states has a side effect, this is the first initial state
   * in registration order.
   */
  lemma {:induction false} FindInitialFromSpec<P, D>(c: SpawnCtx<P, D>, zs: seq<string>, k: nat, comp: CompMap)
    requires WellFormed(c) && forall s | s in zs :: s in c.cfgs
    requires k <= |zs|
    ensures var r := FindInitialFrom(c, zs, k, comp);
      OnlyResets(comp, r.comp) &&
      (r.found.Some? ==> r.found.value in zs[k..]) &&
      (r.comp == comp ==>
        (r.found.Some? ==> exists j | k <= j < |zs| ::
           zs[j] == r.found.value && IsInitial(c, zs[j], comp) &&
           forall i | k <= i < j :: !IsInitial(c, zs[i], comp)) &&
        (r.found.None? ==> forall i | k <= i < |zs| :: !IsInitial(c, zs[i], comp)))
    decreases |zs| - k
  {
    if k < |zs| {
      var r0 := CheckCandidate(c, zs[k], comp);
      CheckCandidateSpec(c, zs[k], comp);
      if r0.found.None? {
        FindInitialFromSpec(c, zs, k + 1, r0.comp);
        var r := FindInitialFrom(c, zs, k + 1, r0.comp);
        OnlyResetsTrans(comp, r0.comp, r.comp);
        if r.comp == comp {
          OnlyResetsAntisym(comp, r0.comp);
        }
      }
    }
  }

  /** Guards met during the search only ever reset entries. */
  lemma {:induction false} FindInitialResets<P, D>(c: SpawnCtx<P, D>, zs: seq<string>, k: nat, comp: CompMap)
    requires WellFormed(c) && forall s | s in zs :: s in c.cfgs
    requires k <= |zs|
    ensures OnlyResets(comp, FindInitialFrom(c, zs, k, comp).comp)
    decreases |zs| - k
  {
    if k < |zs| {
      var r0 := CheckCandidate(c, zs[k], comp);
      CheckCandidateSpec(c, zs[k], comp);
      if r0.found.None? {
        FindInitialResets(c, zs, k + 1, r0.comp);
        OnlyResetsTrans(comp, r0.comp, FindInitialFrom(c, zs, k + 1, r0.comp).comp);
      }
    }
  }

  /** If a later map undoes nothing, the two maps are equal. */
  lemma OnlyResetsAntisym(a: CompMap, b: CompMap)
    requires OnlyResets(a, b) && OnlyResets(b, a)
    ensures a == b
  {
    forall m | m in a
      ensures a[m] == b[m]
    {
      assert a[m].Keys == b[m].Keys;
      forall t | t in a[m]
        ensures a[m][t] == b[m][t]
      {
        assert CompletionIn(a, m, t) == a[m][t] && CompletionIn(b, m, t) == b[m][t];
      }
    }
  }

  // ---------------------------------------------------------------------
  // Whole-manager specifications
  // ---------------------------------------------------------------------

  datatype FsmStep = FsmStep(result: TransitionResult, current: map<string, string>, comp: CompMap)

  /** check_and_transition on the manager's maps. */
  function TransitionSpec<P, D>(keys: seq<string>, states: map<string, map<string, StateConfig<P, D>>>,
                                current: map<string, string>, comp: CompMap,
                                name: string, player: P, ev: Events.EventState, onlyCrossZone: bool): FsmStep
  {
    var n := NormalizeIn(keys, name);
    if n !in current || current[n] == "" then FsmStep(NoTransition, current, comp)
    else if n !in states || current[n] !in states[n] then FsmStep(NoTransition, current, comp)
    else
      var cur := current[n];
      var cfg := states[n][cur];
      var t := TransitionFrom(TransCtx(keys, states[n], cfg.zoneType, player, ev, onlyCrossZone), cfg.transitions, 0, comp);
      if t.result.Moved? then
        FsmStep(t.result, current[n := t.result.target],
                SetCompletionIn(SetCompletionIn(t.comp, n, cur, Completed), n, t.result.target, InProgress))
      else FsmStep(t.result, current, t.comp)
  }

  datatype SpawnStep = SpawnStep(found: Option<string>, current: map<string, string>, comp: CompMap)

  ghost predicate OrdersCover<P, D>(states: map<string, map<string, StateConfig<P, D>>>, stateOrder: map<string, seq<string>>)
  {
    forall n | n in states :: n in stateOrder && forall s | s in stateOrder[n] :: s in states[n]
  }

  /** _get_spawn_state once a current state with a configuration is known. */
  function SpawnFromCurrent<P, D>(c: SpawnCtx<P, D>, current: map<string, string>, comp: CompMap, cur: string): SpawnStep
    requires cur in c.cfgs
  {
    var cfg := c.cfgs[cur];
    var d := if CompletionIn(comp, c.n, cur) == Completed && |cfg.transitions| > 0
             then DeferredFrom(c, cfg.transitions, 0, comp) else Step(None, comp);
    if d.found.Some? then
      SpawnStep(d.found, current[c.n := d.found.value], SetCompletionIn(d.comp, c.n, d.found.value, InProgress))
    else if cfg.zoneType == Some(c.zoneType) && (c.zoneType == "dungeon" ==> FloorMatches(cfg, c.floor, c.ev, c.lucky)) then
      SpawnStep(Some(cur), current, d.comp)
    else SpawnStep(None, current, d.comp)
  }

  /** _get_spawn_state on the manager's maps. */
  ghost function SpawnSpec<P, D>(keys: seq<string>, states: map<string, map<string, StateConfig<P, D>>>,
                                 stateOrder: map<string, seq<string>>, current: map<string, string>, comp: CompMap,
                                 name: string, zoneType: string, floor: Option<int>, ev: Events.EventState, lucky: bool): SpawnStep
    requires OrdersCover(states, stateOrder)
  {
    var n := NormalizeIn(keys, name);
    if n !in states || states[n] == map[] then SpawnStep(None, current, comp)
    else
      var c := SpawnCtx(keys, n, states[n], stateOrder[n], zoneType, floor, ev, lucky);
      if n in current && current[n] != "" && current[n] in states[n] then
        SpawnFromCurrent(c, current, comp, current[n])
      else
        SpawnInitial(c, current, comp)
  }

  /** _get_spawn_state with no usable current state: the search for an initial state of the zone. */
  function SpawnInitial<P, D>(c: SpawnCtx<P, D>, current: map<string, string>, comp: CompMap): SpawnStep
    requires WellFormed(c)
  {
    var f := FindInitialFrom(c, ZoneStates(c.cfgs, c.ord, c.zoneType), 0, comp);
    SpawnStep(f.found, current, f.comp)
  }

  /** The dialog chosen never depends on the configuration's completion_condition. */
  lemma DialogIgnoresCompletionCondition<P, D>(cfg: StateConfig<P, D>, cc: Option<(Option<P>, Events.EventState) -> bool>,
                                               c: Completion, ev: Events.EventState)
    ensures DialogFor(cfg.(completionCondition := cc), c, ev) == DialogFor(cfg, c, ev)
  {
  }

  /**
   * check_and_transition: with no current state, an empty one or one
   * without a configuration nothing changes; when it moves, the target is the
   * first taken transition's, it becomes current and IN_PROGRESS and the old
   * state COMPLETED (unless it is the target itself); otherwise the current
   * state is kept and guards have at most reset entries to IN_PROGRESS.
   */
  lemma TransitionSpecProperties<P, D>(keys: seq<string>, states: map<string, map<string, StateConfig<P, D>>>,
                                       current: map<string, string>, comp: CompMap,
                                       name: string, player: P, ev: Events.EventState, onlyCrossZone: bool)
    ensures var n := NormalizeIn(keys, name);
      var st := TransitionSpec(keys, states, current, comp, name, player, ev, onlyCrossZone);
      ((n !in current || current[n] == "" || n !in states || current[n] !in states[n]) ==>
         st == FsmStep(NoTransition, current, comp)) &&
      (st.result.Moved? ==>
         n in current && n in states && current[n] in states[n] &&
         var cur := current[n];
         var ts := states[n][cur].transitions;
         var x := TransCtx(keys, states[n], states[n][cur].zoneType, player, ev, onlyCrossZone);
         (exists j | 0 <= j < |ts| :: Taken(x, ts, j) && ts[j].target == st.result.target &&
            forall i | 0 <= i < j :: !Taken(x, ts, i) && !RaisesAt(x, ts, i)) &&
         st.current == current[n := st.result.target] &&
         CompletionIn(st.comp, n, st.result.target) == InProgress &&
         (st.result.target != cur ==> CompletionIn(st.comp, n, cur) == Completed)) &&
      (!st.result.Moved? ==> st.current == current && OnlyResets(comp, st.comp))
  {
    var n := NormalizeIn(keys, name);
    if n in current && current[n] != "" && n in states && current[n] in states[n] {
      var cfg := states[n][current[n]];
      TransitionFromFirst(TransCtx(keys, states[n], cfg.zoneType, player, ev, onlyCrossZone), cfg.transitions, 0, comp);
    } else {
      assert OnlyResets(comp, comp);
    }
  }

  /**
   * _get_spawn_state with a configured current state: a deferred transition
   * is followed only out of a COMPLETED state, to a state of this zone (and
   * floor) whose guard holds, and that state becomes current and IN_PROGRESS;
   * otherwise the current state is shown exactly when it belongs to this
   * zone (and floor), and the current state does not change.
   */
  lemma SpawnFromCurrentProperties<P, D>(c: SpawnCtx<P, D>, current: map<string, string>, comp: CompMap, cur: string)
    requires cur in c.cfgs
    ensures var st := SpawnFromCurrent(c, current, comp, cur);
      var cfg := c.cfgs[cur];
      (st.current != current ==>
         CompletionIn(comp, c.n, cur) == Completed && st.found.Some? &&
         st.current == current[c.n := st.found.value] &&
         CompletionIn(st.comp, c.n, st.found.value) == InProgress &&
         exists j | 0 <= j < |cfg.transitions| ::
           SpawnEligible(c, cfg.transitions[j]) && cfg.transitions[j].target == st.found.value &&
           cfg.transitions[j].condition(None, c.ev) == Holds) &&
      (CompletionIn(comp, c.n, cur) != Completed ==>
         st.current == current && st.comp == comp &&
         (st.found.Some? <==> (cfg.zoneType == Some(c.zoneType) &&
            (c.zoneType == "dungeon" ==> FloorMatches(cfg, c.floor, c.ev, c.lucky)))) &&
         (st.found.Some? ==> st.found.value == cur))
  {
    var cfg := c.cfgs[cur];
    if CompletionIn(comp, c.n, cur) == Completed && |cfg.transitions| > 0 {
      DeferredFromFirst(c, cfg.transitions, 0, comp);
    }
  }

  /**
   * _get_spawn_state with no usable current state: the state found belongs
   * to the zone, and when no guard had a side effect it is the first
   * initial state of the zone in registration order.
   */
  lemma SpawnInitialProperties<P, D>(c: SpawnCtx<P, D>, current: map<string, string>, comp: CompMap)
    requires WellFormed(c)
    ensures var st := SpawnInitial(c, current, comp);
      var zs := ZoneStates(c.cfgs, c.ord, c.zoneType);
      st.current == current && OnlyResets(comp, st.comp) &&
      (st.found.Some? ==> st.found.value in c.cfgs && c.cfgs[st.found.value].zoneType == Some(c.zoneType)) &&
      (st.comp == comp && st.found.Some? ==> FirstInitial(c, zs, st.found.value, comp)) &&
      (st.comp == comp && st.found.None? ==> forall i | 0 <= i < |zs| :: !IsInitial(c, zs[i], comp))
  {
    var zs := ZoneStates(c.cfgs, c.ord, c.zoneType);
    var f := FindInitialFrom(c, zs, 0, comp);
    assert SpawnInitial(c, current, comp) == SpawnStep(f.found, current, f.comp);
    assert zs[0..] == zs;
    FindInitialFromSpec(c, zs, 0, comp);
  }

  /**
   * The manager's invariant: the orders list exactly the registered names
   * and state ids, every configuration is filed under its own state id, and
   * every registered NPC has a completion map.
   */
  ghost predicate ManagerInv<P, D>(states: map<string, map<string, StateConfig<P, D>>>, npcOrder: seq<string>,
                                   stateOrder: map<string, seq<string>>, completion: CompMap)
  {
    states.Keys == (set n | n in npcOrder) &&
    stateOrder.Keys == states.Keys &&
    (forall n | n in states :: states[n].Keys == set s | s in stateOrder[n]) &&
    (forall n, s | n in states && s in states[n] :: states[n][s].stateId == s) &&
    states.Keys <= completion.Keys
  }

  lemma ManagerInvCovers<P, D>(states: map<string, map<string, StateConfig<P, D>>>, npcOrder: seq<string>,
                               stateOrder: map<string, seq<string>>, completion: CompMap)
    requires ManagerInv(states, npcOrder, stateOrder, completion)
    ensures OrdersCover(states, stateOrder)
  {
  }

  /** Changing only the completion map keeps the invariant while no NPC loses its map. */
  lemma ManagerInvCompletion<P, D>(states: map<string, map<string, StateConfig<P, D>>>, npcOrder: seq<string>,
                                   stateOrder: map<string, seq<string>>, comp: CompMap, comp': CompMap)
    requires ManagerInv(states, npcOrder, stateOrder, comp) && comp.Keys <= comp'.Keys
    ensures ManagerInv(states, npcOrder, stateOrder, comp')
  {
  }

  /** Registration keeps the invariant. */
  lemma RegisterKeepsInv<P, D>(states: map<string, map<string, StateConfig<P, D>>>, npcOrder: seq<string>,
                               stateOrder: map<string, seq<string>>, completion: CompMap,
                               name: string, cfg: StateConfig<P, D>)
    requires ManagerInv(states, npcOrder, stateOrder, completion)
    ensures var known := name in states;
      var inner := if known then states[name] else map[];
      var innerComp := if known then completion[name] else map[];
      var ord := if known then stateOrder[name] else [];
      ManagerInv(states[name := inner[cfg.stateId := cfg]],
                 if known then npcOrder else npcOrder + [name],
                 stateOrder[name := if cfg.stateId in ord then ord else ord + [cfg.stateId]],
                 completion[name := innerComp[cfg.stateId := NotStarted]])
  {
    var known := name in states;
    var inner := if known then states[name] else map[];
    var ord := if known then stateOrder[name] else [];
    RegisterKeepsNames(states, npcOrder, stateOrder, completion, name, inner[cfg.stateId := cfg]);
    RegisterKeepsFiled(states, npcOrder, stateOrder, completion, name, cfg, inner, ord);
  }

  /** Registration lists the NPC's name once in the NPC order. */
  lemma RegisterKeepsNames<P, D>(states: map<string, map<string, StateConfig<P, D>>>, npcOrder: seq<string>,
                                 stateOrder: map<string, seq<string>>, completion: CompMap,
                                 name: string, inner': map<string, StateConfig<P, D>>)
    requires ManagerInv(states, npcOrder, stateOrder, completion)
    ensures var npcOrder' := if name in states then npcOrder else npcOrder + [name];
      states[name := inner'].Keys == (set x | x in npcOrder')
  {
    var npcOrder' := if name in states then npcOrder else npcOrder + [name];
    assert (set x | x in npcOrder') == (set x | x in npcOrder) + {name};
  }

  /** Registration files the configuration under its id and lists the id once in the NPC's state order. */
  lemma RegisterKeepsFiled<P, D>(states: map<string, map<string, StateConfig<P, D>>>, npcOrder: seq<string>,
                                 stateOrder: map<string, seq<string>>, completion: CompMap,
                                 name: string, cfg: StateConfig<P, D>, inner: map<string, StateConfig<P, D>>, ord: seq<string>)
    requires ManagerInv(states, npcOrder, stateOrder, completion)
    requires inner == (if name in states then states[name] else map[])
    requires ord == (if name in states then stateOrder[name] else [])
    ensures var states' := states[name := inner[cfg.stateId := cfg]];
      var stateOrder' := stateOrder[name := if cfg.stateId in ord then ord else ord + [cfg.stateId]];
      (forall n | n in states' :: states'[n].Keys == set s | s in stateOrder'[n]) &&
      (forall n, s | n in states' && s in states'[n] :: states'[n][s].stateId == s)
  {
    var ord' := if cfg.stateId in ord then ord else ord + [cfg.stateId];
    assert (set s | s in ord') == (set s | s in ord) + {cfg.stateId};
  }

  // ---------------------------------------------------------------------
  // The manager
  // ---------------------------------------------------------------------

  class NpcStateManager<!P, D> {
    /** npc_states: per NPC, state id -> configuration. */
    var states: map<string, map<string, StateConfig<P, D>>>
    /** Registration order of the NPC names (dict order of npc_states). */
    var npcOrder: seq<string>
    /** Registration order of each NPC's state ids. */
    var stateOrder: map<string, seq<string>>
    /** npc_current_states */
    var current: map<string, string>
    /** npc_state_completion */
    var completion: CompMap

    ghost predicate Valid()
      reads this
    {
      ManagerInv(states, npcOrder, stateOrder, completion)
    }

    /** The name the manager files `name` under. */
    function Norm(name: string): string
      reads this
    {
      NormalizeIn(npcOrder, name)
    }

    constructor ()
      ensures Valid()
      ensures states == map[] && npcOrder == [] && stateOrder == map[]
      ensures current == map[] && completion == map[]
    {
      states := map[];
      npcOrder := [];
      stateOrder := map[];
      current := map[];
      completion := map[];
    }

    /**
     * register_npc_state: files the configuration under (name, state id),
     * replacing any earlier one, and resets that state's completion to
     * NOT_STARTED; a name seen for the first time gets fresh maps.
     */
    method Register(name: string, cfg: StateConfig<P, D>)
      requires Valid()
      modifies this`states, this`npcOrder, this`stateOrder, this`completion
      ensures Valid()
      ensures var old' := if name in old(states) then old(states)[name] else map[];
        states == old(states)[name := old'[cfg.stateId := cfg]]
      ensures var old' := if name in old(states) then old(completion)[name] else map[];
        completion == old(completion)[name := old'[cfg.stateId := NotStarted]]
      ensures current == old(current)
      ensures npcOrder == if name in old(states) then old(npcOrder) else old(npcOrder) + [name]
      ensures var ord := if name in old(states) then old(stateOrder)[name] else [];
        stateOrder == old(stateOrder)[name := if cfg.stateId in ord then ord else ord + [cfg.stateId]]
    {
      RegisterKeepsInv(states, npcOrder, stateOrder, completion, name, cfg);
      var known := name in states;
      var inner := if known then states[name] else map[];
      var innerComp := if known then completion[name] else map[];
      var ord := if known then stateOrder[name] else [];
      npcOrder, states, completion, stateOrder :=
        if known then npcOrder else npcOrder + [name],
        states[name := inner[cfg.stateId := cfg]],
        completion[name := innerComp[cfg.stateId := NotStarted]],
        stateOrder[name := if cfg.stateId in ord then ord else ord + [cfg.stateId]];
    }

    /** normalize_npc_name */
    method NormalizeNpcName(name: string) returns (r: string)
      requires Valid()
      ensures r == Norm(name)
    {
      if name in states {
        return name;
      }
      var keys := npcOrder;
      var lowered := Lower(name);
      var i := 0;
      while i < |keys|
        invariant 0 <= i <= |keys|
        invariant FirstCaseMatch(keys, name, i) == FirstCaseMatch(keys, name, 0)
      {
        if Lower(keys[i]) == lowered {
          return keys[i];
        }
        i := i + 1;
      }
      return name;
    }

    /** get_state_config */
    method GetStateConfig(name: string, stateId: string) returns (r: Option<StateConfig<P, D>>)
      requires Valid()
      ensures var n := Norm(name);
        r == if n in states && stateId in states[n] then Some(states[n][stateId]) else None
      ensures r.Some? ==> r.value.stateId == stateId
    {
      var n := NormalizeNpcName(name);
      if n !in states {
        return None;
      }
      if stateId in states[n] {
        return Some(states[n][stateId]);
      }
      return None;
    }

    /** get_current_state */
    method GetCurrentState(name: string) returns (r: Option<string>)
      requires Valid()
      ensures r == if Norm(name) in current then Some(current[Norm(name)]) else None
    {
      var n := NormalizeNpcName(name);
      r := if n in current then Some(current[n]) else None;
    }

    /**
     * set_current_state: the NPC's current state becomes stateId, and a
     * NOT_STARTED completion entry is added only when there is none.
     */
    method SetCurrentState(name: string, stateId: string)
      requires Valid()
      modifies this`current, this`completion
      ensures Valid()
      ensures current == old(current)[Norm(name) := stateId]
      ensures var n := Norm(name);
        completion == if n in old(completion) && stateId in old(completion)[n] then old(completion)
                      else SetCompletionIn(old(completion), n, stateId, NotStarted)
    {
      var n := NormalizeNpcName(name);
      current := current[n := stateId];
      if !(n in completion && stateId in completion[n]) {
        completion := SetCompletionIn(completion, n, stateId, NotStarted);
      }
    }

    /** get_state_completion: NOT_STARTED when nothing is stored. */
    method GetStateCompletion(name: string, stateId: string) returns (c: Completion)
      requires Valid()
      ensures c == CompletionIn(completion, Norm(name), stateId)
    {
      var n := NormalizeNpcName(name);
      if n !in completion {
        return NotStarted;
      }
      c := if stateId in completion[n] then completion[n][stateId] else NotStarted;
    }

    /** set_state_completion */
    method SetStateCompletion(name: string, stateId: string, c: Completion)
      requires Valid()
      modifies this`completion
      ensures Valid()
      ensures completion == SetCompletionIn(old(completion), Norm(name), stateId, c)
    {
      var n := NormalizeNpcName(name);
      completion := SetCompletionIn(completion, n, stateId, c);
    }

    /**
     * get_dialog_for_state: chosen by the stored completion status; the
     * configuration's completion_condition is never consulted.
     */
    method GetDialogForState(name: string, stateId: string, ev: Events.EventState) returns (r: Option<D>)
      requires Valid()
      ensures var n := Norm(name);
        r == if n in states && stateId in states[n]
             then DialogFor(states[n][stateId], CompletionIn(completion, n, stateId), ev) else None
    {
      var n := NormalizeNpcName(name);
      NormalizeIdempotent(npcOrder, name);
      var cfg := GetStateConfig(n, stateId);
      if cfg.None? {
        return None;
      }
      var c := GetStateCompletion(n, stateId);
      if c == Completed && cfg.value.completedDialog.Some? {
        return Some(cfg.value.completedDialog.value(ev));
      }
      if cfg.value.dialog.Some? {
        return Some(cfg.value.dialog.value(ev));
      }
      if cfg.value.completedDialog.Some? {
        return Some(cfg.value.completedDialog.value(ev));
      }
      return None;
    }
  
    /**
     * check_and_transition: with a current state that has a configuration,
     * follows the first transition whose guard holds (skipping same-zone
     * targets when onlyCrossZone is set); the old state becomes COMPLETED and
     * the target, now current, IN_PROGRESS.  A guard that raises ends the
     * call with Raised.
     */
    method CheckAndTransition(name: string, player: P, ev: Events.EventState, onlyCrossZone: bool)
      returns (r: TransitionResult)
      requires Valid()
      modifies this`current, this`completion
      ensures Valid()
      ensures FsmStep(r, current, completion) ==
              TransitionSpec(npcOrder, states, old(current), old(completion), name, player, ev, onlyCrossZone)
    {
      var n := NormalizeNpcName(name);
      var st := DecideTransition(npcOrder, states, current, completion, name, n, player, ev, onlyCrossZone);
      ManagerInvCompletion(states, npcOrder, stateOrder, completion, st.comp);
      current, completion := st.current, st.comp;
      return st.result;
    }

    /** check_and_transition on the maps, for the normalised name n. */
    method DecideTransition(keys: seq<string>, states0: map<string, map<string, StateConfig<P, D>>>,
                            current0: map<string, string>, comp0: CompMap,
                            name: string, n: string, player: P, ev: Events.EventState, onlyCrossZone: bool)
      returns (st: FsmStep)
      requires n == NormalizeIn(keys, name)
      ensures st == TransitionSpec(keys, states0, current0, comp0, name, player, ev, onlyCrossZone)
      ensures comp0.Keys <= st.comp.Keys
    {
      NormalizeIdempotent(keys, name);
      if n !in current0 || current0[n] == "" {
        return FsmStep(NoTransition, current0, comp0);
      }
      var cur := current0[n];
      if n !in states0 || cur !in states0[n] {
        return FsmStep(NoTransition, current0, comp0);
      }
      var cfg := states0[n][cur];
      var x := TransCtx(keys, states0[n], cfg.zoneType, player, ev, onlyCrossZone);
      var t := ScanTransitions(x, cfg.transitions, comp0);
      if t.result.Moved? {
        var target := t.result.target;
        var comp := SetCompletionIn(t.comp, n, cur, Completed);
        comp := SetCompletionIn(comp, n, target, InProgress);
        return FsmStep(t.result, current0[n := target], comp);
      }
      return FsmStep(t.result, current0, t.comp);
    }

    /**
     * The loop of check_and_transition: guards are called in list order
     * until one raises or a non-deferred one holds.
     */
    method ScanTransitions(x: TransCtx<P, D>, ts: seq<Transition<P>>, comp0: CompMap) returns (t: TStep)
      ensures t == TransitionFrom(x, ts, 0, comp0)
      ensures comp0.Keys <= t.comp.Keys
    {
      var comp := comp0;
      var i := 0;
      while i < |ts|
        invariant 0 <= i <= |ts|
        invariant TransitionFrom(x, ts, i, comp) == TransitionFrom(x, ts, 0, comp0)
        invariant comp0.Keys <= comp.Keys
      {
        var o := ts[i].condition(Some(x.player), x.ev);
        if o == Raises {
          return TStep(Raised, comp);
        }
        if o == Holds {
          var target := ts[i].target;
          var deferred := x.onlyCrossZone && target in x.cfgs && x.cfgs[target].zoneType == x.fromZone;
          if !deferred {
            return TStep(Moved(target), comp);
          }
        }
        comp := ApplyOutcome(x.keys, comp, o);
        i := i + 1;
      }
      return TStep(NoTransition, comp);
    }

    /** The deferred-transition loop of _get_spawn_state. */
    method DeferredTransition(c: SpawnCtx<P, D>, ts: seq<Transition<P>>, comp0: CompMap) returns (st: Step)
      ensures st == DeferredFrom(c, ts, 0, comp0)
    {
      var comp := comp0;
      var i := 0;
      while i < |ts|
        invariant 0 <= i <= |ts|
        invariant DeferredFrom(c, ts, i, comp) == DeferredFrom(c, ts, 0, comp0)
      {
        var t := ts[i];
        var eligible := t.target in c.cfgs && c.cfgs[t.target].zoneType == Some(c.zoneType);
        if eligible && c.zoneType == "dungeon" {
          eligible := FloorMatches(c.cfgs[t.target], c.floor, c.ev, c.lucky);
        }
        if eligible {
          var o := t.condition(None, c.ev);
          if o == Holds {
            return Step(Some(t.target), comp);
          }
          comp := ApplyOutcome(c.keys, comp, o);
        }
        i := i + 1;
      }
      return Step(None, comp);
    }

    /** The nested loop of _find_initial_state_for_zone that sorts incoming transitions of s. */
    method ClassifyIncoming(c: SpawnCtx<P, D>, s: string) returns (same: seq<string>, cross: seq<Transition<P>>)
      requires WellFormed(c)
      ensures same == SameIncoming(c, s, |c.ord|)
      ensures cross == CrossIncoming(c, s, |c.ord|)
    {
      same, cross := [], [];
      var k := 0;
      while k < |c.ord|
        invariant 0 <= k <= |c.ord|
        invariant same == SameIncoming(c, s, k)
        invariant cross == CrossIncoming(c, s, k)
      {
        var other := c.ord[k];
        var ts := c.cfgs[other].transitions;
        var sameZone := c.cfgs[other].zoneType == Some(c.zoneType);
        ghost var same0, cross0 := same, cross;
        var j := 0;
        while j < |ts|
          invariant 0 <= j <= |ts|
          invariant same == same0 + SameFrom(sameZone, other, ts, s, j)
          invariant cross == cross0 + CrossFrom(sameZone, ts, s, j)
        {
          if ts[j].target == s {
            if sameZone {
              same := same + [other];
            } else {
              cross := cross + [ts[j]];
            }
          }
          j := j + 1;
        }
        k := k + 1;
      }
    }

    /** The cross-zone guard loop of _find_initial_state_for_zone. */
    method CrossZoneValid(c: SpawnCtx<P, D>, cross: seq<Transition<P>>, comp0: CompMap) returns (v: Verdict)
      ensures v == CrossValidFrom(c, cross, 0, comp0)
    {
      var comp := comp0;
      var i := 0;
      while i < |cross|
        invariant 0 <= i <= |cross|
        invariant CrossValidFrom(c, cross, i, comp) == CrossValidFrom(c, cross, 0, comp0)
      {
        var o := cross[i].condition(None, c.ev);
        if o == Holds {
          return Verdict(true, comp);
        }
        comp := ApplyOutcome(c.keys, comp, o);
        i := i + 1;
      }
      return Verdict(false, comp);
    }

    /** The `any(...)` over same-zone predecessors. */
    method AnyPredecessorCompleted(comp: CompMap, n: string, preds: seq<string>) returns (b: bool)
      ensures b == AnyCompleted(comp, n, preds)
    {
      var i := 0;
      while i < |preds|
        invariant 0 <= i <= |preds|
        invariant forall j | 0 <= j < i :: CompletionIn(comp, n, preds[j]) != Completed
      {
        if CompletionIn(comp, n, preds[i]) == Completed {
          return true;
        }
        i := i + 1;
      }
      return false;
    }

    /** One iteration of the candidate loop of _find_initial_state_for_zone. */
    method CheckCandidateState(c: SpawnCtx<P, D>, s: string, comp: CompMap) returns (st: Step)
      requires WellFormed(c) && s in c.cfgs
      ensures st == CheckCandidate(c, s, comp)
    {
      var cfg := c.cfgs[s];
      if c.zoneType == "dungeon" && !FloorMatches(cfg, c.floor, c.ev, c.lucky) {
        return Step(None, comp);
      }
      if c.zoneType != "dungeon" && cfg.spawnCondition.Some? && !cfg.spawnCondition.value(None, c.ev, c.lucky) {
        return Step(None, comp);
      }
      if CompletionIn(comp, c.n, s) == Locked {
        return Step(None, comp);
      }
      var same, cross := ClassifyIncoming(c, s);
      if |same| > 0 {
        var any := AnyPredecessorCompleted(comp, c.n, same);
        if !any {
          return Step(None, comp);
        }
      }
      if |cross| > 0 {
        var v := CrossZoneValid(c, cross, comp);
        return Step(if v.ok then Some(s) else None, v.comp);
      }
      return Step(Some(s), comp);
    }

    /** _find_initial_state_for_zone on an already normalised name. */
    method FindInitialStateForZone(c: SpawnCtx<P, D>, comp0: CompMap) returns (st: Step)
      requires WellFormed(c)
      ensures st == FindInitialFrom(c, ZoneStates(c.cfgs, c.ord, c.zoneType), 0, comp0)
      ensures comp0.Keys <= st.comp.Keys
    {
      var zs := ZoneStates(c.cfgs, c.ord, c.zoneType);
      FindInitialResets(c, zs, 0, comp0);
      var comp := comp0;
      var k := 0;
      while k < |zs|
        invariant 0 <= k <= |zs|
        invariant FindInitialFrom(c, zs, k, comp) == FindInitialFrom(c, zs, 0, comp0)
      {
        var r := CheckCandidateState(c, zs[k], comp);
        if r.found.Some? {
          return r;
        }
        comp := r.comp;
        k := k + 1;
      }
      return Step(None, comp);
    }

    /** The branch of _get_spawn_state for a current state that has a configuration. */
    method SpawnFromCurrentState(c: SpawnCtx<P, D>, current0: map<string, string>, comp0: CompMap, cur: string)
      returns (st: SpawnStep)
      requires cur in c.cfgs
      ensures st == SpawnFromCurrent(c, current0, comp0, cur)
      ensures comp0.Keys <= st.comp.Keys
    {
      var cfg := c.cfgs[cur];
      var d := Step(None, comp0);
      if CompletionIn(comp0, c.n, cur) == Completed && |cfg.transitions| > 0 {
        d := DeferredTransition(c, cfg.transitions, comp0);
        DeferredFromFirst(c, cfg.transitions, 0, comp0);
        if d.found.Some? {
          var t := d.found.value;
          return SpawnStep(d.found, current0[c.n := t], SetCompletionIn(d.comp, c.n, t, InProgress));
        }
      }
      if cfg.zoneType == Some(c.zoneType) {
        if c.zoneType == "dungeon" && !FloorMatches(cfg, c.floor, c.ev, c.lucky) {
          return SpawnStep(None, current0, d.comp);
        }
        return SpawnStep(Some(cur), current0, d.comp);
      }
      return SpawnStep(None, current0, d.comp);
    }

    /**
     * _get_spawn_state: which state the NPC shows in a zone of the given
     * type (and floor), following a deferred transition out of a COMPLETED
     * current state first.
     */
    method GetSpawnState(name: string, zoneType: string, floor: Option<int>, ev: Events.EventState, lucky: bool)
      returns (r: Option<string>)
      requires Valid()
      modifies this`current, this`completion
      ensures Valid()
      ensures OrdersCover(states, stateOrder)
      ensures SpawnStep(r, current, completion) ==
              SpawnSpec(npcOrder, states, stateOrder, old(current), old(completion), name, zoneType, floor, ev, lucky)
    {
      ManagerInvCovers(states, npcOrder, stateOrder, completion);
      var n := NormalizeNpcName(name);
      var st := DecideSpawn(npcOrder, states, stateOrder, current, completion, name, n, zoneType, floor, ev, lucky);
      ManagerInvCompletion(states, npcOrder, stateOrder, completion, st.comp);
      current, completion := st.current, st.comp;
      return st.found;
    }

    /** _get_spawn_state on the maps, for the normalised name n. */
    method DecideSpawn(keys: seq<string>, states0: map<string, map<string, StateConfig<P, D>>>,
                       stateOrder0: map<string, seq<string>>, current0: map<string, string>, comp0: CompMap,
                       name: string, n: string, zoneType: string, floor: Option<int>, ev: Events.EventState, lucky: bool)
      returns (st: SpawnStep)
      requires OrdersCover(states0, stateOrder0)
      requires n == NormalizeIn(keys, name)
      ensures st == SpawnSpec(keys, states0, stateOrder0, current0, comp0, name, zoneType, floor, ev, lucky)
      ensures comp0.Keys <= st.comp.Keys
    {
      NormalizeIdempotent(keys, name);
      if n !in states0 || states0[n] == map[] {
        return SpawnStep(None, current0, comp0);
      }
      var c := SpawnCtx(keys, n, states0[n], stateOrder0[n], zoneType, floor, ev, lucky);
      if n in current0 && current0[n] != "" && current0[n] in states0[n] {
        st := SpawnFromCurrentState(c, current0, comp0, current0[n]);
        return;
      }
      var f := FindInitialStateForZone(c, comp0);
      return SpawnStep(f.found, current0, f.comp);
    }
  }
}
