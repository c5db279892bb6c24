/*
 * The persistent event store (systems/events.py): registered events with a
 * status, the set of triggered event ids, the count of finished runs and a
 * key/value store that content uses to remember run numbers and counters.
 *
 * Event conditions and actions are supplied by content. A condition reads the
 * player and zone (a world value of type W) and, through the global event
 * manager, the manager's persistent record; an action transforms the world.
 */
module Events {
  import opened Common

  /** The values content stores in event_data (run numbers, counters, flags). */
  datatype Value = VInt(i: int) | VBool(b: bool)

  /** Python compares True/False as 1/0 when a flag is read as a number. */
  function AsInt(v: Value): int
  {
    match v
    case VInt(i) => i
    case VBool(b) => if b then 1 else 0
  }

  /** The part of the manager every condition and transition predicate reads. */
  datatype EventState = EventState(triggered: set<string>, runCount: int, data: map<string, Value>)
  {
    predicate IsTriggered(id: string) { id in triggered }

    /** get_data(key, default) for an integer default. */
    function IntOr(key: string, default: int): int
    {
      if key in data then AsInt(data[key]) else default
    }

    /** get_data(key, False) read as a truth value. */
    predicate Flag(key: string)
    {
      key in data && AsInt(data[key]) != 0
    }
  }

  datatype EventStatus = Locked | Available | Triggered | Completed

  datatype GameEvent<!W> = GameEvent(
    id: string,
    name: string,
    description: string,
    status: EventStatus,
    conditions: seq<(W, EventState) -> bool>,
    actions: seq<W -> W>,
    persistent: bool,
    autoTrigger: bool)

  /** GameEvent.check_conditions: every condition holds (vacuously true for none). */
  predicate AllHold<W>(conds: seq<(W, EventState) -> bool>, w: W, st: EventState)
  {
    forall i | 0 <= i < |conds| :: conds[i](w, st)
  }

  /** GameEvent.execute_actions: the actions applied in list order. */
  function RunActions<W>(actions: seq<W -> W>, w: W): W
  {
    if actions == [] then w else RunActions(actions[1..], actions[0](w))
  }

  /** Running two action lists one after the other is running their concatenation. */
  lemma {:induction false} RunActionsAppend<W>(a: seq<W -> W>, b: seq<W -> W>, w: W)
    ensures RunActions(a + b, w) == RunActions(b, RunActions(a, w))
  {
    if a == [] {
      assert a + b == b;
    } else {
      assert (a + b)[1..] == a[1..] + b;
      RunActionsAppend(a[1..], b, a[0](w));
    }
  }

  /** A condition list holds iff each of its two halves holds. */
  lemma AllHoldAppend<W>(a: seq<(W, EventState) -> bool>, b: seq<(W, EventState) -> bool>, w: W, st: EventState)
    ensures AllHold(a + b, w, st) <==> AllHold(a, w, st) && AllHold(b, w, st)
  {
    if AllHold(a, w, st) && AllHold(b, w, st) {
      forall i | 0 <= i < |a + b| ensures (a + b)[i](w, st) {
        if i < |a| { assert (a + b)[i] == a[i]; } else { assert (a + b)[i] == b[i - |a|]; }
      }
    }
    if AllHold(a + b, w, st) {
      forall i | 0 <= i < |a| ensures a[i](w, st) { assert (a + b)[i] == a[i]; }
      forall i | 0 <= i < |b| ensures b[i](w, st) { assert (a + b)[|a| + i] == b[i]; }
    }
  }

  /** The save-file form of the manager. A missing key is None; all None is the empty dict. */
  datatype SaveData = SaveData(
    triggered: Option<set<string>>,
    statuses: Option<map<string, EventStatus>>,
    runCount: Option<int>,
    data: Option<map<string, Value>>)
  {
    predicate IsEmpty()
    {
      triggered.None? && statuses.None? && runCount.None? && data.None?
    }
  }

  /** The statuses to_dict writes: those of persistent events only. */
  function PersistentStatuses<W>(events: map<string, GameEvent<W>>, status: map<string, EventStatus>): (m: map<string, EventStatus>)
    requires status.Keys == events.Keys
    ensures forall id :: id in m <==> id in events && events[id].persistent
    ensures forall id | id in m :: m[id] == status[id]
  {
    map id | id in events && events[id].persistent :: status[id]
  }

  /** The statuses from_dict restores: a saved status replaces a registered event's only. */
  function ApplyStatuses(status: map<string, EventStatus>, saved: map<string, EventStatus>): (r: map<string, EventStatus>)
    ensures r.Keys == status.Keys
    ensures forall id | id in r :: r[id] == if id in saved then saved[id] else status[id]
  {
    map id | id in status :: if id in saved then saved[id] else status[id]
  }

  /** Restoring the statuses just saved leaves every registered event's status as it was. */
  lemma ApplyPersistentStatuses<W>(events: map<string, GameEvent<W>>, status: map<string, EventStatus>)
    requires status.Keys == events.Keys
    ensures ApplyStatuses(status, PersistentStatuses(events, status)) == status
  {
    var r := ApplyStatuses(status, PersistentStatuses(events, status));
    assert forall id | id in status :: r[id] == status[id];
  }

  /** Every event set back to LOCKED, as clear_all does. */
  function AllLocked(status: map<string, EventStatus>): (r: map<string, EventStatus>)
    ensures r.Keys == status.Keys
    ensures forall id | id in r :: r[id] == Locked
  {
    map id | id in status :: Locked
  }

  // ---------------------------------------------------------------------
  // check_and_trigger_events as a scan over the events in registration order
  // ---------------------------------------------------------------------

  /** What the scan has changed so far: statuses, the triggered set and the world. */
  datatype Scan<W> = Scan(status: map<string, EventStatus>, triggered: set<string>, world: W)

  /** The record a condition sees during the scan. */
  function ScanRecord<W>(runCount: int, data: map<string, Value>, s: Scan<W>): EventState
  {
    EventState(s.triggered, runCount, data)
  }

  /** Whether the event `e` is triggered on its turn. */
  predicate Fires<W>(e: GameEvent<W>, runCount: int, data: map<string, Value>, s: Scan<W>)
    requires e.id in s.status
  {
    s.status[e.id] != Triggered && s.status[e.id] != Completed
    && AllHold(e.conditions, s.world, ScanRecord(runCount, data, s)) && e.autoTrigger
  }

  /**
   * One event's turn: a triggered or completed event is skipped; otherwise, when
   * its conditions hold it becomes AVAILABLE and, if it triggers automatically,
   * is triggered at once (actions run, status TRIGGERED, id added to the set).
   */
  function ScanStep<W>(e: GameEvent<W>, runCount: int, data: map<string, Value>, s: Scan<W>): Scan<W>
    requires e.id in s.status
  {
    var id := e.id;
    var st := s.status[id];
    if st == Triggered || st == Completed then s
    else if !AllHold(e.conditions, s.world, ScanRecord(runCount, data, s)) then s
    else if e.autoTrigger then Scan(s.status[id := Triggered], s.triggered + {id}, RunActions(e.actions, s.world))
    else Scan(s.status[id := Available], s.triggered, s.world)
  }

  /** Every id of `order` is registered under itself and has a status. */
  ghost predicate Registered<W>(events: map<string, GameEvent<W>>, order: seq<string>, keys: set<string>)
  {
    forall i | 0 <= i < |order| :: order[i] in events && events[order[i]].id == order[i] && order[i] in keys
  }

  /** The scan from position k on; the statuses keep their keys. */
  ghost function ScanFrom<W>(events: map<string, GameEvent<W>>, order: seq<string>, k: nat,
                             runCount: int, data: map<string, Value>, s: Scan<W>): (r: Scan<W>)
    requires k <= |order| && Registered(events, order, s.status.Keys)
    ensures r.status.Keys == s.status.Keys
    decreases |order| - k
  {
    if k == |order| then s
    else
      var s' := ScanStep(events[order[k]], runCount, data, s);
      assert s'.status.Keys == s.status.Keys;
      ScanFrom(events, order, k + 1, runCount, data, s')
  }

  /** The ids the scan from position k on triggers, in the order it triggers them. */
  ghost function FiredFrom<W>(events: map<string, GameEvent<W>>, order: seq<string>, k: nat,
                              runCount: int, data: map<string, Value>, s: Scan<W>): seq<string>
    requires k <= |order| && Registered(events, order, s.status.Keys)
    decreases |order| - k
  {
    if k == |order| then []
    else
      var e := events[order[k]];
      var s' := ScanStep(e, runCount, data, s);
      assert s'.status.Keys == s.status.Keys;
      (if Fires(e, runCount, data, s) then [order[k]] else []) + FiredFrom(events, order, k + 1, runCount, data, s')
  }

  /** The triggered set grows by exactly the ids the scan fires. */
  lemma {:induction false} ScanTriggersFired<W>(events: map<string, GameEvent<W>>, order: seq<string>, k: nat,
                                               runCount: int, data: map<string, Value>, s: Scan<W>)
    requires k <= |order| && Registered(events, order, s.status.Keys)
    ensures forall x :: (x in ScanFrom(events, order, k, runCount, data, s).triggered
                         <==> x in s.triggered || x in FiredFrom(events, order, k, runCount, data, s))
    decreases |order| - k
  {
    if k < |order| {
      var s' := ScanStep(events[order[k]], runCount, data, s);
      ScanTriggersFired(events, order, k + 1, runCount, data, s');
    }
  }

  /** `a` lists some of the elements of `b`, in the same order. */
  ghost predicate IsSubsequence<T>(a: seq<T>, b: seq<T>)
    decreases |b|
  {
    if a == [] then true
    else if b == [] then false
    else (a[0] == b[0] && IsSubsequence(a[1..], b[1..])) || IsSubsequence(a, b[1..])
  }

  /** The ids a scan fires appear in registration order. */
  lemma {:induction false} ScanFiresInOrder<W>(events: map<string, GameEvent<W>>, order: seq<string>, k: nat,
                                              runCount: int, data: map<string, Value>, s: Scan<W>)
    requires k <= |order| && Registered(events, order, s.status.Keys)
    ensures IsSubsequence(FiredFrom(events, order, k, runCount, data, s), order[k..])
    decreases |order| - k
  {
    if k < |order| {
      var e := events[order[k]];
      var s' := ScanStep(e, runCount, data, s);
      var rest := FiredFrom(events, order, k + 1, runCount, data, s');
      ScanFiresInOrder(events, order, k + 1, runCount, data, s');
      assert order[k..][1..] == order[k + 1..];
      if Fires(e, runCount, data, s) {
        assert ([order[k]] + rest)[1..] == rest;
      } else {
        assert [] + rest == rest;
      }
    }
  }

  /**
   * A status only moves forward: LOCKED may become AVAILABLE, LOCKED or AVAILABLE
   * may become TRIGGERED, and an event reaches TRIGGERED in the scan exactly when
   * the scan fires it; a fired event triggers automatically.
   */
  lemma {:induction false} ScanStatusMoves<W>(events: map<string, GameEvent<W>>, order: seq<string>, k: nat,
                                             runCount: int, data: map<string, Value>, s: Scan<W>, id: string)
    requires k <= |order| && Registered(events, order, s.status.Keys) && id in s.status
    ensures var before, after := s.status[id], ScanFrom(events, order, k, runCount, data, s).status[id];
      var fired := FiredFrom(events, order, k, runCount, data, s);
      (after == before
        || (before == Locked && after == Available)
        || ((before == Locked || before == Available) && after == Triggered))
      && (id in fired ==> (before != Triggered && before != Completed && after == Triggered
            && id in events && events[id].autoTrigger))
      && (after == Triggered && before != Triggered ==> id in fired)
    decreases |order| - k
  {
    if k < |order| {
      var s' := ScanStep(events[order[k]], runCount, data, s);
      ScanStatusMoves(events, order, k + 1, runCount, data, s', id);
    }
  }

  class EventManager<W> {
    /**
     * The registered events by id, with `order` the dict's insertion order. The
     * status each event object carries is kept in `status`, which the manager
     * updates in place of the event's own field.
     */
    var events: map<string, GameEvent<W>>
    var status: map<string, EventStatus>
    var order: seq<string>
    var triggered: set<string>
    var runCount: int
    var data: map<string, Value>

    ghost predicate Valid()
      reads this
    {
      status.Keys == events.Keys
      && (forall id :: id in events <==> id in order)
      && (forall id | id in events :: events[id].id == id)
    }

    function State(): (st: EventState)
      reads this
      ensures st.triggered == triggered && st.runCount == runCount && st.data == data
    {
      EventState(triggered, runCount, data)
    }

    constructor ()
      ensures Valid()
      ensures events == map[] && status == map[] && order == []
      ensures triggered == {} && runCount == 0 && data == map[]
    {
      events, status, order := map[], map[], [];
      triggered, runCount, data := {}, 0, map[];
    }

    /** register_event: store by id (a re-registered id keeps its place) and restore TRIGGERED. */
    method Register(e: GameEvent<W>)
      requires Valid()
      modifies this
      ensures Valid()
      ensures order == if e.id in old(events) then old(order) else old(order) + [e.id]
      ensures events == old(events)[e.id := e]
      ensures status == old(status)[e.id := if e.id in triggered then Triggered else e.status]
      ensures triggered == old(triggered) && runCount == old(runCount) && data == old(data)
    {
      if e.id !in events {
        order := order + [e.id];
      }
      events := events[e.id := e];
      status := status[e.id := if e.id in triggered then Triggered else e.status];
    }

    /** trigger_event: run the actions and mark the event triggered if its conditions allow. */
    method Trigger(id: string, w: W, skipConditions: bool) returns (ok: bool, w': W)
      requires Valid()
      modifies this`status, this`triggered
      ensures Valid()
      ensures ok <==> id in events && (skipConditions || AllHold(events[id].conditions, w, old(State())))
      ensures ok ==> (w' == RunActions(events[id].actions, w)
        && status == old(status)[id := Triggered] && triggered == old(triggered) + {id})
      ensures !ok ==> (w' == w && status == old(status) && triggered == old(triggered))
      ensures events == old(events) && order == old(order) && runCount == old(runCount) && data == old(data)
    {
      if id !in events {
        return false, w;
      }
      var e := events[id];
      if !skipConditions && !AllHold(e.conditions, w, State()) {
        return false, w;
      }
      w' := RunActions(e.actions, w);
      status := status[id := Triggered];
      triggered := triggered + {id};
      ok := true;
    }

    /** One event's turn in check_and_trigger_events. */
    method ScanOne(id: string, w: W) returns (fire: bool, w': W)
      requires Valid() && id in events
      modifies this`status, this`triggered
      ensures Valid()
      ensures fire == Fires(events[id], runCount, data, Scan(old(status), old(triggered), w))
      ensures Scan(status, triggered, w') == ScanStep(events[id], runCount, data, Scan(old(status), old(triggered), w))
    {
      var e := events[id];
      fire, w' := false, w;
      if status[id] != Triggered && status[id] != Completed {
        if AllHold(e.conditions, w, State()) {
          if status[id] == Locked {
            status := status[id := Available];
          }
          if e.autoTrigger {
            fire, w' := Trigger(id, w, false);
          }
        }
      }
    }

    /** The turn of the k-th registered event, as one step of the scan. */
    method ScanAt(k: nat, w: W, ghost init: Scan<W>) returns (fire: bool, w': W)
      requires Valid() && k < |order| && Registered(events, order, init.status.Keys)
      requires status.Keys == init.status.Keys
      modifies this`status, this`triggered
      ensures Valid() && status.Keys == init.status.Keys
      ensures ScanFrom(events, order, k + 1, runCount, data, Scan(status, triggered, w'))
        == ScanFrom(events, order, k, runCount, data, Scan(old(status), old(triggered), w))
      ensures FiredFrom(events, order, k, runCount, data, Scan(old(status), old(triggered), w))
        == (if fire then [order[k]] else []) + FiredFrom(events, order, k + 1, runCount, data, Scan(status, triggered, w'))
    {
      fire, w' := ScanOne(order[k], w);
    }

    /**
     * check_and_trigger_events: the events are visited in registration order as
     * ScanFrom describes, and the ids triggered are returned in that order.
     */
    method CheckAndTrigger(w: W) returns (fired: seq<string>, w': W)
      requires Valid()
      modifies this`status, this`triggered
      ensures Valid()
      ensures Registered(events, order, old(status).Keys)
      ensures Scan(status, triggered, w') == ScanFrom(events, order, 0, runCount, data, Scan(old(status), old(triggered), w))
      ensures fired == FiredFrom(events, order, 0, runCount, data, Scan(old(status), old(triggered), w))
    {
      ghost var evs, ord, rc, dt := events, order, runCount, data;
      ghost var init := Scan(status, triggered, w);
      ghost var goal, goalFired := ScanFrom(evs, ord, 0, rc, dt, init), FiredFrom(evs, ord, 0, rc, dt, init);
      fired, w' := [], w;
      var k := 0;
      while k < |order|
        invariant Valid()
        invariant events == evs && order == ord && runCount == rc && data == dt
        invariant 0 <= k <= |ord|
        invariant Registered(evs, ord, init.status.Keys) && status.Keys == init.status.Keys
        invariant ScanFrom(evs, ord, k, rc, dt, Scan(status, triggered, w')) == goal
        invariant fired + FiredFrom(evs, ord, k, rc, dt, Scan(status, triggered, w')) == goalFired
      {
        var fire;
        ghost var before := FiredFrom(evs, ord, k, rc, dt, Scan(status, triggered, w'));
        fire, w' := ScanAt(k, w', init);
        ghost var rest := FiredFrom(evs, ord, k + 1, rc, dt, Scan(status, triggered, w'));
        if fire {
          assert fired + ([ord[k]] + rest) == (fired + [ord[k]]) + rest;
          fired := fired + [order[k]];
        } else {
          assert before == rest;
        }
        k := k + 1;
      }
      assert fired + [] == fired;
    }

    /** complete_run: one more finished run. */
    method CompleteRun()
      requires Valid()
      modifies this`runCount
      ensures Valid()
      ensures runCount == old(runCount) + 1
    {
      runCount := runCount + 1;
    }

    /** set_data: overwrite the value under `key`. */
    method SetData(key: string, v: Value)
      requires Valid()
      modifies this`data
      ensures Valid()
      ensures data == old(data)[key := v]
    {
      data := data[key := v];
    }

    /** get_data: the stored value, or None (the default) for a missing key. */
    function GetData(key: string): (r: Option<Value>)
      reads this
      ensures r.Some? <==> key in data
      ensures r.Some? ==> r.value == data[key]
    {
      if key in data then Some(data[key]) else None
    }

    /** is_event_triggered: membership in the triggered set. */
    predicate IsEventTriggered(id: string)
      reads this
    {
      id in triggered
    }

    /** get_event_status: None for an unknown id. */
    function GetEventStatus(id: string): (r: Option<EventStatus>)
      reads this
      requires Valid()
      ensures r.Some? <==> id in events
      ensures r.Some? ==> r.value == status[id]
    {
      if id in status then Some(status[id]) else None
    }

    /** to_dict: the triggered set, the persistent statuses, the run count and the data. */
    function ToDict(): (d: SaveData)
      reads this
      requires Valid()
      ensures d.triggered == Some(triggered) && d.runCount == Some(runCount) && d.data == Some(data)
      ensures d.statuses.Some? && forall id :: id in d.statuses.value <==> id in events && events[id].persistent
    {
      SaveData(Some(triggered), Some(PersistentStatuses(events, status)), Some(runCount), Some(data))
    }

    /** from_dict: an empty dict changes nothing; missing keys fall back to empty/0. */
    method FromDict(d: SaveData)
      requires Valid()
      modifies this
      ensures Valid()
      ensures events == old(events) && order == old(order)
      ensures d.IsEmpty() ==> (status == old(status) && triggered == old(triggered)
        && runCount == old(runCount) && data == old(data))
      ensures !d.IsEmpty() ==> (
        triggered == (if d.triggered.Some? then d.triggered.value else {})
        && runCount == (if d.runCount.Some? then d.runCount.value else 0)
        && data == (if d.data.Some? then d.data.value else map[])
        && status == ApplyStatuses(old(status), if d.statuses.Some? then d.statuses.value else map[]))
    {
      if d.IsEmpty() {
        return;
      }
      triggered := if d.triggered.Some? then d.triggered.value else {};
      runCount := if d.runCount.Some? then d.runCount.value else 0;
      data := if d.data.Some? then d.data.value else map[];
      status := ApplyStatuses(status, if d.statuses.Some? then d.statuses.value else map[]);
    }

    /** clear_all: forget every trigger and datum, zero the runs, lock every event. */
    method ClearAll()
      requires Valid()
      modifies this
      ensures Valid()
      ensures triggered == {} && runCount == 0 && data == map[]
      ensures status == AllLocked(old(status)) && events == old(events) && order == old(order)
    {
      triggered, runCount, data := {}, 0, map[];
      status := AllLocked(status);
    }
  }

  /**
   * Saving and then loading into a manager with the same registered events
   * gives back the triggered set, the run count, the data and every status.
   */
  lemma SaveLoadRoundTrip<W>(events: map<string, GameEvent<W>>, status: map<string, EventStatus>,
                             triggered: set<string>, runCount: int, data: map<string, Value>)
    requires status.Keys == events.Keys
    ensures var d := SaveData(Some(triggered), Some(PersistentStatuses(events, status)), Some(runCount), Some(data));
      !d.IsEmpty() && ApplyStatuses(status, d.statuses.value) == status
  {
    ApplyPersistentStatuses(events, status);
  }
}
