/*
 * content/npcs/__init__.py, register_all_npcs: every NPC module's
 * register_npc_states is called once.  The package discovery by import is
 * replaced by the calls it makes, in the order the modules are listed
 * (alchemist, librarian, merchant_wanderer, nieta, stranger; merchant.py
 * has no registration function).  The developer flag that forces the
 * librarian's spawn is a parameter.  The state manager's constructor runs
 * this registration (_register_default_states); here the constructor
 * builds the empty manager and RegisterAllNpcs is the step after it.
 */
module Npcs {
  import NpcStates
  import Content
  import Alchemist
  import Librarian
  import MerchantWanderer
  import Nieta
  import Stranger

  type Configs<!P> = map<string, map<string, NpcStates.StateConfig<P, Content.Dialog>>>

  /** Each NPC name with the states its module registers for it, in registration order. */
  function Registrations<P>(force: bool): seq<(string, seq<NpcStates.StateConfig<P, Content.Dialog>>)>
  {
    [(Alchemist.NAME, Alchemist.States()),
     (Librarian.LIBRARIAN, Librarian.LibrarianStates(force)),
     (Librarian.HERMES, Librarian.HermesStates()),
     (MerchantWanderer.NAME, MerchantWanderer.States()),
     (Nieta.NAME, Nieta.States()),
     (Stranger.NAME, Stranger.States())]
  }

  /** The configurations after registering each entry of `regs` in turn onto `states`. */
  function RegisterEach<P>(states: Configs<P>, regs: seq<(string, seq<NpcStates.StateConfig<P, Content.Dialog>>)>)
    : Configs<P>
    decreases |regs|
  {
    if regs == [] then states else RegisterEach(Content.Registered(states, regs[0].0, regs[0].1), regs[1..])
  }

  /**
   * register_all_npcs: each module's register_npc_states runs in turn,
   * registering its NPCs' states in order; no current state is chosen.
   */
  method RegisterAllNpcs<P>(m: NpcStates.NpcStateManager<P, Content.Dialog>, force: bool)
    requires m.Valid()
    modifies m`states, m`npcOrder, m`stateOrder, m`completion
    ensures m.Valid() && m.current == old(m.current)
    ensures m.states == RegisterEach(old(m.states), Registrations(force))
  {
    RegisterInTurn(m, Registrations(force));
  }

  /** The loop over the modules: each entry's states are registered under its name, entry by entry. */
  method RegisterInTurn<P>(m: NpcStates.NpcStateManager<P, Content.Dialog>,
                           regs: seq<(string, seq<NpcStates.StateConfig<P, Content.Dialog>>)>)
    requires m.Valid()
    modifies m`states, m`npcOrder, m`stateOrder, m`completion
    ensures m.Valid() && m.current == old(m.current)
    ensures m.states == RegisterEach(old(m.states), regs)
  {
    for k := 0 to |regs|
      invariant m.Valid() && m.current == old(m.current)
      invariant RegisterEach(m.states, regs[k..]) == RegisterEach(old(m.states), regs)
    {
      RegisterFirst(m.states, regs[k..]);
      assert regs[k..][1..] == regs[k + 1..];
      Content.RegisterAll(m, regs[k].0, regs[k].1);
    }
  }

  /** Registering a list of entries is registering its first entry, then the rest. */
  lemma RegisterFirst<P>(states: Configs<P>, regs: seq<(string, seq<NpcStates.StateConfig<P, Content.Dialog>>)>)
    requires regs != []
    ensures RegisterEach(states, regs) == RegisterEach(Content.Registered(states, regs[0].0, regs[0].1), regs[1..])
  {
  }

  /**
   * Registering entries with distinct names and non-empty state lists
   * files each list, by id, under its own name, adds exactly those names
   * and leaves every other NPC as it was.
   */
  lemma {:induction false} RegisterEachFiled<P>(states: Configs<P>, regs: seq<(string, seq<NpcStates.StateConfig<P, Content.Dialog>>)>)
    requires forall i | 0 <= i < |regs| :: regs[i].1 != [] && regs[i].0 !in states
    requires forall i, j | 0 <= i < j < |regs| :: regs[i].0 != regs[j].0
    ensures var r := RegisterEach(states, regs);
      r.Keys == states.Keys + (set i | 0 <= i < |regs| :: regs[i].0) &&
      (forall i | 0 <= i < |regs| :: r[regs[i].0] == Content.ConfigMap(regs[i].1)) &&
      (forall o | o in states :: r[o] == states[o])
    decreases |regs|
  {
    if regs != [] {
      var s1 := Content.Registered(states, regs[0].0, regs[0].1);
      Content.RegisteredFresh(states, regs[0].0, regs[0].1);
      RegisterOne(states, s1, regs[0].0, regs[0].1);
      var rest := regs[1..];
      assert forall i | 0 <= i < |rest| :: rest[i] == regs[i + 1];
      RegisterEachFiled(s1, rest);
      NamesCons(regs);
      var r := RegisterEach(s1, rest);
      forall i | 1 <= i < |regs|
        ensures r[regs[i].0] == Content.ConfigMap(regs[i].1)
      {
        assert regs[i] == rest[i - 1];
      }
    }
  }

  /** The names of a registration list are its first name and the names of the rest. */
  lemma NamesCons<P>(regs: seq<(string, seq<NpcStates.StateConfig<P, Content.Dialog>>)>)
    requires regs != []
    ensures (set i | 0 <= i < |regs| :: regs[i].0) == {regs[0].0} + (set i | 0 <= i < |regs[1..]| :: regs[1..][i].0)
  {
    var rest := regs[1..];
    forall i | 0 <= i < |regs|
      ensures regs[i].0 in {regs[0].0} + (set i | 0 <= i < |rest| :: rest[i].0)
    {
      if i > 0 {
        assert regs[i].0 == rest[i - 1].0;
      }
    }
  }

  /** One module's registration: its name is added and every other NPC is kept. */
  lemma RegisterOne<P>(s: Configs<P>, t: Configs<P>, name: string, cfgs: seq<NpcStates.StateConfig<P, Content.Dialog>>)
    requires cfgs != [] && t == Content.Registered(s, name, cfgs)
    ensures t.Keys == s.Keys + {name}
    ensures forall o | o in s && o != name :: t[o] == s[o]
  {
    forall o | o != name
      ensures (o in t <==> o in s) && (o in s ==> t[o] == s[o])
    {
      Content.RegisteredOthers(s, name, cfgs, o);
    }
  }
}
