/*
 * game.py: the key handlers of the Game object that keep integer cursors
 * and the console history, the event unlocks applied on a death by
 * poison, and what happens to the NPC state machine when a dialog closes.
 * Keys arrive already mapped to what they mean: in the inventory, pause
 * and options handlers both the arrow and the vi key of a direction give
 * Up or Down, while the donation selector and the console history take
 * only the arrows.  Drawing, sounds, music volume and the message log are
 * not part of this model.
 */
module Game {
  import opened Common
  import Events
  import NpcStates
  import Shop
  import Player
  import Alchemist

  /** config.py's GameState. */
  datatype GameState =
    | MainMenu | Playing | Inventory | Dead | Victory | Paused | Targeting
    | Dialog | Console | SaveMenu | Shop | Donation | Options

  datatype InventoryMode = Normal | Drop

  datatype Key = Up | Down | Left | Right | PageUp | PageDown | Enter | Escape | Backspace | ToggleInventory
               | ToggleDrop | Typed(c: char) | Other

  /** How many inventory lines are visible at once. */
  const INVENTORY_MAX_VISIBLE: int := 12
  const PAUSE_OPTIONS := 3
  const OPTIONS_COUNT := 2
  const MAX_DONATION := 99
  const HISTORY_LIMIT := 50
  const DONATED_TOTAL := "merchant_donated_total"

  function Max(a: int, b: int): int { if a >= b then a else b }
  function Min(a: int, b: int): int { if a <= b then a else b }

  // ---------------------------------------------------------------------
  // The inventory list window
  // ---------------------------------------------------------------------

  /** The cursor's line is one of the visible lines. */
  predicate InWindow(cursor: int, scroll: int)
  {
    scroll <= cursor < scroll + INVENTORY_MAX_VISIBLE
  }

  /** The scroll after the cursor moved: shifted just enough to show the cursor. */
  function Follow(cursor: int, scroll: int): int
  {
    if cursor < scroll then cursor
    else if cursor >= scroll + INVENTORY_MAX_VISIBLE then cursor - INVENTORY_MAX_VISIBLE + 1
    else scroll
  }

  /**
   * Follow keeps the window where it is when the cursor is visible, and
   * otherwise moves it no further than any window showing the cursor.
   */
  lemma FollowMinimal(cursor: int, scroll: int, other: int)
    requires InWindow(cursor, other)
    ensures InWindow(cursor, Follow(cursor, scroll))
    ensures InWindow(cursor, scroll) ==> Follow(cursor, scroll) == scroll
    ensures Abs(Follow(cursor, scroll) - scroll) <= Abs(other - scroll)
  {
  }

  function Abs(x: int): int { if x < 0 then -x else x }

  // ---------------------------------------------------------------------
  // The donation selector
  // ---------------------------------------------------------------------

  /** The amount the selector can reach with this much gold. */
  function DonationCap(gold: int): int { Min(MAX_DONATION, gold) }

  /** The selector's amount after Up (step 10 on the tens digit, else 1). */
  function DonationUp(amount: int, digit: int, gold: int): int
  {
    Min(DonationCap(gold), amount + (if digit == 1 then 10 else 1))
  }

  /** The selector's amount after Down. */
  function DonationDown(amount: int, digit: int): int
  {
    Max(0, amount - (if digit == 1 then 10 else 1))
  }

  predicate DonationOk(amount: int, gold: int)
  {
    0 <= amount <= DonationCap(gold)
  }

  /**
   * With a purse that is not negative, Up and Down keep the amount between
   * 0 and min(99, gold); Up never lowers it and Down never raises it.
   */
  lemma DonationStaysInRange(amount: int, digit: int, gold: int)
    requires gold >= 0 && DonationOk(amount, gold)
    ensures DonationOk(DonationUp(amount, digit, gold), gold) && DonationUp(amount, digit, gold) >= amount
    ensures DonationOk(DonationDown(amount, digit), gold) && DonationDown(amount, digit) <= amount
  {
  }

  /** Ten Up presses on the units digit from 0 reach min(10, gold): every press adds one until the cap. */
  lemma {:induction false} UnitsStepping(gold: int, k: nat)
    requires gold >= 0
    ensures Presses(0, 0, gold, k) == Min(k, DonationCap(gold))
    decreases k
  {
    if k > 0 {
      UnitsStepping(gold, k - 1);
    }
  }

  /** The amount after k Up presses. */
  function Presses(amount: int, digit: int, gold: int, k: nat): int
    decreases k
  {
    if k == 0 then amount else DonationUp(Presses(amount, digit, gold, k - 1), digit, gold)
  }

  /** The event data after a donation of `amount`. */
  function Donated(data: map<string, Events.Value>, amount: int): map<string, Events.Value>
  {
    var total := if DONATED_TOTAL in data then Events.AsInt(data[DONATED_TOTAL]) else 0;
    data[DONATED_TOTAL := Events.VInt(total + amount)]
  }

  /** A confirmed donation: the purse pays, the merchant's total grows and the cached shop is dropped. */
  method Donate<W>(amount: int, player: Player.Player, em: Events.EventManager<W>, cache: Shop.MerchantShopCache)
    requires em.Valid()
    modifies player`gold, em`data, cache
    ensures em.Valid() && cache.shop == null
    ensures player.gold == old(player.gold) - amount && em.data == Donated(old(em.data), amount)
  {
    player.gold := player.gold - amount;
    var total := if DONATED_TOTAL in em.data then Events.AsInt(em.data[DONATED_TOTAL]) else 0;
    em.SetData(DONATED_TOTAL, Events.VInt(total + amount));
    cache.Refresh();
  }

  /** What a confirmed donation moves from the purse to the merchant's total is conserved. */
  lemma DonationConserves(gold: int, ev: Events.EventState, amount: int)
    ensures var ev' := ev.(data := Donated(ev.data, amount));
      (gold - amount) + ev'.IntOr(DONATED_TOTAL, 0) == gold + ev.IntOr(DONATED_TOTAL, 0)
  {
  }

  // ---------------------------------------------------------------------
  // The console history
  // ---------------------------------------------------------------------

  /** The history after a command is added: the oldest entry goes once there are more than 50. */
  function Remember(history: seq<string>, command: string): seq<string>
  {
    var h := history + [command];
    if |h| > HISTORY_LIMIT then h[1..] else h
  }

  /** The history stays within its limit and always ends with the newest commands. */
  lemma RememberKeepsNewest(history: seq<string>, command: string)
    requires |history| <= HISTORY_LIMIT
    ensures var r := Remember(history, command);
      |r| == Min(|history| + 1, HISTORY_LIMIT) && r == (history + [command])[|history| + 1 - |r|..]
      && r[|r| - 1] == command
  {
  }

  predicate ConsoleOk(history: seq<string>, index: int)
  {
    |history| <= HISTORY_LIMIT && -1 <= index < |history|
  }

  // ---------------------------------------------------------------------
  // Death by poison and closing a dialog
  // ---------------------------------------------------------------------

  /** The triggered set after a death by poison. */
  function PoisonDeath(triggered: set<string>): set<string>
  {
    if Alchemist.UNLOCKED in triggered
    then triggered + {Alchemist.UNLOCKED, Alchemist.SECOND_POISON, Alchemist.GREETING_DONE}
    else triggered + {Alchemist.UNLOCKED}
  }

  /**
   * The first death by poison only unlocks the alchemist; the second also
   * poisons it, so its greeting turns into the corpse, and after that a
   * further death changes nothing.
   */
  lemma PoisonDeaths(t: set<string>)
    requires Alchemist.UNLOCKED !in t && Alchemist.SECOND_POISON !in t
    ensures Alchemist.UNLOCKED in PoisonDeath(t) && Alchemist.SECOND_POISON !in PoisonDeath(t)
    ensures Alchemist.SECOND_POISON in PoisonDeath(PoisonDeath(t)) && Alchemist.GREETING_DONE in PoisonDeath(PoisonDeath(t))
    ensures PoisonDeath(PoisonDeath(PoisonDeath(t))) == PoisonDeath(PoisonDeath(t))
  {
  }

  /** The state whose completion a dialog close may set: the one of the interaction, else the current one. */
  function ClosedState(interaction: Option<string>, current: Option<string>): Option<string>
  {
    if interaction.Some? && interaction.value != "" then interaction
    else if current.Some? && current.value != "" then current
    else None
  }

  /** The completion map after a dialog close marks state s of NPC n, as the handler writes it. */
  function CloseMark<P, D>(states: map<string, map<string, NpcStates.StateConfig<P, D>>>, comp: NpcStates.CompMap,
                           n: string, s: Option<string>): NpcStates.CompMap
  {
    if s.Some? && NpcStates.CompletionIn(comp, n, s.value) != NpcStates.Completed &&
       n in states && s.value in states[n] && states[n][s.value].completionCondition.Some?
    then NpcStates.SetCompletionIn(comp, n, s.value, NpcStates.Completed)
    else comp
  }

  /**
   * Closing a dialog completes the state exactly when its configuration
   * has a completion condition, and touches no other entry.
   */
  lemma CloseMarkEffect<P, D>(states: map<string, map<string, NpcStates.StateConfig<P, D>>>, comp: NpcStates.CompMap,
                              n: string, s: string)
    ensures var r := CloseMark(states, comp, n, Some(s));
      (n in states && s in states[n] && states[n][s].completionCondition.Some? ==>
         NpcStates.CompletionIn(r, n, s) == NpcStates.Completed) &&
      (!(n in states && s in states[n] && states[n][s].completionCondition.Some?) ==> r == comp) &&
      (forall m, t | m != n || t != s :: NpcStates.CompletionIn(r, m, t) == NpcStates.CompletionIn(comp, m, t))
  {
  }

  /** A state an action moved the NPC to while the dialog was open is not the one completed. */
  lemma InteractionStateWins(interaction: string, current: Option<string>)
    requires interaction != ""
    ensures ClosedState(Some(interaction), current) == Some(interaction)
  {
  }

  // ---------------------------------------------------------------------
  // The game object
  // ---------------------------------------------------------------------

  class Game {
    var state: GameState
    var running: bool
    var inventoryMode: InventoryMode
    var inventoryCursor: int
    var inventoryScroll: int
    var consoleInput: string
    var consoleHistory: seq<string>
    var consoleHistoryIndex: int
    var pauseMenuCursor: int
    var optionsMenuCursor: int
    var optionsReturnState: GameState
    var donationAmount: int
    var donationDigit: int
    /** The NPC of the last interaction (its entity's name) and its FSM state when the interaction began. */
    var lastInteractedNpc: Option<string>
    var lastInteractedState: Option<string>

    /** The fields Game.__init__ gives these values. */
    constructor ()
      ensures state == MainMenu && running
      ensures inventoryMode == Normal && inventoryCursor == 0 && inventoryScroll == 0
      ensures consoleInput == "" && consoleHistory == [] && consoleHistoryIndex == -1
      ensures pauseMenuCursor == 0 && optionsMenuCursor == 0 && optionsReturnState == Paused
      ensures donationAmount == 0 && donationDigit == 0
      ensures lastInteractedNpc.None? && lastInteractedState.None?
    {
      state := MainMenu;
      running := true;
      inventoryMode := Normal;
      inventoryCursor := 0;
      inventoryScroll := 0;
      consoleInput := "";
      consoleHistory := [];
      consoleHistoryIndex := -1;
      pauseMenuCursor := 0;
      optionsMenuCursor := 0;
      optionsReturnState := Paused;
      donationAmount := 0;
      donationDigit := 0;
      lastInteractedNpc := None;
      lastInteractedState := None;
    }

    /**
     * _handle_inventory_input for the keys that move the cursor or close
     * the list (Enter hands the item under the cursor to the inventory
     * operations, which are modelled on their own).
     */
    method HandleInventoryKey(key: Key, size: nat)
      modifies this`inventoryCursor, this`inventoryScroll, this`inventoryMode, this`state
      ensures key == Escape || key == ToggleInventory ==>
        inventoryMode == Normal && inventoryCursor == 0 && inventoryScroll == 0 && state == Playing
      ensures key == Up || key == Down ==> inventoryMode == old(inventoryMode) && state == old(state)
      ensures (key == Up || key == Down) && size == 0 ==>
        inventoryCursor == old(inventoryCursor) && inventoryScroll == old(inventoryScroll)
      ensures key == Up && size > 0 ==>
        inventoryCursor == (old(inventoryCursor) - 1) % size && inventoryScroll == Follow(inventoryCursor, old(inventoryScroll))
      ensures key == Down && size > 0 ==>
        inventoryCursor == (old(inventoryCursor) + 1) % size && inventoryScroll == Follow(inventoryCursor, old(inventoryScroll))
      ensures (key == Up || key == Down) && size > 0 ==> 0 <= inventoryCursor < size && InWindow(inventoryCursor, inventoryScroll)
      ensures key == PageUp ==>
        inventoryScroll == Max(0, old(inventoryScroll) - INVENTORY_MAX_VISIBLE) && inventoryCursor == inventoryScroll
      ensures key == PageDown ==>
        inventoryScroll == Min(Max(0, size - INVENTORY_MAX_VISIBLE), old(inventoryScroll) + INVENTORY_MAX_VISIBLE) &&
        inventoryCursor == Min(inventoryScroll, size - 1)
      ensures key == ToggleDrop ==>
        inventoryMode == (if old(inventoryMode) == Drop then Normal else Drop) && state == old(state) &&
        inventoryCursor == old(inventoryCursor) && inventoryScroll == old(inventoryScroll)
      ensures key !in {Escape, ToggleInventory, Up, Down, PageUp, PageDown, ToggleDrop} ==>
        inventoryCursor == old(inventoryCursor) && inventoryScroll == old(inventoryScroll) &&
        inventoryMode == old(inventoryMode) && state == old(state)
    {
      if key == Escape || key == ToggleInventory {
        inventoryMode, inventoryCursor, inventoryScroll, state := Normal, 0, 0, Playing;
      } else if key == Up {
        if size > 0 {
          inventoryCursor := (inventoryCursor - 1) % size;
          if inventoryCursor < inventoryScroll {
            inventoryScroll := inventoryCursor;
          } else if inventoryCursor >= inventoryScroll + INVENTORY_MAX_VISIBLE {
            inventoryScroll := inventoryCursor - INVENTORY_MAX_VISIBLE + 1;
          }
        }
      } else if key == Down {
        if size > 0 {
          inventoryCursor := (inventoryCursor + 1) % size;
          if inventoryCursor >= inventoryScroll + INVENTORY_MAX_VISIBLE {
            inventoryScroll := inventoryCursor - INVENTORY_MAX_VISIBLE + 1;
          } else if inventoryCursor < inventoryScroll {
            inventoryScroll := inventoryCursor;
          }
        }
      } else if key == PageUp {
        inventoryScroll := Max(0, inventoryScroll - INVENTORY_MAX_VISIBLE);
        inventoryCursor := inventoryScroll;
      } else if key == PageDown {
        var maxScroll := Max(0, size - INVENTORY_MAX_VISIBLE);
        inventoryScroll := Min(maxScroll, inventoryScroll + INVENTORY_MAX_VISIBLE);
        inventoryCursor := Min(inventoryScroll, size - 1);
      } else if key == ToggleDrop {
        inventoryMode := if inventoryMode == Drop then Normal else Drop;
      }
    }

    /** _handle_pause_input (the sounds are left out). */
    method HandlePauseKey(key: Key)
      modifies this`pauseMenuCursor, this`state, this`running, this`optionsMenuCursor, this`optionsReturnState
      ensures key == Escape ==> pauseMenuCursor == 0 && state == Playing && running == old(running)
      ensures key == Up ==> pauseMenuCursor == (old(pauseMenuCursor) - 1) % PAUSE_OPTIONS && state == old(state)
      ensures key == Down ==> pauseMenuCursor == (old(pauseMenuCursor) + 1) % PAUSE_OPTIONS && state == old(state)
      ensures key == Enter && old(pauseMenuCursor) == 0 ==> pauseMenuCursor == 0 && state == Playing && running == old(running)
      ensures key == Enter && old(pauseMenuCursor) == 1 ==>
        optionsMenuCursor == 0 && optionsReturnState == Paused && state == Options && running == old(running)
      ensures key == Enter && old(pauseMenuCursor) == 2 ==> !running && state == old(state)
      ensures key == Enter && old(pauseMenuCursor) !in {0, 1, 2} ==> state == old(state) && running == old(running)
      ensures key !in {Escape, Up, Down, Enter} ==>
        pauseMenuCursor == old(pauseMenuCursor) && state == old(state) && running == old(running)
      ensures key == Up || key == Down ==> 0 <= pauseMenuCursor < PAUSE_OPTIONS
      ensures key != Enter || old(pauseMenuCursor) != 1 ==>
        optionsMenuCursor == old(optionsMenuCursor) && optionsReturnState == old(optionsReturnState)
    {
      if key == Escape {
        pauseMenuCursor, state := 0, Playing;
      } else if key == Up {
        pauseMenuCursor := (pauseMenuCursor - 1) % PAUSE_OPTIONS;
      } else if key == Down {
        pauseMenuCursor := (pauseMenuCursor + 1) % PAUSE_OPTIONS;
      } else if key == Enter {
        if pauseMenuCursor == 0 {
          pauseMenuCursor, state := 0, Playing;
        } else if pauseMenuCursor == 1 {
          optionsMenuCursor, optionsReturnState, state := 0, Paused, Options;
        } else if pauseMenuCursor == 2 {
          running := false;
        }
      }
    }

    /** _handle_options_input (Left and Right change the music volume, which is left out). */
    method HandleOptionsKey(key: Key)
      modifies this`optionsMenuCursor, this`state
      ensures key == Escape ==> optionsMenuCursor == 0 && state == old(optionsReturnState)
      ensures key == Up ==> optionsMenuCursor == (old(optionsMenuCursor) - 1) % OPTIONS_COUNT && state == old(state)
      ensures key == Down ==> optionsMenuCursor == (old(optionsMenuCursor) + 1) % OPTIONS_COUNT && state == old(state)
      ensures key == Enter && old(optionsMenuCursor) == 1 ==> optionsMenuCursor == 0 && state == old(optionsReturnState)
      ensures key == Enter && old(optionsMenuCursor) != 1 ==> optionsMenuCursor == old(optionsMenuCursor) && state == old(state)
      ensures key !in {Escape, Up, Down, Enter} ==> optionsMenuCursor == old(optionsMenuCursor) && state == old(state)
      ensures key == Up || key == Down ==> 0 <= optionsMenuCursor < OPTIONS_COUNT
    {
      if key == Escape {
        optionsMenuCursor, state := 0, optionsReturnState;
      } else if key == Up {
        optionsMenuCursor := (optionsMenuCursor - 1) % OPTIONS_COUNT;
      } else if key == Down {
        optionsMenuCursor := (optionsMenuCursor + 1) % OPTIONS_COUNT;
      } else if key == Enter {
        if optionsMenuCursor == 1 {
          optionsMenuCursor, state := 0, optionsReturnState;
        }
      }
    }

    /** _open_donation */
    method OpenDonation()
      modifies this`donationAmount, this`donationDigit, this`state
      ensures donationAmount == 0 && donationDigit == 0 && state == Donation
    {
      donationAmount, donationDigit, state := 0, 0, Donation;
    }

    /**
     * _handle_donation_input: Left and Right pick the digit, Up and Down
     * step the amount, Enter donates a positive amount, drops the cached
     * merchant shop so that the next visit sees the new total, and closes;
     * Escape closes.
     */
    method HandleDonationKey<W>(key: Key, player: Player.Player, em: Events.EventManager<W>, cache: Shop.MerchantShopCache)
      requires em.Valid()
      modifies this`donationAmount, this`donationDigit, this`state, player`gold, em`data, cache
      ensures em.Valid()
      ensures key == Left ==> donationDigit == 1
      ensures key == Right ==> donationDigit == 0
      ensures key != Left && key != Right ==> donationDigit == old(donationDigit)
      ensures key == Up ==> donationAmount == DonationUp(old(donationAmount), old(donationDigit), old(player.gold))
      ensures key == Down ==> donationAmount == DonationDown(old(donationAmount), old(donationDigit))
      ensures key != Up && key != Down ==> donationAmount == old(donationAmount)
      ensures key == Enter && old(donationAmount) > 0 ==>
        player.gold == old(player.gold) - old(donationAmount) && em.data == Donated(old(em.data), old(donationAmount))
      ensures !(key == Enter && old(donationAmount) > 0) ==> player.gold == old(player.gold) && em.data == old(em.data)
      ensures cache.shop == if key == Enter && old(donationAmount) > 0 then null else old(cache.shop)
      ensures key == Enter || key == Escape ==> state == Playing
      ensures key != Enter && key != Escape ==> state == old(state)
      ensures old(player.gold) >= 0 && DonationOk(old(donationAmount), old(player.gold)) ==>
        player.gold >= 0 && (key != Enter ==> DonationOk(donationAmount, player.gold))
    {
      var cap := DonationCap(player.gold);
      if key == Left {
        donationDigit := 1;
      } else if key == Right {
        donationDigit := 0;
      } else if key == Up {
        var step := if donationDigit == 1 then 10 else 1;
        donationAmount := Min(cap, donationAmount + step);
      } else if key == Down {
        var step := if donationDigit == 1 then 10 else 1;
        donationAmount := Max(0, donationAmount - step);
      } else if key == Enter {
        if donationAmount > 0 {
          Donate(donationAmount, player, em, cache);
        }
        state := Playing;
      } else if key == Escape {
        state := Playing;
      }
    }

    /**
     * _handle_console_input: Escape closes and clears, Enter stores a
     * non-blank command and closes, Up and Down walk the history, Backspace
     * drops the last character and a printable key appends its character.
     * Running the command is the dev-command manager's business and is not
     * repeated here.
     */
    method HandleConsoleKey(key: Key)
      requires ConsoleOk(consoleHistory, consoleHistoryIndex)
      modifies this`state, this`consoleInput, this`consoleHistory, this`consoleHistoryIndex
      ensures ConsoleOk(consoleHistory, consoleHistoryIndex)
      ensures key != Escape && key != Enter ==> state == old(state)
      ensures key != Enter ==> consoleHistory == old(consoleHistory)
      ensures key == Escape ==>
        (state == Playing && consoleInput == "" && consoleHistoryIndex == -1 && consoleHistory == old(consoleHistory))
      ensures key == Enter && Strip(old(consoleInput)) != "" ==>
        (consoleHistory == Remember(old(consoleHistory), old(consoleInput)) && consoleHistoryIndex == -1 &&
         consoleInput == "" && state == Playing)
      ensures key == Enter && Strip(old(consoleInput)) == "" ==>
        (consoleHistory == old(consoleHistory) && consoleHistoryIndex == old(consoleHistoryIndex) &&
         consoleInput == old(consoleInput) && state == old(state))
      ensures key == Up && old(consoleHistory) != [] ==>
        (consoleHistoryIndex == (if old(consoleHistoryIndex) == -1 then |consoleHistory| - 1
                                 else Max(0, old(consoleHistoryIndex) - 1)) &&
         consoleInput == consoleHistory[consoleHistoryIndex])
      ensures key == Down && old(consoleHistoryIndex) >= 0 ==>
        (if old(consoleHistoryIndex) + 1 >= |old(consoleHistory)| then consoleHistoryIndex == -1 && consoleInput == ""
         else consoleHistoryIndex == old(consoleHistoryIndex) + 1 && consoleInput == consoleHistory[consoleHistoryIndex])
      ensures (key == Up && old(consoleHistory) == []) || (key == Down && old(consoleHistoryIndex) < 0) ==>
        (consoleHistoryIndex == old(consoleHistoryIndex) && consoleInput == old(consoleInput))
      ensures key == Backspace ==>
        consoleInput == (if old(consoleInput) == [] then [] else old(consoleInput)[..|old(consoleInput)| - 1])
      ensures key.Typed? ==> consoleInput == old(consoleInput) + [key.c]
    {
      if key == Escape {
        state, consoleInput, consoleHistoryIndex := Playing, "", -1;
      } else if key == Enter {
        if Strip(consoleInput) != "" {
          consoleHistory := consoleHistory + [consoleInput];
          if |consoleHistory| > HISTORY_LIMIT {
            consoleHistory := consoleHistory[1..];
          }
          consoleHistoryIndex := -1;
          consoleInput := "";
          state := Playing;
        }
      } else if key == Up {
        if consoleHistory != [] {
          if consoleHistoryIndex == -1 {
            consoleHistoryIndex := |consoleHistory| - 1;
          } else {
            consoleHistoryIndex := Max(0, consoleHistoryIndex - 1);
          }
          consoleInput := consoleHistory[consoleHistoryIndex];
        }
      } else if key == Down {
        if consoleHistory != [] && consoleHistoryIndex >= 0 {
          consoleHistoryIndex := consoleHistoryIndex + 1;
          if consoleHistoryIndex >= |consoleHistory| {
            consoleHistoryIndex := -1;
            consoleInput := "";
          } else {
            consoleInput := consoleHistory[consoleHistoryIndex];
          }
        }
      } else if key == Backspace {
        consoleInput := if consoleInput == [] then [] else consoleInput[..|consoleInput| - 1];
      } else if key.Typed? {
        consoleInput := consoleInput + [key.c];
      }
    }

    /**
     * The unlocks of _on_player_death for the cause of death (the state
     * change, music and respawn are left out).
     */
    method ApplyDeathUnlocks<W>(em: Events.EventManager<W>, deathCause: Option<string>)
      requires em.Valid()
      modifies em`triggered
      ensures em.Valid()
      ensures em.triggered == if deathCause == Some("poison") then PoisonDeath(old(em.triggered)) else old(em.triggered)
    {
      if deathCause == Some("poison") {
        var wasUnlocked := em.IsEventTriggered(Alchemist.UNLOCKED);
        em.triggered := em.triggered + {Alchemist.UNLOCKED};
        if wasUnlocked {
          em.triggered := em.triggered + {Alchemist.SECOND_POISON};
          em.triggered := em.triggered + {Alchemist.GREETING_DONE};
        }
      }
    }

    /**
     * _on_dialog_closed: the state the NPC was in when the interaction
     * began (else its current state) is marked COMPLETED if its
     * configuration has a completion condition; then only cross-zone
     * transitions are taken, and after a transition the game events are
     * checked.  Without a last interaction nothing happens; a guard that
     * raises leaves the interaction references set.  Refreshing the entity's dialog and moving it between zones
     * are left out.
     */
    method OnDialogClosed<P, D, W>(m: NpcStates.NpcStateManager<P, D>, em: Events.EventManager<W>, player: P, w: W)
      returns (r: Option<NpcStates.TransitionResult>, w': W)
      requires m.Valid() && em.Valid()
      modifies this`lastInteractedNpc, this`lastInteractedState, m`current, m`completion, em`status, em`triggered
      ensures m.Valid() && em.Valid()
      ensures old(lastInteractedNpc).None? ==>
        (r.None? && m.current == old(m.current) && m.completion == old(m.completion) &&
         lastInteractedState == old(lastInteractedState))
      ensures r.Some? && !r.value.Raised? ==> lastInteractedNpc.None? && lastInteractedState.None?
      ensures r.Some? && r.value.Raised? ==>
        lastInteractedNpc == old(lastInteractedNpc) && lastInteractedState == old(lastInteractedState)
      ensures old(lastInteractedNpc).Some? ==>
        (r.Some? &&
         var name := old(lastInteractedNpc).value;
         var n := m.Norm(name);
         var cur := if n in old(m.current) then Some(old(m.current)[n]) else None;
         var comp1 := CloseMark(m.states, old(m.completion), n, ClosedState(old(lastInteractedState), cur));
         NpcStates.FsmStep(r.value, m.current, m.completion) ==
           NpcStates.TransitionSpec(m.npcOrder, m.states, old(m.current), comp1, name, player, old(em.State()), true))
      ensures r.Some? && r.value.Moved? ==>
        Events.Scan(em.status, em.triggered, w') ==
          Events.ScanFrom(em.events, em.order, 0, em.runCount, em.data, Events.Scan(old(em.status), old(em.triggered), w))
      ensures !(r.Some? && r.value.Moved?) ==> em.status == old(em.status) && em.triggered == old(em.triggered) && w' == w
    {
      w' := w;
      if lastInteractedNpc.None? {
        r := None;
        return;
      }
      var name := lastInteractedNpc.value;
      var cur := m.GetCurrentState(name);
      var marked := ClosedState(lastInteractedState, cur);
      if marked.Some? {
        MarkClosed(m, name, marked.value);
      }
      var ev := em.State();
      var t := m.CheckAndTransition(name, player, ev, true);
      r := Some(t);
      if t.Raised? {
        return;
      }
      if t.Moved? {
        var _, w1 := em.CheckAndTrigger(w);
        w' := w1;
      }
      lastInteractedNpc, lastInteractedState := None, None;
    }

    /** The completion step of _on_dialog_closed for one state. */
    static method MarkClosed<P, D>(m: NpcStates.NpcStateManager<P, D>, name: string, s: string)
      requires m.Valid()
      modifies m`completion
      ensures m.Valid()
      ensures m.completion == CloseMark(m.states, old(m.completion), m.Norm(name), Some(s))
    {
      var cfg := m.GetStateConfig(name, s);
      var c := m.GetStateCompletion(name, s);
      if c != NpcStates.Completed && cfg.Some? && cfg.value.completionCondition.Some? {
        m.SetStateCompletion(name, s, NpcStates.Completed);
      }
    }
  }

  /** The inventory window after PageDown shows the cursor, which is on an item whenever there is one. */
  lemma PageDownShowsItem(scroll: int, size: int)
    requires size > 0 && scroll >= 0
    ensures var s := Min(Max(0, size - INVENTORY_MAX_VISIBLE), scroll + INVENTORY_MAX_VISIBLE);
      var c := Min(s, size - 1);
      0 <= c < size && InWindow(c, s) && c == s
  {
  }

  /** On an empty inventory PageDown leaves the cursor at -1, before the first line. */
  lemma PageDownEmpty(scroll: int)
    requires scroll >= 0
    ensures Min(Min(Max(0, 0 - INVENTORY_MAX_VISIBLE), scroll + INVENTORY_MAX_VISIBLE), 0 - 1) == -1
  {
  }
}
