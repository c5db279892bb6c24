/*
 * content/npcs/merchant_wanderer.py: the wandering merchant of the lobby.
 * Its dialog offers a paid restock once per run and a donation; it appears
 * once the first gold coin has been picked up.
 */
module MerchantWanderer {
  import opened Common
  import Events
  import NpcStates
  import Content
  import Player
  import Shop

  const NAME := "Comerciante Errante"
  const GREETING := "greeting"

  /** The fixed price of a restock, paid at most once per run. */
  const RESTOCK_COST: int := 15

  const RESTOCK_PAID := "merchant_restock_paid"
  const FIRST_GOLD_PICKUP := "first_gold_pickup"

  /** _can_restock: the restock option is offered. */
  predicate CanRestock(gold: int, ev: Events.EventState)
  {
    gold >= RESTOCK_COST && !ev.Flag(RESTOCK_PAID)
  }

  /** _can_donate: the donation option is offered. */
  predicate CanDonate(gold: int)
  {
    gold >= 1
  }

  /** The event data after a restock has been paid. */
  function RestockPaid(data: map<string, Events.Value>): map<string, Events.Value>
  {
    data[RESTOCK_PAID := Events.VBool(true)]
  }

  /**
   * _restock_action: the player pays the fixed cost, the restock is marked
   * as paid and the cached merchant shop is dropped, so the next visit
   * rebuilds it with the unlocked items.
   */
  method RestockAction<W>(player: Player.Player, em: Events.EventManager<W>, cache: Shop.MerchantShopCache)
    requires em.Valid()
    modifies player`gold, em`data, cache
    ensures em.Valid()
    ensures player.gold == old(player.gold) - RESTOCK_COST
    ensures em.data == RestockPaid(old(em.data))
    ensures !CanRestock(player.gold, em.State())
    ensures cache.shop == null
  {
    player.gold := player.gold - RESTOCK_COST;
    em.SetData(RESTOCK_PAID, Events.VBool(true));
    cache.Refresh();
  }

  /**
   * Paying the restock and then visiting the shop: whatever shop was cached
   * before, the shop now on offer is freshly built and holds exactly the
   * items the donations so far unlock.
   */
  method RestockThenVisit<W>(player: Player.Player, em: Events.EventManager<W>, cache: Shop.MerchantShopCache)
    returns (shop: Shop.Shop)
    requires em.Valid()
    modifies player`gold, em`data, cache
    ensures fresh(shop) && cache.shop == shop && shop.name == "Comerciante" && shop.Separate()
    ensures Shop.Values(shop.defaultItems) == Shop.Values(shop.items)
    ensures Shop.Values(shop.items) == Shop.OnOffer(Shop.MERCHANT_ITEM_POOL, em.State().IntOr(Shop.DONATED_TOTAL_KEY, 0))
    ensures em.State().IntOr(Shop.DONATED_TOTAL_KEY, 0) == old(em.State().IntOr(Shop.DONATED_TOTAL_KEY, 0))
  {
    RestockAction(player, em, cache);
    assert em.State().Flag(Shop.RESTOCK_PAID_KEY);
    shop := cache.Get(em.State());
  }

  /**
   * Once paid, the restock is not offered again whatever the gold, and a
   * restock the dialog offers never leaves the purse negative.
   */
  lemma RestockOncePerRun(gold: int, ev: Events.EventState)
    ensures forall g :: !CanRestock(g, ev.(data := RestockPaid(ev.data)))
    ensures CanRestock(gold, ev) ==> gold - RESTOCK_COST >= 0
  {
  }

  /** _open_donation_action: only raises the flag the game reads when the dialog closes. */
  method OpenDonationAction(player: Player.Player)
    modifies player`pendingDonation
    ensures player.pendingDonation
  {
    player.pendingDonation := true;
  }

  /** _wanderer_spawn_condition */
  predicate SpawnCondition(ev: Events.EventState)
  {
    ev.IsTriggered(FIRST_GOLD_PICKUP)
  }

  /** The single state the merchant registers. */
  function Greeting<P>(): NpcStates.StateConfig<P, Content.Dialog>
  {
    NpcStates.NewConfig<P, Content.Dialog>(GREETING).(
      zoneType := Some("lobby"),
      position := Some((36, 10)),
      glyph := "$",
      color := "gold",
      dialog := Some((ev: Events.EventState) => Content.Tree("create_wanderer_greeting_dialog", "welcome")),
      completedDialog := Some((ev: Events.EventState) => Content.Simple("create_wanderer_greeting_completed")),
      spawnCondition := Some(Content.SpawnIf(SpawnCondition)))
  }

  function States<P>(): seq<NpcStates.StateConfig<P, Content.Dialog>>
  {
    [Greeting()]
  }

  /** register_npc_states */
  method Register<P>(m: NpcStates.NpcStateManager<P, Content.Dialog>)
    requires m.Valid()
    modifies m`states, m`npcOrder, m`stateOrder, m`completion
    ensures m.Valid()
    ensures m.states == Content.Registered(old(m.states), NAME, States())
    ensures m.current == old(m.current)
    ensures NpcStates.CompletionIn(m.completion, NAME, GREETING) == NpcStates.NotStarted
  {
    Content.RegisterAll(m, NAME, States());
  }

  /**
   * In the lobby, the spawn filter admits the merchant's greeting exactly
   * when the first gold coin has been picked up; the state has no
   * transitions and nothing ever marks it completed by itself.
   */
  lemma SpawnsIffFirstGold<P>(c: NpcStates.SpawnCtx<P, Content.Dialog>)
    requires c.cfgs == Content.ConfigMap(States<P>()) && c.zoneType == "lobby"
    ensures GREETING in c.cfgs
    ensures NpcStates.SpawnFilter(c, GREETING) <==> FIRST_GOLD_PICKUP in c.ev.triggered
    ensures c.cfgs[GREETING].transitions == [] && c.cfgs[GREETING].completionCondition.None?
  {
    Content.ConfigMapLookup(States<P>(), 0);
  }
}
