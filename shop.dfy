/**
 * ShopPurchaseService and MultiCatchUpgradeButton: buying an offer into a
 * given inventory slot (fit check before charging, refund when the
 * placement still fails) and the multi-catch upgrade's linear price ladder.
 */
module Shop {
  import opened Wrappers
  import ItemTags
  import opened Items
  import opened Inventory
  import opened InventoryService
  import opened Binder
  import opened Wallet
  import opened Rod

  /** A shop offer: the definition sold, the units per purchase and the price. */
  datatype ShopOffer = ShopOffer(item: Option<ItemDefinition>, count: int, price: int)

  /**
   * `WillFitAt`: slot `index` is in range and either empty, or holds a
   * stackable stack of the offered stackable definition with room for
   * `offer.count` more units.
   */
  predicate WillFitAt(s: seq<Slot>, index: int, offer: ShopOffer)
    requires offer.item.Some?
  {
    0 <= index < |s| &&
    (s[index].None? ||
     (IsStackable(s[index].value) && offer.item.value.stackable &&
      s[index].value.def == offer.item && Space(s[index].value) >= offer.count))
  }

  /**
   * An offer of at least one unit that passes `WillFitAt` lands whole: the
   * slot is empty, or it holds a stack the new one merges into with room
   * for every unit.
   */
  lemma FitMergesWhole(s: seq<Slot>, index: int, offer: ShopOffer)
    requires offer.item.Some? && offer.count >= 1 && WillFitAt(s, index, offer)
    ensures 0 <= index < |s|
    ensures var n := NewItem(offer.item, offer.count);
            s[index].None? || (CanStack(s[index].value, n) && Min(Space(s[index].value), n.count) == n.count)
  {
  }

  /** The checks made before any money moves. */
  predicate Precheck(binder: InventoryBinder?, slotAllowed: ItemTags.Tags, offer: Option<ShopOffer>, s: seq<Slot>, index: int)
  {
    binder != null && offer.Some? && offer.value.item.Some? &&
    ItemTags.Admits(slotAllowed, offer.value.item.value.tags) &&
    WillFitAt(s, index, offer.value)
  }

  /** What the buyer pays on success: a non-positive price costs nothing. */
  function Paid(price: int): int {
    if price > 0 then price else 0
  }

  /**
   * `TryPurchaseToSlot`: when a check before payment fails, or the wallet is
   * missing or cannot pay, nothing changes. Otherwise the price is charged
   * and a stack of `max(1, offer.count)` units goes to the slot through
   * `TryAddAt` with the slot rule respected; if that placement fails the
   * price is refunded, so the balance and the slots end as they began. On
   * success the balance fell by the price and the slot holds exactly
   * `max(1, offer.count)` more units of the offered definition.
   */
  method TryPurchaseToSlot(binder: InventoryBinder?, slotIndex: int, slotAllowed: ItemTags.Tags,
                           offer: Option<ShopOffer>, wallet: CurrencyManager?) returns (ok: bool)
    requires binder != null ==> binder.Valid()
    requires wallet != null ==> wallet.Valid()
    modifies if binder != null then {binder.Model} else {}, wallet
    ensures binder != null ==> binder.Valid()
    ensures wallet != null ==> wallet.Valid()
    ensures binder == null || !Precheck(binder, slotAllowed, offer, old(binder.Model.slots), slotIndex) ||
            wallet == null || !CanSpend(old(wallet.money), offer.value.price) ==>
              !ok && (binder != null ==> binder.Model.slots == old(binder.Model.slots)) &&
              (wallet != null ==> wallet.money == old(wallet.money))
    ensures !ok ==> (binder != null ==> binder.Model.slots == old(binder.Model.slots)) &&
                    (wallet != null ==> wallet.money == old(wallet.money))
    ensures ok ==> binder != null && wallet != null && offer.Some? && offer.value.item.Some? &&
                   0 <= slotIndex < |binder.Model.slots| &&
                   wallet.money == old(wallet.money) - Paid(offer.value.price) &&
                   binder.Model.slots[slotIndex].Some? &&
                   binder.Model.slots[slotIndex].value.def == offer.value.item &&
                   binder.Model.slots[slotIndex].value.count ==
                     Units(old(binder.Model.slots)[slotIndex]) + NewItem(offer.value.item, offer.value.count).count &&
                   forall j :: 0 <= j < |binder.Model.slots| && j != slotIndex ==>
                     binder.Model.slots[j] == old(binder.Model.slots)[j]
  {
    if binder == null || offer.None? || offer.value.item.None? {
      return false;
    }
    var o := offer.value;
    var itemTags := o.item.value.tags;
    if !ItemTags.Admits(slotAllowed, itemTags) {
      return false;
    }
    if !WillFitAt(binder.Model.slots, slotIndex, o) {
      return false;
    }
    if wallet == null {
      return false;
    }
    var paid := wallet.TrySpend(o.price);
    if !paid {
      return false;
    }
    var inst := NewItem(o.item, o.count);
    var placed, _ := binder.TryAddAt(slotIndex, Some(inst), true);
    if !placed {
      wallet.AddMoney(o.price);
      return false;
    }
    return true;
  }

  /** `(level + 1) * priceStep`: the price of the next multi-catch upgrade. */
  function NextPrice(level: int, priceStep: int): int {
    (level + 1) * priceStep
  }

  /** Each upgrade bought raises the next price by exactly `priceStep`. */
  lemma NextPriceLadder(level: int, priceStep: int)
    ensures NextPrice(level + 1, priceStep) == NextPrice(level, priceStep) + priceStep
    ensures priceStep > 0 ==> NextPrice(level + 1, priceStep) > NextPrice(level, priceStep)
    ensures level >= 0 && priceStep > 0 ==> NextPrice(level, priceStep) >= priceStep
  {
  }

  class MultiCatchUpgradeButton {
    const rod: RodStats
    const priceStep: int
    var level: int

    constructor (rod: RodStats, priceStep: int)
      ensures this.rod == rod && this.priceStep == priceStep && level == 0
    {
      this.rod := rod;
      this.priceStep := priceStep;
      level := 0;
    }

    /**
     * `TryUpgrade`: with a wallet that pays `NextPrice(level, priceStep)`,
     * the level rises by one and the rod's multi-catch counter is upgraded;
     * with no wallet or a refused spend, nothing changes.
     */
    method TryUpgrade(wallet: CurrencyManager?)
      requires wallet != null ==> wallet.Valid()
      modifies this, rod, wallet
      ensures wallet != null ==> wallet.Valid()
      ensures wallet == null || !CanSpend(old(wallet.money), NextPrice(old(level), priceStep)) ==>
                level == old(level) && rod.multiCatchCount == old(rod.multiCatchCount) &&
                (wallet != null ==> wallet.money == old(wallet.money))
      ensures wallet != null && CanSpend(old(wallet.money), NextPrice(old(level), priceStep)) ==>
                level == old(level) + 1 &&
                wallet.money == old(wallet.money) - Paid(NextPrice(old(level), priceStep)) &&
                rod.multiCatchCount == (if old(rod.multiCatchCount) + 1 < 1 then 1 else old(rod.multiCatchCount) + 1)
      // the upgrade touches only the multi-catch counter of the rod
      ensures rod.reelLevel == old(rod.reelLevel) && rod.bait == old(rod.bait)
      ensures rod.overrideRarityWeights == old(rod.overrideRarityWeights) && rod.overridePerRarityMul == old(rod.overridePerRarityMul)
      ensures rod.overrideHorizMul == old(rod.overrideHorizMul) && rod.overrideFullMul == old(rod.overrideFullMul)
      ensures rod.lureWeights == old(rod.lureWeights) && rod.fishBaitWeights == old(rod.fishBaitWeights)
    {
      var price := NextPrice(level, priceStep);
      if wallet == null {
        return;
      }
      var ok := wallet.TrySpend(price);
      if !ok {
        return;
      }
      rod.UpgradeMultiCatch();
      level := level + 1;
    }
  }
}
