/**
 * CoolerVendor: the sell station. It prices every stack in the cooler
 * inventory (fish by their own value, other items by their definition's
 * sell price), empties exactly the stacks that fetched a price, and pays
 * the total into the wallet, at most once per cooldown.
 */
module Vendor {
  import opened Wrappers
  import ItemTags
  import opened Rarity
  import opened Items
  import opened Inventory
  import opened Binder
  import opened Wallet
  import opened Cooler

  /**
   * A stack's unit price: a Fish-tagged stack sells at its fish value, any
   * other at its definition's sell price when sellable; never negative.
   */
  function UnitPrice(it: ItemInstance): (p: int)
    ensures p >= 0
    ensures ItemTags.Admits(TagsOf(it), ItemTags.Fish) ==> p == Max0(it.fish.value)
    ensures !ItemTags.Admits(TagsOf(it), ItemTags.Fish) ==>
              p == if it.def.Some? && it.def.value.sellable then Max0(it.def.value.sellPrice) else 0
  {
    if ItemTags.Admits(TagsOf(it), ItemTags.Fish) then Max0(it.fish.value)
    else if it.def.Some? && it.def.value.sellable then Max0(it.def.value.sellPrice)
    else 0
  }

  /** A slot the sale empties: it holds a stack with a positive unit price. */
  predicate Sold(x: Slot) {
    x.Some? && UnitPrice(x.value) > 0
  }

  /** What one slot fetches: unit price times `max(1, count)`, for sold slots only. */
  function SlotValue(x: Slot): (v: int)
    ensures v >= 0
    ensures v > 0 <==> Sold(x)
  {
    if Sold(x) then UnitPrice(x.value) * (if x.value.count < 1 then 1 else x.value.count) else 0
  }

  /** The sale's total over the slots. */
  function SaleTotal(s: seq<Slot>): (t: int)
    ensures t >= 0
  {
    if s == [] then 0 else SaleTotal(s[..|s| - 1]) + SlotValue(s[|s| - 1])
  }

  /** The slots after a sale: sold slots emptied, the others as they were. */
  function Cleared(s: seq<Slot>): (r: seq<Slot>)
    ensures |r| == |s|
    ensures forall k :: 0 <= k < |s| ==> r[k] == if Sold(s[k]) then None else s[k]
  {
    seq(|s|, k requires 0 <= k < |s| => if Sold(s[k]) then None else s[k])
  }

  /** The total is zero exactly when no slot is sold. */
  lemma {:induction false} SaleTotalZero(s: seq<Slot>)
    ensures SaleTotal(s) == 0 <==> forall k :: 0 <= k < |s| ==> !Sold(s[k])
  {
    if s != [] {
      SaleTotalZero(s[..|s| - 1]);
      assert forall k :: 0 <= k < |s| - 1 ==> s[..|s| - 1][k] == s[k];
    }
  }

  /** Selling again right after a sale fetches nothing. */
  lemma SecondSaleFetchesNothing(s: seq<Slot>)
    ensures SaleTotal(Cleared(s)) == 0
  {
    SaleTotalZero(Cleared(s));
  }

  /**
   * `SellFromBinder` on the cooler's model: no model fetches 0; otherwise the
   * total is `SaleTotal`, and when it is positive exactly the sold slots are
   * emptied (with a zero total nothing is).
   */
  method SellFromBinder(model: InventoryModel?) returns (total: int)
    requires model != null ==> model.Valid()
    modifies model
    ensures model != null ==> model.Valid()
    ensures model == null ==> total == 0
    ensures model != null ==> total == SaleTotal(old(model.slots))
    ensures model != null ==> model.slots == if total > 0 then Cleared(old(model.slots)) else old(model.slots)
  {
    if model == null {
      return 0;
    }
    ghost var s := model.slots;
    total := 0;
    var toClear: seq<int> := [];
    var i := 0;
    while i < model.Capacity
      invariant 0 <= i <= model.Capacity
      invariant model.slots == s
      invariant total == SaleTotal(s[..i])
      invariant forall k :: 0 <= k < |toClear| ==> 0 <= toClear[k] < i
      invariant forall k :: 0 <= k < i ==> (Sold(s[k]) <==> k in toClear)
    {
      assert s[..i + 1][..i] == s[..i];
      var it := model.Get(i);
      if it.Some? {
        var count := if it.value.count < 1 then 1 else it.value.count;
        var unit := UnitPrice(it.value);
        if unit > 0 {
          total := total + unit * count;
          toClear := toClear + [i];
        }
      }
      i := i + 1;
    }
    assert s[..i] == s;
    if total <= 0 {
      return 0;
    }
    var j := 0;
    while j < |toClear|
      invariant 0 <= j <= |toClear|
      invariant model.Valid()
      invariant forall k :: 0 <= k < |s| ==> model.slots[k] == if k in toClear[..j] then None else s[k]
    {
      assert toClear[..j + 1] == toClear[..j] + [toClear[j]];
      model.Set(toClear[j], None);
      j := j + 1;
    }
    assert toClear[..j] == toClear;
  }

  class CoolerVendor {
    const sellCooldown: real
    const coolerBinder: InventoryBinder?
    const legacyCooler: CoolerBox?
    var playerInside: bool
    var lastSellTime: real

    ghost predicate Valid()
      reads this, coolerBinder
      reads if coolerBinder != null then {coolerBinder.Model} else {}
    {
      coolerBinder != null ==> coolerBinder.Valid()
    }

    constructor (sellCooldown: real, coolerBinder: InventoryBinder?, legacyCooler: CoolerBox?)
      requires coolerBinder != null ==> coolerBinder.Valid()
      ensures Valid() && !playerInside && lastSellTime == -999.0
      ensures this.sellCooldown == sellCooldown && this.coolerBinder == coolerBinder && this.legacyCooler == legacyCooler
    {
      this.sellCooldown := sellCooldown;
      this.coolerBinder := coolerBinder;
      this.legacyCooler := legacyCooler;
      playerInside := false;
      lastSellTime := -999.0;
    }

    /** The player entering or leaving the station's trigger. */
    method SetPlayerInside(inside: bool)
      modifies this
      ensures playerInside == inside && lastSellTime == old(lastSellTime)
    {
      playerInside := inside;
    }

    /**
     * `AttemptSell`: sells the cooler inventory if there is one, else the
     * legacy cooler's fish, and pays the result into the wallet when it is
     * positive.
     */
    method AttemptSell(wallet: CurrencyManager) returns (earned: int)
      requires Valid() && wallet.Valid()
      modifies wallet, legacyCooler, if coolerBinder != null then {coolerBinder.Model} else {}
      ensures Valid() && wallet.Valid()
      ensures coolerBinder != null ==>
                earned == SaleTotal(old(coolerBinder.Model.slots)) &&
                coolerBinder.Model.slots == if earned > 0 then Cleared(old(coolerBinder.Model.slots)) else old(coolerBinder.Model.slots)
      ensures coolerBinder == null && legacyCooler != null ==>
                earned == SumValues(old(legacyCooler.stored)) && legacyCooler.stored == []
      ensures coolerBinder == null && legacyCooler == null ==> earned == 0
      ensures coolerBinder != null && legacyCooler != null ==> legacyCooler.stored == old(legacyCooler.stored)
      ensures wallet.money == old(wallet.money) + (if earned > 0 then earned else 0)
    {
      earned := 0;
      if coolerBinder != null {
        earned := SellFromBinder(coolerBinder.Model);
      } else if legacyCooler != null {
        earned := legacyCooler.SellAllFish();
      }
      if earned <= 0 {
        return;
      }
      wallet.AddMoney(earned);
    }

    /**
     * `Update`: with the player inside and the sell key down, a sale is
     * attempted only once `sellCooldown` has passed since the last one;
     * the attempt time is recorded and the sale's proceeds are paid in.
     */
    method Update(sellKeyDown: bool, time: real, wallet: CurrencyManager) returns (attempted: bool)
      requires Valid() && wallet.Valid()
      modifies this, wallet, legacyCooler, if coolerBinder != null then {coolerBinder.Model} else {}
      ensures Valid() && wallet.Valid()
      ensures attempted <==> old(playerInside) && sellKeyDown && time - old(lastSellTime) >= sellCooldown
      ensures playerInside == old(playerInside)
      ensures coolerBinder != null && legacyCooler != null ==> legacyCooler.stored == old(legacyCooler.stored)
      ensures attempted ==> lastSellTime == time
      ensures !attempted ==> lastSellTime == old(lastSellTime) && wallet.money == old(wallet.money) &&
                             (coolerBinder != null ==> coolerBinder.Model.slots == old(coolerBinder.Model.slots)) &&
                             (legacyCooler != null ==> legacyCooler.stored == old(legacyCooler.stored))
      // an attempt is the sale `AttemptSell` makes: the cooler inventory's sale total, cleared when positive ...
      ensures attempted && coolerBinder != null ==>
                var total := SaleTotal(old(coolerBinder.Model.slots));
                wallet.money == old(wallet.money) + (if total > 0 then total else 0) &&
                coolerBinder.Model.slots == if total > 0 then Cleared(old(coolerBinder.Model.slots)) else old(coolerBinder.Model.slots)
      // ... or, without one, the legacy cooler's stored value, emptied
      ensures attempted && coolerBinder == null && legacyCooler != null ==>
                var total := SumValues(old(legacyCooler.stored));
                wallet.money == old(wallet.money) + (if total > 0 then total else 0) && legacyCooler.stored == []
      ensures attempted && coolerBinder == null && legacyCooler == null ==> wallet.money == old(wallet.money)
      ensures wallet.money >= old(wallet.money)
    {
      if !playerInside || !sellKeyDown || time - lastSellTime < sellCooldown {
        return false;
      }
      lastSellTime := time;
      var _ := AttemptSell(wallet);
      return true;
    }
  }
}
