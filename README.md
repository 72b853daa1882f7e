# Fishing game bookkeeping, modelled in Dafny

This project models the integer bookkeeping at the heart of a 2D Unity fishing
game:

- **Slot inventory.** This is the fixed-capacity `InventoryModel`. It has
  `InventoryService.TryMove` (merge or swap between two models), and
  `InventoryBinder`, whose registered slots carry tag masks. Through the binder
  `TryAddFirst` and `TryAddAt` top up stacks and place items.
- **Wallet and purchases.** This is `CurrencyManager`. It has the shop's
  `TryPurchaseToSlot` (fit check, then charge, then place or refund) and the
  multi-catch upgrade button's linear price ladder.
- **Rarity lottery and equipment.** `RarityWeights` tables are clamped to five
  non-negative weights. `FishSpawner.PickRarity` is the cumulative weighted
  scan, and `SpawnFromHook` is the catch loop. `RodStats` chooses the active
  table, and it keeps the level counters and the reel override.
  `ReelDefinition.OnValidate` clamps a reel. `FishingController` equips the
  rod from the bait/lure and reel slots.
- **Cast and reel controller.** This is `FishingController`'s Idle/Casting/Fishing
  machine, with its `fullReel` and `isSinking` sub-flags, the inclusive release
  threshold, the guarded fail sink, and the bait and lure consumption rules.
- **Selling and panels.** `CoolerBox` stores fish up to a capacity and sells
  them all. `CoolerVendor` prices and clears the cooler inventory behind a
  cooldown. `InventoryUIManager` is the two-panel toggle machine and the
  player's movement gate.

The model follows the C# classes. Objects whose fields change in place are
Dafny classes with `modifies` clauses: the inventory model and binder, the
wallet, the rod, the controller, the cooler, the vendor, the panel manager, the
upgrade button and the player's two flags. Item stacks, definitions, fish and
weight tables are values (datatypes and sequences). Each loop, and each
method that replays a transition, is proved against a specification function
of the old state; the remaining methods (`TryAddAt`, `TryPurchaseToSlot`,
`TryUpgrade`, the rod's setters, the vendor's `Update`) state their new state
directly in their postconditions. The
properties the game relies on are proved as lemmas about those functions: units
conserved, no stack above `maxStack`, a non-negative balance, the weighted pick's
bracket, at most one bait or lure consumed per cast, and a panel pair that is
never both open away from the cooler.

Module layout:

| file | module | models |
|---|---|---|
| item_tags.dfy | ItemTags | Assets/Script/Item/ItemTags.cs |
| rarity.dfy | Rarity | Assets/Script/Item/RarityWeights.cs, the five-tier order |
| items.dfy | Items | Assets/Script/Item/ItemInstance.cs and the definition assets |
| reel.dfy | Reel | Assets/Script/Item/ReelDefinition.cs |
| inventory_model.dfy | Inventory | Assets/Script/Inventory/InventoryModel.cs |
| inventory_service.dfy | InventoryService | Assets/Script/Inventory/InventoryService.cs |
| inventory_binder.dfy | Binder | Assets/Script/Inventory/InventoryBinder.cs |
| wallet.dfy | Wallet | Assets/Script/Money/CurrencyManager.cs |
| shop.dfy | Shop | Assets/Script/Shop/ShopPurchaseService.cs, Assets/Script/Shop/MultiCatchUpgradeButton.cs |
| spawner.dfy | Spawner | Assets/Script/Fishing/FishSpawner.cs |
| rod_stats.dfy | Rod | Assets/Script/Fishing/RodStats.cs |
| player.dfy | PlayerModel | the two flags of Assets/Script/Player/PlayerController.cs that the core sets |
| fishing.dfy | Fishing | Assets/Script/Fishing/FishingController.cs |
| cooler_box.dfy | Cooler | Assets/Script/Fishing/CoolerBox.cs |
| cooler_vendor.dfy | Vendor | Assets/Script/Money/CoolerVender.cs |
| panels.dfy | Panels | Assets/Script/Inventory/InventoryUIManager.cs |
| wrappers.dfy | Wrappers | `Option`, standing for C# `null` |

## Model

| member | source | states |
|---|---|---|
| ItemTags.NamedFlagsAreDistinctBits | Assets/Script/Item/ItemTags.cs:7-11 | Fish, Lure, Bait, Reel and Misc are each a single bit, and no two share a bit |
| ItemTags.NoneAdmitsNothing | Assets/Script/Item/ItemTags.cs:6 | a mask test against `None` fails, whichever side it is on |
| ItemTags.AllKeepsEveryTag | Assets/Script/Item/ItemTags.cs:13 | `All & t == t`, so `All` admits every tag set except `None` |
| ItemTags.BaitOrLureMask | Assets/Script/Item/ItemTags.cs:8-10 | the mask Bait\|Lure admits bait and lures and rejects fish, reels and misc items |
| Rarity.Tier | Assets/Script/Item/RarityWeights.cs:19-28 | every position 0..4 of a weight table names the tier of that rank |
| Rarity.TierOfRank | Assets/Script/Item/RarityWeights.cs:19-28 | ranking and naming tiers are inverse, so the five positions are the five tiers |
| Rarity.Ones | Assets/Script/Item/RarityWeights.cs:14-17 | every weight is 1, and the table is not all-zero |
| Rarity.ToDict | Assets/Script/Item/RarityWeights.cs:19-28 | exactly five entries, entry of tier t is `max(0, field t)`, all non-negative |
| Rarity.ToDictKeepsNonNegative | Assets/Script/Item/RarityWeights.cs:22-26 | non-negative fields pass through `ToDict` unchanged |
| Rarity.TotalWeight | Assets/Script/Fishing/FishSpawner.cs:118 | the clamped weight sum is never negative |
| Rarity.TotalWeightZero | Assets/Script/Fishing/FishSpawner.cs:118-119 | the clamped sum is 0 exactly when no weight is positive |
| Rarity.AllZeroHasNoWeight | Assets/Script/Item/RarityWeights.cs:30-33 | an all-zero table clamps to a table of total weight 0 |
| Rarity.NegativeFieldIsNotAllZero | Assets/Script/Item/RarityWeights.cs:22-33 | `IsAllZero` reads the raw fields: a table with a negative field is not all-zero although its clamped sum is 0 |
| Items.NewItem | Assets/Script/Item/ItemInstance.cs:16-20 | the new stack has the definition, no fish, and count `max(1, c)` |
| Items.TagsOf | Assets/Script/Item/ItemInstance.cs:13 | a stack's tags are its definition's tags, or `None` without a definition |
| Items.NewItemStackable | Assets/Script/Item/ItemInstance.cs:14-20 | a fresh stack is stackable exactly when its definition exists and is stackable |
| Items.StackabilityIgnoresCount | Assets/Script/Item/ItemInstance.cs:14 | `IsStackable` reads only the definition and the fish data, so a change of count keeps it |
| Items.FromFish | Assets/Script/Item/ItemInstance.cs:22-27 | count 1 with the fish attached, and so never stackable when the fish has a species |
| Reel.ClampMultipliers | Assets/Script/Item/ReelDefinition.cs:24-30 | all seven multipliers are at least 0.01 afterwards, and the horizontal and full-reel multipliers are `max(0.01, x)` of their old values |
| Reel.ClampedRarityMul | Assets/Script/Item/ReelDefinition.cs:33-44 | after clamping, `GetRarityMul` of each tier reads that tier's field floored at 0.01 |
| Reel.WithReelTag | Assets/Script/Item/ReelDefinition.cs:23 | the Reel bit is set and every other bit is kept |
| Reel.OnValidate | Assets/Script/Item/ReelDefinition.cs:21-31 | the Reel tag is set and other bits kept, the reel's multipliers are `ClampMultipliers` of the old ones, so every multiplier is at least 0.01 and each of the seven already at least 0.01 is unchanged, and the rest of the definition is unchanged |
| Reel.OnValidateIdempotent | Assets/Script/Item/ReelDefinition.cs:23-30 | validating twice is the same as validating once |
| Inventory.SetSlot | Assets/Script/Inventory/InventoryModel.cs:19-24 | an in-range index gets the item, and every other slot is unchanged |
| Inventory.Swapped | Assets/Script/Inventory/InventoryModel.cs:26-32 | two in-range slots are exchanged and the rest are unchanged; out of range nothing changes |
| Inventory.SwapTwice | Assets/Script/Inventory/InventoryModel.cs:29 | swapping the same pair twice restores the slots |
| Inventory.SwapKeepsContents | Assets/Script/Inventory/InventoryModel.cs:29 | a swap is a permutation of the slots |
| Inventory.InventoryModel.constructor | Assets/Script/Inventory/InventoryModel.cs:10-15 | exactly `capacity` slots, all empty |
| Inventory.InventoryModel.InRangeIndexesSlots | Assets/Script/Inventory/InventoryModel.cs:44 | `InRange` holds exactly for the positions of the slot list |
| Inventory.InventoryModel.Get | Assets/Script/Inventory/InventoryModel.cs:17-44 | the slot's content in range, and empty out of range |
| Inventory.InventoryModel.Set | Assets/Script/Inventory/InventoryModel.cs:19-24 | the new slots are `SetSlot` of the old ones: a no-op out of range |
| Inventory.InventoryModel.Swap | Assets/Script/Inventory/InventoryModel.cs:26-32 | the new slots are `Swapped` of the old ones |
| Inventory.InventoryModel.Clear | Assets/Script/Inventory/InventoryModel.cs:35-42 | every slot is empty and the capacity is kept |
| InventoryService.PlanMove | Assets/Script/Inventory/InventoryService.cs:16-47 | an empty source or a rejecting mask is refused; a merge conserves the two slots' units and keeps the destination at most `maxStack`; anything else is a plain swap |
| InventoryService.FullStackRefusesMerge | Assets/Script/Inventory/InventoryService.cs:31-32 | a merge into a full stack is refused |
| InventoryService.MergeMovesMinimum | Assets/Script/Inventory/InventoryService.cs:33-38 | a merge moves `min(space, count)` units and empties the source exactly when it all fits |
| InventoryService.SameSlotKeepsStack | Assets/Script/Inventory/InventoryService.cs:29-40 | moving a stack onto its own slot leaves it as it was, because the two adjustments hit the same object |
| InventoryService.TryMove | Assets/Script/Inventory/InventoryService.cs:9-48 | a missing model or out-of-range index gives false; false changes nothing; otherwise success is exactly `PlanMove` accepting, and both models become what the plan says |
| Binder.RuleForFinds | Assets/Script/Inventory/InventoryBinder.cs:200 | `TryGetValue` finds a rule for an index exactly when one is registered under it, and the rule found is that registration |
| Binder.Registered | Assets/Script/Inventory/InventoryBinder.cs:41-58 | registering sets the rule of that index, keeps every other rule, and appends only for a new index |
| Binder.RegisteredKeepsDistinct | Assets/Script/Inventory/InventoryBinder.cs:41-58 | registering keeps at most one rule per index, as the dictionary does |
| Binder.FirstFree | Assets/Script/Inventory/InventoryBinder.cs:143-186 | the result is a listed free index, or none of the listed indices is free |
| Binder.FirstFreeIsFirst | Assets/Script/Inventory/InventoryBinder.cs:143-186 | the index taken is the first free one listed: every listed index before its position is taken |
| Binder.UnitsOfSet | Assets/Script/Inventory/InventoryBinder.cs:137-152 | writing one slot changes a definition's unit total by exactly the written difference |
| Binder.TopUpKeeps | Assets/Script/Inventory/InventoryBinder.cs:128-139 | one top-up conserves units (slots plus item), only raises a same-definition stack up to `maxStack`, and reports done exactly when the item reached 0 |
| Binder.MergePassKeeps | Assets/Script/Inventory/InventoryBinder.cs:121-177 | a whole merge pass conserves units and only tops up stacks; a pass that stops leaves the item at 0, and one that runs through leaves it at least 1 |
| Binder.AddFirstOnlyTopsUpOrPlaces | Assets/Script/Inventory/InventoryBinder.cs:111-188 | as written, every slot is unchanged, topped up within `maxStack`, or an empty slot that now holds the remaining item |
| Binder.AddFirstConserves | Assets/Script/Inventory/InventoryBinder.cs:111-188 | for the corrected add, the units in the slots plus the units still carried on failure equal the units before plus the item's |
| Binder.FirstFreeInRange | Assets/Script/Inventory/InventoryBinder.cs:150-181 | for in-range indices the `Get == null` test and a true in-range emptiness test agree |
| Binder.AddFirstAgreesInRange | Assets/Script/Inventory/InventoryBinder.cs:143-155 | when every registered index lies in the model, the as-written add and the corrected add agree |
| Binder.OutOfRangeSlotLosesItem | Assets/Script/Inventory/InventoryBinder.cs:143-155 | as written, a registered index outside the model makes an empty inventory report success with the item stored nowhere |
| Binder.OutOfRangeSlotCorrected | Assets/Script/Inventory/InventoryBinder.cs:143-186 | corrected, the same call falls back to the model scan and places the item in slot 0 |
| Binder.InventoryBinder.constructor | Assets/Script/Inventory/InventoryBinder.cs:24-38 | a fresh model of `capacity` empty slots and no registered slot |
| Binder.InventoryBinder.RegisterSlot | Assets/Script/Inventory/InventoryBinder.cs:41-58 | the rules become `Registered` of the old rules |
| Binder.InventoryBinder.Clear | Assets/Script/Inventory/InventoryBinder.cs:92-99 | every model slot is empty and the rules are kept |
| Binder.InventoryBinder.TopUpSlot | Assets/Script/Inventory/InventoryBinder.cs:121-141 | one top-up step of the merge loops: the slot and the item end as `TopUp` gives, and `used` says the item is spent |
| Binder.InventoryBinder.MergeRegistered | Assets/Script/Inventory/InventoryBinder.cs:118-141 | the loop ends in the state `MergePass` gives over the admitting registered slots |
| Binder.InventoryBinder.PlaceRegistered | Assets/Script/Inventory/InventoryBinder.cs:143-155 | the item goes into the first admitting registered slot with `Get == null`, and nothing changes if there is none |
| Binder.InventoryBinder.MergeAll | Assets/Script/Inventory/InventoryBinder.cs:161-177 | the fallback merge loop ends in the state `MergePass` gives over all model slots |
| Binder.InventoryBinder.PlaceAll | Assets/Script/Inventory/InventoryBinder.cs:178-187 | the item goes into the first empty model slot, and nothing changes if there is none |
| Binder.InventoryBinder.TryAddFirst | Assets/Script/Inventory/InventoryBinder.cs:111-188 | a missing item gives false and no change; otherwise result, new slots and remaining item are those of `AddFirstAsWritten`, partial merges included; with every registered index in range this is the corrected add, which conserves units |
| Binder.InventoryBinder.TryAddAt | Assets/Script/Inventory/InventoryBinder.cs:194-222 | success exactly for an in-range index whose rule admits the item and whose slot is empty or a same-definition stack with space; the item is placed, or `min(space, count)` units move without passing `maxStack`; failure changes nothing |
| PlayerModel.Player.constructor | Assets/Script/Player/PlayerController.cs:26 | movement starts enabled, with the UI mode Closed |
| PlayerModel.Player.SetMovementEnabled | Assets/Script/Player/PlayerController.cs:83 | only the movement flag changes |
| PlayerModel.AtRightEdgeIsDistance | Assets/Script/Player/PlayerController.cs:84-85 | the edge test is `abs(gap) <= thr`, so no position passes a negative threshold |
| PlayerModel.Player.SetUIMovementMode | Assets/Script/Inventory/InventoryUIManager.cs:130-132 | only the UI movement mode changes, to the given mode |
| Wallet.AfterSpend | Assets/Script/Money/CurrencyManager.cs:33-41 | an amount of at most 0 and an unaffordable amount leave the balance unchanged, and an affordable one subtracts it; a non-negative balance stays non-negative |
| Wallet.RunNeverNegative | Assets/Script/Money/CurrencyManager.cs:13-41 | from a non-negative balance, no sequence of `AddMoney`/`TrySpend` calls makes it negative |
| Wallet.SpendThenRefund | Assets/Script/Shop/ShopPurchaseService.cs:27-35 | spending a price and adding it back restores the balance |
| Wallet.CurrencyManager.constructor | Assets/Script/Money/CurrencyManager.cs:13 | the balance starts at 0 |
| Wallet.CurrencyManager.Money | Assets/Script/Money/CurrencyManager.cs:14 | the balance read is never negative while the wallet keeps its invariant |
| Wallet.CurrencyManager.AddMoney | Assets/Script/Money/CurrencyManager.cs:26-30 | the balance rises by `max(0, amount)` |
| Wallet.CurrencyManager.TrySpend | Assets/Script/Money/CurrencyManager.cs:33-41 | at most 0: true and unchanged; more than the balance: false and unchanged; otherwise true and decreased by exactly the amount |
| Shop.FitMergesWhole | Assets/Script/Shop/ShopPurchaseService.cs:40-54 | an offer of at least one unit that passes `WillFitAt` goes into an in-range slot that is empty or holds a stack it merges into with room for every unit |
| Shop.TryPurchaseToSlot | Assets/Script/Shop/ShopPurchaseService.cs:13-54 | a failed guard, a failed fit check or an unaffordable price changes nothing; a failure after payment is refunded so nothing changes; success charges the price and raises the target slot by the new stack's count, leaving other slots alone |
| Shop.NextPriceLadder | Assets/Script/Shop/MultiCatchUpgradeButton.cs:31-48 | each level raises the next price by exactly `priceStep`, so strictly when it is positive |
| Shop.MultiCatchUpgradeButton.constructor | Assets/Script/Shop/MultiCatchUpgradeButton.cs:12-18 | level 0 |
| Shop.MultiCatchUpgradeButton.TryUpgrade | Assets/Script/Shop/MultiCatchUpgradeButton.cs:29-44 | without a wallet or money, level, balance and multi-catch count are unchanged; otherwise the price `(level+1)*priceStep` is paid, the level goes up by one and the count becomes `max(1, count+1)`; every other rod field is unchanged on both paths |
| Spawner.ScanFromFinds | Assets/Script/Fishing/FishSpawner.cs:125-131 | the scan skips exactly the tiers whose cumulative weight does not exceed `r` |
| Spawner.PrefixWeightMonotone | Assets/Script/Fishing/FishSpawner.cs:126-130 | cumulative clamped weights never decrease along the tier order |
| Spawner.PickIsBracket | Assets/Script/Fishing/FishSpawner.cs:125-131 | for `0 <= r < sum` the picked tier is the first whose cumulative weight exceeds `r`, and its own weight is positive |
| Spawner.ZeroTableGivesCommon | Assets/Script/Fishing/FishSpawner.cs:118-123 | a table with no positive weight picks Common |
| Spawner.FallbackGivesCommon | Assets/Script/Fishing/FishSpawner.cs:136-146 | the fallback table always picks Common |
| Spawner.PickRarity | Assets/Script/Fishing/FishSpawner.cs:113-133 | the two loops compute `Pick`, the cumulative bracket |
| Spawner.OfRarity | Assets/Script/Fishing/FishSpawner.cs:69 | each listed definition is in the table with that rarity, and the list is non-empty when the table has one |
| Spawner.OfRarityComplete | Assets/Script/Fishing/FishSpawner.cs:69 | every definition of the table with that rarity is listed, so with `OfRarity` the list holds exactly those |
| Spawner.ChooseDefinition | Assets/Script/Fishing/FishSpawner.cs:69-72 | a definition of the drawn rarity when the table has one; otherwise an entry of the whole table (possibly a missing one) for a non-empty table, and none for an empty table |
| Spawner.PickAnyDefinition | Assets/Script/Fishing/FishSpawner.cs:107-111 | none for an empty table, otherwise an entry of the table |
| Spawner.MaxDrawnIsMaximum | Assets/Script/Fishing/FishSpawner.cs:62-66 | the running maximum ranks at least every drawn tier, and is Common or one of them |
| Spawner.CatchCount | Assets/Script/Fishing/FishSpawner.cs:53 | the loop count is at least 1 |
| Spawner.CatchesPointwise | Assets/Script/Fishing/FishSpawner.cs:62-72 | the spawned list has one entry per draw, and the i-th is the definition chosen with the i-th draw's tier and pick |
| Spawner.SpawnFromHook | Assets/Script/Fishing/FishSpawner.cs:49-92 | no prefab gives nothing and Common; otherwise one definition per catch from the draw's tier, and `maxRarity` is the maximum drawn tier |
| Rod.PerRarity | Assets/Script/Fishing/RodStats.cs:92-96 | five per-tier multipliers, each the reel's multiplier for that tier |
| Rod.RodStats.constructor | Assets/Script/Fishing/RodStats.cs:22-57 | level 0, one catch, Lure, both tables all ones, no weights override, neutral reel override |
| Rod.RodStats.UpgradeReel | Assets/Script/Fishing/RodStats.cs:61 | `reelLevel` becomes `max(0, reelLevel+1)` and nothing else changes |
| Rod.RodStats.UpgradeMultiCatch | Assets/Script/Fishing/RodStats.cs:63 | the count becomes `max(1, count+1)`, so from a count of at least one the effective count rises by one; nothing else changes |
| Rod.RodStats.GetMultiCatchCount | Assets/Script/Fishing/RodStats.cs:65 | at least 1, and the stored count when that is at least 1 |
| Rod.RodStats.SetBait | Assets/Script/Fishing/RodStats.cs:67 | only the bait type changes |
| Rod.RodStats.SetRarityWeightsOverride | Assets/Script/Fishing/RodStats.cs:70-73 | with a table the rod's weights are that table; with none they are the bait-type default again |
| Rod.RodStats.SetReelOverride | Assets/Script/Fishing/RodStats.cs:76-97 | no reel resets all seven multipliers to 1; a reel sets horizontal and full to at least 0.01 and copies the five per-tier values unclamped |
| Rod.RodStats.DefaultWeights | Assets/Script/Fishing/RodStats.cs:133-137 | the FishBait table when the bait is FishBait, the Lure table otherwise, both clamped |
| Rod.RodStats.GetRarityWeights | Assets/Script/Fishing/RodStats.cs:130-138 | the override when one is set, otherwise the default table; always five weights |
| Fishing.Decremented | Assets/Script/Fishing/FishingController.cs:312-328 | one unit less, and the slot emptied when that reaches 0 |
| Fishing.ConsumedOnFail | Assets/Script/Fishing/FishingController.cs:319-329 | the equipped slot loses one unit and is emptied at 0; out of range or empty, nothing changes; other slots never change |
| Fishing.ConsumedOnSuccess | Assets/Script/Fishing/FishingController.cs:302-316 | a Bait-tagged stack is consumed as on failure; anything else is untouched |
| Fishing.LureSurvivesSuccess | Assets/Script/Fishing/FishingController.cs:310-327 | a non-bait item survives a catch but loses a unit on a failure |
| Fishing.EquipWeights | Assets/Script/Fishing/FishingController.cs:241-277 | an empty slot gives the override {2,1,0,0,0} with Lure; a bait or lure installs its clamped table unless the raw table is all zero; a stack with no definition or another kind installs none; the type is FishBait exactly for a bait definition |
| Fishing.AllZeroEquipmentUsesDefault | Assets/Script/Fishing/FishingController.cs:262-267 | an equipped bait or lure with all-zero weights sets no override |
| Fishing.NoEquipmentDrawsLowTiers | Assets/Script/Fishing/FishingController.cs:247-254 | without bait or lure only Common and Uncommon are drawn |
| Fishing.EquipReel | Assets/Script/Fishing/FishingController.cs:280-283 | a reel override exactly when the reel slot holds a reel definition, and then it is that reel's multipliers |
| Fishing.StepKeepsInv | Assets/Script/Fishing/FishingController.cs:81-231 | every transition keeps the controller consistent: no hook when Idle, and sinking excludes the full reel |
| Fishing.CastStartsOnlyFromIdleAtEdge | Assets/Script/Fishing/FishingController.cs:85-106 | a cast starts exactly from Idle on the key with a linked player within 0.15 of the edge, and clears both sub-flags |
| Fishing.HeldInsideFails | Assets/Script/Fishing/FishingController.cs:137-149 | holding inside `releaseDistance` fails into the sink |
| Fishing.ReleaseAtThresholdCatches | Assets/Script/Fishing/FishingController.cs:156-172 | releasing exactly at `releaseDistance` catches: the threshold is inclusive |
| Fishing.SinkEndsAtDelay | Assets/Script/Fishing/FishingController.cs:222-231 | the sink ends in Idle exactly when the timer reaches `sinkDestroyDelay` |
| Fishing.FullReelLandsWithinTolerance | Assets/Script/Fishing/FishingController.cs:179-205 | the full reel lands in Idle exactly within `catchTolerance` |
| Fishing.LostHookStaysFishing | Assets/Script/Fishing/FishingController.cs:126 | a Fishing controller whose hook is gone does nothing, and stays Fishing |
| Fishing.StepSpends | Assets/Script/Fishing/FishingController.cs:169-216 | a consuming transition needs an unspent cast and spends it; only a new cast renews it |
| Fishing.AtMostOneConsumePerCast | Assets/Script/Fishing/FishingController.cs:169-216 | between two casts, bait or lure is consumed at most once |
| Fishing.FishingController.constructor | Assets/Script/Fishing/FishingController.cs:39-54 | Idle with no sub-flag, slots 6 and 5 |
| Fishing.FishingController.ConsumeOnSuccess | Assets/Script/Fishing/FishingController.cs:302-316 | the slots become `ConsumedOnSuccess` of the old ones |
| Fishing.FishingController.ConsumeOnFail | Assets/Script/Fishing/FishingController.cs:319-329 | the slots become `ConsumedOnFail` of the old ones |
| Fishing.FishingController.ApplyEquippedToRod | Assets/Script/Fishing/FishingController.cs:236-284 | the rod's override, bait type and reel override are those the equipped slots determine; level and count kept |
| Fishing.FishingController.StartCast | Assets/Script/Fishing/FishingController.cs:97-119 | the fields follow `StartCastStep`; a cast locks movement and equips the rod, a refusal changes neither; the player's UI mode and the rod's counters and default tables are kept |
| Fishing.FishingController.OnHookHitWater | Assets/Script/Fishing/FishingController.cs:121 | the state becomes Fishing |
| Fishing.FishingController.TriggerFailSink | Assets/Script/Fishing/FishingController.cs:207-220 | already sinking: nothing; otherwise one failure consumption and the sink starts |
| Fishing.FishingController.UpdateSinking | Assets/Script/Fishing/FishingController.cs:222-231 | the fields follow `SinkStep`, and movement is unlocked when the sink ends; the player's UI mode is kept |
| Fishing.FishingController.FinishReel | Assets/Script/Fishing/FishingController.cs:196-205 | Idle, hook gone, movement unlocked, and the player's UI mode kept |
| Fishing.FishingController.HandleFishing | Assets/Script/Fishing/FishingController.cs:124-193 | the fields follow `FishingStep`; a catch consumes bait, a failure bait or lure, a landing unlocks movement; the player's UI mode is kept |
| Fishing.FishingController.Update | Assets/Script/Fishing/FishingController.cs:81-94 | the fields follow `FrameStep`, with each effect's consumption, movement lock and rod equipping; the player's UI mode and the rod's counters and default tables are kept |
| Cooler.StoreAllWithinCapacity | Assets/Script/Fishing/CoolerBox.cs:13-44 | a limited cooler never holds more than its capacity, and stored fish are never lost |
| Cooler.CoolerBox.constructor | Assets/Script/Fishing/CoolerBox.cs:14-17 | an empty store |
| Cooler.CoolerBox.FishCount | Assets/Script/Fishing/CoolerBox.cs:69 | the number of stored fish |
| Cooler.CoolerBox.TryStoreFish | Assets/Script/Fishing/CoolerBox.cs:33-52 | no fish, or a limited cooler already full, is refused unchanged; otherwise exactly that fish is appended |
| Cooler.CoolerBox.SellAllFish | Assets/Script/Fishing/CoolerBox.cs:55-66 | the sum of the stored values, and the store is emptied |
| Vendor.UnitPrice | Assets/Script/Money/CoolerVender.cs:112-128 | `max(0, fish value)` for a Fish-tagged stack, else `max(0, sellPrice)` for a sellable definition, else 0 |
| Vendor.SlotValue | Assets/Script/Money/CoolerVender.cs:112-134 | never negative, and positive exactly for a stack with a positive unit price |
| Vendor.SaleTotal | Assets/Script/Money/CoolerVender.cs:104-135 | the sale's total is never negative |
| Vendor.Cleared | Assets/Script/Money/CoolerVender.cs:130-143 | sold slots are emptied and every other slot is unchanged |
| Vendor.SaleTotalZero | Assets/Script/Money/CoolerVender.cs:130-137 | the total is 0 exactly when no slot has a positive unit price |
| Vendor.SecondSaleFetchesNothing | Assets/Script/Money/CoolerVender.cs:139-143 | selling again right after a sale fetches 0 |
| Vendor.SellFromBinder | Assets/Script/Money/CoolerVender.cs:99-146 | no model gives 0; otherwise the total is `SaleTotal`, and a positive total clears exactly the sold slots while a zero total clears none |
| Vendor.CoolerVendor.constructor | Assets/Script/Money/CoolerVender.cs:26-27 | the player is outside and the last sale was at -999 |
| Vendor.CoolerVendor.SetPlayerInside | Assets/Script/Money/CoolerVender.cs:61-68 | only the inside flag changes |
| Vendor.CoolerVendor.AttemptSell | Assets/Script/Money/CoolerVender.cs:80-93 | the cooler inventory is sold if there is one, else the legacy cooler, which is then left as it was; the wallet gains the earnings only when positive |
| Vendor.CoolerVendor.Update | Assets/Script/Money/CoolerVender.cs:70-78 | a sale is attempted exactly with the player inside, the key down and the cooldown elapsed; then the time is recorded and the sale is the one `AttemptSell` makes: the cooler inventory's `SaleTotal` is paid in and its sold slots cleared when positive, or else the legacy cooler's `SumValues` is paid in and the cooler emptied (with a cooler inventory the legacy cooler is kept); `playerInside` is never changed; without an attempt the time, the wallet and both coolers are unchanged |
| Panels.Gate | Assets/Script/Inventory/InventoryUIManager.cs:123-134 | HorizontalOnly exactly when a panel is open |
| Panels.JointToggle | Assets/Script/Inventory/InventoryUIManager.cs:54-99 | near the cooler a key closes both panels if both were open, and otherwise opens both |
| Panels.KeyStepKeepsAbsentClosed | Assets/Script/Inventory/InventoryUIManager.cs:104-118 | a missing panel is never opened |
| Panels.IndividualToggleFlips | Assets/Script/Inventory/InventoryUIManager.cs:104-112 | an individual toggle flips a present target; opening it closes the other panel, closing it leaves the other alone |
| Panels.IndividualToggleExcludes | Assets/Script/Inventory/InventoryUIManager.cs:59-112 | away from the cooler, a frame never leaves both panels open when at most one was |
| Panels.PlayerKeyTakesPrecedence | Assets/Script/Inventory/InventoryUIManager.cs:62-69 | away from the cooler, with both keys down P wins |
| Panels.AwayNeverBothOpen | Assets/Script/Inventory/InventoryUIManager.cs:62-112 | away from the cooler, from at most one open panel, no sequence of frames opens both |
| Panels.InventoryUIManager.ApplyPlayerGate | Assets/Script/Inventory/InventoryUIManager.cs:123-134 | the player's mode becomes the gate of the open flags |
| Panels.InventoryUIManager.Awake | Assets/Script/Inventory/InventoryUIManager.cs:40-45 | both panels closed and the gate Closed |
| Panels.InventoryUIManager.Update | Assets/Script/Inventory/InventoryUIManager.cs:48-74 | the flags follow `KeyStep`, and the player's mode keeps matching the gate |

## Left out

- Unity plumbing is not modelled: `Awake`/`Start` reference discovery, `Find*`, `Instantiate`/`Destroy`, trigger callbacks and key polling. Inputs are parameters; `Update` methods take the frame's keys, times and distances.
- Rigidbody physics, the ballistic arc, the landing-point lerp, the hook object and float reel speeds (`GetHorizontalReelSpeed`, `GetFullReelSpeed`) are not modelled. They are float engine numerics; positions become the real distances `edgeGap`, `edgeDist` and `catchDist`.
- Randomness: each `Random.Range` result is a parameter. `pick % n` stands for `Random.Range(0, n)`, and the rarity draw `r` is required to lie in `[0, sum)`.
- Integers are unbounded: 32-bit wrap-around of counts, prices and totals is not modelled.
- Weight dictionaries are five-entry sequences in the order Common to Legendary, and the code enumerates them in that order. Rod.RodStats.SetRarityWeightsOverride therefore requires a five-entry table.
- The `FishRarity` enum is not part of this model; its order Common < Uncommon < Rare < Epic < Legendary is assumed.
- `ItemDefinition.sellPrice` and `IsSellable` are abstract fields `sellPrice` and `sellable`, because the definition asset does not declare them. `TryGetDefinition`'s reflection is the stack's `def` field, which is what it finds on `ItemInstance`.
- Definitions are values compared by value, with an `id`. Stacks are values, so aliasing of one `ItemInstance` between slots is not modelled. The one case that matters, `TryMove` onto its own slot, is modelled explicitly.
- The binder always has a model (`EnsureInitialized` runs first). Slot views are reduced to their index and allowed mask; a destroyed view (`slot == null`) is not modelled. `OnSlotChanged`, `OnMoneyChanged` and the view rebuilds are left out.
- Binder.InventoryBinder.TryAddFirst: the item argument is a value, so the C# caller's view of the item's reduced count is returned as `left` instead.
- `SetUIMovementMode` and `MovementUIMode` are not defined in the player controller's shown text. PlayerModel.Player.SetUIMovementMode only stores the mode.
- FishingController: the spawn call on a catch and the reel speed it sets are left out; SpawnFromHook is modelled on its own. `OnHookHitWater` is modelled only while a hook exists.
- Fishing.FishingController.TriggerFailSink: requires the Fishing state, the only state it is called from.
- Fishing.FishingController.ConsumeOnFail: follows the code, which consumes any equipped item on failure, not only bait or lure.
- A destroyed hook leaves the controller in Fishing (Fishing.LostHookStaysFishing), as the code does; `isSinking` stays set after a sink until the next cast.
- SpawnFromHook: the list holds the chosen definition for each catch, instead of the spawned GameObjects. The null check on the object that `FishFactory.SpawnFish` returns is not modelled, because the factory is engine code.
- The `count <= 0` guard in `SpawnFromHook` cannot fire, since `GetMultiCatchCount` is at least 1 (Spawner.CatchCount).
- Shop.MultiCatchUpgradeButton.TryUpgrade: requires a rod; the C# would throw on a missing rod after charging.
- Inventory.InventoryModel.constructor: the capacity is a `nat`, so a negative capacity is excluded rather than modelled; in C# `new List<ItemInstance>(capacity)` throws for it. The same holds for Binder.InventoryBinder.constructor, whose `capacity` is a public inspector field.
- Vendor.CoolerVendor.AttemptSell: takes the wallet singleton as a non-null parameter, since the code dereferences it unchecked.
- Cooler.CoolerBox.TryStoreFish: takes the fish data; destroying the projectile and the log are left out. The log reads `fish.data.def.speciesName` after the append, so for a fish with no species the C# throws there with the fish already stored; the model returns true in that case.
- The debug spawner, the shop and inventory UI views, layout groups, the camera, player movement and the nuisance thief are not part of this model.

## Findings

| source | as written | input that shows it | evidently intended | confidence | as-written member | corrected member |
|---|---|---|---|---|---|---|
| Assets/Script/Inventory/InventoryBinder.cs:143-155 | The empty-slot pass tests `Model.Get(i) == null`, and `Get` returns null for an out-of-range index. It then calls `Model.Set(i, item)`, a no-op out of range, and returns true. | A model of capacity 5, one registered slot at index 6 with mask Bait\|Lure, and an empty inventory. `TryAddFirst` of a bait stack returns true and the stack is stored nowhere. | Only in-range empty slots count as free, so the call falls back to the model scan and stores the item. | not executed | Binder.OutOfRangeSlotLosesItem | Binder.AddFirstCorrected |
