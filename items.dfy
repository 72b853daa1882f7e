/**
 * The item values: definitions (the ItemDefinition asset and its Bait, Lure and
 * Reel variants), fish individuals and the ItemInstance stacks held in slots.
 *
 * Definitions are assets shared by reference; here a definition is a value
 * and its `id` tells apart two assets configured alike. `sellable` and
 * `sellPrice` stand for the definition's sell settings that the vendor reads.
 */
module Items {
  import opened Wrappers
  import ItemTags
  import opened Rarity

  /** The seven speed multipliers a ReelDefinition carries. */
  datatype ReelMultipliers = ReelMultipliers(
    horizontalSpeedMul: real,
    fullReelSpeedMul: real,
    mulCommon: real,
    mulUncommon: real,
    mulRare: real,
    mulEpic: real,
    mulLegendary: real)

  /** Which subclass of ItemDefinition an asset is, with that subclass's own data. */
  datatype DefKind =
    | PlainDef
    | BaitDef(baitWeights: RarityWeights)
    | LureDef(lureWeights: RarityWeights)
    | ReelDef(reel: ReelMultipliers)

  datatype ItemDefinition = ItemDefinition(
    id: nat,
    tags: ItemTags.Tags,
    stackable: bool,
    maxStack: int,
    sellable: bool,
    sellPrice: int,
    kind: DefKind)

  /** A fish species; only its rarity matters to the logic modelled here. */
  datatype FishDefinition = FishDefinition(id: nat, rarity: FishRarity)

  /** One caught fish: its species (absent for the struct's default) and its sale value. */
  datatype FishInstance = FishInstance(def: Option<FishDefinition>, value: int)

  /** `new FishInstance()`, the empty struct every fresh ItemInstance carries. */
  const NoFish: FishInstance := FishInstance(None, 0)

  /** A stack in a slot: its definition (possibly missing), its count and its fish data. */
  datatype ItemInstance = ItemInstance(def: Option<ItemDefinition>, count: int, fish: FishInstance)

  /** The constructor `new ItemInstance(d, c)`: the count is clamped to at least one. */
  function NewItem(d: Option<ItemDefinition>, c: int): (it: ItemInstance)
    ensures it.def == d && it.fish == NoFish
    ensures it.count >= 1 && it.count >= c
    ensures c >= 1 ==> it.count == c
    ensures c < 1 ==> it.count == 1
  {
    ItemInstance(d, if c < 1 then 1 else c, NoFish)
  }

  /** `Tags`: the definition's tags, or no tag at all when the definition is missing. */
  function TagsOf(it: ItemInstance): (t: ItemTags.Tags)
    ensures it.def.None? ==> t == ItemTags.None
    ensures it.def.Some? ==> t == it.def.value.tags
  {
    if it.def.Some? then it.def.value.tags else ItemTags.None
  }

  /** `IsStackable`: a definition exists, it stacks, and no fish data is attached. */
  predicate IsStackable(it: ItemInstance) {
    it.def.Some? && it.def.value.stackable && it.fish.def.None?
  }

  /** Whether a stack may merge does not depend on its count, so topping it up keeps it stackable. */
  lemma StackabilityIgnoresCount(it: ItemInstance, c: int)
    ensures IsStackable(it.(count := c)) == IsStackable(it)
  {
  }

  /** Two stacks that may merge: both stackable and of the same definition. */
  predicate CanStack(cur: ItemInstance, item: ItemInstance) {
    IsStackable(cur) && IsStackable(item) && cur.def == item.def
  }

  /** Room left on top of a stack, `def.maxStack - count`. */
  function Space(cur: ItemInstance): int
    requires cur.def.Some?
  {
    cur.def.value.maxStack - cur.count
  }

  /** `ItemInstance.FromFish`: a single fish item carrying its individual data. */
  function FromFish(fi: FishInstance, d: Option<ItemDefinition>): (it: ItemInstance)
    ensures it.def == d && it.count == 1 && it.fish == fi
    ensures fi.def.Some? ==> !IsStackable(it)
  {
    ItemInstance(d, 1, fi)
  }

  /** A freshly built stack is stackable exactly when its definition is present and stacks. */
  lemma NewItemStackable(d: Option<ItemDefinition>, c: int)
    ensures IsStackable(NewItem(d, c)) <==> d.Some? && d.value.stackable
  {
  }
}
