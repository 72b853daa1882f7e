/**
 * ReelDefinition: the editor-time validation of a reel asset and its
 * per-rarity multiplier lookup. Multipliers are floats in the game; here
 * they are reals and `0.01` is the clamp floor.
 */
module Reel {
  import ItemTags
  import opened Rarity
  import opened Items

  const Floor: real := 0.01

  /** `Mathf.Max(0.01f, x)`. */
  function AtLeastFloor(x: real): real {
    if x < Floor then Floor else x
  }

  /** `GetRarityMul`: the per-rarity multiplier field for tier `r`. */
  function GetRarityMul(m: ReelMultipliers, r: FishRarity): real {
    match r
    case Common => m.mulCommon
    case Uncommon => m.mulUncommon
    case Rare => m.mulRare
    case Epic => m.mulEpic
    case Legendary => m.mulLegendary
  }

  /** After clamping, the multiplier read for every tier is the floored field of that tier. */
  lemma ClampedRarityMul(m: ReelMultipliers, r: FishRarity)
    ensures GetRarityMul(ClampMultipliers(m), r) == AtLeastFloor(GetRarityMul(m, r))
    ensures GetRarityMul(ClampMultipliers(m), r) >= Floor
  {
  }

  /** All seven multipliers are at least the floor. */
  predicate Floored(m: ReelMultipliers) {
    m.horizontalSpeedMul >= Floor && m.fullReelSpeedMul >= Floor &&
    forall r :: GetRarityMul(m, r) >= Floor
  }

  function ClampMultipliers(m: ReelMultipliers): (v: ReelMultipliers)
    ensures Floored(v)
    ensures v.horizontalSpeedMul == AtLeastFloor(m.horizontalSpeedMul) && v.fullReelSpeedMul == AtLeastFloor(m.fullReelSpeedMul)
  {
    ReelMultipliers(
      AtLeastFloor(m.horizontalSpeedMul), AtLeastFloor(m.fullReelSpeedMul),
      AtLeastFloor(m.mulCommon), AtLeastFloor(m.mulUncommon), AtLeastFloor(m.mulRare),
      AtLeastFloor(m.mulEpic), AtLeastFloor(m.mulLegendary))
  }

  /** The tag fix-up `if ((tags & Reel) == 0) tags |= Reel`. */
  function WithReelTag(t: ItemTags.Tags): (u: ItemTags.Tags)
    ensures ItemTags.Admits(u, ItemTags.Reel)
    ensures (u & !ItemTags.Reel) == (t & !ItemTags.Reel)
  {
    if (t & ItemTags.Reel) == 0 then t | ItemTags.Reel else t
  }

  /**
   * `OnValidate` on a reel asset: the Reel tag bit is forced on, the other tag
   * bits are kept, every multiplier is raised to at least the floor, values
   * already above it are kept, and nothing else of the asset changes.
   */
  function OnValidate(d: ItemDefinition): (v: ItemDefinition)
    requires d.kind.ReelDef?
    ensures v.kind.ReelDef? && Floored(v.kind.reel)
    ensures ItemTags.Admits(v.tags, ItemTags.Reel)
    ensures (v.tags & !ItemTags.Reel) == (d.tags & !ItemTags.Reel)
    ensures v.kind.reel == ClampMultipliers(d.kind.reel)
    ensures forall r :: GetRarityMul(d.kind.reel, r) >= Floor ==>
              GetRarityMul(v.kind.reel, r) == GetRarityMul(d.kind.reel, r)
    ensures d.kind.reel.horizontalSpeedMul >= Floor ==> v.kind.reel.horizontalSpeedMul == d.kind.reel.horizontalSpeedMul
    ensures d.kind.reel.fullReelSpeedMul >= Floor ==> v.kind.reel.fullReelSpeedMul == d.kind.reel.fullReelSpeedMul
    ensures v.id == d.id && v.stackable == d.stackable && v.maxStack == d.maxStack
    ensures v.sellable == d.sellable && v.sellPrice == d.sellPrice
  {
    d.(tags := WithReelTag(d.tags), kind := ReelDef(ClampMultipliers(d.kind.reel)))
  }

  /** Validating twice changes nothing more than validating once. */
  lemma OnValidateIdempotent(d: ItemDefinition)
    requires d.kind.ReelDef?
    ensures OnValidate(OnValidate(d)) == OnValidate(d)
  {
  }
}
