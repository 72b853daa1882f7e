/**
 * RodStats: the rod's upgrade counters, its bait type, the two default
 * rarity tables, and the overrides that equipped bait, lures and reels
 * install. Weight dictionaries are five-entry sequences indexed by
 * `Rarity.Rank`; the float reel-speed formulas are not part of this model.
 */
module Rod {
  import opened Wrappers
  import opened Rarity
  import opened Items
  import Reel

  datatype BaitType = Lure | FishBait

  /** All five per-rarity reel multipliers at their neutral value. */
  const Neutral: seq<real> := [1.0, 1.0, 1.0, 1.0, 1.0]

  /** The five per-rarity multipliers of `m`, copied in tier order. */
  function PerRarity(m: ReelMultipliers): (s: seq<real>)
    ensures |s| == 5
    ensures forall t :: s[Rank(t)] == Reel.GetRarityMul(m, t)
  {
    [m.mulCommon, m.mulUncommon, m.mulRare, m.mulEpic, m.mulLegendary]
  }

  class RodStats {
    var reelLevel: int
    var multiCatchCount: int
    var bait: BaitType
    var lureWeights: RarityWeights
    var fishBaitWeights: RarityWeights
    /** `overrideRarityWeights`: null when no equipment overrides the tables. */
    var overrideRarityWeights: Option<seq<int>>
    var overrideHorizMul: real
    var overrideFullMul: real
    /** `overridePerRarityMul`, indexed by `Rank`. */
    var overridePerRarityMul: seq<real>

    ghost predicate Valid()
      reads this
    {
      |overridePerRarityMul| == 5 &&
      (overrideRarityWeights.Some? ==> |overrideRarityWeights.value| == 5)
    }

    /** The component's initial field values. */
    constructor ()
      ensures Valid()
      ensures reelLevel == 0 && multiCatchCount == 1 && bait == Lure
      ensures lureWeights == Ones() && fishBaitWeights == Ones()
      ensures overrideRarityWeights.None?
      ensures overrideHorizMul == 1.0 && overrideFullMul == 1.0 && overridePerRarityMul == Neutral
    {
      reelLevel := 0;
      multiCatchCount := 1;
      bait := Lure;
      lureWeights := Ones();
      fishBaitWeights := Ones();
      overrideRarityWeights := None;
      overrideHorizMul := 1.0;
      overrideFullMul := 1.0;
      overridePerRarityMul := Neutral;
    }

    /** `UpgradeReel`: one more level, never below zero. */
    method UpgradeReel()
      modifies this
      ensures reelLevel == Max0(old(reelLevel) + 1)
      ensures old(reelLevel) >= 0 ==> reelLevel == old(reelLevel) + 1
      ensures multiCatchCount == old(multiCatchCount) && bait == old(bait)
      ensures overrideRarityWeights == old(overrideRarityWeights) && overridePerRarityMul == old(overridePerRarityMul)
      ensures overrideHorizMul == old(overrideHorizMul) && overrideFullMul == old(overrideFullMul)
      ensures lureWeights == old(lureWeights) && fishBaitWeights == old(fishBaitWeights)
    {
      reelLevel := Max0(reelLevel + 1);
    }

    /** `UpgradeMultiCatch`: one more fish per catch, never below one. */
    method UpgradeMultiCatch()
      modifies this
      ensures multiCatchCount == if old(multiCatchCount) + 1 < 1 then 1 else old(multiCatchCount) + 1
      ensures old(multiCatchCount) >= 1 ==> GetMultiCatchCount() == old(GetMultiCatchCount()) + 1
      ensures reelLevel == old(reelLevel) && bait == old(bait)
      ensures overrideRarityWeights == old(overrideRarityWeights) && overridePerRarityMul == old(overridePerRarityMul)
      ensures overrideHorizMul == old(overrideHorizMul) && overrideFullMul == old(overrideFullMul)
      ensures lureWeights == old(lureWeights) && fishBaitWeights == old(fishBaitWeights)
    {
      multiCatchCount := if multiCatchCount + 1 < 1 then 1 else multiCatchCount + 1;
    }

    /** `GetMultiCatchCount`: the counter, read as at least one fish. */
    function GetMultiCatchCount(): (n: int)
      reads this
      ensures n >= 1
      ensures multiCatchCount >= 1 ==> n == multiCatchCount
    {
      if multiCatchCount < 1 then 1 else multiCatchCount
    }

    /** `SetBait`: only the bait type changes. */
    method SetBait(t: BaitType)
      modifies this
      ensures bait == t
      ensures reelLevel == old(reelLevel) && multiCatchCount == old(multiCatchCount)
      ensures overrideRarityWeights == old(overrideRarityWeights) && overridePerRarityMul == old(overridePerRarityMul)
      ensures overrideHorizMul == old(overrideHorizMul) && overrideFullMul == old(overrideFullMul)
      ensures lureWeights == old(lureWeights) && fishBaitWeights == old(fishBaitWeights)
    {
      bait := t;
    }

    /** `SetRarityWeightsOverride`: installs or (with None) removes the override table. */
    method SetRarityWeightsOverride(weightsOrNull: Option<seq<int>>)
      requires Valid()
      requires weightsOrNull.Some? ==> |weightsOrNull.value| == 5
      modifies this
      ensures Valid()
      ensures overrideRarityWeights == weightsOrNull
      ensures weightsOrNull.Some? ==> GetRarityWeights() == weightsOrNull.value
      ensures weightsOrNull.None? ==> GetRarityWeights() == DefaultWeights()
      ensures reelLevel == old(reelLevel) && multiCatchCount == old(multiCatchCount) && bait == old(bait)
      ensures overridePerRarityMul == old(overridePerRarityMul)
      ensures overrideHorizMul == old(overrideHorizMul) && overrideFullMul == old(overrideFullMul)
      ensures lureWeights == old(lureWeights) && fishBaitWeights == old(fishBaitWeights)
    {
      overrideRarityWeights := weightsOrNull;
    }

    /**
     * `SetReelOverride`: with no reel every reel multiplier returns to 1;
     * with a reel the horizontal and full multipliers are floored at 0.01
     * and the five per-rarity ones are copied as they are.
     */
    method SetReelOverride(reelOrNull: Option<ReelMultipliers>)
      requires Valid()
      modifies this
      ensures Valid()
      ensures ReelOverrideIs(reelOrNull)
      ensures overrideHorizMul >= Reel.Floor && overrideFullMul >= Reel.Floor
      ensures reelLevel == old(reelLevel) && multiCatchCount == old(multiCatchCount) && bait == old(bait)
      ensures overrideRarityWeights == old(overrideRarityWeights)
      ensures lureWeights == old(lureWeights) && fishBaitWeights == old(fishBaitWeights)
    {
      if reelOrNull.None? {
        overrideHorizMul := 1.0;
        overrideFullMul := 1.0;
        overridePerRarityMul := Neutral;
        return;
      }
      var m := reelOrNull.value;
      overrideHorizMul := Reel.AtLeastFloor(m.horizontalSpeedMul);
      overrideFullMul := Reel.AtLeastFloor(m.fullReelSpeedMul);
      overridePerRarityMul := PerRarity(m);
    }

    /**
     * The reel multipliers as `SetReelOverride(reelOrNull)` leaves them: all
     * 1 with no reel; with a reel, the horizontal and full multipliers
     * floored at 0.01 and the five per-rarity ones copied as they are.
     */
    ghost predicate ReelOverrideIs(reelOrNull: Option<ReelMultipliers>)
      reads this
    {
      |overridePerRarityMul| == 5 &&
      if reelOrNull.None? then
        overrideHorizMul == 1.0 && overrideFullMul == 1.0 && overridePerRarityMul == Neutral
      else
        overrideHorizMul == Reel.AtLeastFloor(reelOrNull.value.horizontalSpeedMul) &&
        overrideFullMul == Reel.AtLeastFloor(reelOrNull.value.fullReelSpeedMul) &&
        forall t :: overridePerRarityMul[Rank(t)] == Reel.GetRarityMul(reelOrNull.value, t)
    }

    /** The default table for the current bait type, clamped by `ToDict`. */
    function DefaultWeights(): (w: seq<int>)
      reads this
      ensures |w| == 5 && forall k :: 0 <= k < 5 ==> w[k] >= 0
      ensures bait == FishBait ==> w == ToDict(fishBaitWeights)
      ensures bait == Lure ==> w == ToDict(lureWeights)
    {
      if bait == FishBait then ToDict(fishBaitWeights) else ToDict(lureWeights)
    }

    /**
     * `GetRarityWeights`: the override table when one is installed (as it
     * is, unclamped), else the default table for the bait type.
     */
    function GetRarityWeights(): (w: seq<int>)
      reads this
      requires Valid()
      ensures |w| == 5
      ensures overrideRarityWeights.Some? ==> w == overrideRarityWeights.value
      ensures overrideRarityWeights.None? ==> w == DefaultWeights() && |w| == 5
    {
      if overrideRarityWeights.Some? then overrideRarityWeights.value else DefaultWeights()
    }
  }
}
