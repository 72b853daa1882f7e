/**
 * FishRarity and RarityWeights: the five rarity tiers in their declared order
 * and the per-tier integer weight table that bait and lure definitions carry.
 * A weight "dictionary" built by `ToDict` is always filled Common..Legendary,
 * so it is a sequence of five weights indexed by `Rank`.
 */
module Rarity {

  datatype FishRarity = Common | Uncommon | Rare | Epic | Legendary

  /** The enum's integer value; `maxRarity` comparisons use it. */
  function Rank(r: FishRarity): nat {
    match r
    case Common => 0
    case Uncommon => 1
    case Rare => 2
    case Epic => 3
    case Legendary => 4
  }

  /** The tier declared at position `k`. */
  function Tier(k: nat): (r: FishRarity)
    requires k < 5
    ensures Rank(r) == k
  {
    if k == 0 then Common
    else if k == 1 then Uncommon
    else if k == 2 then Rare
    else if k == 3 then Epic
    else Legendary
  }

  lemma TierOfRank(r: FishRarity)
    ensures Rank(r) < 5 && Tier(Rank(r)) == r
  {
  }

  function Max0(x: int): int {
    if x < 0 then 0 else x
  }

  datatype RarityWeights = RarityWeights(common: int, uncommon: int, rare: int, epic: int, legendary: int)

  /** The raw field of `w` for tier `t`. */
  function Field(w: RarityWeights, t: FishRarity): int {
    match t
    case Common => w.common
    case Uncommon => w.uncommon
    case Rare => w.rare
    case Epic => w.epic
    case Legendary => w.legendary
  }

  /** `RarityWeights.Ones()`: every tier weighs 1, so the table is usable. */
  function Ones(): (w: RarityWeights)
    ensures forall t :: Field(w, t) == 1
    ensures !IsAllZero(w)
  {
    RarityWeights(1, 1, 1, 1, 1)
  }

  /** `IsAllZero` looks at the raw fields, not at the clamped table. */
  predicate IsAllZero(w: RarityWeights) {
    w.common == 0 && w.uncommon == 0 && w.rare == 0 && w.epic == 0 && w.legendary == 0
  }

  /**
   * `ToDict`: the five tiers in declared order, each weight clamped at zero.
   */
  function ToDict(w: RarityWeights): (d: seq<int>)
    ensures |d| == 5
    ensures forall t :: d[Rank(t)] == Max0(Field(w, t))
    ensures forall k :: 0 <= k < 5 ==> d[k] >= 0
  {
    [Max0(w.common), Max0(w.uncommon), Max0(w.rare), Max0(w.epic), Max0(w.legendary)]
  }

  /** Clamping leaves a table without negative fields as it is. */
  lemma ToDictKeepsNonNegative(w: RarityWeights)
    requires forall t :: Field(w, t) >= 0
    ensures forall t :: ToDict(w)[Rank(t)] == Field(w, t)
  {
  }

  /** Sum of the weights of `ws`, each clamped at zero (the spawner's `sum`). */
  function TotalWeight(ws: seq<int>): (s: int)
    ensures s >= 0
  {
    if ws == [] then 0 else TotalWeight(ws[..|ws| - 1]) + Max0(ws[|ws| - 1])
  }

  /** The clamped total is zero exactly when no weight is positive. */
  lemma {:induction false} TotalWeightZero(ws: seq<int>)
    ensures TotalWeight(ws) == 0 <==> forall k :: 0 <= k < |ws| ==> ws[k] <= 0
  {
    if ws != [] {
      TotalWeightZero(ws[..|ws| - 1]);
      assert forall k :: 0 <= k < |ws| - 1 ==> ws[..|ws| - 1][k] == ws[k];
    }
  }

  /** An all-zero table carries no weight once clamped. */
  lemma AllZeroHasNoWeight(w: RarityWeights)
    requires IsAllZero(w)
    ensures TotalWeight(ToDict(w)) == 0
  {
    TotalWeightZero(ToDict(w));
  }

  /**
   * The converse fails: a table with a negative field is not "all zero", yet
   * its clamped table weighs nothing, so the spawner falls back to Common.
   */
  lemma NegativeFieldIsNotAllZero()
    ensures var w := RarityWeights(-1, 0, 0, 0, 0);
            !IsAllZero(w) && TotalWeight(ToDict(w)) == 0
  {
    var w := RarityWeights(-1, 0, 0, 0, 0);
    TotalWeightZero(ToDict(w));
  }
}
