/**
 * FishSpawner: the rarity lottery and the choice of fish definitions for
 * one catch. The lottery scans the five tiers Common..Legendary, each
 * weight clamped at zero, against a draw `r` in `[0, sum)`. Random draws
 * are parameters: `r` for `Random.Range(0, sum)` and `pick % n` for
 * `Random.Range(0, n)`. The ballistic launch of the spawned fish is not
 * part of this model.
 */
module Spawner {
  import opened Wrappers
  import opened Rarity
  import opened Items
  import opened Rod

  /** `FallbackWeights`: Common weighs 1, every other tier 0. */
  const FallbackWeights: seq<int> := [1, 0, 0, 0, 0]

  /**
   * The first position `k >= from` whose cumulative clamped weight exceeds
   * `r`, or `|ws|` when there is none.
   */
  function ScanFrom(ws: seq<int>, r: int, from: nat): (k: nat)
    requires from <= |ws|
    ensures from <= k <= |ws|
    decreases |ws| - from
  {
    if from == |ws| then |ws|
    else if r < TotalWeight(ws[..from + 1]) then from
    else ScanFrom(ws, r, from + 1)
  }

  /**
   * `PickRarity`'s result for the table `ws` and the draw `r`: Common when
   * the clamped sum is not positive, else the first tier whose cumulative
   * clamped weight exceeds `r` (Common if none does).
   */
  function Pick(ws: seq<int>, r: int): FishRarity
    requires |ws| == 5
  {
    if TotalWeight(ws) <= 0 then Common
    else
      var k := ScanFrom(ws, r, 0);
      if k < 5 then Tier(k) else Common
  }

  /** The cumulative clamped weight of the first `j` tiers. */
  function Cum(ws: seq<int>, j: nat): int
    requires j <= |ws|
  {
    TotalWeight(ws[..j])
  }

  lemma PrefixWeightStep(ws: seq<int>, k: nat)
    requires k < |ws|
    ensures TotalWeight(ws[..k + 1]) == TotalWeight(ws[..k]) + Max0(ws[k])
  {
    assert ws[..k + 1][..k] == ws[..k];
  }

  /** Cumulative weights never decrease along the tiers. */
  lemma {:induction false} PrefixWeightMonotone(ws: seq<int>, i: nat, j: nat)
    requires i <= j <= |ws|
    ensures TotalWeight(ws[..i]) <= TotalWeight(ws[..j])
  {
    if i < j {
      PrefixWeightMonotone(ws, i, j - 1);
      PrefixWeightStep(ws, j - 1);
    }
  }

  /** What the scan finds: no earlier position already exceeds `r`, and the found one does. */
  lemma {:induction false} ScanFromFinds(ws: seq<int>, r: int, from: nat)
    requires from <= |ws|
    ensures var k := ScanFrom(ws, r, from);
            (forall j :: from < j <= k ==> Cum(ws, j) <= r) &&
            (k < |ws| ==> r < Cum(ws, k + 1))
    decreases |ws| - from
  {
    if from < |ws| && r >= TotalWeight(ws[..from + 1]) {
      ScanFromFinds(ws, r, from + 1);
    }
  }

  /**
   * For a draw `0 <= r < sum`, the picked tier is the one whose cumulative
   * bracket holds `r`: every earlier tier's cumulative weight is at most `r`,
   * the picked tier's exceeds it, and so the picked tier's own weight is
   * positive. A tier of weight zero is never drawn.
   */
  lemma PickIsBracket(ws: seq<int>, r: int)
    requires |ws| == 5 && 0 <= r < TotalWeight(ws)
    ensures var k := Rank(Pick(ws, r));
            Cum(ws, k) <= r < Cum(ws, k + 1) &&
            ws[k] > 0 &&
            forall j :: 0 < j <= k ==> Cum(ws, j) <= r
  {
    ScanFromFinds(ws, r, 0);
    var k := ScanFrom(ws, r, 0);
    assert ws[..5] == ws;
    if k == 0 {
      assert ws[..0] == [];
    } else {
      assert Cum(ws, k) <= r;
    }
    PrefixWeightStep(ws, k);
  }

  /** A table with no positive weight always gives Common. */
  lemma ZeroTableGivesCommon(ws: seq<int>, r: int)
    requires |ws| == 5 && forall k :: 0 <= k < 5 ==> ws[k] <= 0
    ensures Pick(ws, r) == Common
  {
    TotalWeightZero(ws);
  }

  /** The fallback table can only give Common. */
  lemma FallbackGivesCommon(r: int)
    requires 0 <= r < TotalWeight(FallbackWeights)
    ensures Pick(FallbackWeights, r) == Common
  {
    PickIsBracket(FallbackWeights, r);
  }

  /**
   * `PickRarity` on the table `weights` with the draw `r`: the clamped sum
   * is computed first, a non-positive sum gives Common, and otherwise `r`
   * is lowered by each tier's clamped weight until it falls below one.
   */
  method PickRarity(weights: seq<int>, r: int) returns (tier: FishRarity)
    requires |weights| == 5
    requires TotalWeight(weights) > 0 ==> 0 <= r < TotalWeight(weights)
    ensures tier == Pick(weights, r)
  {
    var sum := 0;
    var k := 0;
    while k < |weights|
      invariant 0 <= k <= |weights|
      invariant sum == TotalWeight(weights[..k])
    {
      PrefixWeightStep(weights, k);
      sum := sum + Max0(weights[k]);
      k := k + 1;
    }
    assert weights[..k] == weights;
    if sum <= 0 {
      return Common;
    }
    var rest := r;
    k := 0;
    while k < |weights|
      invariant 0 <= k <= |weights|
      invariant rest == r - TotalWeight(weights[..k])
      invariant ScanFrom(weights, r, k) == ScanFrom(weights, r, 0)
    {
      PrefixWeightStep(weights, k);
      var w := Max0(weights[k]);
      if rest < w {
        return Tier(k);
      }
      rest := rest - w;
      k := k + 1;
    }
    return Common;
  }

  /** The definitions of `table` (skipping missing entries) whose rarity is `rarity`, in order. */
  function OfRarity(table: seq<Option<FishDefinition>>, rarity: FishRarity): (defs: seq<FishDefinition>)
    ensures forall i :: 0 <= i < |defs| ==> defs[i].rarity == rarity && Some(defs[i]) in table
    ensures (exists i :: 0 <= i < |table| && table[i].Some? && table[i].value.rarity == rarity) ==> |defs| > 0
  {
    if table == [] then []
    else
      var rest := OfRarity(table[1..], rarity);
      assert forall i :: 1 <= i < |table| ==> table[i] == table[1..][i - 1];
      if table[0].Some? && table[0].value.rarity == rarity then [table[0].value] + rest else rest
  }

  /** Every definition of the table with rarity `rarity` is among those `OfRarity` lists. */
  lemma {:induction false} OfRarityComplete(table: seq<Option<FishDefinition>>, rarity: FishRarity)
    ensures forall i :: 0 <= i < |table| && table[i].Some? && table[i].value.rarity == rarity ==>
              table[i].value in OfRarity(table, rarity)
  {
    if table != [] {
      var rest := table[1..];
      OfRarityComplete(rest, rarity);
      assert forall i :: 1 <= i < |table| ==> table[i] == rest[i - 1];
    }
  }

  /**
   * The definition chosen for a fish of `rarity`: one of that rarity when the
   * table has any, else `PickAnyDefinition` (any entry of the table, possibly
   * missing), else none for an empty table.
   */
  function ChooseDefinition(table: seq<Option<FishDefinition>>, rarity: FishRarity, pick: nat): (d: Option<FishDefinition>)
    ensures (exists i :: 0 <= i < |table| && table[i].Some? && table[i].value.rarity == rarity) ==>
              d.Some? && d.value.rarity == rarity && d in table
    ensures table == [] ==> d.None?
    ensures table != [] ==> d in table
  {
    var defs := OfRarity(table, rarity);
    if |defs| > 0 then Some(defs[pick % |defs|])
    else PickAnyDefinition(table, pick)
  }

  /** `PickAnyDefinition`: an entry of the whole table, or none when it is empty. */
  function PickAnyDefinition(table: seq<Option<FishDefinition>>, pick: nat): (d: Option<FishDefinition>)
    ensures table == [] ==> d.None?
    ensures table != [] ==> d in table
  {
    if |table| == 0 then None else table[pick % |table|]
  }

  /** The random values one spawned fish consumes: the rarity draw and the definition pick. */
  datatype Draw = Draw(r: int, pick: nat)

  /** The definitions spawned for `draws`, one per draw, in order. */
  function Catches(table: seq<Option<FishDefinition>>, ws: seq<int>, draws: seq<Draw>): seq<Option<FishDefinition>>
    requires |ws| == 5
  {
    if draws == [] then []
    else
      var d := draws[|draws| - 1];
      Catches(table, ws, draws[..|draws| - 1]) + [ChooseDefinition(table, Pick(ws, d.r), d.pick)]
  }

  lemma CatchesStep(table: seq<Option<FishDefinition>>, ws: seq<int>, draws: seq<Draw>, i: nat)
    requires |ws| == 5 && i < |draws|
    ensures Catches(table, ws, draws[..i + 1]) ==
            Catches(table, ws, draws[..i]) + [ChooseDefinition(table, Pick(ws, draws[i].r), draws[i].pick)]
  {
    assert draws[..i + 1][..i] == draws[..i];
  }

  /** The i-th fish spawned is the definition chosen with the i-th draw. */
  lemma {:induction false} CatchesPointwise(table: seq<Option<FishDefinition>>, ws: seq<int>, draws: seq<Draw>)
    requires |ws| == 5
    ensures |Catches(table, ws, draws)| == |draws|
    ensures forall i :: 0 <= i < |draws| ==>
              Catches(table, ws, draws)[i] == ChooseDefinition(table, Pick(ws, draws[i].r), draws[i].pick)
  {
    if draws != [] {
      var front := draws[..|draws| - 1];
      CatchesPointwise(table, ws, front);
      assert forall i :: 0 <= i < |front| ==> front[i] == draws[i];
    }
  }

  /** The higher of two tiers, by declared order. */
  function Higher(a: FishRarity, b: FishRarity): FishRarity {
    if Rank(b) > Rank(a) then b else a
  }

  /** The highest tier drawn over `draws`, starting from Common. */
  function MaxDrawn(ws: seq<int>, draws: seq<Draw>): FishRarity
    requires |ws| == 5
  {
    if draws == [] then Common
    else Higher(MaxDrawn(ws, draws[..|draws| - 1]), Pick(ws, draws[|draws| - 1].r))
  }

  lemma MaxDrawnStep(ws: seq<int>, draws: seq<Draw>, i: nat)
    requires |ws| == 5 && i < |draws|
    ensures MaxDrawn(ws, draws[..i + 1]) == Higher(MaxDrawn(ws, draws[..i]), Pick(ws, draws[i].r))
  {
    assert draws[..i + 1][..i] == draws[..i];
  }

  /**
   * `maxRarity` is the highest tier drawn: no drawn tier is above it, and
   * it is one of the drawn tiers (Common when nothing was drawn).
   */
  lemma {:induction false} MaxDrawnIsMaximum(ws: seq<int>, draws: seq<Draw>)
    requires |ws| == 5
    ensures forall i :: 0 <= i < |draws| ==> Rank(Pick(ws, draws[i].r)) <= Rank(MaxDrawn(ws, draws))
    ensures MaxDrawn(ws, draws) == Common || exists i :: 0 <= i < |draws| && MaxDrawn(ws, draws) == Pick(ws, draws[i].r)
  {
    if draws != [] {
      var front := draws[..|draws| - 1];
      MaxDrawnIsMaximum(ws, front);
      assert forall i :: 0 <= i < |front| ==> front[i] == draws[i];
    }
  }

  /** The table the spawner draws from: the rod's, or the fallback one without a rod. */
  function TableOf(rod: RodStats?): (ws: seq<int>)
    reads rod
    requires rod != null ==> rod.Valid()
    ensures |ws| == 5
  {
    if rod != null then rod.GetRarityWeights() else FallbackWeights
  }

  /** How many fish one catch spawns: the rod's multi-catch count, or 1 without a rod. */
  function CatchCount(rod: RodStats?): (n: int)
    reads rod
    ensures n >= 1
  {
    if rod != null then rod.GetMultiCatchCount() else 1
  }

  /**
   * `SpawnFromHook` without the ballistics: without a prefab nothing spawns
   * and `maxRarity` stays Common; otherwise one fish per count, the i-th
   * of a rarity drawn with `draws[i].r` and a definition chosen with
   * `draws[i].pick`, and `maxRarity` the highest tier drawn.
   */
  method SpawnFromHook(rod: RodStats?, hasPrefab: bool, fishTable: seq<Option<FishDefinition>>, draws: seq<Draw>)
    returns (spawned: seq<Option<FishDefinition>>, maxRarity: FishRarity)
    requires rod != null ==> rod.Valid()
    requires |draws| >= CatchCount(rod)
    requires forall i :: 0 <= i < |draws| ==>
               (TotalWeight(TableOf(rod)) > 0 ==> 0 <= draws[i].r < TotalWeight(TableOf(rod)))
    ensures !hasPrefab ==> spawned == [] && maxRarity == Common
    ensures hasPrefab ==> |spawned| == CatchCount(rod)
    ensures hasPrefab ==> forall i :: 0 <= i < |spawned| ==>
              spawned[i] == ChooseDefinition(fishTable, Pick(TableOf(rod), draws[i].r), draws[i].pick)
    ensures hasPrefab ==> maxRarity == MaxDrawn(TableOf(rod), draws[..CatchCount(rod)])
  {
    spawned := [];
    maxRarity := Common;
    var count := CatchCount(rod);
    if !hasPrefab || count <= 0 {
      return;
    }
    var ws := TableOf(rod);
    var i := 0;
    while i < count
      invariant 0 <= i <= count
      invariant spawned == Catches(fishTable, ws, draws[..i])
      invariant maxRarity == MaxDrawn(ws, draws[..i])
    {
      var rarity := PickRarity(ws, draws[i].r);
      if Rank(rarity) > Rank(maxRarity) {
        maxRarity := rarity;
      }
      MaxDrawnStep(ws, draws, i);
      var def := ChooseDefinition(fishTable, rarity, draws[i].pick);
      CatchesStep(fishTable, ws, draws, i);
      spawned := spawned + [def];
      i := i + 1;
    }
    CatchesPointwise(fishTable, ws, draws[..i]);
  }
}
