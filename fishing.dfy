/**
 * FishingController: the cast / fish / reel state machine, the equipment
 * it applies to the rod when a cast starts, and the bait and lure it
 * consumes on success and on failure.
 *
 * Positions are abstracted to the distances the controller compares:
 * the player's signed offset from the right edge (`edgeGap`), the hook's
 * distance past the edge (`edgeDist`, never negative) and the hook's
 * distance to the catch point (`catchDist`). Key input is the three
 * booleans the controller polls. Hook physics, the spawn of the caught
 * fish and the float reel speeds are not part of this model.
 */
module Fishing {
  import opened Wrappers
  import ItemTags
  import opened Rarity
  import opened Items
  import opened Inventory
  import opened InventoryService
  import opened Binder
  import opened Rod
  import opened Spawner
  import opened PlayerModel

  // ---------------------------------------------------------------------
  // Consumption

  /** One unit less, never below zero; a stack left with no units empties the slot. */
  function Decremented(it: ItemInstance): (x: Slot)
    ensures x.Some? <==> it.count > 1
    ensures x.Some? ==> x.value == it.(count := it.count - 1)
    ensures Units(x) == Max0(it.count - 1)
  {
    var c := Max0(it.count - 1);
    if c > 0 then Some(it.(count := c)) else None
  }

  /**
   * `ConsumeOnFail` on the slots: the item in slot `idx`, whatever it is,
   * loses one unit; nothing happens out of range or on an empty slot.
   */
  function ConsumedOnFail(s: seq<Slot>, idx: int): (r: seq<Slot>)
    ensures |r| == |s|
    ensures forall j :: 0 <= j < |s| && j != idx ==> r[j] == s[j]
    ensures 0 <= idx < |s| ==> Units(r[idx]) == Max0(Units(s[idx]) - 1)
    ensures 0 <= idx < |s| && r[idx].Some? ==> s[idx].Some? && r[idx].value == s[idx].value.(count := s[idx].value.count - 1)
    ensures !(0 <= idx < |s|) || s[idx].None? ==> r == s
  {
    if 0 <= idx < |s| && s[idx].Some? then s[idx := Decremented(s[idx].value)] else s
  }

  /**
   * `ConsumeOnSuccess` on the slots: like `ConsumedOnFail`, but only a
   * Bait-tagged item is consumed; a lure (or anything else) is left alone.
   */
  function ConsumedOnSuccess(s: seq<Slot>, idx: int): (r: seq<Slot>)
    ensures |r| == |s|
    ensures 0 <= idx < |s| && s[idx].Some? && ItemTags.Admits(TagsOf(s[idx].value), ItemTags.Bait) ==>
              r == ConsumedOnFail(s, idx)
    ensures !(0 <= idx < |s| && s[idx].Some? && ItemTags.Admits(TagsOf(s[idx].value), ItemTags.Bait)) ==>
              r == s
  {
    if 0 <= idx < |s| && s[idx].Some? && ItemTags.Admits(TagsOf(s[idx].value), ItemTags.Bait) then
      s[idx := Decremented(s[idx].value)]
    else s
  }

  /** A success leaves an equipped lure (any item without the Bait tag) untouched. */
  lemma LureSurvivesSuccess(s: seq<Slot>, idx: int)
    requires 0 <= idx < |s| && s[idx].Some? && !ItemTags.Admits(TagsOf(s[idx].value), ItemTags.Bait)
    ensures ConsumedOnSuccess(s, idx) == s
    ensures Units(ConsumedOnFail(s, idx)[idx]) == Max0(Units(s[idx]) - 1)
  {
  }

  // ---------------------------------------------------------------------
  // Equipment

  /** The rarity table `ApplyEquippedToRod` installs with nothing equipped: only Common and Uncommon. */
  const NoEquipmentWeights: seq<int> := [2, 1, 0, 0, 0]

  /**
   * The rarity override and bait type for the item in the bait/lure slot:
   * nothing equipped restricts the table to Common and Uncommon; a bait or
   * lure installs its clamped table unless its raw table is all zero; any
   * other item installs no override.
   */
  function EquipWeights(bl: Slot): (r: (Option<seq<int>>, BaitType))
    ensures r.0.Some? ==> |r.0.value| == 5
    ensures bl.None? ==> r == (Some(NoEquipmentWeights), Lure)
    ensures r.1 == FishBait <==> bl.Some? && bl.value.def.Some? && bl.value.def.value.kind.BaitDef?
    ensures bl.Some? && (bl.value.def.None? || !(bl.value.def.value.kind.BaitDef? || bl.value.def.value.kind.LureDef?)) ==>
              r.0.None?
    ensures bl.Some? && bl.value.def.Some? && bl.value.def.value.kind.BaitDef? ==>
              var w := bl.value.def.value.kind.baitWeights;
              r.0 == if IsAllZero(w) then None else Some(ToDict(w))
    ensures bl.Some? && bl.value.def.Some? && bl.value.def.value.kind.LureDef? ==>
              var w := bl.value.def.value.kind.lureWeights;
              r.0 == if IsAllZero(w) then None else Some(ToDict(w))
  {
    if bl.None? then (Some(NoEquipmentWeights), Lure)
    else if bl.value.def.None? then (None, Lure)
    else
      match bl.value.def.value.kind
      case BaitDef(w) => (if IsAllZero(w) then None else Some(ToDict(w)), FishBait)
      case LureDef(w) => (if IsAllZero(w) then None else Some(ToDict(w)), Lure)
      case _ => (None, Lure)
  }

  /** An equipped bait or lure with an all-zero table leaves the rod on its default table. */
  lemma AllZeroEquipmentUsesDefault(bl: Slot, w: RarityWeights)
    requires bl.Some? && bl.value.def.Some?
    requires bl.value.def.value.kind == BaitDef(w) || bl.value.def.value.kind == LureDef(w)
    requires IsAllZero(w)
    ensures EquipWeights(bl).0.None?
  {
  }

  /** With nothing equipped, every draw gives Common or Uncommon. */
  lemma NoEquipmentDrawsLowTiers(r: int)
    requires 0 <= r < TotalWeight(NoEquipmentWeights)
    ensures Pick(NoEquipmentWeights, r) == Common || Pick(NoEquipmentWeights, r) == Uncommon
  {
    PickIsBracket(NoEquipmentWeights, r);
    var k := Rank(Pick(NoEquipmentWeights, r));
    assert NoEquipmentWeights[k] > 0;
  }

  /** The reel override for the item in the reel slot: its multipliers when it is a reel. */
  function EquipReel(reelItem: Slot): (m: Option<ReelMultipliers>)
    ensures m.Some? <==> reelItem.Some? && reelItem.value.def.Some? && reelItem.value.def.value.kind.ReelDef?
    ensures m.Some? ==> m.value == reelItem.value.def.value.kind.reel
  {
    if reelItem.Some? && reelItem.value.def.Some? && reelItem.value.def.value.kind.ReelDef? then
      Some(reelItem.value.def.value.kind.reel)
    else None
  }

  // ---------------------------------------------------------------------
  // The state machine

  datatype State = Idle | Casting | Fishing

  /** The controller's own fields: state, sub-flags, sink timer, and whether the hook object exists. */
  datatype Ctl = Ctl(state: State, fullReel: bool, isSinking: bool, sinkTimer: real, hook: bool)

  const Initial: Ctl := Ctl(Idle, false, false, 0.0, false)

  /** The inspector values the transitions compare against, and whether a player is linked. */
  datatype Tuning = Tuning(releaseDistance: real, sinkDestroyDelay: real, catchTolerance: real, hasPlayer: bool)

  /** What one frame polls. */
  datatype FrameInput = FrameInput(castKeyDown: bool, held: bool, up: bool,
                                   edgeGap: real, edgeDist: real, catchDist: real, dt: real)

  /** What a transition did besides changing the controller's fields. */
  datatype Effect =
    | Nothing
    | CastStarted   // movement locked, equipment applied to the rod, hook created
    | Caught        // ConsumeOnSuccess ran
    | Failed        // ConsumeOnFail ran
    | Landed        // hook destroyed and movement unlocked after a full reel
    | Sunk          // hook destroyed and movement unlocked after a sink

  /** Something the controller reacts to: a frame, or the hook's callback / destruction. */
  datatype Event = Frame(input: FrameInput) | HookHitWater | HookDestroyed

  /** `StartCast`: refused when a linked player is not at the right edge. */
  function StartCastStep(c: Ctl, edgeGap: real, t: Tuning): (Ctl, Effect) {
    if t.hasPlayer && !IsAtRightEdge(edgeGap, CastEdgeTolerance) then (c, Nothing)
    else (c.(state := Casting, fullReel := false, isSinking := false, hook := true), CastStarted)
  }

  /** `TriggerFailSink`: guarded by `isSinking`, so a sink consumes at most once. */
  function FailSinkStep(c: Ctl): (Ctl, Effect) {
    if c.isSinking then (c, Nothing)
    else (c.(fullReel := false, isSinking := true, sinkTimer := 0.0), Failed)
  }

  /** `UpdateSinking`: the timer runs, and at `sinkDestroyDelay` the hook goes and the state is Idle. */
  function SinkStep(c: Ctl, dt: real, t: Tuning): (Ctl, Effect) {
    var timer := c.sinkTimer + dt;
    if timer >= t.sinkDestroyDelay then (c.(sinkTimer := timer, state := Idle, hook := false), Sunk)
    else (c.(sinkTimer := timer), Nothing)
  }

  /**
   * `HandleFishing`: nothing without a hook. Before the full reel, holding
   * the button inside `releaseDistance` fails; releasing it at or beyond
   * `releaseDistance` catches and starts the full reel, inside it fails.
   * During the full reel, reaching the catch point within `catchTolerance`
   * finishes the reel.
   */
  function FishingStep(c: Ctl, i: FrameInput, t: Tuning): (Ctl, Effect) {
    if !c.hook then (c, Nothing)
    else if !c.fullReel then
      if i.held && i.edgeDist < t.releaseDistance then FailSinkStep(c)
      else if i.up then
        if i.edgeDist >= t.releaseDistance then (c.(fullReel := true), Caught)
        else FailSinkStep(c)
      else (c, Nothing)
    else if i.catchDist < t.catchTolerance then (c.(state := Idle, hook := false), Landed)
    else (c, Nothing)
  }

  /** `Update`: Idle waits for the cast key, Casting waits for the hook, Fishing sinks or fishes. */
  function FrameStep(c: Ctl, i: FrameInput, t: Tuning): (Ctl, Effect) {
    match c.state
    case Idle => if i.castKeyDown then StartCastStep(c, i.edgeGap, t) else (c, Nothing)
    case Casting => (c, Nothing)
    case Fishing => if c.isSinking then SinkStep(c, i.dt, t) else FishingStep(c, i, t)
  }

  function Step(c: Ctl, e: Event, t: Tuning): (Ctl, Effect) {
    match e
    case Frame(i) => FrameStep(c, i, t)
    case HookHitWater => if c.hook then (c.(state := Fishing), Nothing) else (c, Nothing)
    case HookDestroyed => (c.(hook := false), Nothing)
  }

  /** The consistent states: no hook when Idle, a fresh cast has no sub-flag, sinking excludes the full reel. */
  predicate Inv(c: Ctl) {
    (c.state == Idle ==> !c.hook) &&
    (c.state == Casting ==> !c.fullReel && !c.isSinking) &&
    (c.isSinking ==> !c.fullReel)
  }

  lemma StepKeepsInv(c: Ctl, e: Event, t: Tuning)
    requires Inv(c)
    ensures Inv(Step(c, e, t).0)
  {
  }

  /**
   * A frame starts a cast exactly from Idle with the cast key down and, when a
   * player is linked, the player within 0.15 of the right edge; the cast
   * clears both sub-flags.
   */
  lemma CastStartsOnlyFromIdleAtEdge(c: Ctl, i: FrameInput, t: Tuning)
    ensures FrameStep(c, i, t).1 == CastStarted <==>
              c.state == Idle && i.castKeyDown && (t.hasPlayer ==> IsAtRightEdge(i.edgeGap, CastEdgeTolerance))
    ensures FrameStep(c, i, t).1 == CastStarted ==>
              var d := FrameStep(c, i, t).0;
              d.state == Casting && !d.fullReel && !d.isSinking && d.hook
  {
  }

  /** Holding the button inside `releaseDistance` before the full reel fails the cast. */
  lemma HeldInsideFails(c: Ctl, i: FrameInput, t: Tuning)
    requires c.state == Fishing && c.hook && !c.isSinking && !c.fullReel
    requires i.held && i.edgeDist < t.releaseDistance
    ensures FrameStep(c, i, t) == (c.(isSinking := true, sinkTimer := 0.0), Failed)
  {
  }

  /** A sinking hook is gone, and the controller Idle, exactly once the timer reaches `sinkDestroyDelay`. */
  lemma SinkEndsAtDelay(c: Ctl, i: FrameInput, t: Tuning)
    requires c.state == Fishing && c.isSinking
    ensures FrameStep(c, i, t).1 == Sunk <==> c.sinkTimer + i.dt >= t.sinkDestroyDelay
    ensures FrameStep(c, i, t).1 == Sunk ==> FrameStep(c, i, t).0.state == Idle && !FrameStep(c, i, t).0.hook
    ensures FrameStep(c, i, t).1 != Sunk ==> FrameStep(c, i, t).0 == c.(sinkTimer := c.sinkTimer + i.dt)
  {
  }

  /** During the full reel the controller lands, back to Idle, exactly when the hook is within `catchTolerance`. */
  lemma FullReelLandsWithinTolerance(c: Ctl, i: FrameInput, t: Tuning)
    requires c.state == Fishing && c.hook && !c.isSinking && c.fullReel
    ensures FrameStep(c, i, t).1 == Landed <==> i.catchDist < t.catchTolerance
    ensures FrameStep(c, i, t).1 == Landed ==> FrameStep(c, i, t).0.state == Idle
    ensures FrameStep(c, i, t).1 != Landed ==> FrameStep(c, i, t).0 == c
  {
  }

  /** The release threshold is inclusive: letting go exactly at `releaseDistance` catches. */
  lemma ReleaseAtThresholdCatches(c: Ctl, i: FrameInput, t: Tuning)
    requires c.state == Fishing && c.hook && !c.isSinking && !c.fullReel
    requires i.up && !i.held && i.edgeDist == t.releaseDistance
    ensures Step(c, Frame(i), t) == (c.(fullReel := true), Caught)
  {
  }

  /**
   * When the hook object is gone while fishing (not sinking), no frame
   * changes anything: the controller stays in Fishing and never returns
   * to Idle by itself.
   */
  lemma LostHookStaysFishing(c: Ctl, i: FrameInput, t: Tuning)
    requires c.state == Fishing && !c.isSinking && !c.hook
    ensures Step(c, Frame(i), t) == (c, Nothing)
  {
  }

  /** A cast that has consumed something: the full reel or the sink has started. */
  predicate Spent(c: Ctl) {
    c.fullReel || c.isSinking
  }

  predicate Consumes(e: Effect) {
    e == Caught || e == Failed
  }

  /** Only a fresh cast clears `Spent`, and a consumption needs an unspent cast and spends it. */
  lemma StepSpends(c: Ctl, e: Event, t: Tuning)
    requires Inv(c)
    ensures var (d, eff) := Step(c, e, t);
            (Spent(c) && eff != CastStarted ==> Spent(d)) &&
            (Consumes(eff) ==> !Spent(c) && Spent(d))
  {
  }

  /** The controller after the events `es`, and the effects in order. */
  function Run(c: Ctl, es: seq<Event>, t: Tuning): (r: (Ctl, seq<Effect>))
    ensures |r.1| == |es|
  {
    if es == [] then (c, [])
    else
      var (d, effs) := Run(c, es[..|es| - 1], t);
      var (d2, eff) := Step(d, es[|es| - 1], t);
      (d2, effs + [eff])
  }

  function CountConsumes(effs: seq<Effect>): nat {
    if effs == [] then 0
    else CountConsumes(effs[..|effs| - 1]) + (if Consumes(effs[|effs| - 1]) then 1 else 0)
  }

  /**
   * Between two cast starts, bait or lure is consumed at most once: along
   * any run with no `CastStarted`, at most one consumption happens, none if
   * the cast was already spent, and the invariant holds at the end.
   */
  lemma {:induction false} AtMostOneConsumePerCast(c: Ctl, es: seq<Event>, t: Tuning)
    requires Inv(c)
    requires CastStarted !in Run(c, es, t).1
    ensures Inv(Run(c, es, t).0)
    ensures CountConsumes(Run(c, es, t).1) <= (if Spent(c) then 0 else 1)
    ensures CountConsumes(Run(c, es, t).1) > 0 ==> Spent(Run(c, es, t).0)
    ensures Spent(c) ==> Spent(Run(c, es, t).0)
  {
    if es != [] {
      var front := es[..|es| - 1];
      var (d, effs) := Run(c, front, t);
      var (d2, eff) := Step(d, es[|es| - 1], t);
      assert Run(c, es, t).1 == effs + [eff];
      assert (effs + [eff])[..|effs|] == effs;
      assert forall k :: 0 <= k < |effs| ==> effs[k] == Run(c, es, t).1[k];
      AtMostOneConsumePerCast(c, front, t);
      StepKeepsInv(d, es[|es| - 1], t);
      StepSpends(d, es[|es| - 1], t);
    }
  }

  // ---------------------------------------------------------------------
  // The component

  class FishingController {
    const player: Player?
    const rod: RodStats?
    const playerInventory: InventoryBinder?
    const baitOrLureSlotIndex: int
    const reelSlotIndex: int
    const releaseDistance: real
    const sinkDestroyDelay: real
    const catchTolerance: real

    var state: State
    var fullReel: bool
    var isSinking: bool
    var sinkTimer: real
    /** Whether `currentHook` refers to a live hook object. */
    var hook: bool

    function Fields(): Ctl
      reads this
    {
      Ctl(state, fullReel, isSinking, sinkTimer, hook)
    }

    function Tune(): Tuning {
      Tuning(releaseDistance, sinkDestroyDelay, catchTolerance, player != null)
    }

    /** The player's slots, or none without an inventory. */
    function Slots(): seq<Slot>
      reads if playerInventory != null then {playerInventory.Model} else {}
    {
      if playerInventory != null then playerInventory.Model.slots else []
    }

    /** `GetEquippedBaitOrLure` / `GetEquippedReel`: the item in slot `idx`, if the inventory has that slot. */
    function Equipped(idx: int): Slot
      reads if playerInventory != null then {playerInventory.Model} else {}
    {
      if 0 <= idx < |Slots()| then Slots()[idx] else None
    }

    ghost predicate Valid()
      reads this, rod, playerInventory
      reads if playerInventory != null then {playerInventory.Model} else {}
    {
      Inv(Fields()) &&
      (rod != null ==> rod.Valid()) &&
      (playerInventory != null ==> playerInventory.Valid())
    }

    constructor (player: Player?, rod: RodStats?, playerInventory: InventoryBinder?,
                 releaseDistance: real, sinkDestroyDelay: real, catchTolerance: real)
      requires rod != null ==> rod.Valid()
      requires playerInventory != null ==> playerInventory.Valid()
      ensures Valid() && Fields() == Initial
      ensures this.player == player && this.rod == rod && this.playerInventory == playerInventory
      ensures baitOrLureSlotIndex == 6 && reelSlotIndex == 5
      ensures this.releaseDistance == releaseDistance && this.sinkDestroyDelay == sinkDestroyDelay
      ensures this.catchTolerance == catchTolerance
    {
      this.player := player;
      this.rod := rod;
      this.playerInventory := playerInventory;
      baitOrLureSlotIndex := 6;
      reelSlotIndex := 5;
      this.releaseDistance := releaseDistance;
      this.sinkDestroyDelay := sinkDestroyDelay;
      this.catchTolerance := catchTolerance;
      state := Idle;
      fullReel := false;
      isSinking := false;
      sinkTimer := 0.0;
      hook := false;
    }

    /** `ConsumeOnSuccess`: the bait/lure slot as `ConsumedOnSuccess` leaves it. */
    method ConsumeOnSuccess()
      requires playerInventory != null ==> playerInventory.Valid()
      modifies if playerInventory != null then {playerInventory.Model} else {}
      ensures playerInventory != null ==> playerInventory.Valid()
      ensures Slots() == ConsumedOnSuccess(old(Slots()), baitOrLureSlotIndex)
    {
      if playerInventory == null {
        return;
      }
      var model := playerInventory.Model;
      if !model.InRange(baitOrLureSlotIndex) {
        return;
      }
      var it := model.Get(baitOrLureSlotIndex);
      if it.None? {
        return;
      }
      if ItemTags.Admits(TagsOf(it.value), ItemTags.Bait) {
        var c := Max0(it.value.count - 1);
        model.Set(baitOrLureSlotIndex, if c > 0 then Some(it.value.(count := c)) else None);
      }
    }

    /** `ConsumeOnFail`: the bait/lure slot as `ConsumedOnFail` leaves it. */
    method ConsumeOnFail()
      requires playerInventory != null ==> playerInventory.Valid()
      modifies if playerInventory != null then {playerInventory.Model} else {}
      ensures playerInventory != null ==> playerInventory.Valid()
      ensures Slots() == ConsumedOnFail(old(Slots()), baitOrLureSlotIndex)
    {
      if playerInventory == null {
        return;
      }
      var model := playerInventory.Model;
      if !model.InRange(baitOrLureSlotIndex) {
        return;
      }
      var it := model.Get(baitOrLureSlotIndex);
      if it.None? {
        return;
      }
      var c := Max0(it.value.count - 1);
      model.Set(baitOrLureSlotIndex, if c > 0 then Some(it.value.(count := c)) else None);
    }

    /**
     * `ApplyEquippedToRod`: with a rod, its bait type and rarity override
     * follow `EquipWeights` of the bait/lure slot and its reel multipliers
     * follow `EquipReel` of the reel slot; without a rod nothing happens.
     */
    method ApplyEquippedToRod()
      requires rod != null ==> rod.Valid()
      modifies rod
      ensures rod != null ==> rod.Valid()
      ensures rod != null ==>
                rod.overrideRarityWeights == EquipWeights(Equipped(baitOrLureSlotIndex)).0 &&
                rod.bait == EquipWeights(Equipped(baitOrLureSlotIndex)).1 &&
                rod.ReelOverrideIs(EquipReel(Equipped(reelSlotIndex)))
      ensures rod != null ==> rod.reelLevel == old(rod.reelLevel) && rod.multiCatchCount == old(rod.multiCatchCount)
      ensures rod != null ==> rod.lureWeights == old(rod.lureWeights) && rod.fishBaitWeights == old(rod.fishBaitWeights)
    {
      if rod == null {
        return;
      }
      var bl := Equipped(baitOrLureSlotIndex);
      var (weights, bait) := EquipWeights(bl);
      rod.SetBait(bait);
      rod.SetRarityWeightsOverride(weights);
      rod.SetReelOverride(EquipReel(Equipped(reelSlotIndex)));
    }

    /** `StartCast`, as `StartCastStep`; a started cast locks movement and applies the equipment. */
    method StartCast(edgeGap: real)
      requires Valid()
      modifies this, player, rod
      ensures Valid()
      ensures player != null ==> player.uiMode == old(player.uiMode)
      ensures Fields() == StartCastStep(old(Fields()), edgeGap, Tune()).0
      ensures StartCastStep(old(Fields()), edgeGap, Tune()).1 == CastStarted ==>
                (player != null ==> !player.movementEnabled) &&
                (rod != null ==> rod.overrideRarityWeights == EquipWeights(Equipped(baitOrLureSlotIndex)).0 &&
                                 rod.bait == EquipWeights(Equipped(baitOrLureSlotIndex)).1 &&
                                 rod.ReelOverrideIs(EquipReel(Equipped(reelSlotIndex))))
      ensures StartCastStep(old(Fields()), edgeGap, Tune()).1 == Nothing ==>
                (player != null ==> player.movementEnabled == old(player.movementEnabled)) &&
                (rod != null ==> rod.overrideRarityWeights == old(rod.overrideRarityWeights) && rod.bait == old(rod.bait) &&
                                 rod.overrideHorizMul == old(rod.overrideHorizMul) && rod.overrideFullMul == old(rod.overrideFullMul) &&
                                 rod.overridePerRarityMul == old(rod.overridePerRarityMul))
      // the rod's counters and default tables are never touched
      ensures rod != null ==> rod.reelLevel == old(rod.reelLevel) && rod.multiCatchCount == old(rod.multiCatchCount) &&
                              rod.lureWeights == old(rod.lureWeights) && rod.fishBaitWeights == old(rod.fishBaitWeights)
    {
      if player != null && !IsAtRightEdge(edgeGap, CastEdgeTolerance) {
        return;
      }
      if player != null {
        player.SetMovementEnabled(false);
      }
      state := Casting;
      fullReel := false;
      isSinking := false;
      ApplyEquippedToRod();
      hook := true;
    }

    /** `OnHookHitWater`, called by a live hook: the state becomes Fishing. */
    method OnHookHitWater()
      requires Valid() && hook
      modifies this
      ensures Valid()
      ensures Fields() == Step(old(Fields()), HookHitWater, Tune()).0
      ensures state == Fishing
    {
      state := Fishing;
    }

    /** `TriggerFailSink`, as `FailSinkStep`: the first call consumes and starts the sink; later ones do nothing. */
    method TriggerFailSink()
      requires Valid() && state == Fishing
      modifies this, if playerInventory != null then {playerInventory.Model} else {}
      ensures Valid()
      ensures Fields() == FailSinkStep(old(Fields())).0
      ensures Slots() == if old(isSinking) then old(Slots()) else ConsumedOnFail(old(Slots()), baitOrLureSlotIndex)
    {
      if isSinking {
        return;
      }
      ConsumeOnFail();
      fullReel := false;
      isSinking := true;
      sinkTimer := 0.0;
    }

    /** `UpdateSinking`, as `SinkStep`; the hook's end unlocks movement. */
    method UpdateSinking(dt: real)
      requires Valid() && state == Fishing && isSinking
      modifies this, player
      ensures Valid()
      ensures player != null ==> player.uiMode == old(player.uiMode)
      ensures Fields() == SinkStep(old(Fields()), dt, Tune()).0
      ensures player != null ==>
                player.movementEnabled == if SinkStep(old(Fields()), dt, Tune()).1 == Sunk then true else old(player.movementEnabled)
    {
      sinkTimer := sinkTimer + dt;
      if sinkTimer >= sinkDestroyDelay {
        hook := false;
        if player != null {
          player.SetMovementEnabled(true);
        }
        state := Idle;
      }
    }

    /** `FinishReel`: the hook goes, movement is unlocked, and the state is Idle. */
    method FinishReel()
      requires Valid()
      modifies this, player
      ensures Valid()
      ensures player != null ==> player.uiMode == old(player.uiMode)
      ensures Fields() == old(Fields()).(state := Idle, hook := false)
      ensures player != null ==> player.movementEnabled
    {
      hook := false;
      if player != null {
        player.SetMovementEnabled(true);
      }
      state := Idle;
    }

    /** `HandleFishing`, as `FishingStep`, with the consumption each outcome runs. */
    method HandleFishing(i: FrameInput)
      requires Valid() && state == Fishing && !isSinking
      modifies this, player, if playerInventory != null then {playerInventory.Model} else {}
      ensures Valid()
      ensures player != null ==> player.uiMode == old(player.uiMode)
      ensures Fields() == FishingStep(old(Fields()), i, Tune()).0
      ensures var eff := FishingStep(old(Fields()), i, Tune()).1;
              Slots() == (if eff == Caught then ConsumedOnSuccess(old(Slots()), baitOrLureSlotIndex)
                          else if eff == Failed then ConsumedOnFail(old(Slots()), baitOrLureSlotIndex)
                          else old(Slots())) &&
              (player != null ==> player.movementEnabled == if eff == Landed then true else old(player.movementEnabled))
    {
      if !hook {
        return;
      }
      if !fullReel {
        if i.held && i.edgeDist < releaseDistance {
          TriggerFailSink();
          return;
        }
        if i.up {
          if i.edgeDist >= releaseDistance {
            ConsumeOnSuccess();
            fullReel := true;
          } else {
            TriggerFailSink();
          }
        }
      } else {
        if i.catchDist < catchTolerance {
          FinishReel();
        }
      }
    }

    /**
     * `Update`: one frame, as `FrameStep`, with its effects: a started cast
     * locks movement and applies the equipment, a catch runs
     * `ConsumeOnSuccess`, a failure `ConsumeOnFail`, and the end of a reel or
     * of a sink unlocks movement. Nothing else changes.
     */
    method Update(i: FrameInput)
      requires Valid()
      modifies this, player, rod, if playerInventory != null then {playerInventory.Model} else {}
      ensures Valid()
      ensures player != null ==> player.uiMode == old(player.uiMode)
      ensures Fields() == FrameStep(old(Fields()), i, Tune()).0
      ensures var eff := FrameStep(old(Fields()), i, Tune()).1;
              Slots() == (if eff == Caught then ConsumedOnSuccess(old(Slots()), baitOrLureSlotIndex)
                          else if eff == Failed then ConsumedOnFail(old(Slots()), baitOrLureSlotIndex)
                          else old(Slots())) &&
              (player != null ==>
                 player.movementEnabled == if eff == CastStarted then false
                                           else if eff == Landed || eff == Sunk then true
                                           else old(player.movementEnabled)) &&
              (rod != null && eff == CastStarted ==>
                 rod.overrideRarityWeights == EquipWeights(Equipped(baitOrLureSlotIndex)).0 &&
                 rod.bait == EquipWeights(Equipped(baitOrLureSlotIndex)).1 &&
                 rod.ReelOverrideIs(EquipReel(Equipped(reelSlotIndex)))) &&
              (rod != null && eff != CastStarted ==>
                 rod.overrideRarityWeights == old(rod.overrideRarityWeights) && rod.bait == old(rod.bait) &&
                 rod.overrideHorizMul == old(rod.overrideHorizMul) && rod.overrideFullMul == old(rod.overrideFullMul) &&
                 rod.overridePerRarityMul == old(rod.overridePerRarityMul))
      ensures rod != null ==> rod.reelLevel == old(rod.reelLevel) && rod.multiCatchCount == old(rod.multiCatchCount) &&
                              rod.lureWeights == old(rod.lureWeights) && rod.fishBaitWeights == old(rod.fishBaitWeights)
    {
      match state
      case Idle =>
        if i.castKeyDown {
          StartCast(i.edgeGap);
        }
      case Casting =>
      case Fishing =>
        if isSinking {
          UpdateSinking(i.dt);
        } else {
          HandleFishing(i);
        }
    }
  }
}
