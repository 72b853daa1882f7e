/**
 * InventoryService.TryMove: drag a stack from one slot to another, possibly
 * of another inventory. A stack the destination's mask rejects stays put;
 * two stacks of one stackable definition merge up to `maxStack`; anything
 * else swaps.
 */
module InventoryService {
  import opened Wrappers
  import ItemTags
  import opened Items
  import opened Inventory

  function Min(a: int, b: int): int {
    if a < b then a else b
  }

  /** The units a slot holds: the stack's count, or none when it is empty. */
  function Units(s: Slot): int {
    if s.Some? then s.value.count else 0
  }

  /** What TryMove decides: reject, or the new contents of the source and destination slots. */
  datatype MovePlan = Rejected | Moved(newFrom: Slot, newTo: Slot)

  /**
   * The decision of TryMove on the two slot contents. `sameSlot` says that
   * source and destination are the very same slot, so `item` and `dst` are
   * one object: the merge's `+= move` and `-= move` then cancel out.
   */
  function PlanMove(item: Slot, dst: Slot, toAllowed: ItemTags.Tags, sameSlot: bool): (p: MovePlan)
    ensures item.None? ==> p.Rejected?
    ensures item.Some? && !ItemTags.Admits(toAllowed, TagsOf(item.value)) ==> p.Rejected?
    // a merge conserves the units of the two slots and never overfills the destination
    ensures p.Moved? && !sameSlot && dst.Some? && CanStack(dst.value, item.value) ==>
              p.newTo.Some? && Units(p.newTo) + Units(p.newFrom) == Units(item) + Units(dst) &&
              Units(p.newTo) <= dst.value.def.value.maxStack
    // anything that does not merge is a plain swap
    ensures p.Moved? && !(dst.Some? && CanStack(dst.value, item.value)) ==> p == Moved(dst, item)
  {
    if item.None? || !ItemTags.Admits(toAllowed, TagsOf(item.value)) then Rejected
    else if dst.Some? && CanStack(dst.value, item.value) then
      var space := Space(dst.value);
      if space <= 0 then Rejected
      else if sameSlot then Moved(item, dst)
      else
        var move := Min(space, item.value.count);
        var rest := item.value.count - move;
        Moved(if rest <= 0 then None else Some(item.value.(count := rest)),
              Some(dst.value.(count := dst.value.count + move)))
    else Moved(dst, item)
  }

  /** A merge onto a stack with no room left is refused. */
  lemma FullStackRefusesMerge(it: ItemInstance, d: ItemInstance, mask: ItemTags.Tags, same: bool)
    requires CanStack(d, it) && Space(d) <= 0
    ensures PlanMove(Some(it), Some(d), mask, same) == Rejected
  {
  }

  /**
   * A merge between two slots moves exactly `min(space, count)` units, and
   * the source slot is emptied exactly when all of its units moved.
   */
  lemma MergeMovesMinimum(it: ItemInstance, d: ItemInstance, mask: ItemTags.Tags)
    requires CanStack(d, it) && Space(d) > 0 && ItemTags.Admits(mask, TagsOf(it))
    requires it.count >= 1
    ensures var p := PlanMove(Some(it), Some(d), mask, false);
            p.Moved? && Units(p.newTo) == d.count + Min(Space(d), it.count) &&
            (p.newFrom.None? <==> it.count <= Space(d))
  {
  }

  /** Dropping a stack back onto its own slot changes nothing. */
  lemma SameSlotKeepsStack(it: ItemInstance, mask: ItemTags.Tags)
    ensures var p := PlanMove(Some(it), Some(it), mask, true);
            p.Moved? ==> p.newTo == Some(it)
  {
  }

  /**
   * `TryMove`. Refuses (false, nothing changes) when a model is missing, an
   * index is out of range, the source slot is empty, the destination mask
   * rejects the item, or a merge finds the destination full. Otherwise the
   * two slots receive the plan's contents, source first, then destination.
   * `fromTags` is not consulted: a stack swapped back into the source slot
   * is not checked against that slot's mask.
   */
  method TryMove(fromInv: InventoryModel?, fromIdx: int, fromTags: ItemTags.Tags,
                 toInv: InventoryModel?, toIdx: int, toAllowed: ItemTags.Tags) returns (ok: bool)
    requires fromInv != null ==> fromInv.Valid()
    requires toInv != null ==> toInv.Valid()
    modifies fromInv, toInv
    ensures fromInv != null ==> fromInv.Valid()
    ensures toInv != null ==> toInv.Valid()
    ensures fromInv == null || toInv == null || !fromInv.InRange(fromIdx) || !toInv.InRange(toIdx) ==> !ok
    ensures !ok ==> (fromInv != null ==> fromInv.slots == old(fromInv.slots)) &&
                    (toInv != null ==> toInv.slots == old(toInv.slots))
    ensures fromInv != null && toInv != null && fromInv.InRange(fromIdx) && toInv.InRange(toIdx) ==>
              var p := PlanMove(old(fromInv.slots)[fromIdx], old(toInv.slots)[toIdx], toAllowed,
                                fromInv == toInv && fromIdx == toIdx);
              (ok <==> p.Moved?) &&
              (ok && fromInv == toInv ==>
                 toInv.slots == SetSlot(SetSlot(old(toInv.slots), fromIdx, p.newFrom), toIdx, p.newTo)) &&
              (ok && fromInv != toInv ==>
                 fromInv.slots == SetSlot(old(fromInv.slots), fromIdx, p.newFrom) &&
                 toInv.slots == SetSlot(old(toInv.slots), toIdx, p.newTo))
  {
    if fromInv == null || toInv == null {
      return false;
    }
    if !fromInv.InRange(fromIdx) || !toInv.InRange(toIdx) {
      return false;
    }
    var item := fromInv.Get(fromIdx);
    if item.None? {
      return false;
    }
    if !ItemTags.Admits(toAllowed, TagsOf(item.value)) {
      return false;
    }
    var dst := toInv.Get(toIdx);
    if dst.Some? && CanStack(dst.value, item.value) {
      var space := Space(dst.value);
      if space <= 0 {
        return false;
      }
      var move := Min(space, item.value.count);
      var d := dst.value.(count := dst.value.count + move);
      var it := item.value.(count := item.value.count - move);
      if fromInv == toInv && fromIdx == toIdx {
        // `dst` and `item` are one object: adding and removing `move` cancel out
        d, it := dst.value, item.value;
      }
      if it.count <= 0 {
        fromInv.Set(fromIdx, None);
      } else {
        fromInv.Set(fromIdx, Some(it));
      }
      toInv.Set(toIdx, Some(d));
      return true;
    }
    fromInv.Set(fromIdx, dst);
    toInv.Set(toIdx, item);
    ok := true;
  }
}
