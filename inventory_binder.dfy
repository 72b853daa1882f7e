/**
 * InventoryBinder: owns an InventoryModel and the slots registered by the
 * UI, each registered slot with the tag mask it accepts. Besides clearing,
 * it offers two ways to add a stack: `TryAddFirst` (top up matching stacks,
 * then take the first empty slot; registered slots first, then the whole
 * model under a fallback mask) and `TryAddAt` (one given slot).
 *
 * Registered slots are kept in registration order, which is the order the
 * binder's dictionary enumerates them in.
 */
module Binder {
  import opened Wrappers
  import ItemTags
  import opened Items
  import opened Inventory
  import opened InventoryService

  /** A registered slot view: its model index and its accepted tags. */
  datatype SlotRule = SlotRule(index: int, allowed: ItemTags.Tags)

  predicate DistinctIndices(rules: seq<SlotRule>) {
    forall a, b :: 0 <= a < b < |rules| ==> rules[a].index != rules[b].index
  }

  /** `_slots.TryGetValue(index)`: the mask registered for `index`, if any. */
  function RuleFor(rules: seq<SlotRule>, index: int): Option<ItemTags.Tags> {
    if rules == [] then None
    else if rules[0].index == index then Some(rules[0].allowed)
    else RuleFor(rules[1..], index)
  }

  /** An index has a rule exactly when one is registered under it, and the rule found is registered. */
  lemma {:induction false} RuleForFinds(rules: seq<SlotRule>, index: int)
    ensures RuleFor(rules, index).Some? <==> exists k :: 0 <= k < |rules| && rules[k].index == index
    ensures RuleFor(rules, index).Some? ==>
              exists k :: 0 <= k < |rules| && rules[k] == SlotRule(index, RuleFor(rules, index).value)
  {
    if rules != [] && rules[0].index != index {
      var tail := rules[1..];
      RuleForFinds(tail, index);
      assert forall k :: 0 <= k < |tail| ==> tail[k] == rules[k + 1];
      if RuleFor(tail, index).Some? {
        var k :| 0 <= k < |tail| && tail[k] == SlotRule(index, RuleFor(tail, index).value);
        assert rules[k + 1] == tail[k];
      }
    } else if rules != [] {
      assert rules[0] == SlotRule(index, RuleFor(rules, index).value);
    }
  }

  /** The model indices of the registered slots whose mask admits `tag`, in order. */
  function Admitting(rules: seq<SlotRule>, tag: ItemTags.Tags): seq<int> {
    if rules == [] then []
    else
      var last := rules[|rules| - 1];
      var front := Admitting(rules[..|rules| - 1], tag);
      front + (if ItemTags.Admits(last.allowed, tag) then [last.index] else [])
  }

  /** When every registered index lies in `[0, n)`, so does every index the scan visits. */
  lemma {:induction false} AdmittingInRange(rules: seq<SlotRule>, tag: ItemTags.Tags, n: int)
    requires forall k :: 0 <= k < |rules| ==> 0 <= rules[k].index < n
    ensures forall j :: 0 <= j < |Admitting(rules, tag)| ==> 0 <= Admitting(rules, tag)[j] < n
  {
    if rules != [] {
      var front := rules[..|rules| - 1];
      assert forall k :: 0 <= k < |front| ==> front[k] == rules[k];
      AdmittingInRange(front, tag, n);
    }
  }

  function Range(n: nat): (r: seq<int>)
    ensures |r| == n
    ensures forall j :: 0 <= j < n ==> r[j] == j
  {
    if n == 0 then [] else Range(n - 1) + [n - 1]
  }

  /** `Model.Get(i)` on the slot list: empty for an index out of range. */
  function GetSlot(s: seq<Slot>, i: int): Slot {
    if 0 <= i < |s| then s[i] else None
  }

  /** One top-up: a matching stack in slot `i` with room takes `min(space, count)` units. */
  datatype Pass = Pass(slots: seq<Slot>, item: ItemInstance, done: bool)

  function TopUp(s: seq<Slot>, i: int, item: ItemInstance): (p: Pass)
    ensures |p.slots| == |s|
  {
    var cur := GetSlot(s, i);
    if cur.Some? && CanStack(cur.value, item) && Space(cur.value) > 0 then
      var move := Min(Space(cur.value), item.count);
      var rest := item.(count := item.count - move);
      Pass(SetSlot(s, i, Some(cur.value.(count := cur.value.count + move))), rest, rest.count <= 0)
    else Pass(s, item, false)
  }

  /**
   * The top-up loop over `idxs`: visits them in order and stops as soon as a
   * top-up leaves the item with no units (`done`).
   */
  function MergePass(s: seq<Slot>, idxs: seq<int>, item: ItemInstance): (p: Pass)
    ensures |p.slots| == |s|
  {
    if idxs == [] then Pass(s, item, false)
    else
      var p := MergePass(s, idxs[..|idxs| - 1], item);
      if p.done then p else TopUp(p.slots, idxs[|idxs| - 1], p.item)
  }

  /**
   * A slot the placement loop takes. As written, the loop tests `Model.Get(i)
   * == null`, which also holds for an index outside the model (`strict` false);
   * the corrected test also asks for the index to be in range (`strict` true).
   */
  predicate Free(s: seq<Slot>, i: int, strict: bool) {
    GetSlot(s, i).None? && (strict ==> 0 <= i < |s|)
  }

  /** The first index of `idxs` that the placement loop takes, if any. */
  function FirstFree(s: seq<Slot>, idxs: seq<int>, strict: bool): (r: Option<int>)
    ensures r.Some? ==> Free(s, r.value, strict) && r.value in idxs
    ensures r.None? ==> forall j :: 0 <= j < |idxs| ==> !Free(s, idxs[j], strict)
  {
    if idxs == [] then None
    else
      match FirstFree(s, idxs[..|idxs| - 1], strict)
      case Some(k) => Some(k)
      case None => if Free(s, idxs[|idxs| - 1], strict) then Some(idxs[|idxs| - 1]) else None
  }

  /** The index taken is the first free one listed: every listed index before it is taken. */
  lemma {:induction false} FirstFreeIsFirst(s: seq<Slot>, idxs: seq<int>, strict: bool)
    requires FirstFree(s, idxs, strict).Some?
    ensures exists j :: 0 <= j < |idxs| && idxs[j] == FirstFree(s, idxs, strict).value &&
                        forall k :: 0 <= k < j ==> !Free(s, idxs[k], strict)
  {
    var front := idxs[..|idxs| - 1];
    assert forall k :: 0 <= k < |front| ==> front[k] == idxs[k];
    if FirstFree(s, front, strict).Some? {
      FirstFreeIsFirst(s, front, strict);
      var j :| 0 <= j < |front| && front[j] == FirstFree(s, front, strict).value &&
                forall k :: 0 <= k < j ==> !Free(s, front[k], strict);
      assert idxs[j] == FirstFree(s, idxs, strict).value;
    } else {
      assert idxs[|idxs| - 1] == FirstFree(s, idxs, strict).value;
    }
  }

  /** Outcome of `TryAddFirst`: the result, the new slots, and the caller's item as left behind. */
  datatype AddResult = AddResult(ok: bool, slots: seq<Slot>, item: ItemInstance)

  /** Second phase: the whole model under `allowedMask`, top-ups first, then the first empty slot. */
  function Fallback(s: seq<Slot>, item: ItemInstance, tag: ItemTags.Tags, mask: ItemTags.Tags): AddResult {
    if !ItemTags.Admits(mask, tag) then AddResult(false, s, item)
    else
      var q := MergePass(s, Range(|s|), item);
      if q.done then AddResult(true, q.slots, q.item)
      else
        match FirstFree(q.slots, Range(|s|), true)
        case Some(k) => AddResult(true, SetSlot(q.slots, k, Some(q.item)), q.item)
        case None => AddResult(false, q.slots, q.item)
  }

  /**
   * `TryAddFirst` on the slot list: registered admitting slots are topped up,
   * then the first registered admitting slot taken by the placement test gets
   * the rest; failing both, the fallback phase runs. Nothing done on the way
   * is undone when the result is false.
   */
  function AddFirstWith(s: seq<Slot>, rules: seq<SlotRule>, item: ItemInstance,
                        mask: ItemTags.Tags, strict: bool): AddResult
  {
    var tag := TagsOf(item);
    var idxs := Admitting(rules, tag);
    var p := MergePass(s, idxs, item);
    if p.done then AddResult(true, p.slots, p.item)
    else
      match FirstFree(p.slots, idxs, strict)
      case Some(k) => AddResult(true, SetSlot(p.slots, k, Some(p.item)), p.item)
      case None => Fallback(p.slots, p.item, tag, mask)
  }

  /** `TryAddFirst` as the source has it. */
  function AddFirstAsWritten(s: seq<Slot>, rules: seq<SlotRule>, item: ItemInstance, mask: ItemTags.Tags): AddResult {
    AddFirstWith(s, rules, item, mask, false)
  }

  /** `TryAddFirst` with the placement test restricted to slots inside the model. */
  function AddFirstCorrected(s: seq<Slot>, rules: seq<SlotRule>, item: ItemInstance, mask: ItemTags.Tags): AddResult {
    AddFirstWith(s, rules, item, mask, true)
  }

  // ---------------------------------------------------------------------
  // Bookkeeping of units

  /** Units of definition `e` held in one slot. */
  function UnitsIn(x: Slot, e: Option<ItemDefinition>): int {
    if x.Some? && x.value.def == e then x.value.count else 0
  }

  /** Units of definition `e` held in all the slots. */
  function UnitsOf(s: seq<Slot>, e: Option<ItemDefinition>): int {
    if s == [] then 0 else UnitsIn(s[0], e) + UnitsOf(s[1..], e)
  }

  /** Units of definition `e` still held by the item being added. */
  function Carried(item: ItemInstance, e: Option<ItemDefinition>): int {
    if item.def == e then item.count else 0
  }

  lemma {:induction false} UnitsOfSet(s: seq<Slot>, i: int, x: Slot, e: Option<ItemDefinition>)
    requires 0 <= i < |s|
    ensures UnitsOf(s[i := x], e) == UnitsOf(s, e) - UnitsIn(s[i], e) + UnitsIn(x, e)
  {
    if i == 0 {
      assert s[i := x][1..] == s[1..];
    } else {
      UnitsOfSet(s[1..], i - 1, x, e);
      assert s[i := x][1..] == s[1..][i - 1 := x];
    }
  }

  /** Slot `b` is slot `a`'s stack with more units, at most its definition's `maxStack`. */
  predicate ToppedUp(a: Slot, b: Slot) {
    a.Some? && b.Some? && a.value.def.Some? &&
    b.value == a.value.(count := b.value.count) &&
    a.value.count < b.value.count <= a.value.def.value.maxStack
  }

  /** Every slot of `t` is the one of `s`, or that stack topped up. */
  predicate OnlyToppedUp(s: seq<Slot>, t: seq<Slot>) {
    |s| == |t| && forall i :: 0 <= i < |s| ==> t[i] == s[i] || ToppedUp(s[i], t[i])
  }

  lemma OnlyToppedUpTrans(s: seq<Slot>, t: seq<Slot>, u: seq<Slot>)
    requires OnlyToppedUp(s, t) && OnlyToppedUp(t, u)
    ensures OnlyToppedUp(s, u)
  {
  }

  /** What one top-up keeps: units, the item's identity, and the stacks' bounds. */
  lemma TopUpKeeps(s: seq<Slot>, i: int, item: ItemInstance, e: Option<ItemDefinition>)
    requires item.count >= 1
    ensures var p := TopUp(s, i, item);
            UnitsOf(p.slots, e) + Carried(p.item, e) == UnitsOf(s, e) + Carried(item, e) &&
            p.item.def == item.def && p.item.fish == item.fish &&
            (p.done ==> p.item.count == 0) && (!p.done ==> p.item.count >= 1) &&
            OnlyToppedUp(s, p.slots)
  {
    var cur := GetSlot(s, i);
    if cur.Some? && CanStack(cur.value, item) && Space(cur.value) > 0 {
      var move := Min(Space(cur.value), item.count);
      UnitsOfSet(s, i, Some(cur.value.(count := cur.value.count + move)), e);
    }
  }

  /** The top-up loop conserves units and only tops stacks up, never beyond `maxStack`. */
  lemma {:induction false} MergePassKeeps(s: seq<Slot>, idxs: seq<int>, item: ItemInstance, e: Option<ItemDefinition>)
    requires item.count >= 1
    ensures var p := MergePass(s, idxs, item);
            UnitsOf(p.slots, e) + Carried(p.item, e) == UnitsOf(s, e) + Carried(item, e) &&
            p.item.def == item.def && p.item.fish == item.fish &&
            (p.done ==> p.item.count == 0) && (!p.done ==> p.item.count >= 1) &&
            OnlyToppedUp(s, p.slots)
  {
    if idxs != [] {
      var front := idxs[..|idxs| - 1];
      MergePassKeeps(s, front, item, e);
      var p := MergePass(s, front, item);
      if !p.done {
        TopUpKeeps(p.slots, idxs[|idxs| - 1], p.item, e);
        OnlyToppedUpTrans(s, p.slots, TopUp(p.slots, idxs[|idxs| - 1], p.item).slots);
      }
    }
  }

  /**
   * With the placement test restricted to the model, `TryAddFirst` conserves
   * units: on success every unit of the item is in the slots, on failure
   * the units missing from the slots are still held by the caller's item,
   * and no other definition's units change.
   */
  lemma AddFirstConserves(s: seq<Slot>, rules: seq<SlotRule>, item: ItemInstance,
                          mask: ItemTags.Tags, e: Option<ItemDefinition>)
    requires item.count >= 1
    ensures var r := AddFirstCorrected(s, rules, item, mask);
            |r.slots| == |s| &&
            UnitsOf(r.slots, e) + (if r.ok then 0 else Carried(r.item, e)) == UnitsOf(s, e) + Carried(item, e)
  {
    var tag := TagsOf(item);
    var idxs := Admitting(rules, tag);
    MergePassKeeps(s, idxs, item, e);
    var p := MergePass(s, idxs, item);
    if !p.done {
      match FirstFree(p.slots, idxs, true)
      case Some(k) =>
        UnitsOfSet(p.slots, k, Some(p.item), e);
      case None =>
        if ItemTags.Admits(mask, tag) {
          MergePassKeeps(p.slots, Range(|s|), p.item, e);
          var q := MergePass(p.slots, Range(|s|), p.item);
          if !q.done {
            match FirstFree(q.slots, Range(|s|), true)
            case Some(k) =>
              UnitsOfSet(q.slots, k, Some(q.item), e);
            case None =>
          }
        }
    }
  }

  /**
   * Each slot after `TryAddFirst` is unchanged, or a matching stack topped up
   * to at most `maxStack`, or a slot that was empty and now holds the rest of
   * the item.
   */
  lemma AddFirstOnlyTopsUpOrPlaces(s: seq<Slot>, rules: seq<SlotRule>, item: ItemInstance, mask: ItemTags.Tags)
    requires item.count >= 1
    ensures var r := AddFirstAsWritten(s, rules, item, mask);
            TopsUpOrPlaces(s, r.slots, r.item)
  {
    var tag := TagsOf(item);
    var idxs := Admitting(rules, tag);
    MergePassKeeps(s, idxs, item, None);
    var p := MergePass(s, idxs, item);
    if p.done {
      OnlyToppedUpChanges(s, p.slots, item);
    } else {
      match FirstFree(p.slots, idxs, false)
      case Some(k) =>
        PlacedAfterTopUps(s, p.slots, k, p.item);
      case None =>
        if ItemTags.Admits(mask, tag) {
          MergePassKeeps(p.slots, Range(|s|), p.item, None);
          var q := MergePass(p.slots, Range(|s|), p.item);
          OnlyToppedUpTrans(s, p.slots, q.slots);
          if q.done {
            OnlyToppedUpChanges(s, q.slots, q.item);
          } else {
            match FirstFree(q.slots, Range(|s|), true)
            case Some(k) =>
              PlacedAfterTopUps(s, q.slots, k, q.item);
            case None =>
              OnlyToppedUpChanges(s, q.slots, q.item);
          }
        } else {
          OnlyToppedUpChanges(s, p.slots, p.item);
        }
    }
  }

  /** Every slot of `t` is the one of `s`, that stack topped up, or an empty slot now holding `x`. */
  predicate TopsUpOrPlaces(s: seq<Slot>, t: seq<Slot>, x: ItemInstance) {
    |t| == |s| &&
    forall i :: 0 <= i < |s| ==> t[i] == s[i] || ToppedUp(s[i], t[i]) || (s[i].None? && t[i] == Some(x))
  }

  lemma OnlyToppedUpChanges(s: seq<Slot>, t: seq<Slot>, x: ItemInstance)
    requires OnlyToppedUp(s, t)
    ensures TopsUpOrPlaces(s, t, x)
  {
  }

  /** Placing `x` into a slot the top-ups left empty (or nowhere, out of range). */
  lemma PlacedAfterTopUps(s: seq<Slot>, t: seq<Slot>, k: int, x: ItemInstance)
    requires OnlyToppedUp(s, t) && GetSlot(t, k).None?
    ensures TopsUpOrPlaces(s, SetSlot(t, k, Some(x)), x)
  {
  }

  /** The placement test with and without the range check agree on indices inside the model. */
  lemma {:induction false} FirstFreeInRange(s: seq<Slot>, idxs: seq<int>)
    requires forall j :: 0 <= j < |idxs| ==> 0 <= idxs[j] < |s|
    ensures FirstFree(s, idxs, false) == FirstFree(s, idxs, true)
  {
    if idxs != [] {
      FirstFreeInRange(s, idxs[..|idxs| - 1]);
    }
  }

  /** When every registered slot lies inside the model, the source's `TryAddFirst` is the corrected one. */
  lemma AddFirstAgreesInRange(s: seq<Slot>, rules: seq<SlotRule>, item: ItemInstance, mask: ItemTags.Tags)
    requires forall k :: 0 <= k < |rules| ==> 0 <= rules[k].index < |s|
    ensures AddFirstAsWritten(s, rules, item, mask) == AddFirstCorrected(s, rules, item, mask)
  {
    var idxs := Admitting(rules, TagsOf(item));
    AdmittingInRange(rules, TagsOf(item), |s|);
    FirstFreeInRange(MergePass(s, idxs, item).slots, idxs);
  }

  /** No top-up happens over empty slots. */
  lemma {:induction false} MergePassOverEmpty(s: seq<Slot>, idxs: seq<int>, item: ItemInstance)
    requires AllEmpty(s)
    ensures MergePass(s, idxs, item) == Pass(s, item, false)
  {
    if idxs != [] {
      MergePassOverEmpty(s, idxs[..|idxs| - 1], item);
    }
  }

  /** The placement loop takes the first index when that slot qualifies. */
  lemma {:induction false} FirstFreeTakesHead(s: seq<Slot>, idxs: seq<int>, strict: bool)
    requires idxs != [] && Free(s, idxs[0], strict)
    ensures FirstFree(s, idxs, strict) == Some(idxs[0])
  {
    if |idxs| > 1 {
      FirstFreeTakesHead(s, idxs[..|idxs| - 1], strict);
    }
  }

  /**
   * As written, a registered slot whose index lies outside the model passes
   * the `Get(i) == null` test: the item is "placed" by a `Set` that does
   * nothing, and `TryAddFirst` reports success while no slot holds the item.
   */
  lemma {:induction false} OutOfRangeSlotLosesItem(s: seq<Slot>, index: int, allowed: ItemTags.Tags,
                                                   item: ItemInstance, mask: ItemTags.Tags)
    requires AllEmpty(s) && !(0 <= index < |s|) && ItemTags.Admits(allowed, TagsOf(item))
    ensures var r := AddFirstAsWritten(s, [SlotRule(index, allowed)], item, mask);
            r.ok && r.slots == s
  {
    var rules := [SlotRule(index, allowed)];
    assert rules[..0] == [];
    assert Admitting(rules, TagsOf(item)) == [index];
    MergePassOverEmpty(s, [index], item);
    FirstFreeTakesHead(s, [index], false);
  }

  /** On the same input the corrected test stores the stack in slot 0 through the fallback phase. */
  lemma {:induction false} OutOfRangeSlotCorrected(s: seq<Slot>, index: int, allowed: ItemTags.Tags,
                                                   item: ItemInstance, mask: ItemTags.Tags)
    requires AllEmpty(s) && |s| > 0 && !(0 <= index < |s|) && ItemTags.Admits(allowed, TagsOf(item))
    requires ItemTags.Admits(mask, TagsOf(item))
    ensures var c := AddFirstCorrected(s, [SlotRule(index, allowed)], item, mask);
            c.ok && c.slots == s[0 := Some(item)]
  {
    var rules := [SlotRule(index, allowed)];
    assert rules[..0] == [];
    assert Admitting(rules, TagsOf(item)) == [index];
    MergePassOverEmpty(s, [index], item);
    assert FirstFree(s, [index], true) == None;
    MergePassOverEmpty(s, Range(|s|), item);
    FirstFreeTakesHead(s, Range(|s|), true);
  }

  // ---------------------------------------------------------------------
  // Registration

  /**
   * `RegisterSlot` on the registrations: a slot registered again at the same
   * index replaces the earlier one where it stands, a new index is appended.
   */
  function Registered(rules: seq<SlotRule>, index: int, allowed: ItemTags.Tags): (r: seq<SlotRule>)
    ensures RuleFor(r, index) == Some(allowed)
    ensures forall j :: j != index ==> RuleFor(r, j) == RuleFor(rules, j)
    ensures |r| == if RuleFor(rules, index).Some? then |rules| else |rules| + 1
  {
    if rules == [] then [SlotRule(index, allowed)]
    else if rules[0].index == index then [SlotRule(index, allowed)] + rules[1..]
    else
      var tail := Registered(rules[1..], index, allowed);
      var r := [rules[0]] + tail;
      assert r[1..] == tail;
      r
  }

  /** Registering keeps at most one registration per index. */
  lemma {:induction false} RegisteredKeepsDistinct(rules: seq<SlotRule>, index: int, allowed: ItemTags.Tags)
    requires DistinctIndices(rules)
    ensures DistinctIndices(Registered(rules, index, allowed))
  {
    if rules != [] && rules[0].index != index {
      var tail := rules[1..];
      assert forall k :: 0 <= k < |tail| ==> tail[k] == rules[k + 1];
      assert DistinctIndices(tail) by {
        forall a, b | 0 <= a < b < |tail|
          ensures tail[a].index != tail[b].index
        {
          assert rules[a + 1].index != rules[b + 1].index;
        }
      }
      RegisteredKeepsDistinct(tail, index, allowed);
      var t := Registered(tail, index, allowed);
      var r := [rules[0]] + t;
      assert RuleFor(tail, rules[0].index).None? by {
        forall k | 0 <= k < |tail|
          ensures tail[k].index != rules[0].index
        {
          assert rules[0].index != rules[k + 1].index;
        }
        RuleForFinds(tail, rules[0].index);
      }
      assert RuleFor(t, rules[0].index).None?;
      RuleForFinds(t, rules[0].index);
      forall a, b | 0 <= a < b < |r|
        ensures r[a].index != r[b].index
      {
        assert r[b] == t[b - 1];
        if a > 0 {
          assert r[a] == t[a - 1];
        }
      }
    }
  }

  // ---------------------------------------------------------------------
  // Facts about extending the scans by one index

  lemma AdmittingSnoc(rules: seq<SlotRule>, k: int, tag: ItemTags.Tags)
    requires 0 <= k < |rules|
    ensures Admitting(rules[..k + 1], tag) ==
            Admitting(rules[..k], tag) + (if ItemTags.Admits(rules[k].allowed, tag) then [rules[k].index] else [])
  {
    assert rules[..k + 1][..k] == rules[..k];
  }

  lemma {:induction false} AdmittingAppend(a: seq<SlotRule>, b: seq<SlotRule>, tag: ItemTags.Tags)
    ensures Admitting(a + b, tag) == Admitting(a, tag) + Admitting(b, tag)
  {
    if b != [] {
      AdmittingAppend(a, b[..|b| - 1], tag);
      assert (a + b)[..|a + b| - 1] == a + b[..|b| - 1];
      assert (a + b)[|a + b| - 1] == b[|b| - 1];
    } else {
      assert a + b == a;
    }
  }

  lemma MergePassSnoc(s: seq<Slot>, a: seq<int>, i: int, item: ItemInstance)
    ensures var p := MergePass(s, a, item);
            MergePass(s, a + [i], item) == if p.done then p else TopUp(p.slots, i, p.item)
  {
    assert (a + [i])[..|a|] == a;
  }

  /** Once the item is used up, the top-up loop visits nothing more. */
  lemma {:induction false} MergePassDoneStays(s: seq<Slot>, a: seq<int>, b: seq<int>, item: ItemInstance)
    requires MergePass(s, a, item).done
    ensures MergePass(s, a + b, item) == MergePass(s, a, item)
  {
    if b != [] {
      MergePassDoneStays(s, a, b[..|b| - 1], item);
      assert (a + b)[..|a + b| - 1] == a + b[..|b| - 1];
      assert (a + b)[|a + b| - 1] == b[|b| - 1];
    } else {
      assert a + b == a;
    }
  }

  lemma FirstFreeSnoc(s: seq<Slot>, a: seq<int>, i: int, strict: bool)
    ensures FirstFree(s, a + [i], strict) ==
            if FirstFree(s, a, strict).Some? then FirstFree(s, a, strict)
            else if Free(s, i, strict) then Some(i) else None
  {
    assert (a + [i])[..|a|] == a;
  }

  /** Once a slot is taken, the placement loop visits nothing more. */
  lemma {:induction false} FirstFreeFoundStays(s: seq<Slot>, a: seq<int>, b: seq<int>, strict: bool)
    requires FirstFree(s, a, strict).Some?
    ensures FirstFree(s, a + b, strict) == FirstFree(s, a, strict)
  {
    if b != [] {
      FirstFreeFoundStays(s, a, b[..|b| - 1], strict);
      assert (a + b)[..|a + b| - 1] == a + b[..|b| - 1];
      assert (a + b)[|a + b| - 1] == b[|b| - 1];
    } else {
      assert a + b == a;
    }
  }

  /** One more registration visited by the top-up loop over registered slots. */
  lemma MergeRuleStep(s: seq<Slot>, rules: seq<SlotRule>, k: int, tag: ItemTags.Tags, item: ItemInstance, p: Pass)
    requires 0 <= k < |rules| && MergePass(s, Admitting(rules[..k], tag), item) == p && !p.done
    ensures MergePass(s, Admitting(rules[..k + 1], tag), item) ==
            if ItemTags.Admits(rules[k].allowed, tag) then TopUp(p.slots, rules[k].index, p.item) else p
  {
    AdmittingSnoc(rules, k, tag);
    if ItemTags.Admits(rules[k].allowed, tag) {
      MergePassSnoc(s, Admitting(rules[..k], tag), rules[k].index, item);
    } else {
      assert Admitting(rules[..k + 1], tag) == Admitting(rules[..k], tag);
    }
  }

  /** The top-up loop over registered slots ends where the item was used up. */
  lemma MergeRuleDone(s: seq<Slot>, rules: seq<SlotRule>, j: int, tag: ItemTags.Tags, item: ItemInstance)
    requires 0 <= j <= |rules| && MergePass(s, Admitting(rules[..j], tag), item).done
    ensures MergePass(s, Admitting(rules, tag), item) == MergePass(s, Admitting(rules[..j], tag), item)
  {
    AdmittingAppend(rules[..j], rules[j..], tag);
    assert rules[..j] + rules[j..] == rules;
    MergePassDoneStays(s, Admitting(rules[..j], tag), Admitting(rules[j..], tag), item);
  }

  /** One more registration visited by the placement loop over registered slots. */
  lemma PlaceRuleStep(s: seq<Slot>, rules: seq<SlotRule>, k: int, tag: ItemTags.Tags)
    requires 0 <= k < |rules| && FirstFree(s, Admitting(rules[..k], tag), false).None?
    ensures FirstFree(s, Admitting(rules[..k + 1], tag), false) ==
            if ItemTags.Admits(rules[k].allowed, tag) && Free(s, rules[k].index, false) then Some(rules[k].index) else None
  {
    AdmittingSnoc(rules, k, tag);
    if ItemTags.Admits(rules[k].allowed, tag) {
      FirstFreeSnoc(s, Admitting(rules[..k], tag), rules[k].index, false);
    } else {
      assert Admitting(rules[..k + 1], tag) == Admitting(rules[..k], tag);
    }
  }

  /** The placement loop over registered slots ends at the first slot it finds. */
  lemma PlaceRuleFound(s: seq<Slot>, rules: seq<SlotRule>, j: int, tag: ItemTags.Tags)
    requires 0 <= j <= |rules| && FirstFree(s, Admitting(rules[..j], tag), false).Some?
    ensures FirstFree(s, Admitting(rules, tag), false) == FirstFree(s, Admitting(rules[..j], tag), false)
  {
    AdmittingAppend(rules[..j], rules[j..], tag);
    assert rules[..j] + rules[j..] == rules;
    FirstFreeFoundStays(s, Admitting(rules[..j], tag), Admitting(rules[j..], tag), false);
  }

  lemma RangeSplit(n: nat, i: nat)
    requires i <= n
    ensures Range(n) == Range(i) + Range(n)[i..]
  {
    var r := Range(i) + Range(n)[i..];
    assert |r| == n;
    forall j | 0 <= j < n
      ensures r[j] == Range(n)[j]
    {
      if j < i {
        assert r[j] == Range(i)[j];
      } else {
        assert r[j] == Range(n)[i..][j - i];
      }
    }
  }

  /** One more index visited by the placement loop over the whole model. */
  lemma PlaceAllStep(s: seq<Slot>, i: nat)
    requires FirstFree(s, Range(i), true).None?
    ensures FirstFree(s, Range(i + 1), true) == if Free(s, i, true) then Some(i) else None
  {
    assert Range(i + 1) == Range(i) + [i];
    FirstFreeSnoc(s, Range(i), i, true);
  }

  /** The placement loop over the whole model ends at the first empty slot it finds. */
  lemma PlaceAllFound(s: seq<Slot>, n: nat, i: nat)
    requires i < n && FirstFree(s, Range(i + 1), true) == Some(i)
    ensures FirstFree(s, Range(n), true) == Some(i)
  {
    RangeSplit(n, i + 1);
    FirstFreeFoundStays(s, Range(i + 1), Range(n)[i + 1..], true);
  }

  /** One more index visited by the top-up loop over the whole model. */
  lemma MergeAllStep(s: seq<Slot>, i: nat, item: ItemInstance, p: Pass)
    requires MergePass(s, Range(i), item) == p && !p.done
    ensures MergePass(s, Range(i + 1), item) == TopUp(p.slots, i, p.item)
  {
    assert Range(i + 1) == Range(i) + [i];
    MergePassSnoc(s, Range(i), i, item);
  }

  /** The top-up loop over the whole model ends where the item was used up. */
  lemma MergeAllDone(s: seq<Slot>, n: nat, i: nat, item: ItemInstance)
    requires i <= n && MergePass(s, Range(i), item).done
    ensures MergePass(s, Range(n), item) == MergePass(s, Range(i), item)
  {
    RangeSplit(n, i);
    MergePassDoneStays(s, Range(i), Range(n)[i..], item);
  }

  // ---------------------------------------------------------------------
  // The binder

  class InventoryBinder {
    const Model: InventoryModel
    /** The registered slot views, as index and accepted tags, in registration order. */
    var slotRules: seq<SlotRule>

    ghost predicate Valid()
      reads this, Model
    {
      Model.Valid() && DistinctIndices(slotRules)
    }

    /** A binder over a fresh model of `capacity` empty slots, with no slot registered. */
    constructor (capacity: nat)
      ensures Valid() && fresh(Model)
      ensures Model.Capacity == capacity && AllEmpty(Model.slots) && slotRules == []
    {
      Model := new InventoryModel(capacity);
      slotRules := [];
    }

    /** `RegisterSlot`: records (or re-records) the mask of slot `index`. */
    method RegisterSlot(index: int, allowed: ItemTags.Tags)
      requires Valid()
      modifies this
      ensures Valid()
      ensures slotRules == Registered(old(slotRules), index, allowed)
    {
      RegisteredKeepsDistinct(slotRules, index, allowed);
      slotRules := Registered(slotRules, index, allowed);
    }

    /** `Clear`: every slot of the model emptied; registrations kept. */
    method Clear()
      requires Valid()
      modifies Model
      ensures Valid()
      ensures AllEmpty(Model.slots) && slotRules == old(slotRules)
    {
      var i := 0;
      while i < Model.Capacity
        invariant 0 <= i <= Model.Capacity
        invariant Model.Valid()
        invariant forall j :: 0 <= j < i ==> Model.slots[j] == None
      {
        Model.Set(i, None);
        i := i + 1;
      }
    }

    /**
     * The body shared by the two top-up loops of `TryAddFirst`: a matching
     * stack with room in slot `i` takes `min(space, count)` units, and `used`
     * tells whether the item has none left.
     */
    method TopUpSlot(i: int, item: ItemInstance) returns (it: ItemInstance, used: bool)
      requires Model.Valid()
      modifies Model
      ensures Model.Valid()
      ensures Pass(Model.slots, it, used) == TopUp(old(Model.slots), i, item)
    {
      it := item;
      used := false;
      var cur := Model.Get(i);
      if cur.Some? && CanStack(cur.value, it) {
        var space := Space(cur.value);
        if space > 0 {
          var move := Min(space, it.count);
          var c := cur.value.(count := cur.value.count + move);
          it := it.(count := it.count - move);
          Model.Set(i, Some(c));
          used := it.count <= 0;
        }
      }
    }

    /**
     * First loop of `TryAddFirst`: the registered slots admitting `tag` are
     * topped up in order until the item is used up (`done`).
     */
    method MergeRegistered(item: ItemInstance, tag: ItemTags.Tags) returns (it: ItemInstance, done: bool)
      requires Valid()
      modifies Model
      ensures Valid() && slotRules == old(slotRules)
      ensures Pass(Model.slots, it, done) == MergePass(old(Model.slots), Admitting(slotRules, tag), item)
    {
      var rules := slotRules;
      ghost var s0 := Model.slots;
      it := item;
      var k := 0;
      while k < |rules|
        invariant 0 <= k <= |rules|
        invariant Model.Valid()
        invariant MergePass(s0, Admitting(rules[..k], tag), item) == Pass(Model.slots, it, false)
      {
        var rule := rules[k];
        MergeRuleStep(s0, rules, k, tag, item, Pass(Model.slots, it, false));
        if ItemTags.Admits(rule.allowed, tag) {
          var used;
          it, used := TopUpSlot(rule.index, it);
          if used {
            MergeRuleDone(s0, rules, k + 1, tag, item);
            return it, true;
          }
        }
        k := k + 1;
      }
      assert rules[..k] == rules;
      return it, false;
    }

    /**
     * Second loop of `TryAddFirst`: the first registered slot admitting `tag`
     * for which `Model.Get` reads empty receives the item.
     */
    method PlaceRegistered(item: ItemInstance, tag: ItemTags.Tags) returns (placed: bool)
      requires Valid()
      modifies Model
      ensures Valid() && slotRules == old(slotRules)
      ensures match FirstFree(old(Model.slots), Admitting(slotRules, tag), false)
              case Some(k) => placed && Model.slots == SetSlot(old(Model.slots), k, Some(item))
              case None => !placed && Model.slots == old(Model.slots)
    {
      var rules := slotRules;
      ghost var p := Model.slots;
      var k := 0;
      while k < |rules|
        invariant 0 <= k <= |rules|
        invariant Model.slots == p
        invariant FirstFree(p, Admitting(rules[..k], tag), false) == None
      {
        var rule := rules[k];
        PlaceRuleStep(p, rules, k, tag);
        if ItemTags.Admits(rule.allowed, tag) && Model.Get(rule.index).None? {
          PlaceRuleFound(p, rules, k + 1, tag);
          Model.Set(rule.index, Some(item));
          return true;
        }
        k := k + 1;
      }
      assert rules[..k] == rules;
      return false;
    }

    /** Third loop of `TryAddFirst`: every slot of the model is topped up in index order. */
    method MergeAll(item: ItemInstance) returns (it: ItemInstance, done: bool)
      requires Valid()
      modifies Model
      ensures Valid() && slotRules == old(slotRules)
      ensures Pass(Model.slots, it, done) == MergePass(old(Model.slots), Range(Model.Capacity), item)
    {
      ghost var s1 := Model.slots;
      it := item;
      var i := 0;
      while i < Model.Capacity
        invariant 0 <= i <= Model.Capacity
        invariant Model.Valid()
        invariant MergePass(s1, Range(i), item) == Pass(Model.slots, it, false)
      {
        MergeAllStep(s1, i, item, Pass(Model.slots, it, false));
        var used;
        it, used := TopUpSlot(i, it);
        if used {
          MergeAllDone(s1, Model.Capacity, i + 1, item);
          return it, true;
        }
        i := i + 1;
      }
      return it, false;
    }

    /** Fourth loop of `TryAddFirst`: the first empty slot of the model receives the item. */
    method PlaceAll(item: ItemInstance) returns (placed: bool)
      requires Valid()
      modifies Model
      ensures Valid() && slotRules == old(slotRules)
      ensures match FirstFree(old(Model.slots), Range(Model.Capacity), true)
              case Some(k) => placed && Model.slots == SetSlot(old(Model.slots), k, Some(item))
              case None => !placed && Model.slots == old(Model.slots)
    {
      ghost var q := Model.slots;
      var i := 0;
      while i < Model.Capacity
        invariant 0 <= i <= Model.Capacity
        invariant Model.slots == q
        invariant FirstFree(q, Range(i), true) == None
      {
        PlaceAllStep(q, i);
        if Model.Get(i).None? {
          PlaceAllFound(q, Model.Capacity, i);
          Model.Set(i, Some(item));
          return true;
        }
        i := i + 1;
      }
      return false;
    }

    /**
     * `TryAddFirst`: the result and the new slots are those of
     * `AddFirstAsWritten`, and `left` is the caller's item as the merges
     * leave it (its count lowered by what was merged). While every
     * registered index lies inside the model this is `AddFirstCorrected`,
     * whose conservation `AddFirstConserves` proves.
     */
    method TryAddFirst(item: Slot, allowedMask: ItemTags.Tags) returns (ok: bool, left: Slot)
      requires Valid()
      modifies Model
      ensures Valid() && slotRules == old(slotRules)
      ensures item.None? ==> !ok && left.None? && Model.slots == old(Model.slots)
      ensures item.Some? ==>
                var r := AddFirstAsWritten(old(Model.slots), slotRules, item.value, allowedMask);
                ok == r.ok && Model.slots == r.slots && left == Some(r.item)
      // with every registered index inside the model, the add is the corrected one
      ensures item.Some? && (forall k :: 0 <= k < |slotRules| ==> 0 <= slotRules[k].index < |old(Model.slots)|) ==>
                var c := AddFirstCorrected(old(Model.slots), slotRules, item.value, allowedMask);
                ok == c.ok && Model.slots == c.slots
    {
      if item.None? {
        return false, None;
      }
      if forall k :: 0 <= k < |slotRules| ==> 0 <= slotRules[k].index < |Model.slots| {
        AddFirstAgreesInRange(Model.slots, slotRules, item.value, allowedMask);
      }
      var it := item.value;
      var tag := TagsOf(it);
      var done: bool;
      if |slotRules| > 0 {
        it, done := MergeRegistered(it, tag);
        if done {
          return true, Some(it);
        }
        var placed := PlaceRegistered(it, tag);
        if placed {
          return true, Some(it);
        }
      }
      if !ItemTags.Admits(allowedMask, tag) {
        return false, Some(it);
      }
      it, done := MergeAll(it);
      if done {
        return true, Some(it);
      }
      var placed := PlaceAll(it);
      return placed, Some(it);
    }

    /** Whether `TryAddAt` with `respectSlotRule` lets `it` into slot `index`. */
    predicate RuleAdmits(index: int, it: ItemInstance, respectSlotRule: bool)
      reads this
    {
      !respectSlotRule || RuleFor(slotRules, index).None? ||
      ItemTags.Admits(RuleFor(slotRules, index).value, TagsOf(it))
    }

    /**
     * `TryAddAt`: into an in-range slot the rule admits, the item is placed
     * if the slot is empty, or merged up to `maxStack` into a matching stack
     * with room (true even when part of the item is left over); in every
     * other case nothing changes and the result is false.
     */
    method TryAddAt(index: int, item: Slot, respectSlotRule: bool) returns (ok: bool, left: Slot)
      requires Valid()
      modifies Model
      ensures Valid() && slotRules == old(slotRules)
      ensures !ok ==> Model.slots == old(Model.slots) && left == item
      ensures ok <==> item.Some? && Model.InRange(index) && RuleAdmits(index, item.value, respectSlotRule) &&
                      (old(Model.slots)[index].None? ||
                       (CanStack(old(Model.slots)[index].value, item.value) && Space(old(Model.slots)[index].value) > 0))
      ensures ok && old(Model.slots)[index].None? ==>
                Model.slots == old(Model.slots)[index := item] && left == item
      ensures ok && old(Model.slots)[index].Some? ==>
                var cur := old(Model.slots)[index].value;
                var move := Min(Space(cur), item.value.count);
                Model.slots == old(Model.slots)[index := Some(cur.(count := cur.count + move))] &&
                left == Some(item.value.(count := item.value.count - move)) &&
                cur.count + move <= cur.def.value.maxStack
    {
      if item.None? {
        return false, item;
      }
      if !Model.InRange(index) {
        return false, item;
      }
      if respectSlotRule {
        var rule := RuleFor(slotRules, index);
        if rule.Some? && !ItemTags.Admits(rule.value, TagsOf(item.value)) {
          return false, item;
        }
      }
      var cur := Model.Get(index);
      if cur.None? {
        Model.Set(index, item);
        return true, item;
      }
      if CanStack(cur.value, item.value) {
        var space := Space(cur.value);
        if space <= 0 {
          return false, item;
        }
        var move := Min(space, item.value.count);
        Model.Set(index, Some(cur.value.(count := cur.value.count + move)));
        return true, Some(item.value.(count := item.value.count - move));
      }
      return false, item;
    }
  }
}
