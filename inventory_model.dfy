/**
 * InventoryModel: a fixed number of slots, each empty or holding one stack.
 * The slot list is filled once by the constructor and afterwards only
 * updated in place by `Set`, `Swap` and `Clear`; calls naming an index out
 * of range do nothing.
 */
module Inventory {
  import opened Wrappers
  import opened Items

  type Slot = Option<ItemInstance>

  /** `Set` on a slot list: the slot at `i` replaced when `i` is in range, nothing otherwise. */
  function SetSlot(s: seq<Slot>, i: int, x: Slot): (t: seq<Slot>)
    ensures |t| == |s|
    ensures 0 <= i < |s| ==> t[i] == x
    ensures forall j :: 0 <= j < |s| && j != i ==> t[j] == s[j]
  {
    if 0 <= i < |s| then s[i := x] else s
  }

  /** `Swap` on a slot list: slots `a` and `b` exchanged when both are in range. */
  function Swapped(s: seq<Slot>, a: int, b: int): (t: seq<Slot>)
    ensures |t| == |s|
    ensures 0 <= a < |s| && 0 <= b < |s| ==> t[a] == s[b] && t[b] == s[a]
    ensures forall j :: 0 <= j < |s| && j != a && j != b ==> t[j] == s[j]
    ensures !(0 <= a < |s| && 0 <= b < |s|) ==> t == s
  {
    if 0 <= a < |s| && 0 <= b < |s| then s[a := s[b]][b := s[a]] else s
  }

  /** Swapping the same two slots twice gives back the original slots. */
  lemma SwapTwice(s: seq<Slot>, a: int, b: int)
    ensures Swapped(Swapped(s, a, b), a, b) == s
  {
  }

  /** Swapping keeps the slots' contents, only in another order. */
  lemma SwapKeepsContents(s: seq<Slot>, a: int, b: int)
    ensures multiset(Swapped(s, a, b)) == multiset(s)
  {
    if 0 <= a < |s| && 0 <= b < |s| && a != b {
      var t := Swapped(s, a, b);
      assert t == s[a := s[b]][b := s[a]];
    }
  }

  predicate AllEmpty(s: seq<Slot>) {
    forall j :: 0 <= j < |s| ==> s[j] == None
  }

  class InventoryModel {
    const Capacity: nat
    var slots: seq<Slot>

    ghost predicate Valid()
      reads this
    {
      |slots| == Capacity
    }

    /** `new InventoryModel(capacity)`: exactly `capacity` slots, all empty. */
    constructor (capacity: nat)
      ensures Valid() && Capacity == capacity
      ensures AllEmpty(slots)
    {
      Capacity := capacity;
      var s: seq<Slot> := [];
      while |s| < capacity
        invariant |s| <= capacity
        invariant AllEmpty(s)
      {
        s := s + [None];
      }
      slots := s;
    }

    /** `InRange(i)`: `0 <= i < Capacity`. */
    predicate InRange(i: int) {
      0 <= i < Capacity
    }

    /** The in-range indices are exactly the positions of the slot list. */
    lemma InRangeIndexesSlots(i: int)
      requires Valid()
      ensures InRange(i) <==> 0 <= i < |slots|
    {
    }

    /** `Get`: the stack in slot `index`, or empty for an index out of range. */
    function Get(index: int): (r: Slot)
      reads this
      requires Valid()
      ensures !InRange(index) ==> r == None
      ensures InRange(index) ==> r == slots[index]
    {
      if InRange(index) then slots[index] else None
    }

    /** `Set`: replaces slot `index` only, and does nothing out of range. */
    method Set(index: int, item: Slot)
      requires Valid()
      modifies this
      ensures Valid()
      ensures slots == SetSlot(old(slots), index, item)
    {
      if !InRange(index) {
        return;
      }
      slots := slots[index := item];
    }

    /** `Swap`: exchanges two in-range slots, and does nothing if either is out of range. */
    method Swap(a: int, b: int)
      requires Valid()
      modifies this
      ensures Valid()
      ensures slots == Swapped(old(slots), a, b)
    {
      if !InRange(a) || !InRange(b) {
        return;
      }
      slots := slots[a := slots[b]][b := slots[a]];
    }

    /** `Clear`: every slot emptied, one index after the other. */
    method Clear()
      requires Valid()
      modifies this
      ensures Valid()
      ensures AllEmpty(slots)
    {
      var i := 0;
      while i < Capacity
        invariant 0 <= i <= Capacity
        invariant |slots| == Capacity
        invariant forall j :: 0 <= j < i ==> slots[j] == None
      {
        slots := slots[i := None];
        i := i + 1;
      }
    }
  }
}
