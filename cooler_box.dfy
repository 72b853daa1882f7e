/**
 * CoolerBox: the legacy fish store. Caught fish are appended while the
 * capacity allows (capacity 0, or any non-positive value, means no limit),
 * and selling empties the store for the sum of the stored values.
 */
module Cooler {
  import opened Wrappers
  import opened Items

  /** Sum of the stored fish values, unclamped. */
  function SumValues(fs: seq<FishInstance>): int {
    if fs == [] then 0 else SumValues(fs[..|fs| - 1]) + fs[|fs| - 1].value
  }

  /** Whether a store of `count` fish refuses another one. */
  predicate Full(capacity: int, count: int) {
    capacity > 0 && count >= capacity
  }

  /** The store after `TryStoreFish(fish)`. */
  function Stored(capacity: int, fs: seq<FishInstance>, fish: Option<FishInstance>): seq<FishInstance> {
    if fish.None? || Full(capacity, |fs|) then fs else fs + [fish.value]
  }

  /** The store after offering each fish of `offers` in order. */
  function StoreAll(capacity: int, fs: seq<FishInstance>, offers: seq<Option<FishInstance>>): seq<FishInstance> {
    if offers == [] then fs
    else Stored(capacity, StoreAll(capacity, fs, offers[..|offers| - 1]), offers[|offers| - 1])
  }

  /**
   * A limited cooler never holds more than its capacity, and never loses a
   * stored fish: whatever is offered, the earlier contents stay a prefix.
   */
  lemma {:induction false} StoreAllWithinCapacity(capacity: int, fs: seq<FishInstance>, offers: seq<Option<FishInstance>>)
    requires capacity > 0 ==> |fs| <= capacity
    ensures capacity > 0 ==> |StoreAll(capacity, fs, offers)| <= capacity
    ensures fs <= StoreAll(capacity, fs, offers)
    ensures |StoreAll(capacity, fs, offers)| <= |fs| + |offers|
  {
    if offers != [] {
      StoreAllWithinCapacity(capacity, fs, offers[..|offers| - 1]);
    }
  }

  class CoolerBox {
    const capacity: int
    var stored: seq<FishInstance>

    constructor (capacity: int)
      ensures this.capacity == capacity && stored == []
    {
      this.capacity := capacity;
      stored := [];
    }

    /** `FishCount`: the number of stored fish. */
    function FishCount(): (n: nat)
      reads this
      ensures n == |stored|
    {
      |stored|
    }

    /**
     * `TryStoreFish`: a missing fish, or a limited cooler that is full, is
     * refused with the store unchanged; otherwise exactly that fish is
     * appended.
     */
    method TryStoreFish(fish: Option<FishInstance>) returns (ok: bool)
      modifies this
      ensures stored == Stored(capacity, old(stored), fish)
      ensures ok <==> fish.Some? && !Full(capacity, |old(stored)|)
      ensures ok ==> stored == old(stored) + [fish.value]
      ensures !ok ==> stored == old(stored)
    {
      if fish.None? {
        return false;
      }
      if capacity > 0 && |stored| >= capacity {
        return false;
      }
      stored := stored + [fish.value];
      return true;
    }

    /** `SellAllFish`: the sum of the stored values, and the store is emptied; an empty store gives 0. */
    method SellAllFish() returns (total: int)
      modifies this
      ensures total == SumValues(old(stored))
      ensures stored == []
    {
      if |stored| == 0 {
        return 0;
      }
      total := 0;
      var i := 0;
      while i < |stored|
        invariant 0 <= i <= |stored|
        invariant total == SumValues(stored[..i])
      {
        assert stored[..i + 1][..i] == stored[..i];
        total := total + stored[i].value;
        i := i + 1;
      }
      assert stored[..i] == stored;
      stored := [];
    }
  }
}
