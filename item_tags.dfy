/**
 * ItemTags: the [Flags] enum attached to item definitions and used as the
 * acceptance mask of inventory slots. The enum's underlying type is a 32-bit
 * int, so a tag set is a `bv32`; `All` is `~0`, every bit set.
 */
module ItemTags {
  type Tags = bv32

  const None: Tags := 0
  const Fish: Tags := 1     // 1 << 0
  const Lure: Tags := 2     // 1 << 1
  const Bait: Tags := 4     // 1 << 2
  const Reel: Tags := 8     // 1 << 3
  const Misc: Tags := 16    // 1 << 4
  const All: Tags := !0

  /** The acceptance test `(mask & tags) != 0` that slots, shops and the fishing rod apply. */
  predicate Admits(mask: Tags, tags: Tags) {
    (mask & tags) != 0
  }

  /** A tag set with exactly one bit set. */
  predicate SingleBit(t: Tags) {
    t != 0 && (t & (t - 1)) == 0
  }

  /** The five named flags are single bits, and no two of them share a bit. */
  lemma NamedFlagsAreDistinctBits()
    ensures SingleBit(Fish) && SingleBit(Lure) && SingleBit(Bait) && SingleBit(Reel) && SingleBit(Misc)
    ensures (Fish & Lure) == 0 && (Fish & Bait) == 0 && (Fish & Reel) == 0 && (Fish & Misc) == 0
    ensures (Lure & Bait) == 0 && (Lure & Reel) == 0 && (Lure & Misc) == 0
    ensures (Bait & Reel) == 0 && (Bait & Misc) == 0
    ensures (Reel & Misc) == 0
  {
  }

  /** `None` is zero, so a test against it fails whichever side it is on. */
  lemma NoneAdmitsNothing(t: Tags)
    ensures !Admits(None, t) && !Admits(t, None)
  {
  }

  /** `All` is `~0`: masking with it keeps every tag, so it admits every non-empty tag set. */
  lemma AllKeepsEveryTag(t: Tags)
    ensures (All & t) == t
    ensures Admits(All, t) <==> t != None
  {
  }

  /** The equipment slot's mask `Bait | Lure` admits bait and lures, and rejects fish and reels. */
  lemma BaitOrLureMask()
    ensures Admits(Bait | Lure, Bait) && Admits(Bait | Lure, Lure)
    ensures !Admits(Bait | Lure, Fish) && !Admits(Bait | Lure, Reel) && !Admits(Bait | Lure, Misc)
  {
  }
}
