/**
 * The two player flags other components drive: the movement lock set by
 * the fishing controller, and the movement mode pushed by the inventory
 * panels. Player movement itself is not part of this model.
 */
module PlayerModel {

  datatype MovementUIMode = Closed | HorizontalOnly

  /** The edge tolerance the fishing controller passes to `IsAtRightEdge`. */
  const CastEdgeTolerance: real := 0.15

  /** `IsAtRightEdge(thr)`: the player stands within `thr` of the right edge. */
  predicate IsAtRightEdge(edgeGap: real, thr: real) {
    edgeGap <= thr && -thr <= edgeGap
  }

  /** `Mathf.Abs` on reals. */
  function Abs(x: real): real {
    if x < 0.0 then -x else x
  }

  /** The edge test is `|gap| <= thr`, and nothing is at the edge for a negative threshold. */
  lemma AtRightEdgeIsDistance(edgeGap: real, thr: real)
    ensures IsAtRightEdge(edgeGap, thr) <==> Abs(edgeGap) <= thr
    ensures thr < 0.0 ==> !IsAtRightEdge(edgeGap, thr)
  {
  }

  class Player {
    var movementEnabled: bool
    var uiMode: MovementUIMode

    constructor ()
      ensures movementEnabled && uiMode == Closed
    {
      movementEnabled := true;
      uiMode := Closed;
    }

    /** `SetMovementEnabled`: only the lock changes. */
    method SetMovementEnabled(enable: bool)
      modifies this
      ensures movementEnabled == enable && uiMode == old(uiMode)
    {
      movementEnabled := enable;
    }

    /** `SetUIMovementMode`: only the mode changes. */
    method SetUIMovementMode(mode: MovementUIMode)
      modifies this
      ensures uiMode == mode && movementEnabled == old(movementEnabled)
    {
      uiMode := mode;
    }
  }
}
