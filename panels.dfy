/**
 * InventoryUIManager: the player and cooler panels' open flags. Near the
 * cooler either key toggles both panels together; elsewhere P and C toggle
 * their own panel and opening one closes the other. After every key frame
 * the player's movement mode is set to HorizontalOnly exactly when a panel
 * is open. A missing panel counts as closed and is never opened.
 */
module Panels {
  import opened PlayerModel

  /** The open flags of the two panels. */
  datatype Shown = Shown(player: bool, cooler: bool)

  /** The movement mode for the open flags. */
  function Gate(v: Shown): (m: MovementUIMode)
    ensures m == HorizontalOnly <==> v.player || v.cooler
  {
    if v.player || v.cooler then HorizontalOnly else Closed
  }

  /** `SetActiveSafe` on one flag: a missing panel stays closed. */
  function SetSafe(present: bool, was: bool, active: bool): bool {
    if present then active else was
  }

  /** `ToggleBothPanelsTogether`: both open unless both were open, then both closed. */
  function ToggleBoth(v: Shown, hasP: bool, hasC: bool): Shown {
    var next := !(v.player && v.cooler);
    Shown(SetSafe(hasP, v.player, next), SetSafe(hasC, v.cooler, next))
  }

  /** `TogglePanel(target, otherToClose)` for the player panel. */
  function TogglePlayer(v: Shown, hasP: bool, hasC: bool): Shown {
    if !hasP then v
    else
      var next := !v.player;
      Shown(next, if next then SetSafe(hasC, v.cooler, false) else v.cooler)
  }

  /** `TogglePanel(target, otherToClose)` for the cooler panel. */
  function ToggleCooler(v: Shown, hasP: bool, hasC: bool): Shown {
    if !hasC then v
    else
      var next := !v.cooler;
      Shown(if next then SetSafe(hasP, v.player, false) else v.player, next)
  }

  /** One `Update` frame's effect on the flags; P takes precedence when both keys are down away from the cooler. */
  function KeyStep(v: Shown, pDown: bool, cDown: bool, near: bool, hasP: bool, hasC: bool): Shown {
    if !(pDown || cDown) then v
    else if near then ToggleBoth(v, hasP, hasC)
    else if pDown then TogglePlayer(v, hasP, hasC)
    else ToggleCooler(v, hasP, hasC)
  }

  /** Near the cooler a key closes both panels if both were open, and otherwise opens every present panel. */
  lemma JointToggle(v: Shown, pDown: bool, cDown: bool)
    requires pDown || cDown
    ensures var w := KeyStep(v, pDown, cDown, true, true, true);
            (v.player && v.cooler ==> !w.player && !w.cooler) &&
            (!(v.player && v.cooler) ==> w.player && w.cooler)
  {
  }

  /** A missing panel is closed. */
  predicate AbsentClosed(v: Shown, hasP: bool, hasC: bool) {
    (!hasP ==> !v.player) && (!hasC ==> !v.cooler)
  }

  /** A frame never opens a missing panel. */
  lemma KeyStepKeepsAbsentClosed(v: Shown, pDown: bool, cDown: bool, near: bool, hasP: bool, hasC: bool)
    requires AbsentClosed(v, hasP, hasC)
    ensures AbsentClosed(KeyStep(v, pDown, cDown, near, hasP, hasC), hasP, hasC)
  {
  }

  /** Away from the cooler, opening one panel closes the other. */
  lemma IndividualToggleExcludes(v: Shown, pDown: bool, cDown: bool, hasP: bool, hasC: bool)
    requires AbsentClosed(v, hasP, hasC)
    requires !(v.player && v.cooler)
    ensures !(KeyStep(v, pDown, cDown, false, hasP, hasC).player && KeyStep(v, pDown, cDown, false, hasP, hasC).cooler)
  {
  }

  /**
   * Away from the cooler an individual toggle flips a present target panel;
   * opening it closes the other panel, closing it leaves the other alone.
   */
  lemma IndividualToggleFlips(v: Shown, hasP: bool, hasC: bool)
    requires AbsentClosed(v, hasP, hasC)
    ensures var w := TogglePlayer(v, hasP, hasC);
            (hasP ==> w.player == !v.player && (w.player ==> !w.cooler) && (!w.player ==> w.cooler == v.cooler)) &&
            (!hasP ==> w == v)
    ensures var w := ToggleCooler(v, hasP, hasC);
            (hasC ==> w.cooler == !v.cooler && (w.cooler ==> !w.player) && (!w.cooler ==> w.player == v.player)) &&
            (!hasC ==> w == v)
  {
  }

  /** Away from the cooler, with both keys down in one frame, P wins. */
  lemma PlayerKeyTakesPrecedence(v: Shown, hasP: bool, hasC: bool)
    ensures KeyStep(v, true, true, false, hasP, hasC) == TogglePlayer(v, hasP, hasC)
    ensures KeyStep(v, false, true, false, hasP, hasC) == ToggleCooler(v, hasP, hasC)
  {
  }

  /** Key input of one frame. */
  datatype Keys = Keys(pDown: bool, cDown: bool, near: bool)

  function Run(v: Shown, ks: seq<Keys>, hasP: bool, hasC: bool): Shown {
    if ks == [] then v
    else
      var k := ks[|ks| - 1];
      KeyStep(Run(v, ks[..|ks| - 1], hasP, hasC), k.pDown, k.cDown, k.near, hasP, hasC)
  }

  /** Away from the cooler, starting with at most one panel open, both are never open together. */
  lemma {:induction false} AwayNeverBothOpen(v: Shown, ks: seq<Keys>, hasP: bool, hasC: bool)
    requires AbsentClosed(v, hasP, hasC)
    requires !(v.player && v.cooler)
    requires forall i :: 0 <= i < |ks| ==> !ks[i].near
    ensures AbsentClosed(Run(v, ks, hasP, hasC), hasP, hasC)
    ensures !(Run(v, ks, hasP, hasC).player && Run(v, ks, hasP, hasC).cooler)
  {
    if ks != [] {
      AwayNeverBothOpen(v, ks[..|ks| - 1], hasP, hasC);
      var k := ks[|ks| - 1];
      KeyStepKeepsAbsentClosed(Run(v, ks[..|ks| - 1], hasP, hasC), k.pDown, k.cDown, k.near, hasP, hasC);
      IndividualToggleExcludes(Run(v, ks[..|ks| - 1], hasP, hasC), k.pDown, k.cDown, hasP, hasC);
    }
  }

  class InventoryUIManager {
    const hasPlayerPanel: bool
    const hasCoolerPanel: bool
    const player: Player?
    var playerOpen: bool
    var coolerOpen: bool

    function Flags(): Shown
      reads this
    {
      Shown(playerOpen, coolerOpen)
    }

    ghost predicate Valid()
      reads this, player
    {
      (!hasPlayerPanel ==> !playerOpen) && (!hasCoolerPanel ==> !coolerOpen) &&
      (player != null ==> player.uiMode == Gate(Flags()))
    }

    /** The scene's panels, possibly active before `Awake`. */
    constructor (hasPlayerPanel: bool, hasCoolerPanel: bool, player: Player?, playerActive: bool, coolerActive: bool)
      ensures this.hasPlayerPanel == hasPlayerPanel && this.hasCoolerPanel == hasCoolerPanel && this.player == player
      ensures playerOpen == (hasPlayerPanel && playerActive) && coolerOpen == (hasCoolerPanel && coolerActive)
    {
      this.hasPlayerPanel := hasPlayerPanel;
      this.hasCoolerPanel := hasCoolerPanel;
      this.player := player;
      playerOpen := hasPlayerPanel && playerActive;
      coolerOpen := hasCoolerPanel && coolerActive;
    }

    /** `ApplyPlayerGate`: the player's mode follows the open flags. */
    method ApplyPlayerGate()
      requires (!hasPlayerPanel ==> !playerOpen) && (!hasCoolerPanel ==> !coolerOpen)
      modifies player
      ensures Valid()
      ensures player != null ==> player.movementEnabled == old(player.movementEnabled)
    {
      if player == null {
        return;
      }
      player.SetUIMovementMode(Gate(Flags()));
    }

    /** `Awake`: both panels closed and the gate Closed. */
    method Awake()
      requires (!hasPlayerPanel ==> !playerOpen) && (!hasCoolerPanel ==> !coolerOpen)
      modifies this, player
      ensures Valid()
      ensures !playerOpen && !coolerOpen
      ensures player != null ==> player.uiMode == Closed && player.movementEnabled == old(player.movementEnabled)
    {
      playerOpen := SetSafe(hasPlayerPanel, playerOpen, false);
      coolerOpen := SetSafe(hasCoolerPanel, coolerOpen, false);
      ApplyPlayerGate();
    }

    /**
     * `Update`: on a frame with P or C down, the flags follow `KeyStep` and
     * the gate is re-applied; on any other frame nothing changes.
     */
    method Update(pDown: bool, cDown: bool, nearCooler: bool)
      requires Valid()
      modifies this, player
      ensures Valid()
      ensures Flags() == KeyStep(old(Flags()), pDown, cDown, nearCooler, hasPlayerPanel, hasCoolerPanel)
      ensures player != null ==> player.movementEnabled == old(player.movementEnabled)
    {
      if pDown || cDown {
        if nearCooler {
          var v := ToggleBoth(Flags(), hasPlayerPanel, hasCoolerPanel);
          playerOpen, coolerOpen := v.player, v.cooler;
        } else if pDown {
          var v := TogglePlayer(Flags(), hasPlayerPanel, hasCoolerPanel);
          playerOpen, coolerOpen := v.player, v.cooler;
        } else if cDown {
          var v := ToggleCooler(Flags(), hasPlayerPanel, hasCoolerPanel);
          playerOpen, coolerOpen := v.player, v.cooler;
        }
        ApplyPlayerGate();
      }
    }
  }
}
