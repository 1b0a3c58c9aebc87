/** The canvas view's own state: a zoom level in percent, moved in steps of
    25 between 50 and 200, and a focus mode that hides the toolbar. */
module CanvasView {
  const DefaultZoom := 100
  const MinZoom := 50
  const MaxZoom := 200
  const Step := 25

  /** A zoom level the controls can reach from the default. */
  predicate Reachable(z: int) {
    MinZoom <= z <= MaxZoom && z % Step == 0
  }

  /** `Math.min(z + 25, 200)`. */
  function ZoomedIn(z: int): (r: int)
    ensures z < MaxZoom - Step ==> r == z + Step
    ensures z >= MaxZoom - Step ==> r == MaxZoom
    ensures Reachable(z) ==> Reachable(r)
  {
    if z + Step < MaxZoom then z + Step else MaxZoom
  }

  /** `Math.max(z - 25, 50)`. */
  function ZoomedOut(z: int): (r: int)
    ensures z > MinZoom + Step ==> r == z - Step
    ensures z <= MinZoom + Step ==> r == MinZoom
    ensures Reachable(z) ==> Reachable(r)
  {
    if z - Step > MinZoom then z - Step else MinZoom
  }

  /** Zooming in and then out restores every reachable level up to 175, and
      zooming out and then in restores every one from 75. */
  lemma ZoomInOutRestores(z: int)
    requires Reachable(z)
    ensures z <= MaxZoom - Step ==> ZoomedOut(ZoomedIn(z)) == z
    ensures z >= MinZoom + Step ==> ZoomedIn(ZoomedOut(z)) == z
  {
  }

  /** Zooming in `n` times from `z`. */
  function ZoomInTimes(z: int, n: nat): int {
    if n == 0 then z else ZoomedIn(ZoomInTimes(z, n - 1))
  }

  /** From any reachable level, `n` steps in stay reachable and give
      `z + 25n`, capped at the maximum. */
  lemma {:induction false} ZoomInSaturates(z: int, n: nat)
    requires Reachable(z)
    ensures Reachable(ZoomInTimes(z, n))
    ensures ZoomInTimes(z, n) == if z + n * Step < MaxZoom then z + n * Step else MaxZoom
  {
    if n > 0 {
      ZoomInSaturates(z, n - 1);
    }
  }

  class CanvasView {
    var zoom: int
    var focusMode: bool

    ghost predicate Valid()
      reads this
    {
      Reachable(zoom)
    }

    /** `CanvasToolbar visible={!focusMode}`. */
    predicate ToolbarVisible()
      reads this
    {
      !focusMode
    }

    constructor ()
      ensures Valid() && zoom == DefaultZoom && !focusMode && ToolbarVisible()
    {
      zoom := DefaultZoom;
      focusMode := false;
    }

    method HandleZoomIn()
      requires Valid()
      modifies this
      ensures Valid() && zoom == ZoomedIn(old(zoom)) && focusMode == old(focusMode)
      ensures old(zoom) == MaxZoom ==> zoom == MaxZoom
    {
      zoom := if zoom + Step < MaxZoom then zoom + Step else MaxZoom;
    }

    method HandleZoomOut()
      requires Valid()
      modifies this
      ensures Valid() && zoom == ZoomedOut(old(zoom)) && focusMode == old(focusMode)
      ensures old(zoom) == MinZoom ==> zoom == MinZoom
    {
      zoom := if zoom - Step > MinZoom then zoom - Step else MinZoom;
    }

    method HandleZoomReset()
      modifies this
      ensures Valid() && zoom == DefaultZoom && focusMode == old(focusMode)
    {
      zoom := DefaultZoom;
    }

    /** The focus-mode toggle: flips the mode, so the toolbar shows exactly
        when it did not before. */
    method ToggleFocus()
      requires Valid()
      modifies this
      ensures Valid() && focusMode == !old(focusMode) && zoom == old(zoom)
      ensures ToolbarVisible() <==> old(focusMode)
    {
      focusMode := !focusMode;
    }
  }
}
