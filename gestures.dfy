/** The decisions the demo's gesture callbacks make, given a drag amount in
    pixels. Screen coordinates grow downward: a positive vertical drag
    amount moves the finger down, a negative one up. Floats are modelled as
    reals. */
module Gestures {

  /** Kotlin's `coerceIn(lo, hi)`, which throws unless `lo <= hi`. */
  function CoerceIn(x: real, lo: real, hi: real): (r: real)
    requires lo <= hi
    ensures lo <= r <= hi
    ensures r == x <==> lo <= x <= hi
  {
    if x < lo then lo else if x > hi then hi else x
  }

  /** `coerceIn` picks the point of `[lo, hi]` nearest to `x`. */
  lemma CoerceInIsNearest(x: real, lo: real, hi: real, y: real)
    requires lo <= y <= hi
    ensures Abs(CoerceIn(x, lo, hi) - x) <= Abs(y - x)
  {
  }

  /** Kotlin's `abs` on a float. */
  function Abs(x: real): (r: real)
    ensures r >= 0.0 && (r == x || r == -x)
  {
    if x < 0.0 then -x else x
  }

  /** A positive drag over a positive height is a positive fraction of it. */
  lemma FractionSign(dragAmount: real, height: real)
    requires height > 0.0
    ensures dragAmount > 0.0 ==> dragAmount / height > 0.0
    ensures dragAmount < 0.0 ==> dragAmount / height < 0.0
    ensures dragAmount >= height ==> dragAmount / height >= 1.0
    ensures dragAmount <= -height ==> dragAmount / height <= -1.0
  {
  }

  // ---------------------------------------------------------------------------
  // Shade expansion

  /** The shade's drag step as written: the drag, as a fraction of the
      screen height, is SUBTRACTED from the expansion before clamping. */
  function DraggedExpansionAsWritten(expansion: real, dragAmount: real, height: real): (r: real)
    requires height > 0.0
    ensures 0.0 <= r <= 1.0
  {
    CoerceIn(expansion - dragAmount / height, 0.0, 1.0)
  }

  /** As written, a downward drag never opens the shade: it closes it, and
      from fully closed it cannot be pulled down at all. */
  lemma DownwardDragClosesShadeAsWritten(expansion: real, dragAmount: real, height: real)
    requires 0.0 <= expansion <= 1.0 && height > 0.0 && dragAmount > 0.0
    ensures DraggedExpansionAsWritten(expansion, dragAmount, height) <= expansion
    ensures expansion > 0.0 ==> DraggedExpansionAsWritten(expansion, dragAmount, height) < expansion
    ensures expansion == 0.0 ==> DraggedExpansionAsWritten(expansion, dragAmount, height) == 0.0
  {
    FractionSign(dragAmount, height);
  }

  /** The shade's drag step as intended: a downward drag opens the shade by
      the dragged fraction of the screen height, clamped to [0, 1]. */
  function DraggedExpansion(expansion: real, dragAmount: real, height: real): (r: real)
    requires height > 0.0
    ensures 0.0 <= r <= 1.0
  {
    CoerceIn(expansion + dragAmount / height, 0.0, 1.0)
  }

  /** A downward drag never closes the shade, opens a partly open shade
      further, and a drag of a whole screen height opens it fully. */
  lemma DownwardDragOpensShade(expansion: real, dragAmount: real, height: real)
    requires 0.0 <= expansion <= 1.0 && height > 0.0 && dragAmount > 0.0
    ensures DraggedExpansion(expansion, dragAmount, height) >= expansion
    ensures expansion < 1.0 ==> DraggedExpansion(expansion, dragAmount, height) > expansion
    ensures dragAmount >= height ==> DraggedExpansion(expansion, dragAmount, height) == 1.0
  {
    FractionSign(dragAmount, height);
  }

  /** An upward drag never opens the shade, closes an open shade further,
      and a drag of a whole screen height closes it fully. */
  lemma UpwardDragClosesShade(expansion: real, dragAmount: real, height: real)
    requires 0.0 <= expansion <= 1.0 && height > 0.0 && dragAmount < 0.0
    ensures DraggedExpansion(expansion, dragAmount, height) <= expansion
    ensures expansion > 0.0 ==> DraggedExpansion(expansion, dragAmount, height) < expansion
    ensures dragAmount <= -height ==> DraggedExpansion(expansion, dragAmount, height) == 0.0
  {
    FractionSign(dragAmount, height);
  }

  /** Away from the bounds, dragging back by the same amount undoes a drag. */
  lemma DragBackUndoesDrag(expansion: real, dragAmount: real, height: real)
    requires height > 0.0
    requires 0.0 <= expansion + dragAmount / height <= 1.0
    requires 0.0 <= expansion <= 1.0
    ensures DraggedExpansion(DraggedExpansion(expansion, dragAmount, height), -dragAmount, height) == expansion
  {
  }

  /** The value the shade animates toward: closed while locked, the
      dragged expansion otherwise; within [0, 1] when the expansion is. */
  function ShadeTarget(isLocked: bool, expansion: real): (target: real)
    ensures isLocked ==> target == 0.0
    ensures !isLocked ==> target == expansion
    ensures 0.0 <= expansion <= 1.0 ==> 0.0 <= target <= 1.0
  {
    if isLocked then 0.0 else expansion
  }

  /** The shade panel is composed only while its expansion is positive: a
      closed shade composes nothing, one showing its content is composed. */
  function ShadePanelComposed(expansion: real): (composed: bool)
    ensures expansion <= 0.0 ==> !composed
    ensures expansion > 0.5 ==> composed
  {
    expansion > 0.0
  }

  /** The tiles and notifications inside the shade show only past half way:
      never without the panel, always when the shade is fully open. */
  function ShadeContentVisible(expansion: real): (visible: bool)
    ensures visible ==> ShadePanelComposed(expansion)
    ensures expansion <= 0.5 ==> !visible
    ensures expansion >= 1.0 ==> visible
  {
    expansion > 0.5
  }

  /** Once the animation settles, a locked shade shows neither its panel nor
      its content; an unlocked one settles at the dragged expansion. */
  lemma ShadeTargetProperties(isLocked: bool, expansion: real)
    ensures isLocked ==> !ShadePanelComposed(ShadeTarget(isLocked, expansion))
    ensures isLocked ==> !ShadeContentVisible(ShadeTarget(isLocked, expansion))
    ensures !isLocked ==> ShadeTarget(isLocked, expansion) == expansion
  {
  }

  // ---------------------------------------------------------------------------
  // Swipe thresholds

  /** On the lock screen, one drag event unlocks when it moves more than
      200 pixels up. */
  const UnlockDragAmount: real := -200.0

  function UnlocksKeyguard(dragAmount: real): (unlocks: bool)
    ensures unlocks ==> dragAmount < 0.0
    ensures unlocks <==> -dragAmount > 200.0
  {
    dragAmount < UnlockDragAmount
  }

  /** A notification card is dismissed on release when it was dragged more
      than 300 pixels sideways, in either direction. */
  const NotificationDismissDistance: real := 300.0

  function ReleaseDismissesNotification(offsetX: real): (dismiss: bool)
    ensures dismiss <==> offsetX < -NotificationDismissDistance || NotificationDismissDistance < offsetX
  {
    Abs(offsetX) > NotificationDismissDistance
  }

  /** A task card is dismissed by one drag event moving more than 150 pixels up. */
  const TaskDismissDragAmount: real := -150.0

  function SwipeDismissesTask(dragAmount: real): (dismiss: bool)
    ensures dismiss ==> dragAmount < 0.0
    ensures dismiss <==> -dragAmount > 150.0
  {
    dragAmount < TaskDismissDragAmount
  }
}
