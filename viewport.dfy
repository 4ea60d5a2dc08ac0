/** The viewport transform of AI-Safety/mindmap.js: the world canvas is a
    fixed 3000 x 2000 surface shown through `translate(tx, ty) scale(scale)`.
    This module holds the targets `smoothZoomTo` animates to, the snap that
    follows a descent, and the pan arithmetic. */
module Viewport {
  import opened Wrappers
  import opened Layout

  const WORLD_WIDTH: real := 3000.0
  const WORLD_HEIGHT: real := 2000.0
  const WORLD_CENTER_X: real := WORLD_WIDTH / 2.0
  const WORLD_CENTER_Y: real := WORLD_HEIGHT / 2.0
  /** Width reserved on the right for the info panel. */
  const INFO_PANEL_WIDTH: real := 350.0
  const VERTICAL_OFFSET: real := 0.0

  /** The canonical layout origin every level is drawn around. */
  const WORLD_CENTER: Point := Point(WORLD_CENTER_X, WORLD_CENTER_Y)

  /** `window.innerWidth` / `window.innerHeight` at the time of the call. */
  datatype Screen = Screen(innerWidth: real, innerHeight: real)

  datatype Transform = Transform(tx: real, ty: real, scale: real)

  /** Where world point `p` appears on screen under `t` (translation, then
      scaling about the canvas's top-left corner). */
  function OnScreen(t: Transform, p: Point): Point
  {
    Point(t.tx + t.scale * p.x, t.ty + t.scale * p.y)
  }

  /** The centre of the part of the screen the info panel leaves free. */
  function FocusPoint(screen: Screen): Point
  {
    Point((screen.innerWidth - INFO_PANEL_WIDTH) / 2.0, screen.innerHeight / 2.0 + VERTICAL_OFFSET)
  }

  /** The transform `smoothZoomTo(wx, wy, targetScale, recenter)` sets: it
      has the requested scale and puts the world centre (when `recenter`) or
      the point (wx, wy) (otherwise) on the free screen centre. */
  function ZoomTarget(wx: real, wy: real, targetScale: real, recenter: bool, screen: Screen): (t: Transform)
    ensures t.scale == targetScale
    ensures OnScreen(t, if recenter then WORLD_CENTER else Point(wx, wy)) == FocusPoint(screen)
  {
    var focus := FocusPoint(screen);
    if recenter then
      Transform(focus.x - WORLD_CENTER_X * targetScale, focus.y - WORLD_CENTER_Y * targetScale, targetScale)
    else
      Transform(focus.x - wx * targetScale, focus.y - wy * targetScale, targetScale)
  }

  /** The target is the only transform of that scale that puts the chosen
      point on the free screen centre. */
  lemma ZoomTargetUnique(wx: real, wy: real, targetScale: real, recenter: bool, screen: Screen, t: Transform)
    requires t.scale == targetScale
    requires OnScreen(t, if recenter then WORLD_CENTER else Point(wx, wy)) == FocusPoint(screen)
    ensures t == ZoomTarget(wx, wy, targetScale, recenter, screen)
  {
  }

  /** `childX || worldCenter.x`: the clicked child's coordinate, or the world
      centre when none was passed or when it is 0 (JavaScript's `||` treats 0
      as absent). */
  function ZoomOrigin(coord: Option<real>, fallback: real): real
  {
    if coord.Some? && coord.value != 0.0 then coord.value else fallback
  }

  /** A laid-out slot around the world centre at radius 300 is never at
      coordinate 0 (for any offset no longer than the radius in each
      coordinate), so clicking a laid-out child zooms onto the child's own
      position: the `||` fallback of `ZoomOrigin` never replaces it. */
  lemma SlotIsNeverZero(i: nat, n: nat, ring: Ring)
    requires -RADIUS <= ring(RADIUS, i, n).0 <= RADIUS && -RADIUS <= ring(RADIUS, i, n).1 <= RADIUS
    ensures Slot(WORLD_CENTER_X, WORLD_CENTER_Y, RADIUS, i, n, ring).x >= 1199.5
    ensures Slot(WORLD_CENTER_X, WORLD_CENTER_Y, RADIUS, i, n, ring).y >= 699.5
    ensures var s := Slot(WORLD_CENTER_X, WORLD_CENTER_Y, RADIUS, i, n, ring);
      ZoomOrigin(Some(s.x), WORLD_CENTER_X) == s.x && ZoomOrigin(Some(s.y), WORLD_CENTER_Y) == s.y
  {
  }

  /** The pan handlers: `tx = panStart.tx + dx`, `ty = panStart.ty + dy`
      with the scale untouched. */
  function Panned(start: Transform, dx: real, dy: real): (t: Transform)
    ensures t.scale == start.scale
    ensures forall p :: OnScreen(t, p) == Point(OnScreen(start, p).x + dx, OnScreen(start, p).y + dy)
  {
    Transform(start.tx + dx, start.ty + dy, start.scale)
  }

  /** Dragging keeps the grabbed point under the pointer: the world point
      that was under the pointer at the press, at (px, py), is under the
      pointer at (x, y) after the pan by the pointer's displacement. */
  lemma DragFollowsPointer(start: Transform, px: real, py: real, x: real, y: real, q: Point)
    requires OnScreen(start, q) == Point(px, py)
    ensures OnScreen(Panned(start, x - px, y - py), q) == Point(x, y)
  {
  }
}
