/**
 * The calibration overlay: conversion between screen pixels and the
 * normalised device coordinates corner points are stored in (x and y in
 * [-1, 1], y pointing up), and the drag state that moves a corner point.
 */
module Calibration {
  import opened Types
  import opened ProjectStore

  /** The canvas's bounding rectangle on screen. */
  datatype Rect = Rect(left: real, top: real, width: real, height: real)

  /** `getCanvasCoordinates`: `rect` is None when the canvas or the overlay
      is not mounted, and the result is then the origin. The result is None
      where JavaScript would divide by a zero width or height. */
  function CanvasCoordinates(clientX: real, clientY: real, rect: Option<Rect>): (r: Option<Vec2>)
    ensures rect.None? ==> r == Some(Vec2(0.0, 0.0))
    ensures r.None? <==> rect.Some? && (rect.value.width == 0.0 || rect.value.height == 0.0)
  {
    match rect
    case None => Some(Vec2(0.0, 0.0))
    case Some(b) =>
      if b.width == 0.0 || b.height == 0.0 then None
      else Some(Vec2(((clientX - b.left) / b.width) * 2.0 - 1.0, -((clientY - b.top) / b.height) * 2.0 + 1.0))
  }

  /** `convertToScreenCoords`: from device coordinates to pixels inside the rectangle. */
  function ScreenCoords(p: Vec2, rect: Rect): Vec2 {
    Vec2(((p.x + 1.0) / 2.0) * rect.width, ((1.0 - p.y) / 2.0) * rect.height)
  }

  /** The left and right edges map to -1 and 1; the top edge to 1 and the
      bottom edge to -1 (y is flipped). */
  lemma CanvasCoordinatesEdges(b: Rect)
    requires b.width != 0.0 && b.height != 0.0
    ensures CanvasCoordinates(b.left, b.top, Some(b)) == Some(Vec2(-1.0, 1.0))
    ensures CanvasCoordinates(b.left + b.width, b.top + b.height, Some(b)) == Some(Vec2(1.0, -1.0))
  {
    assert (b.left + b.width - b.left) / b.width == 1.0;
    assert (b.top + b.height - b.top) / b.height == 1.0;
  }

  /** The corners of the device square land on the rectangle's corners. */
  lemma ScreenCoordsCorners(b: Rect)
    ensures ScreenCoords(Vec2(-1.0, 1.0), b) == Vec2(0.0, 0.0)
    ensures ScreenCoords(Vec2(1.0, -1.0), b) == Vec2(b.width, b.height)
  {
  }

  lemma ScaleBack(d: real, w: real)
    requires w != 0.0
    ensures (((d / w) * 2.0 - 1.0 + 1.0) / 2.0) * w == d
    ensures ((1.0 - (-(d / w) * 2.0 + 1.0)) / 2.0) * w == d
  {
    var q := d / w;
    assert q * w == d;
    assert (q * 2.0 - 1.0 + 1.0) / 2.0 == q;
    assert (1.0 - (-q * 2.0 + 1.0)) / 2.0 == q;
  }

  lemma MulCancel(m: real, c: real, w: real)
    requires w != 0.0 && m * w == c * w
    ensures m == c
  {
    assert (m - c) * w == 0.0;
  }

  /** Pixels to device coordinates and back give the offset inside the
      rectangle. */
  lemma ScreenOfCanvas(clientX: real, clientY: real, b: Rect)
    requires b.width != 0.0 && b.height != 0.0
    ensures ScreenCoords(CanvasCoordinates(clientX, clientY, Some(b)).value, b) == Vec2(clientX - b.left, clientY - b.top)
  {
    ScaleBack(clientX - b.left, b.width);
    ScaleBack(clientY - b.top, b.height);
  }

  /** Device coordinates to pixels and back give the same point. */
  lemma CanvasOfScreen(p: Vec2, b: Rect)
    requires b.width != 0.0 && b.height != 0.0
    ensures var q := ScreenCoords(p, b);
            CanvasCoordinates(b.left + q.x, b.top + q.y, Some(b)) == Some(p)
  {
    var q := ScreenCoords(p, b);
    assert b.left + q.x - b.left == q.x && b.top + q.y - b.top == q.y;
    var cx, cy := (p.x + 1.0) / 2.0, (1.0 - p.y) / 2.0;
    var mx, my := q.x / b.width, q.y / b.height;
    assert mx * b.width == cx * b.width;
    assert my * b.height == cy * b.height;
    MulCancel(mx, cx, b.width);
    MulCancel(my, cy, b.height);
  }

  /** The corner point being dragged. */
  datatype DragTarget = DragTarget(geometryId: string, pointIndex: int)

  /** `draggingPoint` and its mouse handlers. */
  class PointDrag {
    var dragging: Option<DragTarget>

    constructor()
      ensures dragging.None?
    {
      dragging := None;
    }

    /** `handleMouseDown(geometryId, pointIndex)` */
    method MouseDown(geometryId: string, pointIndex: int)
      modifies this
      ensures dragging == Some(DragTarget(geometryId, pointIndex))
    {
      dragging := Some(DragTarget(geometryId, pointIndex));
    }

    /** `handleMouseMove`: while a drag is active, moves the dragged point to
        the pointer; without a drag (or where the coordinates are not finite)
        the store is left alone. */
    method MouseMove(store: Store, clientX: real, clientY: real, rect: Option<Rect>, now: string)
      modifies store
      ensures var c := CanvasCoordinates(clientX, clientY, rect);
              store.State() == if dragging.Some? && c.Some?
                               then UpdateGeometryPointStep(old(store.State()), dragging.value.geometryId,
                                                            dragging.value.pointIndex, c.value, now)
                               else old(store.State())
    {
      if dragging.Some? {
        var coords := CanvasCoordinates(clientX, clientY, rect);
        if coords.Some? {
          store.UpdateGeometryPoint(dragging.value.geometryId, dragging.value.pointIndex, coords.value, now);
        }
      }
    }

    /** `handleMouseUp` */
    method MouseUp()
      modifies this
      ensures dragging.None?
    {
      dragging := None;
    }
  }
}
