/**
 * Rectangles and the "adapt to phone" placement shared by all three
 * servers: on a landscape work area the window takes the right-hand third
 * at full height; on a portrait work area it becomes a window a third of
 * the height wide and as tall as the area is wide, in the bottom-right
 * corner.
 */
module Geometry {
  import opened Common

  /** A rectangle in virtual-screen coordinates: (left, top, right, bottom). */
  datatype Rect = Rect(left: int, top: int, right: int, bottom: int)
  {
    predicate NonEmpty() { right > left && bottom > top }
    function Width(): int { right - left }
    function Height(): int { bottom - top }
  }

  /** A monitor work area: origin and size. */
  datatype Area = Area(left: int, top: int, width: int, height: int)

  /** Where a window is moved to and the size it is given. */
  datatype Placement = Placement(x: int, y: int, width: int, height: int)

  /** Python's `//` rounds down; Go's `/` on ints rounds toward zero. */
  datatype Division = Floor | Truncate

  function Third(n: int, d: Division): (q: int)
    ensures n >= 0 ==> 3 * q <= n < 3 * q + 3
    ensures d == Floor ==> 3 * q <= n < 3 * q + 3
    ensures d == Truncate && n < 0 ==> n <= 3 * q < n + 3
  {
    if d == Floor || n >= 0 then n / 3 else -((-n) / 3)
  }

  predicate Landscape(a: Area) { a.width > a.height }

  /** The adapt_phone placement for a work area. */
  function PhoneLayout(a: Area, d: Division): Placement {
    if Landscape(a) then
      var w := Third(a.width, d);
      Placement(a.left + a.width - w, a.top, w, a.height)
    else
      var w := Third(a.height, d);
      Placement(a.left + a.width - w, a.top + a.height - a.width, w, a.width)
  }

  /**
   * The placement hugs the right edge of the work area.  In landscape it
   * spans the full height with a third of the width; in portrait it is as
   * tall as the area is wide, a third of the area's height wide, and sits
   * on the bottom edge.
   */
  lemma PhoneLayoutShape(a: Area, d: Division)
    requires a.width >= 0 && a.height >= 0
    ensures var p := PhoneLayout(a, d);
      && p.x + p.width == a.left + a.width
      && (Landscape(a) ==> p.y == a.top && p.height == a.height && 3 * p.width <= a.width < 3 * p.width + 3)
      && (!Landscape(a) ==> p.y + p.height == a.top + a.height && p.height == a.width
                            && 3 * p.width <= a.height < 3 * p.width + 3)
  {
  }

  /**
   * The placement stays inside the work area, except on a portrait area
   * more than three times as tall as it is wide, where a third of the
   * height is wider than the area and the window overhangs its left edge.
   */
  lemma PhoneLayoutInside(a: Area, d: Division)
    requires a.width >= 0 && a.height >= 0
    ensures var p := PhoneLayout(a, d);
      (a.left <= p.x && p.x + p.width <= a.left + a.width
       && a.top <= p.y && p.y + p.height <= a.top + a.height)
      <==> (Landscape(a) || a.height / 3 <= a.width)
  {
  }

  /** For any real (non-negative) work area, Python's and Go's arithmetic place the window identically. */
  lemma DivisionsAgree(a: Area)
    requires a.width >= 0 && a.height >= 0
    ensures PhoneLayout(a, Floor) == PhoneLayout(a, Truncate)
  {
  }

  /** On a 1920x1040 landscape work area the window becomes 640x1040 at the right edge. */
  lemma PhoneLayoutExample()
    ensures PhoneLayout(Area(0, 0, 1920, 1040), Floor) == Placement(1280, 0, 640, 1040)
    ensures PhoneLayout(Area(0, 0, 1080, 1880), Truncate) == Placement(454, 800, 626, 1080)
  {
  }

  /** The Python servers' work area: the monitor's work rectangle, or the primary screen less a 40-pixel taskbar. */
  function PyWorkArea(work: Option<Rect>, screenW: int, screenH: int): (a: Area)
    ensures work.Some? ==> a.left == work.value.left && a.top == work.value.top
                           && a.left + a.width == work.value.right && a.top + a.height == work.value.bottom
    ensures work.None? ==> a == Area(0, 0, screenW, screenH - 40)
  {
    match work
    case Some(r) => Area(r.left, r.top, r.Width(), r.Height())
    case None => Area(0, 0, screenW, screenH - 40)
  }
}
