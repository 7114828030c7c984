/** The connector box that getLineStyles computes from the measured
    rectangles of a step, of the step it links to, and of the container. */
module Geometry {
  import opened Types

  /** Thickness of a connector line across its direction of travel (`"8px"`). */
  const Thickness: real := 8.0

  /** Signed gap between the facing edges of the two steps.  It is not
      clamped: overlapping steps give a negative gap. */
  function LineDistance(o: Orientation, from: Rect, to: Rect): real
  {
    if o == Vertical then to.top - from.bottom else to.left - from.right
  }

  /** The box of the connector from `from` to `to`, positioned relative to
      the container `root`.  Along the direction of travel it starts on the
      source's facing edge and ends on the target's facing edge (both
      translated from viewport into container coordinates); across it, it
      is `Thickness` wide and offset by half the source's own extent. */
  function ConnectorBox(o: Orientation, from: Rect, to: Rect, root: Rect): (s: LineStyle)
    ensures o == Vertical ==>
      && s.width == Thickness
      && root.y + s.top == from.bottom
      && root.y + s.top + s.height == to.top
      && 2.0 * s.left == from.width
    ensures o == Horizontal ==>
      && s.height == Thickness
      && root.x + s.left == from.right
      && root.x + s.left + s.width == to.left
      && 2.0 * s.top == from.height
  {
    var distance := LineDistance(o, from, to);
    if o == Vertical then
      LineStyle(width := Thickness, height := distance,
                top := from.bottom - root.y, left := from.width / 2.0)
    else
      LineStyle(width := distance, height := Thickness,
                top := from.height / 2.0, left := from.right - root.x)
  }

  /** A rectangle mirrored in the main diagonal: x and y, top and left,
      bottom and right, width and height change places. */
  function Transposed(r: Rect): Rect
  {
    Rect(x := r.y, y := r.x, top := r.left, left := r.top,
         right := r.bottom, bottom := r.right, width := r.height, height := r.width)
  }

  /** A connector box mirrored in the main diagonal. */
  function TransposedStyle(s: LineStyle): LineStyle
  {
    LineStyle(width := s.height, height := s.width, top := s.left, left := s.top)
  }

  /** The horizontal connector is the vertical one with the axes swapped. */
  lemma HorizontalIsTransposedVertical(from: Rect, to: Rect, root: Rect)
    ensures ConnectorBox(Horizontal, from, to, root)
         == TransposedStyle(ConnectorBox(Vertical, Transposed(from), Transposed(to), Transposed(root)))
  {
  }

  /** Overlapping steps give a box of negative length; nothing clamps it. */
  lemma OverlapGivesNegativeLength(o: Orientation, from: Rect, to: Rect, root: Rect)
    requires if o == Vertical then to.top < from.bottom else to.left < from.right
    ensures var s := ConnectorBox(o, from, to, root);
      (if o == Vertical then s.height else s.width) < 0.0
  {
  }

  /** The across-travel offset depends only on the source's own size: it is
      relative to the step, not to the container. */
  lemma CrossOffsetIsStepRelative(o: Orientation, from: Rect, to: Rect, root: Rect,
                                  from': Rect, to': Rect, root': Rect)
    requires o == Vertical ==> from'.width == from.width
    requires o == Horizontal ==> from'.height == from.height
    ensures o == Vertical ==> ConnectorBox(o, from', to', root').left == ConnectorBox(o, from, to, root).left
    ensures o == Horizontal ==> ConnectorBox(o, from', to', root').top == ConnectorBox(o, from, to, root).top
  {
  }

  /** Vertical layout: a source whose bottom is at 100 and width 40, a target
      whose top is at 160, a container at y = 10. */
  lemma VerticalExample(from: Rect, to: Rect, root: Rect)
    requires from.bottom == 100.0 && from.width == 40.0 && to.top == 160.0 && root.y == 10.0
    ensures ConnectorBox(Vertical, from, to, root) == LineStyle(width := 8.0, height := 60.0, top := 90.0, left := 20.0)
  {
  }

  /** Horizontal layout: a source whose right edge is at 100 and height 40, a
      target whose left edge is at 160, a container at x = 10. */
  lemma HorizontalExample(from: Rect, to: Rect, root: Rect)
    requires from.right == 100.0 && from.height == 40.0 && to.left == 160.0 && root.x == 10.0
    ensures ConnectorBox(Horizontal, from, to, root) == LineStyle(width := 60.0, height := 8.0, top := 20.0, left := 90.0)
  {
  }
}
