/**
 * The geometry half of SimpleUIBorder.UpdateBorderWidth: from the four edge
 * widths, the alignment and the corner style, the offsets of the border's
 * outer rectangle and the size and offsets of each edge's rectangle.
 * Everything here is a pure case analysis over the enumerations; widths are
 * passed through unclamped, so a negative width yields an inverted edge.
 */
module BorderGeometry {
  import opened BorderTypes

  /** The offsets assigned to the border's own rectangle. */
  datatype Offsets = Offsets(offsetMin: Vec2, offsetMax: Vec2)

  /** The values assigned to one edge's rectangle. */
  datatype EdgeRect = EdgeRect(sizeDelta: Vec2, offsetMin: Vec2, offsetMax: Vec2)

  /** How far each end of an edge is pulled in from the corner (`top`, `bottom`, `left`, `right`). */
  datatype Joints = Joints(top: real, bottom: real, left: real, right: real)

  /** The settings the geometry reads besides the widths. */
  datatype Layout = Layout(alignment: Alignment, cornerStyle: CornerStyle,
                           cornerExtendDistance: real, cornerInsetDistance: real)

  /** Offsets of the border's rectangle relative to the host element, by alignment. */
  function OuterOffsets(alignment: Alignment, w: seq<real>): (r: Offsets)
    requires |w| == 4
  {
    match alignment
    case Outside =>
      Offsets(Vec2(-w[Left.Index()], -w[Bottom.Index()]), Vec2(w[Right.Index()], w[Top.Index()]))
    case Inside =>
      Offsets(Zero, Zero)
    case Centre =>
      Offsets(Vec2(0.5 * -w[Left.Index()], 0.5 * -w[Bottom.Index()]),
              Vec2(0.5 * w[Right.Index()], 0.5 * w[Top.Index()]))
  }

  /** The corner joint offsets of edge `e`; only the ones along the edge's own length can be non-zero. */
  function JointOffsets(e: Edge, lay: Layout, w: seq<real>): (j: Joints)
    requires |w| == 4
    ensures e.IsVertical() ==> j.left == 0.0 && j.right == 0.0
    ensures !e.IsVertical() ==> j.top == 0.0 && j.bottom == 0.0
  {
    if e.IsVertical() then
      match lay.cornerStyle
      case Overlap => Joints(0.0, 0.0, 0.0, 0.0)
      case NoOverlap => Joints(w[Top.Index()], w[Bottom.Index()], 0.0, 0.0)
      case Extended => Joints(-lay.cornerExtendDistance, -lay.cornerExtendDistance, 0.0, 0.0)
      case Inset => Joints(lay.cornerInsetDistance, lay.cornerInsetDistance, 0.0, 0.0)
    else
      match lay.cornerStyle
      case Overlap => Joints(0.0, 0.0, 0.0, 0.0)
      case NoOverlap => Joints(0.0, 0.0, 0.0, 0.0)
      case Extended => Joints(0.0, 0.0, -lay.cornerExtendDistance, -lay.cornerExtendDistance)
      case Inset => Joints(0.0, 0.0, lay.cornerInsetDistance, lay.cornerInsetDistance)
  }

  /**
   * The rectangle assigned to edge `e`. Its size always equals the span between
   * its offsets, its thickness is the edge's own width (x for Left/Right, y for
   * Top/Bottom), and it sits flush against its side of the border rectangle:
   * Left spans x in [0, w], Right [-w, 0], Top y in [-w, 0], Bottom [0, w].
   * Along its length it is bounded by the joint offsets.
   */
  function EdgeGeometry(e: Edge, lay: Layout, w: seq<real>): (r: EdgeRect)
    requires |w| == 4
    ensures r.sizeDelta == r.offsetMax.Minus(r.offsetMin)
    ensures e.IsVertical() ==> r.offsetMax.x - r.offsetMin.x == w[e.Index()]
    ensures !e.IsVertical() ==> r.offsetMax.y - r.offsetMin.y == w[e.Index()]
    ensures e == Left ==> r.offsetMin.x == 0.0 && r.offsetMax.x == w[Left.Index()]
    ensures e == Right ==> r.offsetMin.x == -w[Right.Index()] && r.offsetMax.x == 0.0
    ensures e == Top ==> r.offsetMin.y == -w[Top.Index()] && r.offsetMax.y == 0.0
    ensures e == Bottom ==> r.offsetMin.y == 0.0 && r.offsetMax.y == w[Bottom.Index()]
    ensures e.IsVertical() ==>
      r.offsetMin.y == JointOffsets(e, lay, w).bottom && r.offsetMax.y == -JointOffsets(e, lay, w).top
    ensures !e.IsVertical() ==>
      r.offsetMin.x == JointOffsets(e, lay, w).left && r.offsetMax.x == -JointOffsets(e, lay, w).right
  {
    var j := JointOffsets(e, lay, w);
    var width := w[e.Index()];
    var pos := 0.0;
    match e
    case Left =>
      EdgeRect(Vec2(width, -j.top + -j.bottom), Vec2(pos, j.bottom), Vec2(pos + width, -j.top))
    case Top =>
      EdgeRect(Vec2(-j.left + -j.right, width), Vec2(j.left, pos - width), Vec2(-j.right, pos))
    case Right =>
      EdgeRect(Vec2(width, -j.top + -j.bottom), Vec2(pos - width, j.bottom), Vec2(pos, -j.top))
    case Bottom =>
      EdgeRect(Vec2(-j.left + -j.right, width), Vec2(j.left, pos), Vec2(-j.right, pos + width))
  }

  /** Outside alignment with four 4-pixel edges grows the rectangle by 4 on every side. */
  lemma OutsideExample()
    ensures OuterOffsets(Outside, [4.0, 4.0, 4.0, 4.0]) == Offsets(Vec2(-4.0, -4.0), Vec2(4.0, 4.0))
  {
  }

  /** Outside grows the rectangle by Left/Bottom on the min side and Right/Top on the max side;
      Inside leaves it alone; Centre grows it by exactly half of Outside. */
  lemma AlignmentOffsets(w: seq<real>)
    requires |w| == 4
    ensures OuterOffsets(Outside, w).offsetMin == Vec2(-w[0], -w[3])
    ensures OuterOffsets(Outside, w).offsetMax == Vec2(w[2], w[1])
    ensures OuterOffsets(Inside, w) == Offsets(Zero, Zero)
    ensures OuterOffsets(Centre, w).offsetMin == OuterOffsets(Outside, w).offsetMin.Scale(0.5)
    ensures OuterOffsets(Centre, w).offsetMax == OuterOffsets(Outside, w).offsetMax.Scale(0.5)
  {
  }

  /** Overlap: every edge runs the full length, no joint offset anywhere. */
  lemma OverlapJoints(e: Edge, lay: Layout, w: seq<real>)
    requires |w| == 4 && lay.cornerStyle == Overlap
    ensures JointOffsets(e, lay, w) == Joints(0.0, 0.0, 0.0, 0.0)
    ensures e.IsVertical() ==> EdgeGeometry(e, lay, w).offsetMin.y == 0.0 && EdgeGeometry(e, lay, w).offsetMax.y == 0.0
    ensures !e.IsVertical() ==> EdgeGeometry(e, lay, w).offsetMin.x == 0.0 && EdgeGeometry(e, lay, w).offsetMax.x == 0.0
  {
  }

  /** NoOverlap: Left and Right are shortened by the Top and Bottom widths; Top and Bottom keep full length. */
  lemma NoOverlapJoints(e: Edge, lay: Layout, w: seq<real>)
    requires |w| == 4 && lay.cornerStyle == NoOverlap
    ensures e.IsVertical() ==> JointOffsets(e, lay, w) == Joints(w[Top.Index()], w[Bottom.Index()], 0.0, 0.0)
    ensures !e.IsVertical() ==> JointOffsets(e, lay, w) == Joints(0.0, 0.0, 0.0, 0.0)
    ensures e.IsVertical() ==>
      EdgeGeometry(e, lay, w).offsetMin.y == w[Bottom.Index()] && EdgeGeometry(e, lay, w).offsetMax.y == -w[Top.Index()]
  {
  }

  /** Extended by d and Inset by d give exactly opposite joint offsets, and so opposite
      along-the-edge offsets, while the edge's thickness is the same. */
  lemma ExtendedInsetOpposite(e: Edge, a: Alignment, d: real, other: real, w: seq<real>)
    requires |w| == 4
    ensures var x := JointOffsets(e, Layout(a, Extended, d, other), w);
            var y := JointOffsets(e, Layout(a, Inset, other, d), w);
            x == Joints(-y.top, -y.bottom, -y.left, -y.right)
    ensures var gx := EdgeGeometry(e, Layout(a, Extended, d, other), w);
            var gy := EdgeGeometry(e, Layout(a, Inset, other, d), w);
            (e.IsVertical() ==> gx.offsetMin.y == -gy.offsetMin.y && gx.offsetMax.y == -gy.offsetMax.y &&
                                gx.offsetMin.x == gy.offsetMin.x && gx.offsetMax.x == gy.offsetMax.x) &&
            (!e.IsVertical() ==> gx.offsetMin.x == -gy.offsetMin.x && gx.offsetMax.x == -gy.offsetMax.x &&
                                 gx.offsetMin.y == gy.offsetMin.y && gx.offsetMax.y == gy.offsetMax.y)
  {
  }

  /** Opposite edges mirror each other: Right's thickness interval is Left's negated, and Top's is Bottom's negated. */
  lemma OppositeEdgesMirror(lay: Layout, w: seq<real>)
    requires |w| == 4 && w[Left.Index()] == w[Right.Index()] && w[Top.Index()] == w[Bottom.Index()]
    ensures EdgeGeometry(Right, lay, w).offsetMin.x == -EdgeGeometry(Left, lay, w).offsetMax.x
    ensures EdgeGeometry(Right, lay, w).offsetMax.x == -EdgeGeometry(Left, lay, w).offsetMin.x
    ensures EdgeGeometry(Top, lay, w).offsetMin.y == -EdgeGeometry(Bottom, lay, w).offsetMax.y
    ensures EdgeGeometry(Top, lay, w).offsetMax.y == -EdgeGeometry(Bottom, lay, w).offsetMin.y
  {
  }
}
