/**
 * SimpleUIBorder: the border's state (four widths, four colours, alignment,
 * corner and line style, the two different-edge flags), its setters, and what
 * it pushes to the four edge images and the border rectangle.
 *
 * The images and rectangles belong to the rendering layer; the model keeps the
 * values last assigned to them in a `View`. An edge whose image is missing is
 * `None` there, and every update of that edge is then a no-op on the view,
 * though the width and colour arrays are still written.
 */
module SimpleBorder {
  import opened BorderTypes
  import opened BorderGeometry

  datatype Sprite = Sprite(name: string)

  datatype Material = Material(name: string)

  /** The dashed-line sprites and the per-edge dashed materials found at start-up
      (`None` where the lookup found nothing). */
  datatype Assets = Assets(verticalDashed: Option<Sprite>, horizontalDashed: Option<Sprite>,
                           dashedMaterials: seq<Option<Material>>)

  /** What the border last assigned to one edge's image and rectangle. */
  datatype EdgeImage = EdgeImage(color: Color, rect: EdgeRect, sprite: Option<Sprite>,
                                 material: Option<Material>, pixelsPerUnitMultiplier: real,
                                 textureOffset: Vec2)

  /** The rendering side: one optional image per edge, and the border rectangle's offsets. */
  datatype View = View(edges: seq<Option<EdgeImage>>, outer: Offsets)

  /** The settings that only the editor and the property setters change. */
  datatype Settings = Settings(layout: Layout, borderStyle: LineStyle, pixelsPerUnitMultiplier: real)

  /** The border's mutable state as a value. */
  datatype BorderState = BorderState(widths: seq<real>, colors: seq<Color>,
                                     differentWidths: bool, differentColors: bool, view: View)

  predicate WellFormed(s: BorderState) {
    |s.widths| == 4 && |s.colors| == 4 && |s.view.edges| == 4
  }

  /** The two flags are caches of "not all four entries are equal". */
  predicate FlagsConsistent(s: BorderState) {
    WellFormed(s) && s.differentWidths == !AllEqual(s.widths) && s.differentColors == !AllEqual(s.colors)
  }

  /** The source's test for the different-edge flags: more or fewer than one distinct entry. */
  predicate Different<T(==)>(s: seq<T>) {
    DistinctCount(s) != 1
  }

  /** `next` in slots 0..k-1, `prev` in the rest. */
  function Overwrite<T>(prev: seq<T>, next: seq<T>, k: nat): (r: seq<T>)
    requires k <= |prev| && k <= |next|
  {
    seq(|prev|, i requires 0 <= i < |prev| => if i < k then next[i] else prev[i])
  }

  // ---------------------------------------------------------------------------
  // What the per-edge updates assign to the view

  function Paint(o: Option<EdgeImage>, c: Color): (r: Option<EdgeImage>) {
    match o
    case None => None
    case Some(img) => Some(img.(color := c))
  }

  /** UpdateBorderColor: the image of `e`, if present, takes colour `c`. */
  function PaintEdge(v: View, c: Color, e: Edge): (r: View)
    requires |v.edges| == 4
    ensures |r.edges| == 4
  {
    v.(edges := v.edges[e.Index() := Paint(v.edges[e.Index()], c)])
  }

  function Reshape(o: Option<EdgeImage>, rect: EdgeRect): (r: Option<EdgeImage>) {
    match o
    case None => None
    case Some(img) => Some(img.(rect := rect))
  }

  /** UpdateBorderWidth: if the image of `e` is present, the border rectangle and the
      rectangle of `e` are recomputed from the current widths `w`; otherwise nothing. */
  function RefreshEdgeWidth(v: View, w: seq<real>, lay: Layout, e: Edge): (r: View)
    requires |v.edges| == 4 && |w| == 4
    ensures |r.edges| == 4
  {
    match v.edges[e.Index()]
    case None => v
    case Some(img) =>
      View(v.edges[e.Index() := Some(img.(rect := EdgeGeometry(e, lay, w)))], OuterOffsets(lay.alignment, w))
  }

  function Restyle(o: Option<EdgeImage>, e: Edge, st: Settings, assets: Assets): (r: Option<EdgeImage>)
    requires |assets.dashedMaterials| == 4
  {
    match o
    case None => None
    case Some(img) =>
      match st.borderStyle
      case Solid => Some(img.(sprite := None, material := None))
      case Dashed =>
        Some(img.(sprite := if e.IsVertical() then assets.verticalDashed else assets.horizontalDashed,
                  material := assets.dashedMaterials[e.Index()],
                  pixelsPerUnitMultiplier := st.pixelsPerUnitMultiplier))
      case Custom => o
  }

  /** UpdateBorderStyle for edge `e`. */
  function RestyleEdge(v: View, st: Settings, assets: Assets, e: Edge): (r: View)
    requires |v.edges| == 4 && |assets.dashedMaterials| == 4
    ensures |r.edges| == 4
  {
    v.(edges := v.edges[e.Index() := Restyle(v.edges[e.Index()], e, st, assets)])
  }

  /** The colour-setter loop: slots 0..k-1 written and refreshed in order. */
  function ColorLoop(v: View, cs: seq<Color>, k: nat): (r: View)
    requires |v.edges| == 4 && k <= 4 && k <= |cs|
    ensures |r.edges| == 4
    decreases k
  {
    if k == 0 then v else PaintEdge(ColorLoop(v, cs, k - 1), cs[k - 1], EdgeAt(k - 1))
  }

  /** The width-setter loop: slot i is written and edge i refreshed before slot i+1 is
      written, so edge i sees the new widths of slots 0..i and the old ones after. */
  function WidthLoop(v: View, oldW: seq<real>, newW: seq<real>, lay: Layout, k: nat): (r: View)
    requires |v.edges| == 4 && |oldW| == 4 && k <= 4 && k <= |newW|
    ensures |r.edges| == 4
    decreases k
  {
    if k == 0 then v
    else RefreshEdgeWidth(WidthLoop(v, oldW, newW, lay, k - 1), Overwrite(oldW, newW, k), lay, EdgeAt(k - 1))
  }

  /** UpdateBorder's loop: colour, then width, then style, edge by edge. */
  function RefreshLoop(v: View, w: seq<real>, cs: seq<Color>, st: Settings, assets: Assets, k: nat): (r: View)
    requires |v.edges| == 4 && |w| == 4 && |cs| == 4 && |assets.dashedMaterials| == 4 && k <= 4
    ensures |r.edges| == 4
    decreases k
  {
    if k == 0 then v
    else
      var e := EdgeAt(k - 1);
      RestyleEdge(RefreshEdgeWidth(PaintEdge(RefreshLoop(v, w, cs, st, assets, k - 1), cs[k - 1], e),
                                   w, st.layout, e), st, assets, e)
  }

  /** What UpdateBorder leaves on a present image: the state's colour, geometry and style. */
  function Rendered(o: Option<EdgeImage>, w: seq<real>, cs: seq<Color>, st: Settings, assets: Assets, e: Edge)
    : Option<EdgeImage>
    requires |w| == 4 && |cs| == 4 && |assets.dashedMaterials| == 4
  {
    Restyle(Reshape(Paint(o, cs[e.Index()]), EdgeGeometry(e, st.layout, w)), e, st, assets)
  }

  // ---------------------------------------------------------------------------
  // The setters on the state as a value

  /** SetBorderWidth(float) */
  function WithAllWidths(s: BorderState, lay: Layout, w: real): (r: BorderState)
    requires WellFormed(s)
  {
    s.(widths := Four(w), differentWidths := false, view := WidthLoop(s.view, s.widths, Four(w), lay, 4))
  }

  /** SetBorderWidth(float[]): at most four entries are written; a fifth entry faults
      after the first four slots have been written and refreshed, and the flag is then
      not recomputed. */
  function WithWidths(s: BorderState, lay: Layout, ws: seq<real>): (r: BorderState)
    requires WellFormed(s)
  {
    var k := if |ws| <= 4 then |ws| else 4;
    var w := Overwrite(s.widths, ws, k);
    var v := WidthLoop(s.view, s.widths, ws, lay, k);
    if |ws| <= 4 then s.(widths := w, differentWidths := Different(w), view := v)
    else s.(widths := w, view := v)
  }

  /** SetBorderWidth(edge, float) */
  function WithEdgeWidth(s: BorderState, lay: Layout, e: Edge, w: real): (r: BorderState)
    requires WellFormed(s)
  {
    var ws := s.widths[e.Index() := w];
    s.(widths := ws, differentWidths := Different(ws), view := RefreshEdgeWidth(s.view, ws, lay, e))
  }

  /** SetBorderColor(Color32) */
  function WithAllColors(s: BorderState, c: Color): (r: BorderState)
    requires WellFormed(s)
  {
    s.(colors := Four(c), differentColors := false, view := ColorLoop(s.view, Four(c), 4))
  }

  /** SetBorderColor(Color32[]), with the same fault on a fifth entry as the width setter. */
  function WithColors(s: BorderState, cs: seq<Color>): (r: BorderState)
    requires WellFormed(s)
  {
    var k := if |cs| <= 4 then |cs| else 4;
    var c := Overwrite(s.colors, cs, k);
    var v := ColorLoop(s.view, cs, k);
    if |cs| <= 4 then s.(colors := c, differentColors := Different(c), view := v)
    else s.(colors := c, view := v)
  }

  /** SetBorderColor(edge, Color32) */
  function WithEdgeColor(s: BorderState, e: Edge, c: Color): (r: BorderState)
    requires WellFormed(s)
  {
    var cs := s.colors[e.Index() := c];
    s.(colors := cs, differentColors := Different(cs), view := PaintEdge(s.view, c, e))
  }

  // ---------------------------------------------------------------------------
  // Properties of the setters

  /** After every width setter that completes, differentWidths says exactly whether the
      four widths differ; the colours and their flag are untouched. */
  lemma WidthSettersFlags(s: BorderState, lay: Layout, w: real, ws: seq<real>, e: Edge, x: real)
    requires WellFormed(s)
    ensures var r := WithAllWidths(s, lay, w);
            WellFormed(r) && r.differentWidths == !AllEqual(r.widths) && !r.differentWidths
    ensures |ws| <= 4 ==> var r := WithWidths(s, lay, ws);
            WellFormed(r) && r.differentWidths == !AllEqual(r.widths)
    ensures var r := WithEdgeWidth(s, lay, e, x);
            WellFormed(r) && r.differentWidths == !AllEqual(r.widths)
    ensures FlagsConsistent(s) ==>
              FlagsConsistent(WithAllWidths(s, lay, w)) && FlagsConsistent(WithEdgeWidth(s, lay, e, x)) &&
              (|ws| <= 4 ==> FlagsConsistent(WithWidths(s, lay, ws)))
    ensures WithAllWidths(s, lay, w).colors == s.colors && WithWidths(s, lay, ws).colors == s.colors &&
            WithEdgeWidth(s, lay, e, x).colors == s.colors
  {
    DistinctCountOneIffAllEqual(Four(w));
    DistinctCountOneIffAllEqual(WithWidths(s, lay, ws).widths);
    DistinctCountOneIffAllEqual(WithEdgeWidth(s, lay, e, x).widths);
  }

  /** The colour analogue of WidthSettersFlags. */
  lemma ColorSettersFlags(s: BorderState, c: Color, cs: seq<Color>, e: Edge, x: Color)
    requires WellFormed(s)
    ensures var r := WithAllColors(s, c);
            WellFormed(r) && r.differentColors == !AllEqual(r.colors) && !r.differentColors
    ensures |cs| <= 4 ==> var r := WithColors(s, cs);
            WellFormed(r) && r.differentColors == !AllEqual(r.colors)
    ensures var r := WithEdgeColor(s, e, x);
            WellFormed(r) && r.differentColors == !AllEqual(r.colors)
    ensures FlagsConsistent(s) ==>
              FlagsConsistent(WithAllColors(s, c)) && FlagsConsistent(WithEdgeColor(s, e, x)) &&
              (|cs| <= 4 ==> FlagsConsistent(WithColors(s, cs)))
    ensures WithAllColors(s, c).widths == s.widths && WithColors(s, cs).widths == s.widths &&
            WithEdgeColor(s, e, x).widths == s.widths
  {
    DistinctCountOneIffAllEqual(Four(c));
    DistinctCountOneIffAllEqual(WithColors(s, cs).colors);
    DistinctCountOneIffAllEqual(WithEdgeColor(s, e, x).colors);
  }

  /** Which slots each width setter writes: the single-edge setter only its own slot; the
      array setter slots 0..k-1 for k <= 4 entries; five or more entries write four slots,
      fault, and leave the flag as it was. */
  lemma WidthSettersSlots(s: BorderState, lay: Layout, ws: seq<real>, e: Edge, x: real)
    requires WellFormed(s)
    ensures forall i :: 0 <= i < 4 ==>
              WithEdgeWidth(s, lay, e, x).widths[i] == if i == e.Index() then x else s.widths[i]
    ensures |ws| <= 4 ==> forall i :: 0 <= i < 4 ==>
              WithWidths(s, lay, ws).widths[i] == if i < |ws| then ws[i] else s.widths[i]
    ensures |ws| > 4 ==> WithWidths(s, lay, ws).widths == ws[..4] &&
                         WithWidths(s, lay, ws).differentWidths == s.differentWidths
  {
  }

  /** The colour analogue of WidthSettersSlots. */
  lemma ColorSettersSlots(s: BorderState, cs: seq<Color>, e: Edge, x: Color)
    requires WellFormed(s)
    ensures forall i :: 0 <= i < 4 ==>
              WithEdgeColor(s, e, x).colors[i] == if i == e.Index() then x else s.colors[i]
    ensures |cs| <= 4 ==> forall i :: 0 <= i < 4 ==>
              WithColors(s, cs).colors[i] == if i < |cs| then cs[i] else s.colors[i]
    ensures |cs| > 4 ==> WithColors(s, cs).colors == cs[..4] &&
                         WithColors(s, cs).differentColors == s.differentColors
  {
  }

  /** After a faulting array setter the width flag can be stale. */
  lemma OversizedWidthsLeaveStaleFlag(s: BorderState, lay: Layout)
    requires WellFormed(s) && s.widths == Four(4.0) && !s.differentWidths
    ensures var r := WithWidths(s, lay, [1.0, 2.0, 3.0, 4.0, 5.0]);
            r.widths == [1.0, 2.0, 3.0, 4.0] && !r.differentWidths && !FlagsConsistent(r)
  {
    var r := WithWidths(s, lay, [1.0, 2.0, 3.0, 4.0, 5.0]);
    assert r.widths[1] != r.widths[0];
  }

  /** The colour loop paints slots 0..k-1 of the present images with the new colours. */
  lemma {:induction false} ColorLoopEffect(v: View, cs: seq<Color>, k: nat)
    requires |v.edges| == 4 && k <= 4 && k <= |cs|
    ensures forall i :: 0 <= i < 4 ==>
              ColorLoop(v, cs, k).edges[i] == if i < k then Paint(v.edges[i], cs[i]) else v.edges[i]
    ensures ColorLoop(v, cs, k).outer == v.outer
    decreases k
  {
    if k > 0 {
      ColorLoopEffect(v, cs, k - 1);
    }
  }

  /** One refresh changes only the refreshed edge's entry and, if that image is present,
      the border rectangle. */
  lemma RefreshEdgeWidthAt(v: View, w: seq<real>, lay: Layout, e: Edge)
    requires |v.edges| == 4 && |w| == 4
    ensures forall i :: 0 <= i < 4 && i != e.Index() ==> RefreshEdgeWidth(v, w, lay, e).edges[i] == v.edges[i]
    ensures RefreshEdgeWidth(v, w, lay, e).edges[e.Index()] == Reshape(v.edges[e.Index()], EdgeGeometry(e, lay, w))
    ensures v.edges[e.Index()].None? ==> RefreshEdgeWidth(v, w, lay, e).outer == v.outer
    ensures v.edges[e.Index()].Some? ==> RefreshEdgeWidth(v, w, lay, e).outer == OuterOffsets(lay.alignment, w)
  {
  }

  /** The border rectangle after the width loop is the one computed by the last present edge
      among slots 0..k-1, from the widths as they stood right after that edge's slot was written. */
  lemma {:induction false} WidthLoopOuter(v: View, oldW: seq<real>, newW: seq<real>, lay: Layout, k: nat, j: nat)
    requires |v.edges| == 4 && |oldW| == 4 && k <= 4 && k <= |newW|
    requires j < k && v.edges[j].Some? && forall i :: j < i < k ==> v.edges[i].None?
    ensures WidthLoop(v, oldW, newW, lay, k).outer == OuterOffsets(lay.alignment, Overwrite(oldW, newW, j + 1))
    decreases k, 0
  {
    var prev := WidthLoop(v, oldW, newW, lay, k - 1);
    var w := Overwrite(oldW, newW, k);
    RefreshEdgeWidthAt(prev, w, lay, EdgeAt(k - 1));
    if j < k - 1 {
      WidthLoopOuter(v, oldW, newW, lay, k - 1, j);
      WidthLoopEffect(v, oldW, newW, lay, k - 1);
      assert prev.edges[k - 1] == v.edges[k - 1];
    } else {
      WidthLoopEffect(v, oldW, newW, lay, k - 1);
      assert prev.edges[k - 1] == v.edges[k - 1];
    }
  }

  /** The width loop gives edge i < k the geometry of the widths as they stood right after
      slot i was written; the border rectangle is last computed by the last present edge. */
  lemma {:induction false} WidthLoopEffect(v: View, oldW: seq<real>, newW: seq<real>, lay: Layout, k: nat)
    requires |v.edges| == 4 && |oldW| == 4 && k <= 4 && k <= |newW|
    ensures forall i :: 0 <= i < 4 ==>
              WidthLoop(v, oldW, newW, lay, k).edges[i] ==
                if i < k then Reshape(v.edges[i], EdgeGeometry(EdgeAt(i), lay, Overwrite(oldW, newW, i + 1)))
                else v.edges[i]
    ensures (forall i :: 0 <= i < k ==> v.edges[i].None?) ==> WidthLoop(v, oldW, newW, lay, k).outer == v.outer
    ensures 0 < k && v.edges[k - 1].Some? ==>
              WidthLoop(v, oldW, newW, lay, k).outer == OuterOffsets(lay.alignment, Overwrite(oldW, newW, k))
    ensures forall j :: 0 <= j < k && v.edges[j].Some? && (forall i :: j < i < k ==> v.edges[i].None?) ==>
              WidthLoop(v, oldW, newW, lay, k).outer == OuterOffsets(lay.alignment, Overwrite(oldW, newW, j + 1))
    decreases k, 1
  {
    forall j | 0 <= j < k && v.edges[j].Some? && (forall i :: j < i < k ==> v.edges[i].None?)
      ensures WidthLoop(v, oldW, newW, lay, k).outer == OuterOffsets(lay.alignment, Overwrite(oldW, newW, j + 1))
    {
      WidthLoopOuter(v, oldW, newW, lay, k, j);
    }
    if k > 0 {
      var prev := WidthLoop(v, oldW, newW, lay, k - 1);
      var w := Overwrite(oldW, newW, k);
      WidthLoopEffect(v, oldW, newW, lay, k - 1);
      RefreshEdgeWidthAt(prev, w, lay, EdgeAt(k - 1));
      assert WidthLoop(v, oldW, newW, lay, k) == RefreshEdgeWidth(prev, w, lay, EdgeAt(k - 1));
      forall i | 0 <= i < 4
        ensures WidthLoop(v, oldW, newW, lay, k).edges[i] ==
                if i < k then Reshape(v.edges[i], EdgeGeometry(EdgeAt(i), lay, Overwrite(oldW, newW, i + 1)))
                else v.edges[i]
      {
        if i == k - 1 {
          assert prev.edges[i] == v.edges[i];
        }
      }
    }
  }

  /** With the image of `e` missing, the colour, width and style updates of `e` leave the view as it was. */
  lemma UpdatesSkipAbsentImage(v: View, c: Color, w: seq<real>, lay: Layout, st: Settings, assets: Assets, e: Edge)
    requires |v.edges| == 4 && |w| == 4 && |assets.dashedMaterials| == 4 && v.edges[e.Index()].None?
    ensures PaintEdge(v, c, e) == v
    ensures RefreshEdgeWidth(v, w, lay, e) == v
    ensures RestyleEdge(v, st, assets, e) == v
  {
  }

  /** No colour setter attaches or detaches an image, or moves the border rectangle. */
  lemma ColorSettersKeepAttachment(s: BorderState, c: Color, cs: seq<Color>, e: Edge)
    requires WellFormed(s)
    ensures forall i :: 0 <= i < 4 ==>
              (WithAllColors(s, c).view.edges[i].None? <==> s.view.edges[i].None?) &&
              (WithColors(s, cs).view.edges[i].None? <==> s.view.edges[i].None?) &&
              (WithEdgeColor(s, e, c).view.edges[i].None? <==> s.view.edges[i].None?)
    ensures WithAllColors(s, c).view.outer == s.view.outer && WithColors(s, cs).view.outer == s.view.outer &&
            WithEdgeColor(s, e, c).view.outer == s.view.outer
  {
    var k := if |cs| <= 4 then |cs| else 4;
    ColorLoopEffect(s.view, Four(c), 4);
    ColorLoopEffect(s.view, cs, k);
    assert WithColors(s, cs).view == ColorLoop(s.view, cs, k);
  }

  /** After the first step of the uniform-width loop only slot 0 holds the new width. */
  lemma FirstSlotWritten(w: seq<real>)
    requires w == Four(4.0)
    ensures Overwrite(w, Four(10.0), 1) == [10.0, 4.0, 4.0, 4.0]
  {
    var o := Overwrite(w, Four(10.0), 1);
    assert o[0] == 10.0 && o[1] == 4.0 && o[2] == 4.0 && o[3] == 4.0;
  }

  /** With NoOverlap corners, setting all widths from 4 to 10 leaves the Left edge shortened
      by the old Top and Bottom widths: Left is refreshed before Top and Bottom are written,
      and nothing refreshes it afterwards. */
  lemma StaleJointAfterUniformWidth(s: BorderState, lay: Layout)
    requires WellFormed(s) && s.widths == Four(4.0) && lay.cornerStyle == NoOverlap
    requires s.view.edges[Left.Index()].Some?
    ensures var r := WithAllWidths(s, lay, 10.0);
            r.view.edges[Left.Index()].Some? &&
            r.view.edges[Left.Index()].value.rect == EdgeGeometry(Left, lay, [10.0, 4.0, 4.0, 4.0]) &&
            r.view.edges[Left.Index()].value.rect.offsetMax.y == -4.0 &&
            EdgeGeometry(Left, lay, r.widths).offsetMax.y == -10.0
  {
    var r := WithAllWidths(s, lay, 10.0);
    var stale := [10.0, 4.0, 4.0, 4.0];
    WidthLoopEffect(s.view, s.widths, Four(10.0), lay, 4);
    FirstSlotWritten(s.widths);
    assert r.view.edges[0] == Reshape(s.view.edges[0], EdgeGeometry(Left, lay, stale));
    NoOverlapJoints(Left, lay, stale);
    NoOverlapJoints(Left, lay, r.widths);
  }

  /** One step of UpdateBorder's loop renders edge `e` and nothing else. */
  lemma RefreshStepAt(v: View, w: seq<real>, cs: seq<Color>, st: Settings, assets: Assets, e: Edge)
    requires |v.edges| == 4 && |w| == 4 && |cs| == 4 && |assets.dashedMaterials| == 4
    ensures var r := RestyleEdge(RefreshEdgeWidth(PaintEdge(v, cs[e.Index()], e), w, st.layout, e), st, assets, e);
            (forall i :: 0 <= i < 4 && i != e.Index() ==> r.edges[i] == v.edges[i]) &&
            r.edges[e.Index()] == Rendered(v.edges[e.Index()], w, cs, st, assets, e) &&
            (v.edges[e.Index()].None? ==> r.outer == v.outer) &&
            (v.edges[e.Index()].Some? ==> r.outer == OuterOffsets(st.layout.alignment, w))
  {
    var p := PaintEdge(v, cs[e.Index()], e);
    RefreshEdgeWidthAt(p, w, st.layout, e);
  }

  /** UpdateBorder leaves every present image showing the state's colour, geometry and
      style, and the border rectangle at the alignment's offsets once any image is present. */
  lemma {:induction false} RefreshLoopRenders(v: View, w: seq<real>, cs: seq<Color>, st: Settings, assets: Assets, k: nat)
    requires |v.edges| == 4 && |w| == 4 && |cs| == 4 && |assets.dashedMaterials| == 4 && k <= 4
    ensures forall i :: 0 <= i < 4 ==>
              RefreshLoop(v, w, cs, st, assets, k).edges[i] ==
                if i < k then Rendered(v.edges[i], w, cs, st, assets, EdgeAt(i)) else v.edges[i]
    ensures (forall i :: 0 <= i < k ==> v.edges[i].None?) ==> RefreshLoop(v, w, cs, st, assets, k).outer == v.outer
    ensures (exists i :: 0 <= i < k && v.edges[i].Some?) ==>
              RefreshLoop(v, w, cs, st, assets, k).outer == OuterOffsets(st.layout.alignment, w)
    decreases k
  {
    if k > 0 {
      var prev := RefreshLoop(v, w, cs, st, assets, k - 1);
      var e := EdgeAt(k - 1);
      RefreshLoopRenders(v, w, cs, st, assets, k - 1);
      RefreshStepAt(prev, w, cs, st, assets, e);
      assert RefreshLoop(v, w, cs, st, assets, k) ==
             RestyleEdge(RefreshEdgeWidth(PaintEdge(prev, cs[e.Index()], e), w, st.layout, e), st, assets, e);
      assert prev.edges[k - 1] == v.edges[k - 1];
      if v.edges[k - 1].None? && exists i :: 0 <= i < k && v.edges[i].Some? {
        var i :| 0 <= i < k && v.edges[i].Some?;
        assert i < k - 1;
      }
    }
  }

  /** The line style's effect on a present image: Solid clears sprite and material, Dashed
      picks the vertical sprite for Left/Right and the horizontal one for Top/Bottom plus the
      edge's own material, Custom changes nothing. Colour and geometry are never touched. */
  lemma StyleSelection(img: EdgeImage, e: Edge, st: Settings, assets: Assets)
    requires |assets.dashedMaterials| == 4
    ensures var r := Restyle(Some(img), e, st, assets);
            r.Some? && r.value.color == img.color && r.value.rect == img.rect &&
            (st.borderStyle == Solid ==> r.value.sprite.None? && r.value.material.None?) &&
            (st.borderStyle == Dashed ==>
               r.value.sprite == (if e.IsVertical() then assets.verticalDashed else assets.horizontalDashed) &&
               r.value.material == assets.dashedMaterials[e.Index()] &&
               r.value.pixelsPerUnitMultiplier == st.pixelsPerUnitMultiplier) &&
            (st.borderStyle == Custom ==> r.value == img)
    ensures Restyle(None, e, st, assets) == None
  {
  }

  // ---------------------------------------------------------------------------
  // The component

  class SimpleUIBorder {
    var differentEdgeWidths: bool
    var differentEdgeColors: bool
    const edgeWidths: array<real>
    const edgeColors: array<Color>
    var borderAlignment: Alignment
    var borderStyle: LineStyle
    var pixelsPerUnitMultiplier: real
    var cornerStyle: CornerStyle
    var cornerExtendDistance: real
    var cornerInsetDistance: real
    /** The values last pushed to the edge images and the border rectangle. */
    var view: View
    const assets: Assets

    ghost predicate Valid()
      reads this
    {
      edgeWidths.Length == 4 && edgeColors.Length == 4 && |view.edges| == 4 && |assets.dashedMaterials| == 4
    }

    function Model(): BorderState
      reads this, edgeWidths, edgeColors
    {
      BorderState(edgeWidths[..], edgeColors[..], differentEdgeWidths, differentEdgeColors, view)
    }

    function GetLayout(): Layout
      reads this
    {
      Layout(borderAlignment, cornerStyle, cornerExtendDistance, cornerInsetDistance)
    }

    function GetSettings(): Settings
      reads this
    {
      Settings(GetLayout(), borderStyle, pixelsPerUnitMultiplier)
    }

    /** Start-up (Awake and Start): the declared defaults, the images found among the
        children, the assets found by name, and one UpdateBorder. */
    constructor (edgeImages: seq<Option<EdgeImage>>, borderRect: Offsets, loaded: Assets)
      requires |edgeImages| == 4 && |loaded.dashedMaterials| == 4
      ensures Valid() && fresh(edgeWidths) && fresh(edgeColors) && assets == loaded
      ensures GetSettings() == Settings(Layout(Outside, Overlap, 4.0, 4.0), Solid, 1.0)
      ensures Model() == BorderState(Four(4.0), Four(Black), false, false,
                                     RefreshLoop(View(edgeImages, borderRect), Four(4.0), Four(Black),
                                                 GetSettings(), loaded, 4))
      ensures FlagsConsistent(Model())
    {
      differentEdgeWidths, differentEdgeColors := false, false;
      edgeWidths := new real[4](_ => 4.0);
      edgeColors := new Color[4](_ => Black);
      borderAlignment, borderStyle, pixelsPerUnitMultiplier := Outside, Solid, 1.0;
      cornerStyle, cornerExtendDistance, cornerInsetDistance := Overlap, 4.0, 4.0;
      view := View(edgeImages, borderRect);
      assets := loaded;
      new;
      assert edgeWidths[..] == Four(4.0);
      assert edgeColors[..] == Four(Black);
      UpdateBorder();
    }

    /** The read-only view of the widths. */
    function GetBorderWidths(): (r: seq<real>)
      requires Valid()
      reads this, edgeWidths
      ensures |r| == 4 && forall i :: 0 <= i < 4 ==> r[i] == edgeWidths[i]
    {
      edgeWidths[..]
    }

    /** The read-only view of the colours. */
    function GetBorderColors(): (r: seq<Color>)
      requires Valid()
      reads this, edgeColors
      ensures |r| == 4 && forall i :: 0 <= i < 4 ==> r[i] == edgeColors[i]
    {
      edgeColors[..]
    }

    method UpdateBorderColor(edge: Edge)
      requires Valid()
      modifies this`view
      ensures Valid()
      ensures view == PaintEdge(old(view), edgeColors[edge.Index()], edge)
    {
      var i := edge.Index();
      if view.edges[i].None? {
        return;
      }
      view := view.(edges := view.edges[i := Some(view.edges[i].value.(color := edgeColors[i]))]);
    }

    method UpdateBorderWidth(edge: Edge)
      requires Valid()
      modifies this`view
      ensures Valid()
      ensures view == RefreshEdgeWidth(old(view), edgeWidths[..], GetLayout(), edge)
    {
      var i := edge.Index();
      if view.edges[i].None? {
        return;
      }
      var w := edgeWidths[..];
      var rect := EdgeGeometry(edge, GetLayout(), w);
      view := View(view.edges[i := Some(view.edges[i].value.(rect := rect))], OuterOffsets(borderAlignment, w));
    }

    method UpdateBorderStyle(edge: Edge)
      requires Valid()
      modifies this`view
      ensures Valid()
      ensures view == RestyleEdge(old(view), GetSettings(), assets, edge)
    {
      var i := edge.Index();
      if view.edges[i].None? {
        return;
      }
      var img := view.edges[i].value;
      match borderStyle
      case Solid =>
        view := view.(edges := view.edges[i := Some(img.(sprite := None, material := None))]);
      case Dashed =>
        var sprite := if edge.IsVertical() then assets.verticalDashed else assets.horizontalDashed;
        img := img.(sprite := sprite, material := assets.dashedMaterials[i]);
        img := img.(pixelsPerUnitMultiplier := pixelsPerUnitMultiplier);
        view := view.(edges := view.edges[i := Some(img)]);
      case Custom =>
    }

    method UpdateDifferentEdgeWidths()
      requires Valid()
      modifies this`differentEdgeWidths
      ensures differentEdgeWidths == Different(edgeWidths[..])
      ensures differentEdgeWidths == !AllEqual(edgeWidths[..])
    {
      if DistinctCount(edgeWidths[..]) == 1 {
        differentEdgeWidths := false;
      } else {
        differentEdgeWidths := true;
      }
      DistinctCountOneIffAllEqual(edgeWidths[..]);
    }

    method UpdateDifferentEdgeColors()
      requires Valid()
      modifies this`differentEdgeColors
      ensures differentEdgeColors == Different(edgeColors[..])
      ensures differentEdgeColors == !AllEqual(edgeColors[..])
    {
      if DistinctCount(edgeColors[..]) == 1 {
        differentEdgeColors := false;
      } else {
        differentEdgeColors := true;
      }
      DistinctCountOneIffAllEqual(edgeColors[..]);
    }

    /** SetBorderWidth(float): every edge gets `newWidth`. */
    method SetBorderWidth(newWidth: real)
      requires Valid()
      modifies this`view, this`differentEdgeWidths, edgeWidths
      ensures Valid()
      ensures Model() == WithAllWidths(old(Model()), GetLayout(), newWidth)
    {
      for i := 0 to 4
        invariant Valid()
        invariant edgeWidths[..] == Overwrite(old(edgeWidths[..]), Four(newWidth), i)
        invariant view == WidthLoop(old(view), old(edgeWidths[..]), Four(newWidth), GetLayout(), i)
        invariant differentEdgeWidths == old(differentEdgeWidths)
      {
        edgeWidths[i] := newWidth;
        UpdateBorderWidth(EdgeAt(i));
      }
      differentEdgeWidths := false;
    }

    /** SetBorderWidth(float[]): slot i gets `newWidths[i]`; `ok` is false when the array
        has more than four entries, where the source throws after writing four slots. */
    method SetBorderWidths(newWidths: seq<real>) returns (ok: bool)
      requires Valid()
      modifies this`view, this`differentEdgeWidths, edgeWidths
      ensures Valid()
      ensures ok == (|newWidths| <= 4)
      ensures Model() == WithWidths(old(Model()), GetLayout(), newWidths)
    {
      var i := 0;
      while i < |newWidths|
        invariant 0 <= i <= |newWidths| && i <= 4
        invariant Valid()
        invariant edgeWidths[..] == Overwrite(old(edgeWidths[..]), newWidths, i)
        invariant view == WidthLoop(old(view), old(edgeWidths[..]), newWidths, GetLayout(), i)
        invariant differentEdgeWidths == old(differentEdgeWidths)
      {
        if i == 4 {
          return false;
        }
        edgeWidths[i] := newWidths[i];
        UpdateBorderWidth(EdgeAt(i));
        i := i + 1;
      }
      UpdateDifferentEdgeWidths();
      ok := true;
    }

    /** SetBorderWidth(edge, float) */
    method SetEdgeWidth(edge: Edge, newWidth: real)
      requires Valid()
      modifies this`view, this`differentEdgeWidths, edgeWidths
      ensures Valid()
      ensures Model() == WithEdgeWidth(old(Model()), GetLayout(), edge, newWidth)
    {
      edgeWidths[edge.Index()] := newWidth;
      UpdateBorderWidth(edge);
      UpdateDifferentEdgeWidths();
    }

    /** SetBorderColor(Color32): every edge gets `newColor`. */
    method SetBorderColor(newColor: Color)
      requires Valid()
      modifies this`view, this`differentEdgeColors, edgeColors
      ensures Valid()
      ensures Model() == WithAllColors(old(Model()), newColor)
    {
      for i := 0 to 4
        invariant Valid()
        invariant edgeColors[..] == Overwrite(old(edgeColors[..]), Four(newColor), i)
        invariant view == ColorLoop(old(view), Four(newColor), i)
        invariant differentEdgeColors == old(differentEdgeColors)
      {
        edgeColors[i] := newColor;
        UpdateBorderColor(EdgeAt(i));
      }
      differentEdgeColors := false;
    }

    /** SetBorderColor(Color32[]), with the same fault as SetBorderWidths. */
    method SetBorderColors(newColors: seq<Color>) returns (ok: bool)
      requires Valid()
      modifies this`view, this`differentEdgeColors, edgeColors
      ensures Valid()
      ensures ok == (|newColors| <= 4)
      ensures Model() == WithColors(old(Model()), newColors)
    {
      var i := 0;
      while i < |newColors|
        invariant 0 <= i <= |newColors| && i <= 4
        invariant Valid()
        invariant edgeColors[..] == Overwrite(old(edgeColors[..]), newColors, i)
        invariant view == ColorLoop(old(view), newColors, i)
        invariant differentEdgeColors == old(differentEdgeColors)
      {
        if i == 4 {
          return false;
        }
        edgeColors[i] := newColors[i];
        UpdateBorderColor(EdgeAt(i));
        i := i + 1;
      }
      UpdateDifferentEdgeColors();
      ok := true;
    }

    /** SetBorderColor(edge, Color32) */
    method SetEdgeColor(edge: Edge, newColor: Color)
      requires Valid()
      modifies this`view, this`differentEdgeColors, edgeColors
      ensures Valid()
      ensures Model() == WithEdgeColor(old(Model()), edge, newColor)
    {
      edgeColors[edge.Index()] := newColor;
      UpdateBorderColor(edge);
      UpdateDifferentEdgeColors();
    }

    /** UpdateBorder: colour, width and style of every edge from the current state. */
    method UpdateBorder()
      requires Valid()
      modifies this`view
      ensures Valid()
      ensures view == RefreshLoop(old(view), edgeWidths[..], edgeColors[..], GetSettings(), assets, 4)
    {
      for i := 0 to 4
        invariant Valid()
        invariant view == RefreshLoop(old(view), edgeWidths[..], edgeColors[..], GetSettings(), assets, i)
      {
        UpdateBorderColor(EdgeAt(i));
        UpdateBorderWidth(EdgeAt(i));
        UpdateBorderStyle(EdgeAt(i));
      }
    }
  }
}
