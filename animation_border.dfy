/**
 * AnimationBorderBehaviour: a per-frame animation of the border. Setting it up
 * restores whatever the previous set-up stored, then stores the slice the chosen
 * animation will overwrite (colours or widths) or notes that the texture offsets
 * are about to move. Each frame writes one value computed from the stored start
 * value, the end value and a phase; resetting restores the stored slice and, after
 * a rotation, zeroes the texture offsets.
 *
 * Time enters only through the frame inputs: `phase` stands for
 * PingPong(time / (duration / 2), 1) and `newOffset` for time / duration.
 */
module AnimationBorder {
  import opened BorderTypes
  import opened BorderGeometry
  import opened SimpleBorder
  import opened BorderBehaviourBase

  datatype AnimationType = ColorChange | WidthChange | Rotate

  datatype RotationDirection = Clockwise | CounterClockwise

  // ---------------------------------------------------------------------------
  // Frame values

  function Clamp01(t: real): (r: real)
    ensures 0.0 <= r <= 1.0
    ensures 0.0 <= t <= 1.0 ==> r == t
  {
    if t < 0.0 then 0.0 else if t > 1.0 then 1.0 else t
  }

  /** Mathf.Lerp: the interpolation parameter is clamped to [0, 1]. */
  function Lerp(a: real, b: real, t: real): (r: real) {
    var s := Clamp01(t);
    a + (b - a) * s
  }

  /** Color.Lerp, channel by channel with the same clamping. */
  function LerpColor(a: Color, b: Color, t: real): (r: Color) {
    Color(Lerp(a.r, b.r, t), Lerp(a.g, b.g, t), Lerp(a.b, b.b, t), Lerp(a.a, b.a, t))
  }

  predicate Between(x: real, a: real, b: real) {
    (a <= x <= b) || (b <= x <= a)
  }

  /** A frame value lies between start and end, is the start at phase 0 and the end at
      phase 1, and does not move past either end outside [0, 1]. */
  lemma LerpBetween(a: real, b: real, t: real)
    ensures Between(Lerp(a, b, t), a, b)
    ensures t <= 0.0 ==> Lerp(a, b, t) == a
    ensures t >= 1.0 ==> Lerp(a, b, t) == b
  {
    var s := Clamp01(t);
    var d := b - a;
    assert Lerp(a, b, t) == a + d * s;
    if d >= 0.0 {
      ProductBounds(d, s);
    } else {
      ProductBounds(-d, s);
      assert d * s == -((-d) * s);
    }
  }

  /** For `0 <= s <= 1` and `d >= 0`, `d * s` lies in `[0, d]`. */
  lemma ProductBounds(d: real, s: real)
    requires d >= 0.0 && 0.0 <= s <= 1.0
    ensures 0.0 <= d * s <= d
  {
    assert d - d * s == d * (1.0 - s);
  }

  /** Every channel of a colour frame lies between the start and end channels. */
  lemma LerpColorBetween(a: Color, b: Color, t: real)
    ensures var c := LerpColor(a, b, t);
            Between(c.r, a.r, b.r) && Between(c.g, a.g, b.g) && Between(c.b, a.b, b.b) && Between(c.a, a.a, b.a)
    ensures t <= 0.0 ==> LerpColor(a, b, t) == a
    ensures t >= 1.0 ==> LerpColor(a, b, t) == b
  {
    LerpBetween(a.r, b.r, t);
    LerpBetween(a.g, b.g, t);
    LerpBetween(a.b, b.b, t);
    LerpBetween(a.a, b.a, t);
  }

  /** The texture offsets AnimationRotate assigns to edges 0..3. */
  function RotationOffsets(dir: RotationDirection, newOffset: real): (r: seq<Vec2>)
    ensures |r| == 4
  {
    var y := if dir == CounterClockwise then Vec2(0.0, -newOffset).Neg() else Vec2(0.0, -newOffset);
    var x := if dir == CounterClockwise then Vec2(-newOffset, 0.0).Neg() else Vec2(-newOffset, 0.0);
    [y, x, y.Neg(), x.Neg()]
  }

  /** Opposite edges scroll in opposite directions; Left and Right scroll along y, Top and
      Bottom along x; counter-clockwise is clockwise negated, that is, clockwise at the
      negated offset. */
  lemma RotationPattern(newOffset: real)
    ensures var cw := RotationOffsets(Clockwise, newOffset);
            cw[0] == Vec2(0.0, -newOffset) && cw[1] == Vec2(-newOffset, 0.0)
    ensures forall dir: RotationDirection :: var r := RotationOffsets(dir, newOffset);
              r[2] == r[0].Neg() && r[3] == r[1].Neg() && r[0].x == 0.0 && r[1].y == 0.0
    ensures forall i :: 0 <= i < 4 ==> RotationOffsets(CounterClockwise, newOffset)[i] == RotationOffsets(Clockwise, newOffset)[i].Neg()
    ensures RotationOffsets(CounterClockwise, newOffset) == RotationOffsets(Clockwise, -newOffset)
  {
  }

  // ---------------------------------------------------------------------------
  // Texture offsets on the view

  function SetOffset(o: Option<EdgeImage>, off: Vec2): (r: Option<EdgeImage>) {
    match o
    case None => None
    case Some(img) => Some(img.(textureOffset := off))
  }

  /** Each present edge image takes the matching offset of `offs`. */
  function ApplyOffsets(v: View, offs: seq<Vec2>): (r: View)
    requires |v.edges| == 4 && |offs| == 4
    ensures |r.edges| == 4
  {
    View(seq(4, i requires 0 <= i < 4 => SetOffset(v.edges[i], offs[i])), v.outer)
  }

  /** The reset's loop: every present image returns to the neutral offset. */
  function ZeroOffsets(v: View): (r: View)
    requires |v.edges| == 4
    ensures |r.edges| == 4
  {
    ApplyOffsets(v, Four(Zero))
  }

  /** Moving the offsets changes nothing but the offsets: absent images stay absent, and
      a reset after any rotation leaves every offset neutral and everything else as it was. */
  lemma OffsetsOnlyMoveTextures(v: View, offs: seq<Vec2>)
    requires |v.edges| == 4 && |offs| == 4
    ensures ApplyOffsets(v, offs).outer == v.outer
    ensures forall i :: 0 <= i < 4 ==> (ApplyOffsets(v, offs).edges[i].Some? <==> v.edges[i].Some?)
    ensures forall i :: 0 <= i < 4 && v.edges[i].Some? ==>
              ApplyOffsets(v, offs).edges[i].value == v.edges[i].value.(textureOffset := offs[i])
    ensures ZeroOffsets(ApplyOffsets(v, offs)) == ZeroOffsets(v)
  {
    var a := ApplyOffsets(v, offs);
    forall i | 0 <= i < 4
      ensures ZeroOffsets(a).edges[i] == ZeroOffsets(v).edges[i]
    {
      assert a.edges[i] == SetOffset(v.edges[i], offs[i]);
    }
  }

  // ---------------------------------------------------------------------------
  // Set-up and reset as a state machine

  /** The behaviour's buffers with the border, and the `bordersRotated` flag. */
  datatype AnimState = AnimState(shared: Shared, rotated: bool)

  /** ResetToStart: the inherited reset, then the offsets are zeroed if a rotation was set up. */
  function ResetAnim(a: AnimState, lay: Layout): (r: AnimState)
    requires Ready(a.shared)
    ensures Ready(r.shared)
  {
    var q := ResetBoth(a.shared, lay);
    if a.rotated then AnimState(q.(border := q.border.(view := ZeroOffsets(q.border.view))), false)
    else AnimState(q, false)
  }

  /** SetUpAnimation with a border present: reset, then store the slice the animation writes. */
  function SetUpAnim(a: AnimState, t: AnimationType, lay: Layout): (r: AnimState)
    requires Ready(a.shared)
    ensures Ready(r.shared)
  {
    var q := ResetAnim(a, lay);
    match t
    case ColorChange => q.(shared := StoreColors(q.shared))
    case WidthChange => q.(shared := StoreWidths(q.shared))
    case Rotate => q.(rotated := true)
  }

  /** Setting Unity's `enabled` flag from `wasEnabled` to `value`: OnEnable sets up again,
      OnDisable resets, and an unchanged flag calls neither. */
  function EnableStep(a: AnimState, wasEnabled: bool, value: bool, t: AnimationType, lay: Layout): (r: AnimState)
    requires Ready(a.shared)
    ensures Ready(r.shared)
  {
    if value == wasEnabled then a
    else if value then SetUpAnim(a, t, lay)
    else ResetAnim(a, lay)
  }

  /** Enabling a disabled driver and disabling it again, with any frames in between,
      gives back the animated slice as the enabling set-up found it. */
  lemma EnableDisableRestores(a: AnimState, t: AnimationType, lay: Layout, later: BorderState)
    requires Ready(a.shared) && WellFormed(later)
    ensures var on := EnableStep(a, false, true, t, lay);
            var off := EnableStep(on.(shared := Shared(on.shared.buffers, later)), true, false, t, lay);
            var base := ResetAnim(a, lay).shared.border;
            !off.rotated && !off.shared.buffers.colorsSet && !off.shared.buffers.widthsSet &&
            (t == ColorChange ==> off.shared.border.colors == base.colors) &&
            (t == WidthChange ==> off.shared.border.widths == base.widths)
  {
    SetUpFramesResetRestores(a, t, lay, later);
  }

  /** After a reset nothing is stored or rotated; a rotated set-up leaves every present
      image at the neutral offset; a second reset changes nothing. */
  lemma ResetAnimClears(a: AnimState, lay: Layout)
    requires Ready(a.shared)
    ensures var r := ResetAnim(a, lay);
            !r.rotated && !r.shared.buffers.colorsSet && !r.shared.buffers.widthsSet
    ensures a.rotated ==> forall i :: 0 <= i < 4 && ResetAnim(a, lay).shared.border.view.edges[i].Some? ==>
              ResetAnim(a, lay).shared.border.view.edges[i].value.textureOffset == Zero
    ensures !a.rotated ==> forall i :: 0 <= i < 4 ==>
              var before := a.shared.border.view.edges[i];
              var after := ResetAnim(a, lay).shared.border.view.edges[i];
              (after.Some? <==> before.Some?) &&
              (before.Some? ==> after.value.textureOffset == before.value.textureOffset)
    ensures ResetAnim(ResetAnim(a, lay), lay) == ResetAnim(a, lay)
  {
    ResetBothLeavesUnstored(a.shared, lay);
    var r := ResetAnim(a, lay);
    ResetIdempotent(r.shared, lay);
    var p0 := a.shared;
    var p1 := ResetColors(p0);
    if p0.buffers.colorsSet {
      ColorLoopEffect(p0.border.view, p0.buffers.colors, 4);
    }
    if p1.buffers.widthsSet {
      WidthLoopEffect(p1.border.view, p1.border.widths, p1.buffers.widths, lay, 4);
    }
  }

  /** Set-up stores exactly the slice the chosen animation writes, from the border as the
      preceding reset left it, and marks a rotation for Rotate only. */
  lemma SetUpStoresSlice(a: AnimState, t: AnimationType, lay: Layout)
    requires Ready(a.shared)
    ensures var r := SetUpAnim(a, t, lay);
            var base := ResetAnim(a, lay).shared.border;
            r.shared.border == base &&
            r.shared.buffers.colorsSet == (t == ColorChange) &&
            r.shared.buffers.widthsSet == (t == WidthChange) &&
            r.rotated == (t == Rotate) &&
            (t == ColorChange ==> r.shared.buffers.colors == base.colors) &&
            (t == WidthChange ==> r.shared.buffers.widths == base.widths)
  {
    ResetAnimClears(a, lay);
  }

  /** Set up, let any frames write the border, reset: the animated slice is back to what
      set-up stored, and nothing stays stored or rotated. */
  lemma SetUpFramesResetRestores(a: AnimState, t: AnimationType, lay: Layout, later: BorderState)
    requires Ready(a.shared) && WellFormed(later)
    ensures var base := ResetAnim(a, lay).shared.border;
            var r := ResetAnim(SetUpAnim(a, t, lay).(shared := Shared(SetUpAnim(a, t, lay).shared.buffers, later)), lay);
            !r.rotated && !r.shared.buffers.colorsSet && !r.shared.buffers.widthsSet &&
            (t == ColorChange ==> r.shared.border.colors == base.colors && r.shared.border.widths == later.widths) &&
            (t == WidthChange ==> r.shared.border.widths == base.widths && r.shared.border.colors == later.colors) &&
            (t == Rotate ==> r.shared.border.colors == later.colors && r.shared.border.widths == later.widths)
  {
    var q := ResetAnim(a, lay);
    SetUpStoresSlice(a, t, lay);
    ResetAnimClears(a, lay);
    match t
    case ColorChange =>
      StoreResetRestoresColors(q.shared, later);
    case WidthChange =>
      StoreResetRestoresWidths(q.shared, later, lay);
    case Rotate =>
      ResetBothLeavesUnstored(Shared(q.shared.buffers, later), lay);
  }

  // ---------------------------------------------------------------------------
  // The component

  class AnimationBorderBehaviour {
    /** The A_BorderBehaviour part: the border (possibly absent) and the snapshot buffers. */
    const snapshot: BorderBehaviour
    var animationType: AnimationType
    var endColor: Color
    var endWidth: real
    var rotationDirection: RotationDirection
    var animationDuration: real
    var bordersRotated: bool
    /** The per-frame delegate: which animation Update runs, or None before any set-up. */
    var borderAnimation: Option<AnimationType>
    /** Unity's enabled flag. */
    var enabled: bool

    /** The snapshot is well formed, and a rotation or a frame delegate needs a border. */
    ghost predicate Sound()
      reads this, snapshot, snapshot.border
    {
      snapshot.Valid() && (bordersRotated || borderAnimation.Some? ==> snapshot.border != null)
    }

    /** Between calls, a driver with a border has its frame delegate set to its animation
        type: the constructor sets it up, and the AnimationType setter sets it up again. */
    ghost predicate Valid()
      reads this, snapshot, snapshot.border
    {
      Sound() && (snapshot.border != null ==> borderAnimation == Some(animationType))
    }

    function State(): AnimState
      requires snapshot.border != null
      reads this, snapshot, snapshot.startColors, snapshot.startWidths, snapshot.BorderRepr()
    {
      AnimState(snapshot.Protocol(), bordersRotated)
    }

    /** The declared defaults, then Start: the border on the object and one set-up. */
    constructor (border: SimpleUIBorder?)
      requires border != null ==> border.Valid()
      modifies if border == null then {} else {border, border.edgeWidths, border.edgeColors}
      ensures Valid() && snapshot.border == border && enabled
      ensures fresh(snapshot) && fresh(snapshot.startColors) && fresh(snapshot.startWidths)
      ensures animationType == ColorChange && endColor == Transparent && endWidth == 1.0
      ensures rotationDirection == Clockwise && animationDuration == 2.0
      ensures border == null ==> !bordersRotated && borderAnimation == None && snapshot.Buffered() == Initial
      ensures border != null ==>
                State() == SetUpAnim(AnimState(Shared(Initial, old(border.Model())), false), ColorChange, border.GetLayout()) &&
                borderAnimation == Some(ColorChange) && border.GetSettings() == old(border.GetSettings())
    {
      animationType, endColor, endWidth := ColorChange, Transparent, 1.0;
      rotationDirection, animationDuration := Clockwise, 2.0;
      bordersRotated, borderAnimation, enabled := false, None, true;
      snapshot := new BorderBehaviour(border);
      new;
      SetUpAnimation();
    }

    method SetUpAnimation()
      requires Sound()
      modifies this`bordersRotated, this`borderAnimation, snapshot`startColorsSet, snapshot`startWidthsSet
      modifies snapshot.startColors, snapshot.startWidths, snapshot.BorderRepr()
      ensures Valid()
      ensures snapshot.border == null ==> (bordersRotated == old(bordersRotated) &&
                borderAnimation == old(borderAnimation) && snapshot.Buffered() == old(snapshot.Buffered()))
      ensures snapshot.border != null ==>
                State() == SetUpAnim(old(State()), animationType, snapshot.border.GetLayout()) &&
                borderAnimation == Some(animationType) &&
                snapshot.border.GetSettings() == old(snapshot.border.GetSettings())
    {
      if snapshot.border == null {
        return;
      }
      ResetToStart();
      match animationType
      case ColorChange =>
        snapshot.StoreStartColors();
        borderAnimation := Some(ColorChange);
      case WidthChange =>
        snapshot.StoreStartWidths();
        borderAnimation := Some(WidthChange);
      case Rotate =>
        bordersRotated := true;
        borderAnimation := Some(Rotate);
    }

    method ResetToStart()
      requires Sound()
      modifies this`bordersRotated, snapshot`startColorsSet, snapshot`startWidthsSet, snapshot.BorderRepr()
      ensures Sound() && !bordersRotated
      ensures snapshot.border == null ==> snapshot.Buffered() == old(snapshot.Buffered())
      ensures snapshot.border != null ==>
                State() == ResetAnim(old(State()), snapshot.border.GetLayout()) &&
                snapshot.border.GetSettings() == old(snapshot.border.GetSettings())
    {
      snapshot.ResetToStart();
      if !bordersRotated {
        return;
      }
      var b := snapshot.border;
      b.view := ZeroOffsets(b.view);
      bordersRotated := false;
    }

    /** A colour frame: every edge takes the colour between the stored first colour and
        `endColor` at `phase`; the buffers are untouched. */
    method AnimationColorChange(phase: real)
      requires Valid() && snapshot.border != null
      modifies snapshot.BorderRepr()
      ensures Valid()
      ensures snapshot.border.Model() ==
                WithAllColors(old(snapshot.border.Model()), LerpColor(snapshot.startColors[0], endColor, phase))
      ensures snapshot.border.GetSettings() == old(snapshot.border.GetSettings())
    {
      var newColor := LerpColor(snapshot.startColors[0], endColor, phase);
      snapshot.border.SetBorderColor(newColor);
    }

    /** A width frame: every edge takes the width between the stored first width and
        `endWidth` at `phase`; the buffers are untouched. */
    method AnimationWidthChange(phase: real)
      requires Valid() && snapshot.border != null
      modifies snapshot.BorderRepr()
      ensures Valid()
      ensures snapshot.border.Model() ==
                WithAllWidths(old(snapshot.border.Model()), snapshot.border.GetLayout(),
                              Lerp(snapshot.startWidths[0], endWidth, phase))
      ensures snapshot.border.GetSettings() == old(snapshot.border.GetSettings())
    {
      var newWidth := Lerp(snapshot.startWidths[0], endWidth, phase);
      snapshot.border.SetBorderWidth(newWidth);
    }

    /** A rotation frame: the four texture offsets move in the rotation pattern. Every
        edge image must be present (the source dereferences all four). */
    method AnimationRotate(newOffset: real)
      requires Valid() && snapshot.border != null
      requires forall i :: 0 <= i < 4 ==> snapshot.border.view.edges[i].Some?
      modifies snapshot.border`view
      ensures Valid()
      ensures snapshot.border.view == ApplyOffsets(old(snapshot.border.view), RotationOffsets(rotationDirection, newOffset))
    {
      var yOffset := Vec2(0.0, -newOffset);
      var xOffset := Vec2(-newOffset, 0.0);
      if rotationDirection == CounterClockwise {
        yOffset := yOffset.Neg();
        xOffset := xOffset.Neg();
      }
      var b := snapshot.border;
      ghost var v0 := b.view;
      b.view := b.view.(edges := b.view.edges[0 := SetOffset(b.view.edges[0], yOffset)]);
      b.view := b.view.(edges := b.view.edges[1 := SetOffset(b.view.edges[1], xOffset)]);
      b.view := b.view.(edges := b.view.edges[2 := SetOffset(b.view.edges[2], yOffset.Neg())]);
      b.view := b.view.(edges := b.view.edges[3 := SetOffset(b.view.edges[3], xOffset.Neg())]);
      assert b.view.edges == ApplyOffsets(v0, RotationOffsets(rotationDirection, newOffset)).edges;
    }

    /** Update: one frame of the animation set up last. */
    method Update(phase: real, newOffset: real)
      requires Valid() && borderAnimation.Some?
      requires borderAnimation.value == Rotate ==> forall i :: 0 <= i < 4 ==> snapshot.border.view.edges[i].Some?
      modifies snapshot.BorderRepr()
      ensures Valid() && snapshot.Buffered() == old(snapshot.Buffered())
      ensures snapshot.border.GetSettings() == old(snapshot.border.GetSettings())
      ensures borderAnimation.value == ColorChange ==> (snapshot.border.Model() ==
                WithAllColors(old(snapshot.border.Model()), LerpColor(snapshot.startColors[0], endColor, phase)))
      ensures borderAnimation.value == WidthChange ==> (snapshot.border.Model() ==
                WithAllWidths(old(snapshot.border.Model()), snapshot.border.GetLayout(),
                              Lerp(snapshot.startWidths[0], endWidth, phase)))
      ensures borderAnimation.value == Rotate ==> (snapshot.border.Model() ==
                old(snapshot.border.Model()).(view := ApplyOffsets(old(snapshot.border.view),
                                                                    RotationOffsets(rotationDirection, newOffset))))
    {
      match borderAnimation.value
      case ColorChange => AnimationColorChange(phase);
      case WidthChange => AnimationWidthChange(phase);
      case Rotate => AnimationRotate(newOffset);
    }

    method OnEnable()
      requires Valid()
      modifies this`bordersRotated, this`borderAnimation, snapshot`startColorsSet, snapshot`startWidthsSet
      modifies snapshot.startColors, snapshot.startWidths, snapshot.BorderRepr()
      ensures Valid()
      ensures snapshot.border == null ==> (bordersRotated == old(bordersRotated) &&
                borderAnimation == old(borderAnimation) && snapshot.Buffered() == old(snapshot.Buffered()))
      ensures snapshot.border != null ==>
                State() == SetUpAnim(old(State()), animationType, snapshot.border.GetLayout()) &&
                borderAnimation == Some(animationType) &&
                snapshot.border.GetSettings() == old(snapshot.border.GetSettings())
    {
      SetUpAnimation();
    }

    method OnDisable()
      requires Valid()
      modifies this`bordersRotated, snapshot`startColorsSet, snapshot`startWidthsSet, snapshot.BorderRepr()
      ensures Valid() && !bordersRotated
      ensures snapshot.border == null ==> snapshot.Buffered() == old(snapshot.Buffered())
      ensures snapshot.border != null ==>
                State() == ResetAnim(old(State()), snapshot.border.GetLayout()) &&
                snapshot.border.GetSettings() == old(snapshot.border.GetSettings())
    {
      ResetToStart();
    }

    /** The AnimationType property setter: store the type and set up again. */
    method SetAnimationType(t: AnimationType)
      requires Valid()
      modifies this`animationType, this`bordersRotated, this`borderAnimation, snapshot`startColorsSet
      modifies snapshot`startWidthsSet, snapshot.startColors, snapshot.startWidths, snapshot.BorderRepr()
      ensures Valid() && animationType == t
      ensures snapshot.border == null ==> (bordersRotated == old(bordersRotated) &&
                borderAnimation == old(borderAnimation) && snapshot.Buffered() == old(snapshot.Buffered()))
      ensures snapshot.border != null ==>
                State() == SetUpAnim(old(State()), t, snapshot.border.GetLayout()) &&
                borderAnimation == Some(t) &&
                snapshot.border.GetSettings() == old(snapshot.border.GetSettings())
    {
      animationType := t;
      SetUpAnimation();
    }

    /** Unity's `enabled` setter: OnEnable or OnDisable run only when the flag changes. */
    method SetEnabled(value: bool)
      requires Valid()
      modifies this`enabled, this`bordersRotated, this`borderAnimation, snapshot`startColorsSet
      modifies snapshot`startWidthsSet, snapshot.startColors, snapshot.startWidths, snapshot.BorderRepr()
      ensures Valid() && enabled == value
      ensures value == old(enabled) ==> (bordersRotated == old(bordersRotated) &&
                borderAnimation == old(borderAnimation) && snapshot.Buffered() == old(snapshot.Buffered()) &&
                (snapshot.border != null ==> snapshot.border.Model() == old(snapshot.border.Model())))
      ensures value && !old(enabled) && snapshot.border != null ==>
                State() == SetUpAnim(old(State()), animationType, snapshot.border.GetLayout()) &&
                borderAnimation == Some(animationType)
      ensures !value && old(enabled) && snapshot.border != null ==>
                State() == ResetAnim(old(State()), snapshot.border.GetLayout()) &&
                borderAnimation == old(borderAnimation)
      ensures snapshot.border != null ==>
                State() == EnableStep(old(State()), old(enabled), value, animationType, snapshot.border.GetLayout())
      ensures snapshot.border != null ==> snapshot.border.GetSettings() == old(snapshot.border.GetSettings())
    {
      if value == enabled {
        return;
      }
      enabled := value;
      if value {
        OnEnable();
      } else {
        OnDisable();
      }
    }
  }
}
