/**
 * MouseoverBorderBehaviour: an override held while the pointer is over the
 * element. Entering stores the live values and applies the override; leaving
 * writes the stored buffer straight back, without consulting or lowering the
 * buffer's "set" flag. The third action switches an animation driver on the
 * same object on and off, adding one first when there is none.
 */
module MouseoverBorder {
  import opened BorderTypes
  import opened BorderGeometry
  import opened SimpleBorder
  import opened BorderBehaviourBase
  import Anim = AnimationBorder

  datatype MouseoverAction = ColorChange | WidthChange | AnimationBehaviour {
    /** The position of the action in the chain SetUpActions builds. */
    function Rank(): (r: nat)
      ensures r <= 2
    {
      match this
      case ColorChange => 0
      case WidthChange => 1
      case AnimationBehaviour => 2
    }
  }

  /** Each action at most once, in the fixed order colour, width, animation. */
  predicate Ordered(chain: seq<MouseoverAction>) {
    forall i, j :: 0 <= i < j < |chain| ==> chain[i].Rank() < chain[j].Rank()
  }

  /** SetUpActions: the chain holds each action that occurs in the configuration, once
      each and in the fixed order. */
  function MouseoverChain(actions: seq<MouseoverAction>): (r: seq<MouseoverAction>)
    ensures ColorChange in r <==> ColorChange in actions
    ensures WidthChange in r <==> WidthChange in actions
    ensures AnimationBehaviour in r <==> AnimationBehaviour in actions
    ensures Ordered(r)
  {
    (if ColorChange in actions then [ColorChange] else []) +
    (if WidthChange in actions then [WidthChange] else []) +
    (if AnimationBehaviour in actions then [AnimationBehaviour] else [])
  }

  /** In an ordered chain the animation action can only come last. */
  lemma AnimationComesLast(chain: seq<MouseoverAction>, i: nat)
    requires Ordered(chain) && i < |chain| && chain[i] == AnimationBehaviour
    ensures i == |chain| - 1
  {
    assert i + 1 < |chain| ==> chain[i].Rank() < chain[i + 1].Rank();
  }

  /** ColorChange(apply): enter stores and paints every edge `color`; exit writes the
      buffer back as it is. */
  function HoverColor(p: Shared, apply: bool, color: Color): (r: Shared)
    requires Ready(p)
    ensures Ready(r)
  {
    if apply then
      var q := StoreColors(p);
      q.(border := WithAllColors(q.border, color))
    else p.(border := WithColors(p.border, p.buffers.colors))
  }

  /** WidthChange(apply), the width analogue. */
  function HoverWidth(p: Shared, apply: bool, width: real, lay: Layout): (r: Shared)
    requires Ready(p)
    ensures Ready(r)
  {
    if apply then
      var q := StoreWidths(p);
      q.(border := WithAllWidths(q.border, lay, width))
    else p.(border := WithWidths(p.border, lay, p.buffers.widths))
  }

  /** The animation driver's configuration, which enter and exit never change. */
  datatype DriverConfig = DriverConfig(endColor: Color, endWidth: real, rotationDirection: Anim.RotationDirection,
                                       animationDuration: real)

  /** The declared defaults of a newly added driver. */
  const DefaultDriverConfig := DriverConfig(Transparent, 1.0, Anim.Clockwise, 2.0)

  /** What the enter/exit can see of the animation driver: its snapshot fields, its
      enabled flag, its animation type, its frame delegate and its configuration. */
  datatype DriverFields = DriverFields(buffers: Buffers, rotated: bool, enabled: bool, animationType: Anim.AnimationType,
                                       borderAnimation: Option<Anim.AnimationType>, config: DriverConfig)

  /** The behaviour's buffers with the border, and the animation driver on the same
      object, or None when there is none yet. */
  datatype HoverState = HoverState(shared: Shared, driver: Option<DriverFields>)

  predicate HoverReady(h: HoverState) {
    Ready(h.shared) &&
    (h.driver.Some? ==> |h.driver.value.buffers.colors| == 4 && |h.driver.value.buffers.widths| == 4 &&
                        h.driver.value.borderAnimation == Some(h.driver.value.animationType))
  }

  /** AddComponent when the object has no driver: a new driver with its defaults, set up
      at once on the current border and enabled. An existing driver is kept. */
  function AddDriver(h: HoverState, lay: Layout): (r: HoverState)
    requires HoverReady(h)
    ensures HoverReady(r) && r.driver.Some?
  {
    match h.driver
    case Some(_) => h
    case None =>
      var a := Anim.SetUpAnim(Anim.AnimState(Shared(Initial, h.shared.border), false), Anim.ColorChange, lay);
      HoverState(h.shared.(border := a.shared.border),
                 Some(DriverFields(a.shared.buffers, a.rotated, true, Anim.ColorChange, Some(Anim.ColorChange),
                                   DefaultDriverConfig)))
  }

  /** The driver's `enabled` set to `apply`: it sets up again when switched on (which
      points its frame delegate at its animation type), resets when switched off, and does
      nothing when the flag does not change. The behaviour's own buffers and the driver's
      configuration are not touched. */
  function SetDriverEnabled(h: HoverState, apply: bool, lay: Layout): (r: HoverState)
    requires HoverReady(h) && h.driver.Some?
    ensures HoverReady(r)
  {
    var f := h.driver.value;
    var a := Anim.EnableStep(Anim.AnimState(Shared(f.buffers, h.shared.border), f.rotated), f.enabled, apply,
                             f.animationType, lay);
    var delegate := if apply && !f.enabled then Some(f.animationType) else f.borderAnimation;
    HoverState(h.shared.(border := a.shared.border),
               Some(DriverFields(a.shared.buffers, a.rotated, apply, f.animationType, delegate, f.config)))
  }

  /** AnimationBehaviour(apply) */
  function DriverStep(h: HoverState, apply: bool, lay: Layout): (r: HoverState)
    requires HoverReady(h)
    ensures HoverReady(r)
  {
    SetDriverEnabled(AddDriver(h, lay), apply, lay)
  }

  /** One action of the chain. */
  function Hover(h: HoverState, act: MouseoverAction, apply: bool, color: Color, width: real, lay: Layout)
    : (r: HoverState)
    requires HoverReady(h)
    ensures HoverReady(r)
  {
    match act
    case ColorChange => h.(shared := HoverColor(h.shared, apply, color))
    case WidthChange => h.(shared := HoverWidth(h.shared, apply, width, lay))
    case AnimationBehaviour => DriverStep(h, apply, lay)
  }

  /** Invoking the chain: its actions in order. */
  function RunHover(h: HoverState, chain: seq<MouseoverAction>, apply: bool, color: Color, width: real, lay: Layout)
    : (r: HoverState)
    requires HoverReady(h)
    ensures HoverReady(r)
    decreases |chain|
  {
    if |chain| == 0 then h
    else Hover(RunHover(h, chain[..|chain| - 1], apply, color, width, lay), chain[|chain| - 1], apply, color, width, lay)
  }

  /** Enter then exit with no other writes: the colours are back, the colour flag is
      recomputed, and the buffer's "set" flag stays raised. */
  lemma EnterExitRestoresColors(p: Shared, color: Color)
    requires Ready(p)
    ensures var r := HoverColor(HoverColor(p, true, color), false, color);
            r.border.colors == p.border.colors && r.buffers.colorsSet &&
            r.border.differentColors == !AllEqual(p.border.colors) &&
            r.border.widths == p.border.widths
  {
    var q := HoverColor(p, true, color);
    FullOverwrite(q.border.colors, p.border.colors);
    DistinctCountOneIffAllEqual(p.border.colors);
  }

  /** The width analogue of EnterExitRestoresColors. */
  lemma EnterExitRestoresWidths(p: Shared, width: real, lay: Layout)
    requires Ready(p)
    ensures var r := HoverWidth(HoverWidth(p, true, width, lay), false, width, lay);
            r.border.widths == p.border.widths && r.buffers.widthsSet &&
            r.border.differentWidths == !AllEqual(p.border.widths) &&
            r.border.colors == p.border.colors
  {
    var q := HoverWidth(p, true, width, lay);
    FullOverwrite(q.border.widths, p.border.widths);
    DistinctCountOneIffAllEqual(p.border.widths);
  }

  /** Exit never touches the buffers; an exit before any enter writes the initial
      all-zero buffers: transparent colours and zero widths. */
  lemma ExitWithoutEnter(s: BorderState, color: Color, width: real, lay: Layout)
    requires WellFormed(s)
    ensures HoverColor(Shared(Initial, s), false, color).buffers == Initial
    ensures HoverWidth(Shared(Initial, s), false, width, lay).buffers == Initial
    ensures HoverColor(Shared(Initial, s), false, color).border.colors == Four(Transparent)
    ensures !HoverColor(Shared(Initial, s), false, color).border.differentColors
    ensures HoverWidth(Shared(Initial, s), false, width, lay).border.widths == Four(0.0)
    ensures !HoverWidth(Shared(Initial, s), false, width, lay).border.differentWidths
  {
    FullOverwrite(s.colors, Four(Transparent));
    FullOverwrite(s.widths, Four(0.0));
    DistinctCountOneIffAllEqual(Four(Transparent));
    DistinctCountOneIffAllEqual(Four(0.0));
  }

  /** Colour and width actions leave the driver alone: a chain without the animation
      action changes nothing but the behaviour's buffers and the border. */
  lemma {:induction false} ColorAndWidthKeepDriver(h: HoverState, chain: seq<MouseoverAction>, apply: bool,
                                                   color: Color, width: real, lay: Layout)
    requires HoverReady(h) && AnimationBehaviour !in chain
    ensures RunHover(h, chain, apply, color, width, lay).driver == h.driver
    decreases |chain|
  {
    if |chain| > 0 {
      var pre := chain[..|chain| - 1];
      assert chain == pre + [chain[|chain| - 1]];
      ColorAndWidthKeepDriver(h, pre, apply, color, width, lay);
      var mid := RunHover(h, pre, apply, color, width, lay);
      assert RunHover(h, chain, apply, color, width, lay) == Hover(mid, chain[|chain| - 1], apply, color, width, lay);
    }
  }

  /** A chain with the animation action always ends with a driver present, its enabled
      flag equal to `apply`, its animation type and configuration kept (ColorChange and the
      declared defaults for an added one), and its frame delegate ready for the next frame. */
  lemma {:induction false} AnimationLeavesDriver(h: HoverState, chain: seq<MouseoverAction>, apply: bool,
                                                 color: Color, width: real, lay: Layout)
    requires HoverReady(h) && AnimationBehaviour in chain
    ensures var r := RunHover(h, chain, apply, color, width, lay);
            r.driver.Some? && r.driver.value.enabled == apply &&
            r.driver.value.animationType == (if h.driver.Some? then h.driver.value.animationType else Anim.ColorChange) &&
            r.driver.value.config == (if h.driver.Some? then h.driver.value.config else DefaultDriverConfig) &&
            r.driver.value.borderAnimation == Some(r.driver.value.animationType)
    decreases |chain|
  {
    var pre := chain[..|chain| - 1];
    assert chain == pre + [chain[|chain| - 1]];
    if chain[|chain| - 1] != AnimationBehaviour {
      AnimationLeavesDriver(h, pre, apply, color, width, lay);
    } else if AnimationBehaviour in pre {
      AnimationLeavesDriver(h, pre, apply, color, width, lay);
    } else {
      ColorAndWidthKeepDriver(h, pre, apply, color, width, lay);
    }
  }

  /** Exit never touches the behaviour's buffers or their "set" flags, whatever the chain. */
  lemma {:induction false} ExitKeepsBuffers(h: HoverState, chain: seq<MouseoverAction>, color: Color, width: real,
                                            lay: Layout)
    requires HoverReady(h)
    ensures RunHover(h, chain, false, color, width, lay).shared.buffers == h.shared.buffers
    decreases |chain|
  {
    if |chain| > 0 {
      ExitKeepsBuffers(h, chain[..|chain| - 1], color, width, lay);
    }
  }

  /** Enter then exit over a chain SetUpActions built without the animation action: the
      colours are back when the chain changes colours, the widths are back when it changes
      widths, each flag is recomputed, and the driver is as it was. */
  lemma EnterExitRestores(h: HoverState, actions: seq<MouseoverAction>, color: Color, width: real, lay: Layout)
    requires HoverReady(h) && AnimationBehaviour !in actions
    ensures var chain := MouseoverChain(actions);
            var r := RunHover(RunHover(h, chain, true, color, width, lay), chain, false, color, width, lay);
            r.driver == h.driver &&
            r.shared.border.colors == h.shared.border.colors &&
            r.shared.border.widths == h.shared.border.widths &&
            (ColorChange in actions ==> r.shared.border.differentColors == !AllEqual(h.shared.border.colors)) &&
            (WidthChange in actions ==> r.shared.border.differentWidths == !AllEqual(h.shared.border.widths))
  {
    var chain := MouseoverChain(actions);
    var enter := RunHover(h, chain, true, color, width, lay);
    ColorAndWidthKeepDriver(h, chain, true, color, width, lay);
    ColorAndWidthKeepDriver(enter, chain, false, color, width, lay);
    DistinctCountOneIffAllEqual(h.shared.border.colors);
    DistinctCountOneIffAllEqual(h.shared.border.widths);
    FullOverwrite(enter.shared.border.colors, h.shared.border.colors);
    FullOverwrite(enter.shared.border.widths, h.shared.border.widths);
    var p := h.shared;
    if ColorChange in actions && WidthChange in actions {
      assert chain == [ColorChange, WidthChange];
      var e := HoverWidth(HoverColor(p, true, color), true, width, lay);
      assert chain[..1] == [ColorChange] && [ColorChange][..0] == [];
      assert enter.shared == e;
      var x := HoverColor(e, false, color);
      FullOverwrite(e.border.colors, p.border.colors);
      assert x.border.colors == p.border.colors;
      FullOverwrite(x.border.widths, p.border.widths);
      assert HoverWidth(x, false, width, lay).border.widths == p.border.widths;
    } else if ColorChange in actions {
      assert chain == [ColorChange];
    } else if WidthChange in actions {
      assert chain == [WidthChange];
    } else {
      assert chain == [];
    }
  }

  class MouseoverBorderBehaviour {
    /** The A_BorderBehaviour part: the border and the snapshot buffers. */
    const snapshot: BorderBehaviour
    var mouseoverActions: seq<MouseoverAction>
    var newColor: Color
    var newWidth: real
    /** The delegate chain, as the actions it calls in order. */
    var borderActions: seq<MouseoverAction>
    /** The animation driver on the same object, if any. */
    var driver: Anim.AnimationBorderBehaviour?

    ghost predicate Valid()
      reads this, snapshot, snapshot.border, driver, if driver == null then null else driver.snapshot
    {
      snapshot.Valid() && snapshot.border != null &&
      (driver != null ==>
         driver.snapshot != snapshot && driver.snapshot.border == snapshot.border && driver.Valid() &&
         DriverRepr() !! Own())
    }

    /** The objects the colour and width actions may write. */
    ghost function Own(): set<object>
      reads this
    {
      {snapshot, snapshot.startColors, snapshot.startWidths} + snapshot.BorderRepr()
    }

    /** The driver's own objects. */
    ghost function DriverRepr(): set<object>
      reads this
    {
      if driver == null then {} else {driver, driver.snapshot, driver.snapshot.startColors, driver.snapshot.startWidths}
    }

    function State(): Shared
      requires snapshot.border != null
      reads this, snapshot, snapshot.startColors, snapshot.startWidths, snapshot.BorderRepr()
    {
      snapshot.Protocol()
    }

    ghost function Driver(): Option<DriverFields>
      reads this, DriverRepr()
    {
      if driver == null then None
      else Some(DriverFields(driver.snapshot.Buffered(), driver.bordersRotated, driver.enabled, driver.animationType,
                             driver.borderAnimation,
                             DriverConfig(driver.endColor, driver.endWidth, driver.rotationDirection,
                                          driver.animationDuration)))
    }

    /** The behaviour and its driver as one value. */
    ghost function Model(): HoverState
      requires snapshot.border != null
      reads this, snapshot, snapshot.startColors, snapshot.startWidths, snapshot.BorderRepr(), DriverRepr()
    {
      HoverState(State(), Driver())
    }

    /** The declared defaults, then Start: the border and any driver on the object, and the chain. */
    constructor (border: SimpleUIBorder, existing: Anim.AnimationBorderBehaviour?)
      requires border.Valid()
      requires existing != null ==> existing.Valid() && existing.snapshot.border == border
      ensures Valid() && snapshot.border == border && driver == existing && fresh(snapshot)
      ensures mouseoverActions == [ColorChange] && borderActions == [ColorChange]
      ensures newColor == Orange && newWidth == 20.0 && snapshot.Buffered() == Initial
    {
      mouseoverActions := [ColorChange];
      newColor, newWidth := Orange, 20.0;
      driver := existing;
      snapshot := new BorderBehaviour(border);
      borderActions := [];
      new;
      SetUpActions();
    }

    method SetUpActions()
      modifies this`borderActions
      ensures borderActions == MouseoverChain(mouseoverActions)
    {
      borderActions := [];
      if ColorChange in mouseoverActions {
        borderActions := borderActions + [ColorChange];
      }
      if WidthChange in mouseoverActions {
        borderActions := borderActions + [WidthChange];
      }
      if AnimationBehaviour in mouseoverActions {
        borderActions := borderActions + [AnimationBehaviour];
      }
    }

    /** The source names this setter SetClickActions. */
    method SetClickActions(actions: seq<MouseoverAction>)
      modifies this`mouseoverActions, this`borderActions
      ensures mouseoverActions == actions && borderActions == MouseoverChain(actions)
    {
      mouseoverActions := actions;
      SetUpActions();
    }

    method OnEnable()
      modifies this`borderActions
      ensures borderActions == MouseoverChain(mouseoverActions)
    {
      SetUpActions();
    }

    method ColorChangeAction(apply: bool)
      requires Valid()
      modifies snapshot`startColorsSet, snapshot.startColors, snapshot.BorderRepr()
      ensures Valid()
      ensures Model() == Hover(old(Model()), ColorChange, apply, newColor, newWidth, snapshot.border.GetLayout())
      ensures snapshot.border.GetSettings() == old(snapshot.border.GetSettings())
    {
      if apply {
        snapshot.StoreStartColors();
        snapshot.border.SetBorderColor(newColor);
      } else {
        var ok := snapshot.border.SetBorderColors(snapshot.startColors[..]);
      }
    }

    method WidthChangeAction(apply: bool)
      requires Valid()
      modifies snapshot`startWidthsSet, snapshot.startWidths, snapshot.BorderRepr()
      ensures Valid()
      ensures Model() == Hover(old(Model()), WidthChange, apply, newColor, newWidth, snapshot.border.GetLayout())
      ensures snapshot.border.GetSettings() == old(snapshot.border.GetSettings())
    {
      if apply {
        snapshot.StoreStartWidths();
        snapshot.border.SetBorderWidth(newWidth);
      } else {
        var ok := snapshot.border.SetBorderWidths(snapshot.startWidths[..]);
      }
    }

    /** `AddComponent<AnimationBorderBehaviour>()` when GetComponent finds none. */
    method AddDriverIfAbsent()
      requires Valid()
      modifies this`driver, snapshot.BorderRepr()
      ensures Valid() && driver != null
      ensures old(driver) == null ==> fresh(DriverRepr())
      ensures old(driver) != null ==> driver == old(driver)
      ensures Model() == AddDriver(old(Model()), snapshot.border.GetLayout())
      ensures snapshot.border.GetSettings() == old(snapshot.border.GetSettings())
    {
      if driver == null {
        driver := new Anim.AnimationBorderBehaviour(snapshot.border);
      }
    }

    /** `animBehaviour.enabled = apply` */
    method EnableDriver(apply: bool)
      requires Valid() && driver != null
      modifies snapshot.BorderRepr(), DriverRepr()
      ensures Valid()
      ensures Model() == SetDriverEnabled(old(Model()), apply, snapshot.border.GetLayout())
      ensures snapshot.border.GetSettings() == old(snapshot.border.GetSettings())
    {
      driver.SetEnabled(apply);
    }

    /** AnimationBehaviour(apply): add a driver when there is none, then set its enabled flag. */
    method AnimationBehaviourAction(apply: bool)
      requires Valid()
      modifies this`driver, snapshot.BorderRepr(), DriverRepr()
      ensures Valid() && driver != null
      ensures old(driver) == null ==> fresh(DriverRepr())
      ensures old(driver) != null ==> driver == old(driver)
      ensures Model() == DriverStep(old(Model()), apply, snapshot.border.GetLayout())
      ensures snapshot.border.GetSettings() == old(snapshot.border.GetSettings())
    {
      AddDriverIfAbsent();
      EnableDriver(apply);
    }

    /** One action of the chain. */
    method Act(apply: bool, act: MouseoverAction)
      requires Valid()
      modifies this`driver, snapshot`startColorsSet, snapshot`startWidthsSet
      modifies snapshot.startColors, snapshot.startWidths, snapshot.BorderRepr(), DriverRepr()
      ensures Valid()
      ensures old(driver) == null && driver != null ==> fresh(DriverRepr())
      ensures old(driver) != null ==> driver == old(driver)
      ensures Model() == Hover(old(Model()), act, apply, newColor, newWidth, snapshot.border.GetLayout())
      ensures snapshot.border.GetSettings() == old(snapshot.border.GetSettings())
    {
      match act
      case ColorChange => ColorChangeAction(apply);
      case WidthChange => WidthChangeAction(apply);
      case AnimationBehaviour => AnimationBehaviourAction(apply);
    }

    /** `borderActions(apply)`: the actions of the chain in order. */
    method InvokeActions(apply: bool)
      requires Valid()
      modifies this`driver, snapshot`startColorsSet, snapshot`startWidthsSet
      modifies snapshot.startColors, snapshot.startWidths, snapshot.BorderRepr(), DriverRepr()
      ensures Valid()
      ensures Model() == RunHover(old(Model()), borderActions, apply, newColor, newWidth, snapshot.border.GetLayout())
      ensures snapshot.border.GetSettings() == old(snapshot.border.GetSettings())
      ensures old(driver) != null ==> driver == old(driver)
    {
      ghost var lay := snapshot.border.GetLayout();
      for i := 0 to |borderActions|
        invariant Valid() && snapshot.border.GetLayout() == lay
        invariant snapshot.border.GetSettings() == old(snapshot.border.GetSettings())
        invariant Model() == RunHover(old(Model()), borderActions[..i], apply, newColor, newWidth, lay)
        invariant old(driver) == null && driver != null ==> fresh(DriverRepr())
        invariant old(driver) != null ==> driver == old(driver)
      {
        assert borderActions[..i + 1][..i] == borderActions[..i];
        Act(apply, borderActions[i]);
      }
      assert borderActions[..|borderActions|] == borderActions;
    }

    /** Entering runs the chain with `apply` set; the source calls the delegate unguarded,
        so the chain must not be empty. */
    method OnPointerEnter()
      requires Valid() && |borderActions| > 0
      modifies this`driver, snapshot`startColorsSet, snapshot`startWidthsSet
      modifies snapshot.startColors, snapshot.startWidths, snapshot.BorderRepr(), DriverRepr()
      ensures Valid()
      ensures Model() == RunHover(old(Model()), borderActions, true, newColor, newWidth, snapshot.border.GetLayout())
      ensures snapshot.border.GetSettings() == old(snapshot.border.GetSettings())
      ensures driver != null ==> driver.borderAnimation == Some(driver.animationType)
    {
      InvokeActions(true);
    }

    /** Leaving runs the chain with `apply` cleared. */
    method OnPointerExit()
      requires Valid() && |borderActions| > 0
      modifies this`driver, snapshot`startColorsSet, snapshot`startWidthsSet
      modifies snapshot.startColors, snapshot.startWidths, snapshot.BorderRepr(), DriverRepr()
      ensures Valid()
      ensures Model() == RunHover(old(Model()), borderActions, false, newColor, newWidth, snapshot.border.GetLayout())
      ensures snapshot.border.GetSettings() == old(snapshot.border.GetSettings())
    {
      InvokeActions(false);
    }
  }
}
