/**
 * ClickBorderBehaviour: a click toggles an override on and off. Each configured
 * action (colour, width) keeps its own "applied" flag; the first actuation stores
 * the live values and applies the override, the next one restores the stored
 * values. Only the pointer event named by the actuation type fires the actions.
 */
module ClickBorder {
  import opened BorderTypes
  import opened BorderGeometry
  import opened SimpleBorder
  import opened BorderBehaviourBase

  datatype ClickAction = ColorChange | WidthChange {
    /** The position of the action in the chain SetUpActions builds. */
    function Rank(): (r: nat) {
      match this
      case ColorChange => 0
      case WidthChange => 1
    }
  }

  datatype ActuationType = PointerDown | PointerUp

  /** SetUpActions: the chain holds each action that occurs in the configuration, once
      each and in the fixed order colour, width, however the configuration repeats or
      orders them. */
  function ClickChain(actions: seq<ClickAction>): (r: seq<ClickAction>)
    ensures ColorChange in r <==> ColorChange in actions
    ensures WidthChange in r <==> WidthChange in actions
    ensures forall i, j :: 0 <= i < j < |r| ==> r[i].Rank() < r[j].Rank()
  {
    (if ColorChange in actions then [ColorChange] else []) +
    (if WidthChange in actions then [WidthChange] else [])
  }

  /** The behaviour's state as a value: its buffers with the border, and the two flags. */
  datatype ClickState = ClickState(shared: Shared, colorApplied: bool, widthApplied: bool)

  /** ColorChange: undo when applied, otherwise store and paint every edge `color`. */
  function ColorToggle(c: ClickState, color: Color): (r: ClickState)
    requires Ready(c.shared)
    ensures Ready(r.shared)
  {
    if c.colorApplied then c.(shared := ResetColors(c.shared), colorApplied := false)
    else
      var q := StoreColors(c.shared);
      c.(shared := q.(border := WithAllColors(q.border, color)), colorApplied := true)
  }

  /** WidthChange: undo when applied, otherwise store and give every edge `width`. */
  function WidthToggle(c: ClickState, width: real, lay: Layout): (r: ClickState)
    requires Ready(c.shared)
    ensures Ready(r.shared)
  {
    if c.widthApplied then c.(shared := ResetWidths(c.shared, lay), widthApplied := false)
    else
      var q := StoreWidths(c.shared);
      c.(shared := q.(border := WithAllWidths(q.border, lay, width)), widthApplied := true)
  }

  function Act(c: ClickState, a: ClickAction, color: Color, width: real, lay: Layout): (r: ClickState)
    requires Ready(c.shared)
    ensures Ready(r.shared)
  {
    match a
    case ColorChange => ColorToggle(c, color)
    case WidthChange => WidthToggle(c, width, lay)
  }

  /** Invoking the chain: its actions in order. */
  function RunActions(c: ClickState, chain: seq<ClickAction>, color: Color, width: real, lay: Layout): (r: ClickState)
    requires Ready(c.shared)
    ensures Ready(r.shared)
    decreases |chain|
  {
    if |chain| == 0 then c
    else Act(RunActions(c, chain[..|chain| - 1], color, width, lay), chain[|chain| - 1], color, width, lay)
  }

  /** Two actuations with no other writes in between: the colours are back to what they
      were before the first, the flag is lowered again, and the colour flag is recomputed. */
  lemma ColorToggleTwiceRestores(c: ClickState, color: Color)
    requires Ready(c.shared) && !c.colorApplied
    ensures var r := ColorToggle(ColorToggle(c, color), color);
            r.shared.border.colors == c.shared.border.colors && !r.colorApplied &&
            r.shared.border.differentColors == !AllEqual(c.shared.border.colors) &&
            r.widthApplied == c.widthApplied && r.shared.border.widths == c.shared.border.widths
  {
    var q := StoreColors(c.shared);
    StoreResetRestoresColors(c.shared, WithAllColors(q.border, color));
    ColorSettersFlags(q.border, color, [], Left, color);
  }

  /** The width analogue of ColorToggleTwiceRestores. */
  lemma WidthToggleTwiceRestores(c: ClickState, width: real, lay: Layout)
    requires Ready(c.shared) && !c.widthApplied
    ensures var r := WidthToggle(WidthToggle(c, width, lay), width, lay);
            r.shared.border.widths == c.shared.border.widths && !r.widthApplied &&
            r.shared.border.differentWidths == !AllEqual(c.shared.border.widths) &&
            r.colorApplied == c.colorApplied && r.shared.border.colors == c.shared.border.colors
  {
    var q := StoreWidths(c.shared);
    StoreResetRestoresWidths(c.shared, WithAllWidths(q.border, lay, width), lay);
    WidthSettersFlags(q.border, lay, width, [], Left, width);
  }

  /** Uniform width 4 and a new width of 0: the first click gives 0 everywhere, the second 4. */
  lemma WidthToggleExample(c: ClickState, lay: Layout)
    requires Ready(c.shared) && !c.widthApplied && c.shared.border.widths == Four(4.0)
    ensures WidthToggle(c, 0.0, lay).shared.border.widths == Four(0.0)
    ensures WidthToggle(c, 0.0, lay).widthApplied
    ensures WidthToggle(WidthToggle(c, 0.0, lay), 0.0, lay).shared.border.widths == Four(4.0)
    ensures !WidthToggle(WidthToggle(c, 0.0, lay), 0.0, lay).shared.border.differentWidths
  {
    WidthToggleTwiceRestores(c, 0.0, lay);
  }

  /** Each toggle touches only its own flag, its own buffer and its own slice of the border. */
  lemma TogglesIndependent(c: ClickState, color: Color, width: real, lay: Layout)
    requires Ready(c.shared)
    ensures var r := ColorToggle(c, color);
            r.widthApplied == c.widthApplied && r.shared.buffers.widthsSet == c.shared.buffers.widthsSet &&
            r.shared.buffers.widths == c.shared.buffers.widths &&
            r.shared.border.widths == c.shared.border.widths &&
            r.shared.border.differentWidths == c.shared.border.differentWidths
    ensures var r := WidthToggle(c, width, lay);
            r.colorApplied == c.colorApplied && r.shared.buffers.colorsSet == c.shared.buffers.colorsSet &&
            r.shared.buffers.colors == c.shared.buffers.colors &&
            r.shared.border.colors == c.shared.border.colors &&
            r.shared.border.differentColors == c.shared.border.differentColors
  {
  }

  class ClickBorderBehaviour {
    /** The A_BorderBehaviour part: the border and the snapshot buffers. */
    const snapshot: BorderBehaviour
    var clickActions: seq<ClickAction>
    var newColor: Color
    var newWidth: real
    var actuationType: ActuationType
    /** The delegate chain, as the actions it calls in order. */
    var borderActions: seq<ClickAction>
    var colorApplied: bool
    var widthApplied: bool

    ghost predicate Valid()
      reads this, snapshot, snapshot.border
    {
      snapshot.Valid() && snapshot.border != null
    }

    function State(): ClickState
      requires snapshot.border != null
      reads this, snapshot, snapshot.startColors, snapshot.startWidths, snapshot.BorderRepr()
    {
      ClickState(snapshot.Protocol(), colorApplied, widthApplied)
    }

    /** The declared defaults, then Start: the border on the object and the chain. */
    constructor (border: SimpleUIBorder)
      requires border.Valid()
      ensures Valid() && snapshot.border == border && fresh(snapshot)
      ensures clickActions == [ColorChange] && borderActions == [ColorChange]
      ensures newColor == Orange && newWidth == 0.0 && actuationType == PointerDown
      ensures !colorApplied && !widthApplied && snapshot.Buffered() == Initial
    {
      clickActions := [ColorChange];
      newColor, newWidth, actuationType := Orange, 0.0, PointerDown;
      colorApplied, widthApplied := false, false;
      snapshot := new BorderBehaviour(border);
      borderActions := [];
      new;
      SetUpActions();
    }

    method SetUpActions()
      modifies this`borderActions
      ensures borderActions == ClickChain(clickActions)
    {
      borderActions := [];
      if ColorChange in clickActions {
        borderActions := borderActions + [ColorChange];
      }
      if WidthChange in clickActions {
        borderActions := borderActions + [WidthChange];
      }
    }

    method SetClickActions(actions: seq<ClickAction>)
      modifies this`clickActions, this`borderActions
      ensures clickActions == actions && borderActions == ClickChain(actions)
    {
      clickActions := actions;
      SetUpActions();
    }

    method OnEnable()
      modifies this`borderActions
      ensures borderActions == ClickChain(clickActions)
    {
      SetUpActions();
    }

    method ColorChangeAction()
      requires Valid()
      modifies this`colorApplied, snapshot`startColorsSet, snapshot.startColors, snapshot.BorderRepr()
      ensures Valid()
      ensures State() == ColorToggle(old(State()), newColor)
      ensures snapshot.border.GetSettings() == old(snapshot.border.GetSettings())
    {
      if colorApplied {
        snapshot.ResetColorsToStart();
        colorApplied := false;
        return;
      }
      snapshot.StoreStartColors();
      snapshot.border.SetBorderColor(newColor);
      colorApplied := true;
    }

    method WidthChangeAction()
      requires Valid()
      modifies this`widthApplied, snapshot`startWidthsSet, snapshot.startWidths, snapshot.BorderRepr()
      ensures Valid()
      ensures State() == WidthToggle(old(State()), newWidth, snapshot.border.GetLayout())
      ensures snapshot.border.GetSettings() == old(snapshot.border.GetSettings())
    {
      if widthApplied {
        snapshot.ResetWidthsToStart();
        widthApplied := false;
        return;
      }
      snapshot.StoreStartWidths();
      snapshot.border.SetBorderWidth(newWidth);
      widthApplied := true;
    }

    /** `borderActions?.Invoke()`: an empty chain does nothing. */
    method InvokeActions()
      requires Valid()
      modifies this`colorApplied, this`widthApplied, snapshot`startColorsSet, snapshot`startWidthsSet
      modifies snapshot.startColors, snapshot.startWidths, snapshot.BorderRepr()
      ensures Valid()
      ensures State() == RunActions(old(State()), borderActions, newColor, newWidth, snapshot.border.GetLayout())
      ensures snapshot.border.GetSettings() == old(snapshot.border.GetSettings())
    {
      for i := 0 to |borderActions|
        invariant Valid()
        invariant State() == RunActions(old(State()), borderActions[..i], newColor, newWidth, snapshot.border.GetLayout())
        invariant snapshot.border.GetSettings() == old(snapshot.border.GetSettings())
      {
        assert borderActions[..i + 1][..i] == borderActions[..i];
        match borderActions[i]
        case ColorChange => ColorChangeAction();
        case WidthChange => WidthChangeAction();
      }
      assert borderActions[..|borderActions|] == borderActions;
    }

    /** The click is forwarded to the element underneath (not modelled); the actions
        fire only when the actuation type is PointerDown. */
    method OnPointerDown()
      requires Valid()
      modifies this`colorApplied, this`widthApplied, snapshot`startColorsSet, snapshot`startWidthsSet
      modifies snapshot.startColors, snapshot.startWidths, snapshot.BorderRepr()
      ensures Valid()
      ensures actuationType == PointerDown ==>
                State() == RunActions(old(State()), borderActions, newColor, newWidth, snapshot.border.GetLayout())
      ensures actuationType != PointerDown ==> State() == old(State())
      ensures snapshot.border.GetSettings() == old(snapshot.border.GetSettings())
    {
      if actuationType != PointerDown {
        return;
      }
      InvokeActions();
    }

    /** As OnPointerDown, for the PointerUp actuation type. */
    method OnPointerUp()
      requires Valid()
      modifies this`colorApplied, this`widthApplied, snapshot`startColorsSet, snapshot`startWidthsSet
      modifies snapshot.startColors, snapshot.startWidths, snapshot.BorderRepr()
      ensures Valid()
      ensures actuationType == PointerUp ==>
                State() == RunActions(old(State()), borderActions, newColor, newWidth, snapshot.border.GetLayout())
      ensures actuationType != PointerUp ==> State() == old(State())
      ensures snapshot.border.GetSettings() == old(snapshot.border.GetSettings())
    {
      if actuationType != PointerUp {
        return;
      }
      InvokeActions();
    }
  }
}
