/**
 * A_BorderBehaviour: the snapshot/restore protocol every behaviour inherits.
 * A behaviour owns one colour buffer and one width buffer, each with a "set"
 * flag. Storing copies the border's live values into the buffer and raises the
 * flag; resetting writes the buffer back through the border's array setter, and
 * lowers the flag, only when the flag is raised.
 */
module BorderBehaviourBase {
  import opened BorderTypes
  import opened BorderGeometry
  import opened SimpleBorder

  /** One behaviour's buffers and their "set" flags. */
  datatype Buffers = Buffers(colorsSet: bool, colors: seq<Color>, widthsSet: bool, widths: seq<real>)

  /** A new behaviour's buffers: nothing stored, all-zero contents. */
  const Initial: Buffers := Buffers(false, Four(Transparent), false, Four(0.0))

  /** A behaviour's buffers together with the state of the border it acts on. */
  datatype Shared = Shared(buffers: Buffers, border: BorderState)

  predicate Ready(p: Shared) {
    |p.buffers.colors| == 4 && |p.buffers.widths| == 4 && WellFormed(p.border)
  }

  /** StoreStartColors */
  function StoreColors(p: Shared): (r: Shared)
    requires Ready(p)
    ensures Ready(r)
  {
    p.(buffers := p.buffers.(colorsSet := true, colors := p.border.colors))
  }

  /** StoreStartWidths */
  function StoreWidths(p: Shared): (r: Shared)
    requires Ready(p)
    ensures Ready(r)
  {
    p.(buffers := p.buffers.(widthsSet := true, widths := p.border.widths))
  }

  /** ResetColorsToStart */
  function ResetColors(p: Shared): (r: Shared)
    requires Ready(p)
    ensures Ready(r)
  {
    if p.buffers.colorsSet then Shared(p.buffers.(colorsSet := false), WithColors(p.border, p.buffers.colors))
    else p
  }

  /** ResetWidthsToStart; `lay` is the border's layout, which the geometry refresh reads. */
  function ResetWidths(p: Shared, lay: Layout): (r: Shared)
    requires Ready(p)
    ensures Ready(r)
  {
    if p.buffers.widthsSet then Shared(p.buffers.(widthsSet := false), WithWidths(p.border, lay, p.buffers.widths))
    else p
  }

  /** ResetToStart: colours first, then widths. */
  function ResetBoth(p: Shared, lay: Layout): (r: Shared)
    requires Ready(p)
    ensures Ready(r)
  {
    ResetWidths(ResetColors(p), lay)
  }

  /** Writing a full four-entry buffer through the array setter replaces all four slots. */
  lemma FullOverwrite<T>(prev: seq<T>, next: seq<T>)
    requires |prev| == 4 && |next| == 4
    ensures Overwrite(prev, next, 4) == next
  {
  }

  /** Store, then any writes to the border, then reset: the colours are the stored ones
      again, the flag is lowered, the colour flag is recomputed, and the widths are those
      the writes left. */
  lemma StoreResetRestoresColors(p: Shared, later: BorderState)
    requires Ready(p) && WellFormed(later)
    ensures var q := ResetColors(Shared(StoreColors(p).buffers, later));
            q.border.colors == p.border.colors && !q.buffers.colorsSet &&
            q.border.differentColors == !AllEqual(q.border.colors) &&
            q.border.widths == later.widths && q.border.differentWidths == later.differentWidths
  {
    FullOverwrite(later.colors, p.border.colors);
    DistinctCountOneIffAllEqual(p.border.colors);
  }

  /** The width analogue of StoreResetRestoresColors. */
  lemma StoreResetRestoresWidths(p: Shared, later: BorderState, lay: Layout)
    requires Ready(p) && WellFormed(later)
    ensures var q := ResetWidths(Shared(StoreWidths(p).buffers, later), lay);
            q.border.widths == p.border.widths && !q.buffers.widthsSet &&
            q.border.differentWidths == !AllEqual(q.border.widths) &&
            q.border.colors == later.colors && q.border.differentColors == later.differentColors
  {
    FullOverwrite(later.widths, p.border.widths);
    DistinctCountOneIffAllEqual(p.border.widths);
  }

  /** A reset with the flag lowered does nothing, so a second reset adds nothing to the first. */
  lemma ResetIdempotent(p: Shared, lay: Layout)
    requires Ready(p)
    ensures !p.buffers.colorsSet ==> ResetColors(p) == p
    ensures !p.buffers.widthsSet ==> ResetWidths(p, lay) == p
    ensures ResetColors(ResetColors(p)) == ResetColors(p)
    ensures ResetWidths(ResetWidths(p, lay), lay) == ResetWidths(p, lay)
    ensures ResetBoth(ResetBoth(p, lay), lay) == ResetBoth(p, lay)
  {
  }

  /** A second store before any reset replaces the buffer with the live values, an
      unrestored override included. */
  lemma StoreOverwritesBuffer(p: Shared, later: BorderState)
    requires Ready(p) && WellFormed(later)
    ensures StoreColors(Shared(StoreColors(p).buffers, later)).buffers.colors == later.colors
    ensures StoreWidths(Shared(StoreWidths(p).buffers, later)).buffers.widths == later.widths
  {
  }

  /** ResetToStart lowers both flags and leaves a slice that was never stored as it was. */
  lemma ResetBothLeavesUnstored(p: Shared, lay: Layout)
    requires Ready(p)
    ensures !ResetBoth(p, lay).buffers.colorsSet && !ResetBoth(p, lay).buffers.widthsSet
    ensures !p.buffers.colorsSet ==>
              ResetBoth(p, lay).border.colors == p.border.colors &&
              ResetBoth(p, lay).border.differentColors == p.border.differentColors
    ensures !p.buffers.widthsSet ==>
              ResetBoth(p, lay).border.widths == p.border.widths &&
              ResetBoth(p, lay).border.differentWidths == p.border.differentWidths
  {
  }

  class BorderBehaviour {
    /** The border on the same object; null when there is none. */
    const border: SimpleUIBorder?
    var startColorsSet: bool
    const startColors: array<Color>
    var startWidthsSet: bool
    const startWidths: array<real>

    ghost predicate Valid()
      reads this, border
    {
      startColors.Length == 4 && startWidths.Length == 4 &&
      (border != null ==> border.Valid() && startColors != border.edgeColors && startWidths != border.edgeWidths) &&
      (startColorsSet || startWidthsSet ==> border != null)
    }

    /** The border objects a reset may write. */
    ghost function BorderRepr(): set<object> {
      if border == null then {} else {border, border.edgeWidths, border.edgeColors}
    }

    function Buffered(): Buffers
      reads this, startColors, startWidths
    {
      Buffers(startColorsSet, startColors[..], startWidthsSet, startWidths[..])
    }

    function Protocol(): Shared
      requires border != null
      reads this, startColors, startWidths, border, border.edgeWidths, border.edgeColors
    {
      Shared(Buffered(), border.Model())
    }

    /** Start: the border found on the object, and empty buffers. */
    constructor (border: SimpleUIBorder?)
      requires border != null ==> border.Valid()
      ensures Valid() && this.border == border && Buffered() == Initial
      ensures fresh(startColors) && fresh(startWidths)
    {
      this.border := border;
      startColorsSet, startWidthsSet := false, false;
      startColors := new Color[4](_ => Transparent);
      startWidths := new real[4](_ => 0.0);
      new;
      assert startColors[..] == Four(Transparent);
      assert startWidths[..] == Four(0.0);
    }

    method StoreStartColors()
      requires Valid() && border != null
      modifies this`startColorsSet, startColors
      ensures Valid()
      ensures Protocol() == StoreColors(old(Protocol()))
    {
      startColorsSet := true;
      var live := border.GetBorderColors();
      forall i | 0 <= i < 4 {
        startColors[i] := live[i];
      }
    }

    method StoreStartWidths()
      requires Valid() && border != null
      modifies this`startWidthsSet, startWidths
      ensures Valid()
      ensures Protocol() == StoreWidths(old(Protocol()))
    {
      startWidthsSet := true;
      var live := border.GetBorderWidths();
      forall i | 0 <= i < 4 {
        startWidths[i] := live[i];
      }
    }

    method ResetColorsToStart()
      requires Valid()
      modifies this`startColorsSet, BorderRepr()
      ensures Valid()
      ensures border != null ==> Protocol() == ResetColors(old(Protocol()))
      ensures border != null ==> border.GetSettings() == old(border.GetSettings())
      ensures border == null ==> startColorsSet == old(startColorsSet)
    {
      if startColorsSet {
        var ok := border.SetBorderColors(startColors[..]);
        startColorsSet := false;
      }
    }

    method ResetWidthsToStart()
      requires Valid()
      modifies this`startWidthsSet, BorderRepr()
      ensures Valid()
      ensures border != null ==> Protocol() == ResetWidths(old(Protocol()), border.GetLayout())
      ensures border != null ==> border.GetSettings() == old(border.GetSettings())
      ensures border == null ==> startWidthsSet == old(startWidthsSet)
    {
      if startWidthsSet {
        var ok := border.SetBorderWidths(startWidths[..]);
        startWidthsSet := false;
      }
    }

    method ResetToStart()
      requires Valid()
      modifies this`startColorsSet, this`startWidthsSet, BorderRepr()
      ensures Valid()
      ensures border != null ==> Protocol() == ResetBoth(old(Protocol()), border.GetLayout())
      ensures border != null ==> border.GetSettings() == old(border.GetSettings())
      ensures border == null ==> Buffered() == old(Buffered())
    {
      ResetColorsToStart();
      ResetWidthsToStart();
    }
  }
}
