# UIBorder in Dafny

A model of the UIBorder Unity package. It covers the `SimpleUIBorder` component and the three behaviours built on `A_BorderBehaviour`.

`SimpleUIBorder` draws a four-edge border around a UI element. Its state is:
- four edge widths and four edge colours, each edge indexed by `E_BorderEdge` (Left 0, Top 1, Right 2, Bottom 3);
- the alignment, the corner style and the line style;
- two cached "different edge" flags.

Its setters write these and push the result to the four edge images and the border rectangle.

The behaviours build on that:
- **A_BorderBehaviour** keeps one colour buffer and one width buffer per behaviour. Each buffer has a "set" flag.
- **ClickBorderBehaviour** toggles an override on a pointer event.
- **MouseoverBorderBehaviour** holds an override while the pointer is over the element. Its third action switches an animation driver on and off.
- **AnimationBorderBehaviour** animates the colour, the width or the texture offsets frame by frame.

## Modules

| module | file | models |
|---|---|---|
| `BorderTypes` | `border_types.dfy` | edges, vectors, colours, the style enums, and the `Distinct().Count()` test |
| `BorderGeometry` | `border_geometry.dfy` | the pure geometry of `UpdateBorderWidth`: alignment offsets, corner joints, edge rectangles |
| `SimpleBorder` | `simple_border.dfy` | the border's state as a value (`BorderState`, `View`), the setters as functions on it, and the class `SimpleUIBorder` |
| `BorderBehaviourBase` | `border_behaviour.dfy` | the snapshot/restore protocol as functions on `Shared`, and the class `BorderBehaviour` |
| `ClickBorder` | `click_border.dfy` | the click toggles, and the class `ClickBorderBehaviour` |
| `MouseoverBorder` | `mouseover_border.dfy` | enter/exit with an optional animation driver (`HoverState`), and the class `MouseoverBorderBehaviour` |
| `AnimationBorder` | `animation_border.dfy` | frame values, rotation offsets, set-up and reset as a state machine, and the class `AnimationBorderBehaviour` |

Each class keeps the source's fields.
- The arrays are Dafny `array`s.
- The delegate chains are `seq`s of the actions they call, in order.
- `A_BorderBehaviour` is inherited in the source. Here it is a `BorderBehaviour` object held in each behaviour's `snapshot` field.

Every state-changing method relates its new state to a specification function of the old state. Its `ensures` says so, for example `Model() == WithAllWidths(old(Model()), GetLayout(), w)`. The properties the code promises are then proved as lemmas about those functions.

The rendering side is kept as the values last assigned to it: a `View` holding one optional `EdgeImage` per edge, plus the border rectangle's offsets.
- A missing image is `None`.
- Every update of an edge whose image is missing is a no-op on the view. The width and colour arrays are still written.

Time enters only through method parameters:
- `phase` stands for `Mathf.PingPong(Time.time / (duration / 2), 1)`;
- `newOffset` stands for `Time.time / duration`.

### Behaviour of the code worth knowing

- **Stale corner joints.** The all-edges and array setters refresh edge i right after writing slot i. So Left is refreshed while Top and Bottom still hold their old widths. Under NoOverlap corners, Left then keeps joint offsets derived from the old widths, and nothing refreshes it afterwards (`StaleJointAfterUniformWidth`).
- **Buffers per behaviour.** The colour and width buffers belong to each behaviour instance, not to the border. Two behaviours on one border each keep their own snapshot.
- **All-edges colour setter.** `SetBorderColor(Color32)` always sets `differentEdgeColors` to false. It does not recompute the flag.
- **Mouseover exit.** Leaving writes the colour or width buffer back through the array setter. It neither checks nor lowers the buffer's "set" flag. An exit before any enter therefore writes the initial all-zero buffers (`ExitWithoutEnter`).
- **Arrays with more than four entries.** The array setters write and refresh four slots, then fault on the fifth. The different-edge flag is then not recomputed (`OversizedWidthsLeaveStaleFlag`). The model returns `ok == false` with exactly that state.
- **Setter name.** The mouseover behaviour's action setter is named `SetClickActions` in the source, and keeps that name here.
- **Child order.** The comments in `SimpleUIBorder.Start` mislabel the Top and Right children. The model indexes the edges by `E_BorderEdge`, which is what every array access in the code uses.

## Model

| member | source | states |
|---|---|---|
| BorderTypes.DistinctCountOneIffAllEqual | SimpleUIBorder.cs:404-428 | a non-empty array has exactly one distinct entry iff all its entries are equal, so the source's `Distinct().Count() == 1` test means "uniform" |
| BorderGeometry.JointOffsets | SimpleUIBorder.cs:294-345 | only the joint offsets along an edge's own length can be non-zero: top/bottom for Left and Right, left/right for Top and Bottom |
| BorderGeometry.EdgeGeometry | SimpleUIBorder.cs:347-373 | an edge's size equals the span between its offsets; its thickness is its own width; it sits flush against its side (Left x in [0,w], Right [-w,0], Top y in [-w,0], Bottom [0,w]); along its length it is bounded by the joints |
| BorderGeometry.OutsideExample | SimpleUIBorder.cs:278-281 | Outside alignment with four 4-pixel edges grows the rectangle by 4 on every side |
| BorderGeometry.AlignmentOffsets | SimpleUIBorder.cs:276-292 | Outside grows the rectangle by Left/Bottom on the min side and Right/Top on the max side; Inside leaves it unchanged; Centre grows it by exactly half of Outside |
| BorderGeometry.OverlapJoints | SimpleUIBorder.cs:305-345 | with Overlap corners every edge runs the full length: no joint offset on any edge |
| BorderGeometry.NoOverlapJoints | SimpleUIBorder.cs:305-345 | with NoOverlap corners Left and Right are shortened by the Top and Bottom widths, and Top and Bottom keep their full length |
| BorderGeometry.ExtendedInsetOpposite | SimpleUIBorder.cs:315-345 | Extended by d and Inset by d give exactly opposite joint offsets, so opposite along-edge offsets with the same thickness |
| BorderGeometry.OppositeEdgesMirror | SimpleUIBorder.cs:347-373 | with equal opposite widths, Right's thickness interval is Left's negated, and Top's is Bottom's negated |
| SimpleBorder.WidthSettersFlags | SimpleUIBorder.cs:121-167 | after each width setter that completes, `differentEdgeWidths` is true exactly when the widths differ (false after the all-edges setter); the setters keep a consistent state consistent and never touch the colours |
| SimpleBorder.ColorSettersFlags | SimpleUIBorder.cs:181-227 | the colour analogue: the flag is exact after each completed colour setter, consistency is preserved, the widths are untouched |
| SimpleBorder.WidthSettersSlots | SimpleUIBorder.cs:139-167 | the single-edge setter writes only its own slot; the array setter writes slots 0..k-1 for k <= 4 entries; five or more write four slots and leave the flag as it was |
| SimpleBorder.ColorSettersSlots | SimpleUIBorder.cs:199-227 | the colour analogue of which slots each setter writes |
| SimpleBorder.OversizedWidthsLeaveStaleFlag | SimpleUIBorder.cs:139-151 | a five-entry width array leaves widths 1,2,3,4 with the flag still saying "uniform", so the cached flag is inconsistent |
| SimpleBorder.ColorLoopEffect | SimpleUIBorder.cs:183-188 | the colour loop paints exactly the present images of slots 0..k-1 with the new colours and never moves the border rectangle |
| SimpleBorder.RefreshEdgeWidthAt | SimpleUIBorder.cs:269-373 | one width refresh changes only the refreshed edge and, if its image is present, the border rectangle |
| SimpleBorder.WidthLoopEffect | SimpleUIBorder.cs:123-128 | the width loop gives edge i the geometry of the widths as they stood right after slot i was written; the border rectangle is unchanged when no image among slots 0..k-1 is present, and otherwise comes from the last present edge j, computed from the widths right after slot j was written |
| SimpleBorder.WidthLoopOuter | SimpleUIBorder.cs:123-128 | if j is the last slot among 0..k-1 whose image is present, the border rectangle after the loop is the alignment's offsets for the widths right after slot j was written |
| SimpleBorder.UpdatesSkipAbsentImage | SimpleUIBorder.cs:257-263 | with an edge's image missing, its colour, width and style updates leave the view as it was (guards at lines 259, 271 and 378) |
| SimpleBorder.ColorSettersKeepAttachment | SimpleUIBorder.cs:181-227 | no colour setter attaches or detaches an image or moves the border rectangle |
| SimpleBorder.StaleJointAfterUniformWidth | SimpleUIBorder.cs:121-133 | with NoOverlap corners, setting all widths from 4 to 10 leaves Left shortened by the old width 4, not the new 10 |
| SimpleBorder.RefreshStepAt | SimpleUIBorder.cs:435-440 | one step of UpdateBorder's loop renders that edge from the current state and changes no other edge |
| SimpleBorder.RefreshLoopRenders | SimpleUIBorder.cs:433-441 | UpdateBorder leaves every present image with the state's colour, geometry and style, and the border rectangle at the alignment's offsets once any image is present |
| SimpleBorder.StyleSelection | SimpleUIBorder.cs:376-402 | Solid clears sprite and material; Dashed picks the vertical sprite for Left/Right and the horizontal one for Top/Bottom, the edge's own material and the pixels-per-unit multiplier; Custom changes nothing; colour and geometry are never touched |
| SimpleBorder.SimpleUIBorder.constructor | SimpleUIBorder.cs:12-95 | the declared defaults (width 4, black, Outside, Overlap, Solid, multiplier 1), flags consistent, then one UpdateBorder |
| SimpleBorder.SimpleUIBorder.GetBorderWidths | SimpleUIBorder.cs:172-175 | the four current widths, in edge order |
| SimpleBorder.SimpleUIBorder.GetBorderColors | SimpleUIBorder.cs:232-235 | the four current colours, in edge order |
| SimpleBorder.SimpleUIBorder.UpdateBorderColor | SimpleUIBorder.cs:257-263 | the edge's image, if present, takes the edge's stored colour |
| SimpleBorder.SimpleUIBorder.UpdateBorderWidth | SimpleUIBorder.cs:269-374 | if the image is present, the edge rectangle and the border rectangle are recomputed from the current widths and layout |
| SimpleBorder.SimpleUIBorder.UpdateBorderStyle | SimpleUIBorder.cs:376-402 | the edge's image, if present, is restyled by the line style |
| SimpleBorder.SimpleUIBorder.UpdateDifferentEdgeWidths | SimpleUIBorder.cs:404-415 | the flag becomes "not all widths equal" |
| SimpleBorder.SimpleUIBorder.UpdateDifferentEdgeColors | SimpleUIBorder.cs:417-428 | the flag becomes "not all colours equal" |
| SimpleBorder.SimpleUIBorder.SetBorderWidth | SimpleUIBorder.cs:121-133 | the new state is `WithAllWidths` of the old: slot by slot write and refresh, then the flag lowered |
| SimpleBorder.SimpleUIBorder.SetBorderWidths | SimpleUIBorder.cs:139-151 | the new state is `WithWidths` of the old; `ok` is false exactly when the array has more than four entries |
| SimpleBorder.SimpleUIBorder.SetEdgeWidth | SimpleUIBorder.cs:158-167 | the new state is `WithEdgeWidth` of the old |
| SimpleBorder.SimpleUIBorder.SetBorderColor | SimpleUIBorder.cs:181-193 | the new state is `WithAllColors` of the old |
| SimpleBorder.SimpleUIBorder.SetBorderColors | SimpleUIBorder.cs:199-211 | the new state is `WithColors` of the old; `ok` is false exactly for more than four entries |
| SimpleBorder.SimpleUIBorder.SetEdgeColor | SimpleUIBorder.cs:218-227 | the new state is `WithEdgeColor` of the old |
| SimpleBorder.SimpleUIBorder.UpdateBorder | SimpleUIBorder.cs:433-441 | the view becomes `RefreshLoop` of the old view over all four edges |
| BorderBehaviourBase.StoreResetRestoresColors | A_BorderBehaviour.cs:23-43 | store, any writes, reset: the colours are the stored ones again, the flag is lowered, the colour flag is recomputed, and the widths are what the writes left |
| BorderBehaviourBase.StoreResetRestoresWidths | A_BorderBehaviour.cs:29-53 | the width analogue of the store/reset round trip |
| BorderBehaviourBase.ResetIdempotent | A_BorderBehaviour.cs:35-59 | a reset with the flag lowered does nothing; resetting twice equals resetting once, for colours, widths and both |
| BorderBehaviourBase.StoreOverwritesBuffer | A_BorderBehaviour.cs:23-33 | a second store before any reset replaces the buffer with the live values, an unrestored override included |
| BorderBehaviourBase.ResetBothLeavesUnstored | A_BorderBehaviour.cs:55-59 | ResetToStart lowers both flags and leaves a slice that was never stored as it was |
| BorderBehaviourBase.BorderBehaviour.constructor | A_BorderBehaviour.cs:7-21 | the border found on the object, nothing stored, all-zero buffers |
| BorderBehaviourBase.BorderBehaviour.StoreStartColors | A_BorderBehaviour.cs:23-27 | the buffer takes the live colours and its flag is raised |
| BorderBehaviourBase.BorderBehaviour.StoreStartWidths | A_BorderBehaviour.cs:29-33 | the buffer takes the live widths and its flag is raised |
| BorderBehaviourBase.BorderBehaviour.ResetColorsToStart | A_BorderBehaviour.cs:35-43 | only when the flag is raised: the stored colours are written through the array setter and the flag is lowered |
| BorderBehaviourBase.BorderBehaviour.ResetWidthsToStart | A_BorderBehaviour.cs:45-53 | the width analogue |
| BorderBehaviourBase.BorderBehaviour.ResetToStart | A_BorderBehaviour.cs:55-59 | colours reset first, then widths |
| ClickBorder.ClickChain | ClickBorderBehaviour.cs:77-88 | the chain holds each configured action exactly when the configuration names it, at most once, colour before width |
| ClickBorder.ColorToggleTwiceRestores | ClickBorderBehaviour.cs:90-103 | two colour actuations give back the original colours, lower the flag again, recompute the colour flag, and leave the widths alone |
| ClickBorder.WidthToggleTwiceRestores | ClickBorderBehaviour.cs:105-118 | the width analogue of the double actuation |
| ClickBorder.WidthToggleExample | ClickBorderBehaviour.cs:105-118 | with width 4 and the default new width 0, the first click gives 0 everywhere, the second gives 4 again and a uniform flag |
| ClickBorder.TogglesIndependent | ClickBorderBehaviour.cs:90-118 | each toggle touches only its own flag, its own buffer and its own slice of the border |
| ClickBorder.ClickBorderBehaviour.constructor | ClickBorderBehaviour.cs:12-24 | the defaults (colour action only, orange, width 0, PointerDown) and the chain built at start |
| ClickBorder.ClickBorderBehaviour.SetUpActions | ClickBorderBehaviour.cs:77-88 | the chain becomes `ClickChain` of the configuration |
| ClickBorder.ClickBorderBehaviour.SetClickActions | ClickBorderBehaviour.cs:41-45 | stores the configuration and rebuilds the chain |
| ClickBorder.ClickBorderBehaviour.OnEnable | ClickBorderBehaviour.cs:66-69 | rebuilds the chain |
| ClickBorder.ClickBorderBehaviour.ColorChangeAction | ClickBorderBehaviour.cs:90-103 | the state becomes `ColorToggle` of the old; the layout is untouched |
| ClickBorder.ClickBorderBehaviour.WidthChangeAction | ClickBorderBehaviour.cs:105-118 | the state becomes `WidthToggle` of the old |
| ClickBorder.ClickBorderBehaviour.InvokeActions | ClickBorderBehaviour.cs:128-131 | the state becomes the chain's actions applied in order |
| ClickBorder.ClickBorderBehaviour.OnPointerDown | ClickBorderBehaviour.cs:120-132 | with actuation type PointerDown the chain runs; otherwise nothing changes |
| ClickBorder.ClickBorderBehaviour.OnPointerUp | ClickBorderBehaviour.cs:134-146 | with actuation type PointerUp the chain runs; otherwise nothing changes |
| MouseoverBorder.MouseoverChain | MouseoverBorderBehaviour.cs:49-70 | the chain holds each configured action exactly when the configuration names it, at most once, in the order colour, width, animation |
| MouseoverBorder.AnimationComesLast | MouseoverBorderBehaviour.cs:49-70 | in a built chain the animation action can only be the last one |
| MouseoverBorder.EnterExitRestoresColors | MouseoverBorderBehaviour.cs:82-97 | enter then exit gives back the colours and recomputes the colour flag, while the buffer's flag stays raised |
| MouseoverBorder.EnterExitRestoresWidths | MouseoverBorderBehaviour.cs:99-114 | the width analogue |
| MouseoverBorder.ExitWithoutEnter | MouseoverBorderBehaviour.cs:91-96 | exit never touches the buffers; an exit before any enter paints every edge transparent and gives every edge width 0 |
| MouseoverBorder.ColorAndWidthKeepDriver | MouseoverBorderBehaviour.cs:82-114 | a chain without the animation action leaves the animation driver as it was |
| MouseoverBorder.AnimationLeavesDriver | MouseoverBorderBehaviour.cs:116-136 | a chain with the animation action always ends with a driver present, enabled exactly when entering, keeping its animation type and configuration (ColorChange and the declared defaults for a newly added one), with its frame delegate set to its animation type |
| MouseoverBorder.ExitKeepsBuffers | MouseoverBorderBehaviour.cs:77-114 | exit never changes the behaviour's buffers or their flags, whatever the chain |
| MouseoverBorder.EnterExitRestores | MouseoverBorderBehaviour.cs:49-114 | enter then exit over a built chain without the animation action restores colours and widths, recomputes each touched flag, and keeps the driver |
| MouseoverBorder.MouseoverBorderBehaviour.constructor | MouseoverBorderBehaviour.cs:10-47 | the defaults (colour action only, orange, width 20), the driver found on the object, and the chain built at start |
| MouseoverBorder.MouseoverBorderBehaviour.SetUpActions | MouseoverBorderBehaviour.cs:49-70 | the chain becomes `MouseoverChain` of the configuration |
| MouseoverBorder.MouseoverBorderBehaviour.SetClickActions | MouseoverBorderBehaviour.cs:32-36 | stores the configuration and rebuilds the chain |
| MouseoverBorder.MouseoverBorderBehaviour.OnEnable | MouseoverBorderBehaviour.cs:38-41 | rebuilds the chain |
| MouseoverBorder.MouseoverBorderBehaviour.ColorChangeAction | MouseoverBorderBehaviour.cs:82-97 | the state becomes `Hover` with the colour action: store and paint on enter, write the buffer back on exit |
| MouseoverBorder.MouseoverBorderBehaviour.WidthChangeAction | MouseoverBorderBehaviour.cs:99-114 | the width analogue |
| MouseoverBorder.MouseoverBorderBehaviour.AddDriverIfAbsent | MouseoverBorderBehaviour.cs:118-124 | a fresh driver with the declared defaults (end colour transparent, end width 1, clockwise, duration 2, type ColorChange) is added and set up, its frame delegate set to ColorChange, when there is none; an existing one is kept |
| MouseoverBorder.MouseoverBorderBehaviour.EnableDriver | MouseoverBorderBehaviour.cs:126-135 | the driver's enabled flag becomes `apply`, running its set-up (which points its frame delegate at its animation type) or its reset when the flag changes; its configuration is kept |
| MouseoverBorder.MouseoverBorderBehaviour.AnimationBehaviourAction | MouseoverBorderBehaviour.cs:116-136 | the state becomes `DriverStep` of the old: add a driver if absent, then set its enabled flag |
| MouseoverBorder.MouseoverBorderBehaviour.Act | MouseoverBorderBehaviour.cs:82-136 | one action of the chain, as `Hover` of the old state |
| MouseoverBorder.MouseoverBorderBehaviour.InvokeActions | MouseoverBorderBehaviour.cs:72-80 | the state becomes the chain's actions applied in order (`RunHover`) |
| MouseoverBorder.MouseoverBorderBehaviour.OnPointerEnter | MouseoverBorderBehaviour.cs:72-75 | the chain runs with `apply` set; a driver left on the object has its frame delegate set, so its `Update` can run |
| MouseoverBorder.MouseoverBorderBehaviour.OnPointerExit | MouseoverBorderBehaviour.cs:77-80 | the chain runs with `apply` cleared |
| AnimationBorder.LerpBetween | AnimationBorderBehaviour.cs:125-132 | a width frame lies between the start width and the end width, and equals the start at phase 0 and the end at phase 1 |
| AnimationBorder.LerpColorBetween | AnimationBorderBehaviour.cs:116-123 | every channel of a colour frame lies between the start and end channels, with the same end points |
| AnimationBorder.RotationPattern | AnimationBorderBehaviour.cs:134-153 | the offsets for edges 0..3 are (0,-t), (-t,0) and their negations; opposite edges scroll in opposite directions; counter-clockwise is clockwise negated |
| AnimationBorder.OffsetsOnlyMoveTextures | AnimationBorderBehaviour.cs:105-111 | moving offsets changes only the offsets of present images, and the reset after any rotation leaves every offset neutral |
| AnimationBorder.EnableDisableRestores | AnimationBorderBehaviour.cs:155-165 | enabling then disabling, with any frames between, gives back the animated slice as set-up found it, with nothing stored or rotated |
| AnimationBorder.ResetAnimClears | AnimationBorderBehaviour.cs:99-114 | after a reset nothing is stored or rotated; after a rotation every present image is at the neutral offset; without a rotation every image stays present or absent as before and keeps its texture offset; a second reset changes nothing |
| AnimationBorder.SetUpStoresSlice | AnimationBorderBehaviour.cs:72-97 | set-up stores exactly the slice the chosen animation writes, from the border as the reset left it, and marks a rotation for Rotate only |
| AnimationBorder.SetUpFramesResetRestores | AnimationBorderBehaviour.cs:72-114 | set up, any frames, reset: the animated slice is back to what set-up stored; the other slice is as the frames left it |
| AnimationBorder.AnimationBorderBehaviour.constructor | AnimationBorderBehaviour.cs:7-65 | the declared defaults, then one set-up when a border is present |
| AnimationBorder.AnimationBorderBehaviour.SetUpAnimation | AnimationBorderBehaviour.cs:72-97 | without a border nothing changes; otherwise the state becomes `SetUpAnim` of the old and the frame delegate is the chosen animation |
| AnimationBorder.AnimationBorderBehaviour.ResetToStart | AnimationBorderBehaviour.cs:99-114 | the state becomes `ResetAnim` of the old |
| AnimationBorder.AnimationBorderBehaviour.AnimationColorChange | AnimationBorderBehaviour.cs:116-123 | every edge takes the colour between the stored first colour and the end colour at `phase` |
| AnimationBorder.AnimationBorderBehaviour.AnimationWidthChange | AnimationBorderBehaviour.cs:125-132 | every edge takes the width between the stored first width and the end width at `phase` |
| AnimationBorder.AnimationBorderBehaviour.AnimationRotate | AnimationBorderBehaviour.cs:134-153 | the four texture offsets move in the rotation pattern and nothing else changes |
| AnimationBorder.AnimationBorderBehaviour.Update | AnimationBorderBehaviour.cs:67-70 | one frame of the animation set up last; the buffers are untouched |
| AnimationBorder.AnimationBorderBehaviour.OnEnable | AnimationBorderBehaviour.cs:155-159 | sets up again |
| AnimationBorder.AnimationBorderBehaviour.OnDisable | AnimationBorderBehaviour.cs:161-165 | resets |
| AnimationBorder.AnimationBorderBehaviour.SetAnimationType | AnimationBorderBehaviour.cs:23 | stores the type and sets up again for it |
| AnimationBorder.AnimationBorderBehaviour.SetEnabled | AnimationBorderBehaviour.cs:155-165 | the enabled flag becomes `value`; OnEnable or OnDisable runs only when it changes (`EnableStep`) |

## Left out

- Editor scripts, `OnValidate` and the delayed callbacks: they are inspector tooling. While a different-edge flag is off, the editor also forces the slots to be uniform: it copies width slot 0 into slots 1-3, and colour slot 0 into slots 1-3 before calling `SetBorderColor`. That forcing is not modelled.
- Unity lookups (`Resources.Load`, `GetComponent`, the child search in `Start`). They become constructor parameters: the edge images, the border rectangle, the assets, the border, and an existing animation driver.
- The raycast forwarding in `OnPointerDown`/`OnPointerUp` and the `print` there are not modelled. The model assumes the raycast finds at least three hits. With fewer, the source's `raycastResults[2]` throws before the actuation check, and no action runs; the model's handlers always run the chain.
- `Time.time`, `Mathf.PingPong` and the rounding of `Color` to `Color32`: frames take `phase` and `newOffset` as parameters, and colours are four real channels.
- Material sharing between images: each image's texture offset is modelled on that image.
- `GetBorderEdges`, `GetBorderEdgeImages` and the `GetClickActions` getters: they return read-only views of fields the model exposes directly.
- Plain property setters (`NewColor`, `EndWidth`, …) are modelled as field assignment; only `AnimationType`, whose setter sets up again, is a method.
- 32-bit floats: widths, distances, the pixels-per-unit multiplier, the geometry and `Mathf.Lerp` are computed on `float` in the source and on `real` here. Rounding is not modelled, so `LerpBetween` holds only over the reals (in single precision a lerp can land just outside its end points).
- `GetBorderWidths`/`GetBorderColors` return a read-only collection that wraps the live array; the model returns a copy (`seq`) of it. Every caller in the behaviours copies the collection at once, so later writes are not seen through it, but the aliasing itself is not modelled.
- Unity's RectTransform layout: the model keeps the offsets and size assigned, and `EdgeGeometry` states that the size equals the span between the offsets.
- MouseoverBorder.MouseoverBorderBehaviour.AddDriverIfAbsent: an added driver is set up at once on the current border. In Unity its set-up waits for its `Start`, and its first `OnEnable` runs before it has a border.
- ClickBorder.ClickBorderBehaviour.constructor and MouseoverBorder.MouseoverBorderBehaviour.constructor require a border on the object. Without one, the source faults on the first action.
- AnimationBorder.AnimationBorderBehaviour.AnimationRotate requires all four edge images present, because the source dereferences all four.
- AnimationBorder.AnimationBorderBehaviour.Update requires a set-up animation, because the source calls the frame delegate unguarded.
- MouseoverBorder.MouseoverBorderBehaviour.OnPointerEnter and OnPointerExit require a non-empty chain, because the source calls the delegate unguarded.
- SimpleBorder.SimpleUIBorder.SetBorderWidths and SetBorderColors model the fault on a fifth entry as `ok == false` with the state the fault leaves. Callers continue; the exception's propagation is not modelled.
