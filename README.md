# PieLineTextLayer placement model

A Dafny model of the line-and-text label layer of the PieCharts library
(`PieLineTextLayer`). For every pie slice whose entrance animation ends,
the layer does the following:

- it computes a bent leader line p1 -> p2 -> p3 from the slice edge;
- it hangs a title label and a value label on p3, on the slice's side of
  the chart;
- it checks the new labels against the labels already placed;
- it clears the settings' `useLineMarker` flag on a collision;
- it adds a marker dot at p1 while that flag is still set;
- it records the slice.

Selecting a slice moves its labels and its line along the slice's
mid-angle. Clearing the layer detaches everything stored and empties the map.

The project has three modules:

- `Geometry` (geometry.dfy) covers points and frames, the truncating angle
  remainder, the left/right side test, the third point, the label and marker
  frames, and frame overlap.
- `Placement` (placement.dfy) holds the pure specification:
  - the settings value and its defaults;
  - the per-slice record (line layer, title label, value label);
  - a log of the calls made on the chart surface and the animator
    (`Event`: a view added, animated or removed);
  - `Scan`, the outcome of the collision loop;
  - the state transitions `AddItemsSpec`, `ClearSpec` and `OnSelectedSpec`,
    with the lemmas about them.
- `LineTextLayer` (layer.dfy) holds the class `PieLineTextLayer`. Its
  fields are `settings`, `sliceViews` and the call log. Each method is
  proved to produce exactly the state its specification function
  describes. The collision loop keeps the source's `continue` and `break`.

The host's `calculatePosition(angle, p, offset)` is a function-valued
parameter, so nothing is assumed about it. The measured label sizes are
inputs. Iterating the dictionary is modelled by `Enumerate`, which yields
some order that visits every key exactly once. The methods return that
order as a ghost result, so every claim holds for whichever order the
dictionary uses.

Three consequences of the code are easy to miss:

- **Marker flag.** `useLineMarker` defaults to true. A collision sets it to
  false, and the dot is drawn only while it is true. After the first
  collision, no later slice gets a dot either.
- **The first slice.** On an empty map the loop body never runs, so the
  first slice's line and labels are only animated and recorded, never added
  to the chart (`AddItemsOnEmptyLayer`).
- **Iteration order.** The map is a Swift dictionary, so it is visited in an
  unspecified order. Whether the flag survives can depend on that order
  (`FlagDependsOnIterationOrder`).

## Model

| member | source | states |
|---|---|---|
| Geometry.Recentered | Sources/PieCharts/Layer/Impl/LineText/PieLineTextLayer.swift:147-148 | Assigning a label's centre keeps its size and puts its centre exactly at the new point |
| Geometry.AngleRemainder | Sources/PieCharts/Layer/Impl/LineText/PieLineTextLayer.swift:52 | The truncating remainder by a full turn keeps the angle's sign, lies strictly within one turn of zero, and differs from the angle by a whole number of turns |
| Geometry.RemainderOfNormalizedAngle | Sources/PieCharts/Layer/Impl/LineText/PieLineTextLayer.swift:52 | An angle already in [0, 2pi) is its own remainder |
| Geometry.SideOfNormalizedAngle | Sources/PieCharts/Layer/Impl/LineText/PieLineTextLayer.swift:52-53 | On [0, 2pi), a slice is on the right side iff its mid-angle is at most pi/2 or above 3pi/2 (both directions) |
| Geometry.IsRightSide | Sources/PieCharts/Layer/Impl/LineText/PieLineTextLayer.swift:52-53 | The side test. A negative remainder is never on the right side. On a non-negative remainder, the left side is exactly the half turn (pi/2, 3pi/2] |
| Geometry.SideOfNonNegativeAngleIsPeriodic | Sources/PieCharts/Layer/Impl/LineText/PieLineTextLayer.swift:52-53 | For non-negative angles, adding a full turn changes neither the remainder nor the side |
| Geometry.SideOfNegativeAngleIsNotPeriodic | Sources/PieCharts/Layer/Impl/LineText/PieLineTextLayer.swift:52-53 | -pi/4 is classified left while the same direction -pi/4 + 2pi is classified right |
| Geometry.SidesOfAxisAngles | Sources/PieCharts/Layer/Impl/LineText/PieLineTextLayer.swift:52-53 | Mid-angle 0 is on the right side, mid-angle pi on the left side |
| Geometry.ThirdPoint | Sources/PieCharts/Layer/Impl/LineText/PieLineTextLayer.swift:55 | p3 is level with p2 and lies segment2Length to its right on the right side and to its left on the left side |
| Geometry.LabelFrame | Sources/PieCharts/Layer/Impl/LineText/PieLineTextLayer.swift:137 | A label keeps its measured size. On the right side its left edge is labelXOffset right of p3; on the left side its right edge is labelXOffset left of p3. Its vertical centre is p3.y + labelYOffset for the title and p3.y - labelYOffset for the value |
| Geometry.LabelLiesOnItsSide | Sources/PieCharts/Layer/Impl/LineText/PieLineTextLayer.swift:137 | With a non-negative x offset a label never crosses p3 towards the chart; the title and value centres are 2 * labelYOffset apart |
| Geometry.MarkerFrame | Sources/PieCharts/Layer/Impl/LineText/PieLineTextLayer.swift:81-85 | The dot has the configured marker size and is centred on p1 |
| Geometry.Intersects | Sources/PieCharts/Layer/Impl/LineText/PieLineTextLayer.swift:62 | The frame overlap test of the collision loop: on both axes each frame starts strictly before the other ends, so frames that only touch along an edge do not collide |
| Geometry.IntersectsIffCommonInteriorPoint | Sources/PieCharts/Layer/Impl/LineText/PieLineTextLayer.swift:62 | Frames overlap if some point lies strictly inside both. For frames of positive width and height, that is the only way they overlap |
| Placement.EntriesVisitEveryRecord | Sources/PieCharts/Layer/Impl/LineText/PieLineTextLayer.swift:61 | Iterating the map visits as many records as it has keys: every stored record, and nothing else |
| Placement.PlaceSlice | Sources/PieCharts/Layer/Impl/LineText/PieLineTextLayer.swift:57-59 | A new record has a title labelled Title and a value labelled Value, and its line layer at the origin |
| Placement.PlacedGeometry | Sources/PieCharts/Layer/Impl/LineText/PieLineTextLayer.swift:49-59 | p1 and p2 lie on the mid-angle ray at outerRadius + chartOffset and at outerRadius + segment1Length. The second segment leaves p2 horizontally outward. Each label hangs on p3 with its measured size and the side-dependent origin |
| Placement.Scan | Sources/PieCharts/Layer/Impl/LineText/PieLineTextLayer.swift:61-78 | The loop clears the flag iff the first record it visits is not clear of both labels. The title is added at most once per record, and at least once when the line is placed |
| Placement.ScanPlacesIffSomeRecordClear | Sources/PieCharts/Layer/Impl/LineText/PieLineTextLayer.swift:61-78 | The line and value label are added iff some existing record is clear of both candidate labels |
| Placement.ScanStopsAtFirstClear | Sources/PieCharts/Layer/Impl/LineText/PieLineTextLayer.swift:72-77 | The loop stops at the first record clear of both labels: later records do not affect the outcome, and the flag is cleared iff some record came before it |
| Placement.ScanWhenEveryRecordCollides | Sources/PieCharts/Layer/Impl/LineText/PieLineTextLayer.swift:61-70 | When every record collides, nothing is placed and the title is added once per record whose title frame is clear |
| Placement.FlagDependsOnIterationOrder | Sources/PieCharts/Layer/Impl/LineText/PieLineTextLayer.swift:61-70 | Two iteration orders of the same records keep the flag in one case and clear it in the other |
| Placement.LoopAddsNoDot | Sources/PieCharts/Layer/Impl/LineText/PieLineTextLayer.swift:61-78 | The collision loop never adds a marker dot |
| Placement.MarkerOnlyWithFlag | Sources/PieCharts/Layer/Impl/LineText/PieLineTextLayer.swift:80-94 | After the loop a dot is added iff the flag is set. It is then the only dot, placed right after the loop's calls, with the marker frame. The value and title animations come last |
| Placement.LoopEvents | Sources/PieCharts/Layer/Impl/LineText/PieLineTextLayer.swift:61-78 | The calls the loop makes: the title added once per visited record whose title frame is clear, then, if the loop placed, the line added and animated and the value added (:66, :73-75) |
| Placement.MarkerEvents | Sources/PieCharts/Layer/Impl/LineText/PieLineTextLayer.swift:80-90 | The dot with the marker frame is added when the flag is set after the loop, and nothing otherwise |
| Placement.LabelAnimations | Sources/PieCharts/Layer/Impl/LineText/PieLineTextLayer.swift:93-94 | The value label is animated, then the title label |
| Placement.AddItemsSpec | Sources/PieCharts/Layer/Impl/LineText/PieLineTextLayer.swift:46-97 | The state after addItems. An already-placed slice changes nothing. Otherwise the record is built, Scan decides the flag and the loop's calls, the dot is added while the flag is set, the labels are animated and the slice is recorded. Its properties are the AddItems lemmas below |
| Placement.AddItemsIsIdempotent | Sources/PieCharts/Layer/Impl/LineText/PieLineTextLayer.swift:47 | Adding a slice that is already placed changes nothing, so adding the same slice twice equals adding it once |
| Placement.AddItemsRecordsSlice | Sources/PieCharts/Layer/Impl/LineText/PieLineTextLayer.swift:96 | A new slice is mapped to its placement record; the other keys and records are unchanged |
| Placement.AddItemsLatchesFlag | Sources/PieCharts/Layer/Impl/LineText/PieLineTextLayer.swift:61-70 | Only the marker flag among the settings can change, only from true to false, and never on an empty map |
| Placement.AddItemsFlagDecidedByFirstVisited | Sources/PieCharts/Layer/Impl/LineText/PieLineTextLayer.swift:61-70 | The flag survives iff it was set and the first record visited is clear of both labels, or there is no record |
| Placement.AddItemsDotIffFlag | Sources/PieCharts/Layer/Impl/LineText/PieLineTextLayer.swift:80-94 | For a new slice the log is extended, never rewritten. A dot is added iff the flag is still set after the loop, and it is centred on p1; the two label animations end the call |
| Placement.AddItemsOnEmptyLayer | Sources/PieCharts/Layer/Impl/LineText/PieLineTextLayer.swift:46-97 | On an empty map the settings are unchanged and the slice is recorded. The only calls are the dot (while the flag is set) and the two label animations: no line or label is added to the chart |
| Placement.Removals | Sources/PieCharts/Layer/Impl/LineText/PieLineTextLayer.swift:156-158 | One record's removals: its line layer, then its title, then its value |
| Placement.RemovalEvents | Sources/PieCharts/Layer/Impl/LineText/PieLineTextLayer.swift:155-159 | The removals for the first n visited records, one record after another |
| Placement.ClearSpec | Sources/PieCharts/Layer/Impl/LineText/PieLineTextLayer.swift:154-161 | The state after clear: settings kept, map emptied, and every visited record's removals appended to the log. Its properties are RemovalEventsContents and ClearRemovesStoredViews |
| Placement.RemovalEventsContents | Sources/PieCharts/Layer/Impl/LineText/PieLineTextLayer.swift:155-159 | Clearing makes three removals per record, its line, title and value in that order and in the records' order, and never removes a dot |
| Placement.ClearRemovesStoredViews | Sources/PieCharts/Layer/Impl/LineText/PieLineTextLayer.swift:154-161 | After clear the map is empty, the settings (and a cleared flag) stay, and the line and both labels of every stored record have been removed. Every call logged is a removal, and none removes a dot |
| Placement.ClearThenAdd | Sources/PieCharts/Layer/Impl/LineText/PieLineTextLayer.swift:160 | After clear, adding any slice, even one placed before, records it afresh with the settings as they were |
| Placement.SelectionOffset | Sources/PieCharts/Layer/Impl/LineText/PieLineTextLayer.swift:145 | Selecting moves a slice outward by its selected offset; deselecting moves it back by the same amount |
| Placement.Moved | Sources/PieCharts/Layer/Impl/LineText/PieLineTextLayer.swift:145-151 | Both labels keep their roles and sizes, and each centre moves to the position computed from the old centre by the signed offset. The line keeps its points, and its layer position moves the same way |
| Placement.OnSelectedSpec | Sources/PieCharts/Layer/Impl/LineText/PieLineTextLayer.swift:142-152 | The state after onSelected. An unplaced slice changes nothing; otherwise only that slice's record is moved by the signed offset. Its properties are OnSelectedTouchesOnlyItsSlice and SelectThenDeselectRestores |
| Placement.OnSelectedTouchesOnlyItsSlice | Sources/PieCharts/Layer/Impl/LineText/PieLineTextLayer.swift:142-152 | Selecting an unplaced slice changes nothing. Otherwise only that slice's record changes; keys, settings, log and other records stay |
| Placement.SelectThenDeselectRestores | Sources/PieCharts/Layer/Impl/LineText/PieLineTextLayer.swift:145-151 | When moving by an offset and back returns every point, selecting then deselecting a slice restores the whole layer state |
| LineTextLayer.Enumerate | Sources/PieCharts/Layer/Impl/LineText/PieLineTextLayer.swift:61 | Iterating the dictionary visits every key exactly once, in some order |
| LineTextLayer.PieLineTextLayer.constructor | Sources/PieCharts/Layer/Impl/LineText/PieLineTextLayer.swift:34-40 | A new layer has the default settings (segment lengths 15, line width 1, chart offset 5, label offsets 5 and 0, marker on, 10x10 marker, border 1), an empty map and no calls |
| LineTextLayer.PieLineTextLayer.AddItems | Sources/PieCharts/Layer/Impl/LineText/PieLineTextLayer.swift:46-97 | The new state is exactly AddItemsSpec of the old state under the dictionary order it used |
| LineTextLayer.PieLineTextLayer.CheckPlaced | Sources/PieCharts/Layer/Impl/LineText/PieLineTextLayer.swift:61-78 | The loop's outcome is Scan of the visited records. The map is unchanged, the flag is cleared iff a collision occurred, and the calls logged are the loop's title, line and value additions |
| LineTextLayer.PieLineTextLayer.OnEndAnimation | Sources/PieCharts/Layer/Impl/LineText/PieLineTextLayer.swift:42-44 | Ending a slice's animation is exactly addItems on it |
| LineTextLayer.PieLineTextLayer.OnSelected | Sources/PieCharts/Layer/Impl/LineText/PieLineTextLayer.swift:142-152 | The new state is exactly OnSelectedSpec: no change for an unplaced slice, otherwise its record is moved by the signed selection offset |
| LineTextLayer.PieLineTextLayer.Clear | Sources/PieCharts/Layer/Impl/LineText/PieLineTextLayer.swift:154-161 | The new state is exactly ClearSpec of the old state under the dictionary order it used |

## Left out

- Colours, fonts, label styling, the line's stroke colour and the marker's
  colours and corner radius are left out (`PieLineTextLayer.swift:14`, `:22-25`,
  `:86-89`, `:107-108`). They do not affect placement. `lineWidth` and
  `lineMarkerBorderSize` are kept as plain settings values.
- Text generators and `labelGenerator` (`createLabel`, `:114-134`) and
  `sizeToFit` are left out. The measured title and value sizes are inputs.
  `PieChartLabelSettings` is not part of this model.
- The bezier path of the line layer is represented by its three points.
  The layer's position is the origin of a fresh shape layer.
- `calculatePosition` on the slice view is a parameter; its geometry is not
  part of this model.
- Animation timing is not modelled: the animator and `UIView.animate` are
  only logged or reduced to their end state. `onSelected` is modelled by the
  positions it assigns, not by how they are animated.
- The `print` diagnostic in `onSelected` is left out.
- The weak `chart` reference is taken to be present. With no chart, the
  adds would be no-ops.
- `CGFloat` arithmetic is modelled with exact reals, and pi is a 16-digit
  decimal, so floating-point rounding is not modelled.
- `CGRect.intersects` is modelled as strict comparison of edges on both axes.
  Frames with negative sizes are not standardised first.
- `PieSlice` identity is structural equality of the model's `Slice` value.
  The dictionary's order is arbitrary: nothing is assumed about it beyond
  visiting every key once.
- Marker dots are not kept in the map, so `clear` never removes them. The
  model logs this (`ClearRemovesStoredViews`) rather than changing it.
- `CheckPlaced` is a method of its own. It holds the collision loop of
  `addItems`; the source writes that loop inline.
