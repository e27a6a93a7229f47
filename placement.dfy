/**
 The placement rules of the line-and-text label layer as pure functions on
 values: the layer's settings, the per-slice placement record, the log of
 calls the layer makes on the chart surface and the animator, the collision
 loop of `addItems`, and the state transitions of `addItems`, `clear` and
 `onSelected`. The class in module LineTextLayer is proved against these.
 */
module Placement {
  import opened Geometry

  /** The numeric fields and the marker flag of the layer settings (colours and label styling are left out). */
  datatype Settings = Settings(
    segment1Length: real,
    segment2Length: real,
    lineWidth: real,
    chartOffset: real,
    labelXOffset: real,
    labelYOffset: real,
    useLineMarker: bool,
    lineMarkerSize: Size,
    lineMarkerBorderSize: real)

  /** The defaults of a fresh settings value. */
  const DefaultSettings: Settings :=
    Settings(15.0, 15.0, 1.0, 5.0, 5.0, 0.0, true, Size(10.0, 10.0), 1.0)

  /** The geometry the host view exposes for one slice. */
  datatype SliceView = SliceView(center: Point, midAngle: real, outerRadius: real, selectedOffset: real)

  /** A slice, the key of the layer's map. */
  datatype Slice = Slice(id: int, view: SliceView)

  /**
   The host's `calculatePosition(angle, p, offset)`: the point at distance
   `offset` from `p` in direction `angle`. It is a parameter, so nothing is
   assumed about it.
   */
  type Positioner = (real, Point, real) -> Point

  /** The leader line p1 -> p2 -> p3 and the position of the layer that draws it. */
  datatype Line = Line(p1: Point, p2: Point, p3: Point, position: Point)

  datatype Role = Title | Value

  datatype Label = Label(role: Role, frame: Rect)

  /** What the layer keeps per slice: the line layer and the (title, value) label pair. */
  datatype Record = Record(line: Line, title: Label, value: Label)

  datatype View = LineView(line: Line) | LabelView(caption: Label) | DotView(frame: Rect)

  /** One call on the chart surface (add, remove) or on the animator. */
  datatype Event = Added(view: View) | Animated(view: View) | Removed(view: View)

  /** The state of one layer: settings (with the mutable marker flag), the slice map and the call log. */
  datatype LayerState = LayerState(settings: Settings, sliceViews: map<Slice, Record>, events: seq<Event>)

  /** A freshly created shape layer sits at the origin. */
  const LayerOrigin: Point := Point(0.0, 0.0)

  /** `order` lists every key of the map exactly once: one possible iteration order of the dictionary. */
  ghost predicate IsEnumeration(order: seq<Slice>, keys: set<Slice>)
  {
    && |order| == |keys|
    && (forall i, j :: 0 <= i < j < |order| ==> order[i] != order[j])
    && (forall k :: k in order <==> k in keys)
  }

  /** The map's records in the order `order` visits them. */
  function Entries(m: map<Slice, Record>, order: seq<Slice>): (r: seq<Record>)
    requires forall k :: k in order ==> k in m
    ensures |r| == |order|
    ensures forall i :: 0 <= i < |order| ==> r[i] == m[order[i]]
  {
    seq(|order|, i requires 0 <= i < |order| => m[order[i]])
  }

  /**
   Iterating the map visits its records one per key: as many records as
   keys, every record of the map among them, and nothing else.
   */
  lemma EntriesVisitEveryRecord(m: map<Slice, Record>, order: seq<Slice>)
    requires IsEnumeration(order, m.Keys)
    ensures |Entries(m, order)| == |m|
    ensures forall k :: k in m ==> m[k] in Entries(m, order)
    ensures forall e :: e in Entries(m, order) ==> e in m.Values
  {
    var r := Entries(m, order);
    forall k | k in m
      ensures m[k] in r
    {
      var i :| 0 <= i < |order| && order[i] == k;
      assert r[i] == m[k];
    }
  }

  /** The record `addItems` builds for a new slice from the measured label sizes. */
  function PlaceSlice(slice: Slice, position: Positioner, settings: Settings, titleSize: Size, valueSize: Size): (r: Record)
    ensures r.line.position == LayerOrigin
    ensures r.title.role == Title && r.value.role == Value
  {
    var view := slice.view;
    var p1 := position(view.midAngle, view.center, view.outerRadius + settings.chartOffset);
    var p2 := position(view.midAngle, view.center, view.outerRadius + settings.segment1Length);
    var right := IsRightSide(view.midAngle);
    var p3 := ThirdPoint(p2, right, settings.segment2Length);
    Record(Line(p1, p2, p3, LayerOrigin),
           Label(Title, LabelFrame(p3, right, titleSize, true, settings.labelXOffset, settings.labelYOffset)),
           Label(Value, LabelFrame(p3, right, valueSize, false, settings.labelXOffset, settings.labelYOffset)))
  }

  /**
   The geometry of a placed record: p1 and p2 lie on the mid-angle ray at the
   chart offset and at the first segment length beyond the outer radius, the
   second segment leaves p2 horizontally outward, and both labels hang on p3
   with their measured sizes.
   */
  lemma PlacedGeometry(slice: Slice, position: Positioner, settings: Settings, titleSize: Size, valueSize: Size)
    ensures var r := PlaceSlice(slice, position, settings, titleSize, valueSize);
      var v := slice.view;
      var right := IsRightSide(v.midAngle);
      && r.line.p1 == position(v.midAngle, v.center, v.outerRadius + settings.chartOffset)
      && r.line.p2 == position(v.midAngle, v.center, v.outerRadius + settings.segment1Length)
      && r.line.p3.y == r.line.p2.y
      && r.line.p3.x == (if right then r.line.p2.x + settings.segment2Length else r.line.p2.x - settings.segment2Length)
      && r.title.frame.size == titleSize && r.value.frame.size == valueSize
      && r.title.frame.origin.x == (if right then r.line.p3.x + settings.labelXOffset
                                    else r.line.p3.x - titleSize.width - settings.labelXOffset)
      && r.value.frame.origin.x == (if right then r.line.p3.x + settings.labelXOffset
                                    else r.line.p3.x - valueSize.width - settings.labelXOffset)
      && r.title.frame.origin.y == r.line.p3.y - titleSize.height / 2.0 + settings.labelYOffset
      && r.value.frame.origin.y == r.line.p3.y - valueSize.height / 2.0 - settings.labelYOffset
  {
  }

  /** The existing record's title frame overlaps the candidate's title frame. */
  predicate TitleHit(existing: Record, candidate: Record)
  {
    Intersects(existing.title.frame, candidate.title.frame)
  }

  /** The existing record's value frame overlaps the candidate's value frame. */
  predicate ValueHit(existing: Record, candidate: Record)
  {
    Intersects(existing.value.frame, candidate.value.frame)
  }

  /** Neither label of the candidate collides with the existing record's. */
  predicate NoCollision(existing: Record, candidate: Record)
  {
    !TitleHit(existing, candidate) && !ValueHit(existing, candidate)
  }

  /**
   What the collision loop did: whether it hit a collision (and so cleared
   the marker flag), how many times it added the title label to the chart,
   and whether it reached an existing record clear of both labels, added the
   line and the value label and stopped.
   */
  datatype ScanOutcome = ScanOutcome(collided: bool, titleAdds: nat, placed: bool)

  /**
   The collision loop of `addItems` over the existing records, in iteration
   order, from record `from` on. A title collision skips to the next record;
   otherwise the title is added, and then a value collision skips to the
   next record; a record clear of both ends the loop with the line and the
   value placed.
   */
  function Scan(existing: seq<Record>, candidate: Record, from: nat): (o: ScanOutcome)
    ensures o.collided <==> from < |existing| && !NoCollision(existing[from], candidate)
    ensures o.titleAdds <= if |existing| <= from then 0 else |existing| - from
    ensures o.placed ==> 1 <= o.titleAdds
    decreases |existing| - from
  {
    if |existing| <= from then ScanOutcome(false, 0, false)
    else if TitleHit(existing[from], candidate) then
      var rest := Scan(existing, candidate, from + 1);
      ScanOutcome(true, rest.titleAdds, rest.placed)
    else if ValueHit(existing[from], candidate) then
      var rest := Scan(existing, candidate, from + 1);
      ScanOutcome(true, rest.titleAdds + 1, rest.placed)
    else
      ScanOutcome(false, 1, true)
  }

  /** The line and the value label are placed exactly when some record the loop may reach is clear of both candidate labels. */
  lemma {:induction false} ScanPlacesIffSomeRecordClear(existing: seq<Record>, candidate: Record, from: nat)
    ensures Scan(existing, candidate, from).placed <==>
      exists j :: from <= j < |existing| && NoCollision(existing[j], candidate)
    decreases |existing| - from
  {
    if from < |existing| {
      ScanPlacesIffSomeRecordClear(existing, candidate, from + 1);
      if NoCollision(existing[from], candidate) {
        assert NoCollision(existing[from], candidate);
      }
    }
  }

  /**
   The outcome of the whole loop once the records before `i` are done: a
   collision so far, `titleAdds` title additions so far, and the outcome of
   the loop over the records from `i` on.
   */
  function Resume(hit: bool, titleAdds: nat, rest: ScanOutcome): ScanOutcome
  {
    ScanOutcome(hit || rest.collided, titleAdds + rest.titleAdds, rest.placed)
  }

  /**
   The loop stops at the first record clear of both labels: the records
   after it are never examined, and the flag is cleared exactly when some
   record before it was hit.
   */
  lemma {:induction false} ScanStopsAtFirstClear(existing: seq<Record>, candidate: Record, from: nat, j: nat)
    requires from <= j < |existing| && NoCollision(existing[j], candidate)
    requires forall i :: from <= i < j ==> !NoCollision(existing[i], candidate)
    ensures Scan(existing, candidate, from) == Scan(existing[..j + 1], candidate, from)
    ensures Scan(existing, candidate, from).placed
    ensures Scan(existing, candidate, from).collided <==> from < j
    decreases j - from
  {
    if from < j {
      ScanStopsAtFirstClear(existing, candidate, from + 1, j);
    }
  }

  /**
   When every record collides, all of them are examined and nothing is
   placed; the title label is added once per record whose title frame is
   clear.
   */
  lemma {:induction false} ScanWhenEveryRecordCollides(existing: seq<Record>, candidate: Record, from: nat)
    requires forall i :: from <= i < |existing| ==> !NoCollision(existing[i], candidate)
    ensures !Scan(existing, candidate, from).placed
    ensures Scan(existing, candidate, from).titleAdds == ClearTitles(existing, candidate, from)
    decreases |existing| - from
  {
    if from < |existing| {
      ScanWhenEveryRecordCollides(existing, candidate, from + 1);
    }
  }

  /** The number of records from `from` on whose title frame does not overlap the candidate's. */
  function ClearTitles(existing: seq<Record>, candidate: Record, from: nat): nat
    decreases |existing| - from
  {
    if |existing| <= from then 0
    else (if TitleHit(existing[from], candidate) then 0 else 1) + ClearTitles(existing, candidate, from + 1)
  }

  /**
   Whether the marker flag survives a pass depends on the dictionary's
   iteration order: with one record far away and one overlapping, visiting
   the far one first places everything and keeps the flag, visiting the
   overlapping one first clears it.
   */
  lemma FlagDependsOnIterationOrder()
    ensures var far := Record(Line(LayerOrigin, LayerOrigin, LayerOrigin, LayerOrigin),
                              Label(Title, Rect(Point(100.0, 0.0), Size(10.0, 10.0))),
                              Label(Value, Rect(Point(100.0, 20.0), Size(10.0, 10.0))));
      var near := Record(Line(LayerOrigin, LayerOrigin, LayerOrigin, LayerOrigin),
                         Label(Title, Rect(Point(0.0, 0.0), Size(10.0, 10.0))),
                         Label(Value, Rect(Point(0.0, 20.0), Size(10.0, 10.0))));
      var candidate := near;
      && Scan([far, near], candidate, 0) == ScanOutcome(false, 1, true)
      && Scan([near, far], candidate, 0) == ScanOutcome(true, 1, true)
  {
  }

  /** `n` copies of `e`. */
  function Repeat(e: Event, n: nat): (r: seq<Event>)
    ensures |r| == n
    ensures forall i :: 0 <= i < n ==> r[i] == e
  {
    if n == 0 then [] else Repeat(e, n - 1) + [e]
  }

  /** The calls the collision loop makes, in order. */
  function LoopEvents(o: ScanOutcome, candidate: Record): seq<Event>
  {
    Repeat(Added(LabelView(candidate.title)), o.titleAdds)
    + (if o.placed then [Added(LineView(candidate.line)), Animated(LineView(candidate.line)), Added(LabelView(candidate.value))]
       else [])
  }

  /** The marker dot the layer adds when the flag is still set after the loop. */
  function MarkerEvents(settings: Settings, candidate: Record): seq<Event>
  {
    if settings.useLineMarker then [Added(DotView(MarkerFrame(candidate.line.p1, settings.lineMarkerSize)))] else []
  }

  /**
   `addItems(slice)`: a slice already in the map changes nothing; otherwise
   the candidate record is built, checked against the existing records in
   the iteration order `order`, the flag is cleared on a collision, the
   marker dot is added while the flag is set, and the slice is recorded.
   */
  function AddItemsSpec(st: LayerState, slice: Slice, position: Positioner, titleSize: Size, valueSize: Size,
                        order: seq<Slice>): (r: LayerState)
    requires slice !in st.sliceViews ==> IsEnumeration(order, st.sliceViews.Keys)
  {
    if slice in st.sliceViews then st
    else
      var candidate := PlaceSlice(slice, position, st.settings, titleSize, valueSize);
      var o := Scan(Entries(st.sliceViews, order), candidate, 0);
      var settings := st.settings.(useLineMarker := st.settings.useLineMarker && !o.collided);
      LayerState(settings, st.sliceViews[slice := candidate],
                 st.events + LoopEvents(o, candidate) + MarkerEvents(settings, candidate) + LabelAnimations(candidate))
  }

  /** Adding a slice that is already placed changes neither the map, nor the settings, nor the surface. */
  lemma AddItemsIsIdempotent(st: LayerState, slice: Slice, position: Positioner, titleSize: Size, valueSize: Size,
                             order: seq<Slice>, position': Positioner, titleSize': Size, valueSize': Size,
                             order': seq<Slice>)
    requires slice !in st.sliceViews ==> IsEnumeration(order, st.sliceViews.Keys)
    ensures slice in st.sliceViews ==> AddItemsSpec(st, slice, position, titleSize, valueSize, order) == st
    ensures var once := AddItemsSpec(st, slice, position, titleSize, valueSize, order);
      AddItemsSpec(once, slice, position', titleSize', valueSize', order') == once
  {
  }

  /** A new slice is mapped to its placement record, and every other entry is unchanged. */
  lemma AddItemsRecordsSlice(st: LayerState, slice: Slice, position: Positioner, titleSize: Size, valueSize: Size,
                             order: seq<Slice>)
    requires slice !in st.sliceViews && IsEnumeration(order, st.sliceViews.Keys)
    ensures var r := AddItemsSpec(st, slice, position, titleSize, valueSize, order);
      && r.sliceViews.Keys == st.sliceViews.Keys + {slice}
      && r.sliceViews[slice] == PlaceSlice(slice, position, st.settings, titleSize, valueSize)
      && (forall k :: k in st.sliceViews ==> r.sliceViews[k] == st.sliceViews[k])
  {
  }

  /**
   The marker flag only moves from set to cleared: no other setting
   changes, a cleared flag stays cleared, and with an empty map the loop
   never runs and the flag is unchanged.
   */
  lemma AddItemsLatchesFlag(st: LayerState, slice: Slice, position: Positioner, titleSize: Size, valueSize: Size,
                            order: seq<Slice>)
    requires slice !in st.sliceViews ==> IsEnumeration(order, st.sliceViews.Keys)
    ensures var r := AddItemsSpec(st, slice, position, titleSize, valueSize, order);
      && r.settings == st.settings.(useLineMarker := r.settings.useLineMarker)
      && (r.settings.useLineMarker ==> st.settings.useLineMarker)
      && (st.sliceViews == map[] ==> r.settings == st.settings)
  {
    if slice !in st.sliceViews && st.sliceViews == map[] {
    }
  }

  /**
   For a new slice the flag is decided by the first record the loop visits:
   it survives exactly when it was set and that record is clear of both of
   the candidate's labels (or there is no record at all).
   */
  lemma AddItemsFlagDecidedByFirstVisited(st: LayerState, slice: Slice, position: Positioner, titleSize: Size,
                                          valueSize: Size, order: seq<Slice>)
    requires slice !in st.sliceViews && IsEnumeration(order, st.sliceViews.Keys)
    ensures var r := AddItemsSpec(st, slice, position, titleSize, valueSize, order);
      var candidate := PlaceSlice(slice, position, st.settings, titleSize, valueSize);
      r.settings.useLineMarker <==>
        st.settings.useLineMarker && (order == [] || NoCollision(st.sliceViews[order[0]], candidate))
  {
  }

  /** Some marker dot is added. */
  predicate AddsDot(events: seq<Event>)
  {
    exists i :: 0 <= i < |events| && events[i].Added? && events[i].view.DotView?
  }

  /** The collision loop adds labels and lines, never a marker dot. */
  lemma LoopAddsNoDot(o: ScanOutcome, candidate: Record)
    ensures !AddsDot(LoopEvents(o, candidate))
  {
  }

  /** The two label animations that end `addItems`. */
  function LabelAnimations(candidate: Record): seq<Event>
  {
    [Animated(LabelView(candidate.value)), Animated(LabelView(candidate.title))]
  }

  /**
   The calls `addItems` makes after the loop outcome `o`, with the flag
   as `settings` leaves it: a dot exactly when the flag is set, then exactly
   one, right after the loop's calls; and the two label animations last.
   */
  lemma MarkerOnlyWithFlag(o: ScanOutcome, settings: Settings, candidate: Record)
    ensures var added := LoopEvents(o, candidate) + MarkerEvents(settings, candidate) + LabelAnimations(candidate);
      && (AddsDot(added) <==> settings.useLineMarker)
      && (settings.useLineMarker ==>
            && added[|LoopEvents(o, candidate)|] == Added(DotView(MarkerFrame(candidate.line.p1, settings.lineMarkerSize)))
            && forall i :: 0 <= i < |added| && added[i].Added? && added[i].view.DotView? ==>
                 i == |LoopEvents(o, candidate)|)
      && added[|added| - 2..] == LabelAnimations(candidate)
  {
    var loop, marker, tail := LoopEvents(o, candidate), MarkerEvents(settings, candidate), LabelAnimations(candidate);
    var added := loop + marker + tail;
    LoopAddsNoDot(o, candidate);
    forall i | 0 <= i < |added| && added[i].Added? && added[i].view.DotView?
      ensures |loop| <= i < |loop| + |marker|
    {
    }
    if settings.useLineMarker {
      assert added[|loop|] == marker[0];
    } else {
      assert marker == [];
    }
  }

  /**
   For a new slice a marker dot is added exactly when the flag is still set
   after the loop, with the configured size centred on p1; the value
   and title labels are animated last, whatever the loop did.
   */
  lemma AddItemsDotIffFlag(st: LayerState, slice: Slice, position: Positioner, titleSize: Size, valueSize: Size,
                           order: seq<Slice>)
    requires slice !in st.sliceViews && IsEnumeration(order, st.sliceViews.Keys)
    ensures var r := AddItemsSpec(st, slice, position, titleSize, valueSize, order);
      var candidate := PlaceSlice(slice, position, st.settings, titleSize, valueSize);
      var added := r.events[|st.events|..];
      && |st.events| <= |r.events| && r.events[..|st.events|] == st.events
      && (AddsDot(added) <==> r.settings.useLineMarker)
      && (r.settings.useLineMarker ==>
            Added(DotView(MarkerFrame(candidate.line.p1, st.settings.lineMarkerSize))) in added
            && Center(MarkerFrame(candidate.line.p1, st.settings.lineMarkerSize)) == candidate.line.p1)
      && added[|added| - 2..] == LabelAnimations(candidate)
  {
    var r := AddItemsSpec(st, slice, position, titleSize, valueSize, order);
    var candidate := PlaceSlice(slice, position, st.settings, titleSize, valueSize);
    var o := Scan(Entries(st.sliceViews, order), candidate, 0);
    var added := LoopEvents(o, candidate) + MarkerEvents(r.settings, candidate) + LabelAnimations(candidate);
    assert r.events == st.events + added;
    MarkerOnlyWithFlag(o, r.settings, candidate);
    assert r.events[|st.events|..] == added;
  }

  /**
   The very first slice of an empty layer is never checked for collisions:
   the loop never runs, so its line, title and value are never added to the
   chart; only the marker dot (while the flag is set) is added, and the two
   labels are animated.
   */
  lemma AddItemsOnEmptyLayer(st: LayerState, slice: Slice, position: Positioner, titleSize: Size, valueSize: Size,
                             order: seq<Slice>)
    requires st.sliceViews == map[] && IsEnumeration(order, {})
    ensures var r := AddItemsSpec(st, slice, position, titleSize, valueSize, order);
      var candidate := PlaceSlice(slice, position, st.settings, titleSize, valueSize);
      && r.settings == st.settings
      && r.sliceViews == map[slice := candidate]
      && r.events == st.events + MarkerEvents(st.settings, candidate)
                     + LabelAnimations(candidate)
  {
  }

  /** The three removals `clear` makes for one record: its line, its title, its value. */
  function Removals(r: Record): seq<Event>
  {
    [Removed(LineView(r.line)), Removed(LabelView(r.title)), Removed(LabelView(r.value))]
  }

  /** The removals `clear` makes for the first `n` of the given records, in order. */
  function RemovalEvents(records: seq<Record>, n: nat): seq<Event>
    requires n <= |records|
  {
    if n == 0 then [] else RemovalEvents(records, n - 1) + Removals(records[n - 1])
  }

  /** `clear()`: detaches every stored line and label pair, in iteration order, and empties the map. */
  function ClearSpec(st: LayerState, order: seq<Slice>): (r: LayerState)
    requires IsEnumeration(order, st.sliceViews.Keys)
  {
    LayerState(st.settings, map[], st.events + RemovalEvents(Entries(st.sliceViews, order), |order|))
  }

  /**
   The removal log is the records' removals one record after another: three
   calls per record, in the records' order, and never a marker dot.
   */
  lemma {:induction false} RemovalEventsContents(records: seq<Record>, n: nat)
    requires n <= |records|
    ensures |RemovalEvents(records, n)| == 3 * n
    ensures forall i :: 0 <= i < n ==>
      && RemovalEvents(records, n)[3 * i] == Removed(LineView(records[i].line))
      && RemovalEvents(records, n)[3 * i + 1] == Removed(LabelView(records[i].title))
      && RemovalEvents(records, n)[3 * i + 2] == Removed(LabelView(records[i].value))
    ensures forall e :: e in RemovalEvents(records, n) ==> e.Removed? && !e.view.DotView?
  {
    if n != 0 {
      RemovalEventsContents(records, n - 1);
      var front := RemovalEvents(records, n - 1);
      var all := RemovalEvents(records, n);
      assert all == front + Removals(records[n - 1]);
      forall i | 0 <= i < n - 1
        ensures all[3 * i] == front[3 * i]
        ensures all[3 * i + 1] == front[3 * i + 1]
        ensures all[3 * i + 2] == front[3 * i + 2]
      {
      }
    }
  }

  /**
   `clear` empties the map and leaves the settings alone (a cleared marker
   flag stays cleared); it removes the line, the title and the value of
   every stored record, and never a marker dot.
   */
  lemma ClearRemovesStoredViews(st: LayerState, order: seq<Slice>)
    requires IsEnumeration(order, st.sliceViews.Keys)
    ensures var c := ClearSpec(st, order);
      && c.sliceViews == map[] && c.settings == st.settings
      && c.events[..|st.events|] == st.events
      && (forall k :: k in st.sliceViews ==>
            var r := st.sliceViews[k];
            && Removed(LineView(r.line)) in c.events[|st.events|..]
            && Removed(LabelView(r.title)) in c.events[|st.events|..]
            && Removed(LabelView(r.value)) in c.events[|st.events|..])
      && (forall e :: e in c.events[|st.events|..] ==> e.Removed? && !e.view.DotView?)
  {
    var records := Entries(st.sliceViews, order);
    RemovalEventsContents(records, |order|);
    var c := ClearSpec(st, order);
    var removed := RemovalEvents(records, |order|);
    assert c.events[|st.events|..] == removed;
    forall k | k in st.sliceViews
      ensures Removed(LineView(st.sliceViews[k].line)) in removed
      ensures Removed(LabelView(st.sliceViews[k].title)) in removed
      ensures Removed(LabelView(st.sliceViews[k].value)) in removed
    {
      var i :| 0 <= i < |order| && order[i] == k;
      assert records[i] == st.sliceViews[k];
      assert removed[3 * i] == Removed(LineView(st.sliceViews[k].line));
      assert removed[3 * i + 1] == Removed(LabelView(st.sliceViews[k].title));
      assert removed[3 * i + 2] == Removed(LabelView(st.sliceViews[k].value));
    }
  }

  /**
   After `clear`, `addItems` on any slice, even one placed before, proceeds
   as on a new slice of an empty layer: no collision check, the settings as
   they were, and the slice mapped to its fresh placement.
   */
  lemma ClearThenAdd(st: LayerState, order: seq<Slice>, slice: Slice, position: Positioner, titleSize: Size,
                     valueSize: Size)
    requires IsEnumeration(order, st.sliceViews.Keys)
    ensures var r := AddItemsSpec(ClearSpec(st, order), slice, position, titleSize, valueSize, []);
      && r.sliceViews == map[slice := PlaceSlice(slice, position, st.settings, titleSize, valueSize)]
      && r.settings == st.settings
  {
    AddItemsOnEmptyLayer(ClearSpec(st, order), slice, position, titleSize, valueSize, []);
  }

  /** The signed selection offset: outward when selecting, back when deselecting. */
  function SelectionOffset(view: SliceView, selected: bool): real
  {
    if selected then view.selectedOffset else -view.selectedOffset
  }

  /** A record with its labels' centres and its line layer's position moved `offset` along `angle`. */
  function Moved(r: Record, angle: real, offset: real, position: Positioner): (m: Record)
    ensures m.line.(position := r.line.position) == r.line
    ensures m.line.position == position(angle, r.line.position, offset)
    ensures m.title.role == r.title.role && m.value.role == r.value.role
    ensures m.title.frame.size == r.title.frame.size && m.value.frame.size == r.value.frame.size
    ensures Center(m.title.frame) == position(angle, Center(r.title.frame), offset)
    ensures Center(m.value.frame) == position(angle, Center(r.value.frame), offset)
  {
    Record(r.line.(position := position(angle, r.line.position, offset)),
           r.title.(frame := Recentered(r.title.frame, position(angle, Center(r.title.frame), offset))),
           r.value.(frame := Recentered(r.value.frame, position(angle, Center(r.value.frame), offset))))
  }

  /**
   `onSelected(slice, selected)`: a slice absent from the map changes
   nothing; otherwise its record is moved by the signed selection offset
   along the slice's mid-angle (the end state of the animation).
   */
  function OnSelectedSpec(st: LayerState, slice: Slice, selected: bool, position: Positioner): (r: LayerState)
  {
    if slice !in st.sliceViews then st
    else
      var offset := SelectionOffset(slice.view, selected);
      st.(sliceViews := st.sliceViews[slice := Moved(st.sliceViews[slice], slice.view.midAngle, offset, position)])
  }

  /** Selection touches only the selected slice's record: the keys, the settings, the log and the other records stay. */
  lemma OnSelectedTouchesOnlyItsSlice(st: LayerState, slice: Slice, selected: bool, position: Positioner)
    ensures var r := OnSelectedSpec(st, slice, selected, position);
      && (slice !in st.sliceViews ==> r == st)
      && r.sliceViews.Keys == st.sliceViews.Keys && r.settings == st.settings && r.events == st.events
      && (forall k :: k in st.sliceViews && k != slice ==> r.sliceViews[k] == st.sliceViews[k])
  {
  }

  /**
   When moving by an offset and then by its negation along the same angle
   returns every point to where it was, selecting and then deselecting a
   slice restores the layer state.
   */
  lemma SelectThenDeselectRestores(st: LayerState, slice: Slice, position: Positioner)
    requires forall p :: position(slice.view.midAngle, position(slice.view.midAngle, p, slice.view.selectedOffset),
                                  -slice.view.selectedOffset) == p
    ensures OnSelectedSpec(OnSelectedSpec(st, slice, true, position), slice, false, position) == st
  {
    if slice in st.sliceViews {
      var a, d := slice.view.midAngle, slice.view.selectedOffset;
      var r := st.sliceViews[slice];
      var m := Moved(r, a, d, position);
      var back := Moved(m, a, -d, position);
      assert position(a, position(a, r.line.position, d), -d) == r.line.position;
      assert position(a, position(a, Center(r.title.frame), d), -d) == Center(r.title.frame);
      assert position(a, position(a, Center(r.value.frame), d), -d) == Center(r.value.frame);
      assert back.title.frame == r.title.frame;
      assert back.value.frame == r.value.frame;
      assert back == r;
      assert st.sliceViews[slice := back] == st.sliceViews;
    }
  }
}
