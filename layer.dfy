/**
 The line-and-text label layer as a stateful object: the settings value
 whose marker flag `addItems` clears on a collision, the map from slice to
 placed line and label pair, and the log of calls made on the chart surface
 and the animator. Each method is proved against its specification function
 in module Placement.
 */
module LineTextLayer {
  import opened Geometry
  import opened Placement

  /**
   Iterating a dictionary: some order that visits every key exactly once.
   Which order is left open, as the host dictionary leaves it.
   */
  method Enumerate(m: map<Slice, Record>) returns (order: seq<Slice>)
    ensures IsEnumeration(order, m.Keys)
  {
    order := [];
    var rest := m.Keys;
    while rest != {}
      invariant rest <= m.Keys
      invariant |order| + |rest| == |m.Keys|
      invariant forall k :: k in order ==> k in m.Keys && k !in rest
      invariant forall k :: k in m.Keys ==> k in order || k in rest
      invariant forall i, j :: 0 <= i < j < |order| ==> order[i] != order[j]
      decreases rest
    {
      var k :| k in rest;
      order := order + [k];
      rest := rest - {k};
    }
  }

  class PieLineTextLayer {
    var settings: Settings
    var sliceViews: map<Slice, Record>
    /** The calls made so far on the chart surface and the animator. */
    var events: seq<Event>

    function State(): LayerState
      reads this
    {
      LayerState(settings, sliceViews, events)
    }

    constructor ()
      ensures State() == LayerState(DefaultSettings, map[], [])
    {
      settings := DefaultSettings;
      sliceViews := map[];
      events := [];
    }

    /**
     Places a slice's leader line and labels, checking them against the
     records already placed in the order the dictionary yields them
     (returned as `order`).
     */
    method AddItems(slice: Slice, position: Positioner, titleSize: Size, valueSize: Size)
      returns (ghost order: seq<Slice>)
      modifies this
      ensures slice !in old(sliceViews) ==> IsEnumeration(order, old(sliceViews).Keys)
      ensures State() == AddItemsSpec(old(State()), slice, position, titleSize, valueSize, order)
    {
      order := [];
      if slice in sliceViews {
        return;
      }
      ghost var st := State();
      var view := slice.view;
      var p1 := position(view.midAngle, view.center, view.outerRadius + settings.chartOffset);
      var p2 := position(view.midAngle, view.center, view.outerRadius + settings.segment1Length);
      var isRightSide := IsRightSide(view.midAngle);
      var p3 := ThirdPoint(p2, isRightSide, settings.segment2Length);

      var lineLayer := Line(p1, p2, p3, LayerOrigin);
      var valueLabel := Label(Value, LabelFrame(p3, isRightSide, valueSize, false, settings.labelXOffset, settings.labelYOffset));
      var titleLabel := Label(Title, LabelFrame(p3, isRightSide, titleSize, true, settings.labelXOffset, settings.labelYOffset));
      ghost var candidate := Record(lineLayer, titleLabel, valueLabel);
      assert candidate == PlaceSlice(slice, position, st.settings, titleSize, valueSize);

      var keys := Enumerate(sliceViews);
      order := keys;
      ghost var o := CheckPlaced(Entries(sliceViews, keys), Record(lineLayer, titleLabel, valueLabel));
      ghost var afterLoop := events;

      if settings.useLineMarker {
        var dot := MarkerFrame(p1, settings.lineMarkerSize);
        events := events + [Added(DotView(dot))];
      }
      assert events == afterLoop + MarkerEvents(settings, candidate);
      ghost var afterMarker := events;
      events := events + [Animated(LabelView(valueLabel)), Animated(LabelView(titleLabel))];
      sliceViews := sliceViews[slice := Record(lineLayer, titleLabel, valueLabel)];
      assert events == afterMarker + [Animated(LabelView(valueLabel)), Animated(LabelView(titleLabel))];
    }

    /**
     The collision loop of `addItems`: visits the placed records in the
     dictionary's iteration order; a record whose title frame overlaps the
     new title clears the marker flag and moves on; otherwise the title is
     added to the chart and a record whose value frame overlaps the new value
     clears the flag and moves on; the first record clear of both gets the
     line and the value added and ends the loop.
     */
    method CheckPlaced(records: seq<Record>, candidate: Record) returns (ghost o: ScanOutcome)
      modifies this
      ensures o == Scan(records, candidate, 0)
      ensures sliceViews == old(sliceViews)
      ensures settings == old(settings).(useLineMarker := old(settings.useLineMarker) && !o.collided)
      ensures events == old(events) + LoopEvents(o, candidate)
    {
      ghost var hit, titleAdds, placed := false, 0, false;
      for i := 0 to |records|
        invariant sliceViews == old(sliceViews)
        invariant !placed
        invariant settings == old(settings).(useLineMarker := old(settings.useLineMarker) && !hit)
        invariant events == old(events) + Repeat(Added(LabelView(candidate.title)), titleAdds)
        invariant Scan(records, candidate, 0) == Resume(hit, titleAdds, Scan(records, candidate, i))
      {
        var existing := records[i];
        if Intersects(existing.title.frame, candidate.title.frame) {
          settings := settings.(useLineMarker := false);
          hit := true;
          continue;
        } else {
          events := events + [Added(LabelView(candidate.title))];
          titleAdds := titleAdds + 1;
        }
        if Intersects(existing.value.frame, candidate.value.frame) {
          settings := settings.(useLineMarker := false);
          hit := true;
          continue;
        } else {
          events := events + [Added(LineView(candidate.line)), Animated(LineView(candidate.line)),
                              Added(LabelView(candidate.value))];
          placed := true;
          break;
        }
      }
      o := ScanOutcome(hit, titleAdds, placed);
    }

    /** The end of a slice's entrance animation places its labels. */
    method OnEndAnimation(slice: Slice, position: Positioner, titleSize: Size, valueSize: Size)
      returns (ghost order: seq<Slice>)
      modifies this
      ensures slice !in old(sliceViews) ==> IsEnumeration(order, old(sliceViews).Keys)
      ensures State() == AddItemsSpec(old(State()), slice, position, titleSize, valueSize, order)
    {
      order := AddItems(slice, position, titleSize, valueSize);
    }

    /**
     Moves a placed slice's labels and line by the selection offset; a slice
     that is not in the map changes nothing.
     */
    method OnSelected(slice: Slice, selected: bool, position: Positioner)
      modifies this
      ensures State() == OnSelectedSpec(old(State()), slice, selected, position)
    {
      if slice !in sliceViews {
        return;
      }
      var placedViews := sliceViews[slice];
      var offset := if selected then slice.view.selectedOffset else -slice.view.selectedOffset;
      var angle := slice.view.midAngle;
      var title := placedViews.title.(frame := Recentered(placedViews.title.frame, position(angle, Center(placedViews.title.frame), offset)));
      var value := placedViews.value.(frame := Recentered(placedViews.value.frame, position(angle, Center(placedViews.value.frame), offset)));
      var line := placedViews.line.(position := position(angle, placedViews.line.position, offset));
      sliceViews := sliceViews[slice := Record(line, title, value)];
    }

    /** Detaches every stored line and label pair and empties the map. */
    method Clear() returns (ghost order: seq<Slice>)
      modifies this
      ensures IsEnumeration(order, old(sliceViews).Keys)
      ensures State() == ClearSpec(old(State()), order)
    {
      var keys := Enumerate(sliceViews);
      order := keys;
      ghost var entries := Entries(sliceViews, keys);
      for i := 0 to |keys|
        invariant sliceViews == old(sliceViews) && settings == old(settings)
        invariant events == old(events) + RemovalEvents(entries, i)
      {
        var placedViews := sliceViews[keys[i]];
        events := events + [Removed(LineView(placedViews.line)), Removed(LabelView(placedViews.title)),
                            Removed(LabelView(placedViews.value))];
      }
      sliceViews := map[];
    }
  }
}
