/**
 * A subtitle's on-screen shape (src/subtitle-shape.js): an optional label
 * and, when editing is allowed, a start and an end marker whose drags move
 * the subtitle's times.
 */
module SubtitleShapes {
  import opened Wrappers
  import opened Intervals

  /**
   * The view a layer draws into: its time/pixel projection, the pixel offset
   * of the visible frame and its width.
   */
  datatype View = View(timeToPixels: real -> real, pixelsToTime: real -> real, frameOffset: real, width: real)

  /** Where the layer places a start marker: its right edge on the start time. */
  function StartMarkerX(view: View, startTime: real, markerWidth: real): real {
    view.timeToPixels(startTime) - view.frameOffset - markerWidth
  }

  /** Where the layer places an end marker: its left edge on the end time. */
  function EndMarkerX(view: View, endTime: real): real {
    view.timeToPixels(endTime) - view.frameOffset
  }

  /**
   * The times a drag leaves: a start-marker drag commits only while the
   * marker is not left of the frame, an end-marker drag only while it is
   * left of the frame's right edge.
   */
  function DragCommit(view: View, isStart: bool, startX: real, startWidth: real, endX: real,
                      startTime: real, endTime: real): (r: (real, real))
    ensures isStart ==> r.1 == endTime
    ensures !isStart ==> r.0 == startTime
    ensures isStart && startX >= 0.0 ==> r.0 == view.pixelsToTime(view.frameOffset + startX + startWidth)
    ensures isStart && startX < 0.0 ==> r.0 == startTime
    ensures !isStart && endX < view.width ==> r.1 == view.pixelsToTime(view.frameOffset + endX)
    ensures !isStart && endX >= view.width ==> r.1 == endTime
  {
    if isStart then
      (if startX >= 0.0 then view.pixelsToTime(view.frameOffset + startX + startWidth) else startTime, endTime)
    else
      (startTime, if endX < view.width then view.pixelsToTime(view.frameOffset + endX) else endTime)
  }

  /** A single drag changes at most one of the two times. */
  lemma DragMovesAtMostOneEnd(view: View, isStart: bool, startX: real, startWidth: real, endX: real,
                              startTime: real, endTime: real)
    ensures var r := DragCommit(view, isStart, startX, startWidth, endX, startTime, endTime);
      r.0 == startTime || r.1 == endTime
  {
  }

  /**
   * Placement and drag are inverse: a marker dragged where the layer put it
   * commits the time it already shows, whenever the projection round-trips.
   */
  lemma DragUndoesPlacement(view: View, startTime: real, endTime: real, startWidth: real)
    requires view.pixelsToTime(view.timeToPixels(startTime)) == startTime
    requires view.pixelsToTime(view.timeToPixels(endTime)) == endTime
    ensures var sx, ex := StartMarkerX(view, startTime, startWidth), EndMarkerX(view, endTime);
      && DragCommit(view, true, sx, startWidth, ex, startTime, endTime) == (startTime, endTime)
      && DragCommit(view, false, sx, startWidth, ex, startTime, endTime) == (startTime, endTime)
  {
    var sx := StartMarkerX(view, startTime, startWidth);
    assert view.frameOffset + sx + startWidth == view.timeToPixels(startTime);
    assert view.frameOffset + EndMarkerX(view, endTime) == view.timeToPixels(endTime);
  }

  /** No ordering check: dragging the start marker past the end marker reverses the times. */
  lemma DragCanReverseTimes()
    ensures var view := View(t => t, p => p, 0.0, 100.0);
      var r := DragCommit(view, true, 50.0, 2.0, 40.0, 10.0, 40.0);
      r.0 > r.1
  {
  }

  /** Whether markers are built at all (`_createMarkers`' gate). */
  predicate MarkersAllowed(editingEnabled: bool, editable: bool) {
    editingEnabled && editable
  }

  /** A drag handle as the shape sees it: position, width, which end, and whether dragstart reaches the shape. */
  class Marker {
    var x: real
    const width: real
    const isStart: bool
    const dragStartWired: bool
    var destroyed: bool

    constructor (width: real, isStart: bool, dragStartWired: bool)
      ensures this.width == width && this.isStart == isStart && this.dragStartWired == dragStartWired
      ensures x == 0.0 && !destroyed
    {
      this.width := width;
      this.isStart := isStart;
      this.dragStartWired := dragStartWired;
      x := 0.0;
      destroyed := false;
    }

    method SetX(x: real)
      modifies this
      ensures this.x == x && destroyed == old(destroyed)
    {
      this.x := x;
    }

    method Destroy()
      modifies this
      ensures destroyed && x == old(x)
    {
      destroyed := true;
    }
  }

  class Label {
    var destroyed: bool

    constructor ()
      ensures !destroyed
    {
      destroyed := false;
    }

    method Destroy()
      modifies this
      ensures destroyed
    {
      destroyed := true;
    }
  }

  /** Why a drag handler fails: it reads the position of a marker that was never built. */
  datatype DragError = MissingMarker

  class SubtitleShape {
    const subtitle: Interval
    const peaks: Emitter
    const labelShape: Label?
    const startMarker: Marker?
    const endMarker: Marker?

    /** The markers the shape owns. */
    function Markers(): set<Marker> {
      (if startMarker != null then {startMarker} else {}) + (if endMarker != null then {endMarker} else {})
    }

    /** Each marker sits at its own end, so the two are never the same object. */
    predicate WellBuilt() {
      (startMarker != null ==> startMarker.isStart) && (endMarker != null ==> !endMarker.isStart)
    }

    /** Every part the shape owns has been destroyed. */
    predicate Destroyed()
      reads Markers(), Labels()
    {
      && (labelShape != null ==> labelShape.destroyed)
      && (startMarker != null ==> startMarker.destroyed)
      && (endMarker != null ==> endMarker.destroyed)
    }

    /** The label the shape owns, if any. */
    function Labels(): set<Label> {
      if labelShape != null then {labelShape} else {}
    }

    /**
     * `new SubtitleShape(...)` with `_createMarkers`: the label factory may
     * decline (`labelMade`); markers are requested only when editing is
     * enabled and the subtitle is editable, and each marker factory may
     * decline (`None`). The end marker's dragstart hook names a handler that
     * does not exist, so it is built unwired.
     */
    constructor (subtitle: Interval, peaks: Emitter, editingEnabled: bool, labelMade: bool,
                 startMarkerWidth: Option<real>, endMarkerWidth: Option<real>)
      ensures this.subtitle == subtitle && this.peaks == peaks
      ensures (labelShape != null) == labelMade && (labelShape != null ==> fresh(labelShape) && !labelShape.destroyed)
      ensures !MarkersAllowed(editingEnabled, subtitle.editable) ==> startMarker == null && endMarker == null
      ensures MarkersAllowed(editingEnabled, subtitle.editable) ==>
        && (startMarker != null <==> startMarkerWidth.Some?)
        && (endMarker != null <==> endMarkerWidth.Some?)
      ensures startMarker != null ==>
        && fresh(startMarker) && startMarker.isStart && startMarker.dragStartWired
        && startMarker.width == startMarkerWidth.value && !startMarker.destroyed
      ensures endMarker != null ==>
        && fresh(endMarker) && !endMarker.isStart && !endMarker.dragStartWired
        && endMarker.width == endMarkerWidth.value && !endMarker.destroyed
      ensures WellBuilt()
    {
      this.subtitle := subtitle;
      this.peaks := peaks;
      if labelMade {
        labelShape := new Label();
      } else {
        labelShape := null;
      }
      var editable := editingEnabled && subtitle.editable;
      if editable && startMarkerWidth.Some? {
        startMarker := new Marker(startMarkerWidth.value, true, true);
      } else {
        startMarker := null;
      }
      if editable && endMarkerWidth.Some? {
        endMarker := new Marker(endMarkerWidth.value, false, false);
      } else {
        endMarker := null;
      }
    }

    /**
     * `_onSubtitleHandleDrag(marker)`: read both marker positions, commit at
     * most one time, and always emit `dragged`.
     */
    method OnSubtitleHandleDrag(marker: Marker, view: View) returns (r: Outcome<DragError>)
      modifies subtitle, peaks
      ensures startMarker == null || endMarker == null ==>
        && r == Fail(MissingMarker) && subtitle.Fields() == old(subtitle.Fields())
        && subtitle.userData == old(subtitle.userData) && peaks.log == old(peaks.log)
      ensures startMarker != null && endMarker != null ==>
        && r == Pass
        && (subtitle.startTime, subtitle.endTime) ==
           DragCommit(view, marker.isStart, startMarker.x, startMarker.width, endMarker.x,
                      old(subtitle.startTime), old(subtitle.endTime))
        && subtitle.labelText == old(subtitle.labelText) && subtitle.color == old(subtitle.color)
        && subtitle.editable == old(subtitle.editable) && subtitle.userData == old(subtitle.userData)
        && peaks.log == old(peaks.log) + [Dragged(subtitle, marker.isStart)]
    {
      var isStart := marker.isStart;
      if startMarker == null || endMarker == null {
        return Fail(MissingMarker);
      }
      var startMarkerX := startMarker.x;
      var endMarkerX := endMarker.x;
      if isStart && startMarkerX >= 0.0 {
        var startMarkerOffset := view.frameOffset + startMarkerX + startMarker.width;
        subtitle.SetStartTime(view.pixelsToTime(startMarkerOffset));
      }
      if !isStart && endMarkerX < view.width {
        var endMarkerOffset := view.frameOffset + endMarkerX;
        subtitle.SetEndTime(view.pixelsToTime(endMarkerOffset));
      }
      peaks.Emit(Dragged(subtitle, isStart));
      r := Pass;
    }

    /** `_onSubtitleHandleDragStart(marker)`. */
    method OnSubtitleHandleDragStart(marker: Marker)
      modifies peaks
      ensures peaks.log == old(peaks.log) + [DragStarted(subtitle, marker.isStart)]
    {
      peaks.Emit(DragStarted(subtitle, marker.isStart));
    }

    /** `_onSubtitleHandleDragEnd(marker)`. */
    method OnSubtitleHandleDragEnd(marker: Marker)
      modifies peaks
      ensures peaks.log == old(peaks.log) + [DragEnded(subtitle, marker.isStart)]
    {
      peaks.Emit(DragEnded(subtitle, marker.isStart));
    }

    /** A marker's dragstart: reaches the shape only through a wired hook, so the end marker's is lost. */
    method MarkerDragStart(marker: Marker)
      modifies peaks
      ensures marker.dragStartWired ==> peaks.log == old(peaks.log) + [DragStarted(subtitle, marker.isStart)]
      ensures !marker.dragStartWired ==> peaks.log == old(peaks.log)
    {
      if marker.dragStartWired {
        OnSubtitleHandleDragStart(marker);
      }
    }

    /** A marker's dragend: both markers are wired. */
    method MarkerDragEnd(marker: Marker)
      modifies peaks
      ensures peaks.log == old(peaks.log) + [DragEnded(subtitle, marker.isStart)]
    {
      OnSubtitleHandleDragEnd(marker);
    }

    /** `destroy()`: the label and whichever markers exist. */
    method Destroy()
      modifies Markers(), Labels()
      ensures Destroyed()
      ensures startMarker != null ==> startMarker.destroyed && startMarker.x == old(startMarker.x)
      ensures endMarker != null ==> endMarker.destroyed && endMarker.x == old(endMarker.x)
    {
      if labelShape != null {
        labelShape.Destroy();
      }
      if startMarker != null {
        startMarker.Destroy();
      }
      if endMarker != null {
        endMarker.Destroy();
      }
    }
  }

  /** The end marker's dragstart never reaches the shape, whatever the shape was built from. */
  method EndMarkerDragStartIsLost(subtitle: Interval, peaks: Emitter, width: real)
    requires subtitle.editable
    modifies peaks
  {
    var shape := new SubtitleShape(subtitle, peaks, true, false, Some(width), Some(width));
    var before := peaks.log;
    shape.MarkerDragStart(shape.endMarker);
    assert peaks.log == before;
    shape.MarkerDragStart(shape.startMarker);
    assert peaks.log == before + [DragStarted(subtitle, true)];
  }
}
