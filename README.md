# Peaks.js annotation core in Dafny

This project models the annotation core of a Peaks.js fork: the time
intervals (subtitles and text segments), the store that holds them, the
layer that keeps one drawn shape per subtitle visible in a waveform view,
the shape whose markers can be dragged to move an interval's start or end,
and the zoom state of a Peaks instance. The model is checked with the Dafny
verifier only: no part of it, and none of the original code, is executed.

The modules follow the source files:

- `Wrappers` (wrappers.dfy): `Option`, `Result` and `Outcome`.
- `JsValues` (js_values.dfy): the JavaScript values the options carry
  (`undefined`, `null`, numbers, `NaN`, `Infinity`, strings, booleans and
  plain objects) and the `Utils` type tests the code relies on.
- `Intervals` (interval.dfy): `validateSubtitle` / `validateTextSegment` as
  one function that reports the first failing check. It also holds the
  `Interval` class that stands for both `Subtitle` and `TextSegment`, since
  the two files are line-for-line twins that differ only in names. The
  Peaks event emitter is modelled as an event log.
- `TextSegmentStore` (store.dfy): `WaveformTextSegments`. It keeps an
  insertion-ordered sequence, an id-to-segment dictionary, an automatic-id
  counter and a cycling color index. `add` is specified by a pure plan of
  its map phase (`PlanAdd`). Removal is specified by a filter
  (`Keep`), with `_removeIndexes`' index compensation proved against it.
- `SubtitleShapes` (shape.dfy): `SubtitleShape` with its optional label and
  markers, the marker placement functions, and the drag commit rule.
- `SubtitlesLayers` (layer.dfy): `SubtitlesLayer`, its shape table and the
  handlers for the store's events.
- `Zoom` (zoom.dfy): the `zoom` mode getter, the stepped API over an index
  into the zoom levels, and the continuous API. The continuous API includes
  the easing recurrence and the sequence of values it emits.

In these places the model follows the code as written:

- A marker drag does not keep `start <= end`. Nothing clamps the dragged
  time before it is committed (`DragCanReverseTimes`).
- `add` rejects the whole batch on a bad or duplicate element. But the id
  counter and the color index keep whatever the elements before the failure
  consumed.
- Only ids already in the store count as duplicates. Two options with the
  same new id in one batch are both accepted (`DuplicateWithinBatchAccepted`).
- An un-eased `zoomTo` does not cancel an ease already in progress. Only an
  eased one does.
- Stepped `setZoom` emits `zoom.update` on every call, even when the index
  does not change.

The end marker's `onDragStart` hook names a handler that does not exist
(src/subtitle-shape.js:149). The model records this as it is: the end
marker is built with its dragstart unwired, and its dragstart never reaches
the shape (`EndMarkerDragStartIsLost`).

## Model

| member | source | states |
|---|---|---|
| JsValues.Extend | src/subtitle.js:149 | `Utils.extend(target, source)`: every key of the source overrides the target's, and every other target key is kept |
| Intervals.Message | src/subtitle.js:16-60 | the thrown message starts with the entity's namespace (`peaks.subtitles.` or `peaks.textSegments.`) |
| Intervals.Validate | src/subtitle.js:16-60 | a failure names the first check in source order that fails, and every earlier check passes. Success holds exactly when all checks pass. On success the fields are the options' times, editable flag and color, with a null or undefined label read as `""`, and they are well formed |
| Intervals.ConstructionSucceedsIff | src/subtitle.js:16-40 | construction validates exactly when both times are numbers with `0 <= start <= end` and the label, editable and color checks pass |
| Intervals.FamiliesValidateAlike | src/text-segment.js:16-60 | the text-segment twin gives the same verdict, the same fields and the same failing check as the subtitle validation |
| Intervals.Snapshot | src/subtitle.js:141-147 | the snapshot `update` starts from holds exactly the five core keys |
| Intervals.SnapshotRoundTrip | src/subtitle.js:140-157 | validating the snapshot of a well-formed state yields that state, so `update({})` changes nothing |
| Intervals.UpdateKeepsUnnamedFields | src/subtitle.js:141-157 | a successful update keeps every core field that the changes do not name |
| Intervals.UpdateRejectsReversedTimes | src/subtitle.js:140-157 | moving the end before an untouched start fails on the ordering check |
| Intervals.Extension | src/subtitle.js:14 | the extension data holds exactly the non-core keys of the options, with their values |
| Intervals.OverlapIsSharedInstant | src/subtitle.js:174-176 | for non-empty spans, `isVisible` holds exactly when some instant lies strictly inside both the interval and the window |
| Intervals.TouchingDoesNotOverlap | src/subtitle.js:174-176 | an interval that only touches the window, such as [10,20] against [20,30], is not visible |
| Intervals.ZeroLengthMissesWindowAtItsStart | src/subtitle.js:174-176 | a zero-length interval [a,a] is not visible in a window that starts at a |
| Intervals.Emitter.Emit | src/subtitle.js:161 | emitting appends exactly that event to the log |
| Intervals.Interval.Init | src/subtitle.js:82-90 | the stored id and fields are the validated ones, and the extension keys are copied |
| Intervals.Interval.Create | src/subtitle.js:79-91 | construction fails exactly when validation fails, with the same error, and then no object exists. On success it yields a fresh interval holding the validated fields, the id and the extension data |
| Intervals.Interval.SetUserData | src/subtitle.js:93-99 | the extension keys are copied onto the entity, and the core fields are never touched |
| Intervals.Interval.Update | src/subtitle.js:140-162 | all or nothing: if the merged state fails validation, the fields, the user data and the log are unchanged and the error is returned. Otherwise the fields become the validated merge, the changes' extension keys are copied, and one update event carrying the entity is emitted |
| Intervals.Interval.SetStartTime | src/subtitle.js:178-180 | assigns the start with no check, and every other field is unchanged |
| Intervals.Interval.SetEndTime | src/subtitle.js:182-184 | assigns the end with no check, and every other field is unchanged |
| TextSegmentStore.DecimalInjective | src/waveform-subtitles.js:59-61 | distinct counter values have distinct decimal forms |
| TextSegmentStore.AutoIdInjective | src/waveform-subtitles.js:59-61 | two generated ids are equal exactly when they come from the same counter value |
| TextSegmentStore.NextColor | src/waveform-subtitles.js:87-98 | when randomizing, the index is pre-incremented and wraps, stays in [0, 10), and the color at the new index is handed out. Otherwise the configured color is returned and the index is kept |
| TextSegmentStore.Prepare | src/waveform-subtitles.js:129-149 | defaults apply only to null or undefined fields: a generated id (the counter advances by one), the color `_getTextSegmentColor` gives with the color index advanced as it advances it, label `""` and editable `false`. Every other key is kept |
| TextSegmentStore.CreatePlan | src/waveform-subtitles.js:121-152 | a non-object is rejected with the counters untouched. A success is well formed and carries an id |
| TextSegmentStore.PlanAddRejectsBadElement | src/waveform-subtitles.js:216-224 | one element that is not an object, or whose times are invalid, rejects the whole batch |
| TextSegmentStore.PlanAddSound | src/waveform-subtitles.js:216-224 | on success every planned segment is well formed, has an id, and that id is not yet in the store |
| TextSegmentStore.PlanAddCounter | src/waveform-subtitles.js:135-137 | on success the id counter has advanced once per element without an id |
| TextSegmentStore.PlanAddIds | src/waveform-subtitles.js:135-137 | on success an element keeps its own id, and the k-th element without one gets the counter's value plus k |
| TextSegmentStore.GeneratedIdsDistinct | src/waveform-subtitles.js:135-137 | two generated ids in one batch never collide |
| TextSegmentStore.DuplicateWithinBatchAccepted | src/waveform-subtitles.js:219-221 | a batch with two options carrying the same new id is accepted, and both segments keep that id |
| TextSegmentStore.IndexAllKeepsLastOfDuplicates | src/waveform-subtitles.js:107-111 | filing two segments with one id leaves only the later one in the dictionary |
| TextSegmentStore.AppendKeepsIndex | src/waveform-subtitles.js:226-228 | appending segments with new distinct ids keeps the sequence and the dictionary exactly in step |
| TextSegmentStore.KeepMembers | src/waveform-subtitles.js:293-301 | exactly the segments with the wanted match verdict survive the filter |
| TextSegmentStore.KeepIsSubsequence | src/waveform-subtitles.js:293-301 | the filter keeps the original order |
| TextSegmentStore.KeepPartition | src/waveform-subtitles.js:293-301 | the removed and the surviving segments together have the length of the sequence |
| TextSegmentStore.RemovalKeepsIndex | src/waveform-subtitles.js:264-278 | removing the matching segments from both structures keeps them exactly in step |
| TextSegmentStore.PickPositions | src/waveform-subtitles.js:244-254 | the segments at the match positions are exactly the matching segments, in order |
| TextSegmentStore.WithoutPositions | src/waveform-subtitles.js:264-278 | the sequence without the match positions is exactly the surviving segments, in order |
| TextSegmentStore.WaveformTextSegments.constructor | src/waveform-subtitles.js:44-50 | a new store is empty, with both counters at zero, and its invariant holds |
| TextSegmentStore.WaveformTextSegments.GetNextTextSegmentId | src/waveform-subtitles.js:59-61 | returns the id for the counter's current value and advances the counter by one, changing nothing else |
| TextSegmentStore.WaveformTextSegments.GetTextSegmentColor | src/waveform-subtitles.js:87-98 | hands out the color and the index `NextColor` gives, changing nothing else |
| TextSegmentStore.WaveformTextSegments.CreateTextSegment | src/waveform-subtitles.js:121-152 | creation follows the plan: on failure its error is returned, and on success a fresh segment matching the plan. The store's contents are unchanged and the counters advance as the plan says |
| TextSegmentStore.WaveformTextSegments.AddTextSegment | src/waveform-subtitles.js:107-111 | pushes the segment and files it under its id |
| TextSegmentStore.WaveformTextSegments.CreateAll | src/waveform-subtitles.js:216-224 | the map phase creates one fresh segment per element, as the plan says, or stops at the plan's first error, and leaves the store's contents untouched |
| TextSegmentStore.WaveformTextSegments.AddTextSegments | src/waveform-subtitles.js:226-228 | the created segments are appended in argument order and filed one by one |
| TextSegmentStore.WaveformTextSegments.Add | src/waveform-subtitles.js:209-233 | on failure the sequence, the dictionary and the log are unchanged. On success the new segments are appended in order, filed under their ids, and one add event carries them all. The id/dictionary invariant is preserved whenever the batch's ids are distinct |
| TextSegmentStore.WaveformTextSegments.GetTextSegment | src/waveform-subtitles.js:171-173 | a found segment is in the store under that id, and with unique ids one is found exactly when the id is present |
| TextSegmentStore.WaveformTextSegments.GetTextSegmentsAtTime | src/waveform-subtitles.js:182-186 | returns exactly the segments with `start <= t < end`, in insertion order |
| TextSegmentStore.WaveformTextSegments.Find | src/waveform-subtitles.js:197-201 | returns exactly the segments visible in the window, in insertion order |
| TextSegmentStore.WaveformTextSegments.FindTextSegment | src/waveform-subtitles.js:244-254 | returns the ascending positions of exactly the matching segments |
| TextSegmentStore.WaveformTextSegments.SpliceOut | src/waveform-subtitles.js:268-272 | one splice removes the element at the position from the sequence and its id from the dictionary |
| TextSegmentStore.WaveformTextSegments.RemoveIndexes | src/waveform-subtitles.js:264-278 | with the index compensation, the removed segments are those at the given positions, in order. The sequence loses exactly those positions and the dictionary loses their ids |
| TextSegmentStore.WaveformTextSegments.RemoveTextSegments | src/waveform-subtitles.js:293-301 | exactly the matching segments are removed from both structures, the survivors keep their order, and one remove event carries the removed list, which may be empty. The invariant is preserved |
| TextSegmentStore.WaveformTextSegments.Remove | src/waveform-subtitles.js:310-314 | removes exactly the segments that are the given object, as `RemoveTextSegments` does |
| TextSegmentStore.WaveformTextSegments.RemoveById | src/waveform-subtitles.js:323-327 | removes exactly the segments with the given id, as `RemoveTextSegments` does |
| TextSegmentStore.WaveformTextSegments.RemoveByTime | src/waveform-subtitles.js:338-355 | removes exactly what `TimeFilter` selects, as `RemoveTextSegments` does |
| TextSegmentStore.TimeFilter | src/waveform-subtitles.js:339-352 | a non-number end counts as 0, a positive end must match too, and otherwise only the start is compared |
| TextSegmentStore.WaveformTextSegments.RemoveAll | src/waveform-subtitles.js:364-368 | both structures become empty, the counters are kept, and one remove_all event is emitted |
| SubtitleShapes.DragCommit | src/subtitle-shape.js:186-207 | a start drag commits `pixelsToTime(frameOffset + x + width)` only when `x >= 0`. An end drag commits `pixelsToTime(frameOffset + x)` only when `x < width`. The other end is never touched |
| SubtitleShapes.DragMovesAtMostOneEnd | src/subtitle-shape.js:186-207 | a single drag changes at most one of the two times |
| SubtitleShapes.DragUndoesPlacement | src/subtitles-layer.js:199-217 | a marker left where the layer placed it commits the time it already shows, whenever the projection round-trips |
| SubtitleShapes.DragCanReverseTimes | src/subtitle-shape.js:191-199 | a start drag past the end marker leaves start after end |
| SubtitleShapes.SubtitleShape.constructor | src/subtitle-shape.js:31-154 | the label exists exactly when the factory made one. Without editing enabled and an editable subtitle (the gate of `_createMarkers`, lines 93-97), neither marker exists. Otherwise each exists exactly when its factory made one, the start marker with dragstart wired and the end marker without |
| SubtitleShapes.SubtitleShape.OnSubtitleHandleDrag | src/subtitle-shape.js:182-210 | the times become `DragCommit`'s answer, every other field is unchanged, and one dragged event is always emitted. A missing marker is the error the source would throw |
| SubtitleShapes.SubtitleShape.OnSubtitleHandleDragStart | src/subtitle-shape.js:216-220 | emits one dragstart event with the subtitle and which end |
| SubtitleShapes.SubtitleShape.OnSubtitleHandleDragEnd | src/subtitle-shape.js:226-230 | emits one dragend event with the subtitle and which end |
| SubtitleShapes.SubtitleShape.MarkerDragStart | src/subtitle-shape.js:121-149 | a marker's dragstart emits only through a wired hook, and otherwise the log is unchanged |
| SubtitleShapes.SubtitleShape.MarkerDragEnd | src/subtitle-shape.js:122-150 | both markers' dragend reach the shape and emit |
| SubtitleShapes.SubtitleShape.Destroy | src/subtitle-shape.js:242-254 | the label and whichever markers exist are destroyed, and marker positions are unchanged |
| SubtitlesLayers.VisibleOnly | src/subtitles-layer.js:245-260 | keeps exactly the entries whose subtitle overlaps the range, with their shapes |
| SubtitlesLayers.Shown | src/subtitles-layer.js:105-109 | an added subtitle is among those shown exactly when it overlaps the frame |
| SubtitlesLayers.SubtitlesLayer.constructor | src/subtitles-layer.js:31-49 | a new layer has an empty shape table and no draws |
| SubtitlesLayers.SubtitlesLayer.EnableEditing | src/subtitles-layer.js:61-63 | sets the editing flag, leaving the shapes as they are |
| SubtitlesLayers.SubtitlesLayer.IsEditingEnabled | src/subtitles-layer.js:65-67 | reports the editing flag |
| SubtitlesLayers.SubtitlesLayer.AddSubtitleShape | src/subtitles-layer.js:156-164 | files a freshly built shape for the subtitle under its id, replacing any shape there. It has no markers unless markers are allowed |
| SubtitlesLayers.SubtitlesLayer.FindOrAddSubtitleShape | src/subtitles-layer.js:225-233 | an existing shape is returned with the table unchanged. Only when the id has none is a fresh one built and filed |
| SubtitlesLayers.SubtitlesLayer.UpdateSubtitle | src/subtitles-layer.js:196-218 | the subtitle has a shape, new only if none was filed. Its start marker sits at `timeToPixels(start) - frameOffset - width` and its end marker at `timeToPixels(end) - frameOffset` |
| SubtitlesLayers.SubtitlesLayer.RemoveSubtitle | src/subtitles-layer.js:268-275 | the subtitle's shape, if any, is destroyed and removed from the table, and otherwise nothing changes |
| SubtitlesLayers.SubtitlesLayer.DropUnkept | src/subtitles-layer.js:248-257 | the loop destroys every shape outside the kept table, leaves exactly the kept table, and counts the removals |
| SubtitlesLayers.SubtitlesLayer.RemoveInvisibleSubtitles | src/subtitles-layer.js:245-260 | the table keeps exactly the shapes whose subtitles overlap the range. The others are destroyed, and the count is the number removed |
| SubtitlesLayers.SubtitlesLayer.PlaceAll | src/subtitles-layer.js:181 | every found subtitle's id has a shape, existing shapes are kept, and new ones are fresh and built for found subtitles |
| SubtitlesLayers.SubtitlesLayer.UpdateSubtitles | src/subtitles-layer.js:175-189 | `found` is what the store finds in the range. A found subtitle whose id had no shape ends with one, built fresh for a found subtitle. A found subtitle whose id already had a shape reuses that shape, which is dropped when its own subtitle is out of range. Old shapes survive exactly when visible and are then unchanged, and every remaining shape's subtitle is visible. The layer is drawn once exactly when something was found or removed, and otherwise not at all |
| SubtitlesLayers.SubtitlesLayer.FoundSubtitleCanLoseShape | src/subtitles-layer.js:175-189 | when the shape filed under a found subtitle's id belongs to an out-of-range subtitle with the same id, the subtitle is found and yet ends with no shape under its id |
| SubtitlesLayers.SubtitlesLayer.ReplaceShape | src/subtitles-layer.js:73-90 | the old shape goes and a fresh one is built exactly when the subtitle is visible. The update is requested exactly when either happened, and otherwise the table is unchanged. Every other id keeps its entry |
| SubtitlesLayers.SubtitlesLayer.OnSubtitlesUpdate | src/subtitles-layer.js:73-94 | a subtitle with no shape that is not in the frame changes nothing, queries nothing and draws nothing. Otherwise `found` is what the store finds in the frame. A visible subtitle ends with a fresh shape, every found subtitle whose id had no shape ends with one, and every other shape that was visible is kept unchanged. Every entry is an old one under another id or a fresh shape for the subtitle or a found one, and after an update every shape is visible. At most one draw |
| SubtitlesLayers.SubtitlesLayer.AddShown | src/subtitles-layer.js:105-109 | each added subtitle in the frame gets a fresh shape under its id (for a shared id, that of a shown one); no old id is lost and every other entry is unchanged |
| SubtitlesLayers.SubtitlesLayer.OnSubtitlesAdd | src/subtitles-layer.js:96-112 | the added subtitles in the frame get fresh shapes under their ids. `found` is what the store finds in the frame, and every found subtitle whose id had no shape ends with one. An old shape that was visible stays unless an added subtitle replaced it. Every entry is an old one or a fresh shape for a shown or found subtitle, every remaining shape is visible, and there is at most one draw |
| SubtitlesLayers.SubtitlesLayer.OnSubtitlesRemove | src/subtitles-layer.js:114-122 | the table loses exactly the removed subtitles' ids, and one draw follows unconditionally |
| SubtitlesLayers.SubtitlesLayer.OnSubtitlesRemoveAll | src/subtitles-layer.js:124-129 | the table becomes empty, and one draw follows |
| SubtitlesLayers.SubtitlesLayer.OnSubtitlesDragged | src/subtitles-layer.js:131-134 | the dragged subtitle's markers are re-placed at its times, and one draw follows |
| SubtitlesLayers.SubtitlesLayer.Dispatch | src/subtitles-layer.js:44-48 | the five subscribed events reach their handlers, and every other event leaves the layer unchanged |
| Zoom.ZoomApi | src/main.js:549-561 | `stepped` and `continuous` select their APIs, and any other mode fails with `Invalid zoomMode: ` followed by the mode |
| Zoom.ClampIndex | src/main.js:686-692 | the index is kept when in range, moved to the last index when too large and to 0 when negative, and is 0 with no levels |
| Zoom.ClampIndexIsMinMax | src/main.js:686-692 | with levels the clamp is `min(max(i, 0), len - 1)`. With none the lower clamp, applied last, gives 0 where that formula gives -1 |
| Zoom.ClampIndexIdempotent | src/main.js:686-692 | clamping twice is clamping once |
| Zoom.LevelAt | src/main.js:698-702 | `zoomLevels[i]` is a level exactly inside the list, and undefined outside it |
| Zoom.SteppedZoom.constructor | src/main.js:327 | the index starts at `initialZoomLevel`, unchecked |
| Zoom.SteppedZoom.SetZoom | src/main.js:685-703 | stores the clamped index and emits exactly one `zoom.update` with the new and the previous level, even when the index is unchanged |
| Zoom.SteppedZoom.ZoomIn | src/main.js:669-671 | is `setZoom(current - 1)` |
| Zoom.SteppedZoom.ZoomOut | src/main.js:676-678 | is `setZoom(current + 1)` |
| Zoom.SteppedZoom.GetZoom | src/main.js:710-712 | returns the stored index |
| Zoom.ClampUnit | src/main.js:595-601 | the value is clamped into [0, 1] and kept when already inside |
| Zoom.Ease | src/main.js:617 | one step leaves two thirds of the distance to the target |
| Zoom.NextFrame | src/main.js:624-626 | another frame is requested exactly when the value is not yet within 0.001 of the target |
| Zoom.EaseTrace | src/main.js:616-632 | the ease emits at least one value, and its first value is one step from the start |
| Zoom.EaseTraceStops | src/main.js:624-626 | the ease ends within 0.001 of the target, and no earlier value is |
| Zoom.EaseTraceShrinks | src/main.js:617 | each emitted value leaves two thirds of the previous one's distance to the target |
| Zoom.EaseTraceAt | src/main.js:616-627 | the k-th emitted value is at `(2/3)^(k+1)` of the starting distance |
| Zoom.EaseTraceNoOvershoot | src/main.js:616-627 | every emitted value lies between the start and the target, and an ease with somewhere to go never lands exactly on the target |
| Zoom.Changes | src/main.js:620 | one `zoom.change` per emitted value, in order |
| Zoom.ContinuousZoom.Step | src/main.js:616-627 | emits the next value and leaves the following step pending unless settled, without touching the stored level |
| Zoom.ContinuousZoom.ZoomTo | src/main.js:593-639 | the stored level becomes the clamped value at once. Without easing, it emits exactly one `zoom.change` carrying that value and leaves a running ease alone. With easing, it cancels any pending step and runs the first step from the old level |
| Zoom.ContinuousZoom.Frame | src/main.js:625 | a frame runs the pending step, if any, and otherwise changes nothing |
| Zoom.ContinuousZoom.Settle | src/main.js:616-627 | frames run until nothing is pending, and they emit exactly the rest of the pending ease |
| Zoom.ContinuousZoom.ZoomIn | src/main.js:575-577 | an eased `zoomTo(level + 0.1)` |
| Zoom.ContinuousZoom.ZoomOut | src/main.js:582-584 | an eased `zoomTo(level - 0.1)` |
| Zoom.ContinuousZoom.GetZoom | src/main.js:650-652 | returns the stored level, which is the target from the moment an ease starts |
| Zoom.RestStep | src/main.js:616-627 | one frame emits the head of the remaining trace and leaves its tail pending |
| Zoom.EasedZoomEmitsTrace | src/main.js:604-632 | an eased `zoomTo` and all the frames it requests emit the whole trace from the old level to the clamped target, and end settled there |

## Left out

- utils.js, the colors stylesheet, `SubtitleMarker` and the label and marker factories are not part of this model. The `Utils` tests are modelled on explicit JavaScript values. The palette colors are opaque names. A factory's answer (whether a label is made, and each marker's width or no marker) is fixed per layer.
- A marker starts at x = 0. Its other drawing state (`timeUpdated`, `fitToView`, colors, fonts) is not modelled.
- Ids are compared as JavaScript values, with no coercion to property-name strings, so `1` and `"1"` are different keys here.
- Extension keys that collide with the entity's own members (such as `_startTime`) are modelled as plain extension data. The `peaks` reference among the options is modelled by the emitter each interval holds.
- Validation writes the label default back into the caller's options. The model returns the default in the validated fields instead.
- Event topics are one event datatype for both families. The store emits `textSegments.*` while the layer listens to `subtitles.*`, and the model does not reproduce that naming.
- The stepped and continuous APIs are two classes. In the source they share one `currentZoomLevel` field, so switching modes at run time is not modelled.
- The animation-frame scheduler is reduced to one pending-step slot, the `Frame` method and the `Settle` loop. Frame timing, tab visibility and `rafPointer` are not modelled.
- A zoom mode is a string. Property lookup on other `*_zoom` names is not modelled.
- `getMaximumScaleFactor`, stepped `overview` and `reset`, `getTextSegments`, `Peaks.init` and the `segments`/`points`/`time` getters are not modelled. They are constants, getters, or depend on waveform and player modules that are not part of this model.
- Konva drawing is not modelled: `addToStage`, `setVisible`, `getHeight`, `fitToView`, `formatTime`, `addToLayer`, `removeChildren`, the layer's `destroy` that unsubscribes, and the shape's mouse enter, leave and click handlers. `draw` is a counter.
- `_removeInvisibleSubtitles` iterates over a snapshot of the shape table rather than the live object. The source only deletes entries it has already visited, so the result is the same.
- The demo script is not part of this model.
- `add(a, b, ...)` with several arguments, collected by `Array.prototype.slice.call(arguments)` (src/waveform-subtitles.js:212-214), is not modelled. The store's `Add` takes the batch as one sequence, which is what the arguments become; a single option set is a batch of one.
- Times and zoom scales are JavaScript doubles in the source and `real` here. Near the easing tolerance of 0.001 a floating-point run can stop one step earlier or later than `EaseTrace`.
- A failed validation is identified by the check that failed and its message. Whether the source throws it as a `TypeError` or a `RangeError` is not modelled.
- SubtitlesLayers.SubtitlesLayer.UpdateSubtitles: does not restate the marker positions each found subtitle receives. `UpdateSubtitle` states them for one call.
- SubtitlesLayers.SubtitlesLayer.PlaceAll: does not state the marker positions either, for the same reason.
- SubtitlesLayers.SubtitlesLayer.OnSubtitlesUpdate: states at most one draw, not the exact condition, which `UpdateSubtitles` gives. It also does not state which dropped shapes were destroyed, nor which found subtitles reuse an old shape.
- SubtitlesLayers.SubtitlesLayer.OnSubtitlesAdd: states at most one draw. For added subtitles that share an id, it says only that the shape belongs to a shown one, not to the last of them.
- SubtitlesLayers.SubtitlesLayer.OnSubtitlesRemove: does not state that the removed shapes were destroyed. `RemoveSubtitle` states it for one call.
- SubtitlesLayers.SubtitlesLayer.Dispatch: states only what every handler keeps and that other events are ignored. Each handler's own contract says the rest.
