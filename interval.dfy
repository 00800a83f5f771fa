/**
 * The interval entity shared by `Subtitle` (src/subtitle.js) and its twin
 * `TextSegment` (src/text-segment.js). The two files differ only in the
 * namespace of their error messages and event topics, so one class serves
 * both; `family` says which one an object is.
 *
 * The event log lives here too: events carry intervals, and every component
 * that emits (the store, the shapes, the zoom controls) imports this module.
 */
module Intervals {
  import opened Wrappers
  import opened JsValues

  datatype Family = Subtitle | TextSegment

  /** The call on whose behalf validation runs: the constructor or `update`. */
  datatype Context = AddCall | UpdateCall

  /** The checks of `validateSubtitle`/`validateTextSegment`, in the order they run. */
  datatype Check =
    | StartTimeValid
    | EndTimeValid
    | StartTimeNonNegative
    | EndTimeNonNegative
    | EndNotBeforeStart
    | LabelIsString
    | EditableIsBoolean
    | ColorIsValid

  function Rank(c: Check): nat {
    match c
    case StartTimeValid => 0
    case EndTimeValid => 1
    case StartTimeNonNegative => 2
    case EndTimeNonNegative => 3
    case EndNotBeforeStart => 4
    case LabelIsString => 5
    case EditableIsBoolean => 6
    case ColorIsValid => 7
  }

  /** What a failed validation throws: which entity, which call, which check. */
  datatype ValidationError = ValidationError(family: Family, context: Context, failed: Check)

  function Namespace(f: Family): string {
    match f
    case Subtitle => "peaks.subtitles."
    case TextSegment => "peaks.textSegments."
  }

  function CallName(c: Context): string {
    match c
    case AddCall => "add()"
    case UpdateCall => "update()"
  }

  function Complaint(c: Check): string {
    match c
    case StartTimeValid => "startTime should be a valid number"
    case EndTimeValid => "endTime should be a valid number"
    case StartTimeNonNegative => "startTime should not be negative"
    case EndTimeNonNegative => "endTime should not be negative"
    case EndNotBeforeStart => "endTime should not be less than startTime"
    case LabelIsString => "labelText must be a string"
    case EditableIsBoolean => "editable must be true or false"
    case ColorIsValid => "color must be a string or a valid linear gradient object"
  }

  /** The text of the thrown error. */
  function Message(e: ValidationError): (m: string)
    ensures |m| > |Namespace(e.family)| && m[..|Namespace(e.family)|] == Namespace(e.family)
  {
    Namespace(e.family) + CallName(e.context) + ": " + Complaint(e.failed)
  }

  /** Whether the options pass check `c`, each check judged on its own. */
  predicate Passes(o: Options, c: Check) {
    var st := Get(o, "startTime");
    var et := Get(o, "endTime");
    var lbl := Get(o, "labelText");
    var editable := Get(o, "editable");
    var color := Get(o, "color");
    match c
    case StartTimeValid => IsValidTime(st)
    case EndTimeValid => IsValidTime(et)
    case StartTimeNonNegative => st.Num? ==> st.n >= 0.0
    case EndTimeNonNegative => et.Num? ==> et.n >= 0.0
    case EndNotBeforeStart => st.Num? && et.Num? ==> st.n <= et.n
    case LabelIsString => IsNullOrUndefined(lbl) || IsString(lbl)
    case EditableIsBoolean => IsBoolean(editable)
    case ColorIsValid => !Truthy(color) || IsString(color) || IsLinearGradientColor(color)
  }

  /** The five validated fields an interval stores. */
  datatype CoreFields = CoreFields(startTime: real, endTime: real, labelText: string, color: Value, editable: bool)

  /** The interval invariant the validation establishes. */
  predicate WellFormed(f: CoreFields) {
    0.0 <= f.startTime <= f.endTime &&
    (!Truthy(f.color) || IsString(f.color) || IsLinearGradientColor(f.color))
  }

  /**
   * `validateSubtitle(options, context)`: runs the checks in order and
   * reports the first that fails; on success yields the fields the
   * constructor stores, with a null or undefined label replaced by "".
   */
  function Validate(family: Family, context: Context, o: Options): (r: Result<CoreFields, ValidationError>)
    ensures r.Failure? ==>
      && r.error.family == family && r.error.context == context
      && !Passes(o, r.error.failed)
      && forall c :: Rank(c) < Rank(r.error.failed) ==> Passes(o, c)
    ensures r.Success? <==> forall c :: Passes(o, c)
    ensures r.Success? ==>
      && WellFormed(r.value)
      && Get(o, "startTime") == Num(r.value.startTime)
      && Get(o, "endTime") == Num(r.value.endTime)
      && Get(o, "editable") == Bool(r.value.editable)
      && r.value.color == Get(o, "color")
      && (IsNullOrUndefined(Get(o, "labelText")) ==> r.value.labelText == "")
      && (!IsNullOrUndefined(Get(o, "labelText")) ==> Get(o, "labelText") == Str(r.value.labelText))
  {
    var st := Get(o, "startTime");
    var et := Get(o, "endTime");
    var lbl := Get(o, "labelText");
    var editable := Get(o, "editable");
    var color := Get(o, "color");
    if !IsValidTime(st) then Failure(ValidationError(family, context, StartTimeValid))
    else if !IsValidTime(et) then Failure(ValidationError(family, context, EndTimeValid))
    else if st.n < 0.0 then Failure(ValidationError(family, context, StartTimeNonNegative))
    else if et.n < 0.0 then Failure(ValidationError(family, context, EndTimeNonNegative))
    else if et.n < st.n then Failure(ValidationError(family, context, EndNotBeforeStart))
    else if !IsNullOrUndefined(lbl) && !IsString(lbl) then Failure(ValidationError(family, context, LabelIsString))
    else if !IsBoolean(editable) then Failure(ValidationError(family, context, EditableIsBoolean))
    else if Truthy(color) && !IsString(color) && !IsLinearGradientColor(color) then
      Failure(ValidationError(family, context, ColorIsValid))
    else
      Success(CoreFields(st.n, et.n, if IsNullOrUndefined(lbl) then "" else lbl.s, color, editable.b))
  }

  /** Construction succeeds exactly for valid, non-negative, ordered times (and well-typed extras). */
  lemma {:induction false} ConstructionSucceedsIff(family: Family, o: Options)
    ensures Validate(family, AddCall, o).Success? <==>
      && Get(o, "startTime").Num? && Get(o, "endTime").Num?
      && 0.0 <= Get(o, "startTime").n <= Get(o, "endTime").n
      && Passes(o, LabelIsString) && Passes(o, EditableIsBoolean) && Passes(o, ColorIsValid)
  {
    var r := Validate(family, AddCall, o);
    if r.Failure? {
      assert !Passes(o, r.error.failed);
    }
  }

  /** The two twin files validate alike: same verdict, same failing check. */
  lemma FamiliesValidateAlike(context: Context, o: Options)
    ensures Validate(Subtitle, context, o).Success? == Validate(TextSegment, context, o).Success?
    ensures Validate(Subtitle, context, o).Success? ==>
      Validate(Subtitle, context, o).value == Validate(TextSegment, context, o).value
    ensures Validate(Subtitle, context, o).Failure? ==>
      Validate(Subtitle, context, o).error.failed == Validate(TextSegment, context, o).error.failed
  {
  }

  /** The options `update` starts from: the five current fields. */
  function Snapshot(f: CoreFields): (o: Options)
    ensures o.Keys == {"startTime", "endTime", "labelText", "color", "editable"}
  {
    map["startTime" := Num(f.startTime), "endTime" := Num(f.endTime), "labelText" := Str(f.labelText),
        "color" := f.color, "editable" := Bool(f.editable)]
  }

  /** The option set `update(changes)` validates. */
  function Merge(f: CoreFields, changes: Options): Options {
    Extend(Snapshot(f), changes)
  }

  /** Validating an unchanged well-formed state gives that state back, so `update({})` changes nothing. */
  lemma SnapshotRoundTrip(family: Family, context: Context, f: CoreFields)
    requires WellFormed(f)
    ensures Validate(family, context, Snapshot(f)) == Success(f)
  {
    var o := Snapshot(f);
    forall c ensures Passes(o, c) {
    }
  }

  /** A successful `update` keeps every core field its changes do not name. */
  lemma UpdateKeepsUnnamedFields(family: Family, f: CoreFields, changes: Options)
    requires Validate(family, UpdateCall, Merge(f, changes)).Success?
    ensures var g := Validate(family, UpdateCall, Merge(f, changes)).value;
      && ("startTime" !in changes ==> g.startTime == f.startTime)
      && ("endTime" !in changes ==> g.endTime == f.endTime)
      && ("labelText" !in changes ==> g.labelText == f.labelText)
      && ("color" !in changes ==> g.color == f.color)
      && ("editable" !in changes ==> g.editable == f.editable)
  {
  }

  /** An update that moves the end before a start it leaves alone is rejected on the ordering check. */
  lemma UpdateRejectsReversedTimes(family: Family, f: CoreFields, changes: Options, e: real)
    requires WellFormed(f)
    requires "startTime" !in changes && Get(changes, "endTime") == Num(e)
    requires 0.0 <= e < f.startTime
    ensures Validate(family, UpdateCall, Merge(f, changes)) == Failure(ValidationError(family, UpdateCall, EndNotBeforeStart))
  {
    var o := Merge(f, changes);
    assert Passes(o, StartTimeValid) && Passes(o, EndTimeValid);
    assert Passes(o, StartTimeNonNegative) && Passes(o, EndTimeNonNegative);
    assert !Passes(o, EndNotBeforeStart);
  }

  /** The option keys the constructor and `update` treat as core; `_setUserData` skips them. */
  const CoreKeys: set<string> := {"peaks", "id", "startTime", "endTime", "labelText", "color", "editable"}

  /** The extension keys of an option set, copied verbatim onto the entity. */
  function Extension(o: Options): (x: map<string, Value>)
    ensures x.Keys == o.Keys - CoreKeys
    ensures forall k :: k in x ==> x[k] == o[k]
  {
    map k | k in o && k !in CoreKeys :: o[k]
  }

  /** `isVisible`: strict overlap of [start, end] with the window (touching endpoints do not count). */
  predicate Overlaps(start: real, end: real, windowStart: real, windowEnd: real) {
    start < windowEnd && windowStart < end
  }

  predicate Within(t: real, start: real, end: real) {
    start < t < end
  }

  /** For non-empty spans, overlap means some instant lies strictly inside both. */
  lemma OverlapIsSharedInstant(start: real, end: real, windowStart: real, windowEnd: real)
    requires start < end && windowStart < windowEnd
    ensures Overlaps(start, end, windowStart, windowEnd) <==>
      exists t :: Within(t, start, end) && Within(t, windowStart, windowEnd)
  {
    if Overlaps(start, end, windowStart, windowEnd) {
      var lo := if start < windowStart then windowStart else start;
      var hi := if end < windowEnd then end else windowEnd;
      var t := (lo + hi) / 2.0;
      assert Within(t, start, end) && Within(t, windowStart, windowEnd);
    }
  }

  /** An interval never overlaps a window that only touches it, for example [10,20] and [20,30]. */
  lemma TouchingDoesNotOverlap(a: real, b: real, c: real)
    ensures !Overlaps(a, b, b, c) && !Overlaps(b, c, a, b)
  {
  }

  /** A zero-length interval [a,a] is never reported for a window that starts at a. */
  lemma ZeroLengthMissesWindowAtItsStart(a: real, eps: real)
    requires eps > 0.0
    ensures !Overlaps(a, a, a, a + eps)
  {
  }

  datatype Event =
    | SegmentsAdded(added: seq<Interval>)
    | SegmentsRemoved(removed: seq<Interval>)
    | SegmentsRemovedAll
    | SegmentUpdated(segment: Interval)
    | DragStarted(segment: Interval, startMarker: bool)
    | Dragged(segment: Interval, startMarker: bool)
    | DragEnded(segment: Interval, startMarker: bool)
    | ZoomUpdated(scale: Option<int>, previousScale: Option<int>)
    | ZoomChanged(value: real)

  /** The Peaks instance as an event emitter: what it has emitted, in order. */
  class Emitter {
    var log: seq<Event>

    constructor ()
      ensures log == []
    {
      log := [];
    }

    method Emit(e: Event)
      modifies this
      ensures log == old(log) + [e]
    {
      log := log + [e];
    }
  }

  class Interval {
    const family: Family
    const peaks: Emitter
    const id: Value
    var startTime: real
    var endTime: real
    var labelText: string
    var color: Value
    var editable: bool
    var userData: map<string, Value>

    function Fields(): CoreFields
      reads this
    {
      CoreFields(startTime, endTime, labelText, color, editable)
    }

    /** The field assignments of the constructor, after validation has passed. */
    constructor Init(family: Family, peaks: Emitter, options: Options, f: CoreFields)
      ensures this.family == family && this.peaks == peaks && id == Get(options, "id")
      ensures Fields() == f && userData == Extension(options)
    {
      this.family := family;
      this.peaks := peaks;
      id := Get(options, "id");
      startTime, endTime := f.startTime, f.endTime;
      labelText, color, editable := f.labelText, f.color, f.editable;
      userData := map[];
      new;
      SetUserData(options);
    }

    /** `new Subtitle(options)`: validate, then store; on failure no object exists. */
    static method Create(family: Family, peaks: Emitter, options: Options) returns (r: Result<Interval, ValidationError>)
      ensures r.Failure? <==> Validate(family, AddCall, options).Failure?
      ensures r.Failure? ==> r.error == Validate(family, AddCall, options).error
      ensures r.Success? ==>
        && fresh(r.value) && r.value.family == family && r.value.peaks == peaks
        && r.value.id == Get(options, "id")
        && r.value.Fields() == Validate(family, AddCall, options).value
        && r.value.userData == Extension(options)
    {
      var v := Validate(family, AddCall, options);
      if v.Failure? {
        return Failure(v.error);
      }
      var x := new Interval.Init(family, peaks, options, v.value);
      return Success(x);
    }

    /** `_setUserData`: copy the extension keys; core fields are never touched. */
    method SetUserData(options: Options)
      modifies this
      ensures userData == old(userData) + Extension(options)
      ensures Fields() == old(Fields())
    {
      userData := userData + Extension(options);
    }

    /**
     * `update(changes)`: merge the changes onto a snapshot of the five
     * fields, validate the whole merge, and only then commit and emit.
     */
    method Update(changes: Options) returns (r: Outcome<ValidationError>)
      modifies this, peaks
      ensures var v := Validate(family, UpdateCall, Merge(old(Fields()), changes));
        && (v.Failure? ==>
              r == Fail(v.error) && Fields() == old(Fields()) && userData == old(userData)
              && peaks.log == old(peaks.log))
        && (v.Success? ==>
              r == Pass && Fields() == v.value && userData == old(userData) + Extension(changes)
              && peaks.log == old(peaks.log) + [SegmentUpdated(this)])
    {
      var v := Validate(family, UpdateCall, Merge(Fields(), changes));
      if v.Failure? {
        return Fail(v.error);
      }
      startTime, endTime := v.value.startTime, v.value.endTime;
      labelText, color, editable := v.value.labelText, v.value.color, v.value.editable;
      SetUserData(changes);
      peaks.Emit(SegmentUpdated(this));
      r := Pass;
    }

    predicate IsVisible(windowStart: real, windowEnd: real)
      reads this
    {
      Overlaps(startTime, endTime, windowStart, windowEnd)
    }

    /** `_setStartTime`: assigns without any check, so start > end is reachable. */
    method SetStartTime(time: real)
      modifies this
      ensures startTime == time && endTime == old(endTime)
      ensures labelText == old(labelText) && color == old(color) && editable == old(editable)
      ensures userData == old(userData)
    {
      startTime := time;
    }

    /** `_setEndTime`: assigns without any check. */
    method SetEndTime(time: real)
      modifies this
      ensures endTime == time && startTime == old(startTime)
      ensures labelText == old(labelText) && color == old(color) && editable == old(editable)
      ensures userData == old(userData)
    {
      endTime := time;
    }
  }

  /** The unchecked setters can leave an interval with its start after its end. */
  method ReversedTimesReachable(peaks: Emitter)
  {
    var x := new Interval.Init(Subtitle, peaks, map[], CoreFields(1.0, 2.0, "", Undefined, true));
    x.SetStartTime(5.0);
    assert x.startTime > x.endTime && !WellFormed(x.Fields());
  }
}
