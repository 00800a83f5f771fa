/**
 * The zoom state of a Peaks instance (src/main.js): the `zoom` getter that
 * picks the API for the configured mode, the stepped API that moves an index
 * into the list of zoom levels, and the continuous API that moves a level in
 * [0, 1], optionally easing towards it over animation frames.
 */
module Zoom {
  import opened Wrappers
  import opened Intervals

  /** The two zoom APIs a Peaks instance carries. */
  datatype ZoomKind = SteppedZoomApi | ContinuousZoomApi

  const InvalidZoomModePrefix: string := "Invalid zoomMode: "

  /** The `zoom` getter: the API whose property name is the mode followed by `_zoom`. */
  function ZoomApi(mode: string): (r: Result<ZoomKind, string>)
    ensures r == Success(SteppedZoomApi) <==> mode == "stepped"
    ensures r == Success(ContinuousZoomApi) <==> mode == "continuous"
    ensures r.Failure? <==> mode != "stepped" && mode != "continuous"
    ensures r.Failure? ==> r.error == InvalidZoomModePrefix + mode
  {
    if mode == "stepped" then Success(SteppedZoomApi)
    else if mode == "continuous" then Success(ContinuousZoomApi)
    else Failure(InvalidZoomModePrefix + mode)
  }

  // ---------------------------------------------------------------------------
  // Stepped zoom
  // ---------------------------------------------------------------------------

  /** The default `zoomLevels` option. */
  const DefaultZoomLevels: seq<int> := [512, 1024, 2048, 4096]

  /** `setZoom`'s clamp: first down to the last index, then up to zero. */
  function ClampIndex(index: int, count: nat): (r: int)
    ensures count > 0 ==> 0 <= r < count
    ensures 0 <= index < count ==> r == index
    ensures count > 0 && index >= count ==> r == count - 1
    ensures index < 0 ==> r == 0
    ensures count == 0 ==> r == 0
  {
    var upper := if index >= count then count - 1 else index;
    if upper < 0 then 0 else upper
  }

  function Min(a: int, b: int): int { if a <= b then a else b }
  function Max(a: int, b: int): int { if a >= b then a else b }

  /**
   * With at least one level the clamp is `min(max(i, 0), count - 1)`; with no
   * levels the lower clamp, applied last, wins and the index is 0, not -1.
   */
  lemma ClampIndexIsMinMax(index: int, count: nat)
    ensures count > 0 ==> ClampIndex(index, count) == Min(Max(index, 0), count - 1)
    ensures count == 0 ==> ClampIndex(index, count) == 0 && Min(Max(index, 0), count - 1) == -1
  {
  }

  /** Clamping twice is clamping once. */
  lemma ClampIndexIdempotent(index: int, count: nat)
    ensures ClampIndex(ClampIndex(index, count), count) == ClampIndex(index, count)
  {
  }

  /** `zoomLevels[i]`: undefined outside the list. */
  function LevelAt(levels: seq<int>, index: int): (r: Option<int>)
    ensures r.Some? <==> 0 <= index < |levels|
    ensures r.Some? ==> r.value == levels[index]
  {
    if 0 <= index < |levels| then Some(levels[index]) else None
  }

  /** The stepped API over one instance: `currentZoomLevel` is an index into `levels`. */
  class SteppedZoom {
    const levels: seq<int>
    const peaks: Emitter
    var current: int

    /** The instance starts at its `initialZoomLevel`, which nothing checks against the list. */
    constructor (levels: seq<int>, initialZoomLevel: int, peaks: Emitter)
      ensures this.levels == levels && this.peaks == peaks && current == initialZoomLevel
    {
      this.levels := levels;
      this.peaks := peaks;
      current := initialZoomLevel;
    }

    /**
     * `setZoom`: store the clamped index and always emit `zoom.update` with
     * the new and the previous level, even when the index did not move.
     */
    method SetZoom(index: int)
      modifies this, peaks
      ensures current == ClampIndex(index, |levels|)
      ensures |levels| > 0 ==> 0 <= current < |levels|
      ensures peaks.log == old(peaks.log) + [ZoomUpdated(LevelAt(levels, current), LevelAt(levels, old(current)))]
      ensures |levels| > 0 ==> LevelAt(levels, current).Some?
    {
      var zoomLevelIndex := index;
      if zoomLevelIndex >= |levels| {
        zoomLevelIndex := |levels| - 1;
      }
      if zoomLevelIndex < 0 {
        zoomLevelIndex := 0;
      }
      var previousZoomLevel := current;
      current := zoomLevelIndex;
      peaks.Emit(ZoomUpdated(LevelAt(levels, zoomLevelIndex), LevelAt(levels, previousZoomLevel)));
    }

    /** `zoomIn`: one index down, towards the finer levels. */
    method ZoomIn()
      modifies this, peaks
      ensures current == ClampIndex(old(current) - 1, |levels|)
      ensures peaks.log == old(peaks.log) + [ZoomUpdated(LevelAt(levels, current), LevelAt(levels, old(current)))]
    {
      SetZoom(current - 1);
    }

    /** `zoomOut`: one index up, towards the coarser levels. */
    method ZoomOut()
      modifies this, peaks
      ensures current == ClampIndex(old(current) + 1, |levels|)
      ensures peaks.log == old(peaks.log) + [ZoomUpdated(LevelAt(levels, current), LevelAt(levels, old(current)))]
    {
      SetZoom(current + 1);
    }

    /** `getZoom`: the stored index. */
    function GetZoom(): (r: int)
      reads this
      ensures r == current
    {
      current
    }
  }

  /** Zooming in from the first level stays there, and still emits. */
  method ZoomInAtFirstLevelStays(peaks: Emitter)
    modifies peaks
  {
    var zoom := new SteppedZoom(DefaultZoomLevels, 0, peaks);
    var before := peaks.log;
    zoom.ZoomIn();
    assert zoom.GetZoom() == 0;
    assert peaks.log == before + [ZoomUpdated(Some(512), Some(512))];
  }

  // ---------------------------------------------------------------------------
  // Continuous zoom
  // ---------------------------------------------------------------------------

  /** `zoomTo`'s clamp to [0, 1]. */
  function ClampUnit(value: real): (r: real)
    ensures 0.0 <= r <= 1.0
    ensures 0.0 <= value <= 1.0 ==> r == value
    ensures value > 1.0 ==> r == 1.0
    ensures value < 0.0 ==> r == 0.0
  {
    var upper := if value > 1.0 then 1.0 else value;
    if upper < 0.0 then 0.0 else upper
  }

  /** How much of the remaining distance each easing step covers: a third. */
  const EaseValue: real := 3.0

  /** The ease stops once the value is this close to the target. */
  const EaseTolerance: real := 0.001

  /** How far one continuous `zoomIn` or `zoomOut` moves the level. */
  const ZoomStep: real := 0.1

  function Abs(x: real): real { if x >= 0.0 then x else -x }

  /** One easing step: a third of the way to the target. */
  function Ease(value: real, target: real): (r: real)
    ensures r - target == (value - target) * 2.0 / 3.0
  {
    value + (target - value) / EaseValue
  }

  /** Whether the ease has come close enough to stop. */
  predicate Settled(value: real, target: real) {
    Abs(value - target) <= EaseTolerance
  }

  /** The bound that makes the ease stop: a third of the distance is more than one unit of it. */
  function EaseMeasure(value: real, target: real): nat {
    (3000.0 * Abs(value - target)).Floor
  }

  lemma EaseMeasureDrops(value: real, target: real)
    requires !Settled(Ease(value, target), target)
    ensures EaseMeasure(Ease(value, target), target) < EaseMeasure(value, target)
  {
    var d := Abs(Ease(value, target) - target);
    assert Abs(value - target) == d * 3.0 / 2.0;
    assert 3000.0 * d * 3.0 / 2.0 >= 3000.0 * d + 1.0;
  }

  /**
   * The values an ease from `value` emits, one per animation frame: the first
   * step is always taken, and steps go on while the value is not settled.
   */
  function EaseTrace(value: real, target: real): (r: seq<real>)
    ensures |r| >= 1 && r[0] == Ease(value, target)
    decreases EaseMeasure(value, target)
  {
    var next := Ease(value, target);
    if Settled(next, target) then [next]
    else
      EaseMeasureDrops(value, target);
      [next] + EaseTrace(next, target)
  }

  /** The ease ends settled, and nothing before its end is. */
  lemma {:induction false} EaseTraceStops(value: real, target: real)
    ensures var r := EaseTrace(value, target);
      && Settled(r[|r| - 1], target)
      && forall k :: 0 <= k < |r| - 1 ==> !Settled(r[k], target)
    decreases EaseMeasure(value, target)
  {
    var next := Ease(value, target);
    if !Settled(next, target) {
      EaseMeasureDrops(value, target);
      EaseTraceStops(next, target);
      var r, rest := EaseTrace(value, target), EaseTrace(next, target);
      assert r == [next] + rest;
      forall k | 0 <= k < |r| - 1 ensures !Settled(r[k], target) {
        if k > 0 {
          assert r[k] == rest[k - 1];
        }
      }
    }
  }

  /** Each step leaves two thirds of the previous distance to the target. */
  lemma {:induction false} EaseTraceShrinks(value: real, target: real)
    ensures forall k :: 0 <= k < |EaseTrace(value, target)| - 1 ==>
      EaseTrace(value, target)[k + 1] - target == (EaseTrace(value, target)[k] - target) * 2.0 / 3.0
    decreases EaseMeasure(value, target)
  {
    var next := Ease(value, target);
    if !Settled(next, target) {
      EaseMeasureDrops(value, target);
      EaseTraceShrinks(next, target);
      var r, rest := EaseTrace(value, target), EaseTrace(next, target);
      assert r == [next] + rest;
      forall k | 0 <= k < |r| - 1 ensures r[k + 1] - target == (r[k] - target) * 2.0 / 3.0 {
        if k == 0 {
          assert r[1] == rest[0] == Ease(next, target);
        } else {
          var j := k - 1;
          assert r[k] == rest[j] && r[k + 1] == rest[j + 1];
          assert rest[j + 1] - target == (rest[j] - target) * 2.0 / 3.0;
        }
      }
    }
  }

  function Pow(x: real, n: nat): real {
    if n == 0 then 1.0 else x * Pow(x, n - 1)
  }

  /** The closed form: after `k + 1` steps the distance is `(2/3)^(k+1)` of the start's. */
  lemma {:induction false} EaseTraceAt(value: real, target: real, k: nat)
    requires k < |EaseTrace(value, target)|
    ensures EaseTrace(value, target)[k] - target == Pow(2.0 / 3.0, k + 1) * (value - target)
    decreases k
  {
    var next := Ease(value, target);
    var r := EaseTrace(value, target);
    if k == 0 {
      PowStep(0, r[0] - target, next - target, value - target);
    } else {
      assert !Settled(next, target);
      var rest := EaseTrace(next, target);
      assert r == [next] + rest;
      assert r[k] == rest[k - 1];
      EaseTraceAt(next, target, k - 1);
      PowStep(k, r[k] - target, next - target, value - target);
    }
  }

  lemma PowStep(k: nat, x: real, e: real, d: real)
    requires x == Pow(2.0 / 3.0, k) * e && e == d * 2.0 / 3.0
    ensures x == Pow(2.0 / 3.0, k + 1) * d
  {
    var p := Pow(2.0 / 3.0, k);
    assert p * (d * 2.0 / 3.0) == (2.0 / 3.0 * p) * d;
  }

  lemma {:induction false} PowBounds(n: nat)
    ensures 0.0 < Pow(2.0 / 3.0, n) <= 1.0
  {
    if n > 0 {
      PowBounds(n - 1);
    }
  }

  /** Whether `x` lies between `a` and `b`, ends included. */
  predicate Between(x: real, a: real, b: real) {
    (a <= b ==> a <= x <= b) && (b <= a ==> b <= x <= a)
  }

  /**
   * No step overshoots: every emitted value lies between the start and the
   * target, and an ease that has somewhere to go never lands exactly on it.
   */
  lemma EaseTraceNoOvershoot(value: real, target: real)
    ensures var r := EaseTrace(value, target);
      forall k :: 0 <= k < |r| ==> Between(r[k], value, target)
    ensures var r := EaseTrace(value, target);
      value != target ==> forall k :: 0 <= k < |r| ==> r[k] != target
  {
    var r := EaseTrace(value, target);
    forall k | 0 <= k < |r| ensures Between(r[k], value, target) && (value != target ==> r[k] != target) {
      EaseTraceAt(value, target, k);
      PowBounds(k + 1);
      ScaledBetween(value, target, r[k], Pow(2.0 / 3.0, k + 1));
    }
  }

  /** A point a fraction `p` of the way back from the target lies between the start and the target. */
  lemma ScaledBetween(value: real, target: real, x: real, p: real)
    requires 0.0 < p <= 1.0 && x - target == p * (value - target)
    ensures Between(x, value, target) && (value != target ==> x != target)
  {
    var d := value - target;
    SignOfProduct(p, d);
    SignOfProduct(1.0 - p, d);
    assert (1.0 - p) * d == d - p * d;
  }

  lemma SignOfProduct(a: real, b: real)
    requires a >= 0.0
    ensures b <= 0.0 ==> a * b <= 0.0
    ensures b >= 0.0 ==> a * b >= 0.0
    ensures a > 0.0 && b != 0.0 ==> a * b != 0.0
  {
  }

  /** The `zoom.change` events that carry a sequence of levels, in order. */
  function Changes(values: seq<real>): (r: seq<Event>)
    ensures |r| == |values|
    ensures forall k :: 0 <= k < |r| ==> r[k] == ZoomChanged(values[k])
  {
    if values == [] then [] else [ZoomChanged(values[0])] + Changes(values[1..])
  }

  /** The one animation frame an ease may have requested: the `step` closure's captured value and target. */
  datatype Easing = Easing(value: real, target: real)

  /** The easing step left pending after a step that reached `value`. */
  function NextFrame(value: real, target: real): (r: Option<Easing>)
    ensures r.Some? <==> !Settled(value, target)
    ensures r.Some? ==> r.value == Easing(value, target)
  {
    if Settled(value, target) then None else Some(Easing(value, target))
  }

  /** The continuous API over one instance: `currentZoomLevel` is a level in [0, 1]. */
  class ContinuousZoom {
    const peaks: Emitter
    var level: real
    /** The step requested from the next animation frame, if any. */
    var pending: Option<Easing>

    constructor (initialZoomLevel: real, peaks: Emitter)
      ensures this.peaks == peaks && level == initialZoomLevel && pending == None
    {
      this.peaks := peaks;
      level := initialZoomLevel;
      pending := None;
    }

    /** The `step` closure: move a third of the way, emit the value, and request another frame unless settled. */
    method Step(value: real, target: real)
      modifies this, peaks
      ensures peaks.log == old(peaks.log) + [ZoomChanged(Ease(value, target))]
      ensures pending == NextFrame(Ease(value, target), target)
      ensures level == old(level)
    {
      var currentZoomValue := value + (target - value) / EaseValue;
      peaks.Emit(ZoomChanged(currentZoomValue));
      if Abs(currentZoomValue - target) > EaseTolerance {
        pending := Some(Easing(currentZoomValue, target));
      } else {
        pending := None;
      }
    }

    /**
     * `zoomTo`: clamp the value and store it at once. Without easing it is
     * emitted once and any ease already running goes on; with easing the
     * running ease is cancelled and the first step from the old level runs.
     */
    method ZoomTo(value: real, ease: bool)
      modifies this, peaks
      ensures level == ClampUnit(value)
      ensures !ease ==> peaks.log == old(peaks.log) + [ZoomChanged(ClampUnit(value))] && pending == old(pending)
      ensures ease ==>
        && peaks.log == old(peaks.log) + [ZoomChanged(EaseTrace(old(level), ClampUnit(value))[0])]
        && pending == NextFrame(EaseTrace(old(level), ClampUnit(value))[0], ClampUnit(value))
    {
      var zoomValue := value;
      if zoomValue > 1.0 {
        zoomValue := 1.0;
      }
      if zoomValue < 0.0 {
        zoomValue := 0.0;
      }
      if ease {
        var finalZoomValue := zoomValue;
        var currentZoomValue := level;
        level := zoomValue;
        pending := None;
        Step(currentZoomValue, finalZoomValue);
      } else {
        level := zoomValue;
        peaks.Emit(ZoomChanged(zoomValue));
      }
    }

    /** An animation frame fires: the pending step runs, if there is one. */
    method Frame()
      modifies this, peaks
      ensures level == old(level)
      ensures old(pending).None? ==> peaks.log == old(peaks.log) && pending == None
      ensures old(pending).Some? ==>
        var e := old(pending).value;
        && peaks.log == old(peaks.log) + [ZoomChanged(Ease(e.value, e.target))]
        && pending == NextFrame(Ease(e.value, e.target), e.target)
    {
      if pending.Some? {
        Step(pending.value.value, pending.value.target);
      }
    }

    /** Animation frames fire until the ease has settled: the rest of the trace is emitted. */
    method Settle()
      modifies this, peaks
      ensures level == old(level) && pending == None
      ensures peaks.log == old(peaks.log) + Rest(old(pending))
    {
      ghost var total := peaks.log + Rest(pending);
      while pending.Some?
        invariant level == old(level)
        invariant peaks.log + Rest(pending) == total
        decreases if pending.Some? then EaseMeasure(pending.value.value, pending.value.target) + 1 else 0
      {
        var e := pending.value;
        ghost var log := peaks.log;
        Frame();
        assert log + Rest(Some(e)) == peaks.log + Rest(pending) by {
          FrameKeepsTotal(log, e);
        }
        if pending.Some? {
          EaseMeasureDrops(e.value, e.target);
        }
      }
      assert Rest(pending) == [];
    }

    /** Continuous `zoomIn`: ease to the stored level plus a step. */
    method ZoomIn()
      modifies this, peaks
      ensures level == ClampUnit(old(level) + ZoomStep)
      ensures peaks.log == old(peaks.log) + [ZoomChanged(EaseTrace(old(level), level)[0])]
      ensures pending == NextFrame(EaseTrace(old(level), level)[0], level)
    {
      ZoomTo(level + ZoomStep, true);
    }

    /** Continuous `zoomOut`: ease to the stored level minus a step. */
    method ZoomOut()
      modifies this, peaks
      ensures level == ClampUnit(old(level) - ZoomStep)
      ensures peaks.log == old(peaks.log) + [ZoomChanged(EaseTrace(old(level), level)[0])]
      ensures pending == NextFrame(EaseTrace(old(level), level)[0], level)
    {
      ZoomTo(level - ZoomStep, true);
    }

    /** `getZoom`: the stored level, which is the target as soon as an ease starts. */
    function GetZoom(): (r: real)
      reads this
      ensures r == level
    {
      level
    }
  }

  /** What the pending step and the frames after it will emit. */
  function Rest(pending: Option<Easing>): seq<Event> {
    if pending.Some? then Changes(EaseTrace(pending.value.value, pending.value.target)) else []
  }

  /** One frame emits the head of the remaining trace and leaves its tail pending. */
  lemma RestStep(value: real, target: real)
    ensures Changes(EaseTrace(value, target)) ==
      [ZoomChanged(Ease(value, target))] + Rest(NextFrame(Ease(value, target), target))
  {
    var next := Ease(value, target);
    var r := EaseTrace(value, target);
    if Settled(next, target) {
      assert r == [next];
    } else {
      assert r == [next] + EaseTrace(next, target);
      ChangesAppend([next], EaseTrace(next, target));
    }
  }

  /** After a frame, what has been emitted and what is still to come add up to what was to come before it. */
  lemma FrameKeepsTotal(log: seq<Event>, e: Easing)
    ensures var next := Ease(e.value, e.target);
      (log + [ZoomChanged(next)]) + Rest(NextFrame(next, e.target)) == log + Rest(Some(e))
  {
    RestStep(e.value, e.target);
  }

  lemma {:induction false} ChangesAppend(a: seq<real>, b: seq<real>)
    ensures Changes(a + b) == Changes(a) + Changes(b)
  {
    assert |Changes(a + b)| == |Changes(a) + Changes(b)|;
  }

  /**
   * An eased `zoomTo` followed by every frame it requests emits the whole
   * trace from the old level to the clamped target, and ends settled there.
   */
  method EasedZoomEmitsTrace(zoom: ContinuousZoom, value: real)
    modifies zoom, zoom.peaks
    ensures zoom.level == ClampUnit(value) && zoom.pending == None
    ensures zoom.peaks.log == old(zoom.peaks.log) + Changes(EaseTrace(old(zoom.level), ClampUnit(value)))
  {
    var from, target := zoom.level, ClampUnit(value);
    var log := zoom.peaks.log;
    zoom.ZoomTo(value, true);
    zoom.Settle();
    assert zoom.peaks.log == log + Rest(Some(Easing(from, target))) by {
      FrameKeepsTotal(log, Easing(from, target));
    }
  }
}
