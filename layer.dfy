/**
 * The subtitles layer of a waveform view: the table of drawn shapes, one per
 * subtitle id, kept in step with the interval store and the visible time
 * range, and the handlers that react to the store's events.
 */
module SubtitlesLayers {
  import opened Wrappers
  import opened JsValues
  import opened Intervals
  import opened TextSegmentStore
  import opened SubtitleShapes

  /** The time at the left edge of the view's frame. */
  function FrameStartTime(view: View): real {
    view.pixelsToTime(view.frameOffset)
  }

  /** The time at the right edge of the view's frame. */
  function FrameEndTime(view: View): real {
    view.pixelsToTime(view.frameOffset + view.width)
  }

  /** A shape filed under key `k`: its subtitle has that id, its markers sit at their own ends, its parts are owned. */
  ghost predicate Owned(k: Value, shape: SubtitleShape, markers: set<Marker>, labels: set<Label>) {
    shape.subtitle.id == k && shape.WellBuilt() && shape.Markers() <= markers && shape.Labels() <= labels
  }

  /**
   * Every entry of a shape table is filed under its own key and owned. The
   * fact about an entry is drawn only where a proof asks for it by name.
   */
  ghost predicate Filed(shapes: map<Value, SubtitleShape>, markers: set<Marker>, labels: set<Label>) {
    forall k {:trigger Owned(k, shapes[k], markers, labels)} :: k in shapes ==> Owned(k, shapes[k], markers, labels)
  }

  lemma FiledRemove(shapes: map<Value, SubtitleShape>, k: Value, markers: set<Marker>, labels: set<Label>)
    requires Filed(shapes, markers, labels)
    ensures Filed(shapes - {k}, markers, labels)
  {
    var rest := shapes - {k};
    forall j | j in rest ensures Owned(j, rest[j], markers, labels) {
      assert Owned(j, shapes[j], markers, labels);
    }
  }

  lemma FiledAdd(shapes: map<Value, SubtitleShape>, k: Value, shape: SubtitleShape,
                 markers: set<Marker>, labels: set<Label>)
    requires Filed(shapes, markers, labels)
    requires shape.subtitle.id == k && shape.WellBuilt()
    ensures Filed(shapes[k := shape], markers + shape.Markers(), labels + shape.Labels())
  {
    var updated := shapes[k := shape];
    forall j | j in updated
      ensures Owned(j, updated[j], markers + shape.Markers(), labels + shape.Labels())
    {
      if j != k {
        assert Owned(j, shapes[j], markers, labels);
      }
    }
  }

  /** The entries of a shape table whose subtitles overlap the range. */
  function VisibleOnly(shapes: map<Value, SubtitleShape>, startTime: real, endTime: real): (r: map<Value, SubtitleShape>)
    reads set k | k in shapes :: shapes[k].subtitle
    ensures forall k :: k in r <==> k in shapes && shapes[k].subtitle.IsVisible(startTime, endTime)
    ensures forall k :: k in r ==> r[k] == shapes[k]
  {
    map k | k in shapes && shapes[k].subtitle.IsVisible(startTime, endTime) :: shapes[k]
  }

  lemma FiledKeep(shapes: map<Value, SubtitleShape>, kept: map<Value, SubtitleShape>, markers: set<Marker>, labels: set<Label>)
    requires Filed(shapes, markers, labels)
    requires forall k :: k in kept ==> k in shapes && kept[k] == shapes[k]
    ensures Filed(kept, markers, labels)
  {
    forall k | k in kept ensures Owned(k, kept[k], markers, labels) {
      assert Owned(k, shapes[k], markers, labels);
    }
  }

  lemma MapRemoveSize<K, V>(m: map<K, V>, k: K)
    requires k in m
    ensures |m - {k}| == |m| - 1
  {
    assert (m - {k}).Keys == m.Keys - {k};
  }

  /** The parts of every shape dropped from `shapes` (those not in `rest`) are among the gone parts. */
  ghost predicate PartsGone(shapes: map<Value, SubtitleShape>, rest: map<Value, SubtitleShape>,
                            goneMarkers: set<Marker>, goneLabels: set<Label>) {
    forall k :: k in shapes && k !in rest ==> shapes[k].Markers() <= goneMarkers && shapes[k].Labels() <= goneLabels
  }

  lemma PartsGoneDrop(shapes: map<Value, SubtitleShape>, rest: map<Value, SubtitleShape>, id: Value,
                      goneMarkers: set<Marker>, goneLabels: set<Label>)
    requires PartsGone(shapes, rest, goneMarkers, goneLabels) && id in shapes
    ensures PartsGone(shapes, rest - {id}, goneMarkers + shapes[id].Markers(), goneLabels + shapes[id].Labels())
  {
  }

  /**
   * Part way through filtering `shapes` down to `kept`: the keys still to
   * visit are in `rest`, those visited are in `rest` exactly when kept, and
   * `count` keys have gone.
   */
  ghost predicate Dropping<K, V>(shapes: map<K, V>, kept: map<K, V>, rest: map<K, V>, ids: set<K>, count: nat) {
    && ids <= rest.Keys <= shapes.Keys
    && (forall k :: k in rest ==> rest[k] == shapes[k])
    && (forall k :: k in shapes && k !in ids ==> (k in rest <==> k in kept))
    && count + |rest| == |shapes|
  }

  lemma DropStart<K, V>(shapes: map<K, V>, kept: map<K, V>)
    ensures Dropping(shapes, kept, shapes, shapes.Keys, 0)
  {
  }

  lemma DropNext<K, V>(shapes: map<K, V>, kept: map<K, V>, rest: map<K, V>, ids: set<K>, count: nat, id: K)
    requires Dropping(shapes, kept, rest, ids, count) && id in ids
    ensures id in shapes && id in rest
    ensures id in kept ==> Dropping(shapes, kept, rest, ids - {id}, count)
    ensures id !in kept ==> Dropping(shapes, kept, rest - {id}, ids - {id}, count + 1)
  {
    MapRemoveSize(rest, id);
  }

  lemma DropDone<K, V>(shapes: map<K, V>, kept: map<K, V>, rest: map<K, V>, count: nat)
    requires Dropping(shapes, kept, rest, {}, count)
    requires forall k :: k in kept ==> k in shapes && kept[k] == shapes[k]
    ensures rest == kept && count == |shapes| - |kept|
  {
    assert rest == kept;
  }

  /** `shape.destroy()`, seen from a loop that has already destroyed the parts in `markers` and `labels`. */
  method DestroyShape(shape: SubtitleShape, ghost markers: set<Marker>, ghost labels: set<Label>)
    requires forall m :: m in markers ==> m.destroyed
    requires forall l :: l in labels ==> l.destroyed
    modifies shape.Markers(), shape.Labels()
    ensures forall m :: m in markers + shape.Markers() ==> m.destroyed
    ensures forall l :: l in labels + shape.Labels() ==> l.destroyed
  {
    shape.Destroy();
  }

  /**
   * Part way through placing `found`: the table extends `base`, each entry
   * added since was built by the loop (is in `made`) for a found subtitle,
   * and the first `i` found ids are filed.
   */
  ghost predicate Placing(base: map<Value, SubtitleShape>, table: map<Value, SubtitleShape>,
                          found: seq<Interval>, i: nat, made: set<SubtitleShape>) {
    && (forall k :: k in base ==> k in table && table[k] == base[k])
    && (forall k :: k in table && k !in base ==> table[k] in made && table[k].subtitle in found)
    && (forall j :: 0 <= j < i && j < |found| ==> found[j].id in table)
  }

  lemma PlacingStep(base: map<Value, SubtitleShape>, table: map<Value, SubtitleShape>, table': map<Value, SubtitleShape>,
                    found: seq<Interval>, i: nat, made: set<SubtitleShape>, made': set<SubtitleShape>)
    requires i < |found| && Placing(base, table, found, i, made)
    requires found[i].id in table ==> table' == table && made' == made
    requires found[i].id !in table ==>
      && found[i].id in table' && table' == table[found[i].id := table'[found[i].id]]
      && table'[found[i].id].subtitle == found[i] && made' == made + {table'[found[i].id]}
    ensures Placing(base, table', found, i + 1, made')
  {
  }

  /** Filtering the grown table removes as many entries as filtering the table it grew from. */
  lemma SizeBalance<K, V>(before: map<K, V>, visible: map<K, V>, placed: map<K, V>, after: map<K, V>)
    requires visible.Keys <= before.Keys <= placed.Keys && after.Keys <= placed.Keys
    requires forall k :: k in placed ==> (k in after <==> (k in before ==> k in visible))
    ensures |placed| - |after| == |before| - |visible|
  {
    assert placed.Keys - after.Keys == before.Keys - visible.Keys;
    SubsetSize(placed.Keys, after.Keys);
    SubsetSize(before.Keys, visible.Keys);
  }

  lemma SubsetSize<T>(a: set<T>, b: set<T>)
    requires b <= a
    ensures |a| == |b| + |a - b|
  {
    assert a == b + (a - b);
  }

  /** The added subtitles that overlap the range. */
  function Shown(added: seq<Interval>, startTime: real, endTime: real): (r: set<Interval>)
    reads set x | x in added
    ensures forall x :: x in r ==> x in added && x.IsVisible(startTime, endTime)
    ensures forall j :: 0 <= j < |added| ==> (added[j] in r <==> added[j].IsVisible(startTime, endTime))
  {
    set x | x in added && x.IsVisible(startTime, endTime)
  }

  /**
   * Part way through `_onSubtitlesAdd`'s loop: no key of `base` is lost,
   * every entry is from `base` or was built by the loop (is in `made`) for a
   * shown subtitle, and each of the first `i` shown subtitles has such a
   * shape under its id.
   */
  ghost predicate Adding(base: map<Value, SubtitleShape>, table: map<Value, SubtitleShape>, added: seq<Interval>,
                         i: nat, shown: set<Interval>, made: set<SubtitleShape>) {
    && (forall k :: k in base ==> k in table)
    && (forall k :: k in table ==> (k in base && table[k] == base[k]) || (table[k] in made && table[k].subtitle in shown))
    && (forall j :: 0 <= j < i && j < |added| && added[j] in shown ==>
          added[j].id in table && table[added[j].id] in made && table[added[j].id].subtitle in shown)
  }

  lemma AddingStep(base: map<Value, SubtitleShape>, table: map<Value, SubtitleShape>, added: seq<Interval>,
                   i: nat, shown: set<Interval>, made: set<SubtitleShape>, shape: SubtitleShape)
    requires i < |added| && Adding(base, table, added, i, shown, made)
    requires added[i] in shown && shape.subtitle == added[i]
    ensures Adding(base, table[added[i].id := shape], added, i + 1, shown, made + {shape})
  {
  }

  class SubtitlesLayer {
    const peaks: Emitter
    /** The store that `find` queries. */
    const subtitles: WaveformTextSegments
    /** The answers the label and marker factories give, fixed per layer. */
    const labelMade: bool
    const startMarkerWidth: Option<real>
    const endMarkerWidth: Option<real>
    var allowEditing: bool
    var subtitleShapes: map<Value, SubtitleShape>
    /** How many times the layer has been redrawn. */
    var draws: nat

    /** The markers and labels of the shapes the layer has built. */
    ghost var ownedMarkers: set<Marker>
    ghost var ownedLabels: set<Label>

    /**
     * Every shape is filed under its own subtitle's id, has its markers at
     * their own ends, and owns no part outside the layer's footprint.
     */
    ghost predicate Valid()
      reads this
    {
      Filed(subtitleShapes, ownedMarkers, ownedLabels)
    }

    /** Shapes are only ever added freshly built, so the footprint grows only by fresh objects. */
    twostate predicate GrowsFresh()
      reads this
    {
      fresh(ownedMarkers - old(ownedMarkers)) && fresh(ownedLabels - old(ownedLabels))
    }

    constructor (peaks: Emitter, subtitles: WaveformTextSegments, allowEditing: bool,
                 labelMade: bool, startMarkerWidth: Option<real>, endMarkerWidth: Option<real>)
      ensures this.peaks == peaks && this.subtitles == subtitles && this.allowEditing == allowEditing
      ensures this.labelMade == labelMade
      ensures this.startMarkerWidth == startMarkerWidth && this.endMarkerWidth == endMarkerWidth
      ensures subtitleShapes == map[] && draws == 0
      ensures Valid()
    {
      this.peaks := peaks;
      this.subtitles := subtitles;
      this.allowEditing := allowEditing;
      this.labelMade := labelMade;
      this.startMarkerWidth := startMarkerWidth;
      this.endMarkerWidth := endMarkerWidth;
      subtitleShapes := map[];
      draws := 0;
      ownedMarkers := {};
      ownedLabels := {};
    }

    /** `enableEditing`: affects only shapes built from now on. */
    method EnableEditing(enable: bool)
      modifies this
      ensures allowEditing == enable
      ensures subtitleShapes == old(subtitleShapes) && draws == old(draws)
      ensures ownedMarkers == old(ownedMarkers) && ownedLabels == old(ownedLabels)
    {
      allowEditing := enable;
    }

    /** `isEditingEnabled`. */
    function IsEditingEnabled(): (enabled: bool)
      reads this
      ensures enabled <==> allowEditing
    {
      allowEditing
    }

    /** `_layer.draw()`. */
    method Draw()
      modifies this
      ensures draws == old(draws) + 1
      ensures subtitleShapes == old(subtitleShapes) && allowEditing == old(allowEditing)
      ensures ownedMarkers == old(ownedMarkers) && ownedLabels == old(ownedLabels)
    {
      draws := draws + 1;
    }

    /** `_addSubtitleShape`: build a shape and file it under the subtitle's id, replacing any shape there. */
    method AddSubtitleShape(subtitle: Interval) returns (shape: SubtitleShape)
      requires Valid()
      modifies this
      ensures Valid() && GrowsFresh()
      ensures fresh(shape) && shape.subtitle == subtitle && shape.peaks == peaks
      ensures fresh(shape.Markers()) && fresh(shape.Labels())
      ensures !MarkersAllowed(allowEditing, subtitle.editable) ==> shape.Markers() == {}
      ensures subtitleShapes == old(subtitleShapes)[subtitle.id := shape]
      ensures draws == old(draws) && allowEditing == old(allowEditing)
    {
      shape := new SubtitleShape(subtitle, peaks, allowEditing, labelMade, startMarkerWidth, endMarkerWidth);
      FiledAdd(subtitleShapes, subtitle.id, shape, ownedMarkers, ownedLabels);
      subtitleShapes := subtitleShapes[subtitle.id := shape];
      ownedMarkers := ownedMarkers + shape.Markers();
      ownedLabels := ownedLabels + shape.Labels();
    }

    /** `_findOrAddSubtitleShape`: the shape filed under the subtitle's id, built if there is none. */
    method FindOrAddSubtitleShape(subtitle: Interval) returns (shape: SubtitleShape)
      requires Valid()
      modifies this
      ensures Valid() && GrowsFresh()
      ensures subtitle.id in subtitleShapes && shape == subtitleShapes[subtitle.id]
      ensures subtitle.id in old(subtitleShapes) ==>
        shape == old(subtitleShapes)[subtitle.id] && subtitleShapes == old(subtitleShapes)
      ensures subtitle.id !in old(subtitleShapes) ==>
        fresh(shape) && shape.subtitle == subtitle && subtitleShapes == old(subtitleShapes)[subtitle.id := shape]
      ensures draws == old(draws) && allowEditing == old(allowEditing)
    {
      if subtitle.id in subtitleShapes {
        shape := subtitleShapes[subtitle.id];
      } else {
        shape := AddSubtitleShape(subtitle);
      }
    }

    /**
     * `_updateSubtitle`: place the markers of the subtitle's shape (built if
     * missing) at the subtitle's times, the start marker just left of its start.
     */
    method UpdateSubtitle(subtitle: Interval, view: View)
      requires Valid()
      modifies this, ownedMarkers
      ensures Valid() && GrowsFresh()
      ensures subtitle.id in subtitleShapes
      ensures subtitle.id in old(subtitleShapes) ==> subtitleShapes == old(subtitleShapes)
      ensures subtitle.id !in old(subtitleShapes) ==>
        && fresh(subtitleShapes[subtitle.id]) && subtitleShapes[subtitle.id].subtitle == subtitle
        && subtitleShapes == old(subtitleShapes)[subtitle.id := subtitleShapes[subtitle.id]]
      ensures var shape := subtitleShapes[subtitle.id];
        && (shape.startMarker != null ==>
              shape.startMarker.x == StartMarkerX(view, subtitle.startTime, shape.startMarker.width))
        && (shape.endMarker != null ==> shape.endMarker.x == EndMarkerX(view, subtitle.endTime))
      ensures draws == old(draws) && allowEditing == old(allowEditing)
    {
      var shape := FindOrAddSubtitleShape(subtitle);
      assert Owned(subtitle.id, shape, ownedMarkers, ownedLabels);
      var startPixel := view.timeToPixels(subtitle.startTime) - view.frameOffset;
      var endPixel := view.timeToPixels(subtitle.endTime) - view.frameOffset;
      if shape.startMarker != null {
        assert shape.startMarker in shape.Markers();
        shape.startMarker.SetX(startPixel - shape.startMarker.width);
      }
      if shape.endMarker != null {
        assert shape.endMarker in shape.Markers();
        shape.endMarker.SetX(endPixel);
      }
    }

    /** `_removeSubtitle`: destroy and forget the shape filed under the subtitle's id, if any. */
    method RemoveSubtitle(subtitle: Interval)
      requires Valid()
      modifies this, ownedMarkers, ownedLabels
      ensures Valid()
      ensures ownedMarkers == old(ownedMarkers) && ownedLabels == old(ownedLabels)
      ensures subtitleShapes == old(subtitleShapes) - {subtitle.id}
      ensures forall k :: k in subtitleShapes ==> unchanged(subtitleShapes[k].subtitle)
      ensures subtitle.id in old(subtitleShapes) ==> old(subtitleShapes)[subtitle.id].Destroyed()
      ensures draws == old(draws) && allowEditing == old(allowEditing)
    {
      if subtitle.id in subtitleShapes {
        var shape := subtitleShapes[subtitle.id];
        assert Owned(subtitle.id, shape, ownedMarkers, ownedLabels);
        shape.Destroy();
        FiledRemove(subtitleShapes, subtitle.id, ownedMarkers, ownedLabels);
        subtitleShapes := subtitleShapes - {subtitle.id};
      }
    }

    /**
     * The loop of `_removeInvisibleSubtitles`, run on a copy of the table:
     * destroy and drop each shape that is not in `kept`, counting them.
     */
    method DropUnkept(shapes: map<Value, SubtitleShape>, kept: map<Value, SubtitleShape>)
      returns (rest: map<Value, SubtitleShape>, count: nat)
      requires Filed(shapes, ownedMarkers, ownedLabels)
      requires forall k :: k in kept ==> k in shapes && kept[k] == shapes[k]
      modifies ownedMarkers, ownedLabels
      ensures rest == kept
      ensures count == |shapes| - |kept|
      ensures forall k :: k in shapes && k !in kept ==> shapes[k].Destroyed()
    {
      count := 0;
      rest := shapes;
      var ids := shapes.Keys;
      ghost var goneMarkers: set<Marker> := {};
      ghost var goneLabels: set<Label> := {};
      DropStart(shapes, kept);
      while ids != {}
        invariant Dropping(shapes, kept, rest, ids, count)
        invariant PartsGone(shapes, rest, goneMarkers, goneLabels)
        invariant forall m :: m in goneMarkers ==> m.destroyed
        invariant forall l :: l in goneLabels ==> l.destroyed
        decreases |ids|
      {
        var id :| id in ids;
        DropNext(shapes, kept, rest, ids, count, id);
        if id !in kept {
          var shape := shapes[id];
          assert Owned(id, shape, ownedMarkers, ownedLabels);
          DestroyShape(shape, goneMarkers, goneLabels);
          PartsGoneDrop(shapes, rest, id, goneMarkers, goneLabels);
          goneMarkers := goneMarkers + shape.Markers();
          goneLabels := goneLabels + shape.Labels();
          rest := rest - {id};
          count := count + 1;
        }
        ids := ids - {id};
      }
      DropDone(shapes, kept, rest, count);
      forall k | k in shapes && k !in kept
        ensures shapes[k].Destroyed()
      {
        assert shapes[k].Markers() <= goneMarkers && shapes[k].Labels() <= goneLabels;
      }
    }

    /**
     * `_removeInvisibleSubtitles`: drop every shape whose subtitle does not
     * overlap the range, destroying it, and count them.
     */
    method RemoveInvisibleSubtitles(startTime: real, endTime: real) returns (count: nat)
      requires Valid()
      modifies this, ownedMarkers, ownedLabels
      ensures Valid()
      ensures ownedMarkers == old(ownedMarkers) && ownedLabels == old(ownedLabels)
      ensures subtitleShapes == old(VisibleOnly(subtitleShapes, startTime, endTime))
      ensures forall k :: k in subtitleShapes ==> subtitleShapes[k].subtitle.IsVisible(startTime, endTime)
      ensures forall k :: k in old(subtitleShapes) && k !in subtitleShapes ==> old(subtitleShapes)[k].Destroyed()
      ensures count == |old(subtitleShapes)| - |subtitleShapes|
      ensures draws == old(draws) && allowEditing == old(allowEditing)
    {
      var kept := VisibleOnly(subtitleShapes, startTime, endTime);
      var rest;
      rest, count := DropUnkept(subtitleShapes, kept);
      FiledKeep(subtitleShapes, rest, ownedMarkers, ownedLabels);
      subtitleShapes := rest;
    }

    /**
     * One step of `forEach(_updateSubtitle)`, stated against the table `base`
     * from before the loop and the shapes `made` the loop has built so far.
     */
    method PlaceNext(found: seq<Interval>, i: nat, view: View,
                     ghost base: map<Value, SubtitleShape>, ghost made: set<SubtitleShape>)
      returns (ghost made': set<SubtitleShape>)
      requires i < |found| && Valid() && Placing(base, subtitleShapes, found, i, made)
      modifies this, ownedMarkers
      ensures Valid() && GrowsFresh()
      ensures Placing(base, subtitleShapes, found, i + 1, made') && fresh(made' - made)
      ensures draws == old(draws) && allowEditing == old(allowEditing)
    {
      ghost var table := subtitleShapes;
      UpdateSubtitle(found[i], view);
      if found[i].id in table {
        made' := made;
      } else {
        made' := made + {subtitleShapes[found[i].id]};
      }
      PlacingStep(base, table, subtitleShapes, found, i, made, made');
    }

    /** The `forEach(_updateSubtitle)` step of `updateSubtitles`: give each found subtitle a shape with its markers placed. */
    method PlaceAll(found: seq<Interval>, view: View)
      requires Valid()
      modifies this, ownedMarkers
      ensures Valid() && GrowsFresh()
      ensures forall k :: k in old(subtitleShapes) ==> k in subtitleShapes && subtitleShapes[k] == old(subtitleShapes)[k]
      ensures forall k :: k in subtitleShapes && k !in old(subtitleShapes) ==>
        fresh(subtitleShapes[k]) && subtitleShapes[k].subtitle in found
      ensures forall j :: 0 <= j < |found| ==> found[j].id in subtitleShapes
      ensures draws == old(draws) && allowEditing == old(allowEditing)
    {
      ghost var made: set<SubtitleShape> := {};
      var i := 0;
      while i < |found|
        invariant 0 <= i <= |found|
        invariant Valid() && GrowsFresh()
        invariant Placing(old(subtitleShapes), subtitleShapes, found, i, made) && fresh(made)
        invariant draws == old(draws) && allowEditing == old(allowEditing)
      {
        made := PlaceNext(found, i, view, old(subtitleShapes), made);
        i := i + 1;
      }
    }

    /**
     * `updateSubtitles`: make sure every subtitle the store finds in the range
     * has a shape with its markers placed, drop the shapes of subtitles no
     * longer in range, and redraw once if anything was placed or dropped. A
     * found subtitle whose id is already filed keeps the shape filed there.
     */
    method UpdateSubtitles(startTime: real, endTime: real, view: View)
      returns (found: seq<Interval>, ghost visible: map<Value, SubtitleShape>)
      requires Valid()
      modifies this, ownedMarkers, ownedLabels
      ensures found == old(subtitles.Find(startTime, endTime))
      ensures visible == old(VisibleOnly(subtitleShapes, startTime, endTime))
      ensures Valid() && GrowsFresh()
      ensures forall k :: k in old(subtitleShapes) ==> (k in subtitleShapes <==> k in visible)
      ensures forall k :: k in visible ==> subtitleShapes[k] == visible[k]
      ensures forall k :: k in subtitleShapes && k !in old(subtitleShapes) ==>
        fresh(subtitleShapes[k]) && subtitleShapes[k].subtitle in found
      ensures forall j :: 0 <= j < |found| && found[j].id !in old(subtitleShapes) ==> found[j].id in subtitleShapes
      ensures forall k :: k in subtitleShapes ==> subtitleShapes[k].subtitle.IsVisible(startTime, endTime)
      ensures draws == old(draws) + (if found != [] || |visible| < old(|subtitleShapes|) then 1 else 0)
      ensures allowEditing == old(allowEditing)
    {
      ghost var before := subtitleShapes;
      visible := VisibleOnly(subtitleShapes, startTime, endTime);
      found := subtitles.Find(startTime, endTime);
      var count := |found|;
      PlaceAll(found, view);
      ghost var placed := subtitleShapes;
      ghost var placedMarkers, placedLabels := ownedMarkers, ownedLabels;
      var removed := RemoveInvisibleSubtitles(startTime, endTime);
      forall k | k in placed
        ensures k in subtitleShapes <==> (k in before ==> k in visible)
      {
        if k !in before {
          assert placed[k].subtitle in found;
        }
      }
      SizeBalance(before, visible, placed, subtitleShapes);
      assert fresh(ownedMarkers - old(ownedMarkers)) by {
        assert ownedMarkers - old(ownedMarkers) <= (ownedMarkers - placedMarkers) + (placedMarkers - old(ownedMarkers));
      }
      assert fresh(ownedLabels - old(ownedLabels)) by {
        assert ownedLabels - old(ownedLabels) <= (ownedLabels - placedLabels) + (placedLabels - old(ownedLabels));
      }
      count := count + removed;
      if count > 0 {
        Draw();
      }
    }

    /**
     * A found subtitle can end up with no shape. This happens when the shape
     * filed under its id belongs to another subtitle with the same id that
     * has left the range: `_findOrAddSubtitleShape` hands back that shape,
     * and `_removeInvisibleSubtitles` then drops it.
     */
    method FoundSubtitleCanLoseShape(subtitle: Interval, startTime: real, endTime: real, view: View)
      returns (found: seq<Interval>)
      requires Valid()
      requires subtitle in subtitles.Find(startTime, endTime)
      requires subtitle.id in subtitleShapes && !subtitleShapes[subtitle.id].subtitle.IsVisible(startTime, endTime)
      modifies this, ownedMarkers, ownedLabels
      ensures subtitle in found && subtitle.id !in subtitleShapes
    {
      ghost var visible;
      found, visible := UpdateSubtitles(startTime, endTime, view);
    }

    /**
     * `_onSubtitlesUpdate`: throw away the subtitle's shape, build a new one if
     * the subtitle is in the frame, and if either happened bring the whole
     * layer up to date.
     */
    method OnSubtitlesUpdate(subtitle: Interval, view: View) returns (ghost found: seq<Interval>)
      requires Valid()
      modifies this, ownedMarkers, ownedLabels
      ensures Valid() && GrowsFresh()
      ensures subtitle.id in old(subtitleShapes) || subtitle.IsVisible(FrameStartTime(view), FrameEndTime(view)) ==>
        found == old(subtitles.Find(FrameStartTime(view), FrameEndTime(view)))
      ensures subtitle.id !in old(subtitleShapes) && !subtitle.IsVisible(FrameStartTime(view), FrameEndTime(view)) ==>
        found == []
      ensures forall j :: 0 <= j < |found| && found[j].id !in old(subtitleShapes) ==> found[j].id in subtitleShapes
      ensures forall k ::
        (k in old(subtitleShapes) && k != subtitle.id &&
         old(subtitleShapes[k].subtitle.IsVisible(FrameStartTime(view), FrameEndTime(view)))) ==>
        k in subtitleShapes && subtitleShapes[k] == old(subtitleShapes[k])
      ensures forall k :: k in subtitleShapes ==>
        || (k in old(subtitleShapes) && k != subtitle.id && subtitleShapes[k] == old(subtitleShapes[k]))
        || (fresh(subtitleShapes[k]) && (subtitleShapes[k].subtitle == subtitle || subtitleShapes[k].subtitle in found))
      ensures subtitle.id !in old(subtitleShapes) && !subtitle.IsVisible(FrameStartTime(view), FrameEndTime(view)) ==>
        subtitleShapes == old(subtitleShapes) && draws == old(draws)
      ensures subtitle.IsVisible(FrameStartTime(view), FrameEndTime(view)) ==>
        && subtitle.id in subtitleShapes && fresh(subtitleShapes[subtitle.id])
        && subtitleShapes[subtitle.id].subtitle == subtitle
      ensures subtitle.id in old(subtitleShapes) || subtitle.IsVisible(FrameStartTime(view), FrameEndTime(view)) ==>
        forall k :: k in subtitleShapes ==> subtitleShapes[k].subtitle.IsVisible(FrameStartTime(view), FrameEndTime(view))
      ensures draws <= old(draws) + 1 && allowEditing == old(allowEditing)
    {
      var frameStartTime := FrameStartTime(view);
      var frameEndTime := FrameEndTime(view);
      var redraw := ReplaceShape(subtitle, frameStartTime, frameEndTime);
      found := [];
      if redraw {
        ghost var replaced := subtitleShapes;
        var updated, visible := UpdateSubtitles(frameStartTime, frameEndTime, view);
        found := updated;
        if subtitle.IsVisible(frameStartTime, frameEndTime) {
          assert subtitle.id in visible;
        }
        forall k | k in old(subtitleShapes) && k != subtitle.id &&
            old(subtitleShapes[k].subtitle.IsVisible(frameStartTime, frameEndTime))
          ensures k in subtitleShapes && subtitleShapes[k] == old(subtitleShapes[k])
        {
          assert k in visible;
        }
      }
    }

    /** The first half of `_onSubtitlesUpdate`: drop the subtitle's old shape and build a new one if it is in range. */
    method ReplaceShape(subtitle: Interval, startTime: real, endTime: real) returns (redraw: bool)
      requires Valid()
      modifies this, ownedMarkers, ownedLabels
      ensures Valid() && GrowsFresh()
      ensures redraw <==> subtitle.id in old(subtitleShapes) || subtitle.IsVisible(startTime, endTime)
      ensures !redraw ==> subtitleShapes == old(subtitleShapes)
      ensures forall k :: k != subtitle.id ==> (k in subtitleShapes <==> k in old(subtitleShapes))
      ensures forall k :: k in subtitleShapes && k != subtitle.id ==> subtitleShapes[k] == old(subtitleShapes)[k]
      ensures forall k :: k in subtitleShapes && k != subtitle.id && old(subtitleShapes[k].subtitle.IsVisible(startTime, endTime)) ==>
        subtitleShapes[k].subtitle.IsVisible(startTime, endTime)
      ensures !subtitle.IsVisible(startTime, endTime) ==> subtitle.id !in subtitleShapes
      ensures subtitle.IsVisible(startTime, endTime) ==>
        && subtitle.id in subtitleShapes && fresh(subtitleShapes[subtitle.id])
        && subtitleShapes[subtitle.id].subtitle == subtitle
      ensures draws == old(draws) && allowEditing == old(allowEditing)
    {
      redraw := false;
      if subtitle.id in subtitleShapes {
        RemoveSubtitle(subtitle);
        redraw := true;
      }
      if subtitle.IsVisible(startTime, endTime) {
        var shape := AddSubtitleShape(subtitle);
        redraw := true;
      }
    }

    /**
     * One step of `_onSubtitlesAdd`'s loop: build a shape for the subtitle
     * when it is in the frame (one of `shown`).
     */
    method AddNext(added: seq<Interval>, i: nat, view: View, ghost shown: set<Interval>,
                   ghost base: map<Value, SubtitleShape>, ghost made: set<SubtitleShape>)
      returns (ghost made': set<SubtitleShape>)
      requires i < |added| && Valid() && Adding(base, subtitleShapes, added, i, shown, made)
      requires added[i] in shown <==> added[i].IsVisible(FrameStartTime(view), FrameEndTime(view))
      modifies this
      ensures Valid() && GrowsFresh()
      ensures Adding(base, subtitleShapes, added, i + 1, shown, made') && fresh(made' - made)
      ensures draws == old(draws) && allowEditing == old(allowEditing)
    {
      made' := made;
      if added[i].IsVisible(FrameStartTime(view), FrameEndTime(view)) {
        ghost var table := subtitleShapes;
        var shape := AddSubtitleShape(added[i]);
        made' := made + {shape};
        AddingStep(base, table, added, i, shown, made, shape);
      }
    }

    /** The loop of `_onSubtitlesAdd`: build a shape for each added subtitle in the frame. */
    method AddShown(added: seq<Interval>, view: View) returns (ghost shown: set<Interval>, ghost made: set<SubtitleShape>)
      requires Valid()
      modifies this
      ensures shown == old(Shown(added, FrameStartTime(view), FrameEndTime(view)))
      ensures forall x :: x in shown ==> x.IsVisible(FrameStartTime(view), FrameEndTime(view))
      ensures Valid() && GrowsFresh()
      ensures Adding(old(subtitleShapes), subtitleShapes, added, |added|, shown, made) && fresh(made)
      ensures forall k :: k in old(subtitleShapes) && old(subtitleShapes[k].subtitle.IsVisible(FrameStartTime(view), FrameEndTime(view))) ==>
        subtitleShapes[k].subtitle.IsVisible(FrameStartTime(view), FrameEndTime(view))
      ensures draws == old(draws) && allowEditing == old(allowEditing)
    {
      var frameStartTime := FrameStartTime(view);
      var frameEndTime := FrameEndTime(view);
      shown := Shown(added, frameStartTime, frameEndTime);
      made := {};
      var i := 0;
      while i < |added|
        invariant 0 <= i <= |added|
        invariant Valid() && GrowsFresh()
        invariant Adding(old(subtitleShapes), subtitleShapes, added, i, shown, made) && fresh(made)
        invariant forall x :: x in shown ==> x.IsVisible(frameStartTime, frameEndTime)
        invariant forall j :: 0 <= j < |added| && added[j] !in shown ==> !added[j].IsVisible(frameStartTime, frameEndTime)
        invariant draws == old(draws) && allowEditing == old(allowEditing)
      {
        made := AddNext(added, i, view, shown, old(subtitleShapes), made);
        i := i + 1;
      }
    }

    /** `_onSubtitlesAdd`: build a shape for each added subtitle in the frame, then bring the layer up to date. */
    method OnSubtitlesAdd(added: seq<Interval>, view: View) returns (ghost shown: set<Interval>, ghost found: seq<Interval>)
      requires Valid()
      modifies this, ownedMarkers, ownedLabels
      ensures shown == old(Shown(added, FrameStartTime(view), FrameEndTime(view)))
      ensures found == old(subtitles.Find(FrameStartTime(view), FrameEndTime(view)))
      ensures forall j :: 0 <= j < |found| && found[j].id !in old(subtitleShapes) ==> found[j].id in subtitleShapes
      ensures forall k ::
        (k in old(subtitleShapes) && old(subtitleShapes[k].subtitle.IsVisible(FrameStartTime(view), FrameEndTime(view)))) ==>
        k in subtitleShapes && (subtitleShapes[k] == old(subtitleShapes[k]) || subtitleShapes[k].subtitle in shown)
      ensures forall k :: k in subtitleShapes ==>
        || (k in old(subtitleShapes) && subtitleShapes[k] == old(subtitleShapes[k]))
        || (fresh(subtitleShapes[k]) && (subtitleShapes[k].subtitle in shown || subtitleShapes[k].subtitle in found))
      ensures Valid() && GrowsFresh()
      ensures forall j :: 0 <= j < |added| && added[j] in shown ==>
        && added[j].id in subtitleShapes && fresh(subtitleShapes[added[j].id])
        && subtitleShapes[added[j].id].subtitle in shown
      ensures forall k :: k in subtitleShapes ==>
        subtitleShapes[k].subtitle.IsVisible(FrameStartTime(view), FrameEndTime(view))
      ensures draws <= old(draws) + 1 && allowEditing == old(allowEditing)
    {
      var frameStartTime := FrameStartTime(view);
      var frameEndTime := FrameEndTime(view);
      ghost var made;
      shown, made := AddShown(added, view);
      ghost var placed := subtitleShapes;
      var updated, visible := UpdateSubtitles(frameStartTime, frameEndTime, view);
      found := updated;
      forall j | 0 <= j < |added| && added[j] in shown
        ensures added[j].id in subtitleShapes && subtitleShapes[added[j].id] == placed[added[j].id]
      {
        assert added[j].id in visible;
      }
      forall k | k in old(subtitleShapes) && old(subtitleShapes[k].subtitle.IsVisible(frameStartTime, frameEndTime))
        ensures k in subtitleShapes && (subtitleShapes[k] == old(subtitleShapes[k]) || subtitleShapes[k].subtitle in shown)
      {
        assert k in placed && placed[k].subtitle.IsVisible(frameStartTime, frameEndTime);
        assert k in visible;
      }
      forall j | 0 <= j < |found| && found[j].id !in old(subtitleShapes)
        ensures found[j].id in subtitleShapes
      {
        if found[j].id in placed {
          assert placed[found[j].id].subtitle in shown;
          assert found[j].id in visible;
        }
      }
    }

    /** One step of `_onSubtitlesRemove`'s loop. */
    method RemoveNext(removed: seq<Interval>, i: nat, ghost base: map<Value, SubtitleShape>)
      requires i < |removed| && Valid() && subtitleShapes == base - Ids(removed[..i])
      modifies this, ownedMarkers, ownedLabels
      ensures Valid()
      ensures ownedMarkers == old(ownedMarkers) && ownedLabels == old(ownedLabels)
      ensures subtitleShapes == base - Ids(removed[..i + 1])
      ensures draws == old(draws) && allowEditing == old(allowEditing)
    {
      assert removed[..i + 1] == removed[..i] + [removed[i]];
      IdsSnoc(removed[..i], removed[i]);
      MapMinusTwice(base, Ids(removed[..i]), {removed[i].id});
      RemoveSubtitle(removed[i]);
    }

    /** `_onSubtitlesRemove`: forget the shapes of the removed subtitles and redraw. */
    method OnSubtitlesRemove(removed: seq<Interval>)
      requires Valid()
      modifies this, ownedMarkers, ownedLabels
      ensures Valid()
      ensures ownedMarkers == old(ownedMarkers) && ownedLabels == old(ownedLabels)
      ensures subtitleShapes == old(subtitleShapes) - Ids(removed)
      ensures draws == old(draws) + 1 && allowEditing == old(allowEditing)
    {
      var i := 0;
      while i < |removed|
        invariant 0 <= i <= |removed|
        invariant Valid()
        invariant ownedMarkers == old(ownedMarkers) && ownedLabels == old(ownedLabels)
        invariant subtitleShapes == old(subtitleShapes) - Ids(removed[..i])
        invariant draws == old(draws) && allowEditing == old(allowEditing)
      {
        RemoveNext(removed, i, old(subtitleShapes));
        i := i + 1;
      }
      assert removed[..i] == removed;
      Draw();
    }

    /** `_onSubtitlesRemoveAll`: forget every shape and redraw. */
    method OnSubtitlesRemoveAll()
      modifies this
      ensures Valid()
      ensures ownedMarkers == old(ownedMarkers) && ownedLabels == old(ownedLabels)
      ensures subtitleShapes == map[]
      ensures draws == old(draws) + 1 && allowEditing == old(allowEditing)
    {
      subtitleShapes := map[];
      Draw();
    }

    /** `_onSubtitlesDragged`: re-place the dragged subtitle's markers and redraw. */
    method OnSubtitlesDragged(subtitle: Interval, view: View)
      requires Valid()
      modifies this, ownedMarkers
      ensures Valid() && GrowsFresh()
      ensures subtitle.id in subtitleShapes
      ensures var shape := subtitleShapes[subtitle.id];
        && (shape.startMarker != null ==>
              shape.startMarker.x == StartMarkerX(view, subtitle.startTime, shape.startMarker.width))
        && (shape.endMarker != null ==> shape.endMarker.x == EndMarkerX(view, subtitle.endTime))
      ensures draws == old(draws) + 1 && allowEditing == old(allowEditing)
    {
      UpdateSubtitle(subtitle, view);
      Draw();
    }

    /** The five events the layer listens to, each sent to its handler; every other event is ignored. */
    method Dispatch(e: Event, view: View)
      requires Valid()
      modifies this, ownedMarkers, ownedLabels
      ensures Valid() && GrowsFresh()
      ensures !(e.SegmentUpdated? || e.SegmentsAdded? || e.SegmentsRemoved? || e.SegmentsRemovedAll? || e.Dragged?) ==>
        subtitleShapes == old(subtitleShapes) && draws == old(draws)
      ensures allowEditing == old(allowEditing)
    {
      match e {
        case SegmentUpdated(subtitle) => var found := OnSubtitlesUpdate(subtitle, view);
        case SegmentsAdded(added) => var shown, found := OnSubtitlesAdd(added, view);
        case SegmentsRemoved(removed) => OnSubtitlesRemove(removed);
        case SegmentsRemovedAll => OnSubtitlesRemoveAll();
        case Dragged(subtitle, _) => OnSubtitlesDragged(subtitle, view);
        case _ =>
      }
    }
  }
}
