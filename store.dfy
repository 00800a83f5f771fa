/**
 * The interval store `WaveformTextSegments` (src/waveform-subtitles.js):
 * an insertion-ordered sequence of text segments, an id-to-segment
 * dictionary beside it, an automatic-id counter and a cycling color index.
 */
module TextSegmentStore {
  import opened Wrappers
  import opened JsValues
  import opened Intervals

  // ---------------------------------------------------------------------------
  // Automatic ids: 'peaks.textSegment.' followed by the counter in decimal.

  function Digit(d: nat): char
    requires d < 10
  {
    "0123456789"[d]
  }

  function Decimal(n: nat): (s: string)
    ensures |s| >= 1
    ensures n >= 10 ==> |s| >= 2
  {
    if n < 10 then [Digit(n)] else Decimal(n / 10) + [Digit(n % 10)]
  }

  /** Distinct numbers have distinct decimal forms. */
  lemma {:induction false} DecimalInjective(m: nat, n: nat)
    requires Decimal(m) == Decimal(n)
    ensures m == n
  {
    if m < 10 && n < 10 {
      assert Decimal(m)[0] == Digit(m) && Decimal(n)[0] == Digit(n);
    } else if m >= 10 && n >= 10 {
      var a, b := Decimal(m), Decimal(n);
      assert a[|a| - 1] == Digit(m % 10) && b[|b| - 1] == Digit(n % 10);
      assert a[..|a| - 1] == Decimal(m / 10) && b[..|b| - 1] == Decimal(n / 10);
      DecimalInjective(m / 10, n / 10);
    }
  }

  const IdPrefix: string := "peaks.textSegment."

  /** `_getNextTextSegmentId` for counter value `n`. */
  function AutoId(n: nat): Value {
    Str(IdPrefix + Decimal(n))
  }

  /** Two generated ids coincide only when they come from the same counter value. */
  lemma AutoIdInjective(m: nat, n: nat)
    ensures AutoId(m) == AutoId(n) <==> m == n
  {
    if AutoId(m) == AutoId(n) {
      var a, b := IdPrefix + Decimal(m), IdPrefix + Decimal(n);
      assert a[|IdPrefix|..] == Decimal(m) && b[|IdPrefix|..] == Decimal(n);
      DecimalInjective(m, n);
    }
  }

  // ---------------------------------------------------------------------------
  // Default colors.

  /** The palette (`Colors.navy` … `Colors.purple`), as opaque tokens. */
  const Colors: seq<string> := ["navy", "blue", "aqua", "teal", "yellow", "orange", "red", "maroon", "fuchsia", "purple"]

  /** The host options `_getTextSegmentColor` consults. */
  datatype ColorConfig = ColorConfig(randomize: bool, fallback: Value)

  /** `_getTextSegmentColor`: the color handed out and the new color index. */
  function NextColor(colorIndex: int, config: ColorConfig): (r: (Value, int))
    requires 0 <= colorIndex < |Colors|
    ensures 0 <= r.1 < |Colors|
    ensures config.randomize ==> r.1 == (colorIndex + 1) % |Colors| && r.0 == Str(Colors[r.1])
    ensures !config.randomize ==> r == (config.fallback, colorIndex)
  {
    if config.randomize then
      var k := if colorIndex + 1 == |Colors| then 0 else colorIndex + 1;
      (Str(Colors[k]), k)
    else
      (config.fallback, colorIndex)
  }

  // ---------------------------------------------------------------------------
  // What `add` does, stated on values.

  datatype Counters = Counters(nextId: nat, colorIndex: int)

  datatype AddError = NotAnObject | Invalid(error: ValidationError) | DuplicateId(id: Value)

  /** A segment `add` is about to create: its id, validated fields and extension data. */
  datatype Planned = Planned(id: Value, fields: CoreFields, userData: map<string, Value>)

  predicate Lacks(o: Options, key: string) {
    IsNullOrUndefined(Get(o, key))
  }

  /** The defaults of `_createTextSegment`, applied only to null or undefined fields, in source order. */
  function Prepare(o: Options, c: Counters, config: ColorConfig): (r: (Options, Counters))
    requires 0 <= c.colorIndex < |Colors|
    ensures 0 <= r.1.colorIndex < |Colors|
    ensures r.1.nextId == c.nextId + (if Lacks(o, "id") then 1 else 0)
    ensures Get(r.0, "id") == if Lacks(o, "id") then AutoId(c.nextId) else Get(o, "id")
    ensures !Lacks(o, "color") ==> Get(r.0, "color") == Get(o, "color") && r.1.colorIndex == c.colorIndex
    ensures Lacks(o, "color") ==> (Get(r.0, "color"), r.1.colorIndex) == NextColor(c.colorIndex, config)
    ensures Get(r.0, "labelText") == if Lacks(o, "labelText") then Str("") else Get(o, "labelText")
    ensures Get(r.0, "editable") == if Lacks(o, "editable") then Bool(false) else Get(o, "editable")
    ensures forall k :: k !in {"id", "color", "labelText", "editable"} ==> Get(r.0, k) == Get(o, k)
  {
    var (o1, c1) := if Lacks(o, "id") then (o["id" := AutoId(c.nextId)], c.(nextId := c.nextId + 1)) else (o, c);
    var (o2, c2) :=
      if Lacks(o1, "color") then
        var (color, k) := NextColor(c1.colorIndex, config);
        (o1["color" := color], c1.(colorIndex := k))
      else (o1, c1);
    var o3 := if Lacks(o2, "labelText") then o2["labelText" := Str("")] else o2;
    var o4 := if Lacks(o3, "editable") then o3["editable" := Bool(false)] else o3;
    (o4, c2)
  }

  /** `_createTextSegment(options)`: object check, defaults, then the entity's own validation. */
  function CreatePlan(v: Value, c: Counters, config: ColorConfig): (r: (Result<Planned, AddError>, Counters))
    requires 0 <= c.colorIndex < |Colors|
    ensures 0 <= r.1.colorIndex < |Colors|
    ensures !IsObject(v) ==> r == (Failure(NotAnObject), c)
    ensures r.0.Success? ==> WellFormed(r.0.value.fields) && !IsNullOrUndefined(r.0.value.id)
  {
    if !IsObject(v) then (Failure(NotAnObject), c)
    else
      var (o, c') := Prepare(v.props, c, config);
      match Validate(TextSegment, AddCall, o)
      case Failure(e) => (Failure(Invalid(e)), c')
      case Success(f) => (Success(Planned(Get(o, "id"), f, Extension(o))), c')
  }

  /** One element of `add`'s map: create it, then reject an id already in the store. */
  function PlanOne(v: Value, existing: set<Value>, c: Counters, config: ColorConfig): (r: (Result<Planned, AddError>, Counters))
    requires 0 <= c.colorIndex < |Colors|
    ensures 0 <= r.1.colorIndex < |Colors|
  {
    var (created, c') := CreatePlan(v, c, config);
    if created.Success? && created.value.id in existing then (Failure(DuplicateId(created.value.id)), c')
    else (created, c')
  }

  type Plan = (Result<seq<Planned>, AddError>, Counters)

  /**
   * The whole map phase of `add`: elements are created left to right; the
   * first failure aborts the call, after the counters it has advanced.
   */
  function PlanAdd(batch: seq<Value>, existing: set<Value>, c: Counters, config: ColorConfig): (r: Plan)
    requires 0 <= c.colorIndex < |Colors|
    ensures 0 <= r.1.colorIndex < |Colors|
    ensures r.0.Success? ==> |r.0.value| == |batch|
  {
    if batch == [] then (Success([]), c)
    else
      var (first, c1) := PlanOne(batch[0], existing, c, config);
      if first.Failure? then (Failure(first.error), c1)
      else
        var (rest, c2) := PlanAdd(batch[1..], existing, c1, config);
        (if rest.Failure? then rest else Success([first.value] + rest.value), c2)
  }

  function Prepend(done: seq<Planned>, p: Plan): Plan {
    (if p.0.Success? then Success(done + p.0.value) else p.0, p.1)
  }

  lemma PrependAssoc(done: seq<Planned>, p: Planned, rest: Plan)
    ensures Prepend(done, Prepend([p], rest)) == Prepend(done + [p], rest)
  {
    if rest.0.Success? {
      assert done + ([p] + rest.0.value) == done + [p] + rest.0.value;
    }
  }

  /** One step of the map phase, from position i. */
  lemma PlanAddStep(batch: seq<Value>, i: nat, existing: set<Value>, c: Counters, config: ColorConfig)
    requires i < |batch| && 0 <= c.colorIndex < |Colors|
    ensures var (first, c1) := PlanOne(batch[i], existing, c, config);
      PlanAdd(batch[i..], existing, c, config) ==
        if first.Failure? then (Failure(first.error), c1)
        else Prepend([first.value], PlanAdd(batch[i + 1..], existing, c1, config))
  {
    assert batch[i..][0] == batch[i] && batch[i..][1..] == batch[i + 1..];
  }

  lemma PrependNothing(p: Plan)
    ensures Prepend([], p) == p
  {
    if p.0.Success? {
      assert [] + p.0.value == p.0.value;
    }
  }

  /** Number of batch elements that get a generated id. */
  function MissingIds(batch: seq<Value>): nat {
    if batch == [] then 0
    else (if batch[0].Obj? && Lacks(batch[0].props, "id") then 1 else 0) + MissingIds(batch[1..])
  }

  predicate TimesValid(o: Options) {
    Passes(o, StartTimeValid) && Passes(o, EndTimeValid) && Passes(o, StartTimeNonNegative) &&
    Passes(o, EndTimeNonNegative) && Passes(o, EndNotBeforeStart)
  }

  /** `add` is all-or-nothing: one element that is not an object, or has bad times, rejects the whole batch. */
  lemma {:induction false} PlanAddRejectsBadElement(batch: seq<Value>, existing: set<Value>, c: Counters, config: ColorConfig, j: nat)
    requires 0 <= c.colorIndex < |Colors|
    requires j < |batch| && (!IsObject(batch[j]) || !TimesValid(batch[j].props))
    ensures PlanAdd(batch, existing, c, config).0.Failure?
  {
    var (first, c1) := PlanOne(batch[0], existing, c, config);
    if j == 0 {
      if IsObject(batch[0]) {
        var (o, c') := Prepare(batch[0].props, c, config);
        assert forall k :: k in {"startTime", "endTime"} ==> Get(o, k) == Get(batch[0].props, k);
        assert !TimesValid(o);
      }
    } else if first.Success? {
      PlanAddRejectsBadElement(batch[1..], existing, c1, config, j - 1);
    }
  }

  /** On success every planned segment is well formed, carries an id, and that id is new to the store. */
  lemma {:induction false} PlanAddSound(batch: seq<Value>, existing: set<Value>, c: Counters, config: ColorConfig)
    requires 0 <= c.colorIndex < |Colors|
    ensures var (r, _) := PlanAdd(batch, existing, c, config);
      r.Success? ==> forall p :: p in r.value ==>
        WellFormed(p.fields) && !IsNullOrUndefined(p.id) && p.id !in existing
  {
    if batch != [] {
      var (first, c1) := PlanOne(batch[0], existing, c, config);
      if first.Success? {
        PlanAddSound(batch[1..], existing, c1, config);
      }
    }
  }

  /** One created element: its id is the given one or the next generated one. */
  lemma PlanOneId(v: Value, existing: set<Value>, c: Counters, config: ColorConfig)
    requires 0 <= c.colorIndex < |Colors|
    ensures var (r, c') := PlanOne(v, existing, c, config);
      r.Success? ==>
        && v.Obj?
        && c'.nextId == c.nextId + (if Lacks(v.props, "id") then 1 else 0)
        && r.value.id == (if Lacks(v.props, "id") then AutoId(c.nextId) else Get(v.props, "id"))
  {
  }

  /** On success the id counter has advanced once per element without an id. */
  lemma {:induction false} PlanAddCounter(batch: seq<Value>, existing: set<Value>, c: Counters, config: ColorConfig)
    requires 0 <= c.colorIndex < |Colors|
    ensures var (r, c') := PlanAdd(batch, existing, c, config);
      r.Success? ==> c'.nextId == c.nextId + MissingIds(batch)
  {
    if batch != [] {
      var (first, c1) := PlanOne(batch[0], existing, c, config);
      PlanOneId(batch[0], existing, c, config);
      if first.Success? {
        PlanAddCounter(batch[1..], existing, c1, config);
      }
    }
  }

  /**
   * On success an element with an id keeps it, and the k-th element without
   * one gets the counter's value plus k.
   */
  lemma {:induction false} PlanAddIds(batch: seq<Value>, existing: set<Value>, c: Counters, config: ColorConfig)
    requires 0 <= c.colorIndex < |Colors|
    ensures var (r, _) := PlanAdd(batch, existing, c, config);
      r.Success? ==>
        forall j :: 0 <= j < |batch| ==> batch[j].Obj? && r.value[j].id == IdFor(batch, c.nextId, j)
  {
    if batch != [] {
      var (first, c1) := PlanOne(batch[0], existing, c, config);
      PlanOneId(batch[0], existing, c, config);
      if first.Success? {
        var tail := batch[1..];
        PlanAddIds(tail, existing, c1, config);
        var (rest, c2) := PlanAdd(tail, existing, c1, config);
        if rest.Success? {
          assert batch[..0] == [];
          IdsShift(batch, first.value, rest.value, c.nextId, c1.nextId);
        }
      }
    }
  }

  lemma IdsShift(batch: seq<Value>, first: Planned, rest: seq<Planned>, n: nat, n1: nat)
    requires |batch| == |rest| + 1 && batch[0].Obj? && first.id == IdFor(batch, n, 0)
    requires n1 == n + (if Lacks(batch[0].props, "id") then 1 else 0)
    requires forall j :: 0 <= j < |rest| ==> batch[1..][j].Obj? && rest[j].id == IdFor(batch[1..], n1, j)
    ensures forall j :: 0 <= j < |batch| ==> batch[j].Obj? && ([first] + rest)[j].id == IdFor(batch, n, j)
  {
    var r := [first] + rest;
    forall j | 0 <= j < |batch|
      ensures batch[j].Obj? && r[j].id == IdFor(batch, n, j)
    {
      if j > 0 {
        assert batch[j] == batch[1..][j - 1] && r[j] == rest[j - 1];
        IdForTail(batch, n, j);
      }
    }
  }

  /** The id the j-th element of a batch ends up with, counting from counter value `n`. */
  function IdFor(batch: seq<Value>, n: nat, j: nat): Value
    requires j < |batch| && batch[j].Obj?
  {
    if Lacks(batch[j].props, "id") then AutoId(n + MissingIds(batch[..j])) else Get(batch[j].props, "id")
  }

  lemma IdForTail(batch: seq<Value>, n: nat, j: nat)
    requires 0 < j < |batch| && batch[j].Obj?
    ensures IdFor(batch, n, j) ==
      IdFor(batch[1..], n + (if batch[0].Obj? && Lacks(batch[0].props, "id") then 1 else 0), j - 1)
  {
    assert batch[..j][1..] == batch[1..][..j - 1];
  }

  /** Generated ids in one batch never collide with one another. */
  lemma GeneratedIdsDistinct(batch: seq<Value>, existing: set<Value>, c: Counters, config: ColorConfig, i: nat, j: nat)
    requires 0 <= c.colorIndex < |Colors|
    requires PlanAdd(batch, existing, c, config).0.Success?
    requires i < j < |batch| && batch[i].Obj? && batch[j].Obj?
    requires Lacks(batch[i].props, "id") && Lacks(batch[j].props, "id")
    ensures PlanAdd(batch, existing, c, config).0.value[i].id != PlanAdd(batch, existing, c, config).0.value[j].id
  {
    var r := PlanAdd(batch, existing, c, config).0;
    assert r.value[i].id == IdFor(batch, c.nextId, i) && r.value[j].id == IdFor(batch, c.nextId, j) by {
      PlanAddIds(batch, existing, c, config);
    }
    MissingIdsGrow(batch, i, j);
    AutoIdInjective(c.nextId + MissingIds(batch[..i]), c.nextId + MissingIds(batch[..j]));
  }

  lemma {:induction false} MissingIdsGrow(batch: seq<Value>, i: nat, j: nat)
    requires i < j <= |batch| && batch[i].Obj? && Lacks(batch[i].props, "id")
    ensures MissingIds(batch[..i]) < MissingIds(batch[..j])
  {
    if i == 0 {
      assert batch[..j][0] == batch[0];
    } else {
      assert batch[..i][1..] == batch[1..][..i - 1];
      assert batch[..j][1..] == batch[1..][..j - 1];
      MissingIdsGrow(batch[1..], i - 1, j - 1);
    }
  }

  /** Options naming every core field explicitly. */
  function Opts(id: Value, start: real, end: real): Value {
    Obj(map["id" := id, "startTime" := Num(start), "endTime" := Num(end),
            "labelText" := Str(""), "color" := Str("#000000"), "editable" := Bool(false)])
  }

  lemma OptsAccepted(id: string, start: real, end: real, existing: set<Value>, c: Counters, config: ColorConfig)
    requires 0.0 <= start <= end && 0 <= c.colorIndex < |Colors| && Str(id) !in existing
    ensures var (r, c') := PlanOne(Opts(Str(id), start, end), existing, c, config);
      r.Success? && r.value.id == Str(id) && c' == c
  {
    var o := Opts(Str(id), start, end).props;
    assert Prepare(o, c, config) == (o, c);
    forall k: Check ensures Passes(o, k) {
    }
  }

  /**
   * The duplicate check only consults ids already in the store: two options
   * with the same id in one batch are both accepted.
   */
  lemma DuplicateWithinBatchAccepted(config: ColorConfig)
    ensures var batch := [Opts(Str("a"), 0.0, 1.0), Opts(Str("a"), 2.0, 3.0)];
      var (r, _) := PlanAdd(batch, {}, Counters(0, 0), config);
      r.Success? && |r.value| == 2 && r.value[0].id == r.value[1].id == Str("a")
  {
    var x, y, c := Opts(Str("a"), 0.0, 1.0), Opts(Str("a"), 2.0, 3.0), Counters(0, 0);
    OptsAccepted("a", 0.0, 1.0, {}, c, config);
    OptsAccepted("a", 2.0, 3.0, {}, c, config);
    PlanAddPair(x, y, {}, c, config);
  }

  /** A batch of two that plans one element at a time without a change of counters. */
  lemma PlanAddPair(x: Value, y: Value, existing: set<Value>, c: Counters, config: ColorConfig)
    requires 0 <= c.colorIndex < |Colors|
    requires PlanOne(x, existing, c, config).0.Success? && PlanOne(x, existing, c, config).1 == c
    requires PlanOne(y, existing, c, config).0.Success?
    ensures PlanAdd([x, y], existing, c, config).0 ==
      Success([PlanOne(x, existing, c, config).0.value, PlanOne(y, existing, c, config).0.value])
  {
    var batch := [x, y];
    var first, second := PlanOne(x, existing, c, config).0.value, PlanOne(y, existing, c, config).0.value;
    assert batch[1..] == [y] && [y][1..] == [];
    assert PlanAdd([y], existing, c, config).0 == Success([second]) by {
      assert [second] + [] == [second];
    }
    assert [first] + [second] == [first, second];
  }

  // ---------------------------------------------------------------------------
  // Sequence helpers.

  function Ids(s: seq<Interval>): set<Value> {
    set x | x in s :: x.id
  }

  predicate DistinctIds(s: seq<Interval>) {
    forall i, j :: 0 <= i < |s| && 0 <= j < |s| && s[i].id == s[j].id ==> i == j
  }

  /** Every dictionary entry is an element of the sequence, filed under its own id. */
  predicate IndexedBy(s: seq<Interval>, m: map<Value, Interval>) {
    forall k :: k in m ==> m[k] in s && m[k].id == k
  }

  /** The store's invariant: unique ids, and the dictionary holds exactly the sequence's ids. */
  predicate ExactIndex(s: seq<Interval>, m: map<Value, Interval>) {
    IndexedBy(s, m) && DistinctIds(s) && m.Keys == Ids(s)
  }

  /** The dictionary after filing `cs` one by one (`_addTextSegment`'s second half). */
  function IndexAll(m: map<Value, Interval>, cs: seq<Interval>): (r: map<Value, Interval>)
    ensures r.Keys == m.Keys + Ids(cs)
    ensures forall k :: k in r && k !in Ids(cs) ==> r[k] == m[k]
    ensures forall k :: k in Ids(cs) ==> r[k] in cs && r[k].id == k
  {
    if cs == [] then m
    else
      var r := IndexAll(m, cs[..|cs| - 1])[cs[|cs| - 1].id := cs[|cs| - 1]];
      assert Ids(cs) == Ids(cs[..|cs| - 1]) + {cs[|cs| - 1].id} by {
        assert cs == cs[..|cs| - 1] + [cs[|cs| - 1]];
      }
      r
  }

  /** Filing a batch with a repeated id keeps only the later one. */
  lemma IndexAllKeepsLastOfDuplicates(m: map<Value, Interval>, a: Interval, b: Interval)
    requires a != b && a.id == b.id
    ensures IndexAll(m, [a, b])[a.id] == b
    ensures |IndexAll(m, [a, b]).Keys| <= |m.Keys| + 1
  {
    assert [a, b][..1] == [a];
    assert Ids([a, b]) == {a.id};
  }

  lemma AppendKeepsIndex(s: seq<Interval>, m: map<Value, Interval>, cs: seq<Interval>)
    requires IndexedBy(s, m)
    ensures IndexedBy(s + cs, IndexAll(m, cs))
    ensures ExactIndex(s, m) && DistinctIds(cs) && Ids(cs) !! m.Keys ==> ExactIndex(s + cs, IndexAll(m, cs))
  {
    var t := s + cs;
    if ExactIndex(s, m) && DistinctIds(cs) && Ids(cs) !! m.Keys {
      forall k | 0 <= k < |t| ensures t[k].id in m.Keys <==> k < |s| {
        if k < |s| {
          assert t[k] == s[k];
        } else {
          assert t[k] == cs[k - |s|];
        }
      }
      forall i, j | 0 <= i < |t| && 0 <= j < |t| && t[i].id == t[j].id
        ensures i == j
      {
        assert (i < |s|) == (j < |s|);
        if i < |s| {
          assert t[i] == s[i] && t[j] == s[j];
        } else {
          assert t[i] == cs[i - |s|] && t[j] == cs[j - |s|];
        }
      }
      assert Ids(t) == Ids(s) + Ids(cs);
    }
  }

  /** `isSubsequence(r, s)`: r is s with some elements left out, order kept. */
  predicate IsSubsequence<T(==)>(r: seq<T>, s: seq<T>)
    decreases |s|
  {
    if r == [] then true
    else if s == [] then false
    else if r[|r| - 1] == s[|s| - 1] then IsSubsequence(r[..|r| - 1], s[..|s| - 1]) || IsSubsequence(r, s[..|s| - 1])
    else IsSubsequence(r, s[..|s| - 1])
  }

  /** Appending an element to the longer sequence keeps a subsequence; appending it to both too. */
  lemma SubsequenceExtend<T>(r: seq<T>, s: seq<T>, y: T)
    requires IsSubsequence(r, s)
    ensures IsSubsequence(r, s + [y])
    ensures IsSubsequence(r + [y], s + [y])
  {
    assert (s + [y])[..|s|] == s;
    assert (r + [y])[..|r|] == r;
  }

  /** The predicates `find`, `getTextSegmentsAtTime` and the removal operations filter with. */
  datatype Filter =
    | Visible(windowStart: real, windowEnd: real)
    | CoversTime(time: real)
    | SameAs(segment: Interval)
    | HasId(id: Value)
    | StartAndEnd(startTime: Value, endTime: Value)
    | StartOnly(startTime: Value)

  predicate Matches(f: Filter, x: Interval)
    reads x
  {
    match f
    case Visible(s, e) => x.IsVisible(s, e)
    case CoversTime(t) => t >= x.startTime && t < x.endTime
    case SameAs(y) => x == y
    case HasId(id) => StrictEquals(x.id, id)
    case StartAndEnd(s, e) => StrictEquals(Num(x.startTime), s) && StrictEquals(Num(x.endTime), e)
    case StartOnly(s) => StrictEquals(Num(x.startTime), s)
  }

  /** The elements of `s` whose match against `f` is `matching`, in their original order. */
  function Keep(s: seq<Interval>, f: Filter, matching: bool): (r: seq<Interval>)
    reads s
    ensures |r| <= |s|
  {
    if s == [] then []
    else
      var last := s[|s| - 1];
      Keep(s[..|s| - 1], f, matching) + (if Matches(f, last) == matching then [last] else [])
  }

  /** Exactly the elements with the wanted verdict survive the filter. */
  lemma {:induction false} KeepMembers(s: seq<Interval>, f: Filter, matching: bool)
    ensures forall j :: 0 <= j < |Keep(s, f, matching)| ==>
      Keep(s, f, matching)[j] in s && Matches(f, Keep(s, f, matching)[j]) == matching
    ensures forall j :: 0 <= j < |s| && Matches(f, s[j]) == matching ==> s[j] in Keep(s, f, matching)
  {
    if s != [] {
      var init, last := s[..|s| - 1], s[|s| - 1];
      KeepMembers(init, f, matching);
      var k, r := Keep(init, f, matching), Keep(s, f, matching);
      forall j | 0 <= j < |r| ensures r[j] in s && Matches(f, r[j]) == matching {
        if j < |k| {
          assert r[j] == k[j];
          var i :| 0 <= i < |init| && init[i] == k[j];
          assert s[i] == k[j];
        } else {
          assert r[j] == last;
        }
      }
      forall j | 0 <= j < |s| && Matches(f, s[j]) == matching ensures s[j] in r {
        if j < |init| {
          assert s[j] == init[j];
        }
      }
    }
  }

  /** The filter keeps the original order. */
  lemma {:induction false} KeepIsSubsequence(s: seq<Interval>, f: Filter, matching: bool)
    ensures IsSubsequence(Keep(s, f, matching), s)
  {
    if s != [] {
      var init, last := s[..|s| - 1], s[|s| - 1];
      KeepIsSubsequence(init, f, matching);
      var k := Keep(init, f, matching);
      assert s == init + [last];
      SubsequenceExtend(k, init, last);
      if Matches(f, last) == matching {
        assert Keep(s, f, matching) == k + [last];
      } else {
        assert Keep(s, f, matching) == k;
      }
    }
  }

  /** The two halves of a filter partition the sequence. */
  lemma {:induction false} KeepPartition(s: seq<Interval>, f: Filter)
    ensures |Keep(s, f, true)| + |Keep(s, f, false)| == |s|
  {
    if s != [] {
      KeepPartition(s[..|s| - 1], f);
    }
  }

  lemma {:induction false} KeepDistinct(s: seq<Interval>, f: Filter, matching: bool)
    requires DistinctIds(s)
    ensures DistinctIds(Keep(s, f, matching))
  {
    if s != [] {
      var init, last := s[..|s| - 1], s[|s| - 1];
      assert DistinctIds(init);
      KeepDistinct(init, f, matching);
      KeepMembers(init, f, matching);
      var k, r := Keep(init, f, matching), Keep(s, f, matching);
      forall i | 0 <= i < |k| ensures k[i].id != last.id {
        var n :| 0 <= n < |init| && init[n] == k[i];
        assert s[n] == k[i] && s[|s| - 1] == last;
      }
      forall i, j | 0 <= i < |r| && 0 <= j < |r| && r[i].id == r[j].id ensures i == j {
        if i < |k| {
          assert r[i] == k[i];
        }
        if j < |k| {
          assert r[j] == k[j];
        }
      }
    }
  }

  lemma SameIdSameObject(s: seq<Interval>, x: Interval, y: Interval)
    requires DistinctIds(s) && x in s && y in s && x.id == y.id
    ensures x == y
  {
    var i :| 0 <= i < |s| && s[i] == x;
    var j :| 0 <= j < |s| && s[j] == y;
  }

  /** Deleting the matching elements from both structures keeps them consistent. */
  lemma RemovalKeepsIndex(s: seq<Interval>, m: map<Value, Interval>, f: Filter)
    requires IndexedBy(s, m)
    ensures IndexedBy(Keep(s, f, false), m - Ids(Keep(s, f, true)))
    ensures ExactIndex(s, m) ==> ExactIndex(Keep(s, f, false), m - Ids(Keep(s, f, true)))
  {
    var gone, kept := Keep(s, f, true), Keep(s, f, false);
    KeepMembers(s, f, true);
    KeepMembers(s, f, false);
    var m' := m - Ids(gone);
    forall k | k in m' ensures m'[k] in kept && m'[k].id == k {
      assert m[k] !in gone;
    }
    if ExactIndex(s, m) {
      KeepDistinct(s, f, false);
      forall k | k in m' ensures k in Ids(kept) {
        assert m[k] in kept;
      }
      forall x | x in kept ensures x.id in m' {
        assert x.id in m.Keys;
        if x.id in Ids(gone) {
          var y :| y in gone && y.id == x.id;
          SameIdSameObject(s, x, y);
        }
      }
    }
  }

  // Positional removal, as `_removeIndexes` performs it.

  predicate Increasing(xs: seq<nat>) {
    forall a, b :: 0 <= a < b < |xs| ==> xs[a] < xs[b]
  }

  function Elements(xs: seq<nat>): (r: set<nat>)
    ensures forall j :: 0 <= j < |xs| ==> xs[j] in r
    ensures forall x :: x in r ==> x in xs
  {
    if xs == [] then {} else Elements(xs[..|xs| - 1]) + {xs[|xs| - 1]}
  }

  /** `s` without the positions in `d`. */
  function Without<T>(s: seq<T>, d: set<nat>): (r: seq<T>)
    ensures |r| <= |s|
  {
    if s == [] then []
    else Without(s[..|s| - 1], d) + (if |s| - 1 in d then [] else [s[|s| - 1]])
  }

  lemma {:induction false} WithoutIgnoresFarPositions<T>(s: seq<T>, d: set<nat>, e: set<nat>)
    requires forall j :: 0 <= j < |s| ==> (j in d <==> j in e)
    ensures Without(s, d) == Without(s, e)
  {
    if s != [] {
      WithoutIgnoresFarPositions(s[..|s| - 1], d, e);
    }
  }

  lemma {:induction false} WithoutPrefix<T>(s: seq<T>, d: set<nat>, p: nat)
    requires p <= |s| && forall x :: x in d ==> x < p
    ensures Without(s, d) == Without(s[..p], d) + s[p..]
    decreases |s| - p
  {
    if p < |s| {
      WithoutPrefix(s[..|s| - 1], d, p);
      assert s[..|s| - 1][..p] == s[..p];
      assert s[..|s| - 1][p..] + [s[|s| - 1]] == s[p..];
    } else {
      assert s[..p] == s;
    }
  }

  /** With `q` the largest removed position, the part up to it loses exactly `s[q]`. */
  lemma WithoutTop<T>(s: seq<T>, d: set<nat>, q: nat)
    requires q < |s| && forall x :: x in d ==> x < q
    ensures Without(s[..q + 1], d + {q}) == Without(s[..q], d)
  {
    assert s[..q + 1][..q] == s[..q];
    WithoutIgnoresFarPositions(s[..q], d + {q}, d);
  }

  /** Removing i distinct positions, all inside `t`, shortens it by i. */
  lemma {:induction false} WithoutCount<T>(t: seq<T>, idx: seq<nat>, i: nat)
    requires Increasing(idx) && i <= |idx|
    requires forall k :: 0 <= k < i ==> idx[k] < |t|
    ensures |Without(t, Elements(idx[..i]))| == |t| - i
  {
    if i == 0 {
      assert idx[..0] == [];
      WithoutNothing(t);
    } else {
      var q := idx[i - 1];
      var d := Elements(idx[..i - 1]);
      ElementsBelow(idx, i - 1);
      ElementsSnoc(idx, i - 1);
      WithoutStep(t, d, q);
      IncreasingBelow(idx, i - 1);
      WithoutCount(t[..q], idx, i - 1);
    }
  }

  /** Removing one more position `q`, above all others, costs one element. */
  lemma WithoutStep<T>(t: seq<T>, d: set<nat>, q: nat)
    requires q < |t| && forall x :: x in d ==> x < q
    ensures |Without(t, d + {q})| == |Without(t[..q], d)| + |t| - q - 1
  {
    WithoutPrefix(t, d + {q}, q + 1);
    WithoutTop(t, d, q);
  }

  lemma {:induction false} WithoutNothing<T>(s: seq<T>)
    ensures Without(s, {}) == s
  {
    if s != [] {
      WithoutNothing(s[..|s| - 1]);
    }
  }

  lemma IncreasingBelow(idx: seq<nat>, i: nat)
    requires Increasing(idx) && i < |idx|
    ensures forall k :: 0 <= k < i ==> idx[k] < idx[i]
  {
  }

  lemma ElementsBelow(idx: seq<nat>, i: nat)
    requires Increasing(idx) && i < |idx|
    ensures forall x :: x in Elements(idx[..i]) ==> x < idx[i]
  {
    forall x | x in Elements(idx[..i]) ensures x < idx[i] {
      var k :| 0 <= k < i && idx[k] == x;
    }
  }

  lemma ElementsSnoc(idx: seq<nat>, i: nat)
    requires i < |idx|
    ensures Elements(idx[..i + 1]) == Elements(idx[..i]) + {idx[i]}
  {
    assert idx[..i + 1][..i] == idx[..i];
  }

  /** Splicing out the first surviving position at or after `p` removes `s[p]`. */
  lemma SpliceShape<T>(s: seq<T>, d: set<nat>, p: nat, n: nat)
    requires p < |s| && (forall x :: x in d ==> x < p) && |Without(s[..p], d)| == n
    ensures var t := Without(s, d);
      && n < |t| && t[n] == s[p]
      && t[..n] + t[n + 1..] == Without(s, d + {p})
  {
    var head := Without(s[..p], d);
    var t := Without(s, d);
    assert t == head + s[p..] by {
      WithoutPrefix(s, d, p);
    }
    assert Without(s, d + {p}) == head + s[p + 1..] by {
      WithoutPrefix(s, d + {p}, p + 1);
      WithoutTop(s, d, p);
    }
    assert t[..n] == head;
    assert t[n + 1..] == s[p + 1..];
  }

  /** The index compensation of `_removeIndexes`: after i removals, `idx[i] - i` names `s[idx[i]]`. */
  lemma RemoveStep<T>(s: seq<T>, idx: seq<nat>, i: nat)
    requires Increasing(idx) && i < |idx| && forall k :: 0 <= k < |idx| ==> idx[k] < |s|
    ensures var t := Without(s, Elements(idx[..i]));
      && 0 <= idx[i] - i < |t|
      && t[idx[i] - i] == s[idx[i]]
      && t[..idx[i] - i] + t[idx[i] - i + 1..] == Without(s, Elements(idx[..i + 1]))
  {
    var p := idx[i];
    var d := Elements(idx[..i]);
    ElementsBelow(idx, i);
    ElementsSnoc(idx, i);
    WithoutCount(s[..p], idx, i);
    SpliceShape(s, d, p, p - i);
  }

  /** The match positions of `f` in `s`, ascending (`_findTextSegment`). */
  function Positions(s: seq<Interval>, f: Filter): (r: seq<nat>)
    reads s
    ensures Increasing(r)
    ensures forall k :: 0 <= k < |r| ==> r[k] < |s|
    ensures forall j :: 0 <= j < |s| ==> (j in r <==> Matches(f, s[j]))
  {
    if s == [] then []
    else Positions(s[..|s| - 1], f) + (if Matches(f, s[|s| - 1]) then [|s| - 1] else [])
  }

  lemma IdsSnoc(r: seq<Interval>, x: Interval)
    ensures Ids(r + [x]) == Ids(r) + {x.id}
  {
    assert forall y :: y in r + [x] <==> y in r || y == x;
  }

  lemma PickSnoc<T>(s: seq<T>, idx: seq<nat>, i: nat)
    requires i < |idx| && forall k :: 0 <= k < |idx| ==> idx[k] < |s|
    ensures Pick(s, idx[..i + 1]) == Pick(s, idx[..i]) + [s[idx[i]]]
  {
    assert idx[..i + 1][..i] == idx[..i];
  }

  /** What `_removeIndexes` has collected and deleted from the dictionary grows by one element per step. */
  lemma RemovedStep(s: seq<Interval>, idx: seq<nat>, i: nat, m: map<Value, Interval>)
    requires i < |idx| && forall k :: 0 <= k < |idx| ==> idx[k] < |s|
    ensures Pick(s, idx[..i]) + [s[idx[i]]] == Pick(s, idx[..i + 1])
    ensures m - Ids(Pick(s, idx[..i])) - {s[idx[i]].id} == m - Ids(Pick(s, idx[..i + 1]))
  {
    PickSnoc(s, idx, i);
    IdsSnoc(Pick(s, idx[..i]), s[idx[i]]);
    MapMinusTwice(m, Ids(Pick(s, idx[..i])), {s[idx[i]].id});
  }

  lemma MapMinusTwice<K, V>(m: map<K, V>, a: set<K>, b: set<K>)
    ensures m - a - b == m - (a + b)
  {
    assert (m - a - b).Keys == (m - (a + b)).Keys;
  }

  /** The elements at positions `idx`, in that order. */
  function Pick<T>(s: seq<T>, idx: seq<nat>): (r: seq<T>)
    requires forall k :: 0 <= k < |idx| ==> idx[k] < |s|
    ensures |r| == |idx|
    ensures forall k :: 0 <= k < |idx| ==> r[k] == s[idx[k]]
  {
    if idx == [] then [] else Pick(s, idx[..|idx| - 1]) + [s[idx[|idx| - 1]]]
  }

  lemma {:induction false} PickPrefix<T>(s: seq<T>, idx: seq<nat>, p: nat)
    requires p <= |s| && forall k :: 0 <= k < |idx| ==> idx[k] < p
    ensures Pick(s, idx) == Pick(s[..p], idx)
  {
    if idx != [] {
      PickPrefix(s, idx[..|idx| - 1], p);
    }
  }

  /** Taking the elements at the match positions is the filter. */
  lemma {:induction false} PickPositions(s: seq<Interval>, f: Filter)
    ensures Pick(s, Positions(s, f)) == Keep(s, f, true)
  {
    if s != [] {
      var n := |s| - 1;
      var init, p := s[..n], Positions(s[..n], f);
      PickPositions(init, f);
      PickPrefix(s, p, n);
      if Matches(f, s[n]) {
        PickAppend(s, p, n);
      }
    }
  }

  lemma PickAppend<T>(s: seq<T>, p: seq<nat>, n: nat)
    requires n < |s| && forall k :: 0 <= k < |p| ==> p[k] < |s|
    ensures Pick(s, p + [n]) == Pick(s, p) + [s[n]]
  {
    assert (p + [n])[..|p|] == p;
  }

  /** Removing the match positions is the complementary filter. */
  lemma {:induction false} WithoutPositions(s: seq<Interval>, f: Filter)
    ensures Without(s, Elements(Positions(s, f))) == Keep(s, f, false)
  {
    if s != [] {
      var n := |s| - 1;
      var init := s[..n];
      var d, e := Elements(Positions(s, f)), Elements(Positions(init, f));
      assert forall j :: 0 <= j < |init| ==> (j in d <==> j in e) by {
        ElementsMembers(Positions(s, f));
        ElementsMembers(Positions(init, f));
      }
      WithoutIgnoresFarPositions(init, d, e);
      WithoutPositions(init, f);
      assert (n in d) == Matches(f, s[n]) by {
        ElementsMembers(Positions(s, f));
      }
    }
  }

  lemma ElementsMembers(xs: seq<nat>)
    ensures forall x :: x in Elements(xs) <==> x in xs
  {
  }


  // ---------------------------------------------------------------------------
  // The store.

  class WaveformTextSegments {
    const peaks: Emitter
    const colorConfig: ColorConfig
    var textSegments: seq<Interval>
    var textSegmentsById: map<Value, Interval>
    var textSegmentIdCounter: nat
    var colorIndex: int

    /** What every operation keeps, even after a batch with a repeated id. */
    ghost predicate Consistent()
      reads this
    {
      0 <= colorIndex < |Colors| && IndexedBy(textSegments, textSegmentsById)
    }

    /** The array and the dictionary hold the same id set, each id once. */
    ghost predicate Valid()
      reads this
    {
      Consistent() && ExactIndex(textSegments, textSegmentsById)
    }

    function CountersNow(): Counters
      reads this
    {
      Counters(textSegmentIdCounter, colorIndex)
    }

    constructor (peaks: Emitter, colorConfig: ColorConfig)
      ensures this.peaks == peaks && this.colorConfig == colorConfig
      ensures textSegments == [] && textSegmentsById == map[]
      ensures textSegmentIdCounter == 0 && colorIndex == 0
      ensures Valid()
    {
      this.peaks := peaks;
      this.colorConfig := colorConfig;
      textSegments := [];
      textSegmentsById := map[];
      textSegmentIdCounter := 0;
      colorIndex := 0;
    }

    /** `_getNextTextSegmentId`: the counter's current value, then one more. */
    method GetNextTextSegmentId() returns (id: Value)
      modifies this
      ensures id == AutoId(old(textSegmentIdCounter)) && textSegmentIdCounter == old(textSegmentIdCounter) + 1
      ensures textSegments == old(textSegments) && textSegmentsById == old(textSegmentsById)
      ensures colorIndex == old(colorIndex)
    {
      id := AutoId(textSegmentIdCounter);
      textSegmentIdCounter := textSegmentIdCounter + 1;
    }

    /** `_getTextSegmentColor`: pre-increment and wrap the index when randomizing. */
    method GetTextSegmentColor() returns (color: Value)
      requires 0 <= colorIndex < |Colors|
      modifies this
      ensures (color, colorIndex) == NextColor(old(colorIndex), colorConfig)
      ensures textSegments == old(textSegments) && textSegmentsById == old(textSegmentsById)
      ensures textSegmentIdCounter == old(textSegmentIdCounter)
    {
      if colorConfig.randomize {
        colorIndex := colorIndex + 1;
        if colorIndex == |Colors| {
          colorIndex := 0;
        }
        color := Str(Colors[colorIndex]);
      } else {
        color := colorConfig.fallback;
      }
    }

    predicate Represents(x: Interval, p: Planned)
      reads x
    {
      x.family == TextSegment && x.peaks == peaks && x.id == p.id && x.Fields() == p.fields && x.userData == p.userData
    }

    /** `_createTextSegment(options)`. */
    method CreateTextSegment(v: Value) returns (r: Result<Interval, AddError>)
      requires Consistent()
      modifies this
      ensures Consistent()
      ensures textSegments == old(textSegments) && textSegmentsById == old(textSegmentsById)
      ensures var (p, c) := CreatePlan(v, old(CountersNow()), colorConfig);
        && CountersNow() == c
        && (p.Failure? ==> r == Failure(p.error))
        && (p.Success? ==> r.Success? && fresh(r.value) && Represents(r.value, p.value))
    {
      if !IsObject(v) {
        return Failure(NotAnObject);
      }
      ghost var c0 := CountersNow();
      var o := v.props;
      if Lacks(o, "id") {
        var id := GetNextTextSegmentId();
        o := o["id" := id];
      }
      if Lacks(o, "color") {
        var color := GetTextSegmentColor();
        o := o["color" := color];
      }
      if Lacks(o, "labelText") {
        o := o["labelText" := Str("")];
      }
      if Lacks(o, "editable") {
        o := o["editable" := Bool(false)];
      }
      assert (o, CountersNow()) == Prepare(v.props, c0, colorConfig);
      var created := Interval.Create(TextSegment, peaks, o);
      if created.Failure? {
        return Failure(Invalid(created.error));
      }
      return Success(created.value);
    }

    /** `_addTextSegment`: push, then file under the id. */
    method AddTextSegment(x: Interval)
      modifies this
      ensures textSegments == old(textSegments) + [x]
      ensures textSegmentsById == old(textSegmentsById)[x.id := x]
      ensures CountersNow() == old(CountersNow())
    {
      textSegments := textSegments + [x];
      textSegmentsById := textSegmentsById[x.id := x];
    }

    /** Every element corresponds to its plan entry and is new since the call began. */
    twostate predicate Realizes(new created: seq<Interval>, plans: seq<Planned>)
      reads created
    {
      |created| == |plans| && forall j :: 0 <= j < |created| ==> fresh(created[j]) && Represents(created[j], plans[j])
    }

    /** The map phase of `add`: create and check each element in turn, stopping at the first failure. */
    method CreateAll(batch: seq<Value>) returns (r: Result<seq<Interval>, AddError>)
      requires Consistent()
      modifies this
      ensures Consistent()
      ensures textSegments == old(textSegments) && textSegmentsById == old(textSegmentsById)
      ensures var (plan, c) := PlanAdd(batch, textSegmentsById.Keys, old(CountersNow()), colorConfig);
        && CountersNow() == c
        && (plan.Failure? ==> r == Failure(plan.error))
        && (plan.Success? ==> r.Success? && Realizes(r.value, plan.value))
    {
      ghost var existing := textSegmentsById.Keys;
      ghost var c0 := CountersNow();
      var created: seq<Interval> := [];
      ghost var plans: seq<Planned> := [];
      var i := 0;
      assert batch[i..] == batch;
      PrependNothing(PlanAdd(batch, existing, c0, colorConfig));
      while i < |batch|
        invariant 0 <= i <= |batch|
        invariant Consistent()
        invariant textSegments == old(textSegments) && textSegmentsById == old(textSegmentsById)
        invariant PlanAdd(batch, existing, c0, colorConfig) ==
                  Prepend(plans, PlanAdd(batch[i..], existing, CountersNow(), colorConfig))
        invariant Realizes(created, plans)
      {
        ghost var before := CountersNow();
        PlanAddStep(batch, i, existing, before, colorConfig);
        var res := CreateTextSegment(batch[i]);
        if res.Failure? {
          return Failure(res.error);
        }
        var x := res.value;
        if x.id in textSegmentsById {
          return Failure(DuplicateId(x.id));
        }
        ghost var p := CreatePlan(batch[i], before, colorConfig).0.value;
        PrependAssoc(plans, p, PlanAdd(batch[i + 1..], existing, CountersNow(), colorConfig));
        created := created + [x];
        plans := plans + [p];
        i := i + 1;
      }
      assert batch[i..] == [];
      PrependNothing((Success([]), CountersNow()));
      r := Success(created);
    }

    /** The push phase of `add`: `_addTextSegment` for each created element, in order. */
    method AddTextSegments(created: seq<Interval>)
      modifies this
      ensures textSegments == old(textSegments) + created
      ensures textSegmentsById == IndexAll(old(textSegmentsById), created)
      ensures CountersNow() == old(CountersNow())
    {
      var k := 0;
      while k < |created|
        invariant 0 <= k <= |created|
        invariant textSegments == old(textSegments) + created[..k]
        invariant textSegmentsById == IndexAll(old(textSegmentsById), created[..k])
        invariant CountersNow() == old(CountersNow())
      {
        assert created[..k + 1][..k] == created[..k];
        AddTextSegment(created[k]);
        k := k + 1;
      }
      assert created[..k] == created;
    }

    /**
     * `add(options...)`: create and check every element first, then append
     * them all in argument order and emit one add event. A failure leaves the
     * segments, the dictionary and the log as they were (the counters keep
     * whatever the elements before it consumed).
     */
    method Add(batch: seq<Value>) returns (r: Result<seq<Interval>, AddError>)
      requires Consistent()
      modifies this, peaks
      ensures Consistent()
      ensures var (plan, c) := PlanAdd(batch, old(textSegmentsById).Keys, old(CountersNow()), colorConfig);
        && CountersNow() == c
        && (plan.Failure? ==>
              && r == Failure(plan.error)
              && textSegments == old(textSegments) && textSegmentsById == old(textSegmentsById)
              && peaks.log == old(peaks.log))
        && (plan.Success? ==>
              && r.Success? && Realizes(r.value, plan.value)
              && textSegments == old(textSegments) + r.value
              && textSegmentsById == IndexAll(old(textSegmentsById), r.value)
              && peaks.log == old(peaks.log) + [SegmentsAdded(r.value)])
      ensures old(Valid()) && r.Success? && DistinctIds(r.value) ==> Valid()
    {
      ghost var plan := PlanAdd(batch, textSegmentsById.Keys, CountersNow(), colorConfig).0;
      r := CreateAll(batch);
      if r.Failure? {
        return;
      }
      var created := r.value;
      assert Ids(created) !! old(textSegmentsById).Keys by {
        PlanAddSound(batch, old(textSegmentsById).Keys, old(CountersNow()), colorConfig);
        forall x | x in created ensures x.id !in old(textSegmentsById).Keys {
          var j :| 0 <= j < |created| && created[j] == x;
          assert plan.value[j] in plan.value;
        }
      }
      AddTextSegments(created);
      AppendKeepsIndex(old(textSegments), old(textSegmentsById), created);
      peaks.Emit(SegmentsAdded(created));
    }

    /** `getTextSegment(id)`: the segment filed under `id`, or null. */
    function GetTextSegment(id: Value): (r: Option<Interval>)
      reads this
      ensures Consistent() ==> (r.Some? ==> r.value in textSegments && r.value.id == id)
      ensures Valid() ==> (r.Some? <==> id in Ids(textSegments))
    {
      if id in textSegmentsById then Some(textSegmentsById[id]) else None
    }

    /** `getTextSegmentsAtTime(t)`: segments with start <= t < end, in insertion order. */
    function GetTextSegmentsAtTime(time: real): (r: seq<Interval>)
      reads this, textSegments
      ensures IsSubsequence(r, textSegments)
      ensures forall j :: 0 <= j < |r| ==> r[j] in textSegments && r[j].startTime <= time < r[j].endTime
      ensures forall j :: 0 <= j < |textSegments| && textSegments[j].startTime <= time < textSegments[j].endTime ==>
                textSegments[j] in r
    {
      KeepMembers(textSegments, CoversTime(time), true);
      KeepIsSubsequence(textSegments, CoversTime(time), true);
      Keep(textSegments, CoversTime(time), true)
    }

    /** `find(start, end)`: segments visible in the window, in insertion order. */
    function Find(windowStart: real, windowEnd: real): (r: seq<Interval>)
      reads this, textSegments
      ensures IsSubsequence(r, textSegments)
      ensures forall j :: 0 <= j < |r| ==> r[j] in textSegments && r[j].IsVisible(windowStart, windowEnd)
      ensures forall j :: 0 <= j < |textSegments| && textSegments[j].IsVisible(windowStart, windowEnd) ==>
                textSegments[j] in r
    {
      KeepMembers(textSegments, Visible(windowStart, windowEnd), true);
      KeepIsSubsequence(textSegments, Visible(windowStart, windowEnd), true);
      Keep(textSegments, Visible(windowStart, windowEnd), true)
    }

    /** `_findTextSegment(predicate)`: the ascending positions of the matching segments. */
    method FindTextSegment(f: Filter) returns (indexes: seq<nat>)
      ensures indexes == old(Positions(textSegments, f))
      ensures Increasing(indexes)
      ensures forall j :: 0 <= j < |textSegments| ==> (j in indexes <==> Matches(f, textSegments[j]))
    {
      indexes := [];
      var i := 0;
      while i < |textSegments|
        invariant 0 <= i <= |textSegments|
        invariant indexes == Positions(textSegments[..i], f)
      {
        assert textSegments[..i + 1][..i] == textSegments[..i];
        if Matches(f, textSegments[i]) {
          indexes := indexes + [i];
        }
        i := i + 1;
      }
      assert textSegments[..i] == textSegments;
    }

    /** One iteration of `_removeIndexes`: splice position `index` out and drop its id. */
    method SpliceOut(index: nat) returns (item: Interval)
      requires index < |textSegments|
      modifies this
      ensures item == old(textSegments[index])
      ensures textSegments == old(textSegments[..index] + textSegments[index + 1..])
      ensures textSegmentsById == old(textSegmentsById) - {item.id}
      ensures CountersNow() == old(CountersNow())
    {
      item := textSegments[index];
      textSegments := textSegments[..index] + textSegments[index + 1..];
      textSegmentsById := textSegmentsById - {item.id};
    }

    /** `_removeIndexes(indexes)`: splice each position out, compensating for earlier removals. */
    method RemoveIndexes(indexes: seq<nat>) returns (removed: seq<Interval>)
      requires Increasing(indexes) && forall k :: 0 <= k < |indexes| ==> indexes[k] < |textSegments|
      modifies this
      ensures textSegments == Without(old(textSegments), Elements(indexes))
      ensures removed == Pick(old(textSegments), indexes)
      ensures textSegmentsById == old(textSegmentsById) - Ids(removed)
      ensures CountersNow() == old(CountersNow())
    {
      ghost var s := textSegments;
      removed := [];
      var i := 0;
      assert indexes[..i] == [];
      WithoutNothing(s);
      while i < |indexes|
        invariant 0 <= i <= |indexes| && |removed| == i
        invariant textSegments == Without(s, Elements(indexes[..i]))
        invariant removed == Pick(s, indexes[..i])
        invariant textSegmentsById == old(textSegmentsById) - Ids(removed)
        invariant CountersNow() == old(CountersNow())
      {
        ghost var before, after := Without(s, Elements(indexes[..i])), Without(s, Elements(indexes[..i + 1]));
        ghost var picked := Pick(s, indexes[..i + 1]);
        var index := indexes[i] - |removed|;
        assert 0 <= index < |before| && before[index] == s[indexes[i]]
            && before[..index] + before[index + 1..] == after by {
          RemoveStep(s, indexes, i);
        }
        assert removed + [s[indexes[i]]] == picked
            && old(textSegmentsById) - Ids(removed) - {s[indexes[i]].id} == old(textSegmentsById) - Ids(picked) by {
          RemovedStep(s, indexes, i, old(textSegmentsById));
        }
        var item := SpliceOut(index);
        removed := removed + [item];
        i := i + 1;
      }
      assert indexes[..i] == indexes;
    }

    /**
     * `_removeTextSegments(predicate)`: delete exactly the matching segments
     * from the array and the dictionary, keep the others in order, and emit
     * one remove event with the removed list (possibly empty).
     */
    method RemoveTextSegments(f: Filter) returns (removed: seq<Interval>)
      requires Consistent()
      modifies this, peaks
      ensures Consistent()
      ensures removed == old(Keep(textSegments, f, true))
      ensures textSegments == old(Keep(textSegments, f, false))
      ensures textSegmentsById == old(textSegmentsById) - Ids(removed)
      ensures CountersNow() == old(CountersNow())
      ensures peaks.log == old(peaks.log) + [SegmentsRemoved(removed)]
      ensures old(Valid()) ==> Valid()
    {
      ghost var s, m := textSegments, textSegmentsById;
      PickPositions(s, f);
      WithoutPositions(s, f);
      RemovalKeepsIndex(s, m, f);
      var indexes := FindTextSegment(f);
      removed := RemoveIndexes(indexes);
      peaks.Emit(SegmentsRemoved(removed));
    }

    /** `remove(segment)`: by identity. */
    method Remove(segment: Interval) returns (removed: seq<Interval>)
      requires Consistent()
      modifies this, peaks
      ensures Consistent()
      ensures removed == old(Keep(textSegments, SameAs(segment), true))
      ensures textSegments == old(Keep(textSegments, SameAs(segment), false))
      ensures textSegmentsById == old(textSegmentsById) - Ids(removed)
      ensures peaks.log == old(peaks.log) + [SegmentsRemoved(removed)]
      ensures old(Valid()) ==> Valid()
    {
      removed := RemoveTextSegments(SameAs(segment));
    }

    /** `removeById(id)`. */
    method RemoveById(id: Value) returns (removed: seq<Interval>)
      requires Consistent()
      modifies this, peaks
      ensures Consistent()
      ensures removed == old(Keep(textSegments, HasId(id), true))
      ensures textSegments == old(Keep(textSegments, HasId(id), false))
      ensures textSegmentsById == old(textSegmentsById) - Ids(removed)
      ensures peaks.log == old(peaks.log) + [SegmentsRemoved(removed)]
      ensures old(Valid()) ==> Valid()
    {
      removed := RemoveTextSegments(HasId(id));
    }

    /**
     * `removeByTime(start, end)`: a non-number end counts as 0; a positive
     * end must match too, otherwise only the start is compared.
     */
    method RemoveByTime(startTime: Value, endTime: Value) returns (removed: seq<Interval>)
      requires Consistent()
      modifies this, peaks
      ensures Consistent()
      ensures removed == old(Keep(textSegments, TimeFilter(startTime, endTime), true))
      ensures textSegments == old(Keep(textSegments, TimeFilter(startTime, endTime), false))
      ensures textSegmentsById == old(textSegmentsById) - Ids(removed)
      ensures peaks.log == old(peaks.log) + [SegmentsRemoved(removed)]
      ensures old(Valid()) ==> Valid()
    {
      removed := RemoveTextSegments(TimeFilter(startTime, endTime));
    }

    /** `removeAll()`: empty both structures and emit remove_all. */
    method RemoveAll()
      requires Consistent()
      modifies this, peaks
      ensures Valid()
      ensures textSegments == [] && textSegmentsById == map[]
      ensures CountersNow() == old(CountersNow())
      ensures peaks.log == old(peaks.log) + [SegmentsRemovedAll]
    {
      textSegments := [];
      textSegmentsById := map[];
      peaks.Emit(SegmentsRemovedAll);
    }
  }

  /** `endTime > 0` on an end that is already a number. */
  predicate Positive(v: Value) {
    (v.Num? && v.n > 0.0) || v == Infinity(false)
  }

  /** The predicate `removeByTime(start, end)` removes with. */
  function TimeFilter(startTime: Value, endTime: Value): (f: Filter)
    ensures !IsNumberType(endTime) ==> f == StartOnly(startTime)
    ensures endTime.Num? && endTime.n > 0.0 ==> f == StartAndEnd(startTime, endTime)
    ensures endTime.Num? && endTime.n <= 0.0 ==> f == StartOnly(startTime)
    ensures endTime.NaN? ==> f == StartOnly(startTime)
  {
    var end := if IsNumberType(endTime) then endTime else Num(0.0);
    if Positive(end) then StartAndEnd(startTime, end) else StartOnly(startTime)
  }
}
