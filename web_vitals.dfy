/**
 * The performance helpers of src/utils/performance.js: the recommendations
 * derived from the measured web vitals, the layout-shift accumulator, and the
 * intersection-observer factory with its fallback.
 */
module WebVitals {
  import opened Wrappers

  /** The `vitals` object; a key that was never set is None. Times are in
      milliseconds. */
  datatype Vitals = Vitals(fcp: Option<int>, lcp: Option<int>, fid: Option<int>,
                           cls: Option<real>, tti: Option<int>)

  /** `{}`. */
  const NoVitals: Vitals := Vitals(None, None, None, None, None)

  /** The four recommendations, in the order they are pushed. */
  datatype Recommendation = OptimizeFcp | OptimizeLcp | OptimizeFid | ReduceCls

  const FcpThresholdMs: int := 1800
  const LcpThresholdMs: int := 2500
  const FidThresholdMs: int := 100
  const ClsThreshold: real := 0.1

  function Position(r: Recommendation): nat
  {
    match r
    case OptimizeFcp => 0
    case OptimizeLcp => 1
    case OptimizeFid => 2
    case ReduceCls => 3
  }

  /** A metric calls for its recommendation when it was measured and is
      strictly above its threshold; comparing a missing key is false. */
  predicate Exceeds(v: Vitals, r: Recommendation)
  {
    match r
    case OptimizeFcp => v.fcp.Some? && v.fcp.value > FcpThresholdMs
    case OptimizeLcp => v.lcp.Some? && v.lcp.value > LcpThresholdMs
    case OptimizeFid => v.fid.Some? && v.fid.value > FidThresholdMs
    case ReduceCls => v.cls.Some? && v.cls.value > ClsThreshold
  }

  /** The `recommendations` list of `logPerformanceMetrics`: exactly the
      exceeded metrics, each once, in push order. */
  method Recommendations(v: Vitals) returns (recs: seq<Recommendation>)
    ensures forall r :: r in recs <==> Exceeds(v, r)
    ensures forall i, j :: 0 <= i < j < |recs| ==> Position(recs[i]) < Position(recs[j])
    ensures v == NoVitals ==> recs == []
  {
    recs := [];
    if v.fcp.Some? && v.fcp.value > FcpThresholdMs {
      recs := recs + [OptimizeFcp];
    }
    if v.lcp.Some? && v.lcp.value > LcpThresholdMs {
      recs := recs + [OptimizeLcp];
    }
    if v.fid.Some? && v.fid.value > FidThresholdMs {
      recs := recs + [OptimizeFid];
    }
    if v.cls.Some? && v.cls.value > ClsThreshold {
      recs := recs + [ReduceCls];
    }
  }

  /** How a promise of vitals settles: resolved with the object, or rejected
      (which `logPerformanceMetrics` catches). */
  datatype Measured = Resolved(vitals: Vitals) | Failed

  /** `measurePerformance`: the promise of the observers' vitals when the
      Performance API exists, otherwise a promise already resolved with `{}`.
      The observers' promise is a parameter. */
  function MeasurePerformance(hasPerformance: bool, webVitals: Measured): (m: Measured)
    ensures !hasPerformance ==> m == Resolved(NoVitals)
    ensures hasPerformance ==> m == webVitals
  {
    if hasPerformance then webVitals else Resolved(NoVitals)
  }

  /** `logPerformanceMetrics`: awaits `measurePerformance` and returns the
      vitals with their recommendations; without the Performance API, or when
      the measurement fails, it returns `{}` and recommends nothing. */
  method LogPerformanceMetrics(hasPerformance: bool, webVitals: Measured) returns (vitals: Vitals, recs: seq<Recommendation>)
    ensures !hasPerformance ==> vitals == NoVitals && recs == []
    ensures hasPerformance && webVitals.Failed? ==> vitals == NoVitals && recs == []
    ensures hasPerformance && webVitals.Resolved? ==> vitals == webVitals.vitals
    ensures forall r :: r in recs <==> Exceeds(vitals, r)
    ensures forall i, j :: 0 <= i < j < |recs| ==> Position(recs[i]) < Position(recs[j])
  {
    var outcome := MeasurePerformance(hasPerformance, webVitals);
    if outcome.Failed? {
      return NoVitals, [];
    }
    vitals := outcome.vitals;
    recs := Recommendations(vitals);
  }

  /** A page with every metric at its threshold gets no recommendation: the
      comparisons are strict. */
  lemma ThresholdsAreStrict()
    ensures forall r :: !Exceeds(Vitals(Some(1800), Some(2500), Some(100), Some(0.1), Some(0)), r)
    ensures forall r :: Exceeds(Vitals(Some(1801), Some(2501), Some(101), Some(0.11), None), r)
    ensures forall r :: !Exceeds(NoVitals, r)
  {
  }

  /** One `layout-shift` performance entry. */
  datatype LayoutShift = LayoutShift(value: real, hadRecentInput: bool)

  /** The shift a list of entries adds to the running sum: only entries
      without recent input count. */
  function ShiftSum(entries: seq<LayoutShift>): real
  {
    if entries == [] then 0.0
    else
      var last := entries[|entries| - 1];
      ShiftSum(entries[..|entries| - 1]) + (if last.hadRecentInput then 0.0 else last.value)
  }

  /** Two batches of entries add up to one batch holding both. */
  lemma {:induction false} ShiftSumAppend(a: seq<LayoutShift>, b: seq<LayoutShift>)
    ensures ShiftSum(a + b) == ShiftSum(a) + ShiftSum(b)
    decreases |b|
  {
    if b == [] {
      assert a + b == a;
    } else {
      assert (a + b)[..|a + b| - 1] == a + b[..|b| - 1];
      ShiftSumAppend(a, b[..|b| - 1]);
    }
  }

  /** Entries with recent input never change the sum. */
  lemma {:induction false} RecentInputIgnored(entries: seq<LayoutShift>)
    requires forall i :: 0 <= i < |entries| ==> entries[i].hadRecentInput
    ensures ShiftSum(entries) == 0.0
  {
    if entries != [] {
      RecentInputIgnored(entries[..|entries| - 1]);
    }
  }

  /** The layout-shift observer: `clsValue` lives across callbacks and is
      never reset; each callback reports the running sum as `vitals.cls`. */
  class ClsObserver {
    var clsValue: real
    var reported: Option<real>

    constructor ()
      ensures clsValue == 0.0 && reported == None
    {
      clsValue := 0.0;
      reported := None;
    }

    method OnEntries(list: seq<LayoutShift>)
      modifies this
      ensures clsValue == old(clsValue) + ShiftSum(list)
      ensures reported == Some(clsValue)
    {
      for i := 0 to |list|
        invariant clsValue == old(clsValue) + ShiftSum(list[..i])
      {
        assert list[..i + 1][..i] == list[..i];
        if !list[i].hadRecentInput {
          clsValue := clsValue + list[i].value;
        }
      }
      assert list[..|list|] == list;
      reported := Some(clsValue);
    }
  }

  /** Two callbacks report the same value as one callback with all their
      entries. */
  method TwoCallbacks(first: seq<LayoutShift>, second: seq<LayoutShift>) returns (cls: real)
    ensures cls == ShiftSum(first + second)
  {
    var observer := new ClsObserver();
    observer.OnEntries(first);
    observer.OnEntries(second);
    cls := observer.clsValue;
    ShiftSumAppend(first, second);
  }

  /** The observer's root: null for the viewport, or an element. */
  datatype Root = Viewport | RootElement(id: nat)

  /** A JavaScript property value that may be `undefined`. */
  datatype JsValue<T> = Undefined | Defined(value: T)

  /** A key of the caller's `options` object: absent, or present with a value
      that may itself be `undefined`. */
  datatype Key<T> = Absent | Present(value: JsValue<T>)

  /** The options handed to the observer. Spreading an object with a key set
      to `undefined` copies the `undefined`, so each field may hold it. */
  datatype ObserverOptions = ObserverOptions(root: JsValue<Root>, rootMargin: JsValue<string>, threshold: JsValue<real>)

  /** The caller's `options` object. */
  datatype GivenOptions = GivenOptions(root: Key<Root>, rootMargin: Key<string>, threshold: Key<real>)

  const NoOptions: GivenOptions := GivenOptions(Absent, Absent, Absent)

  const DefaultOptions: ObserverOptions := ObserverOptions(Defined(Viewport), Defined("50px"), Defined(0.1))

  /** One key of an object spread over the defaults. */
  function Spread<T>(k: Key<T>, d: JsValue<T>): JsValue<T>
  {
    if k.Present? then k.value else d
  }

  /** `{ ...defaultOptions, ...options }`: every key present in the caller's
      object wins, even one set to `undefined`, and an absent key keeps its
      default. */
  function MergeOptions(given: GivenOptions): (r: ObserverOptions)
    ensures given.root.Present? ==> r.root == given.root.value
    ensures given.root.Absent? ==> r.root == Defined(Viewport)
    ensures given.rootMargin.Present? ==> r.rootMargin == given.rootMargin.value
    ensures given.rootMargin.Absent? ==> r.rootMargin == Defined("50px")
    ensures given.threshold.Present? ==> r.threshold == given.threshold.value
    ensures given.threshold.Absent? ==> r.threshold == Defined(0.1)
  {
    ObserverOptions(Spread(given.root, DefaultOptions.root),
                    Spread(given.rootMargin, DefaultOptions.rootMargin),
                    Spread(given.threshold, DefaultOptions.threshold))
  }

  /** Every options object is reachable, and giving nothing yields the
      defaults. */
  lemma MergeOptionsSurjective(o: ObserverOptions)
    ensures MergeOptions(GivenOptions(Present(o.root), Present(o.rootMargin), Present(o.threshold))) == o
    ensures MergeOptions(NoOptions) == DefaultOptions
  {
  }

  /** A caller that writes `{ rootMargin: undefined }` does not get the
      50px default: the observer receives `undefined` for that key, while the
      other keys keep their defaults. */
  lemma ExplicitUndefinedOverridesDefault()
    ensures MergeOptions(GivenOptions(Absent, Present(Undefined), Absent))
            == ObserverOptions(Defined(Viewport), Undefined, Defined(0.1))
    ensures MergeOptions(GivenOptions(Absent, Present(Undefined), Absent)) != DefaultOptions
  {
  }

  /** The observed element and whether it intersects. */
  datatype Entry = Entry(target: nat, isIntersecting: bool)

  /** What `createIntersectionObserver` returns. */
  datatype Observer = Native(callback: nat, options: ObserverOptions) | Fallback(callback: nat)

  /** `createIntersectionObserver(callback, options)`; the callback is named
      by an identifier. */
  function CreateIntersectionObserver(hasIntersectionObserver: bool, callback: nat, given: GivenOptions): (o: Observer)
    ensures o.callback == callback
    ensures o.Native? <==> hasIntersectionObserver
    ensures o.Native? ==> o.options == MergeOptions(given)
  {
    if hasIntersectionObserver then Native(callback, MergeOptions(given)) else Fallback(callback)
  }

  /** The callback invocations `observe(element)` makes before returning. The
      native observer reports later, from the browser; the fallback calls the
      callback at once with one intersecting entry for the element. */
  function ObserveNow(o: Observer, element: nat): (calls: seq<seq<Entry>>)
    ensures o.Fallback? ==> |calls| == 1 && calls[0] == [Entry(element, true)]
    ensures o.Native? ==> calls == []
  {
    match o
    case Native(_, _) => []
    case Fallback(_) => [[Entry(element, true)]]
  }

  /** Without the browser API every observed element is reported visible at
      once, so lazy content behind the helper loads immediately. */
  lemma FallbackReportsVisible(callback: nat, given: GivenOptions, element: nat)
    ensures var calls := ObserveNow(CreateIntersectionObserver(false, callback, given), element);
            |calls| == 1 && forall e :: e in calls[0] ==> e.target == element && e.isIntersecting
  {
  }
}
