/**
 * The performance-tier classifier of src/hooks/usePerformanceMode.js and the
 * single state cell the hook keeps for it.
 */
module Capability {
  import opened Wrappers

  /** The four tiers, from least to most capable. */
  datatype Tier = Minimal | Low | Medium | High

  /** `navigator.connection`; its `effectiveType` may itself be missing. */
  datatype Connection = Connection(effectiveType: Option<string>)

  /** The environment signals read by `detectPerformanceMode`. */
  datatype Signals = Signals(
    innerWidth: int,
    hardwareConcurrency: Option<nat>,
    connection: Option<Connection>,
    prefersReducedMotion: bool,
    hasIntersectionObserver: bool,
    hasRequestIdleCallback: bool)

  /** `window.innerWidth < 768`. */
  predicate IsMobile(width: int)
  {
    width < 768
  }

  /** `navigator.hardwareConcurrency && navigator.hardwareConcurrency < 4`:
      an undefined count and a count of 0 are both falsy. */
  predicate IsLowEnd(cores: Option<nat>)
  {
    cores.Some? && cores.value != 0 && cores.value < 4
  }

  /** `['slow-2g', '2g', '3g'].includes(effectiveType)`. */
  predicate IsSlowType(effectiveType: string)
  {
    effectiveType == "slow-2g" || effectiveType == "2g" || effectiveType == "3g"
  }

  /** `connection && connection.effectiveType && [...].includes(...)`. */
  predicate HasSlowConnection(connection: Option<Connection>)
  {
    && connection.Some?
    && connection.value.effectiveType.Some?
    && connection.value.effectiveType.value != ""
    && IsSlowType(connection.value.effectiveType.value)
  }

  /** `!window.IntersectionObserver || !window.requestIdleCallback`. */
  predicate IsOldBrowser(s: Signals)
  {
    !s.hasIntersectionObserver || !s.hasRequestIdleCallback
  }

  /** The rule chain of `detectPerformanceMode`; the first matching rule wins.
      Its contract states each tier as a condition of its own, so the four
      conditions are mutually exclusive and cover every input. */
  function Detect(s: Signals): (t: Tier)
    ensures t == Minimal <==> s.prefersReducedMotion || IsOldBrowser(s)
    ensures t == Low <==>
      && !s.prefersReducedMotion && !IsOldBrowser(s)
      && IsMobile(s.innerWidth)
      && (IsLowEnd(s.hardwareConcurrency) || HasSlowConnection(s.connection))
    ensures t == Medium <==>
      && !s.prefersReducedMotion && !IsOldBrowser(s)
      && (if IsMobile(s.innerWidth)
          then !IsLowEnd(s.hardwareConcurrency) && !HasSlowConnection(s.connection)
          else IsLowEnd(s.hardwareConcurrency))
    ensures t == High <==>
      && !s.prefersReducedMotion && !IsOldBrowser(s)
      && !IsMobile(s.innerWidth) && !IsLowEnd(s.hardwareConcurrency)
  {
    var isMobile := IsMobile(s.innerWidth);
    var isLowEnd := IsLowEnd(s.hardwareConcurrency);
    var hasSlowConnection := HasSlowConnection(s.connection);
    if s.prefersReducedMotion || IsOldBrowser(s) then Minimal
    else if isMobile && (isLowEnd || hasSlowConnection) then Low
    else if isMobile || isLowEnd then Medium
    else High
  }

  /** Position of a tier in the order minimal < low < medium < high. */
  function Rank(t: Tier): nat
  {
    match t
    case Minimal => 0
    case Low => 1
    case Medium => 2
    case High => 3
  }

  /** An unknown core count and a reported count of 0 classify alike: neither is low-end. */
  lemma UnknownCoresAreNotLowEnd(s: Signals)
    ensures Detect(s.(hardwareConcurrency := None)) == Detect(s.(hardwareConcurrency := Some(0)))
    ensures Detect(s.(hardwareConcurrency := None)) == Detect(s.(hardwareConcurrency := Some(8)))
  {
  }

  /** A missing connection, or one without an effective type, never counts as slow:
      it classifies like a fast ("4g") connection. */
  lemma MissingConnectionIsNotSlow(s: Signals)
    ensures Detect(s.(connection := None)) == Detect(s.(connection := Some(Connection(Some("4g")))))
    ensures Detect(s.(connection := Some(Connection(None)))) == Detect(s.(connection := None))
  {
  }

  /** On a viewport at least 768 wide the network plays no part: the tier is
      medium or high, decided by the core count alone. */
  lemma SlowConnectionNeverLowersWideViewport(s: Signals, c: Option<Connection>)
    requires !IsMobile(s.innerWidth) && !s.prefersReducedMotion && !IsOldBrowser(s)
    ensures Detect(s.(connection := c)) == Detect(s)
    ensures Detect(s) == (if IsLowEnd(s.hardwareConcurrency) then Medium else High)
  {
  }

  /** Widening the viewport never lowers the tier. */
  lemma WiderNeverLowers(s: Signals, width: int)
    requires s.innerWidth <= width
    ensures Rank(Detect(s)) <= Rank(Detect(s.(innerWidth := width)))
  {
  }

  /** Width 375, 8 cores, "4g", no reduced motion: medium (narrow, but neither low-end nor slow). */
  lemma NarrowFastPhoneIsMedium()
    ensures Detect(Signals(375, Some(8), Some(Connection(Some("4g"))), false, true, true)) == Medium
  {
  }

  /** Width 1440 with 2 cores: medium, through the low core count. */
  lemma WideDualCoreIsMedium(c: Option<Connection>)
    ensures Detect(Signals(1440, Some(2), c, false, true, true)) == Medium
  {
  }

  /**
   * The `performanceMode` state cell of the hook. It starts as high, is
   * overwritten by the first detection on mount, and is overwritten again by
   * each `change` event of `navigator.connection` while the listener is
   * registered; no earlier value is kept.
   */
  class PerformanceModeHook {
    var mode: Tier
    /** Whether the `change` listener is registered on `navigator.connection`. */
    var listening: bool

    constructor ()
      ensures mode == High && !listening
    {
      mode := High;
      listening := false;
    }

    /** The mount effect: detect once, and subscribe when a connection object exists. */
    method Mount(s: Signals)
      requires !listening
      modifies this
      ensures mode == Detect(s)
      ensures listening == s.connection.Some?
    {
      mode := Detect(s);
      if s.connection.Some? {
        listening := true;
      }
    }

    /** A connection `change` event, carrying the signals read at that moment. */
    method OnConnectionChange(s: Signals)
      requires listening
      modifies this`mode
      ensures mode == Detect(s)
    {
      mode := Detect(s);
    }

    /** The effect cleanup: the listener is removed, the stored tier stays. */
    method Unmount()
      modifies this`listening
      ensures !listening
    {
      listening := false;
    }
  }
}
