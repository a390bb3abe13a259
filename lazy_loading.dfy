/**
 * The one-way "loaded" latch of src/components/LazySection.jsx. The
 * IntersectionObserver itself is the environment: its callbacks arrive as
 * `OnIntersect` events, and (re)running the effect registers a fresh observer
 * whose callback sees the `hasLoaded` value of the render that created it.
 */
module LazyLoading {
  import opened Wrappers

  /** What the wrapper `div` shows. */
  datatype View = Children | Fallback

  /** The default `rootMargin` of the component. */
  const DefaultRootMargin: string := "100px"

  /** The fixed intersection threshold. */
  const Threshold: real := 0.1

  /** The `rootMargin` prop after its default is applied. */
  function RootMargin(prop: Option<string>): (margin: string)
    ensures prop.None? ==> margin == "100px"
    ensures prop.Some? ==> margin == prop.value
  {
    match prop
    case None => DefaultRootMargin
    case Some(m) => m
  }

  class LazySection {
    const rootMargin: string
    const threshold: real
    /** The `isVisible` state. */
    var isVisible: bool
    /** The `hasLoaded` state. */
    var hasLoaded: bool
    /** Whether the current observer watches the element. */
    var observing: bool
    /** The `hasLoaded` value captured by the current observer's callback. */
    var seenLoaded: bool

    /** Both flags are only ever set together, and a callback never sees a
        loaded state that has not happened. */
    ghost predicate Valid()
      reads this
    {
      isVisible == hasLoaded && (seenLoaded ==> hasLoaded)
    }

    /** The first render: nothing loaded, nothing observed yet, the fallback shown. */
    constructor (rootMarginProp: Option<string>)
      ensures Valid()
      ensures rootMarginProp.None? ==> rootMargin == "100px"
      ensures rootMarginProp.Some? ==> rootMargin == rootMarginProp.value
      ensures threshold == 0.1
      ensures !isVisible && !hasLoaded && !observing
      ensures Render() == Fallback
    {
      rootMargin := RootMargin(rootMarginProp);
      threshold := Threshold;
      isVisible, hasLoaded := false, false;
      observing, seenLoaded := false, false;
    }

    /** The rendered view: the children exactly once loaded. */
    function Render(): (v: View)
      requires Valid()
      reads this
      ensures v == Children <==> hasLoaded
    {
      if isVisible then Children else Fallback
    }

    /** The effect, on mount and again whenever `hasLoaded` changes: a new
        observer starts watching the element, its callback bound to the
        current `hasLoaded`. A re-run always follows the cleanup of the
        previous run. */
    method RunEffect()
      requires Valid() && !observing
      modifies this`observing, this`seenLoaded
      ensures Valid()
      ensures observing && seenLoaded == hasLoaded
    {
      observing := true;
      seenLoaded := hasLoaded;
    }

    /** The observer callback for one entry. An intersecting entry seen by a
        callback created before loading sets both flags and stops the
        observation; any other entry changes nothing. Returns whether the
        latch fired. */
    method OnIntersect(isIntersecting: bool) returns (fired: bool)
      requires Valid() && observing
      modifies this`isVisible, this`hasLoaded, this`observing
      ensures Valid()
      ensures fired <==> isIntersecting && !seenLoaded
      ensures fired ==> isVisible && hasLoaded && !observing
      ensures !fired ==> isVisible == old(isVisible) && hasLoaded == old(hasLoaded) && observing
      ensures old(hasLoaded) ==> hasLoaded && isVisible
    {
      fired := isIntersecting && !seenLoaded;
      if fired {
        isVisible := true;
        hasLoaded := true;
        observing := false;
      }
    }

    /** The effect cleanup, before a re-run and on unmount: the element is unobserved. */
    method Cleanup()
      requires Valid()
      modifies this`observing
      ensures Valid() && !observing
    {
      observing := false;
    }
  }

  /** A section's life: a miss, the first intersecting entry, the effect
      re-run that the `hasLoaded` change triggers, and a later entry. */
  method SectionLifecycle() returns (miss: bool, hit: bool, later: bool, before: View, after: View, reobserved: bool)
    ensures !miss && before == Fallback
    ensures hit && !later && after == Children
    ensures reobserved
  {
    var section := new LazySection(None);
    section.RunEffect();
    miss := section.OnIntersect(false);
    before := section.Render();
    hit := section.OnIntersect(true);
    section.Cleanup();
    section.RunEffect();
    reobserved := section.observing;
    later := section.OnIntersect(true);
    after := section.Render();
  }
}
