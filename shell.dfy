/**
 * The app shell of src/App.jsx: the `isLoading` and `showCursor` state cells,
 * which effects are mounted for a performance tier, and which page regions
 * are wrapped in a lazy section.
 */
module Shell {
  import opened Capability
  import Particles

  /** The page regions of the main tree. */
  datatype Region = Hero | About | Skills | Projects | Contact | Footer

  /** A region rendered directly, or wrapped in a `LazySection`. */
  datatype Slot = Eager(region: Region) | Deferred(region: Region)

  /** What `App` renders. */
  datatype Screen =
    | LoadingView
    | MainView(particleBackground: bool, customCursor: bool, main: seq<Slot>, footer: Slot)

  /** `performanceMode !== 'minimal'`. */
  predicate MountsParticles(mode: Tier)
  {
    mode != Minimal
  }

  /** `showCursor && performanceMode === 'high'`. */
  predicate MountsCursor(showCursor: bool, mode: Tier)
  {
    showCursor && mode == High
  }

  /** The children of `main`, in order, and the footer slot. */
  const MainSlots: seq<Slot> :=
    [Eager(Hero), Deferred(About), Deferred(Skills), Deferred(Projects), Deferred(Contact)]
  const FooterSlot: Slot := Deferred(Footer)

  /** The render of `App`: only the loading screen while loading, the main
      tree afterwards. In the main tree only the hero is rendered eagerly. */
  function Render(isLoading: bool, showCursor: bool, mode: Tier): (s: Screen)
    ensures s == LoadingView <==> isLoading
    ensures !isLoading ==>
      && s.particleBackground == MountsParticles(mode)
      && s.customCursor == MountsCursor(showCursor, mode)
      && |s.main| == 5 && s.main[0] == Eager(Hero)
      && (forall k :: 1 <= k < |s.main| ==> s.main[k].Deferred?)
      && s.main[1].region == About && s.main[2].region == Skills
      && s.main[3].region == Projects && s.main[4].region == Contact
      && s.footer == Deferred(Footer)
  {
    if isLoading then LoadingView
    else MainView(MountsParticles(mode), MountsCursor(showCursor, mode), MainSlots, FooterSlot)
  }

  /** Each region appears once in the page, and it is wrapped in a lazy section
      iff it is not the hero. */
  lemma EveryRegionButHeroIsDeferred(showCursor: bool, mode: Tier, r: Region)
    ensures var s := Render(false, showCursor, mode);
      exists slot :: slot in s.main + [s.footer] && slot.region == r && (slot.Deferred? <==> r != Hero)
  {
    var s := Render(false, showCursor, mode);
    var all := s.main + [s.footer];
    match r
    case Hero => assert all[0].region == r;
    case About => assert all[1].region == r;
    case Skills => assert all[2].region == r;
    case Projects => assert all[3].region == r;
    case Contact => assert all[4].region == r;
    case Footer => assert all[5].region == r;
  }

  /** The particle canvas is mounted iff neither reduced motion is preferred
      nor the browser lacks IntersectionObserver or requestIdleCallback. */
  lemma ParticlesMountedIffCapable(s: Signals, showCursor: bool)
    ensures Render(false, showCursor, Detect(s)).particleBackground <==>
      !s.prefersReducedMotion && !IsOldBrowser(s)
  {
  }

  /** The custom cursor is only mounted on a hover-capable, wide, not low-end
      device that runs a modern browser without reduced motion. */
  lemma CursorOnlyOnCapableDesktop(s: Signals, showCursor: bool)
    requires Render(false, showCursor, Detect(s)).customCursor
    ensures showCursor && !s.prefersReducedMotion && !IsOldBrowser(s)
    ensures !IsMobile(s.innerWidth) && !IsLowEnd(s.hardwareConcurrency)
  {
  }

  /** The environment the particle component reads, taken from the same signals. */
  function ParticleEnvironment(s: Signals, innerHeight: nat): Particles.Environment
    requires s.innerWidth >= 0
  {
    Particles.Environment(s.innerWidth, innerHeight, s.hardwareConcurrency, s.prefersReducedMotion)
  }

  /** When the shell mounts the particle canvas, the component disables itself
      exactly on a low-end narrow device, which the classifier always rates
      low; at medium and high tiers the canvas always runs. */
  lemma MountedParticlesDisableOnlyWhenLow(s: Signals, innerHeight: nat)
    requires s.innerWidth >= 0 && MountsParticles(Detect(s))
    ensures Particles.Disabled(ParticleEnvironment(s, innerHeight)) <==>
      IsLowEnd(s.hardwareConcurrency) && IsMobile(s.innerWidth)
    ensures Particles.Disabled(ParticleEnvironment(s, innerHeight)) ==> Detect(s) == Low
    ensures Detect(s) in {Medium, High} ==> !Particles.Disabled(ParticleEnvironment(s, innerHeight))
  {
  }

  class App {
    var isLoading: bool
    var showCursor: bool

    /** The first render: the loading screen, no cursor. */
    constructor ()
      ensures isLoading && !showCursor
    {
      isLoading, showCursor := true, false;
    }

    /** The mount effect: the cursor flag takes the `(hover: hover)` media-query result. */
    method MountEffect(supportsHover: bool)
      modifies this`showCursor
      ensures showCursor == supportsHover
    {
      showCursor := supportsHover;
    }

    /** `handleLoadingComplete`. */
    method HandleLoadingComplete()
      modifies this`isLoading
      ensures !isLoading
    {
      isLoading := false;
    }

    function View(mode: Tier): (s: Screen)
      reads this
      ensures s.LoadingView? <==> isLoading
    {
      Render(isLoading, showCursor, mode)
    }
  }
}
