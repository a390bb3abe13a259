# Portfolio site core, modelled in Dafny

This project models the behaviour behind a single-page React portfolio: the
device-capability classifier (`usePerformanceMode`), the ambient particle
canvas, the lazy-section latch, the app shell that chooses what to mount,
the project category filter, the contact-form submit state machine, the
dark-mode toggle, the loading-screen timer, the error boundary and the
web-vitals helpers. Each source file becomes one module:

| module | file |
|---|---|
| `Wrappers` | (Option type shared by the others) |
| `Capability` | src/hooks/usePerformanceMode.js |
| `Particles` | src/components/ParticleBackground.jsx |
| `LazyLoading` | src/components/LazySection.jsx |
| `Shell` | src/App.jsx |
| `ProjectsFilter` | src/components/Projects.jsx |
| `Contact` | src/components/Contact.jsx |
| `Theme` | src/components/DarkModeToggle.jsx |
| `Loading` | src/components/LoadingScreen.jsx |
| `Boundary` | src/components/ErrorBoundary.jsx |
| `WebVitals` | src/utils/performance.js |

Pure decisions (the tier chain, the particle count, the category mapping,
the recommendation thresholds) are functions with contracts and lemmas.
Components whose state changes in place (the hook, a particle, the canvas
component, the lazy section, the form, the toggle, the loading screen, the
boundary, the layout-shift observer) are classes. Their methods are proved
against those functions.

Browser inputs are parameters:
- `window.innerWidth`, `navigator.hardwareConcurrency` and `navigator.connection`;
- media-query results;
- `Math.random()` draws and animation-frame timestamps;
- the outcome of the email send.

Timers and observer callbacks are explicit events: `Tick`,
`ResetTimerFires`, `CompletionFires` and `OnIntersect`.

JavaScript truthiness is spelled out:
- `hardwareConcurrency` is `Option<nat>`. `hc && hc < 4` is low-end only for
  `Some(c)` with `0 < c < 4`.
- The bare `hc < 4` in `drawConnections` also holds for 0 and fails for an
  undefined count.
- A stored theme of `null` or `''` counts as nothing stored.

Two effects re-run in ways that shape the model:
- The lazy section's effect depends on `hasLoaded`. Once the section has
  loaded, the effect's cleanup runs and the effect runs again: the element is
  observed once more, by a callback that can no longer fire. Observation
  therefore does not stop after loading.
- `LoadingScreen`'s effect depends on `onComplete`, which `App` recreates on
  every render. The timer can therefore restart from zero, while the
  displayed `progress` keeps its last value until the next tick. Monotonicity
  is proved within one run of the effect.

## Model

| member | source | states |
|---|---|---|
| Capability.Detect | src/hooks/usePerformanceMode.js:7-26 | each tier holds exactly under its own condition: minimal on reduced motion or an old browser; low on a narrow viewport with a low-end CPU or a slow connection; medium on a narrow viewport otherwise, or on a wide one with a low-end CPU; high otherwise |
| Capability.UnknownCoresAreNotLowEnd | src/hooks/usePerformanceMode.js:9 | an undefined core count and a count of 0 classify like 8 cores |
| Capability.MissingConnectionIsNotSlow | src/hooks/usePerformanceMode.js:10-11 | a missing connection, or one without an effective type, classifies like a 4g connection |
| Capability.SlowConnectionNeverLowersWideViewport | src/hooks/usePerformanceMode.js:19-25 | at width 768 or more the connection is irrelevant, and the tier is medium iff the CPU is low-end, else high |
| Capability.WiderNeverLowers | src/hooks/usePerformanceMode.js:17-25 | widening the viewport never lowers the tier |
| Capability.NarrowFastPhoneIsMedium | src/hooks/usePerformanceMode.js:21-22 | width 375, 8 cores, 4g gives medium |
| Capability.WideDualCoreIsMedium | src/hooks/usePerformanceMode.js:21-22 | width 1440 with 2 cores gives medium whatever the connection |
| Capability.PerformanceModeHook.constructor | src/hooks/usePerformanceMode.js:4 | the state starts as high, with no listener |
| Capability.PerformanceModeHook.Mount | src/hooks/usePerformanceMode.js:28-36 | the mode becomes the detected tier; a listener is registered iff a connection object exists |
| Capability.PerformanceModeHook.OnConnectionChange | src/hooks/usePerformanceMode.js:32-34 | a change event overwrites the mode with a fresh detection |
| Capability.PerformanceModeHook.Unmount | src/hooks/usePerformanceMode.js:38-40 | the listener is removed |
| Particles.Spawn | src/components/ParticleBackground.jsx:42-46 | a new particle lies on the canvas, with each velocity component in [-0.25, 0.25) |
| Particles.Wrap | src/components/ParticleBackground.jsx:55-59 | a coordinate below 0 moves to the far edge, one beyond the edge to 0, one on the canvas stays; the result is always on the canvas |
| Particles.Move | src/components/ParticleBackground.jsx:51-60 | an update keeps the velocity and keeps the particle on the canvas, and moves it by exactly its velocity when it stays inside |
| Particles.ParticleCount | src/components/ParticleBackground.jsx:71-83 | 8 particles iff narrow, 15 iff 768 to 1023 wide, 12 iff 1024 or wider and low-end, 30 iff 1024 or wider and not low-end |
| Particles.LowEndTabletGetsFifteen | src/components/ParticleBackground.jsx:80-82 | the tablet rule comes before the low-end rule |
| Particles.FrameInterval | src/components/ParticleBackground.jsx:120-121 | the throttle gives 30 frames per second on narrow viewports and 60 otherwise |
| Particles.MaxConnections | src/components/ParticleBackground.jsx:97 | the scan covers min(n, 15) particles |
| Particles.PairsBeforeClosedForm | src/components/ParticleBackground.jsx:99-100 | the rows before row i of the nested loop examine i(2m-i-1)/2 pairs |
| Particles.PairsTotal | src/components/ParticleBackground.jsx:99-100 | the full nested loop examines m(m-1)/2 pairs |
| Particles.ScanExact | src/components/ParticleBackground.jsx:99-114 | at every point of the nested loop, the lines drawn so far are exactly the examined pairs closer than 120, each with its squared distance |
| Particles.LinksExact | src/components/ParticleBackground.jsx:99-116 | the full scan draws exactly the pairs a < b < m closer than 120, each with its squared distance |
| Particles.ScanInScanOrder | src/components/ParticleBackground.jsx:99-116 | the lines come in strict scan order (by first particle, then partner), all before the loop's current position, so no pair is drawn twice |
| Particles.SquaredDistanceTest | src/components/ParticleBackground.jsx:103-105 | distance < 120 iff squared distance < 14400 |
| Particles.LineOpacity | src/components/ParticleBackground.jsx:106 | a drawn line's opacity lies in (0, 0.15] |
| Particles.LineOpacityFalls | src/components/ParticleBackground.jsx:106 | opacity falls linearly with distance, by 0.15/120 per pixel |
| Particles.Particle.constructor | src/components/ParticleBackground.jsx:42-49 | the state is the spawned motion, the radius in [1, 3) and the opacity in [0.2, 0.7) |
| Particles.Particle.Update | src/components/ParticleBackground.jsx:51-60 | the particle's new state is `Move` of its old state |
| Particles.ParticleBackground.constructor | src/components/ParticleBackground.jsx:5-9 | visible, no reduced motion, no particles, nothing registered |
| Particles.ParticleBackground.Render | src/components/ParticleBackground.jsx:151-170 | a canvas is rendered iff the component is visible, and a rendered canvas always has opacity 0.6, because reduced motion hides it |
| Particles.ParticleBackground.Mount | src/components/ParticleBackground.jsx:11-140 | on reduced motion or a narrow low-end device the component hides and does nothing else; otherwise the canvas takes the viewport size, the resize listener is registered, the computed number of fresh particles is spawned and a frame is requested |
| Particles.ParticleBackground.InitParticles | src/components/ParticleBackground.jsx:71-87 | the list is replaced by exactly the computed number of distinct fresh particles, spawned from the given draws in order |
| Particles.ParticleBackground.StepParticles | src/components/ParticleBackground.jsx:127-130 | every particle advances by `Move`, keeping its radius and opacity |
| Particles.ParticleBackground.DrawConnections | src/components/ParticleBackground.jsx:90-116 | on narrow or under-4-core devices nothing is drawn or examined; otherwise the lines are exactly the full `Scan` over the first min(n, 15) particles, in strict scan order, and m(m-1)/2 pairs are examined |
| Particles.ParticleBackground.ScanRow | src/components/ParticleBackground.jsx:100-114 | the inner loop extends the lines of the earlier rows to the full scan up to the end of row i, and examines m-i-1 pairs |
| Particles.ParticleBackground.Animate | src/components/ParticleBackground.jsx:123-137 | a frame redraws iff a timestamp is given and at least one interval has passed; then every particle moves (keeping its radius and opacity), the connection lines are drawn and the time is recorded; otherwise nothing changes; the next frame is always requested; a timestamped frame runs only while one is requested, so never after the cleanup |
| Particles.ParticleBackground.Resize | src/components/ParticleBackground.jsx:32-35 | the canvas takes the viewport size |
| Particles.ParticleBackground.Unmount | src/components/ParticleBackground.jsx:143-148 | the listener is removed and no frame stays requested |
| LazyLoading.LazySection.constructor | src/components/LazySection.jsx:3-20 | the observer margin is 100px when none is given and the given one otherwise, the threshold is 0.1; nothing is loaded or observed, and the fallback is shown |
| LazyLoading.LazySection.Render | src/components/LazySection.jsx:34-38 | the children are shown iff the section has loaded |
| LazyLoading.LazySection.RunEffect | src/components/LazySection.jsx:8-32 | run after the previous run's cleanup, the effect observes the element by a callback that sees the current `hasLoaded` |
| LazyLoading.LazySection.OnIntersect | src/components/LazySection.jsx:10-15 | the latch fires iff the entry intersects and the callback saw no load yet; firing sets both flags and unobserves; otherwise nothing changes; a loaded section stays loaded |
| LazyLoading.LazySection.Cleanup | src/components/LazySection.jsx:27-31 | the element is no longer observed |
| LazyLoading.SectionLifecycle | src/components/LazySection.jsx:8-38 | a section shows its fallback until an intersecting entry arrives, then shows its children for good; an entry that does not intersect changes nothing, and after loading the re-run effect observes the element again |
| Shell.Render | src/App.jsx:54-98 | the loading screen is shown iff loading; otherwise the particles mount iff the tier is not minimal, the cursor iff hover is supported and the tier is high, and the regions come in the order hero, about, skills, projects, contact, then the footer, every one after the hero lazily wrapped |
| Shell.EveryRegionButHeroIsDeferred | src/App.jsx:70-98 | every region is on the page, and it is wrapped in a lazy section iff it is not the hero |
| Shell.ParticlesMountedIffCapable | src/App.jsx:66 | the canvas mounts iff there is no reduced-motion preference and the browser has both required APIs |
| Shell.CursorOnlyOnCapableDesktop | src/App.jsx:67 | a mounted cursor implies hover support, a wide viewport, a CPU that is not low-end and a modern browser |
| Shell.MountedParticlesDisableOnlyWhenLow | src/App.jsx:66 | once mounted, the canvas disables itself exactly on narrow low-end devices, which are always rated low; at medium and high it runs |
| Shell.App.constructor | src/App.jsx:27-28 | loading, no cursor |
| Shell.App.MountEffect | src/App.jsx:33-34 | the cursor flag is the hover media query |
| Shell.App.HandleLoadingComplete | src/App.jsx:50-52 | loading ends |
| Shell.App.View | src/App.jsx:54-56 | the loading screen is shown iff loading |
| ProjectsFilter.CategoryMapping | src/components/Projects.jsx:91-101 | a translated label maps to its English category, with a later key winning when two labels coincide; a name that is no label but is inherited from `Object.prototype` (such as `toString`) yields that inherited member; any other string is returned unchanged |
| ProjectsFilter.InheritedNameShowsNothing | src/components/Projects.jsx:100-108 | a category name that is no label but names a prototype member matches no project |
| ProjectsFilter.Filter | src/components/Projects.jsx:108 | the filtered list is never longer than the project list, and every project in it has the selected category |
| ProjectsFilter.FilterExact | src/components/Projects.jsx:108 | the filter keeps exactly the projects of the category |
| ProjectsFilter.FilterKeepsOrder | src/components/Projects.jsx:108 | the filtered list is a subsequence of the project list, in its order |
| ProjectsFilter.FilterAppend | src/components/Projects.jsx:108 | filtering a concatenation filters each part |
| ProjectsFilter.Filtered | src/components/Projects.jsx:104-110 | the "all" label yields the whole list; any other label yields exactly the projects whose category equals what the mapping yields, so none for an inherited member |
| ProjectsFilter.SiteCategories | src/components/Projects.jsx:10-72 | with the site's data, Web Development holds projects 1, 4 and 6, and Data Analysis and Backend hold none |
| ProjectsFilter.SiteFilters | src/components/Projects.jsx:104-110 | in English and in Spanish the web label shows projects 1, 4 and 6, the Spanish data label shows none and the Spanish "all" label shows every project |
| ProjectsFilter.CategoryIcon | src/components/Projects.jsx:114-125 | the database icon iff Data Analysis, the mobile icon iff Mobile Development, the code icon for web and every other category |
| ProjectsFilter.ProjectsSection.constructor | src/components/Projects.jsx:83-84 | the active category is empty and the filtered list is empty |
| ProjectsFilter.ProjectsSection.OnTranslation | src/components/Projects.jsx:87-89 | a new translation function resets the active category to its "all" label |
| ProjectsFilter.ProjectsSection.SelectCategory | src/components/Projects.jsx:154 | a button click sets the active category |
| ProjectsFilter.ProjectsSection.RunFilter | src/components/Projects.jsx:103-112 | while the active category is empty the list is untouched; otherwise it becomes `Filtered` |
| ProjectsFilter.ProjectsSection.ShowsNoProjects | src/components/Projects.jsx:236 | the no-projects message is shown iff no project is listed |
| Contact.WithField | src/components/Contact.jsx:19-25 | an input change sets the named field and leaves the other two unchanged |
| Contact.Params | src/components/Contact.jsx:33-39 | the recipient is Alejandro Seclen and reply-to is the sender's email |
| Contact.ParamsRoundTrip | src/components/Contact.jsx:33-39 | the form is recovered from the parameters, and different forms send different parameters |
| Contact.FillingAllFields | src/components/Contact.jsx:19-25 | filling the three fields, in either order, yields exactly the typed values |
| Contact.SplitAtDots | src/components/Contact.jsx:158 | the domain of an address splits into at least one piece, and no piece contains a dot |
| Contact.ValidEmailHasOneAt | src/components/Contact.jsx:158 | an address the `type="email"` input accepts has exactly one `@`, with a non-empty part on each side |
| Contact.RefusedForms | src/components/Contact.jsx:136-176 | the empty form is not submitted, and neither is an address ending in `@` |
| Contact.AcceptedForm | src/components/Contact.jsx:136-176 | a filled form with the address `ana@x.io` is submitted |
| Contact.ContactForm.constructor | src/components/Contact.jsx:11-17 | empty fields, not submitting, no status |
| Contact.ContactForm.SubmitDisabled | src/components/Contact.jsx:185 | the button is disabled iff a send is in progress; a submission can only begin while it is enabled, and it stays disabled until the send finishes |
| Contact.ContactForm.InputChange | src/components/Contact.jsx:19-25 | the form becomes `WithField` of the old form |
| Contact.ContactForm.BeginSubmit | src/components/Contact.jsx:27-39 | callable only while the button is enabled and the form passes the browser's validation (every field filled in, a valid e-mail address); the form is submitting, which disables the button, the status is cleared, and the parameters carry the current form |
| Contact.ContactForm.FinishSubmit | src/components/Contact.jsx:41-61 | success sets the success status and empties the form; failure sets the error status and keeps the form; both end submitting, which re-enables the button, and schedule one reset |
| Contact.ContactForm.ResetTimerFires | src/components/Contact.jsx:52-58 | a scheduled reset clears the status |
| Contact.SubmitOnce | src/components/Contact.jsx:19-63 | one submission of a form that passes validation sends the typed form; the status is success or error by outcome, and the form ends empty on success and intact on failure |
| Theme.StoredValueOverridesPreference | src/components/DarkModeToggle.jsx:11-14 | a stored value decides alone (dark iff it is "dark"); with nothing stored the system preference decides |
| Theme.Startup | src/components/DarkModeToggle.jsx:9-18 | startup never writes storage; it switches to dark and sets the attribute when the stored choice or the preference says so, and changes nothing otherwise |
| Theme.Toggled | src/components/DarkModeToggle.jsx:20-31 | a toggle flips the state, stores "dark" or "light" to match, and leaves the attribute consistent with the state |
| Theme.ToggleTwice | src/components/DarkModeToggle.jsx:20-31 | two toggles restore the state, and the attribute when it was consistent; storage reflects the last toggle |
| Theme.ToggleIsRemembered | src/components/DarkModeToggle.jsx:11-29 | after a toggle, the next page load starts in the toggled theme whatever the system preference |
| Theme.DarkModeToggle.constructor | src/components/DarkModeToggle.jsx:7 | the state starts light, with the page's storage and attribute |
| Theme.DarkModeToggle.RunStartupEffect | src/components/DarkModeToggle.jsx:9-18 | the new state is `Startup` of the old one |
| Theme.DarkModeToggle.Toggle | src/components/DarkModeToggle.jsx:20-31 | the new state is `Toggled` of the old one |
| Loading.Progress | src/components/LoadingScreen.jsx:19-28 | after k ticks the running progress is 100k/30 |
| Loading.IndexAtClosedForm | src/components/LoadingScreen.jsx:31 | the computed text index after k ticks is the integer quotient 4k/30 |
| Loading.IndexAtMonotone | src/components/LoadingScreen.jsx:31 | the computed index is never negative and never decreases |
| Loading.CompletesAtThirtiethTick | src/components/LoadingScreen.jsx:39 | the running progress reaches 100 exactly from the thirtieth tick on |
| Loading.Displayed | src/components/LoadingScreen.jsx:37 | the displayed progress lies in [0, 100] |
| Loading.DisplayedMonotone | src/components/LoadingScreen.jsx:37 | the displayed progress never decreases within a run |
| Loading.ShownIndex | src/components/LoadingScreen.jsx:31-35 | the shown text index is always one of the four texts |
| Loading.ShownIndexMonotone | src/components/LoadingScreen.jsx:31-48 | the shown text never moves back; a run starts on the first text and ends on the last |
| Loading.LoadingScreen.constructor | src/components/LoadingScreen.jsx:8-9 | progress 0, empty text, no interval |
| Loading.LoadingScreen.RunEffect | src/components/LoadingScreen.jsx:24-48 | the interval restarts from zero on the first text, and the progress state keeps its value |
| Loading.LoadingScreen.Tick | src/components/LoadingScreen.jsx:27-45 | one tick: the progress state becomes `Displayed` of the tick count and the text index `ShownIndex`, never moving back; the interval stops, and exactly one completion is scheduled, on the thirtieth tick |
| Loading.LoadingScreen.Cleanup | src/components/LoadingScreen.jsx:50 | the interval is cleared |
| Loading.LoadingScreen.CompletionFires | src/components/LoadingScreen.jsx:41-43 | a scheduled completion runs once |
| Loading.FullRun | src/components/LoadingScreen.jsx:18-51 | an uninterrupted run ends at progress 100 on the last text, with exactly one completion scheduled |
| Boundary.Apply | src/components/ErrorBoundary.jsx:13-21 | the derived update sets `hasError` whatever the error and nothing else; the catch records error and component stack and leaves `hasError` alone |
| Boundary.HasErrorLatches | src/components/ErrorBoundary.jsx:13-21 | after any sequence of hooks `hasError` holds iff it held before or some derived update happened |
| Boundary.Render | src/components/ErrorBoundary.jsx:29-109 | the recovery view is shown iff `hasError`; its only exits are the refresh button, which reloads the page, and the home button, which navigates to "/"; its details appear iff in development with a truthy error recorded, and show that error and its component stack |
| Boundary.ErrorBoundary.constructor | src/components/ErrorBoundary.jsx:8-11 | no error and nothing recorded |
| Boundary.ErrorBoundary.GetDerivedStateFromError | src/components/ErrorBoundary.jsx:13-15 | the new state is `Apply` of a derived update |
| Boundary.ErrorBoundary.ComponentDidCatch | src/components/ErrorBoundary.jsx:17-21 | the new state is `Apply` of a catch |
| Boundary.RecoveryIsPermanent | src/components/ErrorBoundary.jsx:10-109 | the children render first; after a throw the recovery view stays, whatever happens next |
| Boundary.DetailsFollowTruthiness | src/components/ErrorBoundary.jsx:13-100 | in development a truthy thrown value gets the details panel with that value and its stack, while a falsy one (`throw ''`, `throw 0`) gets the recovery view without details |
| WebVitals.Recommendations | src/utils/performance.js:101-117 | a recommendation is listed iff its metric was measured and is strictly above its threshold (1800, 2500, 100, 0.1), each at most once, in push order; `{}` gets none |
| WebVitals.LogPerformanceMetrics | src/utils/performance.js:81-130 | without the Performance API `measurePerformance` resolves to `{}`, so nothing is recommended; a failed measurement also returns `{}` and recommends nothing; otherwise the measured vitals are returned with exactly their recommendations, in push order |
| WebVitals.ThresholdsAreStrict | src/utils/performance.js:103-117 | metrics exactly at their thresholds and missing metrics recommend nothing; metrics just above recommend everything |
| WebVitals.ShiftSumAppend | src/utils/performance.js:40-47 | two batches of layout shifts add up to one batch with both |
| WebVitals.RecentInputIgnored | src/utils/performance.js:43 | entries with recent input add nothing |
| WebVitals.ClsObserver.constructor | src/utils/performance.js:40 | the sum starts at 0 and nothing is reported |
| WebVitals.ClsObserver.OnEntries | src/utils/performance.js:41-48 | a callback adds the shift of its entries to the running sum and reports the sum |
| WebVitals.TwoCallbacks | src/utils/performance.js:40-48 | two callbacks report what one callback with all their entries would; the sum is never reset |
| WebVitals.MergeOptions | src/utils/performance.js:149-155 | each option is the caller's value whenever the key is present, even when that value is `undefined`, and its default (viewport root, 50px, 0.1) when the key is absent |
| WebVitals.MergeOptionsSurjective | src/utils/performance.js:149-155 | giving every key yields exactly those options, and giving none yields the defaults |
| WebVitals.ExplicitUndefinedOverridesDefault | src/utils/performance.js:149-155 | `{ rootMargin: undefined }` passes `undefined` to the observer instead of 50px, while the other keys keep their defaults |
| WebVitals.CreateIntersectionObserver | src/utils/performance.js:148-169 | a native observer with the merged options iff the API exists, otherwise the fallback, with the caller's callback either way |
| WebVitals.ObserveNow | src/utils/performance.js:157-165 | the fallback calls the callback at once with one intersecting entry for the element; the native observer reports later |
| WebVitals.FallbackReportsVisible | src/utils/performance.js:161-165 | without the API every observed element is reported intersecting immediately |

## Left out

- Canvas drawing: `arc`, `fill`, `stroke`, the rgba strings and `clearRect` are left out. The lines a frame would draw are returned as a list instead.
- `Math.sqrt` is not modelled. Connections are decided on the squared distance, which `Particles.SquaredDistanceTest` shows to be equivalent.
- `Math.random()` and animation-frame timestamps are parameters. Requesting and cancelling frames are booleans. The `!canvas` early return is not modelled, since the canvas ref is always attached when the effect runs.
- Floating point: all arithmetic is exact (reals). The `Math.round` of the layout-shift value is omitted.
- Loading.CompletesAtThirtiethTick: holds for exact arithmetic only. In IEEE doubles, thirty additions of 100/30 sum to 99.99999999999997, so the program reaches 100 (capped by `Math.min`) only on the thirty-first tick.
- Loading.LoadingScreen.Tick: states completion on the thirtieth tick, as exact arithmetic gives. The program, in doubles, shows 99.99999999999997 after the thirtieth tick and schedules completion on the thirty-first.
- Loading.LoadingScreen.Valid: bounds the tick count by 30, which holds for exact arithmetic; in doubles the interval runs for 31 ticks.
- `Math.round` in the other vitals is left out, because their values are parameters.
- Timers: `setTimeout` and `setInterval` delays (50 ms, 500 ms, 5 s, 1 s) are explicit events with no clock.
- `Contact.ContactForm.ResetTimerFires` clears whatever status is current, so a reset scheduled by an earlier submission can clear a later status early. The model allows this, as the code does.
- The `PerformanceObserver` wiring in `measurePerformance` (observer registration, entry lookup, the `load` listener) is not modelled. The settled promise of the collected vitals is a parameter, and only the absent-API branch and the recommendation logic are modelled.
- WebVitals.Measured has no case for a promise that never settles. `getWebVitals` resolves only from a `load` listener, and `logPerformanceMetrics` runs a second after the page has loaded, so in that case the promise stays pending and nothing is logged or returned.
- The fallback observer's `unobserve` and `disconnect` are no-ops. They are not modelled, since there is nothing to state.
- `LazySection` builds the browser `IntersectionObserver` directly; its entries arrive as `OnIntersect` events. Only the first entry of a callback is read, which is the single element observed.
- Contact.ContactForm.BeginSubmit: the browser's sanitising of the e-mail value (stripping line breaks and surrounding white space) is not modelled. The constraint check itself is: the three `required` fields and the syntax of a valid e-mail address in the HTML standard, with domain labels of at most 63 characters.
- `handleInputChange` accepts any `name` attribute. The model only covers the form's three inputs.
- The email service call (`emailjs.send`) and its configuration are not modelled. Its outcome is the `sent` argument of `FinishSubmit`.
- Translation (`t`, src/i18n.js) is not modelled. A language is represented by its seven category labels, with the English and Spanish ones written out.
- Console output, `preloadCriticalResources`, analytics, SEO tags, `monitorMemoryUsage`, `analyzeBundleSize` and the scroll-progress percentage are not part of this model.
- The purely presentational components (Hero, About, Skills, Footer, Navigation, CustomCursor, LanguageToggle, NotFound) and animation props are not part of this model.
- `Theme.DarkModeToggle.constructor` takes the page's initial attribute as a parameter. Nothing else in the component sets it.
