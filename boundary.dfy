/**
 * The error boundary of src/components/ErrorBoundary.jsx: a latch that
 * switches the subtree to a recovery view once a descendant throws.
 */
module Boundary {
  import opened Wrappers

  /** A thrown JavaScript value, reduced to what the boundary looks at: whether
      it is truthy (the details panel is guarded by `this.state.error &&`) and,
      if so, its `toString()` text. `throw ''`, `throw 0` or `throw null` are
      falsy. */
  datatype Thrown = Falsy | Truthy(text: string)

  /** What `componentDidCatch` records: the thrown value and
      `errorInfo.componentStack`. The two are always set together. */
  datatype Caught = Caught(error: Thrown, componentStack: string)

  /** The component state: `hasError`, and `error`/`errorInfo` as one optional
      record (both null initially). */
  datatype BoundaryState = BoundaryState(hasError: bool, caught: Option<Caught>)

  const Initial: BoundaryState := BoundaryState(false, None)

  /** The two lifecycle hooks React calls after a descendant throws:
      `getDerivedStateFromError`, then `componentDidCatch`. */
  datatype Event = Derived(thrown: Thrown) | DidCatch(thrown: Thrown, componentStack: string)

  /** The state after one hook. The derived update sets only `hasError`,
      whatever the error; the catch records the error and touches nothing else. */
  function Apply(s: BoundaryState, ev: Event): (r: BoundaryState)
    ensures ev.Derived? ==> r.hasError && r.caught == s.caught
    ensures ev.DidCatch? ==> r.hasError == s.hasError && r.caught == Some(Caught(ev.thrown, ev.componentStack))
  {
    match ev
    case Derived(_) => s.(hasError := true)
    case DidCatch(e, info) => s.(caught := Some(Caught(e, info)))
  }

  function Run(s: BoundaryState, evs: seq<Event>): BoundaryState
    decreases |evs|
  {
    if evs == [] then s else Run(Apply(s, evs[0]), evs[1..])
  }

  /** Nothing resets `hasError`: after any sequence of hooks it is set exactly
      when it was set before or a derived update happened. */
  lemma {:induction false} HasErrorLatches(s: BoundaryState, evs: seq<Event>)
    ensures Run(s, evs).hasError <==> s.hasError || exists i :: 0 <= i < |evs| && evs[i].Derived?
    decreases |evs|
  {
    if evs != [] {
      HasErrorLatches(Apply(s, evs[0]), evs[1..]);
      if exists i :: 0 <= i < |evs| && evs[i].Derived? {
        var i :| 0 <= i < |evs| && evs[i].Derived?;
        if i > 0 {
          assert evs[1..][i - 1].Derived?;
        }
      }
      if exists j :: 0 <= j < |evs[1..]| && evs[1..][j].Derived? {
        var j :| 0 <= j < |evs[1..]| && evs[1..][j].Derived?;
        assert evs[j + 1].Derived?;
      }
    }
  }

  /** The two buttons of the recovery view: reload the page, or go to "/". */
  datatype Navigation = Reload | GoTo(path: string)

  /** What the boundary renders. The recovery view offers its buttons; its
      details panel holds the error and the component stack. */
  datatype View = Children | Recovery(actions: set<Navigation>, details: Option<Caught>)

  /** The recovery view replaces the children exactly when `hasError` is set;
      its only exits are a reload and a navigation to "/"; the details appear
      only in development builds, once a truthy error has been recorded. */
  function Render(s: BoundaryState, development: bool): (v: View)
    ensures v.Recovery? <==> s.hasError
    ensures v.Recovery? ==> Reload in v.actions && GoTo("/") in v.actions
    ensures v.Recovery? ==> forall a :: a in v.actions ==> a == Reload || a == GoTo("/")
    ensures v.Recovery? ==> (v.details.Some? <==> development && s.caught.Some? && s.caught.value.error.Truthy?)
    ensures v.Recovery? && v.details.Some? ==> v.details == s.caught
  {
    if s.hasError then
      Recovery({Reload, GoTo("/")},
               if development && s.caught.Some? && s.caught.value.error.Truthy? then s.caught else None)
    else Children
  }

  class ErrorBoundary {
    var hasError: bool
    var caught: Option<Caught>

    function State(): BoundaryState
      reads this
    {
      BoundaryState(hasError, caught)
    }

    constructor ()
      ensures State() == Initial
    {
      hasError := false;
      caught := None;
    }

    method GetDerivedStateFromError(thrown: Thrown)
      modifies this`hasError
      ensures State() == Apply(old(State()), Derived(thrown))
    {
      hasError := true;
    }

    method ComponentDidCatch(thrown: Thrown, componentStack: string)
      modifies this`caught
      ensures State() == Apply(old(State()), DidCatch(thrown, componentStack))
    {
      caught := Some(Caught(thrown, componentStack));
    }
  }

  /** Before anything throws the children render; after a throw the recovery
      view stays whatever happens next. */
  lemma RecoveryIsPermanent(evs: seq<Event>, development: bool)
    ensures Render(Initial, development) == Children
    ensures (exists i :: 0 <= i < |evs| && evs[i].Derived?) ==> Render(Run(Initial, evs), development).Recovery?
  {
    HasErrorLatches(Initial, evs);
  }

  /** In a development build, a descendant that throws a truthy value gets the
      details panel with that value and the stack; one that throws a falsy value
      (`throw ''`, `throw 0`) gets the recovery view without details. */
  lemma DetailsFollowTruthiness(thrown: Thrown, stack: string)
    ensures var v := Render(Run(Initial, [Derived(thrown), DidCatch(thrown, stack)]), true);
            v.Recovery? && (v.details.Some? <==> thrown.Truthy?)
    ensures thrown.Truthy? ==>
            Render(Run(Initial, [Derived(thrown), DidCatch(thrown, stack)]), true).details == Some(Caught(thrown, stack))
  {
    var evs := [Derived(thrown), DidCatch(thrown, stack)];
    assert Run(Initial, evs) == Run(Apply(Initial, evs[0]), evs[1..]);
    assert evs[1..] == [DidCatch(thrown, stack)];
    assert Run(Initial, evs) == BoundaryState(true, Some(Caught(thrown, stack)));
  }
}
