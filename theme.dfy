/**
 * The dark-mode toggle of src/components/DarkModeToggle.jsx: the `isDark`
 * state, the `'theme'` key in local storage and the `data-theme` attribute
 * of the document element.
 */
module Theme {
  import opened Wrappers

  /** The three places the theme lives. `storage` is `localStorage.getItem('theme')`
      (None for null); `dataTheme` is the attribute (None when absent). */
  datatype ThemeState = ThemeState(isDark: bool, storage: Option<string>, dataTheme: Option<string>)

  /** JavaScript truthiness of a stored string: null and `''` are falsy. */
  predicate Stored(saved: Option<string>)
  {
    saved.Some? && saved.value != ""
  }

  /** The startup decision: a stored `'dark'`, or nothing stored and a system
      preference for dark. */
  predicate StartsDark(saved: Option<string>, prefersDark: bool)
  {
    saved == Some("dark") || (!Stored(saved) && prefersDark)
  }

  /** A stored value decides on its own; the system preference only matters
      when nothing is stored. */
  lemma StoredValueOverridesPreference(saved: Option<string>)
    ensures Stored(saved) ==> (StartsDark(saved, true) <==> saved.value == "dark")
    ensures Stored(saved) ==> StartsDark(saved, true) == StartsDark(saved, false)
    ensures !Stored(saved) ==> forall p :: StartsDark(saved, p) == p
  {
  }

  /** The attribute matches the boolean state. */
  predicate Consistent(t: ThemeState)
  {
    t.dataTheme == (if t.isDark then Some("dark") else None)
  }

  /** The effect run once on mount: it only ever switches to dark, and never
      writes storage. */
  function Startup(t: ThemeState, prefersDark: bool): (r: ThemeState)
    ensures r.storage == t.storage
    ensures StartsDark(t.storage, prefersDark) ==> r.isDark && r.dataTheme == Some("dark")
    ensures !StartsDark(t.storage, prefersDark) ==> r == t
  {
    if StartsDark(t.storage, prefersDark) then t.(isDark := true, dataTheme := Some("dark")) else t
  }

  /** `toggleTheme`: the state flips, and storage and the attribute follow the
      new state. */
  function Toggled(t: ThemeState): (r: ThemeState)
    ensures r.isDark == !t.isDark
    ensures r.storage == Some(if r.isDark then "dark" else "light")
    ensures Consistent(r)
  {
    var newTheme := !t.isDark;
    if newTheme then ThemeState(true, Some("dark"), Some("dark"))
    else ThemeState(false, Some("light"), None)
  }

  /** Two toggles restore the boolean state, and the attribute too once it was
      consistent; storage reflects the last toggle. */
  lemma ToggleTwice(t: ThemeState)
    ensures Toggled(Toggled(t)).isDark == t.isDark
    ensures Consistent(t) ==> Toggled(Toggled(t)).dataTheme == t.dataTheme
    ensures Toggled(Toggled(t)).storage == Some(if t.isDark then "dark" else "light")
  {
  }

  /** A toggled choice is what the next page load starts with, whatever the
      system preference. */
  lemma ToggleIsRemembered(t: ThemeState, prefersDark: bool)
    ensures StartsDark(Toggled(t).storage, prefersDark) == Toggled(t).isDark
    ensures Startup(ThemeState(false, Toggled(t).storage, None), prefersDark) == Toggled(t)
  {
  }

  class DarkModeToggle {
    var isDark: bool
    /** The `'theme'` key of local storage. */
    var storage: Option<string>
    /** The `data-theme` attribute of the document element. */
    var dataTheme: Option<string>

    function State(): ThemeState
      reads this
    {
      ThemeState(isDark, storage, dataTheme)
    }

    /** `useState(false)`, with whatever storage and attribute the page has. */
    constructor (saved: Option<string>, attribute: Option<string>)
      ensures State() == ThemeState(false, saved, attribute)
    {
      isDark := false;
      storage := saved;
      dataTheme := attribute;
    }

    method RunStartupEffect(prefersDark: bool)
      modifies this`isDark, this`dataTheme
      ensures State() == Startup(old(State()), prefersDark)
    {
      if storage == Some("dark") || (!(storage.Some? && storage.value != "") && prefersDark) {
        isDark := true;
        dataTheme := Some("dark");
      }
    }

    method Toggle()
      modifies this`isDark, this`storage, this`dataTheme
      ensures State() == Toggled(old(State()))
    {
      var newTheme := !isDark;
      isDark := newTheme;
      if newTheme {
        dataTheme := Some("dark");
        storage := Some("dark");
      } else {
        dataTheme := None;
        storage := Some("light");
      }
    }
  }
}
