/** The fixed rules of the theme preference, shared by the composable and the store:
    the storage key, the theme names, how the initial theme is resolved, how a
    theme is toggled, and how a theme is written to storage and to the DOM. */
module ThemeRules {

  datatype Option<+T> = None | Some(value: T)

  /** Key of the persisted preference in the browser's local storage. */
  const StorageKey := "erp-theme-preference"

  const Light := "light"
  const Dark := "dark"

  /** Value of the body's `data-theme` attribute in dark mode. */
  const DarkAttribute := "dark"

  /** Class put on the document's root element in dark mode. */
  const DarkClass := "dark"

  /** A theme value is any string: values read from storage or from a storage
      event are cast to a theme without being validated. Only these two are
      themes the type system admits. */
  predicate IsTheme(t: string) {
    t == Light || t == Dark
  }

  /** The themes a caller of the public API can pass. */
  type ThemeName = t: string | IsTheme(t) witness "light"

  /** JavaScript truthiness of a `string | null`: null and "" are falsy. */
  predicate Truthy(v: Option<string>) {
    v.Some? && v.value != ""
  }

  /** What the environment offers: whether `window` and `document` exist, and
      whether the operating system currently prefers a dark colour scheme. */
  datatype Env = Env(hasWindow: bool, hasDocument: bool, prefersDark: bool)

  /** `localStorage.getItem(StorageKey)`. */
  function Stored(storage: map<string, string>): Option<string> {
    if StorageKey in storage then Some(storage[StorageKey]) else None
  }

  /** The theme of a colour-scheme notification: `e.matches ? 'dark' : 'light'`. */
  function SchemeTheme(matches: bool): (t: ThemeName)
    ensures t == Dark <==> matches
  {
    if matches then Dark else Light
  }

  /** `getSystemTheme`: the operating system's preference, or light outside a browser. */
  function SystemTheme(env: Env): (t: ThemeName)
    ensures t == Dark <==> env.hasWindow && env.prefersDark
  {
    if !env.hasWindow then Light else SchemeTheme(env.prefersDark)
  }

  /** `getSavedTheme`: the stored value when it is non-empty (unvalidated),
      otherwise the operating system's preference; light outside a browser. */
  function SavedTheme(env: Env, stored: Option<string>): (t: string)
    ensures t != ""
    ensures !env.hasWindow ==> t == Light
    ensures env.hasWindow && Truthy(stored) ==> t == stored.value
    ensures env.hasWindow && !Truthy(stored) ==> IsTheme(t) && (t == Dark <==> env.prefersDark)
  {
    if !env.hasWindow then Light
    else if Truthy(stored) then stored.value
    else SystemTheme(env)
  }

  /** The theme `toggleTheme` switches to: dark from light, light from anything else. */
  function Toggled(t: string): (r: ThemeName)
    ensures IsTheme(t) ==> r != t
    ensures !IsTheme(t) ==> r == Light
  {
    if t == Light then Dark else Light
  }

  /** `localStorage.setItem(StorageKey, t)` when a window exists; every other key is kept. */
  function Persist(env: Env, storage: map<string, string>, t: string): (r: map<string, string>)
    ensures env.hasWindow ==> Stored(r) == Some(t)
    ensures r - {StorageKey} == storage - {StorageKey}
    ensures !env.hasWindow ==> r == storage
  {
    if env.hasWindow then storage[StorageKey := t] else storage
  }

  /** The body's `data-theme` attribute after `applyTheme(t)`: set to dark for
      the dark theme, removed for every other value, untouched without a document. */
  function BodyMarker(env: Env, attribute: Option<string>, t: string): (r: Option<string>)
    ensures env.hasDocument ==> (r.Some? <==> t == Dark) && (r.Some? ==> r.value == DarkAttribute)
    ensures !env.hasDocument ==> r == attribute
  {
    if !env.hasDocument then attribute
    else if t == Dark then Some(DarkAttribute)
    else None
  }

  /** The root element's class list after the store's `applyTheme(t)`: holds
      the dark class exactly for the dark theme; every other class is kept. */
  function RootMarker(env: Env, classes: set<string>, t: string): (r: set<string>)
    ensures env.hasDocument ==> (DarkClass in r <==> t == Dark)
    ensures r - {DarkClass} == classes - {DarkClass}
    ensures !env.hasDocument ==> r == classes
  {
    if !env.hasDocument then classes
    else if t == Dark then classes + {DarkClass}
    else classes - {DarkClass}
  }

  /** Toggling twice from a theme the type admits gives it back. */
  lemma ToggledTwice(t: string)
    requires IsTheme(t)
    ensures Toggled(Toggled(t)) == t
  {
  }

  /** Applying the same theme to the DOM a second time changes nothing. */
  lemma MarkersIdempotent(env: Env, attribute: Option<string>, classes: set<string>, t: string)
    ensures BodyMarker(env, BodyMarker(env, attribute, t), t) == BodyMarker(env, attribute, t)
    ensures RootMarker(env, RootMarker(env, classes, t), t) == RootMarker(env, classes, t)
  {
  }

  /** What can happen to one tab after it has initialised: a call of one of the
      public actions, a colour-scheme notification, a storage notification from
      another tab, or a run of the watcher on `theme`. */
  datatype Event =
    | SetTo(t: ThemeName)
    | Toggle
    | SetLight
    | SetDark
    | UseSystem
    | SchemeChanged(matches: bool)
    | StorageChanged(key: Option<string>, newValue: Option<string>)
    | WatcherRuns
}
