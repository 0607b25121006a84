/** The Pinia `theme` store: a `theme` ref with derived `isDark` and `isLight`
    getters, kept in step with local storage, the body's `data-theme`
    attribute and the root element's `dark` class. */
module Store {
  import opened ThemeRules
  import opened Environment

  /** Everything the store reads or writes, as a value. */
  datatype State = State(theme: string, storage: map<string, string>, bodyTheme: Option<string>, rootClasses: set<string>)

  /** The two DOM markers of dark mode are both present or both absent. */
  predicate MarkersAgree(s: State) {
    s.bodyTheme.Some? <==> DarkClass in s.rootClasses
  }

  /** Both DOM markers show the theme (trivially true without a document). */
  predicate Shown(env: Env, s: State) {
    env.hasDocument ==>
      && (s.bodyTheme.Some? <==> s.theme == Dark)
      && (s.bodyTheme.Some? ==> s.bodyTheme.value == DarkAttribute)
      && (DarkClass in s.rootClasses <==> s.theme == Dark)
  }

  /** In a browser, a non-empty preference is on record. */
  predicate Recorded(env: Env, s: State) {
    env.hasWindow ==> Truthy(Stored(s.storage))
  }

  /** The state the store is in once initialised, kept by every later event. */
  predicate Synced(env: Env, s: State) {
    Shown(env, s) && Recorded(env, s)
  }

  /** `applyTheme(t)`: both markers follow `t`; nothing happens without a document. */
  function AfterApplyTheme(env: Env, s: State, t: string): (r: State)
    ensures r.theme == s.theme && r.storage == s.storage
    ensures env.hasDocument ==> MarkersAgree(r) && (DarkClass in r.rootClasses <==> t == Dark)
    ensures env.hasDocument && r.bodyTheme.Some? ==> r.bodyTheme.value == DarkAttribute
    ensures env.hasDocument ==> r.rootClasses - {DarkClass} == s.rootClasses - {DarkClass}
    ensures !env.hasDocument ==> r == s
  {
    s.(bodyTheme := BodyMarker(env, s.bodyTheme, t), rootClasses := RootMarker(env, s.rootClasses, t))
  }

  /** `setTheme(t)`: memory, both DOM markers and (with a window) storage all take `t`. */
  function AfterSetTheme(env: Env, s: State, t: string): (r: State)
    ensures r.theme == t && Shown(env, r)
    ensures r.rootClasses - {DarkClass} == s.rootClasses - {DarkClass}
    ensures !env.hasDocument ==> r.bodyTheme == s.bodyTheme && r.rootClasses == s.rootClasses
    ensures env.hasWindow ==> Stored(r.storage) == Some(t)
    ensures r.storage - {StorageKey} == s.storage - {StorageKey}
    ensures !env.hasWindow ==> r.storage == s.storage
  {
    AfterApplyTheme(env, s.(theme := t, storage := Persist(env, s.storage, t)), t)
  }

  /** `toggleTheme`: dark from light, light from dark or from an unvalidated value. */
  function AfterToggle(env: Env, s: State): (r: State)
    ensures IsTheme(r.theme) && Shown(env, r)
    ensures IsTheme(s.theme) ==> r.theme != s.theme
    ensures !IsTheme(s.theme) ==> r.theme == Light
    ensures env.hasWindow ==> Stored(r.storage) == Some(r.theme)
  {
    AfterSetTheme(env, s, Toggled(s.theme))
  }

  /** `useSystemTheme`: adopts and records the operating system's preference. */
  function AfterUseSystemTheme(env: Env, s: State): (r: State)
    ensures IsTheme(r.theme) && (r.theme == Dark <==> env.hasWindow && env.prefersDark)
    ensures Shown(env, r)
    ensures env.hasWindow ==> Stored(r.storage) == Some(r.theme)
  {
    AfterSetTheme(env, s, SystemTheme(env))
  }

  /** `initTheme`: `setTheme(getSavedTheme())`; registering the listeners is not modelled. */
  function AfterInitTheme(env: Env, s: State): (r: State)
    ensures env.hasWindow && Truthy(Stored(s.storage)) ==> r.theme == Stored(s.storage).value
    ensures env.hasWindow && !Truthy(Stored(s.storage)) ==> IsTheme(r.theme) && (r.theme == Dark <==> env.prefersDark)
    ensures !env.hasWindow ==> r.theme == Light
    ensures Synced(env, r)
  {
    AfterSetTheme(env, s, SavedTheme(env, Stored(s.storage)))
  }

  /** `handleChange` inside `initTheme`: ignored while a non-empty preference is
      on record; otherwise it is `setTheme` of the new scheme. */
  function AfterSchemeChange(env: Env, s: State, matches: bool): (r: State)
    requires env.hasWindow
    ensures Truthy(Stored(s.storage)) ==> r == s
    ensures !Truthy(Stored(s.storage)) ==> r == AfterSetTheme(env, s, SchemeTheme(matches))
  {
    if Truthy(Stored(s.storage)) then s else AfterSetTheme(env, s, SchemeTheme(matches))
  }

  /** `handleStorageChange` inside `initTheme`: a non-empty new value under the
      theme key is adopted into memory and the DOM; storage is never written. */
  function AfterStorageEvent(env: Env, s: State, key: Option<string>, newValue: Option<string>): (r: State)
    requires env.hasWindow
    ensures r.storage == s.storage
    ensures key == Some(StorageKey) && Truthy(newValue) ==> r.theme == newValue.value && Shown(env, r)
    ensures r.rootClasses - {DarkClass} == s.rootClasses - {DarkClass}
    ensures !env.hasDocument ==> r.bodyTheme == s.bodyTheme && r.rootClasses == s.rootClasses
    ensures !(key == Some(StorageKey) && Truthy(newValue)) ==> r == s
  {
    if key == Some(StorageKey) && Truthy(newValue) then
      AfterApplyTheme(env, s.(theme := newValue.value), newValue.value)
    else
      s
  }

  /** The watcher on `theme`: re-applies the theme to the DOM, which changes
      nothing once the DOM shows it. */
  function AfterWatcher(env: Env, s: State): (r: State)
    ensures Shown(env, r)
    ensures r.theme == s.theme && r.storage == s.storage
    ensures r.rootClasses - {DarkClass} == s.rootClasses - {DarkClass}
    ensures Shown(env, s) ==> r == s
  {
    AfterApplyTheme(env, s, s.theme)
  }

  /** One event delivered to an initialised store. The two notifications are
      only listened for when a window exists. */
  function Step(env: Env, s: State, e: Event): State {
    match e
    case SetTo(t) => AfterSetTheme(env, s, t)
    case Toggle => AfterToggle(env, s)
    case SetLight => AfterSetTheme(env, s, Light)
    case SetDark => AfterSetTheme(env, s, Dark)
    case UseSystem => AfterUseSystemTheme(env, s)
    case SchemeChanged(matches) => if env.hasWindow then AfterSchemeChange(env, s, matches) else s
    case StorageChanged(key, newValue) => if env.hasWindow then AfterStorageEvent(env, s, key, newValue) else s
    case WatcherRuns => AfterWatcher(env, s)
  }

  /** The events of a session, in order of arrival. */
  function Run(env: Env, s: State, events: seq<Event>): State
    decreases |events|
  {
    if events == [] then s else Run(env, Step(env, s, events[0]), events[1..])
  }

  /** Wherever the DOM shows the theme, its two markers agree. */
  lemma ShownMarkersAgree(env: Env, s: State)
    requires env.hasDocument && Shown(env, s)
    ensures MarkersAgree(s)
  {
  }

  /** Every single event keeps a synced store synced. */
  lemma StepKeepsSynced(env: Env, s: State, e: Event)
    requires Synced(env, s)
    ensures Synced(env, Step(env, s, e))
  {
  }

  /** Any sequence of events keeps a synced store synced. */
  lemma {:induction false} RunKeepsSynced(env: Env, s: State, events: seq<Event>)
    requires Synced(env, s)
    ensures Synced(env, Run(env, s, events))
    decreases |events|
  {
    if events != [] {
      StepKeepsSynced(env, s, events[0]);
      RunKeepsSynced(env, Step(env, s, events[0]), events[1..]);
    }
  }

  /** After `initTheme` in a browser every later colour-scheme notification,
      whatever came before it, is a no-op; with a document the two markers
      agree throughout. */
  lemma {:induction false} SchemeChangeIgnoredAfterInit(env: Env, s: State, before: seq<Event>, matches: bool)
    requires env.hasWindow
    ensures var m := Run(env, AfterInitTheme(env, s), before);
      Synced(env, m) && (env.hasDocument ==> MarkersAgree(m)) &&
      Step(env, m, SchemeChanged(matches)) == m
  {
    var m := Run(env, AfterInitTheme(env, s), before);
    RunKeepsSynced(env, AfterInitTheme(env, s), before);
    if env.hasDocument {
      ShownMarkersAgree(env, m);
    }
  }

  /** Toggling twice from light or dark restores the theme. */
  lemma ToggleTwiceRestores(env: Env, s: State)
    requires IsTheme(s.theme)
    ensures AfterToggle(env, AfterToggle(env, s)).theme == s.theme
  {
    ToggledTwice(s.theme);
  }

  /** A consumer writes the store's `theme` state directly (`store.theme = v`):
      only the ref changes; the DOM and storage are left as they were. */
  function AfterThemeAssigned(s: State, v: string): (r: State)
    ensures r.theme == v
    ensures r.storage == s.storage && r.bodyTheme == s.bodyTheme && r.rootClasses == s.rootClasses
  {
    s.(theme := v)
  }

  /** After a direct write and the watcher's run, both markers show the new
      value, but the record keeps the old theme. */
  lemma AssignedThenWatched(env: Env, s: State, v: string)
    ensures var r := AfterWatcher(env, AfterThemeAssigned(s, v));
      r.theme == v && Shown(env, r) && r.storage == s.storage
  {
  }

  /** From a synced store, a direct write followed by the watcher's run leaves
      the store synced: `Synced` asks only for some non-empty record, and the
      old one is still on file. */
  lemma AssignedThenWatchedSynced(env: Env, s: State, v: string)
    requires Synced(env, s)
    ensures Synced(env, AfterWatcher(env, AfterThemeAssigned(s, v)))
  {
  }

  /** An instance: initialised light in a browser with a document, then
      `theme` written to dark and the watcher run. The DOM shows dark, but the
      record still says light, so a reload would go back to light; `Synced`
      holds all the same, since it does not compare the record with `theme`. */
  lemma AssignedDarkStaysUnrecorded(s: State)
    requires StorageKey !in s.storage
    ensures var env := Env(true, true, false);
      var r := AfterWatcher(env, AfterThemeAssigned(AfterInitTheme(env, s), Dark));
      r.bodyTheme == Some(DarkAttribute) && DarkClass in r.rootClasses && Stored(r.storage) == Some(Light) &&
      Synced(env, r)
  {
  }

  /** `applyTheme` a second time with the same theme changes nothing. */
  lemma ApplyThemeIdempotent(env: Env, s: State, t: string)
    ensures AfterApplyTheme(env, AfterApplyTheme(env, s, t), t) == AfterApplyTheme(env, s, t)
  {
    MarkersIdempotent(env, s.bodyTheme, s.rootClasses, t);
  }

  /** `useSystemTheme` records a preference, so later scheme notifications are ignored. */
  lemma SchemeChangeIgnoredAfterUseSystem(env: Env, s: State, matches: bool)
    requires env.hasWindow
    ensures AfterSchemeChange(env, AfterUseSystemTheme(env, s), matches) == AfterUseSystemTheme(env, s)
  {
  }

  /** The store's `theme` ref, over the browser it runs in. */
  class ThemeStore {
    var theme: string
    const browser: Browser

    /** `ref<Theme>('light')`; the DOM and storage are not touched yet. */
    constructor (browser: Browser)
      ensures this.browser == browser && theme == Light
    {
      this.browser := browser;
      theme := Light;
    }

    function Snapshot(): State
      reads this, browser
    {
      State(theme, browser.storage, browser.bodyTheme, browser.rootClasses)
    }

    /** The `isDark` getter. */
    function IsDark(): (r: bool)
      reads this
      ensures r <==> IsTheme(theme) && theme != Light
    {
      theme == Dark
    }

    /** The `isLight` getter. */
    function IsLight(): (r: bool)
      reads this
      ensures r <==> IsTheme(theme) && theme != Dark
    {
      theme == Light
    }

    method GetSystemTheme() returns (t: string)
      ensures t == SystemTheme(browser.Conditions())
    {
      if !browser.hasWindow {
        return Light;
      }
      t := if browser.prefersDark then Dark else Light;
    }

    method GetSavedTheme() returns (t: string)
      ensures t == SavedTheme(browser.Conditions(), Stored(browser.storage))
    {
      if !browser.hasWindow {
        return Light;
      }
      var saved := Stored(browser.storage);
      if Truthy(saved) {
        t := saved.value;
      } else {
        t := GetSystemTheme();
      }
    }

    method ApplyTheme(t: string)
      modifies browser`bodyTheme, browser`rootClasses
      ensures Snapshot() == AfterApplyTheme(browser.Conditions(), old(Snapshot()), t)
    {
      if !browser.hasDocument {
        return;
      }
      if t == Dark {
        browser.bodyTheme := Some(DarkAttribute);
        browser.rootClasses := browser.rootClasses + {DarkClass};
      } else {
        browser.bodyTheme := None;
        browser.rootClasses := browser.rootClasses - {DarkClass};
      }
    }

    method SetTheme(t: string)
      modifies this, browser`storage, browser`bodyTheme, browser`rootClasses
      ensures Snapshot() == AfterSetTheme(browser.Conditions(), old(Snapshot()), t)
    {
      theme := t;
      ApplyTheme(t);
      if browser.hasWindow {
        browser.storage := browser.storage[StorageKey := t];
      }
    }

    method ToggleTheme()
      modifies this, browser`storage, browser`bodyTheme, browser`rootClasses
      ensures Snapshot() == AfterToggle(browser.Conditions(), old(Snapshot()))
    {
      var t := if theme == Light then Dark else Light;
      SetTheme(t);
    }

    method SetLightTheme()
      modifies this, browser`storage, browser`bodyTheme, browser`rootClasses
      ensures Snapshot() == AfterSetTheme(browser.Conditions(), old(Snapshot()), Light)
    {
      SetTheme(Light);
    }

    method SetDarkTheme()
      modifies this, browser`storage, browser`bodyTheme, browser`rootClasses
      ensures Snapshot() == AfterSetTheme(browser.Conditions(), old(Snapshot()), Dark)
    {
      SetTheme(Dark);
    }

    method UseSystemTheme()
      modifies this, browser`storage, browser`bodyTheme, browser`rootClasses
      ensures Snapshot() == AfterUseSystemTheme(browser.Conditions(), old(Snapshot()))
    {
      var t := GetSystemTheme();
      SetTheme(t);
    }

    method InitTheme()
      modifies this, browser`storage, browser`bodyTheme, browser`rootClasses
      ensures Snapshot() == AfterInitTheme(browser.Conditions(), old(Snapshot()))
      ensures Synced(browser.Conditions(), Snapshot())
    {
      var savedTheme := GetSavedTheme();
      SetTheme(savedTheme);
    }

    /** The colour-scheme listener `initTheme` registers when a window exists. */
    method HandleChange(matches: bool)
      requires browser.hasWindow
      modifies this, browser`storage, browser`bodyTheme, browser`rootClasses
      ensures Snapshot() == AfterSchemeChange(browser.Conditions(), old(Snapshot()), matches)
    {
      var hasManualPreference := Stored(browser.storage);
      if !Truthy(hasManualPreference) {
        SetTheme(if matches then Dark else Light);
      }
    }

    /** The cross-tab storage listener `initTheme` registers when a window exists. */
    method HandleStorageChange(key: Option<string>, newValue: Option<string>)
      requires browser.hasWindow
      modifies this, browser`bodyTheme, browser`rootClasses
      ensures Snapshot() == AfterStorageEvent(browser.Conditions(), old(Snapshot()), key, newValue)
    {
      if key == Some(StorageKey) && Truthy(newValue) {
        var t := newValue.value;
        theme := t;
        ApplyTheme(t);
      }
    }

    /** The watcher on `theme`. */
    method ThemeWatcher()
      modifies browser`bodyTheme, browser`rootClasses
      ensures Snapshot() == AfterWatcher(browser.Conditions(), old(Snapshot()))
    {
      ApplyTheme(theme);
    }

    /** A consumer's direct write to the store's `theme` state. */
    method AssignTheme(v: string)
      modifies this
      ensures Snapshot() == AfterThemeAssigned(old(Snapshot()), v)
    {
      theme := v;
    }
  }

  /** `isDark` holds exactly for dark and `isLight` exactly for light: for a
      theme the type admits one of them holds, for an unvalidated value neither. */
  lemma FlagsOfTheme(store: ThemeStore)
    ensures store.IsDark() <==> store.theme == Dark
    ensures store.IsLight() <==> store.theme == Light
    ensures IsTheme(store.theme) ==> store.IsDark() != store.IsLight()
    ensures !IsTheme(store.theme) ==> !store.IsDark() && !store.IsLight()
  {
  }
}
