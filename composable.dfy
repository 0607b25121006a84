/** The `useTheme` composable: a `theme` ref and an `isDark` ref kept in step
    with local storage and with the body's `data-theme` attribute. */
module Composable {
  import opened ThemeRules
  import opened Environment

  /** Everything the composable reads or writes, as a value. */
  datatype State = State(theme: string, isDark: bool, storage: map<string, string>, bodyTheme: Option<string>)

  /** `isDark` agrees with `theme`. */
  predicate Coherent(s: State) {
    s.isDark == (s.theme == Dark)
  }

  /** The body attribute shows the theme (trivially true without a document). */
  predicate Shown(env: Env, s: State) {
    env.hasDocument ==>
      (s.bodyTheme.Some? <==> s.theme == Dark) && (s.bodyTheme.Some? ==> s.bodyTheme.value == DarkAttribute)
  }

  /** In a browser, a non-empty preference is on record. */
  predicate Recorded(env: Env, s: State) {
    env.hasWindow ==> Truthy(Stored(s.storage))
  }

  /** The state the composable is in once mounted, kept by every later event. */
  predicate Synced(env: Env, s: State) {
    Coherent(s) && Shown(env, s) && Recorded(env, s)
  }

  /** `applyTheme(t)`: only the body attribute changes; it shows `t`, and
      nothing happens without a document. */
  function AfterApplyTheme(env: Env, s: State, t: string): (r: State)
    ensures r.theme == s.theme && r.isDark == s.isDark && r.storage == s.storage
    ensures env.hasDocument ==> (r.bodyTheme.Some? <==> t == Dark)
    ensures env.hasDocument && r.bodyTheme.Some? ==> r.bodyTheme.value == DarkAttribute
    ensures !env.hasDocument ==> r == s
  {
    s.(bodyTheme := BodyMarker(env, s.bodyTheme, t))
  }

  /** `setTheme(t)`: memory, DOM and (with a window) storage all take `t`. */
  function AfterSetTheme(env: Env, s: State, t: string): (r: State)
    ensures r.theme == t && Coherent(r)
    ensures env.hasDocument ==> (r.bodyTheme.Some? <==> t == Dark)
    ensures env.hasDocument && r.bodyTheme.Some? ==> r.bodyTheme.value == DarkAttribute
    ensures !env.hasDocument ==> r.bodyTheme == s.bodyTheme
    ensures env.hasWindow ==> Stored(r.storage) == Some(t)
    ensures r.storage - {StorageKey} == s.storage - {StorageKey}
    ensures !env.hasWindow ==> r.storage == s.storage
  {
    AfterApplyTheme(env, s.(theme := t, isDark := t == Dark, storage := Persist(env, s.storage, t)), t)
  }

  /** `toggleTheme`: dark from light, light from dark or from an unvalidated value. */
  function AfterToggle(env: Env, s: State): (r: State)
    ensures IsTheme(r.theme) && Coherent(r) && Shown(env, r)
    ensures IsTheme(s.theme) ==> r.theme != s.theme
    ensures !IsTheme(s.theme) ==> r.theme == Light
    ensures env.hasWindow ==> Stored(r.storage) == Some(r.theme)
  {
    AfterSetTheme(env, s, Toggled(s.theme))
  }

  /** `useSystemTheme`: adopts and records the operating system's preference. */
  function AfterUseSystemTheme(env: Env, s: State): (r: State)
    ensures IsTheme(r.theme) && (r.theme == Dark <==> env.hasWindow && env.prefersDark)
    ensures Coherent(r) && Shown(env, r)
    ensures env.hasWindow ==> Stored(r.storage) == Some(r.theme)
  {
    AfterSetTheme(env, s, SystemTheme(env))
  }

  /** `handleChange`: a colour-scheme notification is ignored while a non-empty
      preference is on record; otherwise it is `setTheme` of the new scheme. */
  function AfterSchemeChange(env: Env, s: State, matches: bool): (r: State)
    requires env.hasWindow
    ensures Truthy(Stored(s.storage)) ==> r == s
    ensures !Truthy(Stored(s.storage)) ==> r == AfterSetTheme(env, s, SchemeTheme(matches))
  {
    if Truthy(Stored(s.storage)) then s else AfterSetTheme(env, s, SchemeTheme(matches))
  }

  /** `handleStorageChange`: a non-empty new value under the theme key is
      adopted into memory and the DOM; storage is never written. */
  function AfterStorageEvent(env: Env, s: State, key: Option<string>, newValue: Option<string>): (r: State)
    requires env.hasWindow
    ensures r.storage == s.storage
    ensures key == Some(StorageKey) && Truthy(newValue) ==>
      r.theme == newValue.value && Coherent(r) && Shown(env, r)
    ensures key == Some(StorageKey) && Truthy(newValue) && !env.hasDocument ==> r.bodyTheme == s.bodyTheme
    ensures !(key == Some(StorageKey) && Truthy(newValue)) ==> r == s
  {
    if key == Some(StorageKey) && Truthy(newValue) then
      var t := newValue.value;
      AfterApplyTheme(env, s.(theme := t, isDark := t == Dark), t)
    else
      s
  }

  /** The `onMounted` callback: `setTheme(getSavedTheme())`. */
  function AfterMount(env: Env, s: State): (r: State)
    ensures env.hasWindow && Truthy(Stored(s.storage)) ==> r.theme == Stored(s.storage).value
    ensures env.hasWindow && !Truthy(Stored(s.storage)) ==> IsTheme(r.theme) && (r.theme == Dark <==> env.prefersDark)
    ensures !env.hasWindow ==> r.theme == Light
    ensures Synced(env, r)
  {
    AfterSetTheme(env, s, SavedTheme(env, Stored(s.storage)))
  }

  /** The watcher on `theme`: recomputes `isDark`, which changes nothing once coherent. */
  function AfterWatcher(s: State): (r: State)
    ensures Coherent(r)
    ensures r.theme == s.theme && r.storage == s.storage && r.bodyTheme == s.bodyTheme
    ensures Coherent(s) ==> r == s
  {
    s.(isDark := s.theme == Dark)
  }

  /** One event delivered to a mounted composable. The two notifications are
      only listened for when a window exists. */
  function Step(env: Env, s: State, e: Event): State {
    match e
    case SetTo(t) => AfterSetTheme(env, s, t)
    case Toggle => AfterToggle(env, s)
    case SetLight => AfterSetTheme(env, s, Light)
    case SetDark => AfterSetTheme(env, s, Dark)
    case UseSystem => AfterUseSystemTheme(env, s)
    case SchemeChanged(matches) => if env.hasWindow then AfterSchemeChange(env, s, matches) else s
    case StorageChanged(key, newValue) => if env.hasWindow then AfterStorageEvent(env, s, key, newValue) else s
    case WatcherRuns => AfterWatcher(s)
  }

  /** The events of a session, in order of arrival. */
  function Run(env: Env, s: State, events: seq<Event>): State
    decreases |events|
  {
    if events == [] then s else Run(env, Step(env, s, events[0]), events[1..])
  }

  /** Every single event keeps a synced composable synced. */
  lemma StepKeepsSynced(env: Env, s: State, e: Event)
    requires Synced(env, s)
    ensures Synced(env, Step(env, s, e))
  {
  }

  /** Any sequence of events keeps a synced composable synced. */
  lemma {:induction false} RunKeepsSynced(env: Env, s: State, events: seq<Event>)
    requires Synced(env, s)
    ensures Synced(env, Run(env, s, events))
    decreases |events|
  {
    if events != [] {
      StepKeepsSynced(env, s, events[0]);
      RunKeepsSynced(env, Step(env, s, events[0]), events[1..]);
    }
  }

  /** After mounting in a browser every later colour-scheme notification,
      whatever came before it, is a no-op; `isDark` and the body attribute
      agree with `theme` throughout. */
  lemma {:induction false} SchemeChangeIgnoredAfterMount(env: Env, s: State, before: seq<Event>, matches: bool)
    requires env.hasWindow
    ensures var m := Run(env, AfterMount(env, s), before);
      Synced(env, m) && Step(env, m, SchemeChanged(matches)) == m
  {
    RunKeepsSynced(env, AfterMount(env, s), before);
  }

  /** Toggling twice from light or dark restores the theme. */
  lemma ToggleTwiceRestores(env: Env, s: State)
    requires IsTheme(s.theme)
    ensures AfterToggle(env, AfterToggle(env, s)).theme == s.theme
  {
    ToggledTwice(s.theme);
  }

  /** `useSystemTheme` records a preference, so later scheme notifications are ignored. */
  lemma SchemeChangeIgnoredAfterUseSystem(env: Env, s: State, matches: bool)
    requires env.hasWindow
    ensures AfterSchemeChange(env, AfterUseSystemTheme(env, s), matches) == AfterUseSystemTheme(env, s)
  {
  }

  /** No preference recorded, system prefers dark: mounting picks dark; after
      choosing light, light is recorded and a notification of dark is ignored. */
  lemma ManualChoiceWins(s: State)
    requires StorageKey !in s.storage
    ensures var env := Env(true, true, true);
      var mounted := AfterMount(env, s);
      var chosen := AfterSetTheme(env, mounted, Light);
      mounted.theme == Dark && Stored(chosen.storage) == Some(Light) &&
      AfterSchemeChange(env, chosen, true) == chosen
  {
  }

  /** A consumer writes the returned `theme` ref directly (`theme.value = v`):
      only the ref changes; `isDark`, the DOM and storage are left as they were. */
  function AfterThemeAssigned(s: State, v: string): (r: State)
    ensures r.theme == v
    ensures r.isDark == s.isDark && r.storage == s.storage && r.bodyTheme == s.bodyTheme
  {
    s.(theme := v)
  }

  /** A consumer writes the returned `isDark` ref directly (`isDark.value = b`):
      only that ref changes, so it no longer agrees with `theme`. The watcher
      does not repair it, since it runs only after `theme` changes. */
  function AfterDarkAssigned(s: State, b: bool): (r: State)
    ensures r.isDark == b
    ensures r.theme == s.theme && r.storage == s.storage && r.bodyTheme == s.bodyTheme
    ensures Coherent(s) ==> (Coherent(r) <==> b == s.isDark)
  {
    s.(isDark := b)
  }

  /** An instance: mounted light in a browser with a document, then `isDark`
      written to true. The state is no longer synced: `isDark` says dark while
      `theme`, the body attribute and the record say light. */
  lemma DarkAssignedBreaksSync(s: State)
    requires StorageKey !in s.storage
    ensures var env := Env(true, true, false);
      var r := AfterDarkAssigned(AfterMount(env, s), true);
      r.isDark && r.theme == Light && r.bodyTheme == None && Stored(r.storage) == Some(Light) && !Synced(env, r)
  {
  }

  /** After a direct write and the watcher's run, `isDark` follows the new
      value, but the body attribute and the record keep the old theme. */
  lemma AssignedThenWatched(env: Env, s: State, v: string)
    ensures var r := AfterWatcher(AfterThemeAssigned(s, v));
      r.theme == v && Coherent(r) && r.bodyTheme == s.bodyTheme && r.storage == s.storage
  {
  }

  /** An instance: mounted light in a browser with a document, then `theme`
      written to dark and the watcher run. The body attribute still says light
      and the record still says light, so the state is not synced and a reload
      would go back to light. */
  lemma AssignedDarkStaysUnshown(s: State)
    requires StorageKey !in s.storage
    ensures var env := Env(true, true, false);
      var r := AfterWatcher(AfterThemeAssigned(AfterMount(env, s), Dark));
      r.isDark && r.bodyTheme == None && Stored(r.storage) == Some(Light) && !Synced(env, r)
  {
  }

  /** The composable's refs, over the browser it runs in. */
  class UseTheme {
    var theme: string
    var isDark: bool
    const browser: Browser

    /** `ref<Theme>('light')` and `ref(false)`; the DOM and storage are not touched yet. */
    constructor (browser: Browser)
      ensures this.browser == browser
      ensures theme == Light && !isDark && Coherent(Snapshot())
    {
      this.browser := browser;
      theme := Light;
      isDark := false;
    }

    function Snapshot(): State
      reads this, browser
    {
      State(theme, isDark, browser.storage, browser.bodyTheme)
    }

    method GetSystemTheme() returns (t: string)
      ensures t == SystemTheme(browser.Conditions())
    {
      if !browser.hasWindow {
        return Light;
      }
      t := if browser.prefersDark then Dark else Light;
    }

    method GetSavedTheme() returns (t: string)
      ensures t == SavedTheme(browser.Conditions(), Stored(browser.storage))
    {
      if !browser.hasWindow {
        return Light;
      }
      var saved := Stored(browser.storage);
      if Truthy(saved) {
        t := saved.value;
      } else {
        t := GetSystemTheme();
      }
    }

    method ApplyTheme(t: string)
      modifies browser`bodyTheme
      ensures Snapshot() == AfterApplyTheme(browser.Conditions(), old(Snapshot()), t)
    {
      if !browser.hasDocument {
        return;
      }
      if t == Dark {
        browser.bodyTheme := Some(DarkAttribute);
      } else {
        browser.bodyTheme := None;
      }
    }

    method SetTheme(t: string)
      modifies this, browser`storage, browser`bodyTheme
      ensures Snapshot() == AfterSetTheme(browser.Conditions(), old(Snapshot()), t)
    {
      theme := t;
      isDark := t == Dark;
      ApplyTheme(t);
      if browser.hasWindow {
        browser.storage := browser.storage[StorageKey := t];
      }
    }

    method ToggleTheme()
      modifies this, browser`storage, browser`bodyTheme
      ensures Snapshot() == AfterToggle(browser.Conditions(), old(Snapshot()))
    {
      var t := if theme == Light then Dark else Light;
      SetTheme(t);
    }

    method SetLightTheme()
      modifies this, browser`storage, browser`bodyTheme
      ensures Snapshot() == AfterSetTheme(browser.Conditions(), old(Snapshot()), Light)
    {
      SetTheme(Light);
    }

    method SetDarkTheme()
      modifies this, browser`storage, browser`bodyTheme
      ensures Snapshot() == AfterSetTheme(browser.Conditions(), old(Snapshot()), Dark)
    {
      SetTheme(Dark);
    }

    method UseSystemTheme()
      modifies this, browser`storage, browser`bodyTheme
      ensures Snapshot() == AfterUseSystemTheme(browser.Conditions(), old(Snapshot()))
    {
      var t := GetSystemTheme();
      SetTheme(t);
    }

    /** The colour-scheme listener; it exists only when a window does. */
    method HandleChange(matches: bool)
      requires browser.hasWindow
      modifies this, browser`storage, browser`bodyTheme
      ensures Snapshot() == AfterSchemeChange(browser.Conditions(), old(Snapshot()), matches)
    {
      var hasManualPreference := Stored(browser.storage);
      if !Truthy(hasManualPreference) {
        SetTheme(if matches then Dark else Light);
      }
    }

    /** The cross-tab storage listener; it exists only when a window does. */
    method HandleStorageChange(key: Option<string>, newValue: Option<string>)
      requires browser.hasWindow
      modifies this, browser`bodyTheme
      ensures Snapshot() == AfterStorageEvent(browser.Conditions(), old(Snapshot()), key, newValue)
    {
      if key == Some(StorageKey) && Truthy(newValue) {
        var t := newValue.value;
        theme := t;
        isDark := t == Dark;
        ApplyTheme(t);
      }
    }

    /** The `onMounted` initialisation; registering the listeners is not modelled. */
    method Mount()
      modifies this, browser`storage, browser`bodyTheme
      ensures Snapshot() == AfterMount(browser.Conditions(), old(Snapshot()))
      ensures Synced(browser.Conditions(), Snapshot())
    {
      var savedTheme := GetSavedTheme();
      SetTheme(savedTheme);
    }

    /** The watcher on `theme`. */
    method ThemeWatcher()
      modifies this
      ensures Snapshot() == AfterWatcher(old(Snapshot()))
    {
      isDark := theme == Dark;
    }

    /** A consumer's direct write to the returned `isDark` ref. */
    method AssignIsDark(b: bool)
      modifies this
      ensures Snapshot() == AfterDarkAssigned(old(Snapshot()), b)
    {
      isDark := b;
    }

    /** A consumer's direct write to the returned `theme` ref. */
    method AssignTheme(v: string)
      modifies this
      ensures Snapshot() == AfterThemeAssigned(old(Snapshot()), v)
    {
      theme := v;
    }
  }
}
