# Theme preference: a Dafny model

The repository keeps a light/dark theme preference for a browser application, implemented twice: as the Vue composable `useTheme` (`src/composables/useTheme.ts`) and as the Pinia store `useThemeStore` (`src/stores/useTheme.ts`). Both hold the active `theme` in memory. They persist it in `localStorage` under the key `erp-theme-preference`. They mark dark mode in the DOM. The composable sets the body's `data-theme` attribute; the store sets that attribute and also a `dark` class on the root element. The composable keeps an `isDark` ref; the store derives `isDark` and `isLight` getters.

Both apply the same rules:
- The initial theme is the stored value when it is non-empty. Otherwise it is the operating system's colour-scheme preference. Outside a browser it is `light`.
- Setting the theme updates memory, the DOM and storage together.
- A colour-scheme notification is ignored while a non-empty preference is on record.
- A storage notification from another tab is adopted into memory and the DOM, and storage is not written.

Files:
- `rules.dfy` (module `ThemeRules`): the constants, the capability record `Env`, and the shared pure rules. These are `SystemTheme`, `SavedTheme`, `Toggled`, `Persist`, `BodyMarker` and `RootMarker`. It also holds the `Event` datatype of a session.
- `environment.dfy` (module `Environment`): the class `Browser`. Its fields are the capability flags (`hasWindow`, `hasDocument`), the system preference, local storage (a `map<string, string>`), the body attribute and the root class set.
- `composable.dfy` (module `Composable`): the class `UseTheme`, with fields `theme` and `isDark`. Each method that changes state, `ApplyTheme` included, is proved against an `After…` function on a value snapshot `State`. The read-only `GetSystemTheme` and `GetSavedTheme` are proved against `SystemTheme` and `SavedTheme`. A session is modelled as `Run` over a sequence of `Event`s. The lemmas about sessions prove the invariant `Synced` is kept. `Synced` says that `isDark` (composable) and the DOM markers agree with `theme`, and that in a browser some non-empty record is on file. It does not say that the record equals `theme`: after a storage notification the local record is left as it was.
- `store.dfy` (module `Store`): the same for the class `ThemeStore`.

Theme values are `string`s, because neither implementation validates what it reads. A stored or received `"blue"` becomes the theme as it is. The public `setTheme` of a session takes a `ThemeName` (`"light"` or `"dark"`), because the TypeScript type `Theme` demands that of callers.

Two details of the code matter:
- Stored values are not validated: any non-empty string is used (`saved || getSystemTheme()`, src/composables/useTheme.ts:36).
- An empty stored string counts as no preference, both in `getSavedTheme` (src/composables/useTheme.ts:36) and in `handleChange` (src/composables/useTheme.ts:106-107).

## Model

| member | source | states |
|---|---|---|
| ThemeRules.SchemeTheme | src/composables/useTheme.ts:108 | a colour-scheme notification selects dark exactly when it matches |
| ThemeRules.SystemTheme | src/composables/useTheme.ts:21-27 | the system theme is light or dark. It is dark exactly when a window exists and the system prefers dark |
| ThemeRules.SavedTheme | src/composables/useTheme.ts:32-37 | never empty. Light without a window. A non-empty stored string is returned as it is, unvalidated. With no record or an empty one, the result is dark exactly when the system prefers dark |
| ThemeRules.Toggled | src/composables/useTheme.ts:69-72 | the result is a valid theme. It differs from a valid input, and it is light for any unvalidated input |
| ThemeRules.Persist | src/composables/useTheme.ts:61-63 | with a window the stored record becomes `t` and no other key changes. Without a window storage is untouched |
| ThemeRules.BodyMarker | src/composables/useTheme.ts:42-50 | with a document the `data-theme` attribute is present, with value dark, exactly for the dark theme. Without a document it is untouched |
| ThemeRules.RootMarker | src/stores/useTheme.ts:48-58 | with a document the root has the `dark` class exactly for the dark theme, and other classes are kept. Without a document it is untouched |
| ThemeRules.ToggledTwice | src/composables/useTheme.ts:69-72 | toggling twice from light or dark restores it |
| ThemeRules.MarkersIdempotent | src/composables/useTheme.ts:42-50 | applying a theme to the DOM twice equals applying it once |
| Composable.AfterApplyTheme | src/composables/useTheme.ts:42-50 | only the body attribute changes. With a document it is present, with value dark, exactly for the dark theme. Without a document nothing changes |
| Composable.AfterSetTheme | src/composables/useTheme.ts:55-64 | after `setTheme(t)`, `theme == t` and `isDark == (t == dark)`. The body attribute is present iff `t` is dark, or untouched without a document. The record equals `t` with a window, and storage is untouched without one |
| Composable.AfterToggle | src/composables/useTheme.ts:69-72 | the new theme is valid, shown in `isDark` and the body attribute, and recorded. It is the other theme from a valid one, and light from an unvalidated value |
| Composable.AfterUseSystemTheme | src/composables/useTheme.ts:91-94 | adopts the system preference (dark iff a window exists and it prefers dark), shows it in `isDark` and the body attribute, and records it |
| Composable.AfterSchemeChange | src/composables/useTheme.ts:104-110 | a no-op while the record is non-empty. Otherwise exactly `setTheme` of the notified scheme |
| Composable.AfterStorageEvent | src/composables/useTheme.ts:130-137 | never changes storage. For the theme key with a non-empty value it sets `theme`, `isDark` and the body attribute from that value. Otherwise nothing changes |
| Composable.AfterMount | src/composables/useTheme.ts:146-148 | the mounted theme is the stored non-empty value, else the system preference, else light. Afterwards the state is `Synced`, so in a browser a non-empty record exists |
| Composable.AfterWatcher | src/composables/useTheme.ts:166-168 | makes `isDark` agree with `theme`, and changes nothing when it already does |
| Composable.StepKeepsSynced | src/composables/useTheme.ts:55-137 | every action and notification keeps `isDark` and the body attribute in step with `theme`, and a non-empty record on file |
| Composable.RunKeepsSynced | src/composables/useTheme.ts:55-168 | any sequence of events keeps a synced composable synced |
| Composable.SchemeChangeIgnoredAfterMount | src/composables/useTheme.ts:104-148 | after mounting in a browser, and after any later events, a colour-scheme notification changes nothing |
| Composable.ToggleTwiceRestores | src/composables/useTheme.ts:69-72 | two toggles from light or dark restore the theme |
| Composable.SchemeChangeIgnoredAfterUseSystem | src/composables/useTheme.ts:91-110 | after `useSystemTheme` in a browser, colour-scheme notifications are ignored |
| Composable.ManualChoiceWins | src/composables/useTheme.ts:104-110 | with no record and a dark system, mounting picks dark. After choosing light, light is recorded and a dark notification is ignored |
| Composable.AfterThemeAssigned | src/composables/useTheme.ts:172 | a direct write to the returned `theme` ref changes only `theme`. `isDark`, the body attribute and storage keep their values |
| Composable.AssignedThenWatched | src/composables/useTheme.ts:166-168 | after a direct write and the watcher, `isDark` follows the new value, but the body attribute and storage are as before |
| Composable.AssignedDarkStaysUnshown | src/composables/useTheme.ts:166-168 | mounted light in a browser, then `theme` written to dark and the watcher run: `isDark` holds, but the body attribute is absent and the record still says light, so the state is not synced |
| Composable.AfterDarkAssigned | src/composables/useTheme.ts:173 | a direct write to the returned `isDark` ref changes only `isDark`. From a coherent state the result is coherent exactly when the written value is the old one |
| Composable.DarkAssignedBreaksSync | src/composables/useTheme.ts:166-173 | mounted light in a browser, then `isDark` written to true: `theme`, the body attribute and the record still say light, so the state is not synced |
| Composable.UseTheme.constructor | src/composables/useTheme.ts:15-16 | starts at light with `isDark` false |
| Composable.UseTheme.GetSystemTheme | src/composables/useTheme.ts:21-27 | returns `SystemTheme` of the browser |
| Composable.UseTheme.GetSavedTheme | src/composables/useTheme.ts:32-37 | returns `SavedTheme` of the browser and its stored record |
| Composable.UseTheme.ApplyTheme | src/composables/useTheme.ts:42-50 | the new state is `AfterApplyTheme` of the old. Only the body attribute is in its frame |
| Composable.UseTheme.SetTheme | src/composables/useTheme.ts:55-64 | the new refs, storage and attribute are `AfterSetTheme` of the old ones. The system preference and root classes are not touched |
| Composable.UseTheme.ToggleTheme | src/composables/useTheme.ts:69-72 | the new state is `AfterToggle` of the old |
| Composable.UseTheme.SetLightTheme | src/composables/useTheme.ts:77-79 | equals `setTheme('light')` |
| Composable.UseTheme.SetDarkTheme | src/composables/useTheme.ts:84-86 | equals `setTheme('dark')` |
| Composable.UseTheme.UseSystemTheme | src/composables/useTheme.ts:91-94 | the new state is `AfterUseSystemTheme` of the old |
| Composable.UseTheme.HandleChange | src/composables/useTheme.ts:104-110 | the new state is `AfterSchemeChange` of the old |
| Composable.UseTheme.HandleStorageChange | src/composables/useTheme.ts:130-137 | the new state is `AfterStorageEvent` of the old. Storage is outside its frame |
| Composable.UseTheme.Mount | src/composables/useTheme.ts:146-148 | the new state is `AfterMount` of the old, and it is synced |
| Composable.UseTheme.ThemeWatcher | src/composables/useTheme.ts:166-168 | the new state is `AfterWatcher` of the old |
| Composable.UseTheme.AssignTheme | src/composables/useTheme.ts:172 | the new state is `AfterThemeAssigned` of the old |
| Composable.UseTheme.AssignIsDark | src/composables/useTheme.ts:173 | the new state is `AfterDarkAssigned` of the old |
| Store.AfterApplyTheme | src/stores/useTheme.ts:48-58 | with a document the two markers agree and show `t`, the body attribute's value is dark, and other root classes are kept. Without a document nothing changes |
| Store.AfterSetTheme | src/stores/useTheme.ts:63-71 | after `setTheme(t)`, `theme == t` and both markers show `t` (untouched without a document). The record equals `t` with a window, and storage is untouched without one |
| Store.AfterToggle | src/stores/useTheme.ts:76-79 | the new theme is valid, shown and recorded. It is the other theme from a valid one, and light from an unvalidated value |
| Store.AfterUseSystemTheme | src/stores/useTheme.ts:98-101 | adopts the system preference (dark iff a window exists and it prefers dark), shows it in both markers and records it |
| Store.AfterInitTheme | src/stores/useTheme.ts:106-108 | the theme is the stored non-empty value, else the system preference, else light. Afterwards the state is `Synced`, so in a browser a non-empty record exists |
| Store.AfterSchemeChange | src/stores/useTheme.ts:114-120 | a no-op while the record is non-empty. Otherwise exactly `setTheme` of the notified scheme |
| Store.AfterStorageEvent | src/stores/useTheme.ts:127-133 | never changes storage. For the theme key with a non-empty value it adopts the value into `theme` and both markers. Otherwise nothing changes |
| Store.AfterWatcher | src/stores/useTheme.ts:140-142 | leaves both markers showing `theme`, keeps the other root classes, theme and storage, and changes nothing when the markers already show it |
| Store.ShownMarkersAgree | src/stores/useTheme.ts:51-57 | when the DOM shows the theme, the body attribute and the root class agree |
| Store.StepKeepsSynced | src/stores/useTheme.ts:63-142 | every action and notification keeps both markers in step with `theme`, and a non-empty record on file |
| Store.RunKeepsSynced | src/stores/useTheme.ts:63-142 | any sequence of events keeps a synced store synced |
| Store.SchemeChangeIgnoredAfterInit | src/stores/useTheme.ts:106-120 | after `initTheme` in a browser, and after any later events, a colour-scheme notification changes nothing, and the markers agree |
| Store.ToggleTwiceRestores | src/stores/useTheme.ts:76-79 | two toggles from light or dark restore the theme |
| Store.ApplyThemeIdempotent | src/stores/useTheme.ts:48-58 | `applyTheme` twice equals once |
| Store.SchemeChangeIgnoredAfterUseSystem | src/stores/useTheme.ts:98-120 | after `useSystemTheme` in a browser, colour-scheme notifications are ignored |
| Store.FlagsOfTheme | src/stores/useTheme.ts:21-22 | `isDark` iff dark and `isLight` iff light. For a valid theme exactly one holds; for an unvalidated value neither does |
| Store.AfterThemeAssigned | src/stores/useTheme.ts:146 | a direct write to the store's `theme` changes only `theme`. The markers and storage keep their values |
| Store.AssignedThenWatched | src/stores/useTheme.ts:140-142 | after a direct write and the watcher, both markers show the new value, but storage is as before |
| Store.AssignedThenWatchedSynced | src/stores/useTheme.ts:140-142 | from a synced store, a direct write followed by the watcher leaves the store synced, because the old non-empty record stays on file |
| Store.AssignedDarkStaysUnrecorded | src/stores/useTheme.ts:140-142 | initialised light in a browser, then `theme` written to dark and the watcher run: both markers show dark, but the record still says light, although the state is `Synced` |
| Store.ThemeStore.IsDark | src/stores/useTheme.ts:21 | `isDark` holds exactly for the valid theme that is not light |
| Store.ThemeStore.IsLight | src/stores/useTheme.ts:22 | `isLight` holds exactly for the valid theme that is not dark |
| Store.ThemeStore.constructor | src/stores/useTheme.ts:18 | starts at light |
| Store.ThemeStore.GetSystemTheme | src/stores/useTheme.ts:27-33 | returns `SystemTheme` of the browser |
| Store.ThemeStore.GetSavedTheme | src/stores/useTheme.ts:38-43 | returns `SavedTheme` of the browser and its stored record |
| Store.ThemeStore.ApplyTheme | src/stores/useTheme.ts:48-58 | only the markers change, as `AfterApplyTheme` says |
| Store.ThemeStore.SetTheme | src/stores/useTheme.ts:63-71 | the new state is `AfterSetTheme` of the old. The system preference is not touched |
| Store.ThemeStore.ToggleTheme | src/stores/useTheme.ts:76-79 | the new state is `AfterToggle` of the old |
| Store.ThemeStore.SetLightTheme | src/stores/useTheme.ts:84-86 | equals `setTheme('light')` |
| Store.ThemeStore.SetDarkTheme | src/stores/useTheme.ts:91-93 | equals `setTheme('dark')` |
| Store.ThemeStore.UseSystemTheme | src/stores/useTheme.ts:98-101 | the new state is `AfterUseSystemTheme` of the old |
| Store.ThemeStore.InitTheme | src/stores/useTheme.ts:106-108 | the new state is `AfterInitTheme` of the old, and it is synced |
| Store.ThemeStore.HandleChange | src/stores/useTheme.ts:114-120 | the new state is `AfterSchemeChange` of the old |
| Store.ThemeStore.HandleStorageChange | src/stores/useTheme.ts:127-133 | the new state is `AfterStorageEvent` of the old. Storage is outside its frame |
| Store.ThemeStore.ThemeWatcher | src/stores/useTheme.ts:140-142 | the new state is `AfterWatcher` of the old. `theme` and storage are outside its frame |
| Store.ThemeStore.AssignTheme | src/stores/useTheme.ts:146 | the new state is `AfterThemeAssigned` of the old |

## Left out

- `src/main.ts` (creating and mounting the application, the stylesheet import) has nothing to specify.
- Vue and Pinia reactivity (`ref`, `computed`, `watch`, `onMounted`, `defineStore`) is not modelled. Refs are plain fields, getters are functions, and each watcher is a method or a `WatcherRuns` event that may occur at any point. When a watcher fires (Vue schedules it asynchronously) is not modelled.
- Registering and removing listeners is not modelled. This covers `addEventListener`/`removeEventListener`, the legacy `addListener` branch at src/composables/useTheme.ts:113-121, and the cleanup closure at src/composables/useTheme.ts:157-160. Each handler is a method called with its notification's payload. It requires a window, because it is only registered when one exists; a session never delivers notifications without a window.
- The browser APIs (`matchMedia`, `localStorage`, `document.body`, `document.documentElement`) are foreign calls. They are replaced by the fields of `Browser`. Storage access is assumed never to throw. In a browser `getItem` and `setItem` can throw, for example `SecurityError` when storage is blocked or `QuotaExceededError` when it is full, and the source has no `try`/`catch`. If `setItem` (src/composables/useTheme.ts:62) throws, `setTheme` has already updated memory and the DOM but leaves no record. A throw during mount (src/composables/useTheme.ts:147-148) also skips registering the listeners. `AfterMount`, `AfterInitTheme`, `Synced` and the lemmas that colour-scheme notifications are ignored after start-up all rest on this assumption. `document.body` is taken to exist whenever `document` does.
- Other tabs are not modelled: not their writes to the shared storage, and not the browser firing `storage` events. Only this tab's reaction to a delivered event is modelled. Every write the application itself makes is non-empty, so such writes would not falsify `Recorded`; a `removeItem` or `clear` from elsewhere would, and is outside the model.
- Changes of the operating system's preference itself are not modelled. `prefersDark` is read by the model but no operation changes it. A notification carries its own `matches` value.
- A session (`Event`, `Run`) does not contain direct writes to the exported `theme` ref, so `RunKeepsSynced` covers only the actions and notifications. Such a write is modelled on its own (`AfterThemeAssigned`, `AssignTheme`). The composable's watcher leaves the body attribute and the record behind, so the state is not `Synced` (`AssignedDarkStaysUnshown`). The store's watcher restores `Synced` (`AssignedThenWatchedSynced`), but the record keeps the old value, which `Synced` does not look at (`AssignedDarkStaysUnrecorded`). Within a session every watcher run is a no-op.
- A session does not contain direct writes to the composable's exported `isDark` ref either. Such a write is modelled on its own (`AfterDarkAssigned`, `AssignIsDark`) and breaks `Synced` (`DarkAssignedBreaksSync`). The real watcher at src/composables/useTheme.ts:166-168 runs only after `theme` changes, so it does not repair the write. A session's `WatcherRuns` may occur at any point, but inside a session it is always a no-op, so this over-approximation proves nothing that the real watcher would not do.
- A page is taken to hold one theme holder: a single `useTheme()` instance, or the store, not both. Each call of `useTheme()` (src/composables/useTheme.ts:13-16) creates fresh refs over the same storage and body, and a tab receives no `storage` event for its own writes. So an action of a second instance leaves the first instance's `theme`/`isDark` disagreeing with the shared DOM and record. A second instance's actions are outside `Event`, and `RunKeepsSynced` does not cover them.
- The store's `initTheme` is exported and may be called again. A session starts after one `initTheme` and holds no further calls. A repeated call keeps `Synced` (`AfterInitTheme` ensures it), but it registers the listeners a second time, and duplicate listeners are not modelled.
- The body's `data-theme` attribute is the only body attribute modelled, and local storage holds strings only.
