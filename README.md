# Theme preference provider, modelled in Dafny

The site keeps one piece of logic with real behaviour: the theme provider. It holds a
three-way preference (`light`, `dark`, `system`), a two-way displayed value
(`resolvedTheme`, `light` or `dark`) and a `mounted` flag. On mount it loads the
preference from localStorage key `"theme"`, accepting only the three tags. Once mounted
it resolves the preference (`system` follows the environment's prefers-dark query),
writes the result to the document's `data-theme` attribute and, while the preference is
`system`, keeps one listener on the query's change event. `setTheme` persists every
choice; `toggleTheme` swaps light and dark and escapes `system` to the opposite of what
is shown. `useTheme` throws outside a provider.

The repository holds this provider three times:

- `src/components/theme/ThemeProvider.tsx` (typed)
- `components/ThemeProvider.tsx` (typed; the same code, 4 lines earlier throughout,
  and the stored string is cast to the union before it is validated, which changes
  nothing at run time)
- `src/components/theme/ThemeProvider.jsx` (untyped: `setTheme` takes any value)

Files and modules:

- `themes.dfy`, module `Themes`: the preference and displayed-value types and the pure
  decisions (validating the stored string, resolving, choosing the toggle target).
- `machine.dfy`, module `ThemeMachine`: the typed provider as a state machine over a
  `Snapshot` value holding the React state plus the browser state it touches
  (localStorage as a map, the prefers-dark signal as a boolean, the attribute as an
  option, registered listeners and attribute writes as counters). Each event is one
  function. React's effects run explicitly: the resolve effect, whose dependencies are
  `[theme, mounted]`, runs again after its cleanup exactly when one of them changed.
  The lemmas about event sequences live here.
- `provider.dfy`, module `Provider`: the typed provider as a class whose fields are that
  state. Each method is proved to move the object as the matching `ThemeMachine`
  function moves a snapshot. It also holds `useTheme`.
- `machine_js.dfy`, module `MachineJs`: the untyped copy over strings. `RunAgrees` proves
  that any typed session, replayed with every value replaced by its tag, passes through
  the same states. So the two typed copies are the untyped one restricted to valid tags.
- `provider_js.dfy`, module `ProviderJs`: the untyped copy as a class.
- `wrappers.dfy`: `Option` and `Result`.

Both typed copies are covered by the same modules. The table below cites whichever copy
a row was checked against; the other copy has the same code 4 lines away.

Three behaviours of the code worth noting:

- `mounted` is set before the stored value is read, and the listener and resolution wait
  for it.
- The resolve effect is not re-run when `setTheme` is given the current preference, so
  no attribute write happens then.
- The untyped copy stores and shows any string it is given, not only the three tags.

## Model

| member | source | states |
|---|---|---|
| Themes.Tag | src/components/theme/ThemeProvider.tsx:5 | every preference is stored as one of the three accepted tags |
| Themes.TagInjective | src/components/theme/ThemeProvider.tsx:5 | two preferences share a tag only if they are the same preference |
| Themes.ParseStored | src/components/theme/ThemeProvider.tsx:28-31 | the stored value is accepted exactly when present and one of the three tags (absent, empty and other strings are refused); an accepted value is the preference with that tag |
| Themes.ParseStoredTag | src/components/theme/ThemeProvider.tsx:28-31 | a stored tag is validated back to its own preference |
| Themes.MediaTheme | src/components/theme/ThemeProvider.tsx:57 | the query's value means dark exactly when it matches |
| Themes.Resolve | src/components/theme/ThemeProvider.tsx:37-44 | light and dark resolve to themselves; system resolves to dark exactly when prefers-dark matches |
| Themes.ResolveDependsOnSignalIffSystem | src/components/theme/ThemeProvider.tsx:37-44 | the signal changes the resolved value if and only if the preference is system |
| Themes.Opposite | src/components/theme/ThemeProvider.tsx:79 | the opposite displayed value differs from the given one |
| Themes.ToggleTarget | src/components/theme/ThemeProvider.tsx:72-81 | light goes to dark, dark to light, system to the opposite of the displayed value; the result is never system |
| Themes.ToggleFlipsDisplay | src/components/theme/ThemeProvider.tsx:72-81 | when the displayed value is the resolution of the preference, the toggle target shows the other value under any later signal |
| Themes.ToggleTwice | src/components/theme/ThemeProvider.tsx:72-81 | toggling light or dark twice gives it back, whatever is displayed in between |
| ThemeMachine.Init | src/components/theme/ThemeProvider.tsx:21-23 | the first render has preference system, is not mounted, has written nothing and registered no listener, over the given storage and signal |
| ThemeMachine.ResolveEffect | src/components/theme/ThemeProvider.tsx:34-64 | before mount the effect changes nothing; after mount it sets resolved to the preference's resolution, writes it to the attribute once and adds a listener exactly for system; preference, storage and signal are kept; run with no listener left, it establishes the invariant |
| ThemeMachine.Cleanup | src/components/theme/ThemeProvider.tsx:63 | the cleanup only removes listeners, and removes the one the previous run registered, leaving none |
| ThemeMachine.Rerender | src/components/theme/ThemeProvider.tsx:65 | the commit keeps the updated preference, mounted flag, storage and signal; with theme and mounted unchanged the effect does not re-run; an update that touches neither the effect's outputs nor the signal and never unmounts keeps the invariant |
| ThemeMachine.Mount | src/components/theme/ThemeProvider.tsx:25-32 | after mount the provider is mounted, storage and signal are kept, a stored valid tag has become the preference and anything else leaves the preference as it was; the invariant is kept |
| ThemeMachine.SetTheme | src/components/theme/ThemeProvider.tsx:67-70 | setTheme(next) makes next the preference and stores its tag under "theme", keeps mounted and the signal and the invariant; setting the current preference writes nothing, setting another one after mount writes once |
| ThemeMachine.Toggle | src/components/theme/ThemeProvider.tsx:72-81 | a toggle sets and stores the toggle target, which is never system, and keeps mounted, the signal and the invariant |
| ThemeMachine.SignalChange | src/components/theme/ThemeProvider.tsx:56-60 | the signal takes the new value; preference, storage, mounted and listeners are kept; without a change or a listener nothing is shown or written; with both, resolved and the attribute become the media value with one write per listener; the invariant is kept |
| ThemeMachine.InitInv | src/components/theme/ThemeProvider.tsx:21-23 | the first render (system, light, not mounted) satisfies the provider invariant |
| ThemeMachine.StepPreservesInv | src/components/theme/ThemeProvider.tsx:25-81 | mount, setTheme, toggleTheme and signal changes each keep the invariant: after mount, resolved equals the preference's resolution and the attribute equals resolved; one listener exactly while mounted and system |
| ThemeMachine.RunPreservesInv | src/components/theme/ThemeProvider.tsx:34-65 | every sequence of events keeps the invariant |
| ThemeMachine.Reachable | src/components/theme/ThemeProvider.tsx:53-64 | from the first render, at most one listener is ever registered, exactly while mounted with preference system; after mount the attribute always equals the resolved value |
| ThemeMachine.BeforeMountNothingResolved | src/components/theme/ThemeProvider.tsx:21-35 | until mount, whatever else happens, resolved stays light, the attribute is never written and no listener exists |
| ThemeMachine.MountLoads | components/ThemeProvider.tsx:21-28 | mount adopts a stored valid tag; an absent or any other stored value leaves system; the result is resolved and written at once; storage is unchanged |
| ThemeMachine.SetThemePersists | src/components/theme/ThemeProvider.tsx:67-70 | setTheme(x) makes x the preference and stores its tag under "theme", leaving other keys alone; after mount it is resolved and written |
| ThemeMachine.SetThemeThenReload | components/ThemeProvider.tsx:63-66 | after setTheme(x), a fresh provider over the same storage mounts with preference x, resolved and written |
| ThemeMachine.SyncedPersists | src/components/theme/ThemeProvider.tsx:67-70 | once storage holds the current preference's tag, every later event keeps storage and preference in step |
| ThemeMachine.ReloadRestoresLastChoice | src/components/theme/ThemeProvider.tsx:25-32 | after any session containing a setTheme, a reload restores the preference the session ended with |
| ThemeMachine.SignalKeepsPreference | components/ThemeProvider.tsx:52-56 | a signal change never changes the preference, storage, mounted flag or listeners |
| ThemeMachine.SignalWhileSystem | src/components/theme/ThemeProvider.tsx:53-64 | mounted with system, a signal flip flips the resolved value and writes the attribute exactly once |
| ThemeMachine.SignalIgnoredWhenExplicit | src/components/theme/ThemeProvider.tsx:53-64 | with light or dark, a signal change writes nothing and leaves resolved and the attribute |
| ThemeMachine.ToggleFlips | src/components/theme/ThemeProvider.tsx:72-81 | after mount, a toggle leaves an explicit preference, flips the displayed value and the attribute with one write, and leaves no listener |
| ThemeMachine.ToggleTwice | components/ThemeProvider.tsx:68-77 | after mount, two toggles restore the displayed value; from light or dark they restore the preference, from system they pin the value shown at the first toggle |
| ThemeMachine.ToggleBeforeMount | components/ThemeProvider.tsx:68-77 | before mount a toggle from system always chooses dark (resolved is still the initial light), whatever the signal, and writes nothing to the attribute |
| Provider.UseTheme | components/ThemeProvider.tsx:95-101 | useTheme fails with the missing-provider message exactly when there is no provider, and otherwise returns the provider's value |
| Provider.ThemeProvider.constructor | src/components/theme/ThemeProvider.tsx:21-23 | the object starts in the first-render state, with the invariant |
| Provider.ThemeProvider.Context | src/components/theme/ThemeProvider.tsx:85-90 | the context carries the provider's own preference and resolved value; on a valid provider the resolved value is the resolution of the preference after mount and light before it |
| Provider.ThemeProvider.ResolveEffect | src/components/theme/ThemeProvider.tsx:34-64 | the effect body updates the object as the machine's resolve effect |
| Provider.ThemeProvider.Commit | src/components/theme/ThemeProvider.tsx:65 | the effect re-runs, after its cleanup, only when theme or mounted changed |
| Provider.ThemeProvider.Mount | src/components/theme/ThemeProvider.tsx:25-32 | the mount effect moves the object as the machine's Mount and keeps the invariant |
| Provider.ThemeProvider.SetTheme | src/components/theme/ThemeProvider.tsx:67-70 | setTheme moves the object as the machine's SetTheme and keeps the invariant |
| Provider.ThemeProvider.ToggleTheme | src/components/theme/ThemeProvider.tsx:72-81 | toggleTheme moves the object as the machine's Toggle and keeps the invariant |
| Provider.ThemeProvider.SignalChange | src/components/theme/ThemeProvider.tsx:56-60 | the change handler moves the object as the machine's SignalChange and keeps the invariant |
| Provider.ListenerLifecycle | src/components/theme/ThemeProvider.tsx:53-64 | on a running provider, a flip with system writes once; after setTheme(Dark) a flip writes nothing and the preference stays dark |
| MachineJs.MediaTheme | src/components/theme/ThemeProvider.jsx:44 | the handler's value is "dark" exactly when the query matches, else "light" |
| MachineJs.Resolve | src/components/theme/ThemeProvider.jsx:24-31 | "system" follows the signal; every other value is returned unchanged |
| MachineJs.ToggleTarget | src/components/theme/ThemeProvider.jsx:59-68 | light and dark swap; every other value goes to dark exactly when resolved is "light"; the result is always light or dark |
| MachineJs.Load | src/components/theme/ThemeProvider.jsx:15-18 | the stored string is kept exactly when it is one of the three tags |
| MachineJs.AgreesWithTyped | src/components/theme/ThemeProvider.jsx:12-68 | on tags, untyped resolution, toggle target and load agree with the typed ones |
| MachineJs.Init | src/components/theme/ThemeProvider.jsx:8-10 | the first render has preference "system", is not mounted, has written nothing and registered no listener |
| MachineJs.ResolveEffect | src/components/theme/ThemeProvider.jsx:21-51 | before mount the effect changes nothing; after mount it shows the preference's resolution, writes it once and adds a listener exactly for "system"; run with no listener left, it establishes the invariant |
| MachineJs.Cleanup | src/components/theme/ThemeProvider.jsx:50 | the cleanup only removes listeners, and removes the one the previous run registered, leaving none |
| MachineJs.Rerender | src/components/theme/ThemeProvider.jsx:52 | the commit keeps the updated preference, mounted flag, storage and signal; with theme and mounted unchanged the effect does not re-run; an update that touches neither the effect's outputs nor the signal and never unmounts keeps the invariant |
| MachineJs.Mount | src/components/theme/ThemeProvider.jsx:12-19 | after mount the provider is mounted, a stored string is adopted exactly when it is one of the tags, storage and signal are kept, and the invariant is kept |
| MachineJs.SetTheme | src/components/theme/ThemeProvider.jsx:54-57 | setTheme with any string makes it the preference and stores it verbatim under "theme", keeps mounted, the signal and the invariant; the current preference writes nothing, another one after mount writes once |
| MachineJs.Toggle | src/components/theme/ThemeProvider.jsx:59-68 | a toggle sets and stores the toggle target, always light or dark, and keeps the invariant |
| MachineJs.SignalChange | src/components/theme/ThemeProvider.jsx:43-47 | the signal takes the new value and the preference, storage, mounted and listeners are kept; the display changes only with a change and a listener, then to the media value with one write per listener; the invariant is kept |
| MachineJs.StepPreservesInv | src/components/theme/ThemeProvider.jsx:21-57 | each event, setTheme with any string included, keeps the invariant |
| MachineJs.RunPreservesInv | src/components/theme/ThemeProvider.jsx:40-51 | for any strings given to setTheme: at most one listener, exactly while mounted with "system"; after mount the attribute equals resolved |
| MachineJs.SetInvalidTheme | src/components/theme/ThemeProvider.jsx:54-57 | a value outside the tags becomes the preference and, once mounted, the resolved value and attribute, with no listener; it is stored verbatim, but a reload falls back to system |
| MachineJs.ToggleFromInvalid | src/components/theme/ThemeProvider.jsx:64-67 | from a preference outside the tags, a toggle after mount lands on light |
| MachineJs.SetThemeThenReload | src/components/theme/ThemeProvider.jsx:54-57 | a valid tag round-trips through setTheme and a reload |
| MachineJs.ResolveEffectAgrees | src/components/theme/ThemeProvider.jsx:21-51 | the untyped resolve effect on the tags of a typed state gives the tags of the typed result |
| MachineJs.RerenderAgrees | src/components/theme/ThemeProvider.jsx:52 | comparing dependencies and re-running the effect commute with replacing values by tags |
| MachineJs.SetThemeAgrees | src/components/theme/ThemeProvider.jsx:54-57 | untyped setTheme of a tag matches typed setTheme |
| MachineJs.MountAgrees | src/components/theme/ThemeProvider.jsx:12-19 | untyped mount matches typed mount |
| MachineJs.StepAgrees | src/components/theme/ThemeProvider.jsx:12-68 | each typed event and its untyped counterpart lead to corresponding states |
| MachineJs.RunAgrees | src/components/theme/ThemeProvider.jsx:8-68 | any typed session, replayed on the untyped copy, passes through the same states |
| ProviderJs.ThemeProvider.constructor | src/components/theme/ThemeProvider.jsx:8-10 | the object starts as "system", "light", not mounted, with the invariant |
| ProviderJs.ThemeProvider.ResolveEffect | src/components/theme/ThemeProvider.jsx:21-51 | the effect body updates the object as the untyped machine's resolve effect |
| ProviderJs.ThemeProvider.Commit | src/components/theme/ThemeProvider.jsx:52 | the effect re-runs, after its cleanup, only when theme or mounted changed |
| ProviderJs.ThemeProvider.Mount | src/components/theme/ThemeProvider.jsx:12-19 | the mount effect moves the object as the untyped Mount and keeps the invariant |
| ProviderJs.ThemeProvider.SetTheme | src/components/theme/ThemeProvider.jsx:54-57 | setTheme with any string moves the object as the untyped SetTheme and keeps the invariant |
| ProviderJs.ThemeProvider.ToggleTheme | src/components/theme/ThemeProvider.jsx:59-68 | toggleTheme moves the object as the untyped Toggle and keeps the invariant |
| ProviderJs.ThemeProvider.SignalChange | src/components/theme/ThemeProvider.jsx:43-47 | the change handler moves the object as the untyped SignalChange and keeps the invariant |

## Left out

- React itself is not modelled: context creation and lookup, the provider's JSX,
  re-render scheduling, batching and hydration. Effects are explicit steps. A state
  update and the commit after it are one step, and the mount is the first commit
  together with the re-render it causes.
- Event handlers that read state from a stale render are not modelled. Each handler sees
  the latest state.
- Development-mode double runs of effects are not modelled.
- `window.matchMedia`, `localStorage` and `document.documentElement` are foreign browser
  APIs. They appear as a boolean, a string map and an option field.
- Exceptions that storage access can throw are not modelled.
- ThemeMachine.ReloadRestoresLastChoice: localStorage is written only by this provider;
  writes from other tabs or scripts of the same origin are not modelled, and the source
  does not listen for them. The reload round trip (and `ThemeMachine.SyncedPersists`,
  `ThemeMachine.SetThemeThenReload`, `MachineJs.SetThemeThenReload`) holds only when
  this provider is the only writer of the "theme" key.
- Unmounting the provider is not modelled: the cleanup also runs then and removes the
  listener, but no event removes the provider.
- The event sequences allow the mount event any number of times and at any position,
  although the mount effect runs once per provider. The lemmas over sequences therefore
  cover every real session and more; the invariants hold on all of them.
- What the `data-theme` attribute held before the provider first wrote it is not
  modelled.
- Provider.ThemeProvider.SignalChange: the change event fires only when the query's
  value actually changes. All handlers registered on it run as one step; the model does
  not order them.
- MachineJs.SetTheme: the untyped `setTheme` is modelled on strings only. Non-string
  values (numbers, `undefined`, objects) and the string conversion `localStorage`
  applies to them are not modelled.
- `useTheme` of the untyped copy is the same as the typed one (`Provider.UseTheme`) and
  is not modelled separately.
- The theme toggle's dropdown, the landing page, header, footer, icons, example
  consumers and the auth pages are not part of this model. They are markup or call only
  `setTheme` and `toggleTheme`.
