/**
  The typed provider as a state machine over values. A Snapshot is everything the
  provider and the browser around it hold; each function below is one thing that can
  happen to it (the mount, a `setTheme` call, a `toggleTheme` call, a change of the
  environment's colour-scheme signal), with React's effects run explicitly in order.
  The class in module Provider is proved against these functions, and the lemmas here
  state what the provider promises about every sequence of such events.
*/
module ThemeMachine {
  import opened Wrappers
  import opened Themes

  /**
    The provider's three pieces of React state, and the browser state it reads and
    writes: localStorage, the prefers-dark signal, the `data-theme` attribute it last
    wrote (None until it writes one), the change listeners registered on the media
    query, and how many times the attribute has been written.
  */
  datatype Snapshot = Snapshot(
    theme: Theme,
    resolvedTheme: ResolvedTheme,
    mounted: bool,
    storage: map<string, string>,
    prefersDark: bool,
    dataTheme: Option<ResolvedTheme>,
    listeners: nat,
    attributeWrites: nat)

  /**
    The first render: `useState('system')`, `useState('light')`, `useState(false)`. The
    resolve effect of that render returns early (not mounted) and leaves no cleanup.
  */
  function Init(storage: map<string, string>, prefersDark: bool): (r: Snapshot)
    ensures r.theme == System && !r.mounted && r.storage == storage && r.prefersDark == prefersDark
    ensures r.dataTheme == None && r.listeners == 0 && r.attributeWrites == 0
  {
    Snapshot(System, Light, false, storage, prefersDark, None, 0, 0)
  }

  /** `localStorage.getItem('theme')`: null when the key is absent. */
  function Stored(storage: map<string, string>): Option<string>
  {
    if StorageKey in storage then Some(storage[StorageKey]) else None
  }

  /** The last run of the resolve effect, for the current dependencies, registered a listener. */
  predicate Subscribed(s: Snapshot)
  {
    s.mounted && s.theme == System
  }

  /**
    The body of the resolve effect: nothing before mount; otherwise resolve, store the
    result as `resolvedTheme`, write it to `data-theme`, and register a change listener
    when the preference is 'system'.
  */
  function ResolveEffect(s: Snapshot): (r: Snapshot)
    ensures r.theme == s.theme && r.mounted == s.mounted && r.storage == s.storage && r.prefersDark == s.prefersDark
    ensures !s.mounted ==> r == s
    ensures s.mounted ==> && r.resolvedTheme == Resolve(s.theme, s.prefersDark)
                          && r.dataTheme == Some(r.resolvedTheme)
                          && r.attributeWrites == s.attributeWrites + 1
                          && r.listeners == s.listeners + (if s.theme == System then 1 else 0)
    ensures s.mounted && s.listeners == 0 ==> Inv(r)
  {
    if !s.mounted then s
    else
      var resolved := Resolve(s.theme, s.prefersDark);
      s.(resolvedTheme := resolved,
         dataTheme := Some(resolved),
         attributeWrites := s.attributeWrites + 1,
         listeners := if s.theme == System then s.listeners + 1 else s.listeners)
  }

  /** The cleanup the previous run of the resolve effect returned, if it returned one. */
  function Cleanup(prev: Snapshot, s: Snapshot): (r: Snapshot)
    ensures r == s.(listeners := r.listeners) && r.listeners <= s.listeners
    ensures Inv(prev) && s.listeners == prev.listeners ==> r.listeners == 0
  {
    if Subscribed(prev) && s.listeners > 0 then s.(listeners := s.listeners - 1) else s
  }

  /**
    A state update followed by React's commit: the resolve effect, whose dependencies
    are `[theme, mounted]`, runs again (after its cleanup) only when one of them changed.
  */
  function Rerender(prev: Snapshot, next: Snapshot): (r: Snapshot)
    ensures r.theme == next.theme && r.mounted == next.mounted && r.storage == next.storage && r.prefersDark == next.prefersDark
    ensures next.theme == prev.theme && next.mounted == prev.mounted ==> r == next
    ensures Inv(prev) && (prev.mounted ==> next.mounted) && next.prefersDark == prev.prefersDark
            && next.resolvedTheme == prev.resolvedTheme && next.dataTheme == prev.dataTheme
            && next.listeners == prev.listeners && next.attributeWrites == prev.attributeWrites
            ==> Inv(r)
  {
    if next.theme == prev.theme && next.mounted == prev.mounted then next
    else ResolveEffect(Cleanup(prev, next))
  }

  /** The mount effect: set `mounted`, adopt the stored preference if it is valid, then commit. */
  function Mount(s: Snapshot): (r: Snapshot)
    ensures r.mounted && r.storage == s.storage && r.prefersDark == s.prefersDark
    ensures var saved := Stored(s.storage);
      && (saved.Some? && saved.value in ValidTags ==> Tag(r.theme) == saved.value)
      && (saved.None? || saved.value !in ValidTags ==> r.theme == s.theme)
    ensures Inv(s) ==> Inv(r)
  {
    var loaded := ParseStored(Stored(s.storage));
    Rerender(s, s.(mounted := true, theme := if loaded.Some? then loaded.value else s.theme))
  }

  /** `setTheme(next)`: update the preference and persist its tag under "theme", then commit. */
  function SetTheme(s: Snapshot, next: Theme): (r: Snapshot)
    ensures r.theme == next && r.storage == s.storage[StorageKey := Tag(next)]
    ensures r.mounted == s.mounted && r.prefersDark == s.prefersDark
    ensures Inv(s) ==> Inv(r)
    ensures next == s.theme ==> r.resolvedTheme == s.resolvedTheme && r.attributeWrites == s.attributeWrites
    ensures Inv(s) && s.mounted && next != s.theme ==> r.attributeWrites == s.attributeWrites + 1
  {
    Rerender(s, s.(theme := next, storage := s.storage[StorageKey := Tag(next)]))
  }

  /** `toggleTheme()`: `setTheme` with the toggle target of the current state. */
  function Toggle(s: Snapshot): (r: Snapshot)
    ensures r.theme != System && r.theme == ToggleTarget(s.theme, s.resolvedTheme)
    ensures r.storage == s.storage[StorageKey := Tag(r.theme)]
    ensures r.mounted == s.mounted && r.prefersDark == s.prefersDark
    ensures Inv(s) ==> Inv(r)
  {
    SetTheme(s, ToggleTarget(s.theme, s.resolvedTheme))
  }

  /**
    The environment's prefers-dark signal becomes `matches`. The media query fires
    'change' only when its value actually changes; each registered listener then
    sets `resolvedTheme` and writes `data-theme`. The preference is never touched.
  */
  function SignalChange(s: Snapshot, matches: bool): (r: Snapshot)
    ensures r.prefersDark == matches
    ensures r.theme == s.theme && r.storage == s.storage && r.mounted == s.mounted && r.listeners == s.listeners
    ensures matches == s.prefersDark || s.listeners == 0 ==>
      r.resolvedTheme == s.resolvedTheme && r.dataTheme == s.dataTheme && r.attributeWrites == s.attributeWrites
    ensures matches != s.prefersDark && s.listeners > 0 ==>
      && r.resolvedTheme == MediaTheme(matches)
      && r.dataTheme == Some(r.resolvedTheme)
      && r.attributeWrites == s.attributeWrites + s.listeners
    ensures Inv(s) ==> Inv(r)
  {
    if matches == s.prefersDark then s
    else if s.listeners == 0 then s.(prefersDark := matches)
    else
      s.(prefersDark := matches,
         resolvedTheme := MediaTheme(matches),
         dataTheme := Some(MediaTheme(matches)),
         attributeWrites := s.attributeWrites + s.listeners)
  }

  /** What can happen to a provider. */
  datatype Event = Mounted | ThemeSet(next: Theme) | Toggled | SignalChanged(matches: bool)

  function Step(s: Snapshot, e: Event): Snapshot
  {
    match e
    case Mounted => Mount(s)
    case ThemeSet(t) => SetTheme(s, t)
    case Toggled => Toggle(s)
    case SignalChanged(m) => SignalChange(s, m)
  }

  /** The state after a sequence of events. */
  function Run(s: Snapshot, events: seq<Event>): Snapshot
    decreases |events|
  {
    if events == [] then s else Run(Step(s, events[0]), events[1..])
  }

  /**
    The provider's invariant: once mounted, the displayed value is the resolution of
    the preference and `data-theme` holds exactly it; before mount nothing has been
    resolved or written; and one change listener is registered exactly while mounted
    with preference 'system', none otherwise.
  */
  predicate Inv(s: Snapshot)
  {
    && (s.mounted ==> s.resolvedTheme == Resolve(s.theme, s.prefersDark) && s.dataTheme == Some(s.resolvedTheme))
    && (!s.mounted ==> s.resolvedTheme == Light && s.dataTheme == None && s.attributeWrites == 0)
    && s.listeners == (if Subscribed(s) then 1 else 0)
  }

  lemma InitInv(storage: map<string, string>, prefersDark: bool)
    ensures Inv(Init(storage, prefersDark))
  {
  }

  /** Every single event keeps the invariant. */
  lemma StepPreservesInv(s: Snapshot, e: Event)
    requires Inv(s)
    ensures Inv(Step(s, e))
  {
  }

  lemma {:induction false} RunPreservesInv(s: Snapshot, events: seq<Event>)
    requires Inv(s)
    ensures Inv(Run(s, events))
    decreases |events|
  {
    if events != [] {
      StepPreservesInv(s, events[0]);
      RunPreservesInv(Step(s, events[0]), events[1..]);
    }
  }

  /**
    Whatever happens from the first render on: at most one change listener is ever
    registered, it is registered exactly while mounted with preference 'system', and
    after mount `data-theme` equals `resolvedTheme`, which is the resolution of the
    preference under the current signal.
  */
  lemma Reachable(storage: map<string, string>, prefersDark: bool, events: seq<Event>)
    ensures var s := Run(Init(storage, prefersDark), events);
      && s.listeners <= 1
      && (s.listeners == 1 <==> s.mounted && s.theme == System)
      && (s.mounted ==> s.dataTheme == Some(s.resolvedTheme) && s.resolvedTheme == Resolve(s.theme, s.prefersDark))
  {
    InitInv(storage, prefersDark);
    RunPreservesInv(Init(storage, prefersDark), events);
  }

  /** The events contain no mount. */
  predicate NoMount(events: seq<Event>)
  {
    forall i | 0 <= i < |events| :: !events[i].Mounted?
  }

  /**
    Until the mount effect has run, the resolve effect is a no-op: `resolvedTheme`
    stays 'light', `data-theme` is never written and no listener is registered,
    whatever `setTheme`, `toggleTheme` or the signal do.
  */
  lemma {:induction false} BeforeMountNothingResolved(s: Snapshot, events: seq<Event>)
    requires Inv(s) && !s.mounted && NoMount(events)
    ensures var r := Run(s, events);
      !r.mounted && r.resolvedTheme == Light && r.dataTheme == None && r.attributeWrites == 0 && r.listeners == 0
    decreases |events|
  {
    if events != [] {
      StepPreservesInv(s, events[0]);
      assert NoMount(events[1..]) by {
        forall i | 0 <= i < |events[1..]| ensures !events[1..][i].Mounted? {
          assert events[1..][i] == events[i + 1];
        }
      }
      BeforeMountNothingResolved(Step(s, events[0]), events[1..]);
    }
  }

  /**
    Mount-time load on a fresh provider: a stored valid tag becomes the preference;
    an absent, empty or any other value (such as "blue") leaves 'system'. Either way
    the result is resolved and written at once.
  */
  lemma MountLoads(storage: map<string, string>, prefersDark: bool)
    ensures var s := Mount(Init(storage, prefersDark));
      && s.mounted
      && (StorageKey in storage && storage[StorageKey] in ValidTags ==> Tag(s.theme) == storage[StorageKey])
      && (StorageKey !in storage || storage[StorageKey] !in ValidTags ==> s.theme == System)
      && s.storage == storage
      && s.resolvedTheme == Resolve(s.theme, prefersDark) && s.dataTheme == Some(s.resolvedTheme)
  {
  }

  /** `setTheme(x)` makes x the preference and stores its tag under "theme", touching no other key. */
  lemma SetThemePersists(s: Snapshot, x: Theme)
    requires Inv(s)
    ensures var r := SetTheme(s, x);
      && r.theme == x
      && StorageKey in r.storage && r.storage[StorageKey] == Tag(x)
      && (forall k :: k in s.storage && k != StorageKey ==> k in r.storage && r.storage[k] == s.storage[k])
      && r.storage.Keys == s.storage.Keys + {StorageKey}
      && (r.mounted ==> r.resolvedTheme == Resolve(x, r.prefersDark) && r.dataTheme == Some(r.resolvedTheme))
  {
  }

  /** Round trip: after `setTheme(x)`, a reload (a fresh provider over the same storage) restores x. */
  lemma SetThemeThenReload(s: Snapshot, x: Theme, prefersDark: bool)
    ensures var r := Mount(Init(SetTheme(s, x).storage, prefersDark));
      r.theme == x && r.resolvedTheme == Resolve(x, prefersDark) && r.dataTheme == Some(r.resolvedTheme)
  {
    ParseStoredTag(x);
  }

  /** The stored tag is the preference in force. */
  predicate Synced(s: Snapshot)
  {
    Stored(s.storage) == Some(Tag(s.theme))
  }

  /** Once an explicit choice has been stored, storage and preference stay in step through every event. */
  lemma {:induction false} SyncedPersists(s: Snapshot, events: seq<Event>)
    requires Synced(s)
    ensures Synced(Run(s, events))
    decreases |events|
  {
    if events != [] {
      var e := events[0];
      if e.Mounted? {
        ParseStoredTag(s.theme);
      }
      SyncedPersists(Step(s, e), events[1..]);
    }
  }

  /**
    After any session in which `setTheme` or `toggleTheme` was called, a reload
    restores the preference the session ended with.
  */
  lemma ReloadRestoresLastChoice(s: Snapshot, x: Theme, events: seq<Event>, prefersDark: bool)
    ensures var last := Run(SetTheme(s, x), events);
      Mount(Init(last.storage, prefersDark)).theme == last.theme
  {
    SyncedPersists(SetTheme(s, x), events);
    ParseStoredTag(Run(SetTheme(s, x), events).theme);
  }

  /** A change of the signal never changes the preference, the storage or the mounted flag. */
  lemma SignalKeepsPreference(s: Snapshot, matches: bool)
    ensures var r := SignalChange(s, matches);
      r.theme == s.theme && r.storage == s.storage && r.mounted == s.mounted && r.listeners == s.listeners
  {
  }

  /** While mounted with preference 'system', a flip of the signal is followed by exactly one attribute write. */
  lemma SignalWhileSystem(s: Snapshot)
    requires Inv(s) && s.mounted && s.theme == System
    ensures var r := SignalChange(s, !s.prefersDark);
      && r.attributeWrites == s.attributeWrites + 1
      && r.resolvedTheme == MediaTheme(!s.prefersDark) && r.resolvedTheme != s.resolvedTheme
      && r.dataTheme == Some(r.resolvedTheme)
  {
  }

  /** With an explicit preference no listener is registered, so a flip of the signal writes nothing. */
  lemma SignalIgnoredWhenExplicit(s: Snapshot, matches: bool)
    requires Inv(s) && s.theme != System
    ensures var r := SignalChange(s, matches);
      r.attributeWrites == s.attributeWrites && r.resolvedTheme == s.resolvedTheme && r.dataTheme == s.dataTheme
  {
  }

  /**
    After mount, `toggleTheme` always leaves an explicit preference and flips the
    displayed value, with one attribute write and no listener left registered.
  */
  lemma ToggleFlips(s: Snapshot)
    requires Inv(s) && s.mounted
    ensures var r := Toggle(s);
      && r.theme != System
      && r.resolvedTheme == Opposite(s.resolvedTheme)
      && r.dataTheme == Some(r.resolvedTheme)
      && r.attributeWrites == s.attributeWrites + 1
      && r.listeners == 0
  {
  }

  /**
    Toggling twice after mount returns to the start from light or dark; from 'system'
    it pins the value that was displayed when the first toggle happened.
  */
  lemma ToggleTwice(s: Snapshot)
    requires Inv(s) && s.mounted
    ensures var r := Toggle(Toggle(s));
      && r.resolvedTheme == s.resolvedTheme
      && (s.theme != System ==> r.theme == s.theme)
      && (s.theme == System ==> r.theme == s.resolvedTheme)
  {
  }

  /**
    Before mount `resolvedTheme` is still its initial 'light', so a toggle from
    'system' always chooses 'dark', whatever the environment signal says.
  */
  lemma ToggleBeforeMount(storage: map<string, string>, prefersDark: bool)
    ensures var r := Toggle(Init(storage, prefersDark));
      r.theme == Dark && !r.mounted && r.dataTheme == None && r.storage == storage[StorageKey := "dark"]
  {
  }
}
