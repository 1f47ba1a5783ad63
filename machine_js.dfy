/**
  The untyped copy of the provider (src/components/theme/ThemeProvider.jsx). Its code
  is that of the typed copies, but nothing restricts what `setTheme` is given, so the
  preference and the displayed value are plain strings here. This module is the machine
  over such states (module ProviderJs holds the object proved against it), with a proof
  that on the three valid tags it behaves exactly as the typed machine of ThemeMachine.
*/
module MachineJs {
  import opened Wrappers
  import T = Themes
  import M = ThemeMachine

  /** `matches ? 'dark' : 'light'` */
  function MediaTheme(matches: bool): (r: string)
    ensures r == "dark" <==> matches
    ensures r == "light" <==> !matches
  {
    if matches then "dark" else "light"
  }

  /** `getResolvedTheme`: 'system' follows the signal; any other value is returned as it is. */
  function Resolve(theme: string, prefersDark: bool): (r: string)
    ensures theme == "system" ==> r == MediaTheme(prefersDark)
    ensures theme != "system" ==> r == theme
  {
    if theme == "system" then MediaTheme(prefersDark) else theme
  }

  /**
    The argument `toggleTheme` passes to `setTheme`: light and dark swap; every other
    value, 'system' included, goes to the opposite of `resolvedTheme`, where anything
    that is not 'light' counts as dark. The result is always light or dark.
  */
  function ToggleTarget(theme: string, resolved: string): (r: string)
    ensures r == "light" || r == "dark"
    ensures theme == "light" ==> r == "dark"
    ensures theme == "dark" ==> r == "light"
    ensures theme != "light" && theme != "dark" ==> (r == "dark" <==> resolved == "light")
  {
    if theme == "light" then "dark"
    else if theme == "dark" then "light"
    else if resolved == "light" then "dark"
    else "light"
  }

  /** Mount-time validation: the stored string is kept only when it is one of the three tags. */
  function Load(saved: Option<string>): (r: Option<string>)
    ensures r.Some? <==> saved.Some? && saved.value in T.ValidTags
    ensures r.Some? ==> r.value == saved.value
  {
    if saved.Some? && saved.value != "" && saved.value in T.ValidTags then saved else None
  }

  /** The untyped functions agree with the typed ones on the tags of typed values. */
  lemma AgreesWithTyped(t: T.Theme, resolved: T.ResolvedTheme, prefersDark: bool, saved: Option<string>)
    ensures Resolve(T.Tag(t), prefersDark) == T.Tag(T.Resolve(t, prefersDark))
    ensures ToggleTarget(T.Tag(t), T.Tag(resolved)) == T.Tag(T.ToggleTarget(t, resolved))
    ensures Load(saved) == (var p := T.ParseStored(saved); if p.Some? then Some(T.Tag(p.value)) else None)
  {
  }

  /** The untyped provider's React state and browser state. */
  datatype Snapshot = Snapshot(
    theme: string,
    resolvedTheme: string,
    mounted: bool,
    storage: map<string, string>,
    prefersDark: bool,
    dataTheme: Option<string>,
    listeners: nat,
    attributeWrites: nat)

  /** The first render: preference "system", displayed "light", not mounted. */
  function Init(storage: map<string, string>, prefersDark: bool): (r: Snapshot)
    ensures r.theme == "system" && !r.mounted && r.storage == storage && r.prefersDark == prefersDark
    ensures r.dataTheme == None && r.listeners == 0 && r.attributeWrites == 0
  {
    Snapshot("system", "light", false, storage, prefersDark, None, 0, 0)
  }

  predicate Subscribed(s: Snapshot)
  {
    s.mounted && s.theme == "system"
  }

  /** The body of the resolve effect, over strings. */
  function ResolveEffect(s: Snapshot): (r: Snapshot)
    ensures r.theme == s.theme && r.mounted == s.mounted && r.storage == s.storage && r.prefersDark == s.prefersDark
    ensures !s.mounted ==> r == s
    ensures s.mounted ==> && r.resolvedTheme == Resolve(s.theme, s.prefersDark)
                          && r.dataTheme == Some(r.resolvedTheme)
                          && r.attributeWrites == s.attributeWrites + 1
                          && r.listeners == s.listeners + (if s.theme == "system" then 1 else 0)
    ensures s.mounted && s.listeners == 0 ==> Inv(r)
  {
    if !s.mounted then s
    else
      var resolved := Resolve(s.theme, s.prefersDark);
      s.(resolvedTheme := resolved,
         dataTheme := Some(resolved),
         attributeWrites := s.attributeWrites + 1,
         listeners := if s.theme == "system" then s.listeners + 1 else s.listeners)
  }

  /** The cleanup the previous run of the resolve effect returned, if it returned one. */
  function Cleanup(prev: Snapshot, s: Snapshot): (r: Snapshot)
    ensures r == s.(listeners := r.listeners) && r.listeners <= s.listeners
    ensures Inv(prev) && s.listeners == prev.listeners ==> r.listeners == 0
  {
    if Subscribed(prev) && s.listeners > 0 then s.(listeners := s.listeners - 1) else s
  }

  /** A state update and its commit: the resolve effect re-runs only when `[theme, mounted]` changed. */
  function Rerender(prev: Snapshot, next: Snapshot): (r: Snapshot)
    ensures r.theme == next.theme && r.mounted == next.mounted && r.storage == next.storage && r.prefersDark == next.prefersDark
    ensures next.theme == prev.theme && next.mounted == prev.mounted ==> r == next
    ensures Inv(prev) && (prev.mounted ==> next.mounted) && next.prefersDark == prev.prefersDark
            && next.resolvedTheme == prev.resolvedTheme && next.dataTheme == prev.dataTheme
            && next.listeners == prev.listeners && next.attributeWrites == prev.attributeWrites
            ==> Inv(r)
  {
    if next.theme == prev.theme && next.mounted == prev.mounted then next
    else ResolveEffect(Cleanup(prev, next))
  }

  /** The mount effect: set `mounted`, adopt the stored string if it is one of the tags, commit. */
  function Mount(s: Snapshot): (r: Snapshot)
    ensures r.mounted && r.storage == s.storage && r.prefersDark == s.prefersDark
    ensures var saved := M.Stored(s.storage);
      && (saved.Some? && saved.value in T.ValidTags ==> r.theme == saved.value)
      && (saved.None? || saved.value !in T.ValidTags ==> r.theme == s.theme)
    ensures Inv(s) ==> Inv(r)
  {
    var loaded := Load(M.Stored(s.storage));
    Rerender(s, s.(mounted := true, theme := if loaded.Some? then loaded.value else s.theme))
  }

  /** `setTheme(next)` for any string: it becomes the preference and is stored verbatim. */
  function SetTheme(s: Snapshot, next: string): (r: Snapshot)
    ensures r.theme == next && r.storage == s.storage[T.StorageKey := next]
    ensures r.mounted == s.mounted && r.prefersDark == s.prefersDark
    ensures Inv(s) ==> Inv(r)
    ensures next == s.theme ==> r.resolvedTheme == s.resolvedTheme && r.attributeWrites == s.attributeWrites
    ensures Inv(s) && s.mounted && next != s.theme ==> r.attributeWrites == s.attributeWrites + 1
  {
    Rerender(s, s.(theme := next, storage := s.storage[T.StorageKey := next]))
  }

  /** `toggleTheme()`: `setTheme` with the toggle target of the current state. */
  function Toggle(s: Snapshot): (r: Snapshot)
    ensures (r.theme == "light" || r.theme == "dark") && r.theme == ToggleTarget(s.theme, s.resolvedTheme)
    ensures r.storage == s.storage[T.StorageKey := r.theme]
    ensures r.mounted == s.mounted && r.prefersDark == s.prefersDark
    ensures Inv(s) ==> Inv(r)
  {
    SetTheme(s, ToggleTarget(s.theme, s.resolvedTheme))
  }

  /** The signal becomes `matches`; on a change every registered listener writes the media value. */
  function SignalChange(s: Snapshot, matches: bool): (r: Snapshot)
    ensures r.prefersDark == matches
    ensures r.theme == s.theme && r.storage == s.storage && r.mounted == s.mounted && r.listeners == s.listeners
    ensures matches == s.prefersDark || s.listeners == 0 ==>
      r.resolvedTheme == s.resolvedTheme && r.dataTheme == s.dataTheme && r.attributeWrites == s.attributeWrites
    ensures matches != s.prefersDark && s.listeners > 0 ==>
      && r.resolvedTheme == MediaTheme(matches)
      && r.dataTheme == Some(r.resolvedTheme)
      && r.attributeWrites == s.attributeWrites + s.listeners
    ensures Inv(s) ==> Inv(r)
  {
    if matches == s.prefersDark then s
    else if s.listeners == 0 then s.(prefersDark := matches)
    else
      s.(prefersDark := matches,
         resolvedTheme := MediaTheme(matches),
         dataTheme := Some(MediaTheme(matches)),
         attributeWrites := s.attributeWrites + s.listeners)
  }

  datatype Event = Mounted | ThemeSet(next: string) | Toggled | SignalChanged(matches: bool)

  function Step(s: Snapshot, e: Event): Snapshot
  {
    match e
    case Mounted => Mount(s)
    case ThemeSet(t) => SetTheme(s, t)
    case Toggled => Toggle(s)
    case SignalChanged(m) => SignalChange(s, m)
  }

  function Run(s: Snapshot, events: seq<Event>): Snapshot
    decreases |events|
  {
    if events == [] then s else Run(Step(s, events[0]), events[1..])
  }

  /** The same invariant as the typed provider's, over strings. */
  predicate Inv(s: Snapshot)
  {
    && (s.mounted ==> s.resolvedTheme == Resolve(s.theme, s.prefersDark) && s.dataTheme == Some(s.resolvedTheme))
    && (!s.mounted ==> s.resolvedTheme == "light" && s.dataTheme == None && s.attributeWrites == 0)
    && s.listeners == (if Subscribed(s) then 1 else 0)
  }

  lemma StepPreservesInv(s: Snapshot, e: Event)
    requires Inv(s)
    ensures Inv(Step(s, e))
  {
  }

  /**
    Whatever strings `setTheme` is given, after mount `data-theme` equals
    `resolvedTheme`, and at most one change listener is registered, exactly while
    the preference is 'system'.
  */
  lemma {:induction false} RunPreservesInv(s: Snapshot, events: seq<Event>)
    requires Inv(s)
    ensures var r := Run(s, events);
      && Inv(r)
      && r.listeners <= 1
      && (r.mounted ==> r.dataTheme == Some(r.resolvedTheme))
    decreases |events|
  {
    if events != [] {
      StepPreservesInv(s, events[0]);
      RunPreservesInv(Step(s, events[0]), events[1..]);
    }
  }

  /**
    A value outside the three tags is accepted by `setTheme`, before or after mount:
    it becomes the preference with no listener registered for it, and once mounted it
    is shown as it is (`resolvedTheme` and `data-theme` hold it); it is stored
    verbatim, yet a reload refuses it and falls back to 'system'.
  */
  lemma SetInvalidTheme(s: Snapshot, x: string, prefersDark: bool)
    requires Inv(s) && x !in T.ValidTags
    ensures var r := SetTheme(s, x);
      && r.theme == x
      && (s.mounted ==> r.resolvedTheme == x && r.dataTheme == Some(x))
      && r.listeners == 0
      && r.storage[T.StorageKey] == x
      && Mount(Init(r.storage, prefersDark)).theme == "system"
  {
  }

  /** After mount a toggle from a value outside the three tags always lands on 'light'. */
  lemma ToggleFromInvalid(s: Snapshot)
    requires Inv(s) && s.mounted && s.theme !in T.ValidTags
    ensures Toggle(s).theme == "light" && Toggle(s).resolvedTheme == "light"
  {
  }

  /** A valid tag round-trips through `setTheme` and a reload. */
  lemma SetThemeThenReload(s: Snapshot, x: string, prefersDark: bool)
    requires x in T.ValidTags
    ensures Mount(Init(SetTheme(s, x).storage, prefersDark)).theme == x
  {
  }

  /** The untyped view of a typed state: every value replaced by its tag. */
  function Erase(s: M.Snapshot): Snapshot
  {
    Snapshot(T.Tag(s.theme), T.Tag(s.resolvedTheme), s.mounted, s.storage, s.prefersDark,
             if s.dataTheme.Some? then Some(T.Tag(s.dataTheme.value)) else None,
             s.listeners, s.attributeWrites)
  }

  function EraseEvent(e: M.Event): Event
  {
    match e
    case Mounted => Mounted
    case ThemeSet(t) => ThemeSet(T.Tag(t))
    case Toggled => Toggled
    case SignalChanged(m) => SignalChanged(m)
  }

  function EraseEvents(events: seq<M.Event>): (r: seq<Event>)
    ensures |r| == |events|
    ensures forall i | 0 <= i < |events| :: r[i] == EraseEvent(events[i])
  {
    seq(|events|, i requires 0 <= i < |events| => EraseEvent(events[i]))
  }

  lemma ResolveEffectAgrees(s: M.Snapshot)
    ensures Erase(M.ResolveEffect(s)) == ResolveEffect(Erase(s))
  {
    AgreesWithTyped(s.theme, s.resolvedTheme, s.prefersDark, None);
  }

  /** Comparing dependencies and running the effect commute with erasing the types. */
  lemma RerenderAgrees(prev: M.Snapshot, next: M.Snapshot)
    ensures Erase(M.Rerender(prev, next)) == Rerender(Erase(prev), Erase(next))
  {
    T.TagInjective(prev.theme, next.theme);
    T.TagInjective(prev.theme, T.System);
    if next.theme != prev.theme || next.mounted != prev.mounted {
      var c := M.Cleanup(prev, next);
      assert Erase(c) == Cleanup(Erase(prev), Erase(next));
      ResolveEffectAgrees(c);
    }
  }

  lemma SetThemeAgrees(s: M.Snapshot, t: T.Theme)
    ensures Erase(M.SetTheme(s, t)) == SetTheme(Erase(s), T.Tag(t))
  {
    var next := s.(theme := t, storage := s.storage[T.StorageKey := T.Tag(t)]);
    assert Erase(next) == Erase(s).(theme := T.Tag(t), storage := s.storage[T.StorageKey := T.Tag(t)]);
    RerenderAgrees(s, next);
  }

  lemma MountAgrees(s: M.Snapshot)
    ensures Erase(M.Mount(s)) == Mount(Erase(s))
  {
    var saved := M.Stored(s.storage);
    AgreesWithTyped(s.theme, s.resolvedTheme, s.prefersDark, saved);
    var p := T.ParseStored(saved);
    var next := s.(mounted := true, theme := if p.Some? then p.value else s.theme);
    var loaded := Load(saved);
    assert Erase(next) == Erase(s).(mounted := true, theme := if loaded.Some? then loaded.value else Erase(s).theme);
    RerenderAgrees(s, next);
  }

  lemma ToggleAgrees(s: M.Snapshot)
    ensures Erase(M.Toggle(s)) == Toggle(Erase(s))
  {
    AgreesWithTyped(s.theme, s.resolvedTheme, s.prefersDark, None);
    SetThemeAgrees(s, T.ToggleTarget(s.theme, s.resolvedTheme));
  }

  lemma SignalChangeAgrees(s: M.Snapshot, matches: bool)
    ensures Erase(M.SignalChange(s, matches)) == SignalChange(Erase(s), matches)
  {
  }

  /** One typed event and its untyped counterpart lead to corresponding states. */
  lemma StepAgrees(s: M.Snapshot, e: M.Event)
    ensures Erase(M.Step(s, e)) == Step(Erase(s), EraseEvent(e))
  {
    match e
    case Mounted =>
      MountAgrees(s);
    case ThemeSet(t) =>
      SetThemeAgrees(s, t);
    case Toggled =>
      ToggleAgrees(s);
    case SignalChanged(m) =>
      SignalChangeAgrees(s, m);
  }

  /**
    The typed copies are the untyped one restricted to valid tags: any session of
    typed events, replayed on the untyped provider, passes through the same states.
  */
  lemma {:induction false} RunAgrees(s: M.Snapshot, events: seq<M.Event>)
    ensures Erase(M.Run(s, events)) == Run(Erase(s), EraseEvents(events))
    decreases |events|
  {
    if events != [] {
      StepAgrees(s, events[0]);
      assert EraseEvents(events)[1..] == EraseEvents(events[1..]);
      RunAgrees(M.Step(s, events[0]), events[1..]);
    }
  }
}
