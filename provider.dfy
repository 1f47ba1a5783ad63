/**
  The typed provider as it runs: an object whose fields are its React state and the
  browser state it touches, whose methods are the mount effect, `setTheme`,
  `toggleTheme` and the media query's change event. Every method is proved to move
  the object exactly as the corresponding function of module ThemeMachine moves a
  Snapshot, so the lemmas proved there hold of the object.
*/
module Provider {
  import opened Wrappers
  import opened Themes
  import M = ThemeMachine

  /** What `useTheme` hands to consumers (the two state values; the two callbacks are the methods below). */
  datatype ContextValue = ContextValue(theme: Theme, resolvedTheme: ResolvedTheme)

  const MissingProviderMessage: string := "useTheme must be used within a ThemeProvider"

  /**
    `useTheme`: the nearest provider's value, or the error it throws when there is no
    provider above the caller (the context is still `undefined`).
  */
  function UseTheme(context: Option<ContextValue>): (r: Result<ContextValue, string>)
    ensures r.Failure? <==> context.None?
    ensures context.Some? ==> r.Success? && r.value == context.value
    ensures r.Failure? ==> r.error == MissingProviderMessage
  {
    match context
    case None => Failure(MissingProviderMessage)
    case Some(c) => Success(c)
  }

  class ThemeProvider {
    var theme: Theme
    var resolvedTheme: ResolvedTheme
    var mounted: bool
    /** localStorage */
    var storage: map<string, string>
    /** `matchMedia('(prefers-color-scheme: dark)').matches` */
    var prefersDark: bool
    /** the `data-theme` attribute of the document element, as last written here */
    var dataTheme: Option<ResolvedTheme>
    /** change listeners registered on the media query */
    var listeners: nat
    var attributeWrites: nat

    function State(): M.Snapshot
      reads this
    {
      M.Snapshot(theme, resolvedTheme, mounted, storage, prefersDark, dataTheme, listeners, attributeWrites)
    }

    ghost predicate Valid()
      reads this
    {
      M.Inv(State())
    }

    /** The first render over the given storage and environment signal. */
    constructor (storage: map<string, string>, prefersDark: bool)
      ensures Valid()
      ensures State() == M.Init(storage, prefersDark)
    {
      theme := System;
      resolvedTheme := Light;
      mounted := false;
      this.storage := storage;
      this.prefersDark := prefersDark;
      dataTheme := None;
      listeners := 0;
      attributeWrites := 0;
    }

    /** The value the provider puts into its context. */
    function Context(): (c: ContextValue)
      reads this
      ensures c.theme == theme && c.resolvedTheme == resolvedTheme
      ensures Valid() && mounted ==> c.resolvedTheme == Resolve(theme, prefersDark)
      ensures Valid() && !mounted ==> c.resolvedTheme == Light
    {
      ContextValue(theme, resolvedTheme)
    }

    /** The resolve effect, run with the current dependencies. */
    method ResolveEffect()
      modifies this
      ensures State() == M.ResolveEffect(old(State()))
    {
      if !mounted {
        return;
      }
      var resolved := Resolve(theme, prefersDark);
      resolvedTheme := resolved;
      dataTheme := Some(resolved);
      attributeWrites := attributeWrites + 1;
      if theme == System {
        listeners := listeners + 1;
      }
    }

    /**
      The commit after a state update whose dependencies were `prevTheme` and
      `prevMounted`: if either changed, the previous run's cleanup removes its
      listener and the resolve effect runs again.
    */
    method Commit(prevTheme: Theme, prevMounted: bool)
      modifies this
      ensures State() == M.Rerender(old(State()).(theme := prevTheme, mounted := prevMounted), old(State()))
    {
      if theme != prevTheme || mounted != prevMounted {
        if prevMounted && prevTheme == System && listeners > 0 {
          listeners := listeners - 1;
        }
        ResolveEffect();
      }
    }

    /** The mount effect: set `mounted`, adopt a valid stored preference, commit. */
    method Mount()
      requires Valid()
      modifies this
      ensures Valid()
      ensures State() == M.Mount(old(State()))
    {
      ghost var before := State();
      var prevTheme, prevMounted := theme, mounted;
      mounted := true;
      var saved := if StorageKey in storage then Some(storage[StorageKey]) else None;
      var loaded := ParseStored(saved);
      if loaded.Some? {
        theme := loaded.value;
      }
      Commit(prevTheme, prevMounted);
      M.StepPreservesInv(before, M.Mounted);
    }

    /** `setTheme(next)`: update the preference, persist it under "theme", commit. */
    method SetTheme(next: Theme)
      requires Valid()
      modifies this
      ensures Valid()
      ensures State() == M.SetTheme(old(State()), next)
    {
      ghost var before := State();
      var prevTheme, prevMounted := theme, mounted;
      theme := next;
      storage := storage[StorageKey := Tag(next)];
      Commit(prevTheme, prevMounted);
      M.StepPreservesInv(before, M.ThemeSet(next));
    }

    /** `toggleTheme()`: light to dark, dark to light, 'system' to the opposite of what is shown. */
    method ToggleTheme()
      requires Valid()
      modifies this
      ensures Valid()
      ensures State() == M.Toggle(old(State()))
    {
      if theme == Light {
        SetTheme(Dark);
      } else if theme == Dark {
        SetTheme(Light);
      } else {
        SetTheme(if resolvedTheme == Light then Dark else Light);
      }
    }

    /**
      The environment's signal becomes `matches`; when that is a change, every
      registered `handleChange` sets `resolvedTheme` and writes `data-theme`.
    */
    method SignalChange(matches: bool)
      requires Valid()
      modifies this
      ensures Valid()
      ensures State() == M.SignalChange(old(State()), matches)
    {
      if matches == prefersDark {
        return;
      }
      prefersDark := matches;
      if listeners > 0 {
        var newTheme := MediaTheme(matches);
        resolvedTheme := newTheme;
        dataTheme := Some(newTheme);
        attributeWrites := attributeWrites + listeners;
      }
    }
  }

  /**
    The listener life cycle on a running provider: with preference 'system' a flip of
    the environment signal writes the attribute once; after `setTheme(Dark)` a further
    flip writes nothing and the preference stays Dark.
  */
  method ListenerLifecycle(prefersDark: bool) returns (writesWhileSystem: nat, writesAfterDark: nat, finalTheme: Theme)
    ensures writesWhileSystem == 1
    ensures writesAfterDark == 0
    ensures finalTheme == Dark
  {
    var p := new ThemeProvider(map[], prefersDark);
    p.Mount();
    var w0 := p.attributeWrites;
    p.SignalChange(!p.prefersDark);
    writesWhileSystem := p.attributeWrites - w0;
    p.SetTheme(Dark);
    var w1 := p.attributeWrites;
    p.SignalChange(!p.prefersDark);
    writesAfterDark := p.attributeWrites - w1;
    finalTheme := p.theme;
  }
}
