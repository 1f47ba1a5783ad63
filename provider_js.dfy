/**
  The untyped provider (src/components/theme/ThemeProvider.jsx) as it runs: the same
  fields as the typed object, over strings, each method proved to move the object as
  the corresponding function of module MachineJs moves a state.
*/
module ProviderJs {
  import opened Wrappers
  import T = Themes
  import opened J = MachineJs

  /** The untyped provider as it runs: the same fields as the typed one, over strings. */
  class ThemeProvider {
    var theme: string
    var resolvedTheme: string
    var mounted: bool
    var storage: map<string, string>
    var prefersDark: bool
    var dataTheme: Option<string>
    var listeners: nat
    var attributeWrites: nat

    function State(): Snapshot
      reads this
    {
      Snapshot(theme, resolvedTheme, mounted, storage, prefersDark, dataTheme, listeners, attributeWrites)
    }

    ghost predicate Valid()
      reads this
    {
      Inv(State())
    }

    constructor (storage: map<string, string>, prefersDark: bool)
      ensures Valid()
      ensures State() == Init(storage, prefersDark)
    {
      theme := "system";
      resolvedTheme := "light";
      mounted := false;
      this.storage := storage;
      this.prefersDark := prefersDark;
      dataTheme := None;
      listeners := 0;
      attributeWrites := 0;
    }

    method ResolveEffect()
      modifies this
      ensures State() == J.ResolveEffect(old(State()))
    {
      if !mounted {
        return;
      }
      var resolved := Resolve(theme, prefersDark);
      resolvedTheme := resolved;
      dataTheme := Some(resolved);
      attributeWrites := attributeWrites + 1;
      if theme == "system" {
        listeners := listeners + 1;
      }
    }

    method Commit(prevTheme: string, prevMounted: bool)
      modifies this
      ensures State() == Rerender(old(State()).(theme := prevTheme, mounted := prevMounted), old(State()))
    {
      if theme != prevTheme || mounted != prevMounted {
        if prevMounted && prevTheme == "system" && listeners > 0 {
          listeners := listeners - 1;
        }
        ResolveEffect();
      }
    }

    method Mount()
      requires Valid()
      modifies this
      ensures Valid()
      ensures State() == J.Mount(old(State()))
    {
      ghost var before := State();
      var prevTheme, prevMounted := theme, mounted;
      mounted := true;
      var saved := if T.StorageKey in storage then Some(storage[T.StorageKey]) else None;
      if saved.Some? && saved.value != "" && saved.value in T.ValidTags {
        theme := saved.value;
      }
      Commit(prevTheme, prevMounted);
      StepPreservesInv(before, Mounted);
    }

    method SetTheme(next: string)
      requires Valid()
      modifies this
      ensures Valid()
      ensures State() == J.SetTheme(old(State()), next)
    {
      ghost var before := State();
      var prevTheme, prevMounted := theme, mounted;
      theme := next;
      storage := storage[T.StorageKey := next];
      Commit(prevTheme, prevMounted);
      StepPreservesInv(before, ThemeSet(next));
    }

    method ToggleTheme()
      requires Valid()
      modifies this
      ensures Valid()
      ensures State() == Toggle(old(State()))
    {
      if theme == "light" {
        SetTheme("dark");
      } else if theme == "dark" {
        SetTheme("light");
      } else {
        SetTheme(if resolvedTheme == "light" then "dark" else "light");
      }
    }

    method SignalChange(matches: bool)
      requires Valid()
      modifies this
      ensures Valid()
      ensures State() == J.SignalChange(old(State()), matches)
    {
      if matches == prefersDark {
        return;
      }
      prefersDark := matches;
      if listeners > 0 {
        var newTheme := MediaTheme(matches);
        resolvedTheme := newTheme;
        dataTheme := Some(newTheme);
        attributeWrites := attributeWrites + listeners;
      }
    }
  }
}
