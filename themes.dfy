/**
  The theme vocabulary of the typed provider (src/components/theme/ThemeProvider.tsx
  and its duplicate components/ThemeProvider.tsx): the three-way preference, the
  two-way displayed value, the stored string tags, and the pure decisions the provider
  makes from them (mount-time validation, resolution, the toggle target).
*/
module Themes {
  import opened Wrappers

  /** The user's stated preference, the union 'light' | 'dark' | 'system'. */
  datatype Theme = Light | Dark | System

  /** The value actually displayed, the union 'light' | 'dark'. */
  type ResolvedTheme = t: Theme | t != System witness Light

  /** The single localStorage key the preference lives under. */
  const StorageKey: string := "theme"

  /** The tags the mount effect accepts, `['light', 'dark', 'system']`. */
  const ValidTags: seq<string> := ["light", "dark", "system"]

  /** The string a preference is stored, compared and written as. */
  function Tag(t: Theme): (tag: string)
    ensures tag in ValidTags
  {
    match t
    case Light => "light"
    case Dark => "dark"
    case System => "system"
  }

  /** Distinct preferences are stored under distinct tags. */
  lemma TagInjective(a: Theme, b: Theme)
    ensures Tag(a) == Tag(b) <==> a == b
  {
  }

  /**
    Mount-time validation of the stored value, `savedTheme && [...].includes(savedTheme)`:
    an absent value (`null`), the empty string (falsy) and every string outside the three
    tags are refused; a valid tag is read back as its preference.
  */
  function ParseStored(saved: Option<string>): (r: Option<Theme>)
    ensures r.Some? <==> saved.Some? && saved.value in ValidTags
    ensures r.Some? ==> Tag(r.value) == saved.value
  {
    if saved.Some? && saved.value != "" && saved.value in ValidTags then
      Some(if saved.value == "light" then Light
           else if saved.value == "dark" then Dark
           else System)
    else
      None
  }

  /** Storing a preference and validating it again gives the preference back. */
  lemma ParseStoredTag(t: Theme)
    ensures ParseStored(Some(Tag(t))) == Some(t)
  {
  }

  /** The value the `(prefers-color-scheme: dark)` query stands for: `matches ? 'dark' : 'light'`. */
  function MediaTheme(matches: bool): (r: ResolvedTheme)
    ensures r == Dark <==> matches
  {
    if matches then Dark else Light
  }

  /**
    `getResolvedTheme`: an explicit preference is displayed as itself; 'system'
    follows the environment's prefers-dark signal.
  */
  function Resolve(t: Theme, prefersDark: bool): (r: ResolvedTheme)
    ensures t != System ==> r == t
    ensures t == System ==> (r == Dark <==> prefersDark)
  {
    if t == System then MediaTheme(prefersDark) else t
  }

  /** The environment signal matters for the displayed value exactly when the preference is 'system'. */
  lemma ResolveDependsOnSignalIffSystem(t: Theme)
    ensures Resolve(t, true) != Resolve(t, false) <==> t == System
  {
  }

  /** The other displayed value. */
  function Opposite(r: ResolvedTheme): (o: ResolvedTheme)
    ensures o != r
  {
    if r == Light then Dark else Light
  }

  /**
    The argument `toggleTheme` passes to `setTheme`: light goes to dark, dark to light,
    and 'system' to the opposite of what is currently displayed (`resolvedTheme`), never
    to a fixed value.
  */
  function ToggleTarget(t: Theme, resolved: ResolvedTheme): (r: ResolvedTheme)
    ensures t == Light ==> r == Dark
    ensures t == Dark ==> r == Light
    ensures t == System ==> r == Opposite(resolved)
  {
    if t == Light then Dark
    else if t == Dark then Light
    else if resolved == Light then Dark
    else Light
  }

  /**
    When the displayed value is the resolution of the preference, toggling picks the
    explicit preference that shows the other value, whatever the signal does next.
  */
  lemma ToggleFlipsDisplay(t: Theme, prefersDark: bool, later: bool)
    ensures ToggleTarget(t, Resolve(t, prefersDark)) == Opposite(Resolve(t, prefersDark))
    ensures Resolve(ToggleTarget(t, Resolve(t, prefersDark)), later) == Opposite(Resolve(t, prefersDark))
  {
  }

  /** Toggling an explicit preference twice gives it back, whatever is displayed meanwhile. */
  lemma ToggleTwice(t: Theme, r1: ResolvedTheme, r2: ResolvedTheme)
    requires t != System
    ensures ToggleTarget(ToggleTarget(t, r1), r2) == t
  {
  }
}
