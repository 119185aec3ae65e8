/** The theme slice: a two-state light/dark preference, and the rule by which a saved
    preference is accepted at startup. */
module Theme {
  import opened Wrappers

  datatype ThemeMode = Light | Dark

  /** The opposite mode. */
  function Flip(m: ThemeMode): (r: ThemeMode)
    ensures r != m
  {
    if m == Light then Dark else Light
  }

  /** The string under which a mode is stored: the mode's own name. */
  function ModeName(m: ThemeMode): string {
    match m
    case Light => "light"
    case Dark => "dark"
  }

  /** The startup check on a saved value: only the exact strings "light" and "dark" are
      taken as a mode; anything else is refused. */
  function ParseMode(s: string): (r: Option<ThemeMode>)
    ensures r.Some? <==> s == "light" || s == "dark"
    ensures r.Some? ==> ModeName(r.value) == s
  {
    if s == "light" then Some(Light)
    else if s == "dark" then Some(Dark)
    else None
  }

  /** Flipping twice gives back the original mode. */
  lemma {:induction false} FlipTwice(m: ThemeMode)
    ensures Flip(Flip(m)) == m
  {
  }

  /** A stored mode name reads back as that mode. */
  lemma {:induction false} ParseModeName(m: ThemeMode)
    ensures ParseMode(ModeName(m)) == Some(m)
  {
  }

  class ThemeState {
    var mode: ThemeMode

    /** The initial state: light. */
    constructor ()
      ensures mode == Light
    {
      mode := Light;
    }

    /** `toggleTheme`. */
    method ToggleTheme()
      modifies this
      ensures mode == Flip(old(mode))
      ensures old(mode) == Light ==> mode == Dark
      ensures old(mode) == Dark ==> mode == Light
    {
      mode := Flip(mode);
    }

    /** `setTheme`: the new mode is the argument, whatever the mode was. */
    method SetTheme(m: ThemeMode)
      modifies this
      ensures mode == m
    {
      mode := m;
    }

    /** `loadTheme`: the same transition as `setTheme`. */
    method LoadTheme(m: ThemeMode)
      modifies this
      ensures mode == m
    {
      mode := m;
    }

    /** The startup step: `saved` is what the key-value store returned for the theme
        key (None when there was no value or the read failed). A value that parses as a
        mode is set; anything else leaves the mode unchanged. */
    method RestoreSaved(saved: Option<string>)
      modifies this
      ensures saved.Some? && ParseMode(saved.value).Some? ==> mode == ParseMode(saved.value).value
      ensures saved.None? || ParseMode(saved.value).None? ==> mode == old(mode)
    {
      if saved.Some? && ParseMode(saved.value).Some? {
        SetTheme(ParseMode(saved.value).value);
      }
    }
  }
}
