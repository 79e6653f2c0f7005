/** The colour-scheme context: the mode, the theme it selects, and the persisted `theme` key. */
module ThemeContext {

  const ThemeKey := "theme"
  const Light := "light"
  const Dark := "dark"

  datatype Theme = LightTheme | DarkTheme

  /** The stored mode when there is a non-empty one (taken as it is), otherwise light. */
  function InitialMode(storage: map<string, string>): (mode: string)
    ensures ThemeKey in storage && storage[ThemeKey] != "" ==> mode == storage[ThemeKey]
    ensures !(ThemeKey in storage && storage[ThemeKey] != "") ==> mode == Light
    ensures mode != ""
  {
    if ThemeKey in storage && storage[ThemeKey] != "" then storage[ThemeKey] else Light
  }

  /** The light theme for the light mode; the dark theme for every other mode. */
  function SelectTheme(mode: string): (t: Theme)
    ensures t == LightTheme <==> mode == Light
  {
    if mode == Light then LightTheme else DarkTheme
  }

  /** Light becomes dark; every other mode becomes light. */
  function NextMode(mode: string): (next: string)
    ensures mode == Light ==> next == Dark
    ensures mode != Light ==> next == Light
    ensures SelectTheme(next) != SelectTheme(mode)
  {
    if mode == Light then Dark else Light
  }

  /** Toggling twice restores light and dark. */
  lemma ToggleTwice(mode: string)
    requires mode == Light || mode == Dark
    ensures NextMode(NextMode(mode)) == mode
  {
  }

  /** An unrecognised stored mode is shown dark, and two toggles turn it into dark, not back. */
  lemma ToggleTwiceUnknownMode()
    ensures SelectTheme("blue") == DarkTheme && NextMode(NextMode("blue")) == Dark
  {
  }

  /** After a toggle the stored value is what the next mount starts from. */
  lemma ToggledModePersists(storage: map<string, string>, mode: string)
    ensures InitialMode(storage[ThemeKey := NextMode(mode)]) == NextMode(mode)
  {
  }

  class ThemeProvider {
    var mode: string
    var storage: map<string, string>

    constructor (storage: map<string, string>)
      ensures mode == InitialMode(storage) && this.storage == storage
    {
      mode := InitialMode(storage);
      this.storage := storage;
    }

    function CurrentTheme(): Theme
      reads this
    {
      SelectTheme(mode)
    }

    /** `toggleTheme`: switches the mode and stores the new one under `theme`. */
    method ToggleTheme()
      modifies this
      ensures mode == NextMode(old(mode))
      ensures storage == old(storage)[ThemeKey := mode]
    {
      var newMode := if mode == Light then Dark else Light;
      mode := newMode;
      storage := storage[ThemeKey := newMode];
    }
  }
}
