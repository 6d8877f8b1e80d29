/** The light/dark theme flag shared by every screen, and the hook that reads it. */
module ThemeContext {
  import opened Wrappers

  /** The updater `prevMode => !prevMode`. */
  function Toggled(dark: bool): (r: bool)
    ensures r != dark
  {
    !dark
  }

  /** The flag after `n` toggles starting from `dark`. */
  function ToggledTimes(dark: bool, n: nat): (r: bool)
    decreases n
  {
    if n == 0 then dark else Toggled(ToggledTimes(dark, n - 1))
  }

  /** Two toggles in a row restore the flag. */
  lemma ToggleTwice(dark: bool)
    ensures Toggled(Toggled(dark)) == dark
  {
  }

  /** After `n` toggles the flag is flipped exactly when `n` is odd. */
  lemma {:induction false} ToggledTimesParity(dark: bool, n: nat)
    ensures ToggledTimes(dark, n) == (if n % 2 == 0 then dark else !dark)
  {
    if n > 0 {
      ToggledTimesParity(dark, n - 1);
    }
  }

  /** The theme provider's state cell. `toggles` counts the toggles so far. */
  class ThemeStore {
    var isDarkMode: bool
    ghost var toggles: nat

    ghost predicate Valid()
      reads this
    {
      isDarkMode == ToggledTimes(false, toggles)
    }

    /** The theme starts light. */
    constructor ()
      ensures Valid() && !isDarkMode && toggles == 0
    {
      isDarkMode := false;
      toggles := 0;
    }

    /** `toggleTheme()`: the flag flips. */
    method ToggleTheme()
      requires Valid()
      modifies this
      ensures Valid() && toggles == old(toggles) + 1
      ensures isDarkMode == Toggled(old(isDarkMode))
    {
      isDarkMode := Toggled(isDarkMode);
      toggles := toggles + 1;
    }

    /** Reading the flag: dark mode is on exactly when the theme has been toggled an odd number of times. */
    method IsDarkMode() returns (dark: bool)
      requires Valid()
      ensures dark == isDarkMode
      ensures dark <==> toggles % 2 == 1
    {
      ToggledTimesParity(false, toggles);
      dark := isDarkMode;
    }
  }

  const MissingThemeProvider := "useTheme must be used within a ThemeProvider"

  /** `useTheme()`: outside a provider (`null`) it throws; inside, it hands back the provider's own store. */
  function UseTheme(context: ThemeStore?): (r: Result<ThemeStore>)
    ensures r.Err? <==> context == null
    ensures r.Err? ==> r.message == MissingThemeProvider
    ensures r.Ok? ==> r.value == context
  {
    if context == null then Err(MissingThemeProvider) else Ok(context)
  }
}
