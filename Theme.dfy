/**
 * The theme store: the active theme, the dark-mode flag and whether the app
 * follows the system colour scheme. The system scheme is an input (`true`
 * when the system reports "dark"); the theme token tables are not modelled.
 */
module Theme {

  datatype Theme = LightTheme | DarkTheme

  /** `isDark ? darkTheme : lightTheme`. */
  function ThemeFor(isDark: bool): Theme
  {
    if isDark then DarkTheme else LightTheme
  }

  class ThemeStore {
    var theme: Theme
    var isDarkMode: bool
    var followSystem: bool

    /** The theme always matches the dark-mode flag. */
    ghost predicate Valid()
      reads this
    {
      theme == ThemeFor(isDarkMode)
    }

    /** The initial state follows the system scheme read at start-up. */
    constructor (systemIsDark: bool)
      ensures Valid()
      ensures followSystem && isDarkMode == systemIsDark
    {
      theme := ThemeFor(systemIsDark);
      isDarkMode := systemIsDark;
      followSystem := true;
    }

    method ToggleTheme()
      requires Valid()
      modifies this
      ensures Valid()
      ensures isDarkMode == !old(isDarkMode) && !followSystem
    {
      theme := if isDarkMode then LightTheme else DarkTheme;
      isDarkMode := !isDarkMode;
      followSystem := false;
    }

    method SetThemeMode(isDark: bool)
      requires Valid()
      modifies this
      ensures Valid()
      ensures isDarkMode == isDark && !followSystem
      ensures old(isDarkMode) == isDark && !old(followSystem) ==> theme == old(theme)
    {
      theme := ThemeFor(isDark);
      isDarkMode := isDark;
      followSystem := false;
    }

    /**
     * Turning following on adopts the system scheme; turning it off keeps the
     * current mode and theme.
     */
    method ToggleFollowSystem(systemIsDark: bool)
      requires Valid()
      modifies this
      ensures Valid()
      ensures followSystem == !old(followSystem)
      ensures followSystem ==> isDarkMode == systemIsDark
      ensures !followSystem ==> isDarkMode == old(isDarkMode) && theme == old(theme)
    {
      var wasFollowing := followSystem;
      followSystem := !wasFollowing;
      theme := if !wasFollowing then ThemeFor(systemIsDark) else theme;
      isDarkMode := if !wasFollowing then systemIsDark else isDarkMode;
    }

    /** Called when the system scheme changes; ignored unless following it. */
    method UpdateFromSystem(systemIsDark: bool)
      requires Valid()
      modifies this
      ensures Valid()
      ensures followSystem == old(followSystem)
      ensures !followSystem ==> isDarkMode == old(isDarkMode) && theme == old(theme)
      ensures followSystem ==> isDarkMode == systemIsDark
    {
      if !followSystem {
        return;
      }
      theme := ThemeFor(systemIsDark);
      isDarkMode := systemIsDark;
    }
  }
}
