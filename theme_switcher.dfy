/** The light/dark switch: the initial theme from storage or the system
    preference, the toggle, the reaction to a changed system preference,
    and the page's colour scheme kept in step with the state. */
module ThemeSwitcher {
  import opened Wrappers
  import opened Text

  /** The initial theme: dark when "dark" is stored, or when nothing
      (truthy) is stored and the system prefers dark. */
  function InitialDark(stored: Option<string>, prefersDark: bool): (d: bool)
    ensures stored == Some("dark") ==> d
    ensures Truthy(stored) && stored != Some("dark") ==> !d
    ensures !Truthy(stored) ==> (d <==> prefersDark)
  {
    stored == Some("dark") || (!Truthy(stored) && prefersDark)
  }

  /** The theme's name: the value stored under 'theme' and also the page's
      colour scheme set by applyTheme. */
  function ThemeName(dark: bool): (s: string)
    ensures s == "dark" <==> dark
    ensures s == "light" <==> !dark
  {
    if dark then "dark" else "light"
  }

  /** A stored theme wins over the system preference at the next start. */
  lemma StoredThemePersists(dark: bool, prefersDark: bool)
    ensures InitialDark(Some(ThemeName(dark)), prefersDark) == dark
  {
  }

  datatype ThemeChangeEvent = ThemeChangeEvent(isDark: bool)

  /** The rendered button, when there is one. */
  datatype Button = Button(ariaLabel: string, ariaPressed: bool, title: string)

  class Switcher {
    var isDark: bool
    var isLoaded: bool
    /** The 'theme' entry of local storage. */
    var stored: Option<string>
    /** document.documentElement.style.colorScheme. */
    var colorScheme: string

    /** Once initialised, the page's scheme matches the state. */
    predicate Valid()
      reads this
    {
      isLoaded ==> colorScheme == ThemeName(isDark)
    }

    constructor (storedTheme: Option<string>, pageScheme: string)
      ensures !isDark && !isLoaded && stored == storedTheme && colorScheme == pageScheme
      ensures Valid()
    {
      isDark := false;
      isLoaded := false;
      stored := storedTheme;
      colorScheme := pageScheme;
    }

    /** The mount effect. */
    method Init(prefersDark: bool)
      modifies this
      ensures isDark == InitialDark(old(stored), prefersDark) && isLoaded
      ensures stored == old(stored)
      ensures Valid()
    {
      var shouldBeDark := stored == Some("dark") || (!Truthy(stored) && prefersDark);
      isDark := shouldBeDark;
      colorScheme := ThemeName(shouldBeDark);
      isLoaded := true;
    }

    /** The system preference changed: the state follows it and is stored. */
    method SystemChange(matches: bool)
      requires isLoaded && Valid()
      modifies this
      ensures isDark == matches && isLoaded && stored == Some(ThemeName(matches))
      ensures Valid()
    {
      isDark := matches;
      colorScheme := ThemeName(matches);
      stored := Some(ThemeName(matches));
    }

    /** handleToggle: flips the theme, stores it and announces it. */
    method Toggle() returns (e: ThemeChangeEvent)
      requires isLoaded && Valid()
      modifies this
      ensures isDark == !old(isDark) && isLoaded && stored == Some(ThemeName(isDark))
      ensures e == ThemeChangeEvent(isDark)
      ensures Valid()
    {
      var newIsDark := !isDark;
      isDark := newIsDark;
      colorScheme := ThemeName(newIsDark);
      stored := Some(ThemeName(newIsDark));
      e := ThemeChangeEvent(newIsDark);
    }

    /** Nothing is rendered before initialisation; the button labels the
        theme it switches to. */
    function Render(): (b: Option<Button>)
      reads this
      ensures b.None? <==> !isLoaded
      ensures b.Some? ==> b.value.ariaPressed == isDark
      ensures b.Some? ==> (b.value.ariaLabel == "Switch to light mode" <==> isDark)
    {
      if !isLoaded then None
      else if isDark then Some(Button("Switch to light mode", true, "Light mode"))
      else Some(Button("Switch to dark mode", false, "Dark mode"))
    }
  }
}
