/** The light/dark theme button: the initial theme comes from the saved
    preference, else the system preference; each click flips the theme,
    saves it and swaps the icon. Storage and the system preference are
    inputs here. */
module Theme {
  import opened Wrappers

  /** The icon inside the toggle button: the moon while light is in effect,
      the sun while dark is. */
  datatype Icon = Moon | Sun

  /** JavaScript falsiness of what localStorage.getItem returned: null or the
      empty string. */
  predicate Falsy(saved: Option<string>) {
    saved == None || saved == Some("")
  }

  /** The initial-state rule: dark when 'dark' is saved, or when nothing
      usable is saved and the system prefers dark. */
  predicate StartsDark(saved: Option<string>, systemPrefersDark: bool) {
    saved == Some("dark") || (Falsy(saved) && systemPrefersDark)
  }

  /** The theme a click switches to from the root's data-theme attribute:
      'light' from 'dark', 'dark' from anything else, unset included. */
  function NextTheme(current: Option<string>): (next: string)
    ensures next == "light" || next == "dark"
    ensures next == "light" <==> current == Some("dark")
  {
    if current == Some("dark") then "light" else "dark"
  }

  /** Once the attribute holds 'light' or 'dark', two clicks bring it back;
      from unset, two clicks end on 'light'. */
  lemma TwoClicks(current: Option<string>)
    ensures current == Some("light") || current == Some("dark") ==>
              NextTheme(Some(NextTheme(current))) == current.value
    ensures current == None ==> NextTheme(Some(NextTheme(current))) == "light"
  {
  }

  /** What a click saves is what the next visit starts with, whatever the
      system prefers. */
  lemma SavedThemeWinsOnReload(current: Option<string>, systemPrefersDark: bool)
    ensures StartsDark(Some(NextTheme(current)), systemPrefersDark) <==> NextTheme(current) == "dark"
  {
  }

  class ThemeToggle {
    /** The data-theme attribute of the document root. */
    var dataTheme: Option<string>
    /** localStorage 'theme'. */
    var stored: Option<string>
    var icon: Icon

    /** The icon shows the sun exactly while the theme is dark. */
    ghost predicate Valid()
      reads this
    {
      icon == Sun <==> dataTheme == Some("dark")
    }

    /** Injecting the button and applying the initial theme; the root is
        taken to have no data-theme attribute before the script runs. */
    constructor (saved: Option<string>, systemPrefersDark: bool)
      ensures Valid() && stored == saved
      ensures dataTheme == if StartsDark(saved, systemPrefersDark) then Some("dark") else None
    {
      dataTheme := None;
      stored := saved;
      icon := Moon;
      if saved == Some("dark") || (Falsy(saved) && systemPrefersDark) {
        dataTheme := Some("dark");
        icon := Sun;
      }
    }

    /** The click handler: flip the theme, save it and show the matching icon. */
    method Toggle()
      modifies this
      ensures Valid()
      ensures dataTheme == Some(NextTheme(old(dataTheme))) && stored == dataTheme
    {
      if dataTheme == Some("dark") {
        dataTheme := Some("light");
        stored := Some("light");
        icon := Moon;
      } else {
        dataTheme := Some("dark");
        stored := Some("dark");
        icon := Sun;
      }
    }
  }
}
