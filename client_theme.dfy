/** The light/dark switch of the page (public/app.js): the start-up theme,
    the toggle, and the toggle button's icon. The `data-color-scheme`
    attribute and the `theme` entry of `localStorage` are fields. */
module ClientTheme {
  import opened JsValues

  const Light := "light"
  const Dark := "dark"
  const SunIcon := "\U{2600}\U{FE0F}"
  const MoonIcon := "\U{1F319}"

  /** `value || 'light'`: how both the saved preference
      (`localStorage.getItem('theme')`) and the page's current theme
      (`getAttribute('data-color-scheme')`) are read. */
  function ThemeOrLight(value: Option<string>): (t: string)
    ensures t != ""
    ensures Truthy(value) ==> t == value.value
    ensures !Truthy(value) ==> t == Light
  {
    if Truthy(value) then value.value else Light
  }

  /** `current === 'dark' ? 'light' : 'dark'`. */
  function NextTheme(current: string): (next: string)
    ensures next == Light <==> current == Dark
    ensures next == Dark <==> current != Dark
  {
    if current == Dark then Light else Dark
  }

  /** `theme === 'dark' ? '☀️' : '🌙'`. */
  function IconFor(theme: string): (icon: string)
    ensures icon == SunIcon <==> theme == Dark
    ensures icon == MoonIcon <==> theme != Dark
  {
    if theme == Dark then SunIcon else MoonIcon
  }

  /** Toggling twice from light or dark returns to where it started. */
  lemma ToggleTwiceRestores(t: string)
    requires t == Light || t == Dark
    ensures NextTheme(NextTheme(t)) == t
  {
  }

  /** From any other value, two toggles settle on light. */
  lemma ToggleTwiceFromUnknown(t: string)
    requires t != Light && t != Dark
    ensures NextTheme(t) == Dark && NextTheme(NextTheme(t)) == Light
  {
  }

  class ThemeToggle {
    var scheme: Option<string>   // the `data-color-scheme` attribute
    var icon: string             // the toggle button's text
    var stored: Option<string>   // `localStorage['theme']`

    /** The icon always matches the theme in force. */
    ghost predicate Valid()
      reads this
    {
      icon == IconFor(ThemeOrLight(scheme))
    }

    /** Start-up: the saved theme (default light) is applied and the icon set;
        storage is only read. */
    constructor (stored: Option<string>)
      ensures Valid()
      ensures scheme == Some(ThemeOrLight(stored)) && icon == IconFor(ThemeOrLight(stored))
      ensures this.stored == stored
    {
      this.stored := stored;
      var saved := ThemeOrLight(stored);
      scheme := Some(saved);
      icon := IconFor(saved);
    }

    /** A click: the next theme is applied, shown by the icon, and persisted. */
    method Click()
      requires Valid()
      modifies this
      ensures Valid()
      ensures var next := NextTheme(ThemeOrLight(old(scheme)));
        scheme == Some(next) && icon == IconFor(next) && stored == Some(next)
    {
      var current := ThemeOrLight(scheme);
      var next := NextTheme(current);
      scheme := Some(next);
      icon := IconFor(next);
      stored := Some(next);
    }
  }
}
