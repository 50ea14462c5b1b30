/**
 * The colour theme (ThemeContext.tsx): the theme read back from storage, the toggle, and
 * what applying a theme does to the document and to storage.
 */
module Theme {
  import opened Types

  datatype Theme = Light | Dark

  /** The stored and attribute spelling of a theme. */
  function ThemeName(t: Theme): (r: string)
    ensures r == "light" || r == "dark"
  {
    match t
    case Light => "light"
    case Dark => "dark"
  }

  /** The `useState` initialiser: with storage available, the stored value when it is
      `light` or `dark` and `dark` otherwise; without storage, `dark`. */
  function InitialTheme(hasStorage: bool, stored: Option<string>): (r: Theme)
    ensures r == Light <==> hasStorage && stored == Some("light")
  {
    if hasStorage && stored == Some("light") then Light
    else if hasStorage && stored == Some("dark") then Dark
    else Dark
  }

  /** A stored theme is read back as itself. */
  lemma StoredThemeReadBack(t: Theme)
    ensures InitialTheme(true, Some(ThemeName(t))) == t
  {
  }

  /** `prev === 'light' ? 'dark' : 'light'`. */
  function Toggled(t: Theme): (r: Theme)
    ensures r != t
  {
    if t == Light then Dark else Light
  }

  /** Toggling twice restores the theme. */
  lemma ToggleInvolution(t: Theme)
    ensures Toggled(Toggled(t)) == t
  {
  }

  const LIGHT_BACKGROUND := "#f5f5f5"
  const LIGHT_TEXT := "#1e293b"
  const DARK_BACKGROUND := "#0f172a"
  const DARK_TEXT := "#f8fafc"

  /** The body's background and text colours for a theme. */
  function Palette(t: Theme): (r: (string, string))
    ensures t == Light ==> r == (LIGHT_BACKGROUND, LIGHT_TEXT)
    ensures t == Dark ==> r == (DARK_BACKGROUND, DARK_TEXT)
  {
    if t == Light then (LIGHT_BACKGROUND, LIGHT_TEXT) else (DARK_BACKGROUND, DARK_TEXT)
  }

  /** The provider's theme together with the parts of the document and of storage it
      writes. */
  class ThemeProvider {
    var theme: Theme
    const hasStorage: bool
    var stored: Option<string>
    var darkClass: bool
    var dataTheme: Option<string>
    var background: Option<string>
    var textColour: Option<string>

    /** The document's look for the current theme. */
    predicate Applied()
      reads this
    {
      && (darkClass <==> theme == Dark)
      && dataTheme == Some(ThemeName(theme))
      && background == Some(Palette(theme).0)
      && textColour == Some(Palette(theme).1)
    }

    /** Mounting: the initial theme, applied to the document straight away when storage
        is available. */
    constructor (hasStorage: bool, stored: Option<string>, darkClass: bool)
      ensures theme == InitialTheme(hasStorage, stored)
      ensures this.hasStorage == hasStorage && this.stored == stored
      ensures hasStorage ==> Applied()
      ensures !hasStorage ==> this.darkClass == darkClass && dataTheme == None && background == None && textColour == None
    {
      var initial := InitialTheme(hasStorage, stored);
      theme := initial;
      this.hasStorage := hasStorage;
      this.stored := stored;
      this.darkClass := darkClass;
      dataTheme := None;
      background := None;
      textColour := None;
      new;
      if hasStorage {
        this.darkClass := initial == Dark;
        dataTheme := Some(ThemeName(initial));
        var (b, c) := Palette(initial);
        background := Some(b);
        textColour := Some(c);
      }
    }

    /** The effect after each theme change: the `dark` class exactly for the dark theme,
        the `data-theme` attribute, the body colours, and the theme saved when storage is
        available. */
    method Effect()
      modifies this
      ensures Applied()
      ensures hasStorage ==> stored == Some(ThemeName(theme))
      ensures !hasStorage ==> stored == old(stored)
      ensures theme == old(theme)
    {
      darkClass := theme == Dark;
      dataTheme := Some(ThemeName(theme));
      var (b, c) := Palette(theme);
      background := Some(b);
      textColour := Some(c);
      if hasStorage {
        stored := Some(ThemeName(theme));
      }
    }

    /** `toggleTheme`. */
    method ToggleTheme()
      modifies this
      ensures theme == Toggled(old(theme))
      ensures stored == old(stored) && darkClass == old(darkClass) && dataTheme == old(dataTheme)
      ensures background == old(background) && textColour == old(textColour)
    {
      theme := Toggled(theme);
    }
  }

  /** After the effect has run, a fresh start reads the same theme back from storage. */
  method Restart(p: ThemeProvider) returns (q: ThemeProvider)
    requires p.hasStorage
    modifies p
    ensures q.theme == p.theme && q.Applied()
  {
    p.Effect();
    StoredThemeReadBack(p.theme);
    q := new ThemeProvider(p.hasStorage, p.stored, p.darkClass);
  }
}
