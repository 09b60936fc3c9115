/**
 * The dashboard page (src/pages/NewIndex.tsx): the greeting, the theme mode,
 * the clock style, the advanced-features switch, the bookmarks and settings
 * overlays, and the mouse-down handler that closes every panel.
 */
module NewIndex {
  import opened Wrappers
  import opened Storage
  import opened Events

  const ThemeModeKey := "edge-homepage-theme-mode"
  const AdvancedKey := "edge-homepage-advanced-features"
  const UserNameKey := "edge-homepage-username"

  /** The page's greeting: morning before 12, afternoon before 18, evening after. */
  function Greeting(hour: nat): (r: string)
    ensures r == "Good Morning" <==> hour < 12
    ensures r == "Good Afternoon" <==> 12 <= hour < 18
    ensures r == "Good Evening" <==> hour >= 18
  {
    if hour < 12 then "Good Morning" else if hour < 18 then "Good Afternoon" else "Good Evening"
  }

  function InitialAdvanced(items: map<string, Value>): (r: bool)
    ensures r <==> LookupText(items, AdvancedKey) == Some("true")
  {
    LookupText(items, AdvancedKey) == Some("true")
  }

  /** `toggleTheme`'s new mode: 'light' from 'dark', and 'dark' from anything else. */
  function ToggledTheme(theme: string): (r: string)
    ensures r == "light" <==> theme == "dark"
    ensures r == "dark" || r == "light"
  {
    if theme == "dark" then "light" else "dark"
  }

  /** Toggling twice restores a dark or light page; any other stored mode settles on 'dark'. */
  lemma ToggleThemeTwice(theme: string)
    ensures theme == "dark" || theme == "light" ==> ToggledTheme(ToggledTheme(theme)) == theme
    ensures theme != "dark" && theme != "light" ==> ToggledTheme(ToggledTheme(theme)) == "light"
  {
  }

  /** The mode a `themeChanged` event selects: 'dark' only for a theme named exactly 'Dark'. */
  function ThemeModeFor(t: Theme): (r: string)
    ensures r == "dark" <==> t.name == Some("Dark")
    ensures r == "dark" || r == "light"
  {
    if t.name == Some("Dark") then "dark" else "light"
  }

  /** The theme handler publishes themes without a name, which always select 'light'. */
  lemma UnnamedThemeIsLight(primary: string, accent: string)
    ensures ThemeModeFor(Theme(None, primary, accent)) == "light"
  {
  }

  function ClockStyleFor(isDigital: bool): (r: string)
    ensures r == "digital" <==> isDigital
    ensures r == "digital" || r == "analog"
  {
    if isDigital then "digital" else "analog"
  }

  function ToggledClockStyle(style: string): (r: string)
    ensures r == "analog" <==> style == "digital"
    ensures r == "digital" || r == "analog"
  {
    if style == "digital" then "analog" else "digital"
  }

  lemma ToggleClockStyleTwice(isDigital: bool)
    ensures ToggledClockStyle(ToggledClockStyle(ClockStyleFor(isDigital))) == ClockStyleFor(isDigital)
  {
  }

  class Page {
    var clockStyle: string
    var isSettingsOpen: bool
    var isBookmarksOpen: bool
    var greeting: string
    var userName: string
    var theme: string
    var advancedFeaturesEnabled: bool
    const store: Store

    /** The page after its mount effects, at the given hour of the day. */
    constructor (store: Store, hour: nat)
      ensures this.store == store && clockStyle == "digital" && !isSettingsOpen && !isBookmarksOpen
      ensures greeting == Greeting(hour) && userName == TextOr(store.items, UserNameKey, "User")
      ensures theme == TextOr(store.items, ThemeModeKey, "dark") && advancedFeaturesEnabled == InitialAdvanced(store.items)
    {
      this.store := store;
      clockStyle := "digital";
      isSettingsOpen := false;
      isBookmarksOpen := false;
      theme := TextOr(store.items, ThemeModeKey, "dark");
      advancedFeaturesEnabled := InitialAdvanced(store.items);
      userName := TextOr(store.items, UserNameKey, "User");
      greeting := Greeting(hour);
    }

    method HandleUserNameChange(name: string)
      modifies this`userName
      ensures userName == name
    {
      userName := name;
    }

    method HandleClockTypeChange(isDigital: bool)
      modifies this`clockStyle
      ensures clockStyle == ClockStyleFor(isDigital)
    {
      clockStyle := if isDigital then "digital" else "analog";
    }

    method HandleThemeChange(t: Theme)
      modifies this`theme
      ensures theme == ThemeModeFor(t)
    {
      theme := if t.name == Some("Dark") then "dark" else "light";
    }

    method HandleAdvancedFeaturesChange(enabled: bool)
      modifies this`advancedFeaturesEnabled
      ensures advancedFeaturesEnabled == enabled
    {
      advancedFeaturesEnabled := enabled;
    }

    method ToggleClockStyle()
      modifies this`clockStyle
      ensures clockStyle == ToggledClockStyle(old(clockStyle))
    {
      clockStyle := if clockStyle == "digital" then "analog" else "digital";
    }

    /** `toggleTheme`: the new mode is shown and stored; a reload shows it again. */
    method ToggleTheme()
      modifies this`theme, store
      ensures theme == ToggledTheme(old(theme))
      ensures store.items == old(store.items)[ThemeModeKey := Text(theme)]
      ensures TextOr(store.items, ThemeModeKey, "dark") == theme
    {
      var newTheme := if theme == "dark" then "light" else "dark";
      theme := newTheme;
      store.Set(ThemeModeKey, Text(newTheme));
    }

    method ToggleBookmarks()
      modifies this`isBookmarksOpen
      ensures isBookmarksOpen == !old(isBookmarksOpen)
    {
      isBookmarksOpen := !isBookmarksOpen;
    }

    method SetSettingsOpen(open: bool)
      modifies this`isSettingsOpen
      ensures isSettingsOpen == open
    {
      isSettingsOpen := open;
    }

    /**
     * A mouse-down: outside every panel, card and round button it closes the
     * bookmarks overlay and publishes `expandPanel` for category 'none' (the
     * publication is returned); inside one it does nothing.
     */
    method MouseDown(insidePanel: bool) returns (published: Option<Event>)
      modifies this`isBookmarksOpen
      ensures insidePanel ==> published == None && isBookmarksOpen == old(isBookmarksOpen)
      ensures !insidePanel ==> published == Some(ExpandPanel("none")) && !isBookmarksOpen
    {
      if !insidePanel {
        published := Some(ExpandPanel("none"));
        isBookmarksOpen := false;
      } else {
        published := None;
      }
    }
  }
}
