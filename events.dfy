/**
 * The same-page named events the widgets exchange through `window`
 * (`new CustomEvent(name, { detail })`): the event name with its detail payload.
 */
module Events {
  import opened Wrappers

  /** A theme detail as published: its name may be missing. */
  datatype Theme = Theme(name: Option<string>, primary: string, accent: string)

  datatype Event =
    | ExpandPanel(category: string)
    | ToolPanelExpanded(category: string, position: string)
    | UserNameChanged(userName: string)
    | ClockTypeChanged(isDigital: bool)
    | ClockFormatChanged(is24Hour: bool)
    | ThemeChanged(theme: Theme)
    | WeatherLocationChanged(location: string, useCustomLocation: bool)
    | AdvancedFeaturesChanged(enabled: bool)

  /** The event type string handlers are registered under. */
  function Name(e: Event): string {
    match e
    case ExpandPanel(_) => "expandPanel"
    case ToolPanelExpanded(_, _) => "tool-panel-expanded"
    case UserNameChanged(_) => "userNameChanged"
    case ClockTypeChanged(_) => "clockTypeChanged"
    case ClockFormatChanged(_) => "clockFormatChanged"
    case ThemeChanged(_) => "themeChanged"
    case WeatherLocationChanged(_, _) => "weatherLocationChanged"
    case AdvancedFeaturesChanged(_) => "advancedFeaturesChanged"
  }
}
