/** The two-tab bottom bar: the home map and the settings screen. */
module BottomNavigation {
  import opened Wrappers

  const HomePath: string := "/"
  const SettingsPath: string := "/settings"

  /** `getCurrentTab`: the settings tab on "/settings", the home tab on every other path. */
  function CurrentTab(pathname: string): (tab: nat)
    ensures tab == 0 || tab == 1
    ensures tab == 1 <==> pathname == SettingsPath
  {
    if pathname == HomePath then 0
    else if pathname == SettingsPath then 1
    else 0
  }

  /** `handleTabChange`: where selecting a tab navigates, if anywhere. */
  function TabTarget(newValue: int): (target: Option<string>)
    ensures target.Some? <==> newValue == 0 || newValue == 1
    ensures newValue == 0 ==> target == Some(HomePath)
    ensures newValue == 1 ==> target == Some(SettingsPath)
  {
    match newValue
    case 0 => Some(HomePath)
    case 1 => Some(SettingsPath)
    case _ => None
  }

  /** Selecting a tab leads to a path on which that tab is the current one. */
  lemma TabRoundTrip(tab: int)
    requires tab == 0 || tab == 1
    ensures TabTarget(tab).Some? && CurrentTab(TabTarget(tab).value) == tab
  {
  }

  /** The current tab's own target is the path, for the two paths the bar knows. */
  lemma PathRoundTrip(pathname: string)
    requires pathname == HomePath || pathname == SettingsPath
    ensures TabTarget(CurrentTab(pathname)) == Some(pathname)
  {
  }
}
