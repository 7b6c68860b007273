/** The screen-selection chain of `draw_screen`: which drawing procedure fills the inner screen. */
module Render {
  import opened Geometry
  import opened Layout
  import opened Navigation
  import opened NavigationProperties

  /** The inner-screen content; `Blank` is a screen id no branch of the chain draws. */
  datatype View =
    | OffNotice | LockNotice
    | GameDemo | HomeMenu | EShop | AlbumGrid | SettingsMenu | NewsFeed | ProfileCard
    | ThemesList | PlayStats | ControllersInfo | SystemInfo | DataManagement | HelpFaq | GameChat
    | Blank

  /** The screen ids the chain of `draw_screen` has a branch for. */
  const DrawnScreens: set<string> := {
    "game", "home", "eshop", "album", "settings", "news", "profile", "themes",
    "stats", "controllers", "system", "data", "help", "gamechat"
  }

  /** The screen id whose branch draws content `v`; the notices and the blank screen have none. */
  function ScreenOf(v: View): (screen: string)
    ensures screen in DrawnScreens <==> v !in {OffNotice, LockNotice, Blank}
  {
    match v
    case GameDemo => "game"
    case HomeMenu => "home"
    case EShop => "eshop"
    case AlbumGrid => "album"
    case SettingsMenu => "settings"
    case NewsFeed => "news"
    case ProfileCard => "profile"
    case ThemesList => "themes"
    case PlayStats => "stats"
    case ControllersInfo => "controllers"
    case SystemInfo => "system"
    case DataManagement => "data"
    case HelpFaq => "help"
    case GameChat => "gamechat"
    case _ => ""
  }

  /** The `elif current_screen == ...` branches as written: each drawn id gets the content whose
      branch tests that id. */
  function ContentViewAsWritten(screen: string): (v: View)
    ensures v != OffNotice && v != LockNotice
    ensures v == Blank <==> screen !in DrawnScreens
    ensures v != Blank ==> ScreenOf(v) == screen
  {
    if screen == "game" then GameDemo
    else if screen == "home" then HomeMenu
    else if screen == "eshop" then EShop
    else if screen == "album" then AlbumGrid
    else if screen == "settings" then SettingsMenu
    else if screen == "news" then NewsFeed
    else if screen == "profile" then ProfileCard
    else if screen == "themes" then ThemesList
    else if screen == "stats" then PlayStats
    else if screen == "controllers" then ControllersInfo
    else if screen == "system" then SystemInfo
    else if screen == "data" then DataManagement
    else if screen == "help" then HelpFaq
    else if screen == "gamechat" then GameChat
    else Blank
  }

  /** The chain with the Games icon's id "games" also routed to the game demo. */
  function ContentView(screen: string): (v: View)
    ensures v != OffNotice && v != LockNotice
    ensures v == Blank <==> screen !in DrawnScreens + {"games"}
    ensures screen != "games" ==> v == ContentViewAsWritten(screen)
    ensures screen == "games" ==> v == GameDemo
    ensures screen != "games" && v != Blank ==> ScreenOf(v) == screen
  {
    if screen == "games" then GameDemo else ContentViewAsWritten(screen)
  }

  /** `draw_screen` as written: "OFF" when powered down, the unlock prompt when locked, else the
      branch for the current screen. */
  function ScreenViewAsWritten(s: State): (v: View)
    ensures !s.simulationOn ==> v == OffNotice
    ensures s.simulationOn && s.locked ==> v == LockNotice
    ensures v == Blank <==> s.simulationOn && !s.locked && s.currentScreen !in DrawnScreens
    ensures s.simulationOn && !s.locked && v != Blank ==> ScreenOf(v) == s.currentScreen
  {
    if !s.simulationOn then OffNotice
    else if s.locked then LockNotice
    else ContentViewAsWritten(s.currentScreen)
  }

  /** `draw_screen` with the Games branch reachable. */
  function ScreenView(s: State): (v: View)
    ensures !s.simulationOn ==> v == OffNotice
    ensures s.simulationOn && s.locked ==> v == LockNotice
    ensures v == Blank <==> s.simulationOn && !s.locked && s.currentScreen !in DrawnScreens + {"games"}
    ensures s.simulationOn && !s.locked && s.currentScreen == "games" ==> v == GameDemo
    ensures (s.simulationOn && !s.locked && s.currentScreen != "games" && v != Blank)
              ==> ScreenOf(v) == s.currentScreen
  {
    if !s.simulationOn then OffNotice
    else if s.locked then LockNotice
    else ContentView(s.currentScreen)
  }

  /** What is drawn depends only on power, lock and the current screen: hover, selection,
      drags, sliders and album never change the choice. */
  lemma ViewDependsOnScreenState(s: State, t: State)
    requires s.simulationOn == t.simulationOn && s.locked == t.locked && s.currentScreen == t.currentScreen
    ensures ScreenView(s) == ScreenView(t) && ScreenViewAsWritten(s) == ScreenViewAsWritten(t)
  {
  }

  /** As written, clicking the Games icon opens screen "games", for which `draw_screen` has no
      branch: the screen stays blank, and the game demo is never drawn. */
  lemma GamesIconOpensBlankScreenAsWritten(s: State, mx: int, my: int)
    requires s.simulationOn && !s.locked && s.currentScreen == "home"
    requires Contains(IconRect(0, HomeGrid), mx, my)
    ensures ScreenViewAsWritten(MouseDownStep(s, mx, my)) == Blank
  {
    HomeIconClickOpensScreen(s, 0, mx, my);
    assert HomeIcons[0].id == "games";
  }

  /** Every home icon opens a screen that the corrected chain draws, and the Games icon opens
      the game demo. */
  lemma HomeIconOpensDrawnScreen(s: State, i: nat, mx: int, my: int)
    requires s.simulationOn && !s.locked && s.currentScreen == "home"
    requires i < |HomeIcons| && Contains(IconRect(i, HomeGrid), mx, my)
    ensures ScreenView(MouseDownStep(s, mx, my)) != Blank
    ensures i == 0 ==> ScreenView(MouseDownStep(s, mx, my)) == GameDemo
  {
    HomeIconClickOpensScreen(s, i, mx, my);
    assert HomeIcons[0].id == "games";
    assert forall k :: 0 <= k < |HomeIcons| ==> HomeIcons[k].id in DrawnScreens + {"games"};
  }

}
