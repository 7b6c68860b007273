/** The fixed window layout: screen placement, the two icon catalogues with their grids,
    and the clickable rectangles of the bezel, HUD and bottom bar. */
module Layout {
  import opened Wrappers
  import opened Geometry

  const WinW := 600
  const WinH := 400
  const ScreenW := 460
  const ScreenH := 260
  /** The inner screen is centred horizontally in the window. */
  const ScreenX := (WinW - ScreenW) / 2
  const ScreenY := 70

  const IconSpacing := 85
  const IconStartX := ScreenX + 30
  const IconStartY := ScreenY + 50

  /** A catalogue entry: the caption drawn under the glyph and the screen it opens. */
  datatype Icon = Icon(caption: string, id: string)

  /** ICONS: the twelve icons of the home menu, in grid order. */
  const HomeIcons: seq<Icon> := [
    Icon("Games", "games"),
    Icon("eShop", "eshop"),
    Icon("Album", "album"),
    Icon("Settings", "settings"),
    Icon("News", "news"),
    Icon("Profile", "profile"),
    Icon("Themes", "themes"),
    Icon("Stats", "stats"),
    Icon("Controllers", "controllers"),
    Icon("System", "system"),
    Icon("Data", "data"),
    Icon("Help", "help")
  ]

  /** SETTINGS_ICONS: the five icons of the settings screen. */
  const SettingsIcons: seq<Icon> := [
    Icon("Brightness", "brightness"),
    Icon("Volume", "volume"),
    Icon("Bluetooth", "bluetooth"),
    Icon("Calibration", "calibration"),
    Icon("Internet", "internet")
  ]

  /** Home icons: `get_icon_rect` with its defaults (six per row, pitch 85). */
  const HomeGrid := Grid(IconStartX, IconStartY, IconSpacing, 6)
  /** Settings icons as the event loop tests them, in window coordinates (three per row, pitch 90). */
  const SettingsGrid := Grid(ScreenX + 40, ScreenY + 80, 90, 3)

  /** Left joy-con body, the joy-con attach/detach zone. */
  const LeftJoyconRect := Rect(20, 100, 80, 200)
  /** The profile avatar in the HUD. */
  const ProfileRect := Rect(15, 5, 40, 40)
  /** Brightness slider bar of the settings screen, in window coordinates. */
  const BrightnessSliderRect := Rect(ScreenX + 20, ScreenY + 200, 200, 20)
  /** Volume slider bar of the bottom bar. */
  const VolumeSliderRect := Rect(60, WinH - 35, 100, 20)
  const HomeButtonRect := Rect(WinW / 2 - 25 - 9, WinH - 25 - 9, 36, 36)
  const PowerButtonRect := Rect(WinW - 100, WinH - 45, 40, 40)

  /** Slider travel in pixels: brightness is position / 200, volume is position / 100. */
  const BrightnessTravel := 200
  const VolumeTravel := 100

  /** Home icon hit-test used by clicks and hover: the icon whose rectangle holds the point,
      which is the cell the division-based test names; every hit lies in the icon band. */
  function HomeHit(px: int, py: int): (r: Option<nat>)
    ensures r.Some? ==> r.value < |HomeIcons| && Contains(IconRect(r.value, HomeGrid), px, py)
    ensures r.None? <==> forall i: nat :: i < |HomeIcons| ==> !Contains(IconRect(i, HomeGrid), px, py)
    ensures r == GridCell(HomeGrid, |HomeIcons|, px, py)
    ensures r.Some? ==> 100 <= px < 595 && 120 <= py < 275
  {
    var hit := FirstHit(HomeGrid, |HomeIcons|, px, py);
    FirstHitIsGridCell(HomeGrid, |HomeIcons|, px, py);
    if hit.Some? then HomeIconBounds(hit.value, px, py); hit else hit
  }

  /** Settings icon hit-test used by hover: the icon whose rectangle holds the point, which is
      the cell the division-based test names; every hit lies in the settings band. */
  function SettingsHit(px: int, py: int): (r: Option<nat>)
    ensures r.Some? ==> r.value < |SettingsIcons| && Contains(IconRect(r.value, SettingsGrid), px, py)
    ensures r.None? <==> forall i: nat :: i < |SettingsIcons| ==> !Contains(IconRect(i, SettingsGrid), px, py)
    ensures r == GridCell(SettingsGrid, |SettingsIcons|, px, py)
    ensures r.Some? ==> 110 <= px < 360 && 150 <= py < 310
  {
    var hit := FirstHit(SettingsGrid, |SettingsIcons|, px, py);
    FirstHitIsGridCell(SettingsGrid, |SettingsIcons|, px, py);
    if hit.Some? then assert 0 <= hit.value % 3 <= 2 && 0 <= hit.value / 3 <= 1; hit else hit
  }

  /** Every home icon lies in the band x in [100, 595), y in [120, 275) of the window. */
  lemma HomeIconBounds(i: nat, px: int, py: int)
    requires i < |HomeIcons| && Contains(IconRect(i, HomeGrid), px, py)
    ensures 100 <= px < 595 && 120 <= py < 275
  {
    assert 0 <= i % 6 <= 5 && 0 <= i / 6 <= 1;
  }

  /** A point on a home icon is on no other home icon and on none of the HUD or bottom-bar
      controls, so a click there is decided by the icon alone. */
  lemma HomeIconIsolated(i: nat, px: int, py: int)
    requires i < |HomeIcons| && Contains(IconRect(i, HomeGrid), px, py)
    ensures HomeHit(px, py) == Some(i)
    ensures !Contains(ProfileRect, px, py) && !Contains(HomeButtonRect, px, py)
    ensures !Contains(PowerButtonRect, px, py) && !Contains(VolumeSliderRect, px, py)
    ensures !Contains(LeftJoyconRect, px, py)
  {
    HomeIconBounds(i, px, py);
    FirstHitIsGridCell(HomeGrid, |HomeIcons|, px, py);
    GridCellInvertsIconRect(HomeGrid, |HomeIcons|, i, px, py);
  }

  /** The eShop example: any point of x in [185, 255), y in [120, 190) is home icon 1, "eshop". */
  lemma EshopCellResolves(px: int, py: int)
    requires 185 <= px < 255 && 120 <= py < 190
    ensures HomeHit(px, py) == Some(1) && HomeIcons[1].id == "eshop"
  {
    assert Contains(IconRect(1, HomeGrid), px, py);
    HomeIconIsolated(1, px, py);
  }

}
