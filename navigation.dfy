/** The navigation state machine of the main loop: the module-level state as one value, one
    transition function per event kind, the once-per-frame sleep check, and what they promise. */
module Navigation {
  import opened Wrappers
  import opened Geometry
  import opened Layout

  /** pygame.K_c, the capture key. */
  const KeyC := 99
  /** Idle time in milliseconds after which the sleep lock engages (strictly more than this). */
  const IdleLimit := 30000
  /** Hover code of the HUD profile avatar. */
  const ProfileHover := -1
  /** Settings icons hover as their index plus this offset. */
  const SettingsHoverOffset := 100

  /** The colour of a captured screenshot (drawn at random by the caller). */
  datatype Color = Color(r: int, g: int, b: int)

  /** The module globals the event loop reads and writes. Brightness and volume are the integer
      slider positions: brightness is `brightness / 200` and volume is `volumeLevel / 100`. */
  datatype State = State(
    simulationOn: bool,
    locked: bool,
    lockTime: int,
    currentScreen: string,
    selectedIcon: Option<nat>,
    hoveredIcon: Option<int>,
    detachedJoycons: bool,
    powerPressed: bool,
    draggingBrightness: bool,
    draggingVolume: bool,
    brightness: int,
    volumeLevel: int,
    albumImages: seq<Color>,
    running: bool)

  /** One pygame event; every other event type falls through the handler chain. */
  datatype Event = Quit | KeyDown(key: int, shot: Color) | MouseButtonDown | MouseButtonUp | MouseMotion | Other

  /** The state at start-up: powered, unlocked, home screen, full brightness, volume 0.7. */
  const Initial := State(
    simulationOn := true, locked := false, lockTime := 0,
    currentScreen := "home", selectedIcon := None, hoveredIcon := None,
    detachedJoycons := true, powerPressed := false,
    draggingBrightness := false, draggingVolume := false,
    brightness := BrightnessTravel, volumeLevel := 70,
    albumImages := [], running := true)

  /** What every reachable state satisfies: sliders within their travel, a selection that names a
      home icon, and a hover code that names the avatar, a home icon or a settings icon. */
  ghost predicate Valid(s: State)
  {
    && 0 <= s.brightness <= BrightnessTravel
    && 0 <= s.volumeLevel <= VolumeTravel
    && (s.selectedIcon.Some? ==> s.selectedIcon.value < |HomeIcons|)
    && (s.hoveredIcon.Some? ==> ValidHover(s.hoveredIcon.value))
  }

  predicate ValidHover(h: int)
  {
    h == ProfileHover || 0 <= h < |HomeIcons|
    || SettingsHoverOffset <= h < SettingsHoverOffset + |SettingsIcons|
  }

  /** KEYDOWN: the capture key appends one screenshot while powered and unlocked; nothing else changes. */
  function KeyDownStep(s: State, key: int, shot: Color): (r: State)
    ensures key == KeyC && s.simulationOn && !s.locked ==> r == s.(albumImages := s.albumImages + [shot])
    ensures !(key == KeyC && s.simulationOn && !s.locked) ==> r == s
  {
    if key == KeyC && s.simulationOn && !s.locked then
      s.(albumImages := s.albumImages + [shot])
    else
      s
  }

  /** MOUSEBUTTONDOWN at (mx, my): while locked the click only unlocks and is swallowed. */
  function MouseDownStep(s: State, mx: int, my: int): (r: State)
    ensures s.locked ==> r == s.(locked := false)
    ensures !s.locked ==> r == ClickStep(s, mx, my)
    ensures r.powerPressed == (s.powerPressed || (!s.locked && Contains(PowerButtonRect, mx, my)))
    ensures r.detachedJoycons == (s.detachedJoycons && (s.locked || !Contains(LeftJoyconRect, mx, my)))
  {
    if s.locked then s.(locked := false) else ClickStep(s, mx, my)
  }

  /** The fields a click never touches: power, lock, idle timer, hover, sliders, album, loop flag. */
  predicate SameDevice(s: State, r: State)
  {
    && r.locked == s.locked && r.simulationOn == s.simulationOn && r.lockTime == s.lockTime
    && r.hoveredIcon == s.hoveredIcon && r.running == s.running
    && r.brightness == s.brightness && r.volumeLevel == s.volumeLevel && r.albumImages == s.albumImages
  }

  /** An unlocked MOUSEBUTTONDOWN, tested in this order: the left joy-con attaches if detached, the
      avatar opens "profile", a home icon opens its screen, the settings brightness bar and the
      volume bar start a drag, the home button returns home, and the power button is pressed. */
  function ClickStep(s: State, mx: int, my: int): (r: State)
    ensures SameDevice(s, r)
    ensures r.powerPressed == (s.powerPressed || Contains(PowerButtonRect, mx, my))
    ensures r.detachedJoycons == (s.detachedJoycons && !Contains(LeftJoyconRect, mx, my))
    ensures r.draggingVolume == (s.draggingVolume || Contains(VolumeSliderRect, mx, my))
    ensures r.draggingBrightness
              == (s.draggingBrightness
                  || (ClickNavigate(s, mx, my).currentScreen == "settings" && Contains(BrightnessSliderRect, mx, my)))
    ensures Contains(HomeButtonRect, mx, my) ==> r.currentScreen == "home" && r.selectedIcon == None
    ensures Contains(ProfileRect, mx, my) ==> r.currentScreen == "profile" && r.selectedIcon == s.selectedIcon
    ensures (!Contains(ProfileRect, mx, my) && s.currentScreen == "home" && HomeHit(mx, my).Some?)
              ==> r.currentScreen == HomeIcons[HomeHit(mx, my).value].id && r.selectedIcon == HomeHit(mx, my)
    ensures (!Contains(HomeButtonRect, mx, my) && !Contains(ProfileRect, mx, my)
             && (s.currentScreen != "home" || HomeHit(mx, my).None?))
              ==> r.currentScreen == s.currentScreen && r.selectedIcon == s.selectedIcon
  {
    ClickControls(ClickNavigate(s, mx, my), mx, my)
  }

  /** The first half of a click: joy-con zone, avatar, then the home icons of the screen now shown. */
  function ClickNavigate(s: State, mx: int, my: int): (r: State)
    ensures SameDevice(s, r)
    ensures r.powerPressed == s.powerPressed && r.draggingVolume == s.draggingVolume
    ensures r.draggingBrightness == s.draggingBrightness
    ensures r.detachedJoycons == (s.detachedJoycons && !Contains(LeftJoyconRect, mx, my))
    ensures Contains(ProfileRect, mx, my) ==> r.currentScreen == "profile" && r.selectedIcon == s.selectedIcon
    ensures (!Contains(ProfileRect, mx, my) && s.currentScreen == "home" && HomeHit(mx, my).Some?)
              ==> r.currentScreen == HomeIcons[HomeHit(mx, my).value].id && r.selectedIcon == HomeHit(mx, my)
    ensures (!Contains(ProfileRect, mx, my) && (s.currentScreen != "home" || HomeHit(mx, my).None?))
              ==> r.currentScreen == s.currentScreen && r.selectedIcon == s.selectedIcon
  {
    var s1 := if s.detachedJoycons && Contains(LeftJoyconRect, mx, my) then s.(detachedJoycons := false) else s;
    var s2 := if Contains(ProfileRect, mx, my) then s1.(currentScreen := "profile") else s1;
    // A click on a settings sub-icon is only logged.
    if s2.currentScreen == "home" then
      SelectHomeIcon(s2, mx, my)
    else s2
  }

  /** The second half of a click: slider drags, home button, power button. */
  function ClickControls(s: State, mx: int, my: int): (r: State)
    ensures SameDevice(s, r) && r.detachedJoycons == s.detachedJoycons
    ensures r.draggingBrightness
              == (s.draggingBrightness || (s.currentScreen == "settings" && Contains(BrightnessSliderRect, mx, my)))
    ensures r.powerPressed == (s.powerPressed || Contains(PowerButtonRect, mx, my))
    ensures r.draggingVolume == (s.draggingVolume || Contains(VolumeSliderRect, mx, my))
    ensures Contains(HomeButtonRect, mx, my) ==> r.currentScreen == "home" && r.selectedIcon == None
    ensures !Contains(HomeButtonRect, mx, my) ==> r.currentScreen == s.currentScreen && r.selectedIcon == s.selectedIcon
  {
    var s1 := if s.currentScreen == "settings" && Contains(BrightnessSliderRect, mx, my) then s.(draggingBrightness := true) else s;
    var s2 := if Contains(VolumeSliderRect, mx, my) then s1.(draggingVolume := true) else s1;
    var s3 := if Contains(HomeButtonRect, mx, my) then s2.(currentScreen := "home", selectedIcon := None) else s2;
    if Contains(PowerButtonRect, mx, my) then s3.(powerPressed := true) else s3
  }

  /** The home-screen icon search of a click: the first icon under the pointer is selected and its
      screen opened; with no icon under the pointer nothing changes. */
  function SelectHomeIcon(s: State, mx: int, my: int): (r: State)
    ensures SameDevice(s, r) && r.detachedJoycons == s.detachedJoycons && r.powerPressed == s.powerPressed
    ensures r.draggingVolume == s.draggingVolume && r.draggingBrightness == s.draggingBrightness
    ensures HomeHit(mx, my).Some? ==> r == s.(selectedIcon := HomeHit(mx, my), currentScreen := HomeIcons[HomeHit(mx, my).value].id)
    ensures HomeHit(mx, my).None? ==> r == s
    // Implied by the update above; stated by field so that ClickNavigate's proof stays small.
    ensures (HomeHit(mx, my).Some?)
              ==> r.currentScreen == HomeIcons[HomeHit(mx, my).value].id && r.selectedIcon == HomeHit(mx, my)
  {
    match HomeHit(mx, my)
    case Some(i) => s.(selectedIcon := Some(i), currentScreen := HomeIcons[i].id)
    case None => s
  }

  /** MOUSEBUTTONUP at (mx, my): both drags end wherever the pointer is; a pending power press is
      consumed, and toggles the power (locking when it switches off) only if released on the button. */
  function MouseUpStep(s: State, mx: int, my: int): (r: State)
    ensures !r.draggingBrightness && !r.draggingVolume && !r.powerPressed
    ensures r.simulationOn == (s.simulationOn != (s.powerPressed && Contains(PowerButtonRect, mx, my)))
    ensures r.simulationOn != s.simulationOn ==> r.locked == !r.simulationOn
    ensures r.simulationOn == s.simulationOn ==> r.locked == s.locked
    ensures r == s.(draggingBrightness := false, draggingVolume := false, powerPressed := false,
                    simulationOn := r.simulationOn, locked := r.locked)
  {
    var s1 := s.(draggingBrightness := false, draggingVolume := false);
    if s1.powerPressed then
      var s2 :=
        if Contains(PowerButtonRect, mx, my) then
          var on := !s1.simulationOn;
          s1.(simulationOn := on, locked := !on)
        else s1;
      s2.(powerPressed := false)
    else
      s1
  }

  /** The hover code after one MOUSEMOTION: a home or settings icon under the pointer on its
      screen, overridden by the avatar; otherwise the code is left as it was. */
  function HoverAfterMotion(s: State, mx: int, my: int): (h: Option<int>)
    ensures Contains(ProfileRect, mx, my) ==> h == Some(ProfileHover)
    ensures (!Contains(ProfileRect, mx, my) && s.currentScreen == "home" && HomeHit(mx, my).Some?)
              ==> h == Some(HomeHit(mx, my).value as int)
    ensures (!Contains(ProfileRect, mx, my) && s.currentScreen == "settings" && SettingsHit(mx, my).Some?)
              ==> h == Some(SettingsHit(mx, my).value + SettingsHoverOffset)
    ensures (!Contains(ProfileRect, mx, my)
             && (s.currentScreen == "home" ==> HomeHit(mx, my).None?)
             && (s.currentScreen == "settings" ==> SettingsHit(mx, my).None?))
              ==> h == s.hoveredIcon
  {
    var h :=
      if s.currentScreen == "home" then
        match HomeHit(mx, my)
        case Some(i) => Some(i as int)
        case None => s.hoveredIcon
      else if s.currentScreen == "settings" then
        match SettingsHit(mx, my)
        case Some(i) => Some(i + SettingsHoverOffset)
        case None => s.hoveredIcon
      else s.hoveredIcon;
    if Contains(ProfileRect, mx, my) then Some(ProfileHover) else h
  }

  /** MOUSEMOTION at (mx, my): recomputes the hover code and moves each slider being dragged to
      the pointer, clamped to its bar. */
  function MotionStep(s: State, mx: int, my: int): (r: State)
    ensures Contains(ProfileRect, mx, my) ==> r.hoveredIcon == Some(ProfileHover)
    ensures (!Contains(ProfileRect, mx, my) && s.currentScreen == "home" && HomeHit(mx, my).Some?)
              ==> r.hoveredIcon == Some(HomeHit(mx, my).value as int)
    ensures (!Contains(ProfileRect, mx, my) && s.currentScreen == "settings" && SettingsHit(mx, my).Some?)
              ==> r.hoveredIcon == Some(SettingsHit(mx, my).value + SettingsHoverOffset)
    ensures (!Contains(ProfileRect, mx, my)
             && (s.currentScreen == "home" ==> HomeHit(mx, my).None?)
             && (s.currentScreen == "settings" ==> SettingsHit(mx, my).None?))
              ==> r.hoveredIcon == s.hoveredIcon
    ensures s.draggingBrightness ==> r.brightness == Clamp(mx - BrightnessSliderRect.x, 0, BrightnessTravel)
    ensures !s.draggingBrightness ==> r.brightness == s.brightness
    ensures s.draggingVolume ==> r.volumeLevel == Clamp(mx - VolumeSliderRect.x, 0, VolumeTravel)
    ensures !s.draggingVolume ==> r.volumeLevel == s.volumeLevel
    ensures r == s.(hoveredIcon := r.hoveredIcon, brightness := r.brightness, volumeLevel := r.volumeLevel)
  {
    var b := if s.draggingBrightness then Clamp(mx - ScreenX - 20, 0, BrightnessTravel) else s.brightness;
    var v := if s.draggingVolume then Clamp(mx - 60, 0, VolumeTravel) else s.volumeLevel;
    s.(hoveredIcon := HoverAfterMotion(s, mx, my), brightness := b, volumeLevel := v)
  }

  /** One event of the frame, with the pointer position sampled at the start of the frame. */
  function EventStep(s: State, e: Event, mx: int, my: int): (r: State)
    ensures r.lockTime == s.lockTime
    ensures r.hoveredIcon != s.hoveredIcon ==> e == MouseMotion
    ensures r.detachedJoycons ==> s.detachedJoycons
    ensures r.brightness != s.brightness ==> e == MouseMotion && s.draggingBrightness
    ensures r.volumeLevel != s.volumeLevel ==> e == MouseMotion && s.draggingVolume
  {
    match e
    case Quit => s.(running := false)
    case KeyDown(key, shot) => KeyDownStep(s, key, shot)
    case MouseButtonDown => MouseDownStep(s, mx, my)
    case MouseButtonUp => MouseUpStep(s, mx, my)
    case MouseMotion => MotionStep(s, mx, my)
    case Other => s
  }

  /** The events of one frame, applied in arrival order. No event restarts the idle timer,
      attached joy-cons never detach again, and without a MOUSEMOTION the hover code is kept. */
  function EventsStep(s: State, es: seq<Event>, mx: int, my: int): (r: State)
    decreases |es|
    ensures r.lockTime == s.lockTime
    ensures r.detachedJoycons ==> s.detachedJoycons
    ensures MouseMotion !in es ==> r.hoveredIcon == s.hoveredIcon
  {
    if es == [] then s
    else
      var init := es[..|es| - 1];
      assert forall e :: e in init ==> e in es;
      EventStep(EventsStep(s, init, mx, my), es[|es| - 1], mx, my)
  }

  /** The sleep check after the events: lock when powered, unlocked and idle for strictly more
      than 30 s since `lockTime`, and restart the timer only then. */
  function SleepStep(s: State, now: int): (r: State)
    ensures r.locked == (s.locked || (s.simulationOn && now - s.lockTime > IdleLimit))
    ensures r.lockTime == (if !s.locked && s.simulationOn && now - s.lockTime > IdleLimit then now else s.lockTime)
    ensures r == s.(locked := r.locked, lockTime := r.lockTime)
  {
    if s.simulationOn && !s.locked && now - s.lockTime > IdleLimit then
      s.(locked := true, lockTime := now)
    else
      s
  }

  /** One pass of the main loop: hover cleared, the frame's events, then the sleep check. A frame
      without pointer motion ends with nothing hovered; the timer restarts only as the lock engages;
      and no frame ends powered and unlocked with the console idle for more than 30 s. */
  function FrameStep(s: State, mx: int, my: int, es: seq<Event>, now: int): (r: State)
    ensures MouseMotion !in es ==> r.hoveredIcon == None
    ensures r.lockTime != s.lockTime ==> r.lockTime == now && r.locked
    ensures r.simulationOn && !r.locked ==> now - r.lockTime <= IdleLimit
  {
    SleepStep(EventsStep(s.(hoveredIcon := None), es, mx, my), now)
  }

}
