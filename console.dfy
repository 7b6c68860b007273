/** The main loop of the simulator: the module globals as the fields of one object, one method per
    event kind that updates them in place, the sleep check, and one pass of the loop. */
module Simulator {
  import opened Wrappers
  import opened Geometry
  import opened Layout
  import opened Navigation
  import opened NavigationProperties
  import opened Render

  class Console {
    var simulationOn: bool
    var locked: bool
    var lockTime: int
    var currentScreen: string
    var selectedIcon: Option<nat>
    var hoveredIcon: Option<int>
    var detachedJoycons: bool
    var powerPressed: bool
    var draggingBrightness: bool
    var draggingVolume: bool
    /** Brightness slider position, 0..200. */
    var brightness: int
    /** Volume slider position, 0..100. */
    var volumeLevel: int
    var albumImages: seq<Color>
    var running: bool

    /** The globals as one value. */
    function Snapshot(): State
      reads this
    {
      State(simulationOn, locked, lockTime, currentScreen, selectedIcon, hoveredIcon,
            detachedJoycons, powerPressed, draggingBrightness, draggingVolume,
            brightness, volumeLevel, albumImages, running)
    }

    /** What the inner screen shows now, by the `draw_screen` chain with the Games branch
        reachable: "OFF" when powered down, the unlock prompt when locked, else the current
        screen's content, blank only for an id no branch draws. */
    function Shown(): (v: View)
      reads this
      ensures !simulationOn ==> v == OffNotice
      ensures simulationOn && locked ==> v == LockNotice
      ensures simulationOn && !locked && currentScreen == "games" ==> v == GameDemo
      ensures v == Blank <==> simulationOn && !locked && currentScreen !in DrawnScreens + {"games"}
    {
      ScreenView(Snapshot())
    }

    /** The module-level initialisation. */
    constructor ()
      ensures Snapshot() == Initial && Valid(Snapshot())
    {
      simulationOn, locked, lockTime := true, false, 0;
      currentScreen, selectedIcon, hoveredIcon := "home", None, None;
      detachedJoycons, powerPressed := true, false;
      draggingBrightness, draggingVolume := false, false;
      brightness, volumeLevel := BrightnessTravel, 70;
      albumImages, running := [], true;
    }

    /** QUIT: the loop ends after this pass. */
    method Quit()
      modifies this
      ensures Snapshot() == EventStep(old(Snapshot()), Event.Quit, 0, 0)
    {
      running := false;
    }

    /** KEYDOWN: C captures a screenshot of colour `shot` while powered and unlocked. */
    method KeyDown(key: int, shot: Color)
      modifies this
      ensures Snapshot() == KeyDownStep(old(Snapshot()), key, shot)
    {
      if key == KeyC && simulationOn && !locked {
        albumImages := albumImages + [shot];
      }
    }

    /** MOUSEBUTTONDOWN with the pointer at (mx, my): swallowed by the lock, else a click. */
    method MouseDown(mx: int, my: int)
      modifies this
      ensures Snapshot() == MouseDownStep(old(Snapshot()), mx, my)
    {
      if locked {
        locked := false;
        return;
      }
      Navigate(mx, my);
      PressControls(mx, my);
    }

    /** First half of an unlocked click: joy-con zone, avatar, then the home icons. */
    method Navigate(mx: int, my: int)
      modifies this
      ensures Snapshot() == ClickNavigate(old(Snapshot()), mx, my)
    {
      if detachedJoycons && Contains(LeftJoyconRect, mx, my) {
        detachedJoycons := !detachedJoycons;
      }
      if Contains(ProfileRect, mx, my) {
        currentScreen := "profile";
      }
      // A click on a settings sub-icon is only logged.
      if currentScreen == "home" {
        var hit := FindIcon(HomeGrid, |HomeIcons|, mx, my);
        if hit.Some? {
          selectedIcon := hit;
          currentScreen := HomeIcons[hit.value].id;
        }
      }
    }

    /** Second half of an unlocked click: slider bars, home button, power button. */
    method PressControls(mx: int, my: int)
      modifies this
      ensures Snapshot() == ClickControls(old(Snapshot()), mx, my)
    {
      if currentScreen == "settings" && Contains(BrightnessSliderRect, mx, my) {
        draggingBrightness := true;
      }
      if Contains(VolumeSliderRect, mx, my) {
        draggingVolume := true;
      }
      if Contains(HomeButtonRect, mx, my) {
        currentScreen := "home";
        selectedIcon := None;
      }
      if Contains(PowerButtonRect, mx, my) {
        powerPressed := true;
      }
    }

    /** MOUSEBUTTONUP with the pointer at (mx, my). */
    method MouseUp(mx: int, my: int)
      modifies this
      ensures Snapshot() == MouseUpStep(old(Snapshot()), mx, my)
    {
      draggingBrightness := false;
      draggingVolume := false;
      if powerPressed {
        if Contains(PowerButtonRect, mx, my) {
          simulationOn := !simulationOn;
          locked := !simulationOn;
        }
        powerPressed := false;
      }
    }

    /** MOUSEMOTION with the pointer at (mx, my). */
    method MouseMotion(mx: int, my: int)
      modifies this
      ensures Snapshot() == MotionStep(old(Snapshot()), mx, my)
    {
      hoveredIcon := HoverAt(mx, my);
      if draggingBrightness {
        brightness := Clamp(mx - ScreenX - 20, 0, BrightnessTravel);
      }
      if draggingVolume {
        volumeLevel := Clamp(mx - 60, 0, VolumeTravel);
      }
    }

    /** The hover code a motion to (mx, my) leaves: the icons of the screen shown are searched,
        then the avatar takes precedence. */
    method HoverAt(mx: int, my: int) returns (h: Option<int>)
      ensures h == HoverAfterMotion(Snapshot(), mx, my)
    {
      h := hoveredIcon;
      if currentScreen == "home" {
        var hit := FindIcon(HomeGrid, |HomeIcons|, mx, my);
        if hit.Some? {
          h := Some(hit.value as int);
        }
      } else if currentScreen == "settings" {
        var hit := FindIcon(SettingsGrid, |SettingsIcons|, mx, my);
        if hit.Some? {
          h := Some(hit.value + SettingsHoverOffset);
        }
      }
      if Contains(ProfileRect, mx, my) {
        h := Some(ProfileHover);
      }
    }

    /** The sleep check at the end of a pass, with `now` the tick count in milliseconds. */
    method Tick(now: int)
      modifies this
      ensures Snapshot() == SleepStep(old(Snapshot()), now)
    {
      if simulationOn && !locked && now - lockTime > IdleLimit {
        locked := true;
        lockTime := now;
      }
    }

    /** One pass of `while running`: the pointer sampled once at (mx, my), hover cleared, the
        pending events handled in order, then the sleep check. */
    method Frame(mx: int, my: int, events: seq<Event>, now: int)
      requires Valid(Snapshot())
      modifies this
      ensures Snapshot() == FrameStep(old(Snapshot()), mx, my, events, now)
      ensures Valid(Snapshot())
    {
      hoveredIcon := None;
      ghost var start := Snapshot();
      for k := 0 to |events|
        invariant Snapshot() == EventsStep(start, events[..k], mx, my)
      {
        assert events[..k + 1][..k] == events[..k];
        match events[k]
        case Quit => Quit();
        case KeyDown(key, shot) => KeyDown(key, shot);
        case MouseButtonDown => MouseDown(mx, my);
        case MouseButtonUp => MouseUp(mx, my);
        case MouseMotion => MouseMotion(mx, my);
        case Other =>
      }
      assert events[..|events|] == events;
      Tick(now);
      FrameKeepsValid(old(Snapshot()), mx, my, events, now);
    }
  }

}
