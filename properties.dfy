/** Properties of the navigation state machine that relate several events or whole frames. */
module NavigationProperties {
  import opened Wrappers
  import opened Geometry
  import opened Layout
  import opened Navigation

  /** An unlocked click on home icon `i` while the home menu is shown selects `i` and opens the
      icon's screen; the device state is untouched. */
  lemma HomeIconClickOpensScreen(s: State, i: nat, mx: int, my: int)
    requires !s.locked && s.currentScreen == "home"
    requires i < |HomeIcons| && Contains(IconRect(i, HomeGrid), mx, my)
    ensures MouseDownStep(s, mx, my).currentScreen == HomeIcons[i].id
    ensures MouseDownStep(s, mx, my).selectedIcon == Some(i)
    ensures SameDevice(s, MouseDownStep(s, mx, my))
  {
    HomeIconIsolated(i, mx, my);
    var n := ClickNavigate(s, mx, my);
    assert n.currentScreen == HomeIcons[i].id && n.selectedIcon == Some(i);
  }

  /** The eShop example: on the home menu, a click in x in [185, 255), y in [120, 190) selects
      icon 1 and opens "eshop". */
  lemma EshopClick(s: State, mx: int, my: int)
    requires !s.locked && s.currentScreen == "home"
    requires 185 <= mx < 255 && 120 <= my < 190
    ensures MouseDownStep(s, mx, my).currentScreen == "eshop"
    ensures MouseDownStep(s, mx, my).selectedIcon == Some(1)
  {
    assert Contains(IconRect(1, HomeGrid), mx, my);
    HomeIconClickOpensScreen(s, 1, mx, my);
  }

  /** A press and a release toggle the power exactly when both land on the power button. */
  lemma PowerToggleNeedsPressAndRelease(s: State, px: int, py: int, rx: int, ry: int)
    requires !s.locked && !s.powerPressed
    ensures (MouseUpStep(MouseDownStep(s, px, py), rx, ry).simulationOn != s.simulationOn)
              <==> Contains(PowerButtonRect, px, py) && Contains(PowerButtonRect, rx, ry)
  {
  }

  /** A point on the power button lies on no other control and on no home icon. */
  lemma PowerButtonIsolated(px: int, py: int)
    requires Contains(PowerButtonRect, px, py)
    ensures !Contains(LeftJoyconRect, px, py) && !Contains(ProfileRect, px, py)
    ensures !Contains(BrightnessSliderRect, px, py) && !Contains(VolumeSliderRect, px, py)
    ensures !Contains(HomeButtonRect, px, py) && HomeHit(px, py).None?
  {
  }

  /** Power cycling on the button: press and release switch off (and lock); the next click only
      unlocks; a second press and release switch on again. The console comes back exactly as it
      was, so brightness, volume, screen and album survive. */
  lemma PowerCycleRestoresState(s: State, px: int, py: int)
    requires s.simulationOn && !s.locked && !s.powerPressed
    requires !s.draggingBrightness && !s.draggingVolume
    requires Contains(PowerButtonRect, px, py)
    ensures var off := EventsStep(s, [MouseButtonDown, MouseButtonUp], px, py);
            !off.simulationOn && off.locked
    ensures var off := EventsStep(s, [MouseButtonDown, MouseButtonUp], px, py);
            EventsStep(off, [MouseButtonDown, MouseButtonDown, MouseButtonUp], px, py) == s
  {
    PowerButtonIsolated(px, py);
    var d1 := MouseDownStep(s, px, py);
    assert d1 == s.(powerPressed := true);
    var off := MouseUpStep(d1, px, py);
    assert off == s.(simulationOn := false, locked := true);
    assert EventsStep(s, [MouseButtonDown, MouseButtonUp], px, py) == off by {
      assert [MouseButtonDown, MouseButtonUp][..1] == [MouseButtonDown];
      assert EventsStep(s, [MouseButtonDown], px, py) == d1 by {
        assert [MouseButtonDown][..0] == [];
      }
    }
    var u := MouseDownStep(off, px, py);
    assert u == s.(simulationOn := false);
    var d2 := MouseDownStep(u, px, py);
    assert d2 == s.(simulationOn := false, powerPressed := true);
    var on := MouseUpStep(d2, px, py);
    assert on == s;
    var es := [MouseButtonDown, MouseButtonDown, MouseButtonUp];
    assert EventsStep(off, es, px, py) == on by {
      assert es[..2] == [MouseButtonDown, MouseButtonDown];
      assert es[..2][..1] == [MouseButtonDown];
      assert [MouseButtonDown][..0] == [];
    }
  }

  /** The KEYDOWN events of pressing C once per screenshot colour. */
  function Captures(shots: seq<Color>): (es: seq<Event>)
    ensures |es| == |shots|
    ensures forall k :: 0 <= k < |shots| ==> es[k] == KeyDown(KeyC, shots[k])
  {
    if shots == [] then [] else Captures(shots[..|shots| - 1]) + [KeyDown(KeyC, shots[|shots| - 1])]
  }

  /** Pressing C n times while powered and unlocked appends exactly those n screenshots, in
      order, and changes nothing else. */
  lemma {:induction false} CapturesAppendInOrder(s: State, shots: seq<Color>, mx: int, my: int)
    requires s.simulationOn && !s.locked
    ensures EventsStep(s, Captures(shots), mx, my) == s.(albumImages := s.albumImages + shots)
  {
    if shots != [] {
      var init := shots[..|shots| - 1];
      var es := Captures(shots);
      assert es[..|es| - 1] == Captures(init);
      CapturesAppendInOrder(s, init, mx, my);
      assert s.albumImages + init + [shots[|shots| - 1]] == s.albumImages + shots;
    }
  }

  /** Pressing C while off or locked never adds a screenshot. */
  lemma {:induction false} CapturesIgnoredWhenLocked(s: State, shots: seq<Color>, mx: int, my: int)
    requires !s.simulationOn || s.locked
    ensures EventsStep(s, Captures(shots), mx, my) == s
  {
    if shots != [] {
      var es := Captures(shots);
      assert es[..|es| - 1] == Captures(shots[..|shots| - 1]);
      CapturesIgnoredWhenLocked(s, shots[..|shots| - 1], mx, my);
    }
  }

  /** Lock round trip over whole frames: an idle frame more than 30 s after the timer started
      locks the console, and a frame holding one click within 30 s after that unlocks it again,
      giving back the state before the lock with only the timer restarted and the hover cleared. */
  lemma IdleFrameThenClickRestores(s: State, mx1: int, my1: int, now1: int, mx2: int, my2: int, now2: int)
    requires s.simulationOn && !s.locked && now1 - s.lockTime > IdleLimit && now2 - now1 <= IdleLimit
    ensures FrameStep(s, mx1, my1, [], now1).locked
    ensures FrameStep(FrameStep(s, mx1, my1, [], now1), mx2, my2, [MouseButtonDown], now2)
            == s.(lockTime := now1, hoveredIcon := None)
  {
  }

  /** Because the timer restarts only when the lock engages, a click that unlocks the console
      more than 30 s after it locked is undone by the sleep check of the same frame. */
  lemma UnlockAfterLongIdleRelocks(s: State, mx: int, my: int, now: int)
    requires s.simulationOn && s.locked && now - s.lockTime > IdleLimit
    ensures FrameStep(s, mx, my, [MouseButtonDown], now).locked
    ensures FrameStep(s, mx, my, [MouseButtonDown], now).lockTime == now
  {
    var s0 := s.(hoveredIcon := None);
    assert [MouseButtonDown][..0] == [];
    assert EventsStep(s0, [MouseButtonDown], mx, my) == s0.(locked := false);
  }

  /** Two motions at the same position leave the same state as one. */
  lemma MotionIdempotent(s: State, mx: int, my: int)
    ensures MotionStep(MotionStep(s, mx, my), mx, my) == MotionStep(s, mx, my)
  {
  }

  /** Dragging a slider further right never lowers it. */
  lemma SlidersMonotone(s: State, mx1: int, mx2: int, my: int)
    requires mx1 <= mx2
    ensures MotionStep(s, mx1, my).brightness <= MotionStep(s, mx2, my).brightness
    ensures MotionStep(s, mx1, my).volumeLevel <= MotionStep(s, mx2, my).volumeLevel
  {
    ClampMonotone(mx1 - ScreenX - 20, mx2 - ScreenX - 20, 0, BrightnessTravel);
    ClampMonotone(mx1 - 60, mx2 - 60, 0, VolumeTravel);
  }

  /** The start-up state is valid. */
  lemma InitialValid()
    ensures Valid(Initial)
  {
  }

  /** A click keeps the state valid: a selection it makes names a home icon. */
  lemma ClickKeepsValid(s: State, mx: int, my: int)
    requires Valid(s)
    ensures Valid(MouseDownStep(s, mx, my))
  {
    if !s.locked {
      var n := ClickNavigate(s, mx, my);
      assert n.selectedIcon.Some? ==> n.selectedIcon.value < |HomeIcons|;
    }
  }

  /** A motion keeps the state valid: the hover code names the avatar or an icon on show. */
  lemma MotionKeepsValid(s: State, mx: int, my: int)
    requires Valid(s)
    ensures Valid(MotionStep(s, mx, my))
  {
    var h := HoverAfterMotion(s, mx, my);
    assert h.Some? ==> ValidHover(h.value);
  }

  /** Every event keeps the state valid. */
  lemma EventKeepsValid(s: State, e: Event, mx: int, my: int)
    requires Valid(s)
    ensures Valid(EventStep(s, e, mx, my))
  {
    match e
    case MouseButtonDown => ClickKeepsValid(s, mx, my);
    case MouseMotion => MotionKeepsValid(s, mx, my);
    case _ =>
  }

  /** Every frame keeps the state valid. */
  lemma {:induction false} EventsKeepValid(s: State, es: seq<Event>, mx: int, my: int)
    requires Valid(s)
    ensures Valid(EventsStep(s, es, mx, my))
  {
    if es != [] {
      EventsKeepValid(s, es[..|es| - 1], mx, my);
      EventKeepsValid(EventsStep(s, es[..|es| - 1], mx, my), es[|es| - 1], mx, my);
    }
  }

  lemma FrameKeepsValid(s: State, mx: int, my: int, es: seq<Event>, now: int)
    requires Valid(s)
    ensures Valid(FrameStep(s, mx, my, es, now))
  {
    EventsKeepValid(s.(hoveredIcon := None), es, mx, my);
  }

}
