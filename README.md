# Switch One console simulator: navigation state machine

This project models the input-driven core of `nx.py`, a pygame simulation of a handheld console's
home menu. The core is the main loop's event handling. It covers:

- the capture key;
- mouse press and release on the joy-con, the profile avatar, the home and settings icons, the
  two slider bars, the home button and the power button;
- mouse motion, which sets hover and drags the sliders;
- the once-per-frame sleep check;
- the integer hit-testing geometry behind all of these;
- the chain in `draw_screen` that picks what the inner screen shows.

Layout of the Dafny modules:

- `Geometry` (geometry.dfy): pygame's `Rect.collidepoint` as half-open containment,
  `get_icon_rect`, a reference hit-test by division that inverts it, the first-match icon search
  (`for i in range(...)` with `break`), and clamping (`clamp_color`).
- `Layout` (layout.dfy): window constants, the `ICONS` and `SETTINGS_ICONS` catalogues, and the
  fixed rectangles of the joy-con, avatar, slider bars, home button and power button.
- `Navigation` (navigation.dfy): the module globals as one `State` value, with one transition
  function per event kind. Each function's contract states the source's rules: the lock swallows
  a click, the power button needs a press and a release, drags end on any release, sliders clamp,
  and capture is gated. It also holds `EventsStep` (a frame's events in arrival order), the sleep
  check `SleepStep` and one loop pass `FrameStep`.
- `NavigationProperties` (properties.dfy): lemmas over several events or frames: the click and
  eShop scenarios, the power cycle, n captures, the lock round trip over two frames,
  re-locking, idempotent motion, monotone sliders, and validity of every reachable state.
- `Render` (render.dfy): the `draw_screen` selection chain as written, and with the Games branch
  made reachable (see Findings).
- `Simulator` (console.dfy): class `Console`, whose fields are the module globals. It has one
  method per event kind, `Tick` for the sleep check and `Frame` for one pass of `while running`.
  Each method is proved to leave the object in the state its `Navigation` transition function
  gives.

Brightness and volume are integer slider positions: brightness is `brightness / 200` (0..200) and
volume is `volumeLevel / 100` (0..100). The start-up values 1.0 and 0.7 become 200 and 70. The
pointer position is a parameter of each frame, because the source samples it once per frame and
every event of that frame sees the same position. The tick count `now` is a parameter of the
sleep check. A screenshot's random colour is a parameter of the capture event.

In these places the model keeps what the code does, which a reader might not expect:

- Switching off sets `locked` to true, because `locked = not simulation_on`. The first click
  after power-off only unlocks, so turning back on takes a click and then a press and release
  (`PowerCycleRestoresState`).
- The idle timer `lock_time` is restarted only when the sleep lock engages. Input never restarts
  it (`Navigation.EventsStep`). So a click made more than 30 s after the lock engaged unlocks, and
  the sleep check of the same frame locks again at once (`UnlockAfterLongIdleRelocks`).
- Hover is cleared once per frame, not per motion event. A motion over no region keeps the code
  set earlier in the frame.
- A click on the profile avatar changes the screen without clearing `selected_icon`. Only the
  home button clears it.

## Model

| member | source | states |
|---|---|---|
| Geometry.Contains | nx.py:395-437 | `collidepoint` is half-open: an empty rect holds no point, the right and bottom edges are outside, and the top-left corner of a non-empty rect is inside |
| Geometry.IconRect | nx.py:120-125 | every icon rect is 70 by 70; icons of the first row sit at `start_y` and icons of the first column at `start_x` |
| Geometry.GridCellInvertsIconRect | nx.py:120-125 | with icons no larger than the pitch, a point lies on icon i's rect (row i div cols, column i mod cols) exactly when the division-based hit-test names cell i |
| Geometry.IconRectsDisjoint | nx.py:106-125 | with pitch 85 or 90 and icon size 70, no point lies on two different icons |
| Geometry.FirstHitFrom | nx.py:406-411 | the search returns the lowest index whose rect holds the point, and returns None exactly when no rect holds it |
| Geometry.FirstHitIsGridCell | nx.py:454-457 | when icons do not overlap, the first match of the linear search is the cell found by division |
| Geometry.FindIcon | nx.py:406-411 | the `for`/`break` loop returns the first icon whose rect holds the point |
| Geometry.Clamp | nx.py:468-472 | `max(lo, min(hi, v))` lies in [lo, hi], equals v inside the range, and equals lo or hi outside it |
| Geometry.ClampMonotone | nx.py:468-472 | clamping preserves the order of its inputs |
| Geometry.ClampColor | nx.py:114-115 | a channel is forced into 0..255 and left alone inside that range |
| Geometry.ClampColorIdempotent | nx.py:114-115 | clamping a channel twice equals clamping it once |
| Layout.HomeHit | nx.py:404-411 | the home hit-test names an icon whose rect holds the point, is None exactly when no home icon holds it, agrees with the division-based cell, and only hits inside x in [100, 595), y in [120, 275) |
| Layout.SettingsHit | nx.py:459-463 | the settings hit-test names an icon whose rect holds the point, is None exactly when no settings icon holds it, agrees with the division-based cell, and only hits inside x in [110, 360), y in [150, 310) |
| Layout.HomeIconBounds | nx.py:106-109 | every one of the 12 home icons lies within x in [100, 595), y in [120, 275) |
| Layout.HomeIconIsolated | nx.py:395-437 | a point on home icon i hits icon i first and misses the joy-con, avatar, volume bar, home button and power button |
| Layout.EshopCellResolves | nx.py:83-96 | a point in x in [185, 255), y in [120, 190) resolves to home icon 1, whose id is "eshop" |
| Navigation.KeyDownStep | nx.py:382-386 | C appends exactly the captured screenshot when powered and unlocked; any other key, or C while off or locked, changes nothing |
| Navigation.MouseDownStep | nx.py:388-438 | a press while locked only clears `locked`; a power press registers only when unlocked; the joy-cons attach only on an unlocked press in their zone |
| Navigation.ClickStep | nx.py:394-438 | an unlocked press never changes power, lock, timer, hover, sliders or album; it presses power, starts the volume drag or attaches the joy-cons exactly when the point is on that control; it starts the brightness drag exactly when the bar is hit on the settings screen as it stands after the avatar and icons; the avatar opens "profile" keeping the selection; a home icon on the home screen selects it and opens its id; the home button returns home and clears the selection; any other point leaves screen and selection alone |
| Navigation.ClickNavigate | nx.py:394-411 | only screen, selection and joy-cons change; the joy-cons attach when detached and hit; the avatar opens "profile" keeping the selection; off the avatar on the home screen, the icon hit selects that icon and opens its id; otherwise screen and selection are kept |
| Navigation.SelectHomeIcon | nx.py:405-411 | on a hit, selects the first icon under the pointer and opens its id's screen; otherwise changes nothing |
| Navigation.ClickControls | nx.py:421-438 | the brightness drag starts iff the bar is hit on the settings screen, the volume drag iff its bar is hit, the press iff the power button is hit; the home button sets "home" and clears the selection; off it, screen and selection are kept; joy-cons and the device state are untouched |
| Navigation.MouseUpStep | nx.py:440-449 | a release clears both drags and the press; the power toggles iff a press was pending and the release is on the button; a toggle sets `locked` to the negated power |
| Navigation.HoverAfterMotion | nx.py:453-465 | the avatar gives -1; off it, a home icon on the home screen gives its index and a settings icon on the settings screen its index plus 100; with no region hit the earlier code is kept |
| Navigation.MotionStep | nx.py:451-472 | hover as HoverAfterMotion states, including that a motion over no region keeps the code; a dragged brightness slider becomes `clamp(mx - 90, 0, 200)` and a dragged volume slider `clamp(mx - 60, 0, 100)`; an undragged one keeps its value; nothing else changes |
| Navigation.EventStep | nx.py:378-472 | no event restarts the idle timer; only a motion changes hover; the joy-cons are never detached again; a slider value changes only on a motion while its drag is active |
| Navigation.EventsStep | nx.py:377-472 | handling a frame's events in order never changes `lock_time`, never detaches attached joy-cons, and keeps the hover code when no motion event is among them |
| Navigation.SleepStep | nx.py:474-477 | the lock engages iff powered, unlocked and idle for strictly more than 30000 ms since `lock_time`, and only then is the timer set to now |
| Navigation.FrameStep | nx.py:374-477 | a pass with no motion event ends with nothing hovered; the timer changes only to now, as the lock engages; no pass ends powered and unlocked with more than 30000 ms since `lock_time` |
| NavigationProperties.HomeIconClickOpensScreen | nx.py:404-411 | an unlocked click on home icon i on the home screen sets `current_screen` to ICONS[i].id and `selected_icon` to i, and leaves the device state unchanged |
| NavigationProperties.EshopClick | nx.py:404-411 | a click in x in [185, 255), y in [120, 190) on the home screen opens "eshop" and selects icon 1 |
| NavigationProperties.PowerToggleNeedsPressAndRelease | nx.py:435-449 | a press and a release toggle the power iff both land on the power button |
| NavigationProperties.PowerButtonIsolated | nx.py:395-437 | a point on the power button is on no other clickable region |
| NavigationProperties.PowerCycleRestoresState | nx.py:435-449 | press-release switches off and locks; click, press, release switches on again and restores the exact prior state, including brightness, volume, screen and album |
| NavigationProperties.CapturesAppendInOrder | nx.py:383-386 | n presses of C while powered and unlocked append those n screenshots in order and change nothing else |
| NavigationProperties.CapturesIgnoredWhenLocked | nx.py:383-386 | presses of C while off or locked change nothing |
| NavigationProperties.IdleFrameThenClickRestores | nx.py:374-477 | an idle pass more than 30 s after the timer started locks; a following pass with one click within 30 s unlocks and gives back the state before the lock, with only `lock_time` restarted and hover cleared |
| NavigationProperties.UnlockAfterLongIdleRelocks | nx.py:389-392 | a frame whose click unlocks more than 30 s after the lock ends locked again, with `lock_time` set to now |
| NavigationProperties.MotionIdempotent | nx.py:451-472 | two motions at the same position leave the same state as one |
| NavigationProperties.SlidersMonotone | nx.py:467-472 | moving the pointer right never lowers a dragged slider |
| NavigationProperties.InitialValid | nx.py:63-78 | the start-up state has sliders in range, no selection and no hover |
| NavigationProperties.ClickKeepsValid | nx.py:388-438 | a click keeps sliders in range and a selection naming a home icon |
| NavigationProperties.MotionKeepsValid | nx.py:451-472 | a motion keeps sliders in range and a hover code naming the avatar or an icon |
| NavigationProperties.EventKeepsValid | nx.py:378-472 | every event keeps the state valid |
| NavigationProperties.EventsKeepValid | nx.py:378-472 | every sequence of events keeps the state valid |
| NavigationProperties.FrameKeepsValid | nx.py:374-477 | every pass of the main loop keeps the state valid |
| Render.ScreenOf | nx.py:168-195 | names, for each content the chain can draw, the screen id its branch tests; it names one of the 14 drawn ids exactly for a content view |
| Render.ContentViewAsWritten | nx.py:168-195 | each of the 14 ids with a branch gets the content whose branch tests that id (ScreenOf inverts it); any other id falls through to a blank screen |
| Render.ScreenViewAsWritten | nx.py:164-195 | shows OFF when powered down, the unlock prompt when locked, otherwise the content whose branch tests the current screen id; blank exactly for an id with no branch |
| Render.ContentView | nx.py:168-195 | the chain with the Games correction of "## Findings": "games" gets the game demo, every other id the content of its own branch as written |
| Render.ScreenView | nx.py:164-195 | the corrected dispatch: OFF, the unlock prompt, the game demo for "games", otherwise the content whose branch tests the id; blank exactly for an id outside the 14 drawn ids and "games" |
| Render.ViewDependsOnScreenState | nx.py:164-195 | what is drawn depends only on power, lock and the current screen |
| Render.GamesIconOpensBlankScreenAsWritten | nx.py:84 | as written, clicking the Games icon leads to a screen with no branch in the chain |
| Render.HomeIconOpensDrawnScreen | nx.py:83-96 | with the correction, every home icon opens a screen that is drawn, and the Games icon opens the game demo |
| Simulator.Console.Shown | nx.py:164-195 | the `draw_screen` chain with the Games correction of "## Findings", over the object's fields: OFF when powered down, the unlock prompt when locked, the game demo for "games" (which the chain as written leaves blank), and blank exactly for an id outside the drawn ids and "games" |
| Simulator.Console.constructor | nx.py:63-78 | the globals start as: powered, unlocked, home screen, brightness 200, volume 70, joy-cons detached, empty album |
| Simulator.Console.Quit | nx.py:379-380 | QUIT clears `running` and nothing else |
| Simulator.Console.KeyDown | nx.py:382-386 | the object is updated in place as KeyDownStep says |
| Simulator.Console.MouseDown | nx.py:388-438 | the object is updated in place as MouseDownStep says |
| Simulator.Console.Navigate | nx.py:394-411 | the first half of a click updates the object as ClickNavigate says |
| Simulator.Console.PressControls | nx.py:421-438 | the second half of a click updates the object as ClickControls says |
| Simulator.Console.MouseUp | nx.py:440-449 | the object is updated in place as MouseUpStep says |
| Simulator.Console.MouseMotion | nx.py:451-472 | the object is updated in place as MotionStep says |
| Simulator.Console.HoverAt | nx.py:453-465 | the icon searches, run as loops, and the avatar check give the hover code HoverAfterMotion states |
| Simulator.Console.Tick | nx.py:474-477 | the object is updated in place as SleepStep says |
| Simulator.Console.Frame | nx.py:374-477 | one loop pass clears hover, handles the events in order and runs the sleep check, as FrameStep says, and keeps the state valid |

## Left out

- Drawing: surfaces, fonts, circles and arcs, the `draw_*` screen bodies, HUD, bottom bar, bezel,
  joy-con drawing, `pygame.display` and `clock.tick`. These are library calls with no state effect.
- Floating point: the sine and cosine gradient and kart animation of `draw_game_demo`, and the
  alpha overlay of `apply_brightness`. Brightness and volume are integer slider positions, so the
  division by 200 or 100 is not modelled.
- Geometry.ClampColor: takes an integer. The `int()` truncation of a float argument is not
  modelled, because its callers pass floats from the gradient, which is left out.
- Randomness and the wall clock: the capture colour is a parameter, eShop prices are not
  modelled, and `datetime.now()` in the HUD is left out.
- pygame start-up and shutdown, `print` logging, and the `while running` loop itself: the model
  gives one pass (`Console.Frame`) with the pointer, the events and the tick count as parameters.
- `pygame.time.get_ticks()` is read twice in the sleep check. The model reads it once (`now`),
  as if both reads return the same value.
- Clicking a settings sub-icon only logs, so it has no state effect and is not modelled.
- The icon glyphs (emoji) of the catalogues, and the static `friends` and `virtual_games` lists,
  are display data only.

## Findings

| source | as written | input that shows it | evidently intended | confidence | as-written member | corrected member |
|---|---|---|---|---|---|---|
| nx.py:84 | the Games icon opens screen "games", but the `draw_screen` chain tests "game" (nx.py:168), so the screen stays blank and `draw_game_demo` is never reached | powered, unlocked, home screen, click at (120, 150) on icon 0 | Games shows the Mario Kart demo, as the module docstring (nx.py:18) says | medium; not executed | Render.GamesIconOpensBlankScreenAsWritten | Render.HomeIconOpensDrawnScreen, Simulator.Console.Shown |
