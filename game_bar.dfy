/**
 * The floating game bar of the earlier revision: edge docking of the
 * collapsed bar, the background and arrow choices, the expand toggle, the
 * drag callbacks and the in-memory settings snapshot it takes on game start.
 * Window metrics and the safe area (status bar height plus a margin) are
 * parameters.
 */
module GameBar {

  import opened Wrappers
  import opened Platform
  import opened SessionStates
  import opened SystemSettings
  import opened AppPreferences
  import opened GameSessions

  // ---------------------------------------------------------------- geometry

  function Max(a: int, b: int): int { if a >= b then a else b }
  function Min(a: int, b: int): int { if a <= b then a else b }

  /** The docked x: left of centre snaps to the left edge, anything else (centre included) to the right. */
  function DockX(x: int, halfWidth: nat): (r: int)
    ensures x < 0 ==> r == -(halfWidth as int)
    ensures x >= 0 ==> r == halfWidth
    ensures (r < 0) ==> x < 0
  {
    if x < 0 then -(halfWidth as int) else halfWidth
  }

  /** The vertical clamp: at least the safe area, at most the height less the safe area;
      on a range too small for both the lower bound wins. */
  function ClampY(y: int, height: int, safeArea: int): (r: int)
    ensures r >= safeArea
    ensures height - safeArea >= safeArea ==> r <= height - safeArea
    ensures height - safeArea < safeArea ==> r == safeArea
    ensures safeArea <= y <= height - safeArea ==> r == y
    ensures y < safeArea ==> r == safeArea
    ensures safeArea <= height - safeArea < y ==> r == height - safeArea
  {
    Max(Min(y, height - safeArea), safeArea)
  }

  /** The position `dockCollapsedMenu` moves the bar to on a screen `width` by `height`. */
  function Dock(x: int, y: int, width: nat, height: int, safeArea: int): (r: (int, int))
    ensures r.0 == -((width / 2) as int) || r.0 == width / 2
    ensures (r.0 < 0 <==> x < 0) || width < 2
    ensures r.1 >= safeArea
  {
    (DockX(x, width / 2), ClampY(y, height, safeArea))
  }

  /** Docking a docked bar leaves it where it is. */
  lemma DockIdempotent(x: int, y: int, width: nat, height: int, safeArea: int)
    ensures var (x1, y1) := Dock(x, y, width, height, safeArea);
      Dock(x1, y1, width, height, safeArea) == (x1, y1)
  {
    var (x1, y1) := Dock(x, y, width, height, safeArea);
    if height - safeArea < safeArea {
      assert y1 == safeArea;
    }
  }

  datatype Background = Expanded | CollapsedStart | CollapsedEnd

  /** `updateBackground`'s choice. */
  function BackgroundFor(expanded: bool, x: int): (r: Background)
    ensures r == Expanded <==> expanded
    ensures r == CollapsedStart <==> !expanded && x < 0
  {
    if expanded then Expanded else if x < 0 then CollapsedStart else CollapsedEnd
  }

  /** `updateExpanderMenu`'s arrow rotation in degrees. */
  function RotationFor(expanded: bool, x: int): (r: int)
    ensures r == 90 || r == -90
    ensures r == 90 <==> (expanded && x > 0) || (!expanded && x < 0)
  {
    if (expanded && x > 0) || (!expanded && x < 0) then 90 else -90
  }

  /** On a collapsed bar the arrow is turned exactly when the bar hugs the left edge. */
  lemma CollapsedArrowFollowsBackground(x: int)
    ensures RotationFor(false, x) == 90 <==> BackgroundFor(false, x) == CollapsedStart
  {
  }

  /** Docking keeps the side of the screen, so a background chosen before docking is still right after it. */
  lemma DockKeepsBackground(expanded: bool, x: int, width: nat)
    requires width >= 2
    ensures BackgroundFor(expanded, DockX(x, width / 2)) == BackgroundFor(expanded, x)
  {
  }

  /** The arrow, though, is chosen before docking: an expanded bar at the exact centre keeps the
      arrow of the centre although it then docks to the right. */
  lemma StaleArrowAtCentre(width: nat)
    requires width >= 2
    ensures RotationFor(true, 0) != RotationFor(true, DockX(0, width / 2))
  {
  }

  // ---------------------------------------------------------------- settings snapshot

  /** `applyCustomSettings`' snapshot: the three settings read into the in-memory record. */
  function Captured(st: SessionState, s: Store): (r: SessionState)
    ensures r.headsUp == Some(HeadsUp(s)) && r.autoBrightness == Some(AutoBrightness(s))
    ensures r.threeScreenshot == Some(ThreeScreenshot(s))
    ensures r.packageName == st.packageName && r.ringerMode == st.ringerMode
  {
    st.(headsUp := Some(HeadsUp(s)), autoBrightness := Some(AutoBrightness(s)),
        threeScreenshot := Some(ThreeScreenshot(s)))
  }

  /** Start then stop gives the three settings back. */
  lemma {:induction false} ApplyRestore(st: SessionState, s: Store, flags: AppSettings)
    ensures var back := Restored(Overridden(s, flags), flags, Captured(st, s));
      HeadsUp(back) == HeadsUp(s) && AutoBrightness(back) == AutoBrightness(s)
      && ThreeScreenshot(back) == ThreeScreenshot(s)
  {
    var snap := Captured(st, s);
    var over := Overridden(s, flags);
    var back := Restored(over, flags, snap);
    assert HeadsUp(back) == if flags.noHeadsUp then HeadsUp(s) else HeadsUp(over);
  }

  /** A second start before a stop snapshots the overridden values, so the stop cannot undo the
      first override: heads-up that was on stays off. */
  lemma ApplyTwiceDrift(st: SessionState, s: Store, flags: AppSettings)
    requires flags.noHeadsUp && HeadsUp(s)
    ensures var once := Overridden(s, flags);
      var snap := Captured(Captured(st, s), once);
      !HeadsUp(Restored(Overridden(once, flags), flags, snap))
  {
  }

  // ---------------------------------------------------------------- the service

  class GameBarService {
    const device: Device
    /** The user's flags, as read from the settings of this revision. */
    const flags: AppSettings
    var session: SessionState
    /** `windowParams.x` and `windowParams.y`. */
    var x: int
    var y: int
    /** The position persisted in the app settings. */
    var savedX: int
    var savedY: int
    var barExpanded: bool
    /** `container.isSelected`: the bar is being dragged. */
    var dragging: bool
    var background: Background
    var rotation: int
    /** The bar view is added to the window. */
    var attached: bool

    constructor(device: Device, flags: AppSettings, savedX: int, savedY: int)
      ensures this.device == device && this.flags == flags
      ensures this.savedX == savedX && this.savedY == savedY
      ensures session == NewSessionState("") && !barExpanded && !dragging && !attached
    {
      this.device := device;
      this.flags := flags;
      this.savedX, this.savedY := savedX, savedY;
      session := NewSessionState("");
      x, y := 0, 0;
      barExpanded := false;
      dragging := false;
      background := CollapsedEnd;
      rotation := -90;
      attached := false;
    }

    method UpdateBackground()
      modifies this`background
      ensures background == BackgroundFor(barExpanded, x)
    {
      background := if barExpanded then Expanded else if x < 0 then CollapsedStart else CollapsedEnd;
    }

    method UpdateExpanderMenu()
      modifies this`rotation
      ensures rotation == RotationFor(barExpanded, x)
    {
      if (barExpanded && x > 0) || (!barExpanded && x < 0) {
        rotation := 90;
      } else {
        rotation := -90;
      }
    }

    /** The `barExpanded` setter: store the value, then redo the background and the arrow. */
    method SetBarExpanded(value: bool)
      modifies this`barExpanded, this`background, this`rotation
      ensures barExpanded == value
      ensures background == BackgroundFor(value, x) && rotation == RotationFor(value, x)
    {
      barExpanded := value;
      UpdateBackground();
      UpdateExpanderMenu();
    }

    /** `dockCollapsedMenu`: the background and arrow are chosen from the position before it moves. */
    method DockCollapsedMenu(width: nat, height: int, safeArea: int)
      modifies this`x, this`y, this`background, this`rotation
      ensures (x, y) == Dock(old(x), old(y), width, height, safeArea)
      ensures background == BackgroundFor(barExpanded, old(x))
      ensures rotation == RotationFor(barExpanded, old(x))
    {
      var halfWidth := width / 2;
      UpdateBackground();
      UpdateExpanderMenu();
      if x < 0 {
        x := -(halfWidth as int);
      } else {
        x := halfWidth;
      }
      y := Max(Min(y, height - safeArea), safeArea);
    }

    /** `initActions`: collapse, load the persisted position and dock it. */
    method InitActions(width: nat, height: int, safeArea: int)
      modifies this`barExpanded, this`x, this`y, this`background, this`rotation
      ensures !barExpanded
      ensures (x, y) == Dock(savedX, savedY, width, height, safeArea)
      ensures background == BackgroundFor(false, savedX)
      ensures rotation == RotationFor(false, savedX)
    {
      SetBarExpanded(false);
      x := savedX;
      y := savedY;
      DockCollapsedMenu(width, height, safeArea);
    }

    /** A click on the menu switcher toggles the bar. */
    method OnMenuClick()
      modifies this`barExpanded, this`background, this`rotation
      ensures barExpanded == !old(barExpanded)
      ensures background == BackgroundFor(barExpanded, x)
      ensures rotation == RotationFor(barExpanded, x)
    {
      SetBarExpanded(!barExpanded);
    }

    /** A drag step: the bar follows the pointer, unclamped. */
    method OnDragMoved(newX: int, newY: int)
      modifies this`dragging, this`background, this`x, this`y
      ensures dragging && x == newX && y == newY
      ensures background == BackgroundFor(barExpanded, old(x))
    {
      dragging := true;
      UpdateBackground();
      x, y := newX, newY;
    }

    /** The drag ended: dock, then persist the docked position. */
    method OnDragComplete(width: nat, height: int, safeArea: int)
      modifies this`dragging, this`background, this`rotation, this`x, this`y, this`savedX, this`savedY
      ensures !dragging
      ensures (x, y) == Dock(old(x), old(y), width, height, safeArea)
      ensures savedX == x && savedY == y
      ensures background == BackgroundFor(barExpanded, old(x))
      ensures rotation == RotationFor(barExpanded, old(x))
      ensures y >= safeArea
    {
      dragging := false;
      UpdateBackground();
      DockCollapsedMenu(width, height, safeArea);
      savedX, savedY := x, y;
    }

    /** `applyCustomSettings`: snapshot all three settings, then turn off the flagged ones. */
    method ApplyCustomSettings()
      modifies this`session, device`settings
      ensures session == Captured(old(session), old(device.settings))
      ensures device.settings == Overridden(old(device.settings), flags)
    {
      session := session.(headsUp := Some(HeadsUp(device.settings)));
      session := session.(autoBrightness := Some(AutoBrightness(device.settings)));
      session := session.(threeScreenshot := Some(ThreeScreenshot(device.settings)));
      if flags.noHeadsUp {
        device.settings := SetHeadsUp(device.settings, false);
      }
      if flags.noAutoBrightness {
        device.settings := SetAutoBrightness(device.settings, false);
      }
      if flags.noThreeScreenshot {
        device.settings := SetThreeScreenshot(device.settings, false);
      }
    }

    /** `restoreCustomSettings`: write back the flagged settings that were captured. */
    method RestoreCustomSettings()
      modifies device`settings
      ensures device.settings == Restored(old(device.settings), flags, session)
    {
      if flags.noHeadsUp && session.headsUp.Some? {
        device.settings := SetHeadsUp(device.settings, session.headsUp.value);
      }
      if flags.noAutoBrightness && session.autoBrightness.Some? {
        device.settings := SetAutoBrightness(device.settings, session.autoBrightness.value);
      }
      if flags.noThreeScreenshot && session.threeScreenshot.Some? {
        device.settings := SetThreeScreenshot(device.settings, session.threeScreenshot.value);
      }
    }

    /** Game start: apply the settings and show the bar. */
    method OnActionStart()
      modifies this`session, this`attached, device`settings
      ensures attached
      ensures session == Captured(old(session), old(device.settings))
      ensures device.settings == Overridden(old(device.settings), flags)
    {
      ApplyCustomSettings();
      if !attached {
        attached := true;
      }
    }

    /** Game leave: restore the settings and remove the bar. */
    method OnActionStop()
      modifies this`attached, device`settings
      ensures !attached
      ensures device.settings == Restored(old(device.settings), flags, session)
    {
      RestoreCustomSettings();
      if attached {
        attached := false;
      }
    }
  }
}
