/**
 * The game-mode tile of the in-game panel: a click cycles the active game's
 * mode through standard, performance and battery, and every change is
 * forwarded to the mode utilities.
 */
module GameModeTiles {

  import opened Wrappers
  import opened Platform
  import opened UserGames
  import opened GameModes

  const MODES: seq<int32> := [GAME_MODE_STANDARD, GAME_MODE_PERFORMANCE, GAME_MODE_BATTERY]

  /** Kotlin's `indexOf`: the first index holding `x`, or -1. */
  function IndexOf(s: seq<int32>, x: int32): (r: int)
    ensures -1 <= r < |s|
    ensures r == -1 <==> x !in s
    ensures r >= 0 ==> s[r] == x && x !in s[..r]
  {
    if |s| == 0 then -1
    else if s[0] == x then 0
    else
      var k := IndexOf(s[1..], x);
      if k == -1 then -1 else k + 1
  }

  /** The mode a click moves to: the next one in the list, wrapping; an unlisted mode gives the first. */
  function NextMode(m: int32): (r: int32)
    ensures r in MODES
  {
    var current := IndexOf(MODES, m);
    MODES[if current == |MODES| - 1 then 0 else current + 1]
  }

  /** The tile is highlighted for every mode but standard. */
  predicate Selected(m: int32) { m != GAME_MODE_STANDARD }

  /** The mode shown when the tile is attached: the active game's, else standard. */
  function InitialMode(activeGame: Option<UserGame>): (r: int32)
    ensures activeGame.Some? ==> r == activeGame.value.mode
    ensures activeGame.None? ==> r == GAME_MODE_STANDARD
  {
    if activeGame.Some? then activeGame.value.mode else GAME_MODE_STANDARD
  }

  /** Standard, then performance, then battery, then standard again. */
  lemma ModeCycle()
    ensures NextMode(GAME_MODE_STANDARD) == GAME_MODE_PERFORMANCE
    ensures NextMode(GAME_MODE_PERFORMANCE) == GAME_MODE_BATTERY
    ensures NextMode(GAME_MODE_BATTERY) == GAME_MODE_STANDARD
  {
    assert IndexOf(MODES, GAME_MODE_STANDARD) == 0;
    assert IndexOf(MODES, GAME_MODE_PERFORMANCE) == 1;
    assert IndexOf(MODES, GAME_MODE_BATTERY) == 2;
  }

  /** A mode outside the list goes to standard. */
  lemma UnlistedToStandard(m: int32)
    requires m !in MODES
    ensures NextMode(m) == GAME_MODE_STANDARD
  {
  }

  /** Three clicks bring a listed mode back; an unlisted one ends on battery. */
  lemma ThreeClicks(m: int32)
    ensures m in MODES ==> NextMode(NextMode(NextMode(m))) == m
    ensures m !in MODES ==> NextMode(NextMode(NextMode(m))) == GAME_MODE_BATTERY
  {
    ModeCycle();
    if m !in MODES {
      UnlistedToStandard(m);
    }
  }

  class GameModeTile {
    const modeUtils: GameModeUtils
    var activeMode: int32
    var isSelected: bool

    constructor(modeUtils: GameModeUtils)
      ensures this.modeUtils == modeUtils
      ensures activeMode == GAME_MODE_STANDARD && !isSelected
    {
      this.modeUtils := modeUtils;
      activeMode := GAME_MODE_STANDARD;
      isSelected := false;
    }

    /** The `activeMode` setter: store, highlight, and forward to `setActiveGameMode`. The field
        and the highlight are set before the forward, so they stay set when it throws
        (`ok == false`), and the throw leaves the setter. */
    method SetActiveMode(value: int32) returns (ok: bool)
      modifies this`activeMode, this`isSelected, modeUtils`activeGame, modeUtils.device`settings,
        modeUtils.device`whitelisted, modeUtils.device`gameModes
      ensures activeMode == value && (isSelected <==> Selected(value))
      ensures modeUtils.ActiveGameModeSet(value, ok)
    {
      activeMode := value;
      isSelected := value != GAME_MODE_STANDARD;
      ok := modeUtils.SetActiveGameMode(value);
    }

    /** Attach: show the active game's mode; a throw from the setter leaves the call. */
    method OnAttachedToWindow() returns (ok: bool)
      modifies this`activeMode, this`isSelected, modeUtils`activeGame, modeUtils.device`settings,
        modeUtils.device`whitelisted, modeUtils.device`gameModes
      ensures activeMode == InitialMode(old(modeUtils.activeGame))
      ensures isSelected <==> Selected(activeMode)
      ensures modeUtils.ActiveGameModeSet(activeMode, ok)
    {
      ok := SetActiveMode(InitialMode(modeUtils.activeGame));
    }

    /** A click advances the mode; a throw from the setter leaves the call. */
    method OnClick() returns (ok: bool)
      modifies this`activeMode, this`isSelected, modeUtils`activeGame, modeUtils.device`settings,
        modeUtils.device`whitelisted, modeUtils.device`gameModes
      ensures activeMode == NextMode(old(activeMode))
      ensures isSelected <==> Selected(activeMode)
      ensures modeUtils.ActiveGameModeSet(activeMode, ok)
    {
      var current := IndexOf(MODES, activeMode);
      ok := SetActiveMode(MODES[if current == |MODES| - 1 then 0 else current + 1]);
    }
  }
}
