/**
 * The foreground tracker of the earlier revision: a task-stack listener that
 * keeps the last foreground package and the current session, and asks the
 * settings layer and the game bar to apply and restore as games come and go.
 */
module TaskListener {

  import opened Wrappers
  import opened SessionStates
  import opened UserGames

  const UNKNOWN_APP := "unknown"

  /** The calls the tracker makes, in order. */
  datatype Effect =
    | ApplyUserSettings(session: SessionState)
    | RestoreUserSettings(session: SessionState)
    | ApplyGameModeConfig(app: string)
    | GameStart
    | GameLeave
    | StayAwake(on: bool)

  /** The tracker's two fields. */
  datatype Tracker = Tracker(previousApp: string, session: Option<SessionState>)

  datatype ScreenAction = ScreenOn | ScreenOff

  /** `isGame`: some managed game has this package. */
  predicate IsGame(games: seq<UserGame>, packageName: string) {
    exists i | 0 <= i < |games| :: games[i].packageName == packageName
  }

  /**
   * One `checkTaskStack(info)`. `top` is the focused task's top package, if any;
   * `games` the managed list, `None` when reading it throws; `barBound` whether
   * the game bar has been connected (calling it before throws).
   * An exception ends the call where it is raised, before `previousApp` is updated.
   */
  function TaskStackStep(t: Tracker, top: Option<string>, games: Option<seq<UserGame>>,
                         barBound: bool, stayAwake: bool): (r: (Tracker, seq<Effect>))
    ensures r.1 != [] ==> top.Some? && top.value != t.previousApp && games.Some?
    ensures barBound && top.Some? && games.Some? ==> r.0.previousApp == top.value
    ensures !barBound ==> r.0.previousApp == t.previousApp || r.0.session.None?
  {
    if top.None? || top.value == t.previousApp || games.None? then (t, [])
    else
      var currentApp := top.value;
      if IsGame(games.value, currentApp) then
        var restore :=
          if t.session.Some? && t.session.value.packageName == t.previousApp
          then [RestoreUserSettings(t.session.value)] else [];
        var s := NewSessionState(currentApp);
        var started := restore + [ApplyUserSettings(s), ApplyGameModeConfig(currentApp)];
        if !barBound then (Tracker(t.previousApp, Some(s)), started)
        else (Tracker(currentApp, Some(s)), started + [GameStart, StayAwake(stayAwake)])
      else if t.session.Some? then
        if !barBound then (t, [StayAwake(false)])
        else (Tracker(currentApp, None), [StayAwake(false), GameLeave, RestoreUserSettings(t.session.value)])
      else (Tracker(currentApp, None), [])
  }

  /** The screen receiver: any screen broadcast forgets the previous app; screen-off also releases stay-awake. */
  function ScreenStep(t: Tracker, action: ScreenAction): (r: (Tracker, seq<Effect>))
    ensures r.0.previousApp == UNKNOWN_APP && r.0.session == t.session
    ensures r.1 != [] <==> action == ScreenOff
  {
    (t.(previousApp := UNKNOWN_APP), if action == ScreenOff then [StayAwake(false)] else [])
  }

  /** The session, if any, belongs to the previous app. */
  predicate Tracked(t: Tracker) {
    t.session.Some? ==> t.session.value.packageName == t.previousApp
  }

  // ---------------------------------------------------------------- properties

  /** An event without a top activity, or for the previous app, changes nothing. */
  lemma IgnoredEvents(t: Tracker, top: Option<string>, games: Option<seq<UserGame>>, barBound: bool, stayAwake: bool)
    requires top.None? || top == Some(t.previousApp)
    ensures TaskStackStep(t, top, games, barBound, stayAwake) == (t, [])
  {
  }

  /** A handled event records its package, so a duplicate notification right after it is a no-op. */
  lemma DuplicateHarmless(t: Tracker, app: string, games: seq<UserGame>, stayAwake: bool)
    ensures var (t1, _) := TaskStackStep(t, Some(app), Some(games), true, stayAwake);
      && t1.previousApp == app
      && TaskStackStep(t1, Some(app), Some(games), true, stayAwake) == (t1, [])
  {
  }

  /** Entering a managed game starts a fresh session for it, applies it, starts the bar and sets stay-awake. */
  lemma EnterGame(t: Tracker, app: string, games: seq<UserGame>, stayAwake: bool)
    requires app != t.previousApp && IsGame(games, app)
    ensures var (t1, eff) := TaskStackStep(t, Some(app), Some(games), true, stayAwake);
      && t1 == Tracker(app, Some(NewSessionState(app)))
      && |eff| >= 4
      && eff[|eff| - 4..] == [ApplyUserSettings(NewSessionState(app)), ApplyGameModeConfig(app), GameStart, StayAwake(stayAwake)]
  {
  }

  /** From game A straight to game B, A's session is restored before B's is applied. */
  lemma SwitchRestoresFirst(t: Tracker, app: string, games: seq<UserGame>, stayAwake: bool)
    requires t.session.Some? && t.session.value.packageName == t.previousApp
    requires app != t.previousApp && IsGame(games, app)
    ensures var (_, eff) := TaskStackStep(t, Some(app), Some(games), true, stayAwake);
      eff[..2] == [RestoreUserSettings(t.session.value), ApplyUserSettings(NewSessionState(app))]
  {
  }

  /** Leaving for a non-game releases stay-awake, tells the bar to leave, restores, and ends the session. */
  lemma LeaveGame(t: Tracker, app: string, games: seq<UserGame>, stayAwake: bool)
    requires t.session.Some? && app != t.previousApp && !IsGame(games, app)
    ensures TaskStackStep(t, Some(app), Some(games), true, stayAwake)
         == (Tracker(app, None), [StayAwake(false), GameLeave, RestoreUserSettings(t.session.value)])
  {
  }

  /** `previousApp` becomes the new package after every handled event, and stays put when the bar throws. */
  lemma PreviousAppUpdate(t: Tracker, app: string, games: seq<UserGame>, barBound: bool, stayAwake: bool)
    requires app != t.previousApp
    ensures var (t1, _) := TaskStackStep(t, Some(app), Some(games), barBound, stayAwake);
      t1.previousApp == if barBound || (!IsGame(games, app) && t.session.None?) then app else t.previousApp
  {
  }

  /** Handled events keep the session tied to the previous app; in such a state, applying a new
      session while one exists always restores the old one first. */
  lemma TrackedPreserved(t: Tracker, top: Option<string>, games: Option<seq<UserGame>>, stayAwake: bool)
    requires Tracked(t)
    ensures var (t1, eff) := TaskStackStep(t, top, games, true, stayAwake);
      && Tracked(t1)
      && (t.session.Some? && |eff| > 1 && eff[1].ApplyUserSettings? ==> eff[0] == RestoreUserSettings(t.session.value))
  {
  }

  /** A screen broadcast during a game breaks that tie: when the same game reports again, a new
      session is applied and the old one is never restored. */
  lemma ScreenResetSkipsRestore(t: Tracker, action: ScreenAction, app: string, games: seq<UserGame>, stayAwake: bool)
    requires t.session.Some? && t.session.value.packageName == app == t.previousApp
    requires app != UNKNOWN_APP && IsGame(games, app)
    ensures var (t1, _) := ScreenStep(t, action);
      var (t2, eff) := TaskStackStep(t1, Some(app), Some(games), true, stayAwake);
      && !Tracked(t1)
      && t2.session == Some(NewSessionState(app))
      && ApplyUserSettings(NewSessionState(app)) in eff
      && forall i | 0 <= i < |eff| :: !eff[i].RestoreUserSettings?
  {
  }

  // ---------------------------------------------------------------- the service

  class TaskListenerService {
    var previousApp: string
    var session: Option<SessionState>
    /** Whether `gameBar` has been initialised by the bar connection. */
    var barBound: bool
    /** The companion's `isRunning`. */
    var isRunning: bool
    /** Every call made so far, in order. */
    var effects: seq<Effect>

    constructor()
      ensures previousApp == UNKNOWN_APP && session.None? && !barBound && !isRunning && effects == []
    {
      previousApp := UNKNOWN_APP;
      session := None;
      barBound := false;
      isRunning := false;
      effects := [];
    }

    function State(): Tracker
      reads this
    {
      Tracker(previousApp, session)
    }

    method OnCreate()
      modifies this`isRunning
      ensures isRunning
    {
      isRunning := true;
    }

    /** The bar connection: initialise `gameBar`, then check the task stack. */
    method OnServiceConnected(top: Option<string>, games: Option<seq<UserGame>>, stayAwake: bool)
      modifies this
      ensures barBound && isRunning == old(isRunning)
      ensures State() == TaskStackStep(old(State()), top, games, true, stayAwake).0
      ensures effects == old(effects) + TaskStackStep(old(State()), top, games, true, stayAwake).1
    {
      barBound := true;
      CheckTaskStack(top, games, stayAwake);
    }

    method CheckTaskStack(top: Option<string>, games: Option<seq<UserGame>>, stayAwake: bool)
      modifies this`previousApp, this`session, this`effects
      ensures State() == TaskStackStep(old(State()), top, games, barBound, stayAwake).0
      ensures effects == old(effects) + TaskStackStep(old(State()), top, games, barBound, stayAwake).1
    {
      if top.None? {
        return;
      }
      var currentApp := top.value;
      if currentApp == previousApp || games.None? {
        return;
      }
      if IsGame(games.value, currentApp) {
        if session.Some? && session.value.packageName == previousApp {
          effects := effects + [RestoreUserSettings(session.value)];
        }
        session := Some(NewSessionState(currentApp));
        effects := effects + [ApplyUserSettings(session.value), ApplyGameModeConfig(currentApp)];
        if !barBound {
          return;
        }
        effects := effects + [GameStart, StayAwake(stayAwake)];
      } else if session.Some? {
        effects := effects + [StayAwake(false)];
        if !barBound {
          return;
        }
        effects := effects + [GameLeave, RestoreUserSettings(session.value)];
        session := None;
      }
      previousApp := currentApp;
    }

    method OnScreenEvent(action: ScreenAction)
      modifies this`previousApp, this`effects
      ensures State() == ScreenStep(old(State()), action).0
      ensures effects == old(effects) + ScreenStep(old(State()), action).1
    {
      previousApp := UNKNOWN_APP;
      if action == ScreenOff {
        effects := effects + [StayAwake(false)];
      }
    }

    /** Restores the active session, if any, and marks the service stopped. */
    method OnDestroy()
      modifies this`effects, this`isRunning
      ensures !isRunning
      ensures effects == old(effects) + if session.Some? then [RestoreUserSettings(session.value)] else []
    {
      if session.Some? {
        effects := effects + [RestoreUserSettings(session.value)];
      }
      isRunning := false;
    }

    /** The companion's `start`: a start request is sent only when the service is not running. */
    method Start() returns (sent: bool)
      ensures sent <==> !isRunning
    {
      sent := !isRunning;
    }
  }
}
