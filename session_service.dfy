/**
 * The session service of the later revision: started with a package to
 * track, it binds the game bar and, once the bar is connected, restores any
 * stale session before registering the new one. After being killed it
 * reconciles from the actual foreground app.
 */
module SessionServices {

  import opened Wrappers
  import opened Platform
  import opened UserGames
  import opened AppPreferences
  import opened GameSessions
  import opened GameModes

  const START := "game_start"
  const STOP := "game_stop"

  /** The parts of an `Intent` the service reads: its action and its package extra. */
  datatype Intent = Intent(action: Option<string>, packageName: Option<string>)

  /** The calls the service makes that the model does not follow further. */
  datatype ServiceEffect =
    | BindBar
    | UnbindBar
    | StopSelf
    | BarStart
    | BarLeave
    | StayAwake(on: bool)
    | SetGameMode(app: string, mode: int32)

  /** A null intent, no flags and a start id above one: the system restarted the killed service. */
  predicate IsRestartFromDeath(intent: Option<Intent>, flags: int, startId: int) {
    intent.None? && flags == 0 && startId > 1
  }

  predicate Managed(games: seq<UserGame>, app: string) {
    exists i | 0 <= i < |games| :: games[i].packageName == app
  }

  /** `tryStartFromDeath`'s decision: the START command to remember, if any, and the result code. */
  function FromDeath(focused: Option<string>, games: seq<UserGame>): (r: (Option<Intent>, int))
    ensures r.0.Some? <==> focused.Some? && Managed(games, focused.value)
    ensures r.0.Some? ==> r.0.value == Intent(Some(START), focused) && r.1 == START_STICKY
    ensures r.0.None? ==> r.1 == START_NOT_STICKY
  {
    if focused.None? || !Managed(games, focused.value) then (None, START_NOT_STICKY)
    else (Some(Intent(Some(START), focused)), START_STICKY)
  }

  /** The companion's `start(app)`: the intent it sends, only when the service is not running. */
  function StartRequest(isRunning: bool, app: string): (r: Option<Intent>)
    ensures r.Some? <==> !isRunning
    ensures r.Some? ==> r.value.action == Some(START) && r.value.packageName == Some(app)
  {
    if isRunning then None else Some(Intent(Some(START), Some(app)))
  }

  /** The companion's `stop()`: the intent it sends, only when the service is running. */
  function StopRequest(isRunning: bool): (r: Option<Intent>)
    ensures r.Some? <==> isRunning
    ensures r.Some? ==> r.value.action == Some(STOP)
  {
    if isRunning then Some(Intent(Some(STOP), None)) else None
  }

  /** The preferred mode is the game's configured mode, else standard. */
  lemma PreferredModeChoice(games: seq<UserGame>, app: string)
    ensures Managed(games, app) ==> PreferredMode(games, app) == games[FirstIndexFor(games, app)].mode
    ensures !Managed(games, app) ==> PreferredMode(games, app) == GAME_MODE_STANDARD
  {
  }

  /** Because the bar-ready path unregisters before it registers, the snapshot it stores is of the
      restored settings, whichever session was stored before. */
  lemma ReadySnapshotsRestored(e: Env, flags: AppSettings, c: Codec, app: string)
    requires Lossless(c)
    ensures var restored := UnregisterSpec(e, flags, c);
      Load(RegisterSpec(restored, flags, c, app).db, c) == Some(Snapshot(app, restored))
  {
    var restored := UnregisterSpec(e, flags, c);
    UnregisterIdempotent(e, flags, c);
    assert BeforeSnapshot(restored, flags, c, app) == restored;
    RegisterRecordsAndOverrides(restored, flags, c, app);
  }

  /** So running the bar-ready path twice for the same game and then ending the session gives
      back the settings as they were before: no drift. */
  lemma ReadyTwiceNoDrift(e: Env, flags: AppSettings, c: Codec, app: string)
    requires Lossless(c) && Load(e.db, c).None?
    ensures var once := RegisterSpec(UnregisterSpec(e, flags, c), flags, c, app);
      var twice := RegisterSpec(UnregisterSpec(once, flags, c), flags, c, app);
      Observe(UnregisterSpec(twice, flags, c)) == Observe(e)
  {
    var once := RegisterSpec(UnregisterSpec(e, flags, c), flags, c, app);
    assert UnregisterSpec(e, flags, c) == e;
    RegisterUnregister(e, flags, c, app);
    var back := UnregisterSpec(once, flags, c);
    UnregisterIdempotent(once, flags, c);
    RegisterUnregister(back, flags, c, app);
    UnregisterWithoutSession(back, flags, c);
  }

  class SessionService {
    const session: GameSession
    const modeUtils: GameModeUtils
    const appSettings: AppSettings
    /** The last command received; `None` while the `lateinit` field is uninitialised. */
    var commandIntent: Option<Intent>
    var isBarConnected: bool
    /** The companion's `isRunning`. */
    var isRunning: bool
    var effects: seq<ServiceEffect>

    constructor(session: GameSession, modeUtils: GameModeUtils, appSettings: AppSettings)
      ensures this.session == session && this.modeUtils == modeUtils && this.appSettings == appSettings
      ensures commandIntent.None? && !isBarConnected && !isRunning && effects == []
    {
      this.session := session;
      this.modeUtils := modeUtils;
      this.appSettings := appSettings;
      commandIntent := None;
      isBarConnected := false;
      isRunning := false;
      effects := [];
    }

    method OnCreate()
      modifies this`isRunning, modeUtils`managerBound
      ensures isRunning && modeUtils.managerBound
    {
      modeUtils.Bind();
      isRunning := true;
    }

    /** `onStartCommand`: remember a non-null intent; on a restart from death reconcile from the
        focused app; otherwise START binds the bar and STOP stops the service. */
    method OnStartCommand(intent: Option<Intent>, flags: int, startId: int,
                          focused: Option<string>, games: seq<UserGame>) returns (result: int)
      modifies this`commandIntent, this`effects
      ensures IsRestartFromDeath(intent, flags, startId) ==>
        var (cmd, code) := FromDeath(focused, games);
        && result == code
        && commandIntent == (if cmd.Some? then cmd else old(commandIntent))
        && effects == old(effects) + (if cmd.Some? then [BindBar] else [])
      ensures !IsRestartFromDeath(intent, flags, startId) ==>
        && result == START_STICKY
        && commandIntent == (if intent.Some? then intent else old(commandIntent))
        && effects == old(effects) +
             if intent.Some? && intent.value.action == Some(START) then [BindBar]
             else if intent.Some? && intent.value.action == Some(STOP) then [StopSelf]
             else []
    {
      if intent.Some? {
        commandIntent := intent;
      }
      if intent.None? && flags == 0 && startId > 1 {
        result := TryStartFromDeath(focused, games);
        return;
      }
      if intent.Some? && intent.value.action == Some(START) {
        effects := effects + [BindBar];
      } else if intent.Some? && intent.value.action == Some(STOP) {
        effects := effects + [StopSelf];
      }
      result := START_STICKY;
    }

    method TryStartFromDeath(focused: Option<string>, games: seq<UserGame>) returns (result: int)
      modifies this`commandIntent, this`effects
      ensures var (cmd, code) := FromDeath(focused, games);
        && result == code
        && commandIntent == (if cmd.Some? then cmd else old(commandIntent))
        && effects == old(effects) + (if cmd.Some? then [BindBar] else [])
    {
      if focused.None? {
        return START_NOT_STICKY;
      }
      var game := focused.value;
      if !Managed(games, game) {
        return START_NOT_STICKY;
      }
      commandIntent := Some(Intent(Some(START), Some(game)));
      effects := effects + [BindBar];
      result := START_STICKY;
    }

    /** The bar connection came up: mark it, then run the ready path as a connected service. */
    method OnServiceConnected(games: Option<seq<UserGame>>, available: set<int32>)
      modifies this`isBarConnected, this`effects, session, session.device`settings, session.device`ringerMode,
        modeUtils`activeGame
      ensures isBarConnected
      ensures commandIntent.None? || commandIntent.value.packageName.None? ==>
        && session.CurrentEnv() == UnregisterSpec(old(session.CurrentEnv()), session.appSettings, session.gson)
        && effects == old(effects) + (if commandIntent.None? then [StopSelf] else [])
        && modeUtils.activeGame == old(modeUtils.activeGame)
      ensures commandIntent.Some? && commandIntent.value.packageName.Some? ==>
        var app := commandIntent.value.packageName.value;
        && session.CurrentEnv() == RegisterSpec(
             UnregisterSpec(old(session.CurrentEnv()), session.appSettings, session.gson),
             session.appSettings, session.gson, app)
        && modeUtils.activeGame == (if games.Some? then FirstFor(games.value, app) else old(modeUtils.activeGame))
        && effects == old(effects) +
             if games.None? then []
             else ModeEffects(games.value, app, available) + [BarStart, StayAwake(appSettings.stayAwake)]
    {
      isBarConnected := true;
      OnGameBarReady(games, available);
    }

    /** The bar connection dropped: stop the service. */
    method OnServiceDisconnected()
      modifies this`isBarConnected, this`effects
      ensures !isBarConnected && effects == old(effects) + [StopSelf]
    {
      isBarConnected := false;
      effects := effects + [StopSelf];
    }

    /**
     * `onGameBarReady`: unregister, then register the commanded package. Without a command
     * the service stops itself and the read of the command throws; without a package extra
     * `register` throws; a throwing read of the game list ends the rest. Exceptions are swallowed.
     */
    method OnGameBarReady(games: Option<seq<UserGame>>, available: set<int32>)
      modifies this`effects, session, session.device`settings, session.device`ringerMode, modeUtils`activeGame
      ensures !isBarConnected ==>
        effects == old(effects) + [BindBar] && session.CurrentEnv() == old(session.CurrentEnv())
        && modeUtils.activeGame == old(modeUtils.activeGame)
      ensures isBarConnected && (commandIntent.None? || commandIntent.value.packageName.None?) ==>
        && session.CurrentEnv() == UnregisterSpec(old(session.CurrentEnv()), session.appSettings, session.gson)
        && effects == old(effects) + (if commandIntent.None? then [StopSelf] else [])
        && modeUtils.activeGame == old(modeUtils.activeGame)
      ensures isBarConnected && commandIntent.Some? && commandIntent.value.packageName.Some? ==>
        var app := commandIntent.value.packageName.value;
        && session.CurrentEnv() == RegisterSpec(
             UnregisterSpec(old(session.CurrentEnv()), session.appSettings, session.gson),
             session.appSettings, session.gson, app)
        && modeUtils.activeGame == (if games.Some? then FirstFor(games.value, app) else old(modeUtils.activeGame))
        && effects == old(effects) +
             if games.None? then []
             else ModeEffects(games.value, app, available) + [BarStart, StayAwake(appSettings.stayAwake)]
    {
      if !isBarConnected {
        effects := effects + [BindBar];
        return;
      }
      session.Unregister();
      if commandIntent.None? {
        effects := effects + [StopSelf];
        return;
      }
      var app := commandIntent.value.packageName;
      if app.None? {
        return;
      }
      session.Register(app.value);
      if games.None? {
        return;
      }
      ApplyGameModeConfig(app.value, games.value, available);
      effects := effects + [BarStart, StayAwake(appSettings.stayAwake)];
    }

    /** The game-mode request of `applyGameModeConfig`: only for a mode the game supports. */
    static function ModeEffects(games: seq<UserGame>, app: string, available: set<int32>): seq<ServiceEffect> {
      var preferred := PreferredMode(games, app);
      if preferred in available then [SetGameMode(app, preferred)] else []
    }

    /** `applyGameModeConfig(app)`: the active game becomes the app's entry, and its preferred mode is
        requested when available. */
    method ApplyGameModeConfig(app: string, games: seq<UserGame>, available: set<int32>)
      modifies this`effects, modeUtils`activeGame
      ensures modeUtils.activeGame == FirstFor(games, app)
      ensures effects == old(effects) + ModeEffects(games, app, available)
    {
      var preferred := PreferredMode(games, app);
      modeUtils.activeGame := FirstFor(games, app);
      if preferred in available {
        effects := effects + [SetGameMode(app, preferred)];
      }
    }

    /** `onDestroy`: tell a connected bar to leave and unbind it, always unregister, then stop. */
    method OnDestroy()
      modifies this`effects, this`isRunning, session, session.device`settings, session.device`ringerMode,
        modeUtils`managerBound
      ensures !isRunning && !modeUtils.managerBound
      ensures effects == old(effects) + (if isBarConnected then [BarLeave, UnbindBar] else [])
      ensures session.CurrentEnv() == UnregisterSpec(old(session.CurrentEnv()), session.appSettings, session.gson)
    {
      if isBarConnected {
        effects := effects + [BarLeave, UnbindBar];
      }
      session.Unregister();
      modeUtils.Unbind();
      isRunning := false;
    }
  }
}
