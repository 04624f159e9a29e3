# GameSpace session and overlay logic in Dafny

GameSpace is an Android app that gives registered games a "game mode": when
a registered game comes to the foreground it snapshots some device settings
(heads-up notifications, automatic brightness, the three-finger screenshot
gesture, the ringer mode) into a persisted session, turns off the ones the
user asked to suppress, shows a floating game bar, and restores everything
when the game leaves. This project models the core of that logic and proves
properties about it:

- the session manager (`GameSession`): snapshot, override and restore against
  an abstract settings store, with the persisted session as text that may be
  missing, empty or unparseable;
- the two foreground trackers: the earlier `TaskListenerService`, a two-field
  state machine over the previous app and the session, and the later
  `SessionService` with its restart-from-death reconciliation and its
  unregister-before-register ordering;
- the drag-and-long-press gesture machine of the bar handle;
- the bar's docking geometry, its background and arrow choices, and the tile
  panel's vertical clamp;
- the game-list codecs (`pkg=mode` entries joined by ';', and plain names
  joined by ';'), the replace-or-append of a game's mode, the battery
  whitelist decision, the game-mode tile's mode cycle, and the settings
  screen's list and filter buffers.

The Android settings provider is `Platform.Store` (integer and string maps
keyed by `Global`/`System` names); the device state that services share
(settings, ringer mode, battery whitelist, per-package game modes) is the
`Platform.Device` object. Calls whose effect the model does not follow
(binding the bar, stay-awake, toasts) are recorded as effect values. The
Android constants used are `GAME_MODE_STANDARD` 1, `PERFORMANCE` 2,
`BATTERY` 3, `RINGER_MODE_NORMAL` 2, brightness modes MANUAL 0 and AUTOMATIC
1, `START_STICKY` 1, `START_NOT_STICKY` 2 and `RESULT_OK` -1.

The files come from different revisions of the app and do not agree with
each other (the bar uses the earlier settings accessors; the task listener
applies sessions through functions the later settings class does not have;
the settings screen reads the game list as names). The selector's nested
`AppListAdapter` is the same code as `AppsAdapter` and is modelled by
that one class. Each file is modelled
against the abstract store on its own terms, without reconciling them.

A few behaviours of the code look unintended; the model follows the code as
written and states them as properties:
- registering the package that already has a session skips the restore and
  snapshots the overridden values (`GameSessions.SameSessionDrift`);
- the later service avoids this by always unregistering first
  (`SessionServices.ReadyTwiceNoDrift`);
- the bar's vertical clamp ignores the bar's own height, and on a screen
  shorter than twice the safe area it keeps the lower bound, while the
  panel's clamp keeps the upper one (`Panel.ClampTieBreaks`);
- `dockCollapsedMenu` picks the arrow before it moves the bar, so an
  expanded bar at the exact centre keeps the arrow for the centre
  (`GameBar.StaleArrowAtCentre`).

## Model

| member | source | states |
|---|---|---|
| SessionStates.NewSessionState | app/src/main/java/io/chaldeaprjkt/gamespace/data/SessionState.kt:21-28 | a new record has the given package, no captured settings and the normal ringer mode |
| UserGames.DefaultUserGame | app/src/main/java/io/chaldeaprjkt/gamespace/data/UserGame.kt:21 | a game without a mode is in standard mode |
| UserGames.FromSettingsOneSeparator | app/src/main/java/io/chaldeaprjkt/gamespace/data/UserGame.kt:25-27 | text with exactly one '=' parses to the text before it and the integer after it; a non-integer after it is an error |
| UserGames.FromSettingsOtherwise | app/src/main/java/io/chaldeaprjkt/gamespace/data/UserGame.kt:25-28 | text with no '=' or several is a game named by the whole text, in standard mode |
| UserGames.FromToSettings | app/src/main/java/io/chaldeaprjkt/gamespace/data/UserGame.kt:22-28 | parsing the `pkg=mode` text of a game whose name has no '=' gives the game back |
| UserGames.ToSettingsShape | app/src/main/java/io/chaldeaprjkt/gamespace/data/UserGame.kt:22 | the text form is never empty and has a ';' only where the package name has one |
| Text.ParseIntString | app/src/main/java/io/chaldeaprjkt/gamespace/data/UserGame.kt:22-27 | `toInt` reads back every Int that `toString` wrote |
| Text.SplitJoin | app/src/main/java/io/chaldeaprjkt/gamespace/data/SystemSettings.kt:95-103 | splitting the ';'-join of pieces without ';' gives the pieces back |
| Text.JoinSplit | app/src/main/java/io/chaldeaprjkt/gamespace/data/SystemSettings.kt:95-103 | joining the pieces of a split gives the text back |
| Text.SplitSize | app/src/main/java/io/chaldeaprjkt/gamespace/data/UserGame.kt:26 | a split has one more piece than the text has separators |
| SystemSettings.SetHeadsUp | app/src/main/java/io/chaldeaprjkt/gamespace/data/SystemSettings.kt:31-40 | heads-up reads back the value written, stored as 1/0 and read as "== 1" with default 1; other settings unchanged |
| SystemSettings.SetAutoBrightness | app/src/main/java/io/chaldeaprjkt/gamespace/data/SystemSettings.kt:42-59 | auto brightness reads back the value written, stored as AUTOMATIC/MANUAL with default AUTOMATIC; other settings unchanged |
| SystemSettings.SetThreeScreenshot | app/src/main/java/io/chaldeaprjkt/gamespace/data/SystemSettings.kt:61-71 | the gesture reads back the value written, with default off; other settings unchanged |
| SystemSettings.SetSuppressFullscreenIntent | app/src/main/java/io/chaldeaprjkt/gamespace/data/SystemSettings.kt:73-87 | the flag reads back the value written, with default off; other settings unchanged |
| SystemSettings.PutUserGames | app/src/main/java/io/chaldeaprjkt/gamespace/data/SystemSettings.kt:98-105 | writing stores "" for no games, else the entries' text joined by ';', and touches nothing else |
| SystemSettings.GameListRoundTrip | app/src/main/java/io/chaldeaprjkt/gamespace/data/SystemSettings.kt:89-105 | writing a list whose names have no ';' or '=' and reading it back gives the same list in order |
| SystemSettings.ParseEachExact | app/src/main/java/io/chaldeaprjkt/gamespace/data/SystemSettings.kt:97 | parsing each entry keeps order and count |
| SystemSettings.EmptyGameList | app/src/main/java/io/chaldeaprjkt/gamespace/data/SystemSettings.kt:90-102 | an absent list and a written empty list both read as empty |
| DeviceSettings.SetSystemHeadsUp | app/src/main/java/io/chaldeaprjkt/gamespace/data/DeviceSettings.kt:23-34 | heads-up reads back the value written, 1/0 with default 1 |
| DeviceSettings.SetAutoBrightness | app/src/main/java/io/chaldeaprjkt/gamespace/data/DeviceSettings.kt:36-51 | auto brightness reads back the value written, AUTOMATIC/MANUAL with default AUTOMATIC |
| DeviceSettings.SetUserNoHeadsUp | app/src/main/java/io/chaldeaprjkt/gamespace/data/DeviceSettings.kt:67-73 | the user flag defaults to off and reads back the value written; the other flags and the game list are unchanged |
| DeviceSettings.SetUserNoAutoBrightness | app/src/main/java/io/chaldeaprjkt/gamespace/data/DeviceSettings.kt:74-80 | the user flag defaults to off and reads back the value written; the other flags and the game list are unchanged |
| DeviceSettings.PutUserGames | app/src/main/java/io/chaldeaprjkt/gamespace/data/DeviceSettings.kt:58-65 | writing stores "" for no names, else the names joined by ';' |
| DeviceSettings.NamesRoundTrip | app/src/main/java/io/chaldeaprjkt/gamespace/data/DeviceSettings.kt:53-65 | write then read gives the names with empty ones dropped, when no name has ';' |
| DeviceSettings.NamesRoundTripExact | app/src/main/java/io/chaldeaprjkt/gamespace/data/DeviceSettings.kt:53-65 | non-empty names without ';' come back exactly |
| DeviceSettings.EmptyNameLost | app/src/main/java/io/chaldeaprjkt/gamespace/data/DeviceSettings.kt:57-63 | an empty name is lost on a write/read cycle |
| GameSessions.Load | app/src/main/java/io/chaldeaprjkt/gamespace/data/GameSession.kt:33-42 | a missing or empty stored text is no session; any other text gives exactly what the JSON reader gives |
| GameSessions.Save | app/src/main/java/io/chaldeaprjkt/gamespace/data/GameSession.kt:43-51 | no session, or a serialisation failure, is stored as "" |
| GameSessions.SaveLoad | app/src/main/java/io/chaldeaprjkt/gamespace/data/GameSession.kt:33-51 | with a lossless JSON codec the saved session is the one loaded |
| GameSessions.SaveFailureLoadsNothing | app/src/main/java/io/chaldeaprjkt/gamespace/data/GameSession.kt:43-50 | a session that cannot be serialised reads back as no session |
| GameSessions.Overridden | app/src/main/java/io/chaldeaprjkt/gamespace/data/GameSession.kt:63-71 | each of the three settings is turned off exactly when its flag is set |
| GameSessions.Restored | app/src/main/java/io/chaldeaprjkt/gamespace/data/GameSession.kt:77-85 | each setting is written back only when its flag is set and its saved value exists |
| GameSessions.UnregisterWithoutSession | app/src/main/java/io/chaldeaprjkt/gamespace/data/GameSession.kt:76 | without a stored session unregister changes nothing |
| GameSessions.UnregisterIdempotent | app/src/main/java/io/chaldeaprjkt/gamespace/data/GameSession.kt:75-88 | unregister leaves no session, so a second unregister is a no-op |
| GameSessions.UnregisterRestores | app/src/main/java/io/chaldeaprjkt/gamespace/data/GameSession.kt:76-87 | what unregister restores: flagged captured settings, and always the ringer mode |
| GameSessions.RegisterRecordsAndOverrides | app/src/main/java/io/chaldeaprjkt/gamespace/data/GameSession.kt:53-73 | after register(name) the stored session is name's snapshot of the settings as read after any preceding restore; flagged settings are off and the ringer is the user's |
| GameSessions.RestoreSnapshot | app/src/main/java/io/chaldeaprjkt/gamespace/data/GameSession.kt:56-87 | restoring a snapshot after overriding brings back all four settings |
| GameSessions.RegisterUnregister | app/src/main/java/io/chaldeaprjkt/gamespace/data/GameSession.kt:53-88 | from no session, register then unregister gives back all four settings |
| GameSessions.SwitchSessions | app/src/main/java/io/chaldeaprjkt/gamespace/data/GameSession.kt:54 | register(a), register(b) with b != a, then unregister gives back the settings from before a |
| GameSessions.SameSessionDrift | app/src/main/java/io/chaldeaprjkt/gamespace/data/GameSession.kt:54-62 | registering the same package twice snapshots the overridden value, so unregister leaves heads-up off |
| GameSessions.GameSession.Register | app/src/main/java/io/chaldeaprjkt/gamespace/data/GameSession.kt:53-73 | the method's new settings, ringer and stored text are those of the register specification |
| GameSessions.GameSession.Unregister | app/src/main/java/io/chaldeaprjkt/gamespace/data/GameSession.kt:75-88 | the method's new state is that of the unregister specification |
| GameSessions.GameSession.Finalize | app/src/main/java/io/chaldeaprjkt/gamespace/data/GameSession.kt:90-92 | finalising unregisters |
| TaskListener.IgnoredEvents | app/src/main/java/io/chaldeaprjkt/gamespace/gamebar/TaskListenerService.kt:123-124 | no top activity, or the previous app again, changes neither field and has no effect |
| TaskListener.DuplicateHarmless | app/src/main/java/io/chaldeaprjkt/gamespace/gamebar/TaskListenerService.kt:124-143 | a handled event records its package, so an immediate duplicate is a no-op |
| TaskListener.EnterGame | app/src/main/java/io/chaldeaprjkt/gamespace/gamebar/TaskListenerService.kt:125-135 | entering a game creates its session, applies it, applies its mode, starts the bar and sets stay-awake to the preference |
| TaskListener.SwitchRestoresFirst | app/src/main/java/io/chaldeaprjkt/gamespace/gamebar/TaskListenerService.kt:126-132 | from game A straight to game B, A's session is restored before B's is applied |
| TaskListener.LeaveGame | app/src/main/java/io/chaldeaprjkt/gamespace/gamebar/TaskListenerService.kt:136-141 | leaving for a non-game releases stay-awake, tells the bar to leave, restores, and clears the session, in that order |
| TaskListener.PreviousAppUpdate | app/src/main/java/io/chaldeaprjkt/gamespace/gamebar/TaskListenerService.kt:143-146 | previousApp becomes the new package after every handled event, and not when the bar call throws |
| TaskListener.TrackedPreserved | app/src/main/java/io/chaldeaprjkt/gamespace/gamebar/TaskListenerService.kt:121-147 | handled events keep the session tied to the previous app, so a new session is applied only after the old one is restored |
| TaskListener.ScreenResetSkipsRestore | app/src/main/java/io/chaldeaprjkt/gamespace/gamebar/TaskListenerService.kt:53-126 | after a screen broadcast resets previousApp, the same game gets a new session and the old one is never restored |
| TaskListener.TaskListenerService.CheckTaskStack | app/src/main/java/io/chaldeaprjkt/gamespace/gamebar/TaskListenerService.kt:121-147 | the fields and the effect log move exactly as the step function says |
| TaskListener.TaskListenerService.OnScreenEvent | app/src/main/java/io/chaldeaprjkt/gamespace/gamebar/TaskListenerService.kt:52-59 | any screen broadcast resets previousApp; screen-off also releases stay-awake |
| TaskListener.TaskListenerService.OnDestroy | app/src/main/java/io/chaldeaprjkt/gamespace/gamebar/TaskListenerService.kt:103-114 | the active session, if any, is restored and the service stops running |
| SessionServices.FromDeath | app/src/main/java/io/chaldeaprjkt/gamespace/gamebar/SessionService.kt:148-161 | not sticky when there is no focused app or it is not a registered game; otherwise a START command for it and sticky |
| SessionServices.StartRequest | app/src/main/java/io/chaldeaprjkt/gamespace/gamebar/SessionService.kt:182-188 | start sends a START intent with the package only when the service is not running |
| SessionServices.StopRequest | app/src/main/java/io/chaldeaprjkt/gamespace/gamebar/SessionService.kt:190-193 | stop sends a STOP intent only when the service is running |
| SessionServices.PreferredModeChoice | app/src/main/java/io/chaldeaprjkt/gamespace/gamebar/SessionService.kt:164-165 | the preferred mode is the game's configured mode, else standard |
| SessionServices.ReadySnapshotsRestored | app/src/main/java/io/chaldeaprjkt/gamespace/gamebar/SessionService.kt:133-139 | because unregister runs before register, the stored snapshot is of the restored settings |
| SessionServices.ReadyTwiceNoDrift | app/src/main/java/io/chaldeaprjkt/gamespace/gamebar/SessionService.kt:126-146 | running the bar-ready path twice for the same game and then unregistering gives back the original settings |
| SessionServices.SessionService.OnStartCommand | app/src/main/java/io/chaldeaprjkt/gamespace/gamebar/SessionService.kt:92-104 | a non-null intent is remembered; the restart path runs only for a null intent, flags 0 and start id above 1; START binds the bar, STOP stops, the result is sticky |
| SessionServices.SessionService.TryStartFromDeath | app/src/main/java/io/chaldeaprjkt/gamespace/gamebar/SessionService.kt:148-161 | the command, the effect log and the result are those of the restart decision |
| SessionServices.SessionService.OnGameBarReady | app/src/main/java/io/chaldeaprjkt/gamespace/gamebar/SessionService.kt:126-146 | unregister always runs first; without a command the service stops and register is never reached; with one the game is registered, its mode applied and the bar started |
| SessionServices.SessionService.ApplyGameModeConfig | app/src/main/java/io/chaldeaprjkt/gamespace/gamebar/SessionService.kt:163-172 | the active game becomes the app's entry and its preferred mode is requested only when available |
| SessionServices.SessionService.OnDestroy | app/src/main/java/io/chaldeaprjkt/gamespace/gamebar/SessionService.kt:114-124 | the bar is told to leave and unbound only when connected; the session is always unregistered |
| SessionServices.SessionService.OnServiceDisconnected | app/src/main/java/io/chaldeaprjkt/gamespace/gamebar/SessionService.kt:68-71 | losing the bar stops the service |
| DragGestures.Fire | app/src/main/java/io/chaldeaprjkt/gamespace/gamebar/DraggableTouchListener.kt:54-61 | the timer performs a long press exactly when it is pending, not moving and not already fired; then it is gone |
| DragGestures.StepValid | app/src/main/java/io/chaldeaprjkt/gamespace/gamebar/DraggableTouchListener.kt:51-106 | no event makes a drag hold a timer or coexist with a long press |
| DragGestures.RunValid | app/src/main/java/io/chaldeaprjkt/gamespace/gamebar/DraggableTouchListener.kt:51-106 | every state reached by a run of events keeps that invariant |
| DragGestures.DownResets | app/src/main/java/io/chaldeaprjkt/gamespace/gamebar/DraggableTouchListener.kt:73-83 | DOWN records pointer and anchor starts, clears moving and the long-press flag and schedules the timer |
| DragGestures.MoveReports | app/src/main/java/io/chaldeaprjkt/gamespace/gamebar/DraggableTouchListener.kt:84-94 | MOVE reports start plus displacement exactly when no long press and already moving or beyond the slop; reporting sets moving and cancels the timer |
| DragGestures.UpOutcome | app/src/main/java/io/chaldeaprjkt/gamespace/gamebar/DraggableTouchListener.kt:95-103 | UP clicks exactly when neither moving nor long-pressed, completes a drag exactly when moving and not long-pressed, and cancels the timer |
| DragGestures.MovingUntilDown | app/src/main/java/io/chaldeaprjkt/gamespace/gamebar/DraggableTouchListener.kt:80-91 | only DOWN clears moving |
| DragGestures.OtherActionIgnored | app/src/main/java/io/chaldeaprjkt/gamespace/gamebar/DraggableTouchListener.kt:72-105 | other actions change nothing |
| DragGestures.LongPressSilencesGesture | app/src/main/java/io/chaldeaprjkt/gamespace/gamebar/DraggableTouchListener.kt:85-102 | after a long press every event up to the next DOWN reports nothing |
| DragGestures.DraggableTouchListener.OnTouch | app/src/main/java/io/chaldeaprjkt/gamespace/gamebar/DraggableTouchListener.kt:71-106 | every event is consumed, and fields and output follow the step function |
| DragGestures.DraggableTouchListener.OnTimer | app/src/main/java/io/chaldeaprjkt/gamespace/gamebar/DraggableTouchListener.kt:54-61 | fields and output follow the timer function |
| DragGestures.DraggableTouchListener.ScheduleLongClickTimer | app/src/main/java/io/chaldeaprjkt/gamespace/gamebar/DraggableTouchListener.kt:51-64 | afterwards a timer is pending; at most one exists |
| DragGestures.DraggableTouchListener.CancelLongClickTimer | app/src/main/java/io/chaldeaprjkt/gamespace/gamebar/DraggableTouchListener.kt:66-69 | afterwards no timer is pending |
| GameBar.DockX | app/src/main/java/io/chaldeaprjkt/gamespace/gamebar/GameBarService.kt:249-259 | x below 0 docks to minus half the width, anything else (0 included) to plus half the width |
| GameBar.ClampY | app/src/main/java/io/chaldeaprjkt/gamespace/gamebar/GameBarService.kt:261-263 | y is at least the safe area and, when the range fits, at most height less safe area; a y below the range goes to the safe area, above it to height less safe area, inside it is kept; on a range that does not fit the result is the safe area |
| GameBar.DockIdempotent | app/src/main/java/io/chaldeaprjkt/gamespace/gamebar/GameBarService.kt:253-263 | docking a docked position leaves it unchanged |
| GameBar.BackgroundFor | app/src/main/java/io/chaldeaprjkt/gamespace/gamebar/GameBarService.kt:218-226 | expanded background exactly when expanded, start background exactly when collapsed at x below 0 |
| GameBar.RotationFor | app/src/main/java/io/chaldeaprjkt/gamespace/gamebar/GameBarService.kt:240-246 | the arrow is at 90 exactly when expanded at x above 0 or collapsed at x below 0, else at -90 |
| GameBar.CollapsedArrowFollowsBackground | app/src/main/java/io/chaldeaprjkt/gamespace/gamebar/GameBarService.kt:218-246 | on a collapsed bar the arrow turns exactly when the start background shows |
| GameBar.DockKeepsBackground | app/src/main/java/io/chaldeaprjkt/gamespace/gamebar/GameBarService.kt:250-259 | docking keeps the bar's side, so a background chosen before docking stays right |
| GameBar.StaleArrowAtCentre | app/src/main/java/io/chaldeaprjkt/gamespace/gamebar/GameBarService.kt:251-259 | the arrow chosen before docking is wrong for an expanded bar at the exact centre |
| GameBar.Captured | app/src/main/java/io/chaldeaprjkt/gamespace/gamebar/GameBarService.kt:158-160 | the snapshot holds all three settings as read |
| GameBar.ApplyRestore | app/src/main/java/io/chaldeaprjkt/gamespace/gamebar/GameBarService.kt:157-182 | start then stop gives the three settings back |
| GameBar.ApplyTwiceDrift | app/src/main/java/io/chaldeaprjkt/gamespace/gamebar/GameBarService.kt:157-182 | a second start before a stop loses the first snapshot, so heads-up stays off |
| GameBar.GameBarService.DockCollapsedMenu | app/src/main/java/io/chaldeaprjkt/gamespace/gamebar/GameBarService.kt:248-265 | the bar moves to the docked position; background and arrow follow the position before the move |
| GameBar.GameBarService.SetBarExpanded | app/src/main/java/io/chaldeaprjkt/gamespace/gamebar/GameBarService.kt:82-94 | the flag is stored and background and arrow follow it |
| GameBar.GameBarService.InitActions | app/src/main/java/io/chaldeaprjkt/gamespace/gamebar/GameBarService.kt:190-199 | the bar is collapsed, placed at the docked saved position, with background and arrow chosen from the saved x |
| GameBar.GameBarService.OnMenuClick | app/src/main/java/io/chaldeaprjkt/gamespace/gamebar/GameBarService.kt:289-291 | the bar flag is toggled and background and arrow follow the new flag |
| GameBar.GameBarService.OnDragMoved | app/src/main/java/io/chaldeaprjkt/gamespace/gamebar/GameBarService.kt:294-299 | a drag step sets the position unclamped |
| GameBar.GameBarService.OnDragComplete | app/src/main/java/io/chaldeaprjkt/gamespace/gamebar/GameBarService.kt:300-305 | the end of a drag docks and then persists the docked position, with background and arrow chosen from the x before docking |
| GameBar.GameBarService.ApplyCustomSettings | app/src/main/java/io/chaldeaprjkt/gamespace/gamebar/GameBarService.kt:157-170 | snapshot all three settings, then turn off the flagged ones |
| GameBar.GameBarService.RestoreCustomSettings | app/src/main/java/io/chaldeaprjkt/gamespace/gamebar/GameBarService.kt:172-182 | write back only the flagged settings that were captured |
| GameBar.GameBarService.OnActionStart | app/src/main/java/io/chaldeaprjkt/gamespace/gamebar/GameBarService.kt:140-148 | apply the settings and attach the bar |
| GameBar.GameBarService.OnActionStop | app/src/main/java/io/chaldeaprjkt/gamespace/gamebar/GameBarService.kt:150-155 | restore the settings and detach the bar |
| Panel.PanelHeight | app/src/main/java/io/chaldeaprjkt/gamespace/widget/PanelView.kt:65-66 | half the screen height in portrait, match-parent in landscape |
| Panel.PanelY | app/src/main/java/io/chaldeaprjkt/gamespace/widget/PanelView.kt:68-77 | in portrait a request inside the range is kept, one below it goes to minY and one above it to maxY; on a range that does not fit the result is maxY; in landscape 0 |
| Panel.ClampTieBreaks | app/src/main/java/io/chaldeaprjkt/gamespace/widget/PanelView.kt:73 | the panel's clamp agrees with the bar's on ranges that fit and keeps the opposite bound on ranges that do not |
| GameModes.FirstIndexFor | app/src/main/java/io/chaldeaprjkt/gamespace/gamebar/SessionService.kt:164 | the index of the first entry for the app, or the length when there is none |
| GameModes.FirstFor | app/src/main/java/io/chaldeaprjkt/gamespace/gamebar/SessionService.kt:166 | the entry at the first index holding the app, none exactly when no entry has its package |
| GameModes.WithoutPackage | app/src/main/java/io/chaldeaprjkt/gamespace/utils/GameModeUtils.kt:64-65 | every entry for other packages is kept, no entry for the package remains |
| GameModes.WithGameMode | app/src/main/java/io/chaldeaprjkt/gamespace/utils/GameModeUtils.kt:63-67 | the package's new entry is last and is the only one for it |
| GameModes.WithoutPackageConcat | app/src/main/java/io/chaldeaprjkt/gamespace/utils/GameModeUtils.kt:64-65 | the filter distributes over concatenation, so other entries keep their order |
| GameModes.WithoutPackageIdempotent | app/src/main/java/io/chaldeaprjkt/gamespace/utils/GameModeUtils.kt:64-65 | filtering twice is filtering once |
| GameModes.OthersKept | app/src/main/java/io/chaldeaprjkt/gamespace/utils/GameModeUtils.kt:64-66 | the entries for other packages are exactly the old ones, in order |
| GameModes.WithGameModeIdempotent | app/src/main/java/io/chaldeaprjkt/gamespace/utils/GameModeUtils.kt:62-70 | setting the same mode twice gives the same list as once |
| GameModes.WithGameModeStored | app/src/main/java/io/chaldeaprjkt/gamespace/utils/GameModeUtils.kt:62-70 | after the write the stored list reads back with the new entry last |
| GameModes.BatteryModeChange | app/src/main/java/io/chaldeaprjkt/gamespace/utils/GameModeUtils.kt:77-82 | add only when enabling an unlisted app, remove only when disabling a listed one |
| GameModes.BatteryModeSettles | app/src/main/java/io/chaldeaprjkt/gamespace/utils/GameModeUtils.kt:77-82 | afterwards the app is listed exactly when enabled |
| GameModes.GameModeUtils.SetupBatteryMode | app/src/main/java/io/chaldeaprjkt/gamespace/utils/GameModeUtils.kt:72-86 | with the idle controller answering, the whitelist holds the app exactly when enabled; with a null service or a RemoteException it stays as it was |
| GameModes.GameModeUtils.PutUserGames | app/src/main/java/io/chaldeaprjkt/gamespace/data/SystemSettings.kt:98-107 | the list is written; with the idle controller answering the whitelist holds the app exactly when the list is non-empty, else it stays as it was |
| GameModes.GameModeUtils.SetGameModeFor | app/src/main/java/io/chaldeaprjkt/gamespace/utils/GameModeUtils.kt:62-70 | returns the entry it stores; when the list reads, the stored list is the replace-or-append of it and the whitelist is on if the idle controller answers; when it does not, the call throws with nothing written |
| GameModes.GameModeUtils.SetActiveGameMode | app/src/main/java/io/chaldeaprjkt/gamespace/utils/GameModeUtils.kt:56-60 | nothing without an active game; else a bound manager takes the mode, and when the stored list reads, the game's entry is replaced by the new mode, the whitelist is on if the idle controller answers (else unchanged) and the entry becomes the active game; when the list does not read the call throws with nothing written |
| GameModeTiles.IndexOf | app/src/main/java/io/chaldeaprjkt/gamespace/widget/tiles/GameModeTile.kt:58 | the first index of the mode, or -1 exactly when absent |
| GameModeTiles.NextMode | app/src/main/java/io/chaldeaprjkt/gamespace/widget/tiles/GameModeTile.kt:58-59 | a click always lands on a listed mode |
| GameModeTiles.ModeCycle | app/src/main/java/io/chaldeaprjkt/gamespace/widget/tiles/GameModeTile.kt:35-59 | standard, performance, battery, standard |
| GameModeTiles.UnlistedToStandard | app/src/main/java/io/chaldeaprjkt/gamespace/widget/tiles/GameModeTile.kt:58-59 | a mode not in the list moves to standard |
| GameModeTiles.ThreeClicks | app/src/main/java/io/chaldeaprjkt/gamespace/widget/tiles/GameModeTile.kt:58-59 | three clicks return a listed mode to itself |
| GameModeTiles.InitialMode | app/src/main/java/io/chaldeaprjkt/gamespace/widget/tiles/GameModeTile.kt:52 | on attach the mode is the active game's, else standard |
| GameModeTiles.GameModeTile.SetActiveMode | app/src/main/java/io/chaldeaprjkt/gamespace/widget/tiles/GameModeTile.kt:41-47 | the mode is stored and selected exactly when not standard, before it is forwarded to setActiveGameMode, whose outcome (manager mode, stored list, whitelist, active game, or the throw) is stated in full |
| GameModeTiles.GameModeTile.OnClick | app/src/main/java/io/chaldeaprjkt/gamespace/widget/tiles/GameModeTile.kt:56-60 | a click moves to the next mode, highlights it unless standard, and forwards it to setActiveGameMode with the same stated outcome, throw included |
| AppLists.WithApp | app/src/main/java/io/chaldeaprjkt/gamespace/preferences/AppListPreferences.kt:86-88 | an absent package is appended at the end and nothing else changes; a present one leaves the list as it is; no duplicate is introduced |
| AppLists.WithoutApp | app/src/main/java/io/chaldeaprjkt/gamespace/preferences/AppListPreferences.kt:94 | removes one occurrence of the key when present (one fewer element, the same multiset less the key), else nothing |
| AppLists.WithoutAppRemoves | app/src/main/java/io/chaldeaprjkt/gamespace/preferences/AppListPreferences.kt:94 | in a list without duplicates the key is gone afterwards |
| AppLists.RemoveUndoesAdd | app/src/main/java/io/chaldeaprjkt/gamespace/preferences/AppListPreferences.kt:86-94 | removing a package just added gives the list back |
| AppLists.RegisterRoundTrip | app/src/main/java/io/chaldeaprjkt/gamespace/preferences/AppListPreferences.kt:85-90 | a registration survives the write and the reload exactly |
| AppLists.LoadedIsStored | app/src/main/java/io/chaldeaprjkt/gamespace/preferences/AppListPreferences.kt:65-68 | with settings the reloaded list is the stored one |
| AppLists.Listed | app/src/main/java/io/chaldeaprjkt/gamespace/preferences/AppListPreferences.kt:71-82 | one entry per registered package sorted by lower-cased title, or none when one cannot be resolved |
| AppLists.SelectedApp | app/src/main/java/io/chaldeaprjkt/gamespace/preferences/AppListPreferences.kt:122-126 | a package is selected only for an OK result carrying one |
| AppLists.AppListPreferences.UpdateAppList | app/src/main/java/io/chaldeaprjkt/gamespace/preferences/AppListPreferences.kt:64-83 | the list is reloaded from settings, and the entries are "Add" followed by the listed apps |
| AppLists.AppListPreferences.RegisterApp | app/src/main/java/io/chaldeaprjkt/gamespace/preferences/AppListPreferences.kt:85-91 | the list with the package added is written back and reloaded |
| AppLists.AppListPreferences.UnregisterApp | app/src/main/java/io/chaldeaprjkt/gamespace/preferences/AppListPreferences.kt:93-97 | the list without the key is written back and reloaded |
| AppLists.AppListPreferences.UseSelectorResult | app/src/main/java/io/chaldeaprjkt/gamespace/preferences/AppListPreferences.kt:122-126 | registers only on an OK result with a package, else nothing changes |
| AppsAdapters.Matching | app/src/main/java/io/chaldeaprjkt/gamespace/preferences/appselector/adapter/AppsAdapter.kt:59 | exactly the matching apps |
| AppsAdapters.MatchingConcat | app/src/main/java/io/chaldeaprjkt/gamespace/preferences/appselector/adapter/AppsAdapter.kt:59 | the filter keeps the apps' relative order |
| AppsAdapters.MatchingAll | app/src/main/java/io/chaldeaprjkt/gamespace/preferences/appselector/adapter/AppsAdapter.kt:59 | when all apps match nothing is dropped |
| AppsAdapters.AppsAdapter.ItemCount | app/src/main/java/io/chaldeaprjkt/gamespace/preferences/appselector/adapter/AppsAdapter.kt:31-33 | the count is the size of the displayed list, all apps when the filter is empty |
| AppsAdapters.AppsAdapter.ItemAt | app/src/main/java/io/chaldeaprjkt/gamespace/preferences/appselector/adapter/AppsAdapter.kt:42-50 | every displayed item is one of the apps |
| AppsAdapters.AppsAdapter.FilterWith | app/src/main/java/io/chaldeaprjkt/gamespace/preferences/appselector/adapter/AppsAdapter.kt:56-69 | nothing without a context; else the buffer is the matching apps, and all apps show when none match |
| AppSelector.AppSelectorFragment.OnQueryTextChange | app/src/main/java/io/chaldeaprjkt/gamespace/preferences/appselector/AppSelectorFragment.kt:141-162 | the event is not consumed; with an adapter and a context the buffer becomes the matching apps, without a context it is unchanged |
| AppSelector.EligibleApps | app/src/main/java/io/chaldeaprjkt/gamespace/preferences/appselector/AppSelectorFragment.kt:82-86 | exactly the apps that are not this app, not system apps and not registered; none without settings |
| AppSelector.Candidates | app/src/main/java/io/chaldeaprjkt/gamespace/preferences/appselector/AppSelectorFragment.kt:80-87 | the eligible apps sorted by lower-cased label |
| AppSelector.NoSettingsNoCandidates | app/src/main/java/io/chaldeaprjkt/gamespace/preferences/appselector/AppSelectorFragment.kt:85 | without settings no app is offered |
| AppSelector.RegisteredExcluded | app/src/main/java/io/chaldeaprjkt/gamespace/preferences/appselector/AppSelectorFragment.kt:84-85 | no offered app is registered or a system app |
| AppSelector.AppSelectorFragment.SetupAppListView | app/src/main/java/io/chaldeaprjkt/gamespace/preferences/appselector/AppSelectorFragment.kt:78-91 | a fresh unfiltered adapter over the candidates |
| Sorting.SortBy | app/src/main/java/io/chaldeaprjkt/gamespace/preferences/appselector/AppSelectorFragment.kt:87 | the result is in key order and a permutation of the input |
| DragGestures.Step | app/src/main/java/io/chaldeaprjkt/gamespace/gamebar/DraggableTouchListener.kt:71-106 | one touch event or the timer: a click or a completed drag only on UP, a position only on MOVE before any long press, a long press only from the timer, and any other action changes nothing |
| TaskListener.TaskStackStep | app/src/main/java/io/chaldeaprjkt/gamespace/gamebar/TaskListenerService.kt:121-147 | effects only for a top package other than the previous app with a readable game list; with the bar bound the previous app becomes the top package, without it either the previous app stays or there is no session |
| TaskListener.ScreenStep | app/src/main/java/io/chaldeaprjkt/gamespace/gamebar/TaskListenerService.kt:52-59 | a screen broadcast forgets the previous app and keeps the session; it has an effect exactly on screen-off |
| GameSessions.UnregisterSpec | app/src/main/java/io/chaldeaprjkt/gamespace/data/GameSession.kt:75-88 | without a stored session nothing changes; afterwards no session is stored |
| GameSessions.RegisterSpec | app/src/main/java/io/chaldeaprjkt/gamespace/data/GameSession.kt:53-73 | the ringer becomes the user's and every flagged setting is off |
| UserGames.ToSettings | app/src/main/java/io/chaldeaprjkt/gamespace/data/UserGame.kt:22 | the text starts with the package name followed by '=' |
| UserGames.FromSettings | app/src/main/java/io/chaldeaprjkt/gamespace/data/UserGame.kt:25-28 | text without '=' is a standard-mode game named by the whole text; a parsed name has no '=' unless it is the whole text |
| SystemSettings.ParseGameList | app/src/main/java/io/chaldeaprjkt/gamespace/data/SystemSettings.kt:89-97 | an absent or empty stored text reads as the empty list |
| SystemSettings.UserGamesOf | app/src/main/java/io/chaldeaprjkt/gamespace/data/SystemSettings.kt:89-97 | an absent game list reads as empty |
| DeviceSettings.UserGamesOf | app/src/main/java/io/chaldeaprjkt/gamespace/data/DeviceSettings.kt:53-57 | every name read is non-empty and holds no ';', and an absent list reads as empty |
| GameBar.Dock | app/src/main/java/io/chaldeaprjkt/gamespace/gamebar/GameBarService.kt:248-265 | the bar snaps to one of the two half-width edges, on the side of its x for widths of 2 or more, and never above the safe area |
| GameBar.GameBarService.UpdateBackground | app/src/main/java/io/chaldeaprjkt/gamespace/gamebar/GameBarService.kt:218-226 | the background is the one BackgroundFor picks for the current flag and x |
| GameBar.GameBarService.UpdateExpanderMenu | app/src/main/java/io/chaldeaprjkt/gamespace/gamebar/GameBarService.kt:240-246 | the arrow rotation is the one RotationFor picks for the current flag and x |
| GameModes.PreferredMode | app/src/main/java/io/chaldeaprjkt/gamespace/gamebar/SessionService.kt:164-165 | the mode of the app's first entry, else standard |
| GameModes.GameModeUtils.Bind | app/src/main/java/io/chaldeaprjkt/gamespace/utils/GameModeUtils.kt:42-44 | afterwards a game manager is bound |
| GameModes.GameModeUtils.Unbind | app/src/main/java/io/chaldeaprjkt/gamespace/utils/GameModeUtils.kt:46-48 | afterwards no game manager is bound |
| GameModeTiles.GameModeTile.OnAttachedToWindow | app/src/main/java/io/chaldeaprjkt/gamespace/widget/tiles/GameModeTile.kt:49-54 | the tile shows the active game's mode, or standard, and forwards it to the mode utilities exactly as the setter does, throw included |
| SessionServices.SessionService.OnCreate | app/src/main/java/io/chaldeaprjkt/gamespace/gamebar/SessionService.kt:80-90 | the game manager is bound and the service is running |
| SessionServices.SessionService.OnServiceConnected | app/src/main/java/io/chaldeaprjkt/gamespace/gamebar/SessionService.kt:62-66 | the bar is marked connected, then the ready path runs: unregister, then register the commanded package with its mode and bar start, or stop without a command |
| TaskListener.TaskListenerService.OnCreate | app/src/main/java/io/chaldeaprjkt/gamespace/gamebar/TaskListenerService.kt:76-94 | the service is marked running |
| TaskListener.TaskListenerService.OnServiceConnected | app/src/main/java/io/chaldeaprjkt/gamespace/gamebar/TaskListenerService.kt:64-67 | the bar becomes bound, then the task stack is checked with the bar bound |
| TaskListener.TaskListenerService.Start | app/src/main/java/io/chaldeaprjkt/gamespace/gamebar/TaskListenerService.kt:166-168 | a start request is sent exactly when the service is not running |
| AppLists.Loaded | app/src/main/java/io/chaldeaprjkt/gamespace/preferences/AppListPreferences.kt:65-68 | nothing is loaded without settings, and every loaded name is non-empty without ';' |
| Text.Lower | app/src/main/java/io/chaldeaprjkt/gamespace/preferences/AppListPreferences.kt:81 | the length is kept, exactly the ASCII capitals change, and each becomes its lower-case letter |
| Text.ParseInt | app/src/main/java/io/chaldeaprjkt/gamespace/data/UserGame.kt:27 | a parsed text is an optional sign followed by decimal digits; conversely digits with an optional sign parse to their value when it fits in an Int (down to -2^31 with '-') and fail otherwise |
| AppLists.FirstIndexOf | app/src/main/java/io/chaldeaprjkt/gamespace/preferences/AppListPreferences.kt:94 | the position of the key's first occurrence, which is the length exactly when the key is absent |
| AppLists.WithoutAppFirst | app/src/main/java/io/chaldeaprjkt/gamespace/preferences/AppListPreferences.kt:94 | the occurrence removed is the first one, and the other elements keep their order |
| Text.LowerIdempotent | app/src/main/java/io/chaldeaprjkt/gamespace/preferences/AppListPreferences.kt:81 | lower-casing a lower-cased text changes nothing |
| Text.LexLeqTotal | app/src/main/java/io/chaldeaprjkt/gamespace/preferences/appselector/AppSelectorFragment.kt:87 | any two sort keys are ordered one way or the other |
| Text.LexLeqTransitive | app/src/main/java/io/chaldeaprjkt/gamespace/preferences/appselector/AppSelectorFragment.kt:87 | the key order is transitive |
| Text.SupplementaryBeforeHighBmp | app/src/main/java/io/chaldeaprjkt/gamespace/preferences/AppListPreferences.kt:81 | keys compare by UTF-16 code units, so U+1F600 sorts before U+F900 although its code point is larger |

## Left out

- Concurrency and timing: the long-press `Timer` thread, coroutine scopes and `postDelayed` are sequential events; a timer firing after it was cancelled is not modelled.
- Floating point: `hypot` becomes the squared-distance test on whole-pixel coordinates, so `rawX.toInt()` truncation and the float `deltaX` are not modelled; the panel's `toFloat` and density conversions are parameters in pixels.
- Coordinates, sizes and ringer modes are unbounded integers; only game modes are 32-bit, as the text codec needs.
- The Gson reader and writer are the `Codec` parameter; the round trips assume it is lossless.
- The regular expression of `filterWith` is a predicate on the label; its unescaped query text is not modelled.
- Views, drawables, animations, padding and margins (`updateContainerGaps`), toasts, the screenshot, recorder and heads-up buttons, `onConfigurationChanged` and `onBarDragged`'s icon change are UI plumbing.
- Service binding, receivers, wakelocks (`ScreenUtils`) and the game bar calls are entries in effect logs.
- `GameModeUtils.setIntervention` and `describeGameMode` write device configuration and read resources; they are not part of this model.
- The task listener's `applyUserSettings`/`restoreUserSettings` are not in the `SystemSettings` class of the revision modelled; they are effect entries.
- SessionServices.FromDeath: takes the parsed game list; a list that fails to parse throws out of `onStartCommand`, which is not modelled.
- `AppSettings` is a preferences wrapper; its values (`noHeadsUp` true, `noAutoBrightness` true, `noThreeScreenshot` false, `ringerMode` 0 by default) are inputs.
- The bar's user flags (`userNoHeadsUp` and the others) are read from settings in that revision; they are the service's fixed `flags` input.
- The in-memory session of the bar is created without a package in that revision; the model gives it the empty name.
- The app selector's system test `flags and FLAG_SYSTEM == 0` is a boolean field of the app.
- Sorting.SortBy: the sort is stated as ordered and a permutation; its stability is not stated.
- Text.Lower: folds the ASCII capitals only, while Kotlin's `lowercase()` folds every cased letter; so AppLists.Listed and AppSelector.Candidates order labels with non-ASCII capitals by their unfolded UTF-16 code units (here "Яндекс" sorts before "арена", in the app after it). Unicode case tables are not modelled.
- Text.ParseInt: accepts the ASCII digits only, while Kotlin's `toInt` accepts every Unicode decimal digit; so an entry such as "pkg=٣" fails to parse here (UserGames.FromSettings gives None) where the app reads mode 3. Unicode digit tables are not modelled.
