/**
 * Per-game mode bookkeeping: the managed list's replace-or-append update, the
 * active game, and asking the device-idle controller to keep this app on the
 * power-save whitelist exactly while some game is managed.
 */
module GameModes {

  import opened Wrappers
  import opened Platform
  import opened UserGames
  import opened SystemSettings

  const DEFAULT_PREFERRED_MODE: int32 := GAME_MODE_STANDARD

  /** The position of the first entry for `app`, or `|games|` when there is none. */
  function FirstIndexFor(games: seq<UserGame>, app: string): (i: nat)
    ensures i <= |games|
    ensures forall j :: 0 <= j < i ==> games[j].packageName != app
    ensures i < |games| ==> games[i].packageName == app
  {
    if |games| == 0 then 0
    else if games[0].packageName == app then 0
    else 1 + FirstIndexFor(games[1..], app)
  }

  /** `firstOrNull { it.packageName == app }`. */
  function FirstFor(games: seq<UserGame>, app: string): (r: Option<UserGame>)
    ensures r.None? <==> forall i :: 0 <= i < |games| ==> games[i].packageName != app
    ensures r.Some? ==> r.value.packageName == app && r.value in games
    ensures r.Some? ==> r.value == games[FirstIndexFor(games, app)]
  {
    var i := FirstIndexFor(games, app);
    if i < |games| then Some(games[i]) else None
  }

  /** The mode a game is started in: its own entry's mode, else the default. */
  function PreferredMode(games: seq<UserGame>, app: string): (r: int32)
    ensures FirstIndexFor(games, app) < |games| ==> r == games[FirstIndexFor(games, app)].mode
    ensures (forall i :: 0 <= i < |games| ==> games[i].packageName != app) ==> r == GAME_MODE_STANDARD
  {
    match FirstFor(games, app)
    case Some(g) => g.mode
    case None => DEFAULT_PREFERRED_MODE
  }

  /** `filter { it.packageName != p }`. */
  function WithoutPackage(games: seq<UserGame>, p: string): (r: seq<UserGame>)
    ensures forall i :: 0 <= i < |r| ==> r[i].packageName != p && r[i] in games
    ensures forall i :: 0 <= i < |games| && games[i].packageName != p ==> games[i] in r
    ensures |r| <= |games|
  {
    if |games| == 0 then []
    else if games[0].packageName == p then WithoutPackage(games[1..], p)
    else [games[0]] + WithoutPackage(games[1..], p)
  }

  /** The list `setGameModeFor(p, m)` writes: the other entries in order, then `p=m`. */
  function WithGameMode(games: seq<UserGame>, p: string, m: int32): (r: seq<UserGame>)
    ensures |r| > 0 && r[|r| - 1] == UserGame(p, m)
    ensures forall i :: 0 <= i < |r| - 1 ==> r[i].packageName != p
  {
    WithoutPackage(games, p) + [UserGame(p, m)]
  }

  lemma {:induction false} WithoutPackageConcat(a: seq<UserGame>, b: seq<UserGame>, p: string)
    ensures WithoutPackage(a + b, p) == WithoutPackage(a, p) + WithoutPackage(b, p)
  {
    if |a| > 0 {
      assert (a + b)[1..] == a[1..] + b;
      WithoutPackageConcat(a[1..], b, p);
    } else {
      assert a + b == b;
    }
  }

  lemma {:induction false} WithoutPackageIdempotent(games: seq<UserGame>, p: string)
    ensures WithoutPackage(WithoutPackage(games, p), p) == WithoutPackage(games, p)
  {
    if |games| > 0 {
      WithoutPackageIdempotent(games[1..], p);
      if games[0].packageName != p {
        assert ([games[0]] + WithoutPackage(games[1..], p))[1..] == WithoutPackage(games[1..], p);
      }
    }
  }

  /** The entries of other packages keep their relative order. */
  lemma OthersKept(games: seq<UserGame>, p: string, m: int32)
    ensures WithoutPackage(WithGameMode(games, p, m), p) == WithoutPackage(games, p)
  {
    WithoutPackageConcat(WithoutPackage(games, p), [UserGame(p, m)], p);
    WithoutPackageIdempotent(games, p);
    assert WithoutPackage([UserGame(p, m)], p) == [];
  }

  /** Setting the same mode twice gives the list that setting it once gives. */
  lemma WithGameModeIdempotent(games: seq<UserGame>, p: string, m: int32)
    ensures WithGameMode(WithGameMode(games, p, m), p, m) == WithGameMode(games, p, m)
  {
    OthersKept(games, p, m);
  }

  /** A written list of encodable entries reads back with exactly one entry for `p`, the last, with mode `m`. */
  lemma WithGameModeStored(s: Store, games: seq<UserGame>, p: string, m: int32)
    requires Encodable(games) && ';' !in p && '=' !in p
    ensures var r := UserGamesOf(PutUserGames(s, WithGameMode(games, p, m)));
      && r == Some(WithGameMode(games, p, m))
      && FirstFor(r.value, p) == Some(UserGame(p, m))
  {
    var w := WithGameMode(games, p, m);
    assert Encodable(w) by {
      forall i | 0 <= i < |w| ensures ';' !in w[i].packageName && '=' !in w[i].packageName {
        if i < |w| - 1 {
          var k :| 0 <= k < |games| && games[k] == w[i];
        }
      }
    }
    GameListRoundTrip(s, w);
  }

  // ---------------------------------------------------------------- whitelist

  datatype WhitelistChange = AddToWhitelist | RemoveFromWhitelist | KeepWhitelist

  /** `setupBatteryMode(enable)`'s decision given whether the app is listed. */
  function BatteryModeChange(enable: bool, listed: bool): (r: WhitelistChange)
    ensures r == AddToWhitelist <==> enable && !listed
    ensures r == RemoveFromWhitelist <==> !enable && listed
  {
    if enable && !listed then AddToWhitelist
    else if !enable && listed then RemoveFromWhitelist
    else KeepWhitelist
  }

  function ApplyChange(listed: bool, c: WhitelistChange): bool {
    match c
    case AddToWhitelist => true
    case RemoveFromWhitelist => false
    case KeepWhitelist => listed
  }

  /** Afterwards the app is listed exactly when `enable`. */
  lemma BatteryModeSettles(enable: bool, listed: bool)
    ensures ApplyChange(listed, BatteryModeChange(enable, listed)) == enable
  {
  }

  // ---------------------------------------------------------------- the helper object

  class GameModeUtils {
    const device: Device
    /** Whether a game manager is bound (`manager != null`). */
    var managerBound: bool
    var activeGame: Option<UserGame>

    constructor(device: Device)
      ensures this.device == device && !managerBound && activeGame.None?
    {
      this.device := device;
      managerBound := false;
      activeGame := None;
    }

    method Bind()
      modifies this`managerBound
      ensures managerBound
    {
      managerBound := true;
    }

    method Unbind()
      modifies this`managerBound
      ensures !managerBound
    {
      managerBound := false;
    }

    /** `setupBatteryMode(enable)`: with the idle controller answering, the app ends up listed
        exactly when `enable`; without it (a null service, or a `RemoteException` caught and
        printed) the whitelist stays as it was. */
    method SetupBatteryMode(enable: bool)
      modifies device`whitelisted
      ensures device.idleService ==> device.whitelisted == enable
      ensures !device.idleService ==> device.whitelisted == old(device.whitelisted)
    {
      if !device.idleService {
        return;
      }
      var isListed := device.whitelisted;
      var change := BatteryModeChange(enable, isListed);
      device.whitelisted := ApplyChange(isListed, change);
    }

    /** The `SystemSettings.userGames` setter: write the list, then ask for the whitelist iff it is non-empty. */
    method PutUserGames(games: seq<UserGame>)
      modifies device`settings, device`whitelisted
      ensures device.settings == SystemSettings.PutUserGames(old(device.settings), games)
      ensures device.whitelisted == if device.idleService then |games| > 0 else old(device.whitelisted)
    {
      device.settings := SystemSettings.PutUserGames(device.settings, games);
      SetupBatteryMode(|games| > 0);
    }

    /** `setGameModeFor(p, mode)`; `ok` is false where reading the list throws and nothing is written. */
    method SetGameModeFor(packageName: string, mode: int32) returns (ok: bool, data: UserGame)
      modifies device`settings, device`whitelisted
      ensures data == UserGame(packageName, mode)
      ensures ok <==> old(UserGamesOf(device.settings)).Some?
      ensures ok ==> device.settings == SystemSettings.PutUserGames(old(device.settings),
                       WithGameMode(old(UserGamesOf(device.settings)).value, packageName, mode))
      ensures ok ==> device.whitelisted == (device.idleService || old(device.whitelisted))
      ensures !ok ==> device.settings == old(device.settings) && device.whitelisted == old(device.whitelisted)
    {
      data := UserGame(packageName, mode);
      var games := UserGamesOf(device.settings);
      if games.None? {
        return false, data;
      }
      PutUserGames(WithoutPackage(games.value, packageName) + [data]);
      ok := true;
    }

    /** What `setActiveGameMode(mode)` leaves behind. Without an active game nothing changes.
        With one, the game manager (when bound) takes the mode. When the stored list can be
        read (`ok`), that game's entry is replaced by `p=mode` and the whitelist is turned on when
        the idle controller answers,
        and the stored entry becomes the active game. When the list cannot be read, the call
        throws with nothing written. */
    twostate predicate ActiveGameModeSet(mode: int32, ok: bool)
      reads this, device
    {
      && managerBound == old(managerBound)
      && (old(activeGame).None? ==>
            ok && activeGame == old(activeGame) && device.settings == old(device.settings)
            && device.whitelisted == old(device.whitelisted) && device.gameModes == old(device.gameModes))
      && (old(activeGame).Some? ==>
            var p := old(activeGame).value.packageName;
            var stored := old(UserGamesOf(device.settings));
            && device.gameModes == (if managerBound then old(device.gameModes)[p := mode] else old(device.gameModes))
            && (ok <==> stored.Some?)
            && (ok ==>
                  && activeGame == Some(UserGame(p, mode))
                  && device.settings == SystemSettings.PutUserGames(old(device.settings), WithGameMode(stored.value, p, mode))
                  && device.whitelisted == (device.idleService || old(device.whitelisted)))
            && (!ok ==>
                  && activeGame == old(activeGame)
                  && device.settings == old(device.settings)
                  && device.whitelisted == old(device.whitelisted)))
    }

    /** `setActiveGameMode(mode)`; `ok` is false where it throws. */
    method SetActiveGameMode(mode: int32) returns (ok: bool)
      modifies this`activeGame, device`settings, device`whitelisted, device`gameModes
      ensures ActiveGameModeSet(mode, ok)
    {
      if activeGame.None? {
        return true;
      }
      var packageName := activeGame.value.packageName;
      if managerBound {
        device.gameModes := device.gameModes[packageName := mode];
      }
      var data;
      ok, data := SetGameModeFor(packageName, mode);
      if ok {
        activeGame := Some(data);
      }
    }
  }
}
