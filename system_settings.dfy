/**
 * Typed accessors over the settings provider: the boolean settings stored as
 * 1/0 or as a brightness mode, and the managed-game list stored as
 * "package=mode" entries joined by ';'.
 */
module SystemSettings {

  import opened Wrappers
  import opened Platform
  import opened Text
  import opened UserGames

  // Setting names; the model only relies on them being distinct.
  const HEADS_UP_KEY := Global("heads_up_notifications_enabled")
  const BRIGHTNESS_MODE_KEY := System("screen_brightness_mode")
  const THREE_FINGER_KEY := System("three_finger_gesture")
  const SUPPRESS_FULLSCREEN_KEY := System("gamespace_suppress_fullscreen_intent")
  const GAME_LIST_KEY := System("gamespace_game_list")

  function BoolToInt(b: bool): int { if b then 1 else 0 }

  /** Heads-up notifications are on unless the setting holds something other than 1. */
  function HeadsUp(s: Store): bool { GetInt(s, HEADS_UP_KEY, 1) == 1 }

  /** Auto brightness is on exactly when the mode is automatic, the mode an unset device has. */
  function AutoBrightness(s: Store): bool {
    GetInt(s, BRIGHTNESS_MODE_KEY, SCREEN_BRIGHTNESS_MODE_AUTOMATIC) == SCREEN_BRIGHTNESS_MODE_AUTOMATIC
  }

  /** The three-finger screenshot gesture is off unless the setting holds 1. */
  function ThreeScreenshot(s: Store): bool { GetInt(s, THREE_FINGER_KEY, 0) == 1 }

  /** Suppression of full-screen intents is off unless the setting holds 1. */
  function SuppressFullscreenIntent(s: Store): bool { GetInt(s, SUPPRESS_FULLSCREEN_KEY, 0) == 1 }

  /** The game-list entry is the same in both stores. */
  predicate SameGameList(r: Store, s: Store) {
    GetString(r, GAME_LIST_KEY) == GetString(s, GAME_LIST_KEY)
  }

  function SetHeadsUp(s: Store, on: bool): (r: Store)
    ensures HeadsUp(r) == on
    ensures AutoBrightness(r) == AutoBrightness(s) && ThreeScreenshot(r) == ThreeScreenshot(s)
    ensures SuppressFullscreenIntent(r) == SuppressFullscreenIntent(s) && SameGameList(r, s)
  {
    PutInt(s, HEADS_UP_KEY, BoolToInt(on))
  }

  function SetAutoBrightness(s: Store, auto: bool): (r: Store)
    ensures AutoBrightness(r) == auto
    ensures HeadsUp(r) == HeadsUp(s) && ThreeScreenshot(r) == ThreeScreenshot(s)
    ensures SuppressFullscreenIntent(r) == SuppressFullscreenIntent(s) && SameGameList(r, s)
  {
    PutInt(s, BRIGHTNESS_MODE_KEY,
      if auto then SCREEN_BRIGHTNESS_MODE_AUTOMATIC else SCREEN_BRIGHTNESS_MODE_MANUAL)
  }

  function SetThreeScreenshot(s: Store, on: bool): (r: Store)
    ensures ThreeScreenshot(r) == on
    ensures HeadsUp(r) == HeadsUp(s) && AutoBrightness(r) == AutoBrightness(s)
    ensures SuppressFullscreenIntent(r) == SuppressFullscreenIntent(s) && SameGameList(r, s)
  {
    PutInt(s, THREE_FINGER_KEY, BoolToInt(on))
  }

  function SetSuppressFullscreenIntent(s: Store, on: bool): (r: Store)
    ensures SuppressFullscreenIntent(r) == on
    ensures HeadsUp(r) == HeadsUp(s) && AutoBrightness(r) == AutoBrightness(s)
    ensures ThreeScreenshot(r) == ThreeScreenshot(s) && SameGameList(r, s)
  {
    PutInt(s, SUPPRESS_FULLSCREEN_KEY, BoolToInt(on))
  }

  // ---------------------------------------------------------------- game list

  /** Parses every entry, or `None` as soon as one of them throws. */
  function ParseEach(parts: seq<string>): (r: Option<seq<UserGame>>)
    ensures r.Some? <==> forall i :: 0 <= i < |parts| ==> FromSettings(parts[i]).Some?
    ensures r.Some? ==> |r.value| == |parts|
    ensures r.Some? ==> forall i :: 0 <= i < |parts| ==> FromSettings(parts[i]) == Some(r.value[i])
  {
    if |parts| == 0 then Some([])
    else
      match (FromSettings(parts[0]), ParseEach(parts[1..]))
      case (Some(g), Some(gs)) => Some([g] + gs)
      case _ => None
  }

  /** The game list as read from its stored text: absent reads as empty, empty pieces are dropped. */
  function ParseGameList(raw: Option<string>): (r: Option<seq<UserGame>>)
    ensures raw.None? || raw == Some("") ==> r == Some([])
  {
    match raw
    case None => Some([])
    case Some(text) => ParseEach(NonEmpty(Split(text, ';')))
  }

  function ToSettingsAll(games: seq<UserGame>): (r: seq<string>)
    ensures |r| == |games| && forall i :: 0 <= i < |games| ==> r[i] == ToSettings(games[i])
  {
    if |games| == 0 then [] else [ToSettings(games[0])] + ToSettingsAll(games[1..])
  }

  /** The stored text of a game list: "" for none, else the entries joined by ';'. */
  function EncodeGameList(games: seq<UserGame>): string {
    if |games| == 0 then "" else Join(ToSettingsAll(games), ';')
  }

  /** The `userGames` getter; `None` where it throws. */
  function UserGamesOf(s: Store): (r: Option<seq<UserGame>>)
    ensures GetString(s, GAME_LIST_KEY).None? ==> r == Some([])
  {
    ParseGameList(GetString(s, GAME_LIST_KEY))
  }

  /** The store write of the `userGames` setter (its whitelist update is in GameModes). */
  function PutUserGames(s: Store, games: seq<UserGame>): (r: Store)
    ensures HeadsUp(r) == HeadsUp(s) && AutoBrightness(r) == AutoBrightness(s)
    ensures ThreeScreenshot(r) == ThreeScreenshot(s)
    ensures SuppressFullscreenIntent(r) == SuppressFullscreenIntent(s)
    ensures GetString(r, GAME_LIST_KEY) == Some(EncodeGameList(games))
    ensures forall k :: k != GAME_LIST_KEY ==> GetString(r, k) == GetString(s, k)
    ensures r.ints == s.ints
  {
    PutString(s, GAME_LIST_KEY, EncodeGameList(games))
  }

  /** Package names that survive the text form. */
  predicate Encodable(games: seq<UserGame>) {
    forall i :: 0 <= i < |games| ==> ';' !in games[i].packageName && '=' !in games[i].packageName
  }

  /** Writing a list and reading it back gives the same list, in order. */
  lemma GameListRoundTrip(s: Store, games: seq<UserGame>)
    requires Encodable(games)
    ensures UserGamesOf(PutUserGames(s, games)) == Some(games)
  {
    var parts := ToSettingsAll(games);
    if |games| > 0 {
      forall i | 0 <= i < |parts| ensures ';' !in parts[i] && parts[i] != "" {
        ToSettingsShape(games[i]);
      }
      SplitJoin(parts, ';');
      forall i | 0 <= i < |parts| ensures FromSettings(parts[i]) == Some(games[i]) {
        FromToSettings(games[i]);
      }
      ParseEachExact(parts, games);
    }
  }

  lemma {:induction false} ParseEachExact(parts: seq<string>, games: seq<UserGame>)
    requires |parts| == |games|
    requires forall i :: 0 <= i < |parts| ==> FromSettings(parts[i]) == Some(games[i])
    ensures ParseEach(parts) == Some(games)
  {
    if |parts| > 0 {
      ParseEachExact(parts[1..], games[1..]);
      assert games == [games[0]] + games[1..];
    }
  }

  /** An absent list reads as empty, and so does the "" that an empty list is written as. */
  lemma EmptyGameList(s: Store)
    ensures ParseGameList(None) == Some([])
    ensures UserGamesOf(PutUserGames(s, [])) == Some([])
  {
    assert Split("", ';') == [""];
  }
}
