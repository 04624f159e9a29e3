/**
 * The earlier accessor class over the settings provider: the game list as
 * plain package names joined by ';', and the user's override flags kept in
 * the provider as 1/0.
 */
module DeviceSettings {

  import opened Wrappers
  import opened Platform
  import opened Text

  const HEADS_UP_KEY := Global("heads_up_notifications_enabled")
  const BRIGHTNESS_MODE_KEY := System("screen_brightness_mode")
  const GAME_LIST_KEY := System("gamespace_game_list")
  const HEADS_UP_DISABLE_KEY := System("gamespace_heads_up_disabled")
  const AUTO_BRIGHTNESS_DISABLE_KEY := System("gamespace_auto_brightness_disabled")

  /** Heads-up notifications are on unless the setting holds something other than 1. */
  function SystemHeadsUp(s: Store): bool { GetInt(s, HEADS_UP_KEY, 1) == 1 }

  function SetSystemHeadsUp(s: Store, enabled: bool): (r: Store)
    ensures SystemHeadsUp(r) == enabled
    ensures AutoBrightness(r) == AutoBrightness(s)
    ensures UserNoHeadsUp(r) == UserNoHeadsUp(s) && UserNoAutoBrightness(r) == UserNoAutoBrightness(s)
    ensures r.strings == s.strings
  {
    PutInt(s, HEADS_UP_KEY, if enabled then 1 else 0)
  }

  /** Auto brightness is on exactly when the mode is automatic, the mode an unset device has. */
  function AutoBrightness(s: Store): bool {
    GetInt(s, BRIGHTNESS_MODE_KEY, SCREEN_BRIGHTNESS_MODE_AUTOMATIC) == SCREEN_BRIGHTNESS_MODE_AUTOMATIC
  }

  function SetAutoBrightness(s: Store, auto: bool): (r: Store)
    ensures AutoBrightness(r) == auto
    ensures SystemHeadsUp(r) == SystemHeadsUp(s)
    ensures UserNoHeadsUp(r) == UserNoHeadsUp(s) && UserNoAutoBrightness(r) == UserNoAutoBrightness(s)
    ensures r.strings == s.strings
  {
    PutInt(s, BRIGHTNESS_MODE_KEY,
      if auto then SCREEN_BRIGHTNESS_MODE_AUTOMATIC else SCREEN_BRIGHTNESS_MODE_MANUAL)
  }

  /** The user asked to disable heads-up while gaming; off until set. */
  function UserNoHeadsUp(s: Store): bool { GetInt(s, HEADS_UP_DISABLE_KEY, 0) == 1 }

  function SetUserNoHeadsUp(s: Store, value: bool): (r: Store)
    ensures UserNoHeadsUp(r) == value
    ensures SystemHeadsUp(r) == SystemHeadsUp(s) && AutoBrightness(r) == AutoBrightness(s)
    ensures UserNoAutoBrightness(r) == UserNoAutoBrightness(s)
    ensures r.strings == s.strings
  {
    PutInt(s, HEADS_UP_DISABLE_KEY, if value then 1 else 0)
  }

  /** The user asked to disable auto brightness while gaming; off until set. */
  function UserNoAutoBrightness(s: Store): bool { GetInt(s, AUTO_BRIGHTNESS_DISABLE_KEY, 0) == 1 }

  function SetUserNoAutoBrightness(s: Store, value: bool): (r: Store)
    ensures UserNoAutoBrightness(r) == value
    ensures SystemHeadsUp(r) == SystemHeadsUp(s) && AutoBrightness(r) == AutoBrightness(s)
    ensures UserNoHeadsUp(r) == UserNoHeadsUp(s)
    ensures r.strings == s.strings
  {
    PutInt(s, AUTO_BRIGHTNESS_DISABLE_KEY, if value then 1 else 0)
  }

  /** The game list as read from its stored text: absent reads as empty, empty pieces are dropped. */
  function ParseNames(raw: Option<string>): seq<string> {
    match raw
    case None => []
    case Some(text) => NonEmpty(Split(text, ';'))
  }

  /** The stored text of a name list: "" for none, else the names joined by ';'. */
  function EncodeNames(names: seq<string>): string {
    if |names| == 0 then "" else Join(names, ';')
  }

  /** The `userGames` getter. */
  function UserGamesOf(s: Store): (r: seq<string>)
    ensures forall i :: 0 <= i < |r| ==> r[i] != "" && ';' !in r[i]
    ensures GetString(s, GAME_LIST_KEY).None? ==> r == []
  {
    ParseNames(GetString(s, GAME_LIST_KEY))
  }

  /** The `userGames` setter. */
  function PutUserGames(s: Store, names: seq<string>): (r: Store)
    ensures SystemHeadsUp(r) == SystemHeadsUp(s) && AutoBrightness(r) == AutoBrightness(s)
    ensures UserNoHeadsUp(r) == UserNoHeadsUp(s) && UserNoAutoBrightness(r) == UserNoAutoBrightness(s)
    ensures GetString(r, GAME_LIST_KEY) == Some(EncodeNames(names))
    ensures forall k :: k != GAME_LIST_KEY ==> GetString(r, k) == GetString(s, k)
    ensures r.ints == s.ints
  {
    PutString(s, GAME_LIST_KEY, EncodeNames(names))
  }

  /** A write/read cycle keeps exactly the non-empty names, in order, when no name holds ';'. */
  lemma NamesRoundTrip(s: Store, names: seq<string>)
    requires forall i :: 0 <= i < |names| ==> ';' !in names[i]
    ensures UserGamesOf(PutUserGames(s, names)) == NonEmpty(names)
  {
    if |names| == 0 {
      assert Split("", ';') == [""];
    } else {
      SplitJoin(names, ';');
    }
  }

  /** So non-empty names without ';' round-trip exactly. */
  lemma NamesRoundTripExact(s: Store, names: seq<string>)
    requires forall i :: 0 <= i < |names| ==> ';' !in names[i] && names[i] != ""
    ensures UserGamesOf(PutUserGames(s, names)) == names
  {
    NamesRoundTrip(s, names);
  }

  /** And an empty name is dropped by the cycle. */
  lemma EmptyNameLost(s: Store, name: string)
    requires ';' !in name && name != ""
    ensures UserGamesOf(PutUserGames(s, [name, ""])) == [name]
  {
    NamesRoundTrip(s, [name, ""]);
    assert [name, ""][1..] == [""];
  }
}
