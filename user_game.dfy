/** A managed game and its preferred game mode, with its "package=mode" text form. */
module UserGames {

  import opened Wrappers
  import opened Platform
  import opened Text

  datatype UserGame = UserGame(packageName: string, mode: int32)

  /** `UserGame(packageName)`: the mode defaults to standard. */
  function DefaultUserGame(packageName: string): (g: UserGame)
    ensures g.packageName == packageName && g.mode == GAME_MODE_STANDARD
  {
    UserGame(packageName, GAME_MODE_STANDARD)
  }

  /** `toString()`: "package=mode". */
  function ToSettings(g: UserGame): (r: string)
    ensures |r| > |g.packageName| && r[..|g.packageName|] == g.packageName && r[|g.packageName|] == '='
  {
    g.packageName + "=" + IntString(g.mode)
  }

  /**
   * `fromSettings(data)`: two pieces around '=' give package and mode, any
   * other number of pieces gives the whole text as package with the default
   * mode. `None` where `toInt` throws on the text after '='.
   */
  function FromSettings(data: string): (r: Option<UserGame>)
    ensures '=' !in data ==> r == Some(DefaultUserGame(data))
    ensures r.Some? ==> '=' !in r.value.packageName || r.value.packageName == data
  {
    var parts := Split(data, '=');
    if |parts| == 2 then
      match ParseInt(parts[1])
      case Some(m) => Some(UserGame(parts[0], m))
      case None => None
    else Some(DefaultUserGame(data))
  }

  /** With exactly one '=' at index `i`, the text before it is the package and the text after it the mode. */
  lemma FromSettingsOneSeparator(data: string, i: nat)
    requires i < |data| && data[i] == '=' && Count(data, '=') == 1
    ensures FromSettings(data) ==
      match ParseInt(data[i + 1..])
      case Some(m) => Some(UserGame(data[..i], m))
      case None => None
  {
    assert data == data[..i] + [data[i]] + data[i + 1..];
    CountConcat(data[..i] + [data[i]], data[i + 1..], '=');
    CountConcat(data[..i], [data[i]], '=');
    CountAbsent(data[..i], '=');
    CountAbsent(data[i + 1..], '=');
    SplitAfterPiece(data[..i], '=', data[i + 1..]);
  }

  /** With no '=' or more than one, the whole text is the package and the mode is standard. */
  lemma FromSettingsOtherwise(data: string)
    requires Count(data, '=') != 1
    ensures FromSettings(data) == Some(UserGame(data, GAME_MODE_STANDARD))
  {
    SplitSize(data, '=');
  }

  /** `fromSettings(g.toString()) == g` whenever the package name has no '='. */
  lemma FromToSettings(g: UserGame)
    requires '=' !in g.packageName
    ensures FromSettings(ToSettings(g)) == Some(g)
  {
    var m := IntString(g.mode);
    IntStringAvoids(g.mode, '=');
    assert ToSettings(g) == g.packageName + ['='] + m;
    SplitAfterPiece(g.packageName, '=', m);
    ParseIntString(g.mode);
  }

  /** The text form is never empty and has ';' only where the package name has. */
  lemma ToSettingsShape(g: UserGame)
    ensures ToSettings(g) != ""
    ensures ';' !in g.packageName ==> ';' !in ToSettings(g)
  {
    IntStringAvoids(g.mode, ';');
  }
}
