/**
 * The session manager: `register` snapshots the device settings into a
 * persisted record and overrides them as the user's flags ask; `unregister`
 * writes the snapshot back and clears the record.
 */
module GameSessions {

  import opened Wrappers
  import opened Platform
  import opened SessionStates
  import opened SystemSettings
  import opened AppPreferences

  // ---------------------------------------------------------------- persisted record

  /** The JSON conversion of the record; `None` where it throws. It is outside the model. */
  datatype Codec = Codec(toJson: SessionState -> Option<string>, fromJson: string -> Option<SessionState>)

  /** The codec writes every record as non-empty text and reads that text back unchanged. */
  ghost predicate Lossless(c: Codec) {
    forall st :: c.toJson(st).Some? && c.toJson(st).value != "" && c.fromJson(c.toJson(st).value) == Some(st)
  }

  /** The `state` getter: absent or empty text, or text that does not parse, is no session. */
  function Load(raw: Option<string>, c: Codec): (r: Option<SessionState>)
    ensures raw.None? || raw == Some("") ==> r.None?
    ensures r.Some? ==> raw.Some? && c.fromJson(raw.value) == r
    ensures raw.Some? && raw.value != "" ==> r == c.fromJson(raw.value)
  {
    match raw
    case None => None
    case Some(text) => if text == "" then None else c.fromJson(text)
  }

  /** The text the `state` setter stores: "" for no session, and "" when serialisation throws. */
  function Save(value: Option<SessionState>, c: Codec): (r: string)
    ensures value.None? ==> r == ""
    ensures value.Some? && c.toJson(value.value).None? ==> r == ""
  {
    match value
    case None => ""
    case Some(st) => c.toJson(st).GetOr("")
  }

  /** With a lossless codec, what is saved is what is loaded. */
  lemma SaveLoad(value: Option<SessionState>, c: Codec)
    requires Lossless(c)
    ensures Load(Some(Save(value, c)), c) == value
  {
    if value.Some? {
      assert c.toJson(value.value).Some?;
    }
  }

  /** A record whose serialisation throws is stored as "" and so reads back as no session. */
  lemma SaveFailureLoadsNothing(st: SessionState, c: Codec)
    requires c.toJson(st).None?
    ensures Load(Some(Save(Some(st), c)), c) == None
  {
  }

  // ---------------------------------------------------------------- specification

  /** What `register`/`unregister` read and write: the settings, the ringer, the persisted text. */
  datatype Env = Env(settings: Store, ringerMode: int, db: Option<string>)

  /** The four settings a session touches, as the app reads them. */
  datatype Observed = Observed(headsUp: bool, autoBrightness: bool, threeScreenshot: bool, ringerMode: int)

  function Observe(e: Env): Observed {
    Observed(HeadsUp(e.settings), AutoBrightness(e.settings), ThreeScreenshot(e.settings), e.ringerMode)
  }

  /** The record `register(name)` persists: every setting as read at that moment. */
  function Snapshot(name: string, e: Env): SessionState {
    SessionState(name, Some(AutoBrightness(e.settings)), Some(HeadsUp(e.settings)),
      Some(ThreeScreenshot(e.settings)), e.ringerMode)
  }

  /** The settings `register` turns off, each only when its flag is set. */
  function Overridden(s: Store, flags: AppSettings): (r: Store)
    ensures HeadsUp(r) == (HeadsUp(s) && !flags.noHeadsUp)
    ensures AutoBrightness(r) == (AutoBrightness(s) && !flags.noAutoBrightness)
    ensures ThreeScreenshot(r) == (ThreeScreenshot(s) && !flags.noThreeScreenshot)
  {
    var s1 := if flags.noHeadsUp then SetHeadsUp(s, false) else s;
    var s2 := if flags.noAutoBrightness then SetAutoBrightness(s1, false) else s1;
    if flags.noThreeScreenshot then SetThreeScreenshot(s2, false) else s2
  }

  /** The settings `unregister` writes back: each one whose flag is set and whose saved value exists. */
  function Restored(s: Store, flags: AppSettings, orig: SessionState): (r: Store)
    ensures HeadsUp(r) ==
      if flags.noHeadsUp && orig.headsUp.Some? then orig.headsUp.value else HeadsUp(s)
    ensures AutoBrightness(r) ==
      if flags.noAutoBrightness && orig.autoBrightness.Some? then orig.autoBrightness.value else AutoBrightness(s)
    ensures ThreeScreenshot(r) ==
      if flags.noThreeScreenshot && orig.threeScreenshot.Some? then orig.threeScreenshot.value else ThreeScreenshot(s)
  {
    var s1 := if flags.noHeadsUp && orig.headsUp.Some? then SetHeadsUp(s, orig.headsUp.value) else s;
    var s2 := if flags.noAutoBrightness && orig.autoBrightness.Some? then SetAutoBrightness(s1, orig.autoBrightness.value) else s1;
    if flags.noThreeScreenshot && orig.threeScreenshot.Some? then SetThreeScreenshot(s2, orig.threeScreenshot.value) else s2
  }

  /** `unregister()`: nothing without a session; else restore, reset the ringer, clear the record. */
  function UnregisterSpec(e: Env, flags: AppSettings, c: Codec): (r: Env)
    ensures Load(e.db, c).None? ==> r == e
    ensures Load(r.db, c).None?
  {
    match Load(e.db, c)
    case None => e
    case Some(orig) => Env(Restored(e.settings, flags, orig), orig.ringerMode, Some(Save(None, c)))
  }

  /** The state `register(name)` snapshots: unregistered first unless the session is already `name`'s. */
  function BeforeSnapshot(e: Env, flags: AppSettings, c: Codec, name: string): Env {
    var current := Load(e.db, c);
    if current.None? || current.value.packageName != name then UnregisterSpec(e, flags, c) else e
  }

  /** `register(name)`. */
  function RegisterSpec(e: Env, flags: AppSettings, c: Codec, name: string): (r: Env)
    ensures r.ringerMode == flags.ringerMode
    ensures flags.noHeadsUp ==> !HeadsUp(r.settings)
    ensures flags.noAutoBrightness ==> !AutoBrightness(r.settings)
    ensures flags.noThreeScreenshot ==> !ThreeScreenshot(r.settings)
  {
    var pre := BeforeSnapshot(e, flags, c, name);
    Env(Overridden(pre.settings, flags), flags.ringerMode, Some(Save(Some(Snapshot(name, pre)), c)))
  }

  // ---------------------------------------------------------------- properties

  /** Without a stored session `unregister` changes nothing. */
  lemma UnregisterWithoutSession(e: Env, flags: AppSettings, c: Codec)
    requires Load(e.db, c).None?
    ensures UnregisterSpec(e, flags, c) == e
  {
  }

  /** After `unregister` no session is stored, so a second `unregister` is a no-op. */
  lemma UnregisterIdempotent(e: Env, flags: AppSettings, c: Codec)
    ensures Load(UnregisterSpec(e, flags, c).db, c).None?
    ensures UnregisterSpec(UnregisterSpec(e, flags, c), flags, c) == UnregisterSpec(e, flags, c)
  {
    var e1 := UnregisterSpec(e, flags, c);
    UnregisterWithoutSession(e1, flags, c);
  }

  /** What `unregister` restores from a stored session. */
  lemma UnregisterRestores(e: Env, flags: AppSettings, c: Codec, orig: SessionState)
    requires Load(e.db, c) == Some(orig)
    ensures var o := Observe(UnregisterSpec(e, flags, c));
      && o.headsUp == (if flags.noHeadsUp && orig.headsUp.Some? then orig.headsUp.value else HeadsUp(e.settings))
      && o.autoBrightness == (if flags.noAutoBrightness && orig.autoBrightness.Some? then orig.autoBrightness.value else AutoBrightness(e.settings))
      && o.threeScreenshot == (if flags.noThreeScreenshot && orig.threeScreenshot.Some? then orig.threeScreenshot.value else ThreeScreenshot(e.settings))
      && o.ringerMode == orig.ringerMode
  {
  }

  /** After `register(name)` the stored session is `name`'s snapshot of the settings as they were
      after any preceding restore, and the flagged settings are off and the ringer is the user's. */
  lemma RegisterRecordsAndOverrides(e: Env, flags: AppSettings, c: Codec, name: string)
    requires Lossless(c)
    ensures var pre := BeforeSnapshot(e, flags, c, name);
      var r := RegisterSpec(e, flags, c, name);
      && Load(r.db, c) == Some(Snapshot(name, pre))
      && Load(r.db, c).value.packageName == name
      && Observe(r) == Observed(
           HeadsUp(pre.settings) && !flags.noHeadsUp,
           AutoBrightness(pre.settings) && !flags.noAutoBrightness,
           ThreeScreenshot(pre.settings) && !flags.noThreeScreenshot,
           flags.ringerMode)
  {
    SaveLoad(Some(Snapshot(name, BeforeSnapshot(e, flags, c, name))), c);
  }

  /** Restoring a snapshot of `e` brings back what was observed in `e`. */
  lemma RestoreSnapshot(e: Env, flags: AppSettings, name: string)
    ensures Observe(Env(Restored(Overridden(e.settings, flags), flags, Snapshot(name, e)), e.ringerMode, None))
         == Observe(e)
  {
  }

  /** Round trip: from no session, `register(a)` then `unregister()` gives back all four settings. */
  lemma RegisterUnregister(e: Env, flags: AppSettings, c: Codec, a: string)
    requires Lossless(c) && Load(e.db, c).None?
    ensures Observe(UnregisterSpec(RegisterSpec(e, flags, c, a), flags, c)) == Observe(e)
  {
    var r := RegisterSpec(e, flags, c, a);
    SaveLoad(Some(Snapshot(a, e)), c);
    assert Load(r.db, c) == Some(Snapshot(a, e));
    RestoreSnapshot(e, flags, a);
  }

  /** Switching games: `register(a)`, `register(b)` with b != a, then `unregister()` gives back the
      settings from before `a`, because the second register restores `a`'s snapshot first. */
  lemma SwitchSessions(e: Env, flags: AppSettings, c: Codec, a: string, b: string)
    requires Lossless(c) && Load(e.db, c).None? && a != b
    ensures Observe(BeforeSnapshot(RegisterSpec(e, flags, c, a), flags, c, b)) == Observe(e)
    ensures Observe(UnregisterSpec(RegisterSpec(RegisterSpec(e, flags, c, a), flags, c, b), flags, c)) == Observe(e)
  {
    var ra := RegisterSpec(e, flags, c, a);
    RegisterUnregister(e, flags, c, a);
    SaveLoad(Some(Snapshot(a, e)), c);
    var pre := BeforeSnapshot(ra, flags, c, b);
    assert pre == UnregisterSpec(ra, flags, c);
    UnregisterIdempotent(ra, flags, c);
    RegisterUnregister(pre, flags, c, b);
  }

  /** Registering the same package again skips the restore and snapshots the already overridden
      settings: with heads-up on and its flag set, `register(a)` twice then `unregister()` leaves
      heads-up off. */
  lemma SameSessionDrift(e: Env, flags: AppSettings, c: Codec, a: string)
    requires Lossless(c) && Load(e.db, c).None?
    requires flags.noHeadsUp && HeadsUp(e.settings)
    ensures var twice := RegisterSpec(RegisterSpec(e, flags, c, a), flags, c, a);
      && Load(twice.db, c).value.headsUp == Some(false)
      && !HeadsUp(UnregisterSpec(twice, flags, c).settings)
  {
    var once := RegisterSpec(e, flags, c, a);
    RegisterRecordsAndOverrides(e, flags, c, a);
    assert BeforeSnapshot(once, flags, c, a) == once;
    RegisterRecordsAndOverrides(once, flags, c, a);
  }

  // ---------------------------------------------------------------- the manager

  class GameSession {
    const device: Device
    const appSettings: AppSettings
    const gson: Codec
    /** The "session" entry of the "persisted_session" preferences; `None` when absent. */
    var db: Option<string>

    constructor(device: Device, appSettings: AppSettings, gson: Codec, db: Option<string>)
      ensures this.device == device && this.appSettings == appSettings && this.gson == gson && this.db == db
    {
      this.device := device;
      this.appSettings := appSettings;
      this.gson := gson;
      this.db := db;
    }

    /** The `state` property. */
    function State(): Option<SessionState>
      reads this
    {
      Load(db, gson)
    }

    function CurrentEnv(): Env
      reads this, device
    {
      Env(device.settings, device.ringerMode, db)
    }

    method Register(sessionName: string)
      modifies this, device`settings, device`ringerMode
      ensures CurrentEnv() == RegisterSpec(old(CurrentEnv()), appSettings, gson, sessionName)
    {
      var current := State();
      if current.None? || current.value.packageName != sessionName {
        Unregister();
      }
      var snapshot := SessionState(sessionName,
        Some(AutoBrightness(device.settings)), Some(HeadsUp(device.settings)),
        Some(ThreeScreenshot(device.settings)), device.ringerMode);
      db := Some(Save(Some(snapshot), gson));
      if appSettings.noHeadsUp {
        device.settings := SetHeadsUp(device.settings, false);
      }
      if appSettings.noAutoBrightness {
        device.settings := SetAutoBrightness(device.settings, false);
      }
      if appSettings.noThreeScreenshot {
        device.settings := SetThreeScreenshot(device.settings, false);
      }
      device.ringerMode := appSettings.ringerMode;
    }

    method Unregister()
      modifies this, device`settings, device`ringerMode
      ensures CurrentEnv() == UnregisterSpec(old(CurrentEnv()), appSettings, gson)
    {
      var state := State();
      if state.None? {
        return;
      }
      var orig := state.value;
      if appSettings.noHeadsUp && orig.headsUp.Some? {
        device.settings := SetHeadsUp(device.settings, orig.headsUp.value);
      }
      if appSettings.noAutoBrightness && orig.autoBrightness.Some? {
        device.settings := SetAutoBrightness(device.settings, orig.autoBrightness.value);
      }
      if appSettings.noThreeScreenshot && orig.threeScreenshot.Some? {
        device.settings := SetThreeScreenshot(device.settings, orig.threeScreenshot.value);
      }
      device.ringerMode := orig.ringerMode;
      db := Some(Save(None, gson));
    }

    /** Called when the object is collected: restores like `unregister`. */
    method Finalize()
      modifies this, device`settings, device`ringerMode
      ensures CurrentEnv() == UnregisterSpec(old(CurrentEnv()), appSettings, gson)
    {
      Unregister();
    }
  }
}
