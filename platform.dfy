/**
 * The Android platform values the app depends on, and the external device
 * state (settings provider, ringer, power-save whitelist, game manager) that
 * the app's services read and write. The platform itself is not modelled:
 * it is an abstract key/value store plus a few fields.
 */
module Platform {

  import opened Wrappers

  /** Kotlin `Int`. */
  newtype int32 = x: int | -0x8000_0000 <= x < 0x8000_0000

  // android.app.GameManager
  const GAME_MODE_STANDARD: int32 := 1
  const GAME_MODE_PERFORMANCE: int32 := 2
  const GAME_MODE_BATTERY: int32 := 3

  // android.media.AudioManager
  const RINGER_MODE_NORMAL: int := 2

  // android.provider.Settings.System
  const SCREEN_BRIGHTNESS_MODE_MANUAL: int := 0
  const SCREEN_BRIGHTNESS_MODE_AUTOMATIC: int := 1

  // android.app.Service
  const START_STICKY: int := 1
  const START_NOT_STICKY: int := 2

  /** A settings key: the table it lives in and its name. */
  datatype Key = Global(name: string) | System(name: string)

  /** The settings provider: integer and string entries, each possibly absent. */
  datatype Store = Store(ints: map<Key, int>, strings: map<Key, string>)

  /** `Settings.*.getInt(resolver, key, default)`. */
  function GetInt(s: Store, k: Key, default: int): (r: int)
    ensures k !in s.ints ==> r == default
  {
    if k in s.ints then s.ints[k] else default
  }

  /** `Settings.*.putInt(resolver, key, v)`: only that entry changes. */
  function PutInt(s: Store, k: Key, v: int): (r: Store)
    ensures GetInt(r, k, 0) == v
    ensures forall j :: j != k ==> (j in r.ints <==> j in s.ints)
    ensures forall j :: j != k && j in s.ints ==> r.ints[j] == s.ints[j]
    ensures r.strings == s.strings
  {
    s.(ints := s.ints[k := v])
  }

  /** `Settings.*.getString(resolver, key)`, `None` for an absent entry. */
  function GetString(s: Store, k: Key): (r: Option<string>)
    ensures r.Some? <==> k in s.strings
  {
    if k in s.strings then Some(s.strings[k]) else None
  }

  /** `Settings.*.putString(resolver, key, v)`: only that entry changes. */
  function PutString(s: Store, k: Key, v: string): (r: Store)
    ensures GetString(r, k) == Some(v)
    ensures forall j :: j != k ==> GetString(r, j) == GetString(s, j)
    ensures r.ints == s.ints
  {
    s.(strings := s.strings[k := v])
  }

  /** The device state outside the app, shared by every service that holds it. */
  class Device {
    var settings: Store
    /** `AudioManager.ringerModeInternal`. */
    var ringerMode: int
    /** Whether this app is on the power-save whitelist. */
    var whitelisted: bool
    /** Whether the device-idle controller is there and answers; when false, `getService`
        gave null or its calls throw `RemoteException`. */
    var idleService: bool
    /** `GameManager` per-package game mode. */
    var gameModes: map<string, int32>

    constructor(settings: Store, ringerMode: int, whitelisted: bool, idleService: bool)
      ensures this.settings == settings && this.ringerMode == ringerMode
      ensures this.whitelisted == whitelisted && this.idleService == idleService && gameModes == map[]
    {
      this.settings := settings;
      this.ringerMode := ringerMode;
      this.whitelisted := whitelisted;
      this.idleService := idleService;
      gameModes := map[];
    }
  }

}
