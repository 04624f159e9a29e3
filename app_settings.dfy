/** The user's preferences that the session logic reads; they are inputs here. */
module AppPreferences {

  /** The app's own preferences: which overrides are on, stay-awake, and the ringer mode to use while gaming. */
  datatype AppSettings = AppSettings(
    noHeadsUp: bool,
    noAutoBrightness: bool,
    noThreeScreenshot: bool,
    stayAwake: bool,
    ringerMode: int)

  /** The values read when nothing has been stored yet. */
  const DEFAULT_APP_SETTINGS := AppSettings(true, true, false, false, 0)
}
