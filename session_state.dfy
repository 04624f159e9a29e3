/** The persisted record of one game session. */
module SessionStates {

  import opened Wrappers
  import opened Platform

  /**
   * The package the session belongs to and the device settings captured
   * before the session overrode them. A `None` field was not captured.
   * Equality is field-wise, as for the Kotlin data class, and `copy()` is the
   * value itself.
   */
  datatype SessionState = SessionState(
    packageName: string,
    autoBrightness: Option<bool>,
    headsUp: Option<bool>,
    threeScreenshot: Option<bool>,
    ringerMode: int)

  /** `SessionState(packageName)`: the package is the one argument without a default. */
  function NewSessionState(packageName: string): (r: SessionState)
    ensures r.packageName == packageName
    ensures r.autoBrightness == r.headsUp == r.threeScreenshot == None
    ensures r.ringerMode == RINGER_MODE_NORMAL
  {
    SessionState(packageName, None, None, None, RINGER_MODE_NORMAL)
  }
}
