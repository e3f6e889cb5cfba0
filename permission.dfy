/**
 * The location-permission decision made by `requestLocationPermission`, which
 * both screens declare with the same body.
 */
module Permission {

  /** What the Android permission dialog answers. */
  datatype RequestResult = Granted | Denied | NeverAskAgain

  /** The operating system name that triggers the runtime permission request. */
  const AndroidOS: string := "android"

  /**
   * Whether the screen may start watching the position. Only on Android is the
   * fine-location request issued; `requestResult` is what it resolves to there
   * and is not consulted on any other platform.
   */
  function HasPermission(os: string, requestResult: RequestResult): (granted: bool)
    ensures os != AndroidOS ==> granted
    ensures os == AndroidOS ==> (granted <==> requestResult == Granted)
  {
    if os == AndroidOS then requestResult == Granted else true
  }
}
