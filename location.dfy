/**
 * What the location provider (expo-location) can hand back to the screens.
 * Both screens await it; the model receives its outcomes as parameters.
 */
module Location {

  /** A one-shot position reading, in decimal degrees. */
  datatype Coords = Coords(latitude: real, longitude: real)

  /**
   * How `requestForegroundPermissionsAsync` settled: a status of 'granted',
   * any other status ('denied', 'undetermined'), or a rejected promise.
   */
  datatype PermissionOutcome = Granted | NotGranted | PermissionRejected

  /** How `getCurrentPositionAsync` settled: a fix, or a rejected promise. */
  datatype PositionOutcome = Fix(coords: Coords) | PositionRejected
}
