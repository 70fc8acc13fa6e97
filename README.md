# Agos add-device and map screens, modelled in Dafny

Agos is a mobile front end for a water-level monitoring service. Almost
all of it is presentation. This project models the two places where it
makes decisions:

- **The add-device screen** (`app/add-device.tsx`). The form draft has
  four text fields. `validateForm` checks them in a fixed order and stops
  at the first failure: the name is blank, the location is blank, a
  coordinate is missing, a coordinate is not a number, or a coordinate is
  out of range. `handleAddDevice` builds the one row it inserts into
  `water_gauges`. It and `getCurrentLocation` also update the `loading`,
  `gettingLocation` and `formData` state.
- **The map screen** (`app/map.tsx`). A mount-time effect asks for
  location permission and then for a position fix. It drives a
  `loading`/`location` pair, and `initialRegion` derives the map's
  starting region from that pair.

Modules:

- `JsValues` (`js_values.dfy`) holds the JavaScript semantics the screens
  depend on. A number is NaN, finite or infinite, and `<` and `>` are
  false on NaN. `String.prototype.trim` is specified over ECMAScript's
  whitespace and line terminators.
- `Location` (`location.dfy`) holds how the permission request and the
  position request can settle.
- `AddDevice` (`add_device.dfy`) has the form, the validator, the insert
  payload and the class `AddDeviceScreen`.
- `MapScreen` (`map_screen.dfy`) has the initial region and the class
  `MapScreenState`.
- `Wrappers` (`wrappers.dfy`) holds `Option`.

Each async handler is split at its `await`s. The code before the first
`await` is one method, and each continuation is another method that
receives what the awaited call produced. A method such as
`HandleAddDevice` composes these steps to run one handler with nothing
interleaved. `parseFloat` and `toFixed(6)` are passed in as functions, so
the model covers every behaviour they might have.

The validator checks `!s.trim()` as `Blank(s)`. This is equivalent
because `Trim`'s contract states that a string trims to `""` exactly when
it is blank. The insert payload uses `Trim` itself.

The location handler's closure holds the form as it was when the button
was pressed, and the fix is spread over that copy. `captureBase` models
this. The result: name or location edits made while a capture is pending
are overwritten when the fix arrives. Without such edits, only the two
coordinates change.

A permission or position request that rejects is not caught on the map
screen (`app/map.tsx:16`, `app/map.tsx:25`). Nothing after the rejected
`await` runs, so the loading view stays up for good. The model records
this as the `Abandoned` step, from which no method leads on.

## Model

| member | source | states |
|---|---|---|
| JsValues.OutsideBounds | app/add-device.tsx:62-65 | For a number that is not NaN, the JavaScript comparisons `< -b` or `> b` hold exactly when it is not a finite value in [-b, b]. So an infinity is out of range and ±b itself is in range. |
| JsValues.TrimStart | app/add-device.tsx:78-79 | Leading whitespace removal returns a suffix of the input. Everything it drops is whitespace, and the result does not start with whitespace. |
| JsValues.TrimEnd | app/add-device.tsx:78-79 | Trailing whitespace removal returns a prefix of the input. Everything it drops is whitespace, and the result does not end with whitespace. |
| JsValues.Trim | app/add-device.tsx:44-51 | `trim()` gives `""` exactly when the string is blank. Otherwise the result starts and ends with a character that is not whitespace. |
| JsValues.TrimIsMiddle | app/add-device.tsx:78-79 | `trim()` returns a contiguous slice of the input, and everything before and after that slice is whitespace. |
| JsValues.TrimKeeps | app/add-device.tsx:78-79 | A string with no whitespace at either end is unchanged by `trim()`. |
| JsValues.TrimIdempotent | app/add-device.tsx:78-79 | Trimming twice gives the same result as trimming once. |
| AddDevice.Form.With | app/add-device.tsx:136 | The spread update `{ ...formData, field: text }` sets the named field and leaves the other three as they were. |
| AddDevice.Validate | app/add-device.tsx:43-67 | A form is accepted exactly when it passes all five checks: name not blank, location not blank, both coordinate strings non-empty, both parse to a number, latitude in [-90,90] and longitude in [-180,180]. |
| AddDevice.FirstFailureReported | app/add-device.tsx:43-67 | A rejection names a check the form fails, and the form passes every earlier check. The checks run in order and stop at the first failure. |
| AddDevice.InsertPayload | app/add-device.tsx:76-86 | For an accepted form, the inserted row's name and location are `trim()` of the form's fields, and both are non-empty. Its coordinates are the parsed, finite, in-range values. Its defaults are water level 0, capacity 10 and status 'normal'. |
| AddDevice.BlankNameLikeEmpty | app/add-device.tsx:44-47 | A whitespace-only name gives the same verdict as an empty one: EmptyName. |
| AddDevice.BlankLocationLikeEmpty | app/add-device.tsx:48-51 | A whitespace-only location gives the same verdict as an empty one. |
| AddDevice.UnparsableCoordinateIsInvalid | app/add-device.tsx:52-61 | Once name and location pass, a present coordinate on either axis that parses to NaN gives InvalidCoords, not MissingCoords. |
| AddDevice.EmptyCoordinateIsMissing | app/add-device.tsx:52-55 | Once name and location pass, an empty coordinate on either axis gives MissingCoords, whatever the parser would do. |
| AddDevice.BlankCoordinateIsInvalid | app/add-device.tsx:52-61 | Coordinate strings are not trimmed. A latitude of one space that parses to NaN is invalid, while an empty latitude is missing. |
| AddDevice.BoundariesAccepted | app/add-device.tsx:62-66 | Latitude ±90 with longitude ±180 passes validation. |
| AddDevice.BeyondRangeRejected | app/add-device.tsx:62-65 | Once the earlier checks pass, a latitude that is not a finite value in [-90,90], or a longitude that is not one in [-180,180], is rejected as OutOfRange. That includes the infinities. |
| AddDevice.SampleDevice | app/add-device.tsx:76-86 | The sample device "Test Gauge" / "Test City" / "14.6000" / "120.9800" is accepted. Its row has the given strings, the parsed coordinates and the defaults 0, 10 and 'normal'. |
| AddDevice.AddDeviceScreen.constructor | app/add-device.tsx:9-17 | The screen starts with both flags false and all four fields empty. |
| AddDevice.AddDeviceScreen.Edit | app/add-device.tsx:131-185 | Typing into an input replaces that one field of the draft. |
| AddDevice.AddDeviceScreen.Submit | app/add-device.tsx:69-87 | Pressing Add Device (disabled while loading) runs the validator. Only on acceptance does it set `loading` and issue exactly one insert, with the payload above. The draft is never changed. |
| AddDevice.AddDeviceScreen.InsertSettled | app/add-device.tsx:89-106 | After an insert that succeeds, reports an error or throws, `loading` is false and the draft is unchanged. Success is reported only for a successful insert. |
| AddDevice.AddDeviceScreen.HandleAddDevice | app/add-device.tsx:69-107 | The whole handler inserts a row exactly when the form validates. It ends with `loading` false and the draft unchanged. |
| AddDevice.AddDeviceScreen.StartCapture | app/add-device.tsx:19-22 | Pressing Use Current Location (disabled while capturing) sets `gettingLocation` and records the form the handler will spread over. |
| AddDevice.AddDeviceScreen.PermissionSettled | app/add-device.tsx:22-27 | If permission is refused or the request rejects, the handler ends: `gettingLocation` is reset and the form is left alone. If permission is granted, the handler goes on to ask for a position. |
| AddDevice.AddDeviceScreen.PositionSettled | app/add-device.tsx:29-40 | A fix replaces only the two coordinate strings (formatted by `toFixed(6)`) of the recorded form. A rejection leaves the form as it is. Either way `gettingLocation` ends false. |
| AddDevice.AddDeviceScreen.GetCurrentLocation | app/add-device.tsx:19-41 | The whole handler never changes name or location. It sets both coordinates only after a granted permission and a fix, leaves the form unchanged otherwise, and always ends with `gettingLocation` false. |
| MapScreen.InitialRegion | app/map.tsx:45-50 | The region deltas are always 0.1. Because both fallbacks are non-zero, the centre is never on the equator or the prime meridian. |
| MapScreen.NoFixCentre | app/map.tsx:45-49 | With no fix, the region is centred on (14.3833, 121.4667). |
| MapScreen.CentreFollowsNonZeroFix | app/map.tsx:46-47 | On each axis, the centre equals the fix's coordinate exactly when that coordinate is non-zero. A zero coordinate becomes the fallback. |
| MapScreen.EquatorFix | app/map.tsx:46-47 | A fix with latitude 0 and non-zero longitude keeps its longitude and gets latitude 14.3833. |
| MapScreen.AxesIndependent | app/map.tsx:46-47 | The region's latitude depends only on the fix's latitude, and its longitude only on the fix's longitude. |
| MapScreen.MapScreenState.Render | app/map.tsx:32-50 | The loading view is rendered exactly while `loading` is true. Otherwise the map is shown with deltas 0.1. |
| MapScreen.MapScreenState.constructor | app/map.tsx:11-12 | The screen mounts with `loading` true and no location. |
| MapScreen.MapScreenState.PermissionSettled | app/map.tsx:16-23 | If permission is not granted, `loading` becomes false, the location stays null and the map opens on the fallback centre. If it is granted, the screen keeps loading and waits for a fix. |
| MapScreen.MapScreenState.PositionSettled | app/map.tsx:25-28 | A fix is stored as the location and `loading` becomes false, so the map opens on the fix. A rejection leaves the screen loading with no location. |
| MapScreen.MapScreenState.RunLocationEffect | app/map.tsx:14-30 | The gate opens exactly when permission is refused, or granted and followed by a fix. A location is recorded exactly in the second case. |

## Left out

- Alerts, `console` logging and `router.back()` are not modelled. Each alert corresponds to a verdict or outcome of the model. Navigating back is represented by the `added` result of `InsertSettled`.
- The Supabase client and expo-location are foreign libraries. Their outcomes are method parameters (`InsertOutcome`, `PermissionOutcome`, `PositionOutcome`), and the insert's returned rows are ignored, as in the code.
- `parseFloat` is a parameter of type `string -> JsNumber`, and `toFixed(6)` is a parameter of type `real -> string`. Their JavaScript definitions are not modelled, so every property holds for any parser and formatter.
- JavaScript numbers are modelled as reals (plus NaN and the infinities). Floating-point rounding is not represented, and -0 is the same as 0. It is falsy in `||` either way.
- Interleavings are covered only as far as the step methods allow. A continuation after the screen has unmounted, and React's batching of state updates, are not modelled.
- `MapScreen.MapScreenState.RunLocationEffect` does not claim that the loading gate always opens: it stays closed when an awaited call rejects, as in the code.
- Style sheets, the landing screen (`app/index.tsx`, `app/(tabs)/index.tsx`), the layout (`app/_layout.tsx`) and the theme constants (`constants/themes.ts`) have no behaviour.
- Gauge-list fetching, refresh on focus, markers and the status-to-colour mapping do not exist in these screens: the map renders no markers, and its status text is fixed (`app/map.tsx:102`, `app/map.tsx:107`).
