# ZucolMap live-tracking session, in Dafny

This project models the live-tracking state of the two map screens of ZucolMap, a
React Native app. The screens are `App.js` and `MapScreen.js`. Each screen holds:

- a map region: a centre latitude and longitude plus two span deltas;
- an ordered trail of coordinates (`pathCoordinates`);
- in `App.js`, a battery-saver status and a snackbar-visible flag;
- in `MapScreen.js`, the user's latest location.

The state changes one event at a time:

- the permission outcome, which decides whether the position watch is registered;
- a position fix delivered by the watch;
- a place chosen in the search box (`App.js` only);
- a user region change on the map;
- the battery query's answer, and the snackbar being shown or hidden (`App.js` only).

The values the screens render are derived from this state: one marker per trail
point, a polyline only when the trail is non-empty, MapScreen's marker rotation
`index % 360`, and the battery banner text.

Modules:

- `Wrappers`: `Option`, which stands for JavaScript's `null`-or-value.
- `Geo`: `Coordinate`, `Region` and the default span `0.05`. Coordinates are `real`s, because no arithmetic is done on them.
- `Permission`: `HasPermission`, the `requestLocationPermission` decision. Both screens declare it with the same body.
- `Render`: the markers, the polyline, the rotation and the banner text.
- `App` and `MapScreen`: one module per screen. Each has a `Session` value, the `Event`s, and `Step`/`Run`, the state after one event or a sequence of events. Each also has a class `Screen` whose fields are the component's state and whose methods are its event handlers. Each handler's `ensures` gives the new fields and ties the new state to `Step` on the old state. The lemmas over `Run` state what every sequence of events does.

The field `watching` records that `Geolocation.watchPosition` has been called. The
watch callback exists only after that call, so the class's `OnPositionFix` requires
`watching`. In `Step`, a fix that arrives without a watch leaves the state unchanged.

The model follows the code in these points:

- A place search works whether or not permission was granted. It resets the trail to the selected point either way, so a denied permission keeps the trail empty only as long as nothing is searched.
- A failed battery query leaves the status `null`. The banner then reads "Disabled", the same text as a resolved `false`; there is no separate failed state.
- There are no Stopped or Error states and no unsubscription. Errors from the watch and from the battery query are only logged.
- A position fix in `App.js` moves the region to the fix. In `MapScreen.js` it never moves the region; it sets `userLocation` instead.

## Model

| member | source | states |
|---|---|---|
| Permission.HasPermission | App.js:37-45 | The decision is true on any platform other than `android`. On `android` it is true exactly when the request resolves to `GRANTED`. MapScreen.js:17-25 has the same body. |
| App.Screen.constructor | App.js:25-33 | Initial state: region (28.7041, 77.1025, 0.05, 0.05), empty trail, `null` battery status, snackbar hidden, no watch. |
| App.Screen.FetchLocation | App.js:47-71 | The watch is registered exactly when permission is granted. Nothing else changes. |
| App.Screen.OnPositionFix | App.js:52-63 | The fix is appended to the trail. The region is re-centred on the fix with its spans kept. Battery and snackbar state are untouched. |
| App.Screen.OnSearchSelect | App.js:104-113 | The region becomes the selected point with both spans 0.05. The trail becomes exactly `[selected]`. |
| App.Screen.OnRegionChangeComplete | App.js:131-134 | The region is replaced by the user's region. The trail is untouched. |
| App.Screen.OnBatteryResolved | App.js:73-75 | The query's answer becomes the battery status. |
| App.Screen.OnShowBatteryStatus | App.js:150-152 | The button makes the snackbar visible and changes nothing else. |
| App.Screen.OnSnackbarHidden | App.js:89-96 | The snackbar's dismiss and its Dismiss action hide it and change nothing else. |
| App.TrackedFixes | App.js:51-63 | While watching, any sequence of fixes is appended in arrival order. The region's centre is the last fix and its spans are unchanged. Battery, snackbar and watch state are unchanged. |
| App.FixAppendsOne | App.js:52-62 | One fix grows the trail by exactly one. Earlier entries keep their order and values, and the new entry is the fix. The region is the fix with the old spans. |
| App.SearchResets | App.js:104-113 | Whatever the prior state, a search leaves the trail `[selected]` and the region centred on it with the default span. Nothing else changes. |
| App.SearchThenFixes | App.js:51-63 | Fixes after a search extend the one-point trail in order. The default span survives them. |
| App.UserRegionChange | App.js:134 | A user region change replaces the region wholesale and changes nothing else. |
| App.UnwatchedKeepsTrail | App.js:49-51 | Without a granted permission, and unless the user searches or moves the map, the trail and the region stay as they were. |
| App.UnwatchedIgnoresFixes | App.js:49-67 | On every event sequence without a grant, searches and map moves included, the watch stays off. The state reached is the one the same events reach with every fix removed, so no fix is ever recorded. |
| App.DeniedStaysInitial | App.js:25-31 | After a denied permission at mount, later fixes, battery and snackbar events leave the trail empty and the region at (28.7041, 77.1025, 0.05, 0.05). |
| App.BatteryOnlyFromQuery | App.js:73-77 | Only the query's answer changes the battery status. A rejection, like every other event, leaves it as it was. |
| App.BatteryKeepsAnswer | App.js:75 | After the query answers, the status is the answer through any later events. |
| App.NoAnswerReadsDisabled | App.js:32 | Before an answer, and after a failed query, the banner reads "Battery Saver Mode is Disabled". |
| App.TrackThenSearchScenario | App.js:47-113 | Grant on android, then fixes (28.70, 77.10) and (28.71, 77.11): the trail is both fixes and the centre is the second. A search for (12.97, 77.59) then leaves the trail as that single point with the default span. |
| Render.BannerText | App.js:98 | The banner reads "Enabled" exactly when the status is `true`. For `null` and `false` it reads "Disabled". |
| Render.AppMarkers | App.js:144-146 | One marker per trail point, in trail order. Marker `i` has key `i` and the trail's `i`-th coordinate. |
| Render.Polyline | App.js:136-142 | The polyline is present exactly when the trail is non-empty, and its coordinates are the whole trail. MapScreen.js:53-59 has the same shape. |
| Render.MapScreenMarkers | MapScreen.js:60-66 | One marker per trail point, in trail order. Marker `i` has key `i`, the `i`-th coordinate and rotation `i % 360`, which lies in [0, 360). |
| Render.Rotation | MapScreen.js:64 | The rotation is in [0, 360), is congruent to the index modulo 360, and equals the index below 360. |
| Render.MarkersAfterAppend | MapScreen.js:35-66 | Appending a fix adds exactly one marker at the end and keeps all earlier markers. This holds for both screens' markers. |
| MapScreen.Screen.constructor | MapScreen.js:7-14 | Initial state: region (37.7749, -122.4194, 0.05, 0.05), `null` location, empty trail, no watch. The object invariant holds. |
| MapScreen.Screen.FetchLocation | MapScreen.js:27-44 | The watch is registered exactly when permission is granted. Location, trail and region are unchanged. |
| MapScreen.Screen.OnPositionFix | MapScreen.js:32-36 | The location becomes the fix, the fix is appended to the trail, and the region is unchanged. The invariant is kept. |
| MapScreen.Screen.OnRegionChangeComplete | MapScreen.js:48-51 | The region is replaced by the user's region. Location and trail are untouched. |
| MapScreen.RunKeepsConsistent | MapScreen.js:13-14 | Every sequence of events keeps this invariant: the location is `null` exactly when the trail is empty, and otherwise equals the trail's last element. |
| MapScreen.ReachableConsistent | MapScreen.js:13-35 | Every state reachable from mount satisfies that invariant. |
| MapScreen.TrackedFixes | MapScreen.js:32-36 | While watching, any sequence of fixes is appended in arrival order. The location is the last fix, and the region never moves. |
| MapScreen.FixAppendsOne | MapScreen.js:32-35 | One fix grows the trail by exactly one, keeping earlier entries. The location becomes the fix and the region is unchanged. |
| MapScreen.RegionOnlyByUser | MapScreen.js:7-12 | Without a user region change, the region stays what it was, whatever fixes or permission events arrive. |
| MapScreen.UserRegionChange | MapScreen.js:51 | A user region change replaces the region wholesale and leaves the location and trail alone. |
| MapScreen.UnwatchedKeepsTrail | MapScreen.js:29-30 | Without a granted permission, the trail and the location never change and the watch stays off. |
| MapScreen.DeniedStaysEmpty | MapScreen.js:17-30 | After a denied permission at mount, the trail stays empty and the location stays `null` for any later events. |
| MapScreen.Screen.RenderedPolyline | MapScreen.js:53-59 | Under the object invariant, the screen's polyline is drawn exactly when `userLocation` is set. It is then the whole trail, and the location is its last point. |
| MapScreen.PolylineIffLocated | MapScreen.js:53-59 | In every reachable state, the polyline is drawn exactly when the user's location is known. |

## Left out

- Rendering and styling (`MapView`, `Appbar`, `StatusBar`, `StyleSheet`, colours and widths): only the derived marker and polyline values are modelled.
- The Google Places lookup: only the selection handler's effect, given the selected coordinate, is modelled. The handler reads `details.geometry.location`, and `details` defaults to `null`; the crash that a missing `details` would cause is not modelled.
- The location provider's filtering (`enableHighAccuracy`, `distanceFilter: 10`, `interval: 600000`): it happens inside `react-native-geolocation-service`, which is not part of this model. Fixes are an arbitrary input sequence.
- The native battery bridge: `BatteryModule` is not part of this model, and `BatteryModulePackage.java` only registers it. The answer is taken to be a boolean. A rejection leaves the status `null`; its `console.error` logging is not modelled.
- A rejected permission request: if `PermissionsAndroid.request` rejects, the `await` at App.js:39 and MapScreen.js:19 throws and no watch is registered. The state ends up as after `Denied`, so the model has no separate event for it.
- The platform and the permission dialog are inputs: `Platform.OS` is a string parameter, and the Android request's answer is a `RequestResult` parameter.
- Promise scheduling and the React effect lifecycle: permission results, fixes and user actions are sequential events in any order. `FetchLocation` may be called more than once, but the model records a single watch either way. It does not model the duplicate callbacks that a second `watchPosition` call would register.
- The watch's error callback and the snackbar's 3000 ms timeout: both only log or hide, and the timeout is the `SnackbarHidden` event.
