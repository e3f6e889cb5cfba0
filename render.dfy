/**
 * The values both screens derive from their session state when they render:
 * the markers laid over the trail, the polyline through it, and the battery
 * banner text of the App screen.
 */
module Render {

  import opened Wrappers
  import opened Geo

  /**
   * One `Marker` element: its React key, its coordinate and, when the screen
   * sets one, its `rotation` prop in degrees.
   */
  datatype Marker = Marker(key: nat, coordinate: Coordinate, rotation: Option<nat>)

  /** The rotation MapScreen gives the marker at a trail index. */
  function Rotation(index: nat): (r: nat)
    ensures r < 360
    ensures (index - r) % 360 == 0
    ensures index < 360 ==> r == index
  {
    index % 360
  }

  /** The App screen's markers: one per trail point, keyed by its index. */
  function AppMarkers(path: seq<Coordinate>): (ms: seq<Marker>)
    ensures |ms| == |path|
    ensures forall i :: 0 <= i < |ms| ==> ms[i] == Marker(i, path[i], None)
  {
    if path == [] then []
    else AppMarkers(path[..|path| - 1]) + [Marker(|path| - 1, path[|path| - 1], None)]
  }

  /** MapScreen's markers: one per trail point, keyed and rotated by its index. */
  function MapScreenMarkers(path: seq<Coordinate>): (ms: seq<Marker>)
    ensures |ms| == |path|
    ensures forall i :: 0 <= i < |ms| ==>
      ms[i].key == i && ms[i].coordinate == path[i] && ms[i].rotation.Some? && ms[i].rotation.value < 360
    ensures forall i :: 0 <= i < |ms| ==> ms[i].rotation == Some(Rotation(i))
  {
    if path == [] then []
    else
      var last := |path| - 1;
      MapScreenMarkers(path[..last]) + [Marker(last, path[last], Some(Rotation(last)))]
  }

  /** The polyline's coordinates, present only when the trail is non-empty. */
  function Polyline(path: seq<Coordinate>): (line: Option<seq<Coordinate>>)
    ensures line.Some? <==> path != []
    ensures line.Some? ==> line.value == path
  {
    if |path| > 0 then Some(path) else None
  }

  /** A fix that extends the trail adds exactly one marker, after all the earlier ones. */
  lemma MarkersAfterAppend(path: seq<Coordinate>, c: Coordinate)
    ensures AppMarkers(path + [c]) == AppMarkers(path) + [Marker(|path|, c, None)]
    ensures MapScreenMarkers(path + [c]) == MapScreenMarkers(path) + [Marker(|path|, c, Some(Rotation(|path|)))]
  {
  }

  const BannerPrefix: string := "Battery Saver Mode is "

  /**
   * The snackbar's text. The status is `null` until the battery query
   * resolves; only a truthy status reads as enabled.
   */
  function BannerText(batterySaverStatus: Option<bool>): (text: string)
    ensures text == BannerPrefix + "Enabled" <==> batterySaverStatus == Some(true)
    ensures text == BannerPrefix + "Disabled" <==> batterySaverStatus != Some(true)
  {
    BannerPrefix + if batterySaverStatus == Some(true) then "Enabled" else "Disabled"
  }
}
