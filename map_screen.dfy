/**
 * MapScreen's tracking session: the map region, the user's latest location
 * and the trail of fixes, and the events that change them.
 */
module MapScreen {

  import opened Wrappers
  import opened Geo
  import opened Permission
  import Render

  /** The screen's state. `watching` records that the position watch has been registered. */
  datatype Session = Session(
    region: Region,
    userLocation: Option<Coordinate>,
    pathCoordinates: seq<Coordinate>,
    watching: bool)

  /** The region MapScreen opens on. */
  const InitialRegion: Region := Region(37.7749, -122.4194, DefaultDelta, DefaultDelta)

  /** The state at mount: no location, an empty trail, no watch. */
  function Init(): Session
  {
    Session(InitialRegion, None, [], false)
  }

  /** What can happen to the screen. */
  datatype Event =
    | PermissionResolved(os: string, requestResult: RequestResult)  // the mount effect's permission check
    | PositionFix(fix: Coordinate)                                  // the watch callback
    | RegionChange(newRegion: Region)                               // the user moved or zoomed the map

  /** The state after one event. */
  function Step(s: Session, e: Event): Session
  {
    match e
    case PermissionResolved(os, result) =>
      s.(watching := s.watching || HasPermission(os, result))
    case PositionFix(c) =>
      // Without a registered watch there is no callback and the fix never arrives.
      if s.watching then
        s.(userLocation := Some(c), pathCoordinates := s.pathCoordinates + [c])
      else s
    case RegionChange(r) => s.(region := r)
  }

  /** The state after a sequence of events, delivered in order. */
  function Run(s: Session, es: seq<Event>): Session
    decreases |es|
  {
    if es == [] then s else Run(Step(s, es[0]), es[1..])
  }

  /** The events the watch delivers for a sequence of fixes. */
  function Fixes(cs: seq<Coordinate>): (es: seq<Event>)
    ensures |es| == |cs|
    ensures forall i :: 0 <= i < |es| ==> es[i] == PositionFix(cs[i])
  {
    seq(|cs|, i requires 0 <= i < |cs| => PositionFix(cs[i]))
  }

  /** An event that lets the watch start. */
  predicate Grants(e: Event)
  {
    e.PermissionResolved? && HasPermission(e.os, e.requestResult)
  }

  /** The user's location is unset exactly while the trail is empty, and is otherwise its last point. */
  predicate Consistent(s: Session)
  {
    && (s.userLocation == None <==> s.pathCoordinates == [])
    && (s.pathCoordinates != [] ==> s.userLocation == Some(s.pathCoordinates[|s.pathCoordinates| - 1]))
  }

  /** Every event keeps the location and the trail consistent, starting from the mount state. */
  lemma {:induction false} RunKeepsConsistent(s: Session, es: seq<Event>)
    requires Consistent(s)
    ensures Consistent(Run(s, es))
    decreases |es|
  {
    if es != [] {
      RunKeepsConsistent(Step(s, es[0]), es[1..]);
    }
  }

  /** The mount state is consistent, so every reachable state is. */
  lemma ReachableConsistent(es: seq<Event>)
    ensures Consistent(Run(Init(), es))
  {
    RunKeepsConsistent(Init(), es);
  }

  /**
   * While the watch runs, each fix is appended at the end of the trail in
   * arrival order, the user's location is the latest fix, and the region is
   * never moved by a fix.
   */
  lemma {:induction false} TrackedFixes(s: Session, cs: seq<Coordinate>)
    requires s.watching
    ensures Run(s, Fixes(cs)).pathCoordinates == s.pathCoordinates + cs
    ensures cs != [] ==> Run(s, Fixes(cs)).userLocation == Some(cs[|cs| - 1])
    ensures cs == [] ==> Run(s, Fixes(cs)).userLocation == s.userLocation
    ensures Run(s, Fixes(cs)).region == s.region
    ensures Run(s, Fixes(cs)).watching
    decreases |cs|
  {
    if cs != [] {
      var t := Step(s, PositionFix(cs[0]));
      assert Fixes(cs)[1..] == Fixes(cs[1..]);
      TrackedFixes(t, cs[1..]);
      assert t.pathCoordinates + cs[1..] == s.pathCoordinates + cs;
      if |cs| == 1 {
        assert Fixes(cs[1..]) == [];
      }
    }
  }

  /** A fix appends exactly one coordinate, sets the location to it, and keeps the region. */
  lemma FixAppendsOne(s: Session, c: Coordinate)
    requires s.watching
    ensures |Step(s, PositionFix(c)).pathCoordinates| == |s.pathCoordinates| + 1
    ensures Step(s, PositionFix(c)).pathCoordinates[..|s.pathCoordinates|] == s.pathCoordinates
    ensures Step(s, PositionFix(c)).pathCoordinates[|s.pathCoordinates|] == c
    ensures Step(s, PositionFix(c)).userLocation == Some(c)
    ensures Step(s, PositionFix(c)).region == s.region
  {
  }

  /** Only a user region change moves the region. */
  lemma {:induction false} RegionOnlyByUser(s: Session, es: seq<Event>)
    requires forall i :: 0 <= i < |es| ==> !es[i].RegionChange?
    ensures Run(s, es).region == s.region
    decreases |es|
  {
    if es != [] {
      RegionOnlyByUser(Step(s, es[0]), es[1..]);
    }
  }

  /** A user region change replaces the region wholesale and leaves the trail and location alone. */
  lemma UserRegionChange(s: Session, r: Region)
    ensures Step(s, RegionChange(r)) == s.(region := r)
  {
  }

  /** Until permission is granted there is no watch, and the trail and location do not change. */
  lemma {:induction false} UnwatchedKeepsTrail(s: Session, es: seq<Event>)
    requires !s.watching
    requires forall i :: 0 <= i < |es| ==> !Grants(es[i])
    ensures Run(s, es).pathCoordinates == s.pathCoordinates
    ensures Run(s, es).userLocation == s.userLocation
    ensures !Run(s, es).watching
    decreases |es|
  {
    if es != [] {
      UnwatchedKeepsTrail(Step(s, es[0]), es[1..]);
    }
  }

  /** A denied permission at mount: the trail stays empty and the location stays null. */
  lemma DeniedStaysEmpty(os: string, result: RequestResult, es: seq<Event>)
    requires !HasPermission(os, result)
    requires forall i :: 0 <= i < |es| ==> !Grants(es[i])
    ensures Run(Init(), [PermissionResolved(os, result)] + es).pathCoordinates == []
    ensures Run(Init(), [PermissionResolved(os, result)] + es).userLocation == None
  {
    var all := [PermissionResolved(os, result)] + es;
    assert all[1..] == es;
    UnwatchedKeepsTrail(Step(Init(), all[0]), es);
  }

  /** In every reachable state the polyline is drawn exactly when the user's location is known. */
  lemma PolylineIffLocated(es: seq<Event>)
    ensures Render.Polyline(Run(Init(), es).pathCoordinates).Some? <==> Run(Init(), es).userLocation.Some?
  {
    ReachableConsistent(es);
  }

  /** MapScreen's component state, updated in place by its event handlers. */
  class Screen {
    var region: Region
    var userLocation: Option<Coordinate>
    var pathCoordinates: seq<Coordinate>
    var watching: bool

    /** The fields as a session value. */
    function State(): Session
      reads this
    {
      Session(region, userLocation, pathCoordinates, watching)
    }

    /** The object invariant: the location is the trail's last point. */
    predicate Valid()
      reads this
    {
      Consistent(State())
    }

    /** The rendered polyline: drawn exactly when the user's location is known. */
    function RenderedPolyline(): (line: Option<seq<Coordinate>>)
      reads this
      requires Valid()
      ensures line.Some? <==> userLocation.Some?
      ensures line.Some? ==> line.value == pathCoordinates && userLocation == Some(line.value[|line.value| - 1])
    {
      Render.Polyline(pathCoordinates)
    }

    /** The `useState` initial values. */
    constructor ()
      ensures Valid()
      ensures State() == Init()
      ensures region == InitialRegion && userLocation == None && pathCoordinates == [] && !watching
    {
      region := InitialRegion;
      userLocation := None;
      pathCoordinates := [];
      watching := false;
    }

    /** The mount effect: ask for permission and register the watch only when granted. */
    method FetchLocation(os: string, requestResult: RequestResult)
      requires Valid()
      modifies this
      ensures Valid()
      ensures State() == Step(old(State()), PermissionResolved(os, requestResult))
      ensures watching == (old(watching) || HasPermission(os, requestResult))
      ensures region == old(region) && userLocation == old(userLocation) && pathCoordinates == old(pathCoordinates)
    {
      var hasPermission := HasPermission(os, requestResult);
      if hasPermission {
        watching := true;
      }
    }

    /** The watch callback: the fix becomes the user's location and is appended to the trail. */
    method OnPositionFix(c: Coordinate)
      requires Valid() && watching
      modifies this
      ensures Valid()
      ensures State() == Step(old(State()), PositionFix(c))
      ensures userLocation == Some(c)
      ensures pathCoordinates == old(pathCoordinates) + [c]
      ensures region == old(region) && watching
    {
      userLocation := Some(c);
      pathCoordinates := pathCoordinates + [c];
    }

    /** `onRegionChangeComplete`: the user's region replaces the current one. */
    method OnRegionChangeComplete(r: Region)
      requires Valid()
      modifies this
      ensures Valid()
      ensures State() == Step(old(State()), RegionChange(r))
      ensures region == r
      ensures userLocation == old(userLocation) && pathCoordinates == old(pathCoordinates)
      ensures watching == old(watching)
    {
      region := r;
    }
  }
}
