/**
 * The App screen's tracking session: the map region, the trail of fixes and
 * search selections, the battery-saver status and the snackbar flag, and the
 * events that change them one at a time on the UI thread.
 */
module App {

  import opened Wrappers
  import opened Geo
  import opened Permission
  import Render

  /** The screen's state. `watching` records that the position watch has been registered. */
  datatype Session = Session(
    region: Region,
    pathCoordinates: seq<Coordinate>,
    batterySaverStatus: Option<bool>,
    snackbarVisible: bool,
    watching: bool)

  /** The region the App screen opens on. */
  const InitialRegion: Region := Region(28.7041, 77.1025, DefaultDelta, DefaultDelta)

  /** The state at mount: nothing tracked, no battery status, snackbar hidden. */
  function Init(): (s: Session)
  {
    Session(InitialRegion, [], None, false, false)
  }

  /** What can happen to the screen. */
  datatype Event =
    | PermissionResolved(os: string, requestResult: RequestResult)  // the mount effect's permission check
    | PositionFix(fix: Coordinate)                                  // the watch callback
    | SearchSelect(selected: Coordinate)                            // a place chosen in the search box
    | RegionChange(newRegion: Region)                               // the user moved or zoomed the map
    | BatteryResolved(enabled: bool)                                // the battery query answered
    | BatteryRejected                                               // the battery query failed
    | ShowBatteryStatus                                             // the footer button
    | SnackbarHidden                                                // the snackbar's dismiss, by timeout or action

  /** The state after one event. */
  function Step(s: Session, e: Event): Session
  {
    match e
    case PermissionResolved(os, result) =>
      s.(watching := s.watching || HasPermission(os, result))
    case PositionFix(c) =>
      // Without a registered watch there is no callback and the fix never arrives.
      if s.watching then
        s.(pathCoordinates := s.pathCoordinates + [c],
           region := s.region.(latitude := c.latitude, longitude := c.longitude))
      else s
    case SearchSelect(c) =>
      s.(region := Region(c.latitude, c.longitude, DefaultDelta, DefaultDelta),
         pathCoordinates := [c])
    case RegionChange(r) => s.(region := r)
    case BatteryResolved(enabled) => s.(batterySaverStatus := Some(enabled))
    case BatteryRejected => s  // the failure is only logged
    case ShowBatteryStatus => s.(snackbarVisible := true)
    case SnackbarHidden => s.(snackbarVisible := false)
  }

  /** The state after a sequence of events, delivered in order. */
  function Run(s: Session, es: seq<Event>): Session
    decreases |es|
  {
    if es == [] then s else Run(Step(s, es[0]), es[1..])
  }

  /** The events the watch delivers for a sequence of fixes. */
  function Fixes(cs: seq<Coordinate>): (es: seq<Event>)
    ensures |es| == |cs|
    ensures forall i :: 0 <= i < |es| ==> es[i] == PositionFix(cs[i])
  {
    seq(|cs|, i requires 0 <= i < |cs| => PositionFix(cs[i]))
  }

  /** An event that lets the watch start. */
  predicate Grants(e: Event)
  {
    e.PermissionResolved? && HasPermission(e.os, e.requestResult)
  }

  /**
   * While the watch runs, each fix is appended at the end of the trail in
   * arrival order, the region is re-centred on the latest fix with its span
   * kept, and nothing else changes.
   */
  lemma {:induction false} TrackedFixes(s: Session, cs: seq<Coordinate>)
    requires s.watching
    ensures Run(s, Fixes(cs)).pathCoordinates == s.pathCoordinates + cs
    ensures Run(s, Fixes(cs)).region.latitudeDelta == s.region.latitudeDelta
    ensures Run(s, Fixes(cs)).region.longitudeDelta == s.region.longitudeDelta
    ensures cs != [] ==> Run(s, Fixes(cs)).region.Center() == cs[|cs| - 1]
    ensures cs == [] ==> Run(s, Fixes(cs)).region == s.region
    ensures Run(s, Fixes(cs)).batterySaverStatus == s.batterySaverStatus
    ensures Run(s, Fixes(cs)).snackbarVisible == s.snackbarVisible
    ensures Run(s, Fixes(cs)).watching
    decreases |cs|
  {
    if cs != [] {
      var t := Step(s, PositionFix(cs[0]));
      assert Fixes(cs)[1..] == Fixes(cs[1..]);
      TrackedFixes(t, cs[1..]);
      assert t.pathCoordinates + cs[1..] == s.pathCoordinates + cs;
      if |cs| == 1 {
        assert Fixes(cs[1..]) == [];
      }
    }
  }

  /** A fix appends exactly one coordinate and re-centres the region, keeping its span. */
  lemma FixAppendsOne(s: Session, c: Coordinate)
    requires s.watching
    ensures |Step(s, PositionFix(c)).pathCoordinates| == |s.pathCoordinates| + 1
    ensures Step(s, PositionFix(c)).pathCoordinates[..|s.pathCoordinates|] == s.pathCoordinates
    ensures Step(s, PositionFix(c)).pathCoordinates[|s.pathCoordinates|] == c
    ensures Step(s, PositionFix(c)).region == Region(c.latitude, c.longitude, s.region.latitudeDelta, s.region.longitudeDelta)
  {
  }

  /**
   * A place search leaves the trail as exactly the selected point and the region
   * centred on it with the default span, whatever came before, and touches
   * nothing else.
   */
  lemma SearchResets(s: Session, c: Coordinate)
    ensures Step(s, SearchSelect(c)).pathCoordinates == [c]
    ensures Step(s, SearchSelect(c)).region == Region(c.latitude, c.longitude, DefaultDelta, DefaultDelta)
    ensures Step(s, SearchSelect(c)).batterySaverStatus == s.batterySaverStatus
    ensures Step(s, SearchSelect(c)).snackbarVisible == s.snackbarVisible
    ensures Step(s, SearchSelect(c)).watching == s.watching
  {
  }

  /** Fixes after a search extend the one-point trail; the span stays the default. */
  lemma SearchThenFixes(s: Session, c: Coordinate, cs: seq<Coordinate>)
    requires s.watching
    ensures Run(s, [SearchSelect(c)] + Fixes(cs)).pathCoordinates == [c] + cs
    ensures Run(s, [SearchSelect(c)] + Fixes(cs)).region.latitudeDelta == DefaultDelta
    ensures Run(s, [SearchSelect(c)] + Fixes(cs)).region.longitudeDelta == DefaultDelta
  {
    var es := [SearchSelect(c)] + Fixes(cs);
    assert es[1..] == Fixes(cs);
    TrackedFixes(Step(s, SearchSelect(c)), cs);
  }

  /** A user region change replaces the region wholesale and leaves everything else alone. */
  lemma UserRegionChange(s: Session, r: Region)
    ensures Step(s, RegionChange(r)) == s.(region := r)
  {
  }

  /**
   * Until permission is granted there is no watch: fixes are never recorded,
   * so without a search or a user region change the trail and the region
   * stay as they were.
   */
  lemma {:induction false} UnwatchedKeepsTrail(s: Session, es: seq<Event>)
    requires !s.watching
    requires forall i :: 0 <= i < |es| ==> !Grants(es[i]) && !es[i].SearchSelect? && !es[i].RegionChange?
    ensures Run(s, es).pathCoordinates == s.pathCoordinates
    ensures Run(s, es).region == s.region
    ensures !Run(s, es).watching
    decreases |es|
  {
    if es != [] {
      UnwatchedKeepsTrail(Step(s, es[0]), es[1..]);
    }
  }

  /** The events left once the position fixes are taken out, in their order. */
  function DropFixes(es: seq<Event>): (r: seq<Event>)
    ensures |r| <= |es|
    ensures forall i :: 0 <= i < |r| ==> !r[i].PositionFix? && r[i] in es
    decreases |es|
  {
    if es == [] then []
    else (if es[0].PositionFix? then [] else [es[0]]) + DropFixes(es[1..])
  }

  /**
   * Until permission is granted no fix has any effect, whatever else the user
   * does: the state is the one the same events reach with every fix removed,
   * and the watch stays off.
   */
  lemma {:induction false} UnwatchedIgnoresFixes(s: Session, es: seq<Event>)
    requires !s.watching
    requires forall i :: 0 <= i < |es| ==> !Grants(es[i])
    ensures !Run(s, es).watching
    ensures Run(s, es) == Run(s, DropFixes(es))
    decreases |es|
  {
    if es != [] {
      var t := Step(s, es[0]);
      UnwatchedIgnoresFixes(t, es[1..]);
      if es[0].PositionFix? {
        assert t == s;
        assert DropFixes(es) == DropFixes(es[1..]);
      } else {
        var d := DropFixes(es);
        assert d == [es[0]] + DropFixes(es[1..]);
        assert d[1..] == DropFixes(es[1..]);
      }
    }
  }

  /**
   * A denied permission at mount: the trail stays empty and the region stays at
   * its initial value for any later fixes, battery or snackbar events.
   */
  lemma DeniedStaysInitial(os: string, result: RequestResult, es: seq<Event>)
    requires !HasPermission(os, result)
    requires forall i :: 0 <= i < |es| ==> !Grants(es[i]) && !es[i].SearchSelect? && !es[i].RegionChange?
    ensures Run(Init(), [PermissionResolved(os, result)] + es).pathCoordinates == []
    ensures Run(Init(), [PermissionResolved(os, result)] + es).region == InitialRegion
  {
    var all := [PermissionResolved(os, result)] + es;
    assert all[1..] == es;
    UnwatchedKeepsTrail(Step(Init(), all[0]), es);
  }

  /**
   * The battery status changes only when the query answers; a rejected query,
   * like every other event, leaves it as it was.
   */
  lemma {:induction false} BatteryOnlyFromQuery(s: Session, es: seq<Event>)
    requires forall i :: 0 <= i < |es| ==> !es[i].BatteryResolved?
    ensures Run(s, es).batterySaverStatus == s.batterySaverStatus
    decreases |es|
  {
    if es != [] {
      BatteryOnlyFromQuery(Step(s, es[0]), es[1..]);
    }
  }

  /** The battery status after the query answers, then any other events. */
  lemma {:induction false} BatteryKeepsAnswer(s: Session, enabled: bool, es: seq<Event>)
    requires forall i :: 0 <= i < |es| ==> !es[i].BatteryResolved?
    ensures Run(s, [BatteryResolved(enabled)] + es).batterySaverStatus == Some(enabled)
  {
    var all := [BatteryResolved(enabled)] + es;
    assert all[1..] == es;
    BatteryOnlyFromQuery(Step(s, all[0]), es);
  }

  /**
   * Before the query answers, and after it fails, the banner reads "Disabled":
   * the status is still the initial `null`.
   */
  lemma NoAnswerReadsDisabled(es: seq<Event>)
    requires forall i :: 0 <= i < |es| ==> !es[i].BatteryResolved?
    ensures Render.BannerText(Run(Init(), es).batterySaverStatus) == Render.BannerPrefix + "Disabled"
  {
    BatteryOnlyFromQuery(Init(), es);
  }

  /**
   * Android grants the permission, two fixes arrive, then a place is
   * selected: the trail follows the fixes, then collapses to the selection.
   */
  lemma TrackThenSearchScenario()
    ensures var granted := Run(Init(), [PermissionResolved(AndroidOS, Granted)]);
            var tracked := Run(granted, Fixes([Coordinate(28.70, 77.10), Coordinate(28.71, 77.11)]));
            && tracked.pathCoordinates == [Coordinate(28.70, 77.10), Coordinate(28.71, 77.11)]
            && tracked.region == Region(28.71, 77.11, DefaultDelta, DefaultDelta)
            && Step(tracked, SearchSelect(Coordinate(12.97, 77.59))).pathCoordinates == [Coordinate(12.97, 77.59)]
            && Step(tracked, SearchSelect(Coordinate(12.97, 77.59))).region == Region(12.97, 77.59, DefaultDelta, DefaultDelta)
  {
    var granted := Run(Init(), [PermissionResolved(AndroidOS, Granted)]);
    TrackedFixes(granted, [Coordinate(28.70, 77.10), Coordinate(28.71, 77.11)]);
  }

  /** The App screen's component state, updated in place by its event handlers. */
  class Screen {
    var region: Region
    var pathCoordinates: seq<Coordinate>
    var batterySaverStatus: Option<bool>
    var snackbarVisible: bool
    var watching: bool

    /** The fields as a session value. */
    function State(): Session
      reads this
    {
      Session(region, pathCoordinates, batterySaverStatus, snackbarVisible, watching)
    }

    /** The `useState` initial values. */
    constructor ()
      ensures State() == Init()
      ensures region == InitialRegion && pathCoordinates == [] && batterySaverStatus == None
      ensures !snackbarVisible && !watching
    {
      region := InitialRegion;
      pathCoordinates := [];
      batterySaverStatus := None;
      snackbarVisible := false;
      watching := false;
    }

    /** The mount effect: ask for permission and register the watch only when granted. */
    method FetchLocation(os: string, requestResult: RequestResult)
      modifies this
      ensures State() == Step(old(State()), PermissionResolved(os, requestResult))
      ensures watching == (old(watching) || HasPermission(os, requestResult))
      ensures region == old(region) && pathCoordinates == old(pathCoordinates)
      ensures batterySaverStatus == old(batterySaverStatus) && snackbarVisible == old(snackbarVisible)
    {
      var hasPermission := HasPermission(os, requestResult);
      if hasPermission {
        watching := true;
      }
    }

    /** The watch callback: append the fix and re-centre the region, keeping its span. */
    method OnPositionFix(c: Coordinate)
      requires watching
      modifies this
      ensures State() == Step(old(State()), PositionFix(c))
      ensures pathCoordinates == old(pathCoordinates) + [c]
      ensures region == old(region).(latitude := c.latitude, longitude := c.longitude)
      ensures batterySaverStatus == old(batterySaverStatus) && snackbarVisible == old(snackbarVisible)
      ensures watching
    {
      pathCoordinates := pathCoordinates + [c];
      region := region.(latitude := c.latitude, longitude := c.longitude);
    }

    /** The search box's selection handler, given the selected place's coordinate. */
    method OnSearchSelect(c: Coordinate)
      modifies this
      ensures State() == Step(old(State()), SearchSelect(c))
      ensures region == Region(c.latitude, c.longitude, DefaultDelta, DefaultDelta)
      ensures pathCoordinates == [c]
      ensures batterySaverStatus == old(batterySaverStatus) && snackbarVisible == old(snackbarVisible)
      ensures watching == old(watching)
    {
      region := Region(c.latitude, c.longitude, DefaultDelta, DefaultDelta);
      pathCoordinates := [c];
    }

    /** `onRegionChangeComplete`: the user's region replaces the current one. */
    method OnRegionChangeComplete(r: Region)
      modifies this
      ensures State() == Step(old(State()), RegionChange(r))
      ensures region == r
      ensures pathCoordinates == old(pathCoordinates)
      ensures batterySaverStatus == old(batterySaverStatus) && snackbarVisible == old(snackbarVisible)
      ensures watching == old(watching)
    {
      region := r;
    }

    /** The battery query's `then`: the answer becomes the status. */
    method OnBatteryResolved(enabled: bool)
      modifies this
      ensures State() == Step(old(State()), BatteryResolved(enabled))
      ensures batterySaverStatus == Some(enabled)
      ensures region == old(region) && pathCoordinates == old(pathCoordinates)
      ensures snackbarVisible == old(snackbarVisible) && watching == old(watching)
    {
      batterySaverStatus := Some(enabled);
    }

    /** The footer button: show the snackbar. */
    method OnShowBatteryStatus()
      modifies this
      ensures State() == Step(old(State()), ShowBatteryStatus)
      ensures snackbarVisible
      ensures region == old(region) && pathCoordinates == old(pathCoordinates)
      ensures batterySaverStatus == old(batterySaverStatus) && watching == old(watching)
    {
      snackbarVisible := true;
    }

    /** The snackbar's `onDismiss` and its Dismiss action: hide it. */
    method OnSnackbarHidden()
      modifies this
      ensures State() == Step(old(State()), SnackbarHidden)
      ensures !snackbarVisible
      ensures region == old(region) && pathCoordinates == old(pathCoordinates)
      ensures batterySaverStatus == old(batterySaverStatus) && watching == old(watching)
    {
      snackbarVisible := false;
    }
  }
}
