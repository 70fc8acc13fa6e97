/**
 * The map screen: the loading gate driven by its mount-time location
 * effect, and the initial region the map is centred on.
 */
module MapScreen {
  import opened Wrappers
  import opened Location

  /** The centre used when there is no usable fix. */
  const FallbackLatitude: real := 14.3833
  const FallbackLongitude: real := 121.4667
  /** The span of the initial region on both axes. */
  const RegionDelta: real := 0.1

  datatype Region = Region(latitude: real, longitude: real, latitudeDelta: real, longitudeDelta: real)

  /**
   * `location?.coords.<axis> || fallback`: an absent fix gives `undefined`
   * and a coordinate of 0 is falsy, so both fall back.
   */
  function OrFallback(coordinate: Option<real>, fallback: real): real {
    match coordinate
    case Some(x) => if x != 0.0 then x else fallback
    case None => fallback
  }

  /**
   * `initialRegion`. Its deltas are always 0.1, and since both fallback
   * coordinates are non-zero the centre never lies on the equator or
   * the prime meridian.
   */
  function InitialRegion(location: Option<Coords>): (r: Region)
    ensures r.latitudeDelta == RegionDelta && r.longitudeDelta == RegionDelta
    ensures r.latitude != 0.0 && r.longitude != 0.0
  {
    Region(
      OrFallback(if location.Some? then Some(location.value.latitude) else None, FallbackLatitude),
      OrFallback(if location.Some? then Some(location.value.longitude) else None, FallbackLongitude),
      RegionDelta,
      RegionDelta)
  }

  /** Without a fix the map opens on the fallback centre. */
  lemma NoFixCentre()
    ensures InitialRegion(None) == Region(FallbackLatitude, FallbackLongitude, RegionDelta, RegionDelta)
  {
  }

  /**
   * The centre keeps a fix's coordinate on an axis exactly when that
   * coordinate is non-zero; a zero one is replaced by the fallback.
   */
  lemma CentreFollowsNonZeroFix(c: Coords)
    ensures InitialRegion(Some(c)).latitude == c.latitude <==> c.latitude != 0.0
    ensures InitialRegion(Some(c)).longitude == c.longitude <==> c.longitude != 0.0
    ensures c.latitude == 0.0 ==> InitialRegion(Some(c)).latitude == FallbackLatitude
    ensures c.longitude == 0.0 ==> InitialRegion(Some(c)).longitude == FallbackLongitude
  {
  }

  /**
   * Each axis falls back on its own: a fix on the equator keeps its
   * longitude and takes the fallback latitude.
   */
  lemma EquatorFix(c: Coords)
    requires c.latitude == 0.0 && c.longitude != 0.0
    ensures InitialRegion(Some(c)) == Region(FallbackLatitude, c.longitude, RegionDelta, RegionDelta)
  {
  }

  /** The region's latitude depends only on the fix's latitude, and likewise for longitude. */
  lemma AxesIndependent(a: Coords, b: Coords)
    ensures a.latitude == b.latitude ==> InitialRegion(Some(a)).latitude == InitialRegion(Some(b)).latitude
    ensures a.longitude == b.longitude ==> InitialRegion(Some(a)).longitude == InitialRegion(Some(b)).longitude
  {
  }

  /** What the screen renders: the loading card, or the map at a region. */
  datatype View = LoadingView | MapView(region: Region)

  /**
   * Where the mount-time effect is suspended. `Abandoned` is an effect
   * whose awaited call rejected: the rejection is not caught, so nothing
   * after it runs.
   */
  datatype EffectStep = AwaitingPermission | AwaitingPosition | Settled | Abandoned

  /**
   * The screen's state. The effect is split at its two `await`s; each
   * continuation is a method that receives what the awaited call produced.
   */
  class MapScreenState {
    var loading: bool
    var location: Option<Coords>
    ghost var step: EffectStep

    /**
     * The loading card shows until the effect has settled, and a fix is
     * recorded only when the effect settles with one.
     */
    ghost predicate Valid()
      reads this
    {
      (loading <==> step != Settled) && (step != Settled ==> location == None)
    }

    /** The loading card is shown exactly while `loading` is true. */
    function Render(): (v: View)
      reads this
      ensures v.LoadingView? <==> loading
      ensures !loading ==> v.region.latitudeDelta == RegionDelta && v.region.longitudeDelta == RegionDelta
    {
      if loading then LoadingView else MapView(InitialRegion(location))
    }

    /** The screen mounts loading, with no fix, and starts its effect. */
    constructor ()
      ensures Valid() && loading && location == None && step == AwaitingPermission
    {
      loading := true;
      location := None;
      step := AwaitingPermission;
    }

    /**
     * The continuation after the permission request. Without permission
     * the gate opens on the fallback centre with no fix; with it the effect
     * goes on to ask for a position; a rejected request leaves the screen
     * loading for good.
     */
    method PermissionSettled(outcome: PermissionOutcome)
      requires Valid() && step == AwaitingPermission
      modifies this`loading, this`step
      ensures Valid() && location == None
      ensures outcome.Granted? ==> loading && step == AwaitingPosition
      ensures outcome.NotGranted? ==>
                !loading && step == Settled &&
                Render() == MapView(Region(FallbackLatitude, FallbackLongitude, RegionDelta, RegionDelta))
      ensures outcome.PermissionRejected? ==> loading && step == Abandoned
    {
      match outcome
      case Granted =>
        step := AwaitingPosition;
      case NotGranted =>
        loading := false;
        step := Settled;
      case PermissionRejected =>
        step := Abandoned;
    }

    /**
     * The continuation after the position request. A fix is stored before
     * the gate opens, so the map is never shown without it; a rejected
     * request leaves the screen loading for good.
     */
    method PositionSettled(outcome: PositionOutcome)
      requires Valid() && step == AwaitingPosition
      modifies this`loading, this`location, this`step
      ensures Valid()
      ensures outcome.Fix? ==>
                !loading && location == Some(outcome.coords) && step == Settled &&
                Render() == MapView(InitialRegion(Some(outcome.coords)))
      ensures outcome.PositionRejected? ==> loading && location == None && step == Abandoned
    {
      match outcome
      case Fix(c) =>
        location := Some(c);
        loading := false;
        step := Settled;
      case PositionRejected =>
        step := Abandoned;
    }

    /**
     * The whole effect, run once after mount. The gate opens exactly when
     * permission is refused, or granted and followed by a fix; a fix is
     * recorded exactly in the second case.
     */
    method RunLocationEffect(permission: PermissionOutcome, position: PositionOutcome)
      requires Valid() && step == AwaitingPermission
      modifies this`loading, this`location, this`step
      ensures Valid()
      ensures !loading <==> permission.NotGranted? || (permission.Granted? && position.Fix?)
      ensures location == if permission.Granted? && position.Fix? then Some(position.coords) else None
    {
      PermissionSettled(permission);
      if permission.Granted? {
        PositionSettled(position);
      }
    }
  }
}
