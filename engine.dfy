/** The navigation state engine: the per-fix transition of the minimap object, its
    demo-mode variant, the trail toggle and the tile-cache request. */
module Engine {
  import opened Geo
  import opened Angles
  import Trail
  import opened Tiles

  /** Metres per second to kilometres per hour. */
  const MsToKmh: real := 3.6
  /** Kilometres per hour to miles per hour, for display only. */
  const KmhToMph: real := 0.621371

  datatype SpeedUnit = Kmh | Mph

  /** The settings the core reads. */
  datatype Settings = Settings(
    gpsInterval: real,
    mapZoom: int,
    showTrail: bool,
    rotateMap: bool,
    showStreet: bool,
    speedUnit: SpeedUnit)

  /** What one fix sends to the map and the display: the new centre, the rotation
      angle when the map rotates, the trail when it is shown, the speed shown (before
      rounding) when it was recomputed, and the position to look up a street for. */
  datatype ViewUpdate = ViewUpdate(
    center: Coord,
    rotation: Option<real>,
    trail: Option<seq<Coord>>,
    shownSpeed: Option<real>,
    streetLookup: Option<Coord>)

  /** A reported speed is used when present and not negative. */
  function ReportedUsable(reported: Option<real>): (b: bool)
    ensures reported.None? ==> !b
    ensures reported.Some? && reported.value < 0.0 ==> !b
    ensures reported.Some? && reported.value >= 0.0 ==> b && reported.value * MsToKmh >= 0.0
  {
    reported.Some? && reported.value >= 0.0
  }

  /** The speed as displayed: stored kilometres per hour, converted only for mph. */
  function Shown(kmh: real, unit: SpeedUnit): (r: real)
    ensures unit == Kmh ==> r == kmh
    ensures unit == Mph ==> r == kmh * KmhToMph
  {
    if unit == Mph then kmh * KmhToMph else kmh
  }

  /** Math.atan2 lies in [-pi, pi], so a bearing in degrees lies in [-180, 180]. */
  type AtanDeg = x: real | -180.0 <= x <= 180.0

  /** The state the demo timer keeps between ticks. */
  class DemoWalker {
    var lat: real
    var lon: real
    var heading: real

    constructor ()
      ensures lat == 40.7128 && lon == -74.0060 && heading == 0.0
    {
      lat, lon, heading := 40.7128, -74.0060, 0.0;
    }

    /** The walk of one demo tick: the heading changes by delta under JavaScript's
        `% 360`, then the position steps 0.0001 degrees along it. */
    method Step(delta: real, cosDeg: real -> real, sinDeg: real -> real)
      modifies this
      ensures heading == Rem360(old(heading) + delta) && -360.0 < heading < 360.0
      ensures lat == old(lat) + 0.0001 * cosDeg(heading)
      ensures lon == old(lon) + 0.0001 * sinDeg(heading)
    {
      heading := Rem360(heading + delta);
      var step := 0.0001;
      lat := lat + step * cosDeg(heading);
      lon := lon + step * sinDeg(heading);
    }
  }

  class Minimap {
    var settings: Settings
    var currentPosition: Option<Coord>
    var previousPosition: Option<Coord>
    var currentHeading: real
    var previousHeading: real
    var speed: real
    var trailPoints: seq<Coord>

    /** Haversine distance in metres, left abstract. */
    const distance: (Coord, Coord) -> real
    /** atan2(y, x) * 180 / pi of the initial bearing, left abstract. */
    const bearingDeg: (Coord, Coord) -> AtanDeg
    /** The Mercator fraction of a latitude used for tile rows, left abstract. */
    const mercator: real -> real
    /** cos and sin of an angle in degrees, for the demo walk, left abstract. */
    const cosDeg: real -> real
    const sinDeg: real -> real

    ghost predicate Valid()
      reads this
    {
      settings.gpsInterval > 0.0 && |trailPoints| <= Trail.Capacity
    }

    constructor (settings: Settings, distance: (Coord, Coord) -> real, bearingDeg: (Coord, Coord) -> AtanDeg,
                 mercator: real -> real, cosDeg: real -> real, sinDeg: real -> real)
      requires settings.gpsInterval > 0.0
      ensures Valid()
      ensures this.settings == settings
      ensures this.distance == distance && this.bearingDeg == bearingDeg && this.mercator == mercator
      ensures this.cosDeg == cosDeg && this.sinDeg == sinDeg
      ensures currentPosition == None && previousPosition == None
      ensures currentHeading == 0.0 && previousHeading == 0.0 && speed == 0.0
      ensures trailPoints == []
    {
      this.settings := settings;
      this.distance, this.bearingDeg, this.mercator := distance, bearingDeg, mercator;
      this.cosDeg, this.sinDeg := cosDeg, sinDeg;
      currentPosition, previousPosition := None, None;
      currentHeading, previousHeading, speed := 0.0, 0.0, 0.0;
      trailPoints := [];
    }

    /** calculateSpeed: the reported speed when usable, otherwise the distance between
        the stored previous and current positions over the configured interval; the
        value returned is what the display shows. */
    method CalculateSpeed(fix: Fix) returns (shown: real)
      requires Valid()
      modifies this`speed
      ensures Valid()
      ensures speed == (if ReportedUsable(fix.reportedSpeed) then fix.reportedSpeed.value * MsToKmh
                        else if previousPosition.Some? && currentPosition.Some? then
                          distance(previousPosition.value, currentPosition.value) / settings.gpsInterval * MsToKmh
                        else old(speed))
      ensures shown == Shown(speed, settings.speedUnit)
    {
      if ReportedUsable(fix.reportedSpeed) {
        speed := fix.reportedSpeed.value * MsToKmh;
      } else if previousPosition.Some? && currentPosition.Some? {
        var d := distance(previousPosition.value, currentPosition.value);
        speed := d / settings.gpsInterval * MsToKmh;
      }
      shown := Shown(speed, settings.speedUnit);
    }

    /** calculateHeading: the bearing from one position to another, in [0, 360). */
    method CalculateHeading(from: Coord, to: Coord)
      requires Valid()
      modifies this`currentHeading
      ensures Valid()
      ensures currentHeading == HeadingDeg(bearingDeg(from, to))
      ensures 0.0 <= currentHeading < 360.0
    {
      currentHeading := Rem360(bearingDeg(from, to) + 360.0);
    }

    /** updatePosition: one accepted fix. */
    method UpdatePosition(fix: Fix) returns (view: ViewUpdate)
      requires Valid()
      modifies this
      ensures Valid() && settings == old(settings)
      ensures currentPosition == Some(fix.coord)
      // the first fix only sets the position
      ensures old(currentPosition).None? ==>
        previousPosition == old(previousPosition) && speed == old(speed) &&
        currentHeading == old(currentHeading) && view.shownSpeed == None
      // later fixes shift the old position back, then measure speed and heading
      ensures old(currentPosition).Some? ==>
        var c := old(currentPosition).value;
        previousPosition == Some(c) &&
        currentHeading == HeadingDeg(bearingDeg(c, fix.coord)) &&
        0.0 <= currentHeading < 360.0 &&
        (ReportedUsable(fix.reportedSpeed) ==> speed == fix.reportedSpeed.value * MsToKmh) &&
        (!ReportedUsable(fix.reportedSpeed) ==> speed == distance(c, c) / settings.gpsInterval * MsToKmh) &&
        (!ReportedUsable(fix.reportedSpeed) && distance(c, c) == 0.0 ==> speed == 0.0) &&
        view.shownSpeed == Some(Shown(speed, settings.speedUnit))
      ensures trailPoints == if settings.showTrail then Trail.Push(old(trailPoints), fix.coord) else old(trailPoints)
      ensures previousHeading ==
        if settings.rotateMap then Normalize(old(previousHeading), currentHeading) else old(previousHeading)
      ensures view.center == fix.coord
      ensures view.trail == if settings.showTrail then Some(trailPoints) else None
      ensures view.rotation == if settings.rotateMap then Some(previousHeading) else None
      ensures view.streetLookup == if settings.showStreet then Some(fix.coord) else None
    {
      var shownSpeed: Option<real> := None;
      if currentPosition.Some? {
        ghost var c := currentPosition.value;
        previousPosition := currentPosition;
        var shown := CalculateSpeed(fix);
        assert !ReportedUsable(fix.reportedSpeed) ==> speed == distance(c, c) / settings.gpsInterval * MsToKmh;
        shownSpeed := Some(shown);
        CalculateHeading(previousPosition.value, fix.coord);
      }
      currentPosition := Some(fix.coord);

      var trail := FixTrailStep(fix.coord);
      var rotation := RotationStep();

      var lookup: Option<Coord> := if settings.showStreet then Some(fix.coord) else None;
      view := ViewUpdate(fix.coord, rotation, trail, shownSpeed, lookup);
    }

    /** The trail step of updatePosition: push with the 100-entry rule when the trail
        is shown, and hand the trail to the map. */
    method FixTrailStep(p: Coord) returns (trail: Option<seq<Coord>>)
      requires Valid()
      modifies this`trailPoints
      ensures Valid()
      ensures trailPoints == if settings.showTrail then Trail.Push(old(trailPoints), p) else old(trailPoints)
      ensures trail == if settings.showTrail then Some(trailPoints) else None
    {
      trail := None;
      if settings.showTrail && |trailPoints| < Trail.Capacity {
        trailPoints := trailPoints + [p];
        trail := Some(trailPoints);
      } else if settings.showTrail {
        trailPoints := trailPoints[1..] + [p];
        trail := Some(trailPoints);
      }
    }

    /** The rotation step of updatePosition: when the map rotates, the baseline moves
        to the wrap-safe target for the current heading, which the map is turned to. */
    method RotationStep() returns (rotation: Option<real>)
      modifies this`previousHeading
      ensures previousHeading ==
        if settings.rotateMap then Normalize(old(previousHeading), currentHeading) else old(previousHeading)
      ensures rotation == if settings.rotateMap then Some(previousHeading) else None
    {
      rotation := None;
      if settings.rotateMap {
        var normalized := NormalizeAngleForTransition(previousHeading, currentHeading);
        previousHeading := normalized;
        rotation := Some(normalized);
      }
    }

    /** One tick of the demo timer. `delta` is the random heading change in [-15, 15)
        and `rnd` the random draw in [0, 1) that sets the speed. */
    method DemoTick(w: DemoWalker, delta: real, rnd: real) returns (view: ViewUpdate)
      requires Valid()
      requires -15.0 <= delta < 15.0 && 0.0 <= rnd < 1.0
      modifies this, w
      ensures Valid() && settings == old(settings) && previousHeading == old(previousHeading)
      ensures w.heading == Rem360(old(w.heading) + delta)
      ensures -360.0 < w.heading < 360.0
      ensures w.lat == old(w.lat) + 0.0001 * cosDeg(w.heading)
      ensures w.lon == old(w.lon) + 0.0001 * sinDeg(w.heading)
      ensures speed == 40.0 + rnd * 40.0 && 40.0 <= speed < 80.0
      ensures previousPosition == if old(currentPosition).Some? then old(currentPosition) else old(previousPosition)
      ensures currentPosition == Some(Coord(w.lat, w.lon)) && currentHeading == w.heading
      ensures trailPoints == if settings.showTrail then Trail.Push(old(trailPoints), Coord(w.lat, w.lon)) else old(trailPoints)
      ensures view == ViewUpdate(Coord(w.lat, w.lon),
                                 if settings.rotateMap then Some(currentHeading) else None,
                                 if settings.showTrail then Some(trailPoints) else None,
                                 Some(Shown(speed, settings.speedUnit)),
                                 None)
    {
      w.Step(delta, cosDeg, sinDeg);

      speed := 40.0 + rnd * 40.0;

      var newPosition := Coord(w.lat, w.lon);
      if currentPosition.Some? {
        previousPosition := currentPosition;
      }
      currentPosition := Some(newPosition);
      currentHeading := w.heading;

      var trail: Option<seq<Coord>> := None;
      ghost var oldTrail := trailPoints;
      if settings.showTrail {
        if |trailPoints| >= Trail.Capacity {
          trailPoints := trailPoints[1..];
        }
        trailPoints := trailPoints + [newPosition];
        trail := Some(trailPoints);
      }
      assert trailPoints == if settings.showTrail then Trail.Push(oldTrail, newPosition) else oldTrail;

      var rotation: Option<real> := if settings.rotateMap then Some(currentHeading) else None;
      view := ViewUpdate(newPosition, rotation, trail, Some(Shown(speed, settings.speedUnit)), None);
    }

    /** The show-trail switch: later fixes stop (or resume) growing the trail, and the
        points already collected are kept. */
    method SetShowTrail(on: bool)
      requires Valid()
      modifies this`settings
      ensures Valid()
      ensures settings == old(settings).(showTrail := on)
    {
      settings := settings.(showTrail := on);
    }

    /** cacheCurrentArea. `stored(t)` says whether fetching and storing tile t completes
        without throwing. Without a position the request is refused before any tile is
        planned or fetched. */
    method CacheCurrentArea(stored: TileId -> bool)
      returns (statuses: seq<Status>, attempted: seq<TileId>, cachedCount: nat)
      ensures currentPosition.None? ==>
        statuses == [CachingStarted, NoPosition] && attempted == [] && cachedCount == 0
      ensures currentPosition.Some? ==>
        attempted == Plan(currentPosition.value, settings.mapZoom, mercator) &&
        cachedCount == CountOk(seq(|attempted|, i requires 0 <= i < |attempted| => stored(attempted[i]))) &&
        cachedCount <= |attempted| &&
        |statuses| == cachedCount / 10 + 2 &&
        statuses[0] == CachingStarted && statuses[|statuses| - 1] == Finished(cachedCount) &&
        forall k :: 1 <= k <= cachedCount / 10 ==> statuses[k] == Progress(10 * k, |attempted|)
    {
      if currentPosition.None? {
        statuses, attempted, cachedCount := [CachingStarted, NoPosition], [], 0;
        return;
      }
      attempted := PlanTiles(currentPosition.value, settings.mapZoom, mercator);
      var outcomes := seq(|attempted|, i requires 0 <= i < |attempted| => stored(attempted[i]));
      var progress;
      cachedCount, progress := CountCached(attempted, outcomes);
      statuses := [CachingStarted] + progress + [Finished(cachedCount)];
    }
  }
}
