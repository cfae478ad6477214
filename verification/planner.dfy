/** The boustrophedon ("snake") coverage planner of the drone controller,
    DroneController.generate_snake_waypoints in drone-control/control.py.

    Latitudes and longitudes are exact reals (degrees); the rounding drift of
    repeated floating-point additions is not modelled. */
module Planner {

  /** One planned waypoint: latitude and longitude in degrees, altitude in metres. */
  datatype Waypoint = Waypoint(lat: real, lon: real, alt: real)

  /** Lane spacing, in degrees, that execute_mission plans with (the default argument). */
  const DefaultSpacing: real := 0.0001

  function Abs(x: real): (r: real)
    ensures 0.0 <= r && (r == x || r == -x)
  {
    if x < 0.0 then -x else x
  }

  /** The least integer not below `x`. */
  function Ceil(x: real): (c: int)
    ensures c as real - 1.0 < x <= c as real
  {
    -((-x).Floor)
  }

  /** lat_direction: +1 when the survey runs towards greater latitudes, -1 otherwise
      (also when both latitudes are equal). */
  function LatDirection(startLat: real, endLat: real): (d: int)
    ensures d == 1 || d == -1
    ensures d == 1 <==> endLat > startLat
  {
    if endLat > startLat then 1 else -1
  }

  /** The planner's loop stops: either the lane spacing is positive, or the loop
      guard fails before the first lane. */
  predicate Terminates(startLat: real, endLat: real, spacing: real)
  {
    0.0 < spacing || Abs(startLat - endLat) <= spacing
  }

  /** Latitude of the lane emitted in iteration `k`, in exact arithmetic. */
  function LaneLatitude(startLat: real, endLat: real, spacing: real, k: nat): real
  {
    startLat + (k as real) * (spacing * LatDirection(startLat, endLat) as real)
  }

  /** Longitude of the lane emitted in iteration `k`: the snake alternates between
      the two longitude edges, beginning at the start edge. */
  function LaneLongitude(startLon: real, endLon: real, k: nat): real
  {
    if k % 2 == 0 then startLon else endLon
  }

  /** Number of iterations of the planner's loop: ceil(gap / spacing) - 1 for a
      latitude gap wider than the spacing, none otherwise. */
  function LaneCount(startLat: real, endLat: real, spacing: real): (n: nat)
    requires Terminates(startLat, endLat, spacing)
    ensures n == 0 <==> Abs(startLat - endLat) <= spacing
  {
    var gap := Abs(startLat - endLat);
    if gap <= spacing then 0
    else
      assert 1.0 < gap / spacing;
      Ceil(gap / spacing) - 1
  }

  /** The plan in closed form: lane k at LaneLatitude(k), LaneLongitude(k), all at
      the requested altitude. */
  function SnakeWaypoints(startLat: real, startLon: real, endLat: real, endLon: real,
                          altitude: real, spacing: real): seq<Waypoint>
    requires Terminates(startLat, endLat, spacing)
  {
    seq(LaneCount(startLat, endLat, spacing), k requires 0 <= k =>
      Waypoint(LaneLatitude(startLat, endLat, spacing, k), LaneLongitude(startLon, endLon, k), altitude))
  }

  /** generate_snake_waypoints: step the latitude by `spacing` towards `endLat`,
      emitting one waypoint per lane, while the remaining gap exceeds `spacing`.
      The snake direction starts equal to the longitude direction and flips every
      lane, so the chosen edge never depends on which way the longitudes run. */
  method GenerateSnakeWaypoints(startLat: real, startLon: real, endLat: real, endLon: real,
                                altitude: real, spacing: real)
    returns (waypoints: seq<Waypoint>)
    requires Terminates(startLat, endLat, spacing)
    ensures waypoints == SnakeWaypoints(startLat, startLon, endLat, endLon, altitude, spacing)
  {
    waypoints := [];
    var latDirection := if endLat > startLat then 1 else -1;
    var lonDirection := if endLon > startLon then 1 else -1;
    var currentLat := startLat;
    var snakeDirection := lonDirection;
    ghost var n := LaneCount(startLat, endLat, spacing);
    while Abs(currentLat - endLat) > spacing
      invariant |waypoints| <= n
      invariant currentLat == LaneLatitude(startLat, endLat, spacing, |waypoints|)
      invariant snakeDirection == if |waypoints| % 2 == 0 then lonDirection else -lonDirection
      invariant forall k :: 0 <= k < |waypoints| ==>
        waypoints[k] == Waypoint(LaneLatitude(startLat, endLat, spacing, k), LaneLongitude(startLon, endLon, k), altitude)
      decreases n - |waypoints|
    {
      LaneCountIsFirstExit(startLat, endLat, spacing, |waypoints|);
      var currentLon := if snakeDirection == lonDirection then startLon else endLon;
      waypoints := waypoints + [Waypoint(currentLat, currentLon, altitude)];
      currentLat := currentLat + spacing * latDirection as real;
      snakeDirection := snakeDirection * -1;
    }
    if 0.0 < spacing {
      LaneCountIsFirstExit(startLat, endLat, spacing, |waypoints|);
    }
  }

  /** Multiples of the spacing against a gap of `ceil(gap / spacing)` spacings. */
  lemma StepsWithinGap(gap: real, spacing: real, k: nat)
    requires 0.0 < spacing < gap
    requires k <= Ceil(gap / spacing) - 1
    ensures (k as real) * spacing < gap
    ensures k < Ceil(gap / spacing) - 1 ==> (k as real + 1.0) * spacing < gap
    ensures k == Ceil(gap / spacing) - 1 ==> gap <= (k as real + 1.0) * spacing
  {
    var q := gap / spacing;
    assert q * spacing == gap;
    assert (k as real) < q;
    if k < Ceil(q) - 1 {
      var m := k as real + 1.0;
      assert m < q;
      assert m * spacing < q * spacing;
    }
  }

  /** The loop guard |lat_k - endLat| > spacing holds exactly for the lanes before
      LaneCount, and fails at LaneCount: LaneCount is the number of iterations. */
  lemma LaneCountIsFirstExit(startLat: real, endLat: real, spacing: real, k: nat)
    requires 0.0 < spacing
    requires k <= LaneCount(startLat, endLat, spacing)
    ensures Abs(LaneLatitude(startLat, endLat, spacing, k) - endLat) > spacing
            <==> k < LaneCount(startLat, endLat, spacing)
    ensures k < LaneCount(startLat, endLat, spacing) ==>
            (k as real + 1.0) * spacing < Abs(startLat - endLat)
  {
    var gap := Abs(startLat - endLat);
    var ks := (k as real) * spacing;
    assert LaneLatitude(startLat, endLat, spacing, k) - endLat
           == (startLat - endLat) + LatDirection(startLat, endLat) as real * ks;
    assert Abs(LaneLatitude(startLat, endLat, spacing, k) - endLat) == Abs(gap - ks);
    if gap > spacing {
      StepsWithinGap(gap, spacing, k);
      assert (k as real + 1.0) * spacing == ks + spacing;
    }
  }

  /** Successive lanes approach the far edge: each lane's distance to `endLat` is
      exactly one spacing less than the previous lane's, whichever way the
      latitudes run. */
  lemma LanesApproachEnd(startLat: real, endLat: real, spacing: real, k: nat)
    requires 0.0 < spacing
    requires k + 1 < LaneCount(startLat, endLat, spacing)
    ensures Abs(LaneLatitude(startLat, endLat, spacing, k + 1) - endLat)
            == Abs(LaneLatitude(startLat, endLat, spacing, k) - endLat) - spacing
  {
    var gap := Abs(startLat - endLat);
    var d := LatDirection(startLat, endLat) as real;
    var ks := (k as real) * spacing;
    var ks1 := (k as real + 1.0) * spacing;
    LaneCountIsFirstExit(startLat, endLat, spacing, k + 1);
    assert ks1 == ks + spacing;
    assert LaneLatitude(startLat, endLat, spacing, k) - endLat == (startLat - endLat) + d * ks;
    assert LaneLatitude(startLat, endLat, spacing, k + 1) - endLat == (startLat - endLat) + d * ks1;
    assert ((k + 1) as real + 1.0) * spacing == ks1 + spacing;
    assert ks1 < gap;
  }

  /** Every planned waypoint lies between the two latitude edges, strictly more than
      one spacing short of the far edge, at the requested altitude, with the
      longitude edge alternating from the start edge. */
  lemma PlanWithinArea(startLat: real, startLon: real, endLat: real, endLon: real,
                       altitude: real, spacing: real, k: nat)
    requires Terminates(startLat, endLat, spacing)
    requires k < |SnakeWaypoints(startLat, startLon, endLat, endLon, altitude, spacing)|
    ensures var w := SnakeWaypoints(startLat, startLon, endLat, endLon, altitude, spacing)[k];
      && (if startLat <= endLat then startLat <= w.lat <= endLat else endLat <= w.lat <= startLat)
      && Abs(w.lat - endLat) > spacing
      && w.alt == altitude
      && w.lon == (if k % 2 == 0 then startLon else endLon)
  {
    LaneCountIsFirstExit(startLat, endLat, spacing, k);
    var lat := LaneLatitude(startLat, endLat, spacing, k);
    var ks := (k as real) * spacing;
    assert 0.0 <= ks;
    assert (k as real + 1.0) * spacing == ks + spacing;
    if endLat > startLat {
      assert lat == startLat + ks;
    } else {
      assert lat == startLat - ks;
    }
  }

  /** The plan is empty exactly when the latitude gap is at most one spacing, also
      when the two latitudes are equal: no waypoint at all is flown then. */
  lemma PlanEmptyIffNarrow(startLat: real, startLon: real, endLat: real, endLon: real,
                           altitude: real, spacing: real)
    requires Terminates(startLat, endLat, spacing)
    ensures SnakeWaypoints(startLat, startLon, endLat, endLon, altitude, spacing) == []
            <==> Abs(startLat - endLat) <= spacing
  {
  }

  /** Without a positive spacing and with a gap wider than it, the loop guard holds in
      every iteration: the planner never returns. */
  lemma NoPositiveSpacingNeverStops(startLat: real, endLat: real, spacing: real, k: nat)
    requires spacing <= 0.0 && Abs(startLat - endLat) > spacing
    ensures Abs(LaneLatitude(startLat, endLat, spacing, k) - endLat) > spacing
  {
    if spacing == 0.0 {
      assert LaneLatitude(startLat, endLat, spacing, k) == startLat;
    }
  }

  /** The area flown by the controller's main program: a 0.01 degree latitude gap at
      the default spacing gives 99 lanes, the last 0.0002 degrees short of the far edge. */
  lemma MainAreaLanes()
    ensures LaneCount(37.7749, 37.7849, DefaultSpacing) == 99
    ensures LaneLatitude(37.7749, 37.7849, DefaultSpacing, 98) == 37.7847
  {
    assert Abs(37.7749 - 37.7849) / DefaultSpacing == 100.0;
  }
}
