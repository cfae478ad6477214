# AgroBoost drone survey and vegetation measures, modelled in Dafny

This project models three sequential pieces of the AgroBoost repository and proves
properties of them:

- **The drone survey mission** (`drone-control/control.py`, class `DroneController`).
  The snake (boustrophedon) coverage planner `generate_snake_waypoints` is modelled
  as a loop method (`Planner.GenerateSnakeWaypoints`). It is proved equal to a
  closed-form plan (`Planner.SnakeWaypoints`): lane k lies at latitude
  `start_lat + k·spacing·lat_direction`, and its longitude alternates between the
  start edge and the end edge. Lemmas give the exact lane count `⌈gap/spacing⌉ − 1`,
  the bounds, the empty plan and non-termination.
  The mission itself (`execute_mission` and the methods it calls) is the class
  `Drone.DroneController`. Its field `sent` is an append-only log of everything the
  controller sends: MAVLink COMMAND_LONG, SET_MODE and MISSION_ITEM_INT messages, plus
  the HTTP uploads of images. Each method's contract gives the new log as the old log
  followed by a specification function. Lemmas about those functions prove the order
  ARM, GUIDED, TAKEOFF, then (move, capture, upload) per waypoint, then RTL. They also
  prove exactly one move, one capture and one upload per waypoint.
  `mode_mapping()` is an abstract map. A mode missing from it raises KeyError, which
  stops the mission; the model keeps that error path.
- **The pixel measures** (`api/api/vision/analyzer.py`).
  - `check_green` is an in-place nested loop over an `array2<Pixel>`. The channel
    test includes the uint8 wrap-around of `g + 10` as NumPy 2 computes it; under
    NumPy 1.x the sum is promoted to int64 and does not wrap (see Left out).
  - `treePer` is a counting loop over an `array2<byte>`, with its division-by-zero
    path.
  - `apply_brightness_contrast` is modelled through its affine parameters (alpha,
    gamma).
  - `getImageByXYZ` is modelled through its area arithmetic.
- **The batch aggregation** `loadAllByXYZ` (`api/api/views.py`) is a nested loop. The
  per-tile analysis `getImageByXYZ` is a function parameter. The method is proved
  against per-group sums and means, and lemmas bound the sums.

Numbers are exact: coordinates, altitudes, percentages and areas are `real`, and
pixel values are the newtype `byte` (0..255).

The controller's behaviour, as the code has it:
- No send waits for an acknowledgement. TAKEOFF, each move, each capture and RTL
  are followed by a fixed sleep (10, 5, 1 and 10 s). ARM is followed by the wait
  for the armed state, and each upload blocks until its HTTP response arrives.
  There are no retries, timeouts or abort states, and the model has none.
- The survey area is not validated. The plan is empty when the latitude gap is at
  most one spacing (`Planner.PlanEmptyIffNarrow`), and the model keeps that.
- The connection (heartbeat wait) happens in the constructor and the arming wait
  blocks; both are assumed to succeed.

## Model

| member | source | states |
|---|---|---|
| Planner.LaneCount | drone-control/control.py:129-135 | the number of lanes is 0 exactly when the latitude gap is at most the spacing |
| Planner.GenerateSnakeWaypoints | drone-control/control.py:111-140 | the loop returns exactly the closed-form plan: lane k at `start_lat + k·spacing·lat_direction`, longitude alternating from `start_lon`, altitude unchanged, in generation order; the `lon_direction`/`snake_direction` bookkeeping never changes the result |
| Planner.LaneCountIsFirstExit | drone-control/control.py:129-135 | the loop guard `abs(current_lat − end_lat) > spacing` holds for exactly the first `⌈gap/spacing⌉ − 1` iterations (none when gap ≤ spacing), so that is the iteration count |
| Planner.PlanWithinArea | drone-control/control.py:123-138 | every planned latitude lies between start and end latitude and strictly more than one spacing from the end; every altitude is the argument; even lanes use `start_lon`, odd lanes `end_lon` |
| Planner.LanesApproachEnd | drone-control/control.py:123-135 | each lane after the first is exactly one spacing closer to `end_lat` than the lane before it, whichever way the latitudes run |
| Planner.PlanEmptyIffNarrow | drone-control/control.py:129 | the plan is empty exactly when the latitude gap is at most the spacing (including equal latitudes) |
| Planner.NoPositiveSpacingNeverStops | drone-control/control.py:129-135 | with spacing ≤ 0 and a gap wider than it, the loop guard holds in every iteration (the call never returns) |
| Planner.MainAreaLanes | drone-control/control.py:189-193 | in exact arithmetic, the main program's area at the default spacing 0.0001 gives 99 lanes; the last is 0.0002° short of the far edge |
| Mavlink.ScaleE7 | drone-control/control.py:76-77 | `int(deg·1e7)` truncates toward zero: the integer is within one unit of the exact value and never exceeds it in magnitude |
| Mavlink.WaypointItem | drone-control/control.py:68-79 | the intended MISSION_ITEM_INT: seq 0, frame GLOBAL_RELATIVE_ALT_INT, NAV_WAYPOINT, current 2; x and y within 1e-7° of lat and lon; altitude unchanged in z |
| Mavlink.WaypointItemAsWrittenShiftsFields | drone-control/control.py:68-79 | as written, the 15 positional arguments leave x = 0, put the latitude in y, the longitude in z and the altitude in mission_type; this differs from the intended message for every latitude at least 1e-7° from the equator |
| Mavlink.MainStartCornerAsWritten | drone-control/control.py:68-79 | for the main program's start corner, the intended x is 377749000 but the message as written carries x = 0 and y = 377749000 |
| Drone.SurveyOutputsAt | drone-control/control.py:147-150 | the survey sends three entries per waypoint in plan order: the move to waypoint i, its IMAGE_START_CAPTURE, and its upload |
| Drone.SurveyCounts | drone-control/control.py:147-150 | the survey holds exactly one move, one capture and one upload per waypoint |
| Drone.MissionOrder | drone-control/control.py:160-179 | with GUIDED and RTL known, the mission sends ARM (param1 = 1), SET_MODE GUIDED, TAKEOFF (param7 = altitude), then per waypoint move, capture and upload, and last SET_MODE RTL: 4 + 3n entries |
| Drone.MissionCounts | drone-control/control.py:160-179 | the whole mission holds one move, one capture and one upload per planned waypoint when it gets past GUIDED, and none when the GUIDED lookup fails |
| Drone.MainMissionLength | drone-control/control.py:189-202 | in exact arithmetic and with GUIDED and RTL known, the main program's mission sends 301 entries |
| Drone.DroneController.constructor | drone-control/control.py:6-15 | a new controller has sent nothing and keeps its link and upload URL |
| Drone.DroneController.SetMode | drone-control/control.py:47-58 | sends one SET_MODE with the mapped mode number, or nothing (KeyError) when the mode is unmapped |
| Drone.DroneController.ArmAndTakeoff | drone-control/control.py:17-45 | sends ARM, then GUIDED, then TAKEOFF at the altitude; stops after ARM when GUIDED is unmapped |
| Drone.DroneController.MoveTo | drone-control/control.py:60-80 | appends one MISSION_ITEM_INT for the position (intended field binding) |
| Drone.DroneController.CaptureImage | drone-control/control.py:82-109 | appends IMAGE_START_CAPTURE and the image upload whatever the HTTP status; only the reported delivery depends on status 200 |
| Drone.DroneController.SnakePattern | drone-control/control.py:142-150 | appends move then capture for every waypoint, in order |
| Drone.DroneController.ReturnToHome | drone-control/control.py:152-158 | appends SET_MODE RTL, or nothing when RTL is unmapped |
| Drone.DroneController.ExecuteMission | drone-control/control.py:160-179 | appends exactly the mission log for the plan at the default spacing; completes exactly when GUIDED and RTL are both mapped |
| Analyzer.AddU8 | api/api/vision/analyzer.py:65 | uint8 addition as NumPy 2 evaluates it wraps modulo 256 |
| Analyzer.CheckGreen | api/api/vision/analyzer.py:55-68 | blackens in place exactly the pixels that fail the green test (evaluated on the values read before any write), leaves every other pixel and the shape alone, and returns the same array |
| Analyzer.GreenFilterIdempotent | api/api/vision/analyzer.py:62-66 | filtering a filtered pixel changes nothing |
| Analyzer.BlackenedIgnoresChannelOrder | api/api/vision/analyzer.py:60-65 | the test is symmetric in the first and third channel, so the BGR/RGB mislabel does not matter |
| Analyzer.BlackenedWithoutWrap | api/api/vision/analyzer.py:65 | for green below 246 the uint8 test equals the plain integer test (the NumPy 1.x int64 test) |
| Analyzer.WrapBlackensGreenPixel | api/api/vision/analyzer.py:65 | for green ≥ 246 the NumPy 2 uint8 wrap blackens a pixel whose green channel dominates by 50, which the plain integer (NumPy 1.x) test keeps |
| Analyzer.WhiteInRows | api/api/vision/analyzer.py:45-50 | the white count of the first m rows is at most m × columns |
| Analyzer.TreePer | api/api/vision/analyzer.py:42-52 | the result times rows·cols equals 100 × (number of pixels equal to 255), and lies in [0, 100]; a 0-row or 0-column image is a division by zero |
| Analyzer.AllWhiteRows | api/api/vision/analyzer.py:47-50 | an image whose every pixel is 255 counts every pixel |
| Analyzer.BrightnessStep | api/api/vision/analyzer.py:18-30 | brightness 0 means a plain copy; b > 0 maps 0 ↦ b and 255 ↦ 255; b < 0 maps 0 ↦ 0 and 255 ↦ 255 + b |
| Analyzer.ContrastStep | api/api/vision/analyzer.py:32-35 | contrast 0 means no step; contrast 131 divides by zero; otherwise intensity 127 is a fixed point |
| Analyzer.BrightnessContrast | api/api/vision/analyzer.py:17-39 | brightness 0 and contrast 0 return the input unchanged; only contrast 131 fails |
| Analyzer.BrightnessRange | api/api/vision/analyzer.py:18-28 | a brightness in (0, 255] maps [0, 255] monotonically into [brightness, 255] |
| Analyzer.ContrastSlope | api/api/vision/analyzer.py:33-35 | for contrast in (−127, 131) the slope is positive; it is above 1 for positive and below 1 for negative contrast |
| Analyzer.TileFiguresFor | api/api/vision/analyzer.py:147-148 | area × 100 = total_area × perc; with perc in [0, 100] and a non-negative ratio, 0 ≤ area ≤ total_area |
| Views.LoadAllByXYZ | api/api/views.py:45-74 | succeeds exactly when no group is empty; `data` has one list per group in input order, holding one result per region in order; `percentage[i]` is the summary of group i alone |
| Views.TreeWithinArea | api/api/views.py:63-64 | with consistent tile figures, 0 ≤ totalTree ≤ totalArea |
| Views.PercentSumBounds | api/api/views.py:65 | with percentages in [0, 100], their sum is between 0 and 100 × the group size |
| Views.GroupInfoBounds | api/api/views.py:63-69 | a non-empty group of consistent tiles has 0 ≤ totalTree ≤ totalArea and a mean percent in [0, 100] |
| Views.GroupOfTilesBounds | api/api/views.py:60-69 | when every tile comes from getImageByXYZ's arithmetic with a non-negative ratio and a percentage in [0, 100], the group summary keeps totalTree ≤ totalArea and percent in [0, 100] |

## Left out

- The pymavlink transport is not modelled: `mavlink_connection`, `wait_heartbeat`, `motors_armed_wait` and every `time.sleep`. The connection and the arming are assumed to succeed. Target ids and `mode_mapping()` are the fields of `Drone.Link`.
- `print` output is not modelled. The HTTP status of an upload only selects a printed message, and it appears as `CaptureImage`'s `delivered` result.
- A transport exception raised by `requests.post` is not modelled; such an exception would end the mission.
- Floating-point arithmetic is not modelled; all values are exact reals. Under floats, `current_lat += spacing` drifts, so the lane count can differ by one from `⌈gap/spacing⌉ − 1`.
- Planner.GenerateSnakeWaypoints: requires that the loop terminates (a positive spacing, or a gap within the spacing). Otherwise the source never returns; `Planner.NoPositiveSpacingNeverStops` states this.
- Drone.DroneController.MoveTo: sends the intended MISSION_ITEM_INT (`Mavlink.WaypointItem`), not the shifted binding the code produces (see Findings). `Drone.IsMoveTo` checks the intended fields (x = int(lat·1e7)), so `Drone.SurveyOutputsAt`, `Drone.MissionOrder` and `Drone.DroneController.ExecuteMission` are statements about the corrected move message; the messages as written are described by `Mavlink.WaypointItemAsWritten`.
- OpenCV is not modelled: `inRange`, `bitwise_and`, `cvtColor`, Otsu `threshold`, `imwrite`, `imdecode`, and the rounding and saturation of `addWeighted`. Only the affine parameters of `apply_brightness_contrast` are modelled, as maps on real intensities.
- `analyze` is not modelled (random tile server, `url_to_image` download, image files, the `perc.txt` cache). Neither is `getRatio`, which uses `cos`; the tile's ratio is an input of `Analyzer.TileFiguresFor`.
- `getImageByXYZ` has image-URL strings (`analyzed_img`, `source_img`) that are not modelled. In `Views.LoadAllByXYZ`, `getImageByXYZ` is a pure function of the region.
- JSON request parsing in `loadAllByXYZ` is not modelled, including the KeyError for a region without `x`, `y`, `z`, `lat` or `lng`. Nor is the `JsonResponse` wrapping.
- The other views are request glue and are not modelled: `index`, `loadMap` (uses `mercantile.ul`), `getLoadByXYZ` and `loadByXYZ`.
- `api/api/urls.py`, `drone-control/test.py` and the `vision/` service (model inference, training, storage, video) are not part of this model.
- Analyzer.Blackened: models the NumPy 2 uint8 wrap of `g + 10`. The Django version this code imports (`api/api/vision/analyzer.py:10`) predates NumPy 2; under NumPy 1.x `g + 10` is promoted to int64 and the test is the plain integer test of `Analyzer.BlackenedWithoutWrap` for every green value. The two differ only for green ≥ 246, which `analyze` never passes in, since `inRange` leaves green ≤ 130.
- Analyzer.CheckGreen: the same NumPy-version caveat as `Analyzer.Blackened` applies to its channel test.
- Analyzer.CheckGreen: idempotence is proved per pixel (`Analyzer.GreenFilterIdempotent`). Idempotence of two whole-image calls follows from that and CheckGreen's postcondition, but no separate lemma states it.

## Findings

| source | as written | input that shows it | evidently intended | confidence | as-written member | corrected member |
|---|---|---|---|---|---|---|
| drone-control/control.py:68-79 | `move_to` passes 15 positional arguments to `mission_item_int_send`, whose MISSION_ITEM_INT fields are target_system, target_component, seq, frame, command, current, autocontinue, param1–param4, x, y, z, mission_type. The six zeros fill autocontinue through x, so x = 0, y = int(lat·1e7), z = int(lon·1e7) and mission_type = altitude | `move_to(37.7749, -122.4194, 20)` sends x = 0, y = 377749000, z = −1224194000, mission_type = 20 | x = int(lat·1e7), y = int(lon·1e7), z = altitude, mission_type = 0 (five zeros, one for autocontinue and four for param1–param4) | medium: follows from the MAVLink field order of MISSION_ITEM_INT; not executed | Mavlink.WaypointItemAsWritten, Mavlink.WaypointItemAsWrittenShiftsFields, Mavlink.MainStartCornerAsWritten | Mavlink.WaypointItem (used by Drone.DroneController.MoveTo) |
