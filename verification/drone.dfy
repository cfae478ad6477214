/** The survey mission of DroneController (drone-control/control.py): arm, switch to
    GUIDED, take off, fly the snake plan capturing and uploading one image per
    waypoint, then switch to RTL.

    The flight link and the HTTP upload are modelled as one append-only log of what
    the controller sends. No send waits for an acknowledgement: the source waits for
    the heartbeat (at connection), for the armed state after ARM and for the HTTP
    response of each upload, and sleeps a fixed time after TAKEOFF, each move, each
    capture and RTL (10, 5, 1 and 10 s). There are no retries, timeouts or abort
    states, and the model has none either. */
module Drone {
  import opened Planner
  import opened Mavlink

  /** One thing the controller sends: a MAVLink message on the flight link, or an
      HTTP POST of a captured image to the upload API. */
  datatype Output = Mav(msg: MavMessage) | HttpPost(url: string, image: string)

  /** The image field that capture_image posts (the camera's data is a placeholder). */
  const ImagePlaceholder: string := "image_data_placeholder"

  /** What the controller reads from its connection: the target ids and the
      autopilot's mode_mapping() from mode name to custom mode number. */
  datatype Link = Link(targetSystem: int, targetComponent: int, modes: map<string, int>)

  // ---------------------------------------------------------------------------
  // What each step sends.

  /** set_mode: one SET_MODE message, or nothing when the mode is not in
      mode_mapping() (the lookup raises KeyError before anything is sent). */
  function SetModeOutputs(link: Link, mode: string): seq<Output>
  {
    if mode in link.modes then [Mav(SetModeMessage(link.targetSystem, link.modes[mode]))] else []
  }

  /** arm_and_takeoff: ARM, then set mode GUIDED, then TAKEOFF; the KeyError of a
      missing GUIDED mode ends the sequence after ARM. */
  function ArmAndTakeoffOutputs(link: Link, altitude: real): seq<Output>
  {
    [Mav(ArmCommand(link.targetSystem, link.targetComponent))]
    + if "GUIDED" in link.modes
      then SetModeOutputs(link, "GUIDED") + [Mav(TakeoffCommand(link.targetSystem, link.targetComponent, altitude))]
      else []
  }

  /** move_to: one MISSION_ITEM_INT for the waypoint. */
  function MoveToOutput(link: Link, w: Waypoint): Output
  {
    Mav(WaypointItem(link.targetSystem, link.targetComponent, w.lat, w.lon, w.alt))
  }

  /** capture_image: IMAGE_START_CAPTURE, then the HTTP upload of the image. */
  function CaptureOutputs(link: Link, apiUrl: string): seq<Output>
  {
    [Mav(CaptureCommand(link.targetSystem, link.targetComponent)), HttpPost(apiUrl, ImagePlaceholder)]
  }

  /** snake_pattern: move_to then capture_image for every waypoint, in order. */
  function SurveyOutputs(link: Link, apiUrl: string, waypoints: seq<Waypoint>): seq<Output>
  {
    if waypoints == [] then []
    else SurveyOutputs(link, apiUrl, waypoints[..|waypoints| - 1])
         + [MoveToOutput(link, waypoints[|waypoints| - 1])] + CaptureOutputs(link, apiUrl)
  }

  /** execute_mission: arm and take off, survey, return to home. A missing GUIDED mode
      stops the mission after ARM; a missing RTL mode leaves out the final SET_MODE. */
  function MissionOutputs(link: Link, apiUrl: string, altitude: real, waypoints: seq<Waypoint>)
    : seq<Output>
  {
    ArmAndTakeoffOutputs(link, altitude)
    + if "GUIDED" in link.modes
      then SurveyOutputs(link, apiUrl, waypoints) + SetModeOutputs(link, "RTL")
      else []
  }

  // ---------------------------------------------------------------------------
  // Reading the log.

  /** ARM: MAV_CMD_COMPONENT_ARM_DISARM with param1 = 1. */
  predicate IsArm(o: Output)
  {
    o.Mav? && o.msg.CommandLong? && o.msg.command == MavCmdComponentArmDisarm
    && |o.msg.params| == 7 && o.msg.params[0] == 1.0
  }

  /** TAKEOFF to `altitude`: MAV_CMD_NAV_TAKEOFF with the altitude in param7. */
  predicate IsTakeoff(o: Output, altitude: real)
  {
    o.Mav? && o.msg.CommandLong? && o.msg.command == MavCmdNavTakeoff
    && |o.msg.params| == 7 && o.msg.params[6] == altitude
  }

  /** A switch to the flight mode numbered `modeId`. */
  predicate IsSetMode(o: Output, modeId: int)
  {
    o.Mav? && o.msg.SetMode? && o.msg.customMode == modeId
    && o.msg.baseMode == MavModeFlagCustomModeEnabled
  }

  /** A move to waypoint `w`: MAV_CMD_NAV_WAYPOINT with lat/lon as int(deg * 1e7). */
  predicate IsMoveTo(o: Output, w: Waypoint)
  {
    o.Mav? && o.msg.MissionItemInt? && o.msg.command == MavCmdNavWaypoint
    && o.msg.x == ScaleE7(w.lat) && o.msg.y == ScaleE7(w.lon) && o.msg.z == w.alt
  }

  predicate IsCapture(o: Output)
  {
    o.Mav? && o.msg.CommandLong? && o.msg.command == MavCmdImageStartCapture
  }

  datatype Kind = Move | Capture | Upload | Other

  function KindOf(o: Output): Kind
  {
    if o.HttpPost? then Upload
    else if o.msg.MissionItemInt? then Move
    else if IsCapture(o) then Capture
    else Other
  }

  /** How many entries of the log are of the given kind. */
  function Count(log: seq<Output>, kind: Kind): nat
  {
    if log == [] then 0
    else Count(log[..|log| - 1], kind) + (if KindOf(log[|log| - 1]) == kind then 1 else 0)
  }

  lemma {:induction false} CountAppend(a: seq<Output>, b: seq<Output>, kind: Kind)
    ensures Count(a + b, kind) == Count(a, kind) + Count(b, kind)
    decreases |b|
  {
    if b != [] {
      assert (a + b)[..|a + b| - 1] == a + b[..|b| - 1];
      CountAppend(a, b[..|b| - 1], kind);
    } else {
      assert a + b == a;
    }
  }

  // ---------------------------------------------------------------------------
  // Properties of the mission's log.

  /** The survey sends exactly three things per waypoint, in plan order: the move to
      waypoint i, then its capture command, then its upload. */
  lemma {:induction false} SurveyOutputsAt(link: Link, apiUrl: string, waypoints: seq<Waypoint>, i: nat)
    requires i < |waypoints|
    ensures |SurveyOutputs(link, apiUrl, waypoints)| == 3 * |waypoints|
    ensures var out := SurveyOutputs(link, apiUrl, waypoints);
            && IsMoveTo(out[3 * i], waypoints[i])
            && IsCapture(out[3 * i + 1])
            && out[3 * i + 2] == HttpPost(apiUrl, ImagePlaceholder)
    decreases |waypoints|
  {
    var init := waypoints[..|waypoints| - 1];
    SurveyLength(link, apiUrl, init);
    if i < |init| {
      SurveyOutputsAt(link, apiUrl, init, i);
      assert waypoints[i] == init[i];
    }
  }

  lemma {:induction false} SurveyLength(link: Link, apiUrl: string, waypoints: seq<Waypoint>)
    ensures |SurveyOutputs(link, apiUrl, waypoints)| == 3 * |waypoints|
    decreases |waypoints|
  {
    if waypoints != [] {
      SurveyLength(link, apiUrl, waypoints[..|waypoints| - 1]);
    }
  }

  lemma {:induction false} CountNone(log: seq<Output>, kind: Kind)
    requires forall j :: 0 <= j < |log| ==> KindOf(log[j]) != kind
    ensures Count(log, kind) == 0
    decreases |log|
  {
    if log != [] {
      CountNone(log[..|log| - 1], kind);
    }
  }

  /** Each waypoint's step holds one entry of every kind but Other. */
  lemma WaypointStepCount(link: Link, apiUrl: string, w: Waypoint, kind: Kind)
    ensures Count([MoveToOutput(link, w)] + CaptureOutputs(link, apiUrl), kind)
            == if kind == Other then 0 else 1
  {
    var step := [MoveToOutput(link, w)] + CaptureOutputs(link, apiUrl);
    assert KindOf(step[0]) == Move && KindOf(step[1]) == Capture && KindOf(step[2]) == Upload;
    var one, two := [step[0]], [step[0], step[1]];
    assert one[..0] == [];
    assert Count(one, kind) == if KindOf(step[0]) == kind then 1 else 0;
    assert two[..1] == one;
    assert step[..2] == two;
  }

  /** One move, one capture and one upload per waypoint, and nothing else of those kinds. */
  lemma {:induction false} SurveyCounts(link: Link, apiUrl: string, waypoints: seq<Waypoint>, kind: Kind)
    ensures Count(SurveyOutputs(link, apiUrl, waypoints), kind)
            == if kind == Other then 0 else |waypoints|
    decreases |waypoints|
  {
    if waypoints != [] {
      var init := waypoints[..|waypoints| - 1];
      var w := waypoints[|waypoints| - 1];
      SurveyCounts(link, apiUrl, init, kind);
      WaypointStepCount(link, apiUrl, w, kind);
      CountAppend(SurveyOutputs(link, apiUrl, init), [MoveToOutput(link, w)] + CaptureOutputs(link, apiUrl), kind);
      assert SurveyOutputs(link, apiUrl, waypoints)
             == SurveyOutputs(link, apiUrl, init) + ([MoveToOutput(link, w)] + CaptureOutputs(link, apiUrl));
    }
  }

  /** With both GUIDED and RTL known to the autopilot, the mission sends ARM
      (param1 = 1), set mode GUIDED, TAKEOFF (param7 = altitude), then for each planned
      waypoint in order its move, capture and upload, and last set mode RTL. */
  lemma MissionOrder(link: Link, apiUrl: string, altitude: real, waypoints: seq<Waypoint>)
    requires "GUIDED" in link.modes && "RTL" in link.modes
    ensures var out := MissionOutputs(link, apiUrl, altitude, waypoints);
            && |out| == 4 + 3 * |waypoints|
            && IsArm(out[0])
            && IsSetMode(out[1], link.modes["GUIDED"])
            && IsTakeoff(out[2], altitude)
            && (forall i :: 0 <= i < |waypoints| ==>
                  && IsMoveTo(out[3 + 3 * i], waypoints[i])
                  && IsCapture(out[3 + 3 * i + 1])
                  && out[3 + 3 * i + 2] == HttpPost(apiUrl, ImagePlaceholder))
            && IsSetMode(out[|out| - 1], link.modes["RTL"])
  {
    var out := MissionOutputs(link, apiUrl, altitude, waypoints);
    var head := ArmAndTakeoffOutputs(link, altitude);
    var survey := SurveyOutputs(link, apiUrl, waypoints);
    assert |head| == 3;
    SurveyLength(link, apiUrl, waypoints);
    assert out == head + survey + SetModeOutputs(link, "RTL");
    forall i | 0 <= i < |waypoints|
      ensures && IsMoveTo(out[3 + 3 * i], waypoints[i])
              && IsCapture(out[3 + 3 * i + 1])
              && out[3 + 3 * i + 2] == HttpPost(apiUrl, ImagePlaceholder)
    {
      SurveyOutputsAt(link, apiUrl, waypoints, i);
      assert out[3 + 3 * i] == survey[3 * i];
      assert out[3 + 3 * i + 1] == survey[3 * i + 1];
      assert out[3 + 3 * i + 2] == survey[3 * i + 2];
    }
  }

  /** Whatever the autopilot's modes, the mission moves, captures and uploads once per
      planned waypoint when it gets past GUIDED, and not at all otherwise. */
  lemma MissionCounts(link: Link, apiUrl: string, altitude: real, waypoints: seq<Waypoint>, kind: Kind)
    requires kind != Other
    ensures Count(MissionOutputs(link, apiUrl, altitude, waypoints), kind)
            == if "GUIDED" in link.modes then |waypoints| else 0
  {
    var head := ArmAndTakeoffOutputs(link, altitude);
    CountNone(head, kind);
    if "GUIDED" in link.modes {
      var survey := SurveyOutputs(link, apiUrl, waypoints);
      var tail := SetModeOutputs(link, "RTL");
      SurveyCounts(link, apiUrl, waypoints, kind);
      CountNone(tail, kind);
      CountAppend(head, survey, kind);
      CountAppend(head + survey, tail, kind);
      assert MissionOutputs(link, apiUrl, altitude, waypoints) == head + survey + tail;
    } else {
      assert MissionOutputs(link, apiUrl, altitude, waypoints) == head;
    }
  }

  /** The main program's area (37.7749, -122.4194) to (37.7849, -122.4094) at 20 m:
      99 waypoints, so 3 + 3 * 99 + 1 outputs when GUIDED and RTL are both known. */
  lemma MainMissionLength(link: Link, apiUrl: string)
    requires "GUIDED" in link.modes && "RTL" in link.modes
    ensures |MissionOutputs(link, apiUrl, 20.0,
              SnakeWaypoints(37.7749, -122.4194, 37.7849, -122.4094, 20.0, DefaultSpacing))| == 301
  {
    MainAreaLanes();
    MissionOrder(link, apiUrl, 20.0, SnakeWaypoints(37.7749, -122.4194, 37.7849, -122.4094, 20.0, DefaultSpacing));
  }

  // ---------------------------------------------------------------------------
  // The controller.

  class DroneController {
    const link: Link
    const apiUrl: string
    /** Everything sent so far, oldest first. */
    var sent: seq<Output>

    /** __init__: the connection is established and its heartbeat received; nothing
        is sent by the controller itself. */
    constructor (link: Link, apiUrl: string)
      ensures this.link == link && this.apiUrl == apiUrl && sent == []
    {
      this.link := link;
      this.apiUrl := apiUrl;
      sent := [];
    }

    /** set_mode: looks the mode up in mode_mapping() and sends SET_MODE; `ok` is false
        when the lookup would raise KeyError, in which case nothing is sent. */
    method SetMode(mode: string) returns (ok: bool)
      modifies this
      ensures ok <==> mode in link.modes
      ensures sent == old(sent) + SetModeOutputs(link, mode)
    {
      ok := mode in link.modes;
      if ok {
        sent := sent + [Mav(SetModeMessage(link.targetSystem, link.modes[mode]))];
      }
    }

    /** arm_and_takeoff: ARM, (the motors are assumed to arm), GUIDED, TAKEOFF. */
    method ArmAndTakeoff(targetAltitude: real) returns (ok: bool)
      modifies this
      ensures ok <==> "GUIDED" in link.modes
      ensures sent == old(sent) + ArmAndTakeoffOutputs(link, targetAltitude)
    {
      sent := sent + [Mav(ArmCommand(link.targetSystem, link.targetComponent))];
      ok := SetMode("GUIDED");
      if ok {
        sent := sent + [Mav(TakeoffCommand(link.targetSystem, link.targetComponent, targetAltitude))];
      }
    }

    /** move_to: one MISSION_ITEM_INT towards the given position. */
    method MoveTo(latitude: real, longitude: real, altitude: real)
      modifies this
      ensures sent == old(sent) + [MoveToOutput(link, Waypoint(latitude, longitude, altitude))]
    {
      sent := sent + [Mav(WaypointItem(link.targetSystem, link.targetComponent, latitude, longitude, altitude))];
    }

    /** capture_image: IMAGE_START_CAPTURE, then POST the image. `status` is the HTTP
        response status; it only decides which message is printed (`delivered`), never
        what is sent next. */
    method CaptureImage(status: int) returns (delivered: bool)
      modifies this
      ensures delivered <==> status == 200
      ensures sent == old(sent) + CaptureOutputs(link, apiUrl)
    {
      sent := sent + [Mav(CaptureCommand(link.targetSystem, link.targetComponent))];
      sent := sent + [HttpPost(apiUrl, ImagePlaceholder)];
      delivered := status == 200;
    }

    /** snake_pattern: move to each waypoint and capture there; `uploadStatus(i)` is
        the upload response for waypoint i. */
    method SnakePattern(waypoints: seq<Waypoint>, uploadStatus: nat -> int)
      modifies this
      ensures sent == old(sent) + SurveyOutputs(link, apiUrl, waypoints)
    {
      for i := 0 to |waypoints|
        invariant sent == old(sent) + SurveyOutputs(link, apiUrl, waypoints[..i])
      {
        var w := waypoints[i];
        MoveTo(w.lat, w.lon, w.alt);
        var _ := CaptureImage(uploadStatus(i));
        assert waypoints[..i + 1][..i] == waypoints[..i];
      }
      assert waypoints[..|waypoints|] == waypoints;
    }

    /** return_to_home: set mode RTL. */
    method ReturnToHome() returns (ok: bool)
      modifies this
      ensures ok <==> "RTL" in link.modes
      ensures sent == old(sent) + SetModeOutputs(link, "RTL")
    {
      ok := SetMode("RTL");
    }

    /** execute_mission: arm and take off, plan at the default spacing, fly the plan,
        return home. `completed` is false when a mode lookup raised KeyError. */
    method ExecuteMission(startLat: real, startLon: real, endLat: real, endLon: real,
                          altitude: real, uploadStatus: nat -> int)
      returns (completed: bool)
      modifies this
      ensures completed <==> "GUIDED" in link.modes && "RTL" in link.modes
      ensures sent == old(sent) + MissionOutputs(link, apiUrl, altitude,
                       SnakeWaypoints(startLat, startLon, endLat, endLon, altitude, DefaultSpacing))
    {
      var ok := ArmAndTakeoff(altitude);
      if !ok {
        return false;
      }
      var waypoints := GenerateSnakeWaypoints(startLat, startLon, endLat, endLon, altitude, DefaultSpacing);
      SnakePattern(waypoints, uploadStatus);
      completed := ReturnToHome();
    }
  }
}
