/** The MAVLink messages the drone controller sends (MAVLink common message set:
    COMMAND_LONG, SET_MODE and MISSION_ITEM_INT), as values. Transport and
    wire encoding are not part of this model. */
module Mavlink {

  // MAV_CMD and MAV_FRAME enumeration values of the MAVLink common message set.
  const MavCmdNavWaypoint: int := 16
  const MavCmdNavTakeoff: int := 22
  const MavCmdComponentArmDisarm: int := 400
  const MavCmdImageStartCapture: int := 2000
  const MavFrameGlobalRelativeAltInt: int := 6
  // MAV_MODE_FLAG_CUSTOM_MODE_ENABLED, the base mode that set_mode sends.
  const MavModeFlagCustomModeEnabled: int := 1

  datatype MavMessage =
    | CommandLong(targetSystem: int, targetComponent: int, command: int,
                  confirmation: int, params: seq<real>)
    | SetMode(targetSystem: int, baseMode: int, customMode: int)
    | MissionItemInt(targetSystem: int, targetComponent: int, seqNo: int, frame: int,
                     command: int, current: int, autocontinue: int, params: seq<real>,
                     x: int, y: int, z: real, missionType: real)

  /** Python's int() on a float: truncation toward zero. */
  function Trunc(v: real): (r: int)
    ensures 0.0 <= v ==> r as real <= v < r as real + 1.0
    ensures v < 0.0 ==> r as real - 1.0 < v <= r as real
  {
    if 0.0 <= v then v.Floor else -((-v).Floor)
  }

  /** A coordinate in degrees as the integer number of 1e-7 degree units that move_to
      sends, int(deg * 1e7). The unit count never exceeds the exact value in
      magnitude and misses it by less than one unit. */
  function ScaleE7(deg: real): (r: int)
    ensures 0.0 <= deg ==> 0 <= r && r as real <= deg * 10000000.0 < r as real + 1.0
    ensures deg < 0.0 ==> r <= 0 && r as real - 1.0 < deg * 10000000.0 <= r as real
  {
    Trunc(deg * 10000000.0)
  }

  /** The COMMAND_LONG that arms the motors: MAV_CMD_COMPONENT_ARM_DISARM with param1 = 1. */
  function ArmCommand(targetSystem: int, targetComponent: int): MavMessage
  {
    CommandLong(targetSystem, targetComponent, MavCmdComponentArmDisarm, 0,
                [1.0, 0.0, 0.0, 0.0, 0.0, 0.0, 0.0])
  }

  /** The COMMAND_LONG that takes off: MAV_CMD_NAV_TAKEOFF with the altitude in param7. */
  function TakeoffCommand(targetSystem: int, targetComponent: int, altitude: real): MavMessage
  {
    CommandLong(targetSystem, targetComponent, MavCmdNavTakeoff, 0,
                [0.0, 0.0, 0.0, 0.0, 0.0, 0.0, altitude])
  }

  /** The COMMAND_LONG that triggers one image: MAV_CMD_IMAGE_START_CAPTURE with
      param1 = 0, param2 = 1, param3 = 1. */
  function CaptureCommand(targetSystem: int, targetComponent: int): MavMessage
  {
    CommandLong(targetSystem, targetComponent, MavCmdImageStartCapture, 0,
                [0.0, 1.0, 1.0, 0.0, 0.0, 0.0, 0.0])
  }

  /** The SET_MODE message for a custom mode number. */
  function SetModeMessage(targetSystem: int, modeId: int): MavMessage
  {
    SetMode(targetSystem, MavModeFlagCustomModeEnabled, modeId)
  }

  /** The MISSION_ITEM_INT that move_to means to send: a guided-mode "go to" (seq 0,
      current = 2, autocontinue = 0) in the relative-altitude integer frame. The
      encoded position lies within 1e-7 degree of the requested one and the altitude
      is passed through unchanged. */
  function WaypointItem(targetSystem: int, targetComponent: int, lat: real, lon: real, alt: real)
    : (m: MavMessage)
    ensures m.MissionItemInt? && m.seqNo == 0 && m.current == 2 && m.autocontinue == 0
    ensures m.frame == MavFrameGlobalRelativeAltInt && m.command == MavCmdNavWaypoint
    ensures -1.0 < m.x as real - lat * 10000000.0 < 1.0
    ensures -1.0 < m.y as real - lon * 10000000.0 < 1.0
    ensures m.z == alt && m.missionType == 0.0
  {
    MissionItemInt(targetSystem, targetComponent, 0, MavFrameGlobalRelativeAltInt, MavCmdNavWaypoint,
                   2, 0, [0.0, 0.0, 0.0, 0.0], ScaleE7(lat), ScaleE7(lon), alt, 0.0)
  }

  /** The MISSION_ITEM_INT that move_to's fifteen positional arguments actually fill,
      bound in the message's field order (target_system, target_component, seq, frame,
      command, current, autocontinue, param1..param4, x, y, z, mission_type): the six
      zeros take autocontinue up to x, so every later argument lands one field late. */
  function WaypointItemAsWritten(targetSystem: int, targetComponent: int, lat: real, lon: real, alt: real)
    : MavMessage
  {
    MissionItemInt(targetSystem, targetComponent, 0, MavFrameGlobalRelativeAltInt, MavCmdNavWaypoint,
                   2, 0, [0.0, 0.0, 0.0, 0.0], 0, ScaleE7(lat), ScaleE7(lon) as real, alt)
  }

  /** As written, the latitude field is always 0, the latitude goes into the longitude
      field, the longitude into the altitude field and the altitude into mission_type:
      the message differs from the intended one for every latitude at least 1e-7 degree
      away from the equator. */
  lemma WaypointItemAsWrittenShiftsFields(targetSystem: int, targetComponent: int,
                                           lat: real, lon: real, alt: real)
    ensures var written := WaypointItemAsWritten(targetSystem, targetComponent, lat, lon, alt);
            var meant := WaypointItem(targetSystem, targetComponent, lat, lon, alt);
            && written.x == 0
            && written.y == meant.x
            && written.z == meant.y as real
            && written.missionType == meant.z
            && (lat * 10000000.0 >= 1.0 || lat * 10000000.0 <= -1.0 ==> written != meant)
  {
    var meant := WaypointItem(targetSystem, targetComponent, lat, lon, alt);
    if lat * 10000000.0 >= 1.0 || lat * 10000000.0 <= -1.0 {
      assert meant.x != 0;
    }
  }

  /** The main program's start corner (37.7749, -122.4194) at 20 m: as written the
      vehicle is sent to latitude field 0 with the latitude's units in the longitude
      field, instead of x = 377749000, y = -1224194000, z = 20. */
  lemma MainStartCornerAsWritten()
    ensures WaypointItem(1, 1, 37.7749, -122.4194, 20.0).x == 377749000
    ensures WaypointItem(1, 1, 37.7749, -122.4194, 20.0).y == -1224194000
    ensures WaypointItemAsWritten(1, 1, 37.7749, -122.4194, 20.0).x == 0
    ensures WaypointItemAsWritten(1, 1, 37.7749, -122.4194, 20.0).y == 377749000
  {
  }
}
