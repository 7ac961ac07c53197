/**
 * The part of the MAVLink common message set the ROV controller speaks: message and command
 * ids, the POSITION_TARGET_TYPEMASK bits, and the three messages it sends, as records.
 * Framing, checksums and sequence numbers belong to pymavlink and are not part of this model.
 */
module Mavlink {

  // Message ids.
  const SET_MODE: nat := 11
  const COMMAND_LONG: nat := 76
  const SET_POSITION_TARGET_LOCAL_NED: nat := 84

  // MAV_CMD values carried by COMMAND_LONG.
  const MAV_CMD_CONDITION_YAW: nat := 115
  const MAV_CMD_DO_SET_SERVO: nat := 183
  const MAV_CMD_COMPONENT_ARM_DISARM: nat := 400
  const MAV_CMD_DO_GIMBAL_MANAGER_PITCHYAW: nat := 1000

  /** MAV_MODE_FLAG_CUSTOM_MODE_ENABLED, the base-mode flag that says "use custom_mode". */
  const MAV_MODE_FLAG_CUSTOM_MODE_ENABLED: nat := 1

  /** MAV_FRAME_BODY_OFFSET_NED: a setpoint relative to the vehicle's current position and heading. */
  const MAV_FRAME_BODY_OFFSET_NED: int := 9

  // POSITION_TARGET_TYPEMASK: a set bit tells the vehicle to ignore that part of the setpoint.
  const POSITION_IGNORE: bv16 := 0x0007       // X, Y, Z position (bits 0-2)
  const VELOCITY_IGNORE: bv16 := 0x0038       // VX, VY, VZ (bits 3-5)
  const ACCELERATION_IGNORE: bv16 := 0x01C0   // AX, AY, AZ (bits 6-8)
  const FORCE_SET: bv16 := 0x0200             // bit 9: acceleration fields are forces
  const YAW_IGNORE: bv16 := 0x0400            // bit 10
  const YAW_RATE_IGNORE: bv16 := 0x0800       // bit 11

  /** The messages the controller sends; numeric fields are the values handed to pymavlink. */
  datatype Msg =
    | CommandLong(targetSystem: int, targetComponent: int, command: nat, confirmation: nat,
                  params: seq<real>)
    | SetMode(targetSystem: int, baseMode: nat, customMode: int)
    | SetPositionTargetLocalNed(timeBootMs: int, targetSystem: int, targetComponent: int,
                                coordinateFrame: int, typeMask: bv16, setpoint: seq<real>,
                                yaw: real, yawRate: real)
  {
    /** The MAVLink message id of this message. */
    function Id(): nat {
      match this
      case CommandLong(_, _, _, _, _) => COMMAND_LONG
      case SetMode(_, _, _) => SET_MODE
      case SetPositionTargetLocalNed(_, _, _, _, _, _, _, _) => SET_POSITION_TARGET_LOCAL_NED
    }
  }

  /**
   * What happens on a link, in order: a message sent, or the controller blocking until the
   * vehicle reports its motors armed or disarmed.
   */
  datatype LinkEvent = Sent(msg: Msg) | MotorsArmedWait | MotorsDisarmedWait

  /** The heartbeat a listening socket waits for; the master adopts its sender as target. */
  datatype Heartbeat = Heartbeat(srcSystem: int, srcComponent: int)

  /** MavlinkError, the one exception type of the MAVLink layer. */
  datatype MavlinkError = MavlinkError(message: string)
  {
    /** str(error). */
    function ToString(): (s: string)
      ensures |s| == |"MavlinkError: "| + |message|
      ensures s[..|"MavlinkError: "|] == "MavlinkError: " && s[|"MavlinkError: "|..] == message
    {
      "MavlinkError: " + message
    }
  }

  /** Distinct errors print differently. */
  lemma ToStringInjective(a: MavlinkError, b: MavlinkError)
    requires a.ToString() == b.ToString()
    ensures a == b
  {
    assert a.message == a.ToString()[14..];
  }

  /** Python's KeyError, raised by a dictionary lookup of a missing key. */
  datatype KeyError = KeyError(key: string)
}
