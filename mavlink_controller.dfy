/**
 * MavlinkController: turns rover commands (arm, flight mode, setpoints, yaw, camera pitch,
 * lights) into MAVLink messages sent over an established MavlinkSocket. Each send appends to
 * the link log of the master the controller captured when it was built.
 */
module Controller {
  import opened Wrappers
  import opened Mavlink
  import opened Socket

  /** The order of motion a setpoint fixes: position (0), velocity (1) or acceleration (2). */
  datatype Motion = Position | Velocity | Acceleration
  {
    function Order(): (n: nat)
      ensures n <= 2
    {
      match this
      case Position => 0
      case Velocity => 1
      case Acceleration => 2
    }
  }

  /** The motion of the given order. */
  function MotionOfOrder(order: nat): (m: Motion)
    requires order <= 2
    ensures m.Order() == order
  {
    if order == 0 then Position else if order == 1 then Velocity else Acceleration
  }

  /** What the operator asks of the rover; each becomes one MAVLink message. */
  datatype Intent =
    | Arm
    | Disarm
    | SetFlightMode(customMode: int)
    | Setpoint(motion: Motion, x: real, y: real, z: real, coordFrame: int)
    | SetYaw(yaw: real, speed: real, direction: real, relative: bool)
    | SetCameraPitch(pitch: real, speed: real)
    | Lights(on: bool)

  /** The type masks of a position, velocity and acceleration setpoint, in that order. */
  const TYPE_MASKS: seq<bv16> := [3576, 3527, 3135]

  /** The ignore bits of the triplet a motion sets. */
  function TripletIgnore(motion: Motion): bv16 {
    match motion
    case Position => POSITION_IGNORE
    case Velocity => VELOCITY_IGNORE
    case Acceleration => ACCELERATION_IGNORE
  }

  /**
   * The POSITION_TARGET_TYPEMASK of a setpoint: the table entry of its order. The triplet the
   * motion sets is never ignored, and the force bit is clear, so accelerations stay accelerations.
   */
  function TypeMask(motion: Motion): (m: bv16)
    ensures m & TripletIgnore(motion) == 0
    ensures m & FORCE_SET == 0
  {
    TYPE_MASKS[motion.Order()]
  }

  /**
   * Each type mask ignores every position, velocity, acceleration, yaw and yaw-rate field
   * except the triplet its motion sets.
   */
  lemma TypeMaskBits(motion: Motion)
    ensures TypeMask(motion)
      == (POSITION_IGNORE | VELOCITY_IGNORE | ACCELERATION_IGNORE | YAW_IGNORE | YAW_RATE_IGNORE)
         & !TripletIgnore(motion)
  {
    match motion
    case Position =>
    case Velocity =>
    case Acceleration =>
  }

  /**
   * The nine setpoint values pos ‖ vel ‖ acc: the vector lands in exactly the triplet of the
   * motion, and the other two triplets are zero.
   */
  function SetpointValues(vect: seq<real>, motion: Motion): (v: seq<real>)
    requires |vect| == 3
    ensures |v| == 9
    ensures forall i :: 0 <= i < 9 ==> v[i] == if i / 3 == motion.Order() then vect[i % 3] else 0.0
  {
    var pos := if motion == Position then vect else [0.0, 0.0, 0.0];
    var vel := if motion == Velocity then vect else [0.0, 0.0, 0.0];
    var acc := if motion == Acceleration then vect else [0.0, 0.0, 0.0];
    pos + vel + acc
  }

  /** The message an intent becomes, addressed to the given target, stamped with timeBootMs. */
  function Encode(i: Intent, targetSystem: int, targetComponent: int, timeBootMs: int): (m: Msg)
    ensures m.Id() == (if i.SetFlightMode? then SET_MODE
                       else if i.Setpoint? then SET_POSITION_TARGET_LOCAL_NED
                       else COMMAND_LONG)
    ensures m.targetSystem == targetSystem
    ensures m.CommandLong? ==>
      |m.params| == 7 && m.confirmation == 0 && m.targetComponent == targetComponent
    ensures m.SetMode? ==> m.baseMode == MAV_MODE_FLAG_CUSTOM_MODE_ENABLED
    ensures m.SetPositionTargetLocalNed? ==>
      && m.timeBootMs == timeBootMs && m.targetComponent == targetComponent
      && |m.setpoint| == 9 && m.yaw == 0.0 && m.yawRate == 0.0
    ensures i.Setpoint? ==>
      && m.SetPositionTargetLocalNed?
      && m.typeMask == TypeMask(i.motion) && m.coordinateFrame == i.coordFrame
      && m.setpoint == SetpointValues([i.x, i.y, i.z], i.motion)
  {
    match i
    case Arm =>
      CommandLong(targetSystem, targetComponent, MAV_CMD_COMPONENT_ARM_DISARM, 0,
                  [1.0, 0.0, 0.0, 0.0, 0.0, 0.0, 0.0])
    case Disarm =>
      CommandLong(targetSystem, targetComponent, MAV_CMD_COMPONENT_ARM_DISARM, 0,
                  [0.0, 0.0, 0.0, 0.0, 0.0, 0.0, 0.0])
    case SetFlightMode(customMode) =>
      SetMode(targetSystem, MAV_MODE_FLAG_CUSTOM_MODE_ENABLED, customMode)
    case Setpoint(motion, x, y, z, coordFrame) =>
      SetPositionTargetLocalNed(timeBootMs, targetSystem, targetComponent, coordFrame,
                                TypeMask(motion), SetpointValues([x, y, z], motion), 0.0, 0.0)
    case SetYaw(yaw, speed, direction, relative) =>
      CommandLong(targetSystem, targetComponent, MAV_CMD_CONDITION_YAW, 0,
                  [yaw, speed, direction, if relative then 1.0 else 0.0, 0.0, 0.0, 0.0])
    case SetCameraPitch(pitch, speed) =>
      CommandLong(targetSystem, targetComponent, MAV_CMD_DO_GIMBAL_MANAGER_PITCHYAW, 0,
                  [pitch, 0.0, speed, 0.0, 32.0, 0.0, 0.0])
    case Lights(on) =>
      CommandLong(targetSystem, targetComponent, MAV_CMD_DO_SET_SERVO, 0,
                  [10.0, if on then 1500.0 else 0.0, 0.0, 0.0, 0.0, 0.0, 0.0])
  }

  /** The motion whose type mask is mask, if any. */
  function MotionOfMask(mask: bv16): Option<Motion> {
    if mask == TypeMask(Position) then Some(Position)
    else if mask == TypeMask(Velocity) then Some(Velocity)
    else if mask == TypeMask(Acceleration) then Some(Acceleration)
    else None
  }

  /** The intent a COMMAND_LONG with these command id and params carries, if any. */
  function DecodeCommand(command: nat, p: seq<real>): Option<Intent>
    requires |p| == 7
  {
    if command == MAV_CMD_COMPONENT_ARM_DISARM && (p[0] == 1.0 || p[0] == 0.0)
       && p[1] == 0.0 && p[2] == 0.0 && p[3] == 0.0 && p[4] == 0.0 && p[5] == 0.0 && p[6] == 0.0
    then
      Some(if p[0] == 1.0 then Arm else Disarm)
    else if command == MAV_CMD_CONDITION_YAW && (p[3] == 1.0 || p[3] == 0.0)
            && p[4] == 0.0 && p[5] == 0.0 && p[6] == 0.0 then
      Some(SetYaw(p[0], p[1], p[2], p[3] == 1.0))
    else if command == MAV_CMD_DO_GIMBAL_MANAGER_PITCHYAW
            && p[1] == 0.0 && p[3] == 0.0 && p[4] == 32.0 && p[5] == 0.0 && p[6] == 0.0 then
      Some(SetCameraPitch(p[0], p[2]))
    else if command == MAV_CMD_DO_SET_SERVO && p[0] == 10.0 && (p[1] == 1500.0 || p[1] == 0.0)
            && p[2] == 0.0 && p[3] == 0.0 && p[4] == 0.0 && p[5] == 0.0 && p[6] == 0.0 then
      Some(Lights(p[1] == 1500.0))
    else None
  }

  /** The intent a setpoint with this frame, mask and values carries, if any. */
  function DecodeSetpoint(coordFrame: int, mask: bv16, v: seq<real>): Option<Intent>
    requires |v| == 9
  {
    match MotionOfMask(mask)
    case None => None
    case Some(motion) =>
      var k := 3 * motion.Order();
      if v == SetpointValues(v[k..k + 3], motion) then
        Some(Setpoint(motion, v[k], v[k + 1], v[k + 2], coordFrame))
      else None
  }

  /** The intent a message carries, read back from its fields; None for any other message. */
  function Decode(m: Msg): Option<Intent> {
    match m
    case CommandLong(_, _, command, confirmation, p) =>
      if confirmation == 0 && |p| == 7 then DecodeCommand(command, p) else None
    case SetMode(_, baseMode, customMode) =>
      if baseMode == MAV_MODE_FLAG_CUSTOM_MODE_ENABLED then Some(SetFlightMode(customMode))
      else None
    case SetPositionTargetLocalNed(_, _, _, coordFrame, mask, v, yaw, yawRate) =>
      if |v| == 9 && yaw == 0.0 && yawRate == 0.0 then DecodeSetpoint(coordFrame, mask, v)
      else None
  }

  /** The target component a message is addressed to (SET_MODE names none). */
  function ComponentOf(m: Msg): int {
    if m.SetMode? then 0 else m.targetComponent
  }

  /** The boot time a message carries (only setpoints carry one). */
  function TimeOf(m: Msg): int {
    if m.SetPositionTargetLocalNed? then m.timeBootMs else 0
  }

  /** Every message the controller sends can be read back as the intent it was made from. */
  lemma DecodeEncode(i: Intent, targetSystem: int, targetComponent: int, timeBootMs: int)
    ensures Decode(Encode(i, targetSystem, targetComponent, timeBootMs)) == Some(i)
  {
    var m := Encode(i, targetSystem, targetComponent, timeBootMs);
    match i
    case Setpoint(motion, x, y, z, coordFrame) =>
      DecodeSetpointValues(motion, x, y, z, coordFrame);
    case SetFlightMode(_) =>
    case _ =>
      assert DecodeCommand(m.command, m.params) == Some(i);
  }

  /** A setpoint message decodes to its motion, vector and frame. */
  lemma DecodeSetpointValues(motion: Motion, x: real, y: real, z: real, coordFrame: int)
    ensures DecodeSetpoint(coordFrame, TypeMask(motion), SetpointValues([x, y, z], motion))
            == Some(Setpoint(motion, x, y, z, coordFrame))
  {
    var v := SetpointValues([x, y, z], motion);
    var k := 3 * motion.Order();
    assert v[k..k + 3] == [x, y, z];
    assert MotionOfMask(TypeMask(motion)) == Some(motion);
  }

  /** Every message Decode accepts is exactly the one its intent encodes to. */
  lemma EncodeDecode(m: Msg, i: Intent)
    requires Decode(m) == Some(i)
    ensures Encode(i, m.targetSystem, ComponentOf(m), TimeOf(m)) == m
  {
    match m
    case CommandLong(_, _, command, _, p) =>
      CommandParamsOfIntent(command, p, i);
    case SetMode(_, _, _) =>
    case SetPositionTargetLocalNed(t, ts, tc, coordFrame, mask, v, _, _) =>
      SetpointOfValues(coordFrame, mask, v, i, t, ts, tc);
  }

  /** A setpoint that decodes carries exactly the mask and values its intent sends. */
  lemma SetpointOfValues(coordFrame: int, mask: bv16, v: seq<real>, i: Intent,
                         timeBootMs: int, targetSystem: int, targetComponent: int)
    requires |v| == 9 && DecodeSetpoint(coordFrame, mask, v) == Some(i)
    ensures Encode(i, targetSystem, targetComponent, timeBootMs)
            == SetPositionTargetLocalNed(timeBootMs, targetSystem, targetComponent, coordFrame,
                                         mask, v, 0.0, 0.0)
  {
    var motion := MotionOfMask(mask).value;
    assert TypeMask(motion) == mask;
    var k := 3 * motion.Order();
    assert [v[k], v[k + 1], v[k + 2]] == v[k..k + 3];
  }

  /** A COMMAND_LONG that decodes carries exactly the command id and params its intent sends. */
  lemma CommandParamsOfIntent(command: nat, p: seq<real>, i: Intent)
    requires |p| == 7 && DecodeCommand(command, p) == Some(i)
    ensures Encode(i, 0, 0, 0).CommandLong?
    ensures Encode(i, 0, 0, 0).command == command && Encode(i, 0, 0, 0).params == p
  {
    assert p == [p[0], p[1], p[2], p[3], p[4], p[5], p[6]];
  }

  /** Distinct intents give distinct messages: the encoding loses nothing. */
  lemma EncodeInjective(i: Intent, j: Intent, targetSystem: int, targetComponent: int, timeBootMs: int)
    requires Encode(i, targetSystem, targetComponent, timeBootMs)
             == Encode(j, targetSystem, targetComponent, timeBootMs)
    ensures i == j
  {
    DecodeEncode(i, targetSystem, targetComponent, timeBootMs);
    DecodeEncode(j, targetSystem, targetComponent, timeBootMs);
  }

  /** The three type masks are pairwise distinct, so a mask names its motion. */
  lemma TypeMaskNamesMotion(a: Motion, b: Motion)
    requires TypeMask(a) == TypeMask(b)
    ensures a == b
  {
  }

  class MavlinkController {
    /** The socket the controller was built on; target ids are read from it at each send. */
    const connection: MavlinkSocket
    /** The socket's master when the controller was built; every send goes out on it. */
    const master: Master

    ghost predicate Valid()
      reads this, connection
    {
      connection.Valid() && connection.established
    }

    /** The message an intent becomes when sent now, to the connection's current target. */
    function Message(i: Intent, timeBootMs: int): Msg
      requires Valid()
      reads this, connection, connection.master
    {
      Encode(i, connection.TargetSystem().value, connection.TargetComponent().value, timeBootMs)
    }

    /** A controller over an established connection, sending on that connection's master. */
    constructor (connection: MavlinkSocket)
      requires connection.Valid() && connection.established
      ensures Valid()
      ensures this.connection == connection && this.master == connection.master
    {
      this.connection := connection;
      this.master := connection.master;
    }

    /**
     * MavlinkController(connection): a controller, or the error raised when the connection
     * has not been established; nothing is allocated or sent on the error path.
     */
    static method Create(connection: MavlinkSocket) returns (r: Result<MavlinkController, MavlinkError>)
      requires connection.Valid()
      ensures r.Failure? <==> !connection.established
      ensures r.Failure? ==> r.error == MavlinkError("Provided connection hasn't been established!")
      ensures r.Success? ==>
        && fresh(r.value) && r.value.Valid()
        && r.value.connection == connection && r.value.master == connection.master
    {
      if !connection.established {
        return Failure(MavlinkError("Provided connection hasn't been established!"));
      }
      var c := new MavlinkController(connection);
      r := Success(c);
    }

    /**
     * _send_long_command: one COMMAND_LONG with the connection's target ids, confirmation 0 and
     * the seven params in order; any other number of params raises and sends nothing.
     */
    method SendLongCommand(commandId: nat, params: seq<real>) returns (r: Outcome<MavlinkError>)
      requires Valid()
      modifies master`log
      ensures |params| != 7 ==>
        r == Fail(MavlinkError("Long command requires seven parameters!")) && master.log == old(master.log)
      ensures |params| == 7 ==>
        && r == Pass
        && master.log == old(master.log) + [Sent(CommandLong(connection.TargetSystem().value,
                                                             connection.TargetComponent().value,
                                                             commandId, 0, params))]
    {
      if |params| != 7 {
        return Fail(MavlinkError("Long command requires seven parameters!"));
      }
      master.log := master.log + [Sent(CommandLong(connection.TargetSystem().value,
                                                   connection.TargetComponent().value,
                                                   commandId, 0, params))];
      r := Pass;
    }

    /** arm(wait): the arm command, then, when wait is set, the wait for armed motors. */
    method Arm(wait: bool := true)
      requires Valid()
      modifies master`log
      ensures master.log == old(master.log) + [Sent(Message(Intent.Arm, 0))]
                            + (if wait then [MotorsArmedWait] else [])
    {
      var _ := SendLongCommand(MAV_CMD_COMPONENT_ARM_DISARM, [1.0, 0.0, 0.0, 0.0, 0.0, 0.0, 0.0]);
      if wait {
        master.log := master.log + [MotorsArmedWait];
      }
    }

    /** disarm(wait): the disarm command, then, when wait is set, the wait for disarmed motors. */
    method Disarm(wait: bool := true)
      requires Valid()
      modifies master`log
      ensures master.log == old(master.log) + [Sent(Message(Intent.Disarm, 0))]
                            + (if wait then [MotorsDisarmedWait] else [])
    {
      var _ := SendLongCommand(MAV_CMD_COMPONENT_ARM_DISARM, [0.0, 0.0, 0.0, 0.0, 0.0, 0.0, 0.0]);
      if wait {
        master.log := master.log + [MotorsDisarmedWait];
      }
    }

    /**
     * set_mode(mode): look the mode's custom-mode number up in the vehicle's mode mapping and
     * send SET_MODE with it; an unmapped name raises KeyError before anything is sent.
     */
    method SetMode(mode: string, modeMapping: map<string, int>) returns (r: Outcome<KeyError>)
      requires Valid()
      modifies master`log
      ensures mode !in modeMapping ==> r == Fail(KeyError(mode)) && master.log == old(master.log)
      ensures mode in modeMapping ==>
        && r == Pass
        && master.log == old(master.log) + [Sent(Message(SetFlightMode(modeMapping[mode]), 0))]
    {
      if mode !in modeMapping {
        return Fail(KeyError(mode));
      }
      var modeId := modeMapping[mode];
      master.log := master.log + [Sent(Msg.SetMode(connection.TargetSystem().value,
                                                   MAV_MODE_FLAG_CUSTOM_MODE_ENABLED, modeId))];
      r := Pass;
    }

    /**
     * _set_position_target_local_ned: one setpoint stamped with the connection's age in
     * milliseconds at clock reading now, the vector in the triplet of the given order.
     */
    method SetPositionTargetLocalNed(now: int, vect: seq<real>, order: nat := 0,
                                     coordFrame: int := MAV_FRAME_BODY_OFFSET_NED)
      requires Valid() && |vect| == 3 && order <= 2
      modifies master`log
      ensures master.log == old(master.log)
        + [Sent(Message(Setpoint(MotionOfOrder(order), vect[0], vect[1], vect[2], coordFrame),
                        connection.AgeOfConnection(now).value))]
    {
      var typeMask := TYPE_MASKS[order];
      var pos := if order == 0 then vect else [0.0, 0.0, 0.0];
      var vel := if order == 1 then vect else [0.0, 0.0, 0.0];
      var acc := if order == 2 then vect else [0.0, 0.0, 0.0];
      var params := pos + vel + acc;
      var motion := MotionOfOrder(order);
      assert vect == [vect[0], vect[1], vect[2]];
      assert params == SetpointValues([vect[0], vect[1], vect[2]], motion);
      master.log := master.log
        + [Sent(Msg.SetPositionTargetLocalNed(connection.AgeOfConnection(now).value,
                                          connection.TargetSystem().value,
                                          connection.TargetComponent().value,
                                          coordFrame, typeMask, params, 0.0, 0.0))];
    }

    /** set_position: move by (px, py, pz) from the current position (order 0, body frame). */
    method SetPosition(now: int, px: real, py: real, pz: real)
      requires Valid()
      modifies master`log
      ensures master.log == old(master.log)
        + [Sent(Message(Setpoint(Position, px, py, pz, MAV_FRAME_BODY_OFFSET_NED),
                        connection.AgeOfConnection(now).value))]
    {
      SetPositionTargetLocalNed(now, [px, py, pz]);
    }

    /** set_velocity: move at (vx, vy, vz) m/s (order 1, body frame). */
    method SetVelocity(now: int, vx: real, vy: real, vz: real)
      requires Valid()
      modifies master`log
      ensures master.log == old(master.log)
        + [Sent(Message(Setpoint(Velocity, vx, vy, vz, MAV_FRAME_BODY_OFFSET_NED),
                        connection.AgeOfConnection(now).value))]
    {
      SetPositionTargetLocalNed(now, [vx, vy, vz], order := 1);
    }

    /** set_acceleration: accelerate at (ax, ay, az) m/s² (order 2, body frame). */
    method SetAcceleration(now: int, ax: real, ay: real, az: real)
      requires Valid()
      modifies master`log
      ensures master.log == old(master.log)
        + [Sent(Message(Setpoint(Acceleration, ax, ay, az, MAV_FRAME_BODY_OFFSET_NED),
                        connection.AgeOfConnection(now).value))]
    {
      SetPositionTargetLocalNed(now, [ax, ay, az], order := 2);
    }

    /** set_yaw: turn to (or by, when relative) yaw at speed, in the given direction. */
    method SetYaw(yaw: real, speed: real, direction: real := 0.0, relative: bool := true)
      requires Valid()
      modifies master`log
      ensures master.log == old(master.log)
        + [Sent(Message(Intent.SetYaw(yaw, speed, direction, relative), 0))]
    {
      var _ := SendLongCommand(MAV_CMD_CONDITION_YAW,
                               [yaw, speed, direction, if relative then 1.0 else 0.0, 0.0, 0.0, 0.0]);
    }

    /** set_camera_pitch: tilt the gimbal to pitch at speed; 32 in param5 is the flags slot. */
    method SetCameraPitch(pitch: real, speed: real)
      requires Valid()
      modifies master`log
      ensures master.log == old(master.log) + [Sent(Message(Intent.SetCameraPitch(pitch, speed), 0))]
    {
      var _ := SendLongCommand(MAV_CMD_DO_GIMBAL_MANAGER_PITCHYAW,
                               [pitch, 0.0, speed, 0.0, 32.0, 0.0, 0.0]);
    }

    /** lights: set servo 10 to PWM 1500 (on) or 0 (off). */
    method Lights(on: bool)
      requires Valid()
      modifies master`log
      ensures master.log == old(master.log) + [Sent(Message(Intent.Lights(on), 0))]
    {
      var pwmVal := if on then 1500.0 else 0.0;
      var _ := SendLongCommand(MAV_CMD_DO_SET_SERVO, [10.0, pwmVal, 0.0, 0.0, 0.0, 0.0, 0.0]);
    }
  }
}
