/** The UR3e arm controller and the combined robot system of the WebSocket bridge
    (public/robot_bridge_advanced.py). The arm's socket is a script of `deliveries`, one per
    `sendall` on the current connection (a missing entry is a failed send), and the log of
    commands written; script commands are kept as `Command` values. */
module BridgeSystem {
  import opened Wrappers
  import opened Bytes
  import opened Modbus
  import opened OnRobot
  import opened URScript
  import opened BridgeGripper

  /** The motion parameters every move uses. */
  const Acceleration: real := 0.3
  const Velocity: real := 0.15

  /** The message the arm is sent once it is connected. */
  const GreetingText: string := "WebSocket Bridge Connected"

  /** Everything an arm object holds. */
  datatype ArmState = ArmState(connected: bool, deliveries: seq<bool>, tried: nat, sent: seq<Command>)

  /** Whether send number `k` on the connection goes through. */
  predicate Delivered(deliveries: seq<bool>, k: nat) {
    k < |deliveries| && deliveries[k]
  }

  // ---------------------------------------------------------------- specification

  /** `_send_command`: refused unless connected; a send that fails drops the connection. */
  function SendEffect(a: ArmState, cmd: Command): (bool, ArmState) {
    if !a.connected then (false, a)
    else if Delivered(a.deliveries, a.tried) then (true, a.(tried := a.tried + 1, sent := a.sent + [cmd]))
    else (false, a.(tried := a.tried + 1, connected := false))
  }

  /** `connect`: a link that comes up is greeted with a text message and reported connected
      whether or not the greeting goes through. */
  function ArmConnectEffect(a: ArmState, linkUp: bool, deliveries: seq<bool>): (bool, ArmState) {
    if !linkUp then (false, a.(connected := false))
    else (true, SendEffect(ArmState(true, deliveries, 0, []), TextMsg(GreetingText)).1)
  }

  /** The command `move_to_pose` sends: a linear move for "vertical", a joint move for any
      other move type, always at the fixed acceleration and velocity. */
  function MoveCommand(pose: PoseMap, moveType: string): (c: Command)
    requires HasPoseKeys(pose)
    ensures c.MoveL? <==> moveType == "vertical"
    ensures c.MoveL? || c.MoveJ?
    ensures c.pose == PoseVector(pose) && c.a == Acceleration && c.v == Velocity
  {
    if moveType == "vertical" then MoveL(PoseVector(pose), Acceleration, Velocity)
    else MoveJ(PoseVector(pose), Acceleration, Velocity)
  }

  /** How long `move_to_pose` waits after sending: 1.0 s for "vertical", 3.5 s for
      "clearance", 4.0 s for anything else. */
  function SettleTime(moveType: string): (t: real)
    ensures moveType == "vertical" ==> t == 1.0
    ensures moveType == "clearance" ==> t == 3.5
    ensures moveType != "vertical" && moveType != "clearance" ==> t == 4.0
  {
    if moveType == "vertical" then 1.0 else if moveType == "clearance" then 3.5 else 4.0
  }

  /** `move_to_pose`: refused unless connected; a pose missing one of the six keys raises
      (KeyError) while the command is formatted; otherwise the command is sent. */
  function PoseMoveEffect(a: ArmState, pose: PoseMap, moveType: string): (Outcome, ArmState) {
    if !a.connected then (Failed, a)
    else if !HasPoseKeys(pose) then (Raised, a)
    else
      var r := SendEffect(a, MoveCommand(pose, moveType));
      (if r.0 then Done else Failed, r.1)
  }

  /** A move completes exactly when the arm is connected, the pose has its six keys and the
      send goes through; it then has logged exactly the move command. Anything else logs
      nothing, and the connection is lost only by a send that fails. */
  lemma PoseMoveSpec(a: ArmState, pose: PoseMap, moveType: string)
    ensures var e := PoseMoveEffect(a, pose, moveType);
      && (e.0 == Done <==> a.connected && HasPoseKeys(pose) && Delivered(a.deliveries, a.tried))
      && (e.0 == Done ==> e.1.sent == a.sent + [MoveCommand(pose, moveType)])
      && (e.0 != Done ==> e.1.sent == a.sent)
      && (e.0 == Raised <==> a.connected && !HasPoseKeys(pose))
      && (e.1.connected <==> a.connected && !(HasPoseKeys(pose) && !Delivered(a.deliveries, a.tried)))
      && e.1.deliveries == a.deliveries
  {
  }

  /** Connecting starts a fresh log with the greeting when it goes through; a connection
      whose greeting fails is reported up but left disconnected. */
  lemma ArmConnectSpec(a: ArmState, linkUp: bool, deliveries: seq<bool>)
    ensures var e := ArmConnectEffect(a, linkUp, deliveries);
      && e.0 == linkUp
      && (!linkUp ==> !e.1.connected && e.1.sent == a.sent)
      && (linkUp ==> e.1.deliveries == deliveries && e.1.tried == 1
                     && e.1.connected == Delivered(deliveries, 0)
                     && e.1.sent == (if Delivered(deliveries, 0) then [TextMsg(GreetingText)] else []))
  {
  }

  // ---------------------------------------------------------------- the arm

  class URRobotArm {
    var connected: bool
    var deliveries: seq<bool>
    var tried: nat
    var sent: seq<Command>

    function State(): ArmState
      reads this
    {
      ArmState(connected, deliveries, tried, sent)
    }

    constructor ()
      ensures State() == ArmState(false, [], 0, [])
    {
      connected, deliveries, tried, sent := false, [], 0, [];
    }

    method SendCommand(cmd: Command) returns (ok: bool)
      modifies this
      ensures (ok, State()) == SendEffect(old(State()), cmd)
    {
      if !connected {
        return false;
      }
      var delivered := Delivered(deliveries, tried);
      tried := tried + 1;
      if !delivered {
        connected := false;
        return false;
      }
      sent := sent + [cmd];
      ok := true;
    }

    method Connect(linkUp: bool, newDeliveries: seq<bool>) returns (ok: bool)
      modifies this
      ensures (ok, State()) == ArmConnectEffect(old(State()), linkUp, newDeliveries)
    {
      if !linkUp {
        connected := false;
        return false;
      }
      connected, deliveries, tried, sent := true, newDeliveries, 0, [];
      var _ := SendCommand(TextMsg(GreetingText));
      ok := true;
    }

    method Disconnect()
      modifies this
      ensures State() == old(State()).(connected := false)
    {
      connected := false;
    }

    /** `move_to_pose`; `wait` is the time it sleeps once the command is sent. */
    method MoveToPose(pose: PoseMap, moveType: string) returns (o: Outcome, wait: real)
      modifies this
      ensures (o, State()) == PoseMoveEffect(old(State()), pose, moveType)
      ensures wait == if o == Done then SettleTime(moveType) else 0.0
    {
      wait := 0.0;
      if !connected {
        return Failed, wait;
      }
      var settle := SettleTime(moveType);
      if !HasPoseKeys(pose) {
        return Raised, wait;
      }
      var ok := SendCommand(MoveCommand(pose, moveType));
      if !ok {
        return Failed, wait;
      }
      o, wait := Done, settle;
    }
  }

  // ---------------------------------------------------------------- the combined system

  /** `execute_gripper` on the gripper's state: refused unless the system is connected;
      "open" and "close" move to the given width or their default, "move_to_width" needs a
      width, "stop" stops, and any other action is refused. */
  function GripperActionEffect(connected: bool, s: Info, l: Link, unit: int, action: string,
                               width: Option<int>, force: int, speed: int): (Outcome, Link)
    requires IsU16(l.tid)
  {
    if !connected then (Failed, l)
    else if action == "open" then MoveEffect(s.connected, s.limits, l, unit, width.GetOr(DefaultOpenWidth), force, speed)
    else if action == "close" then MoveEffect(s.connected, s.limits, l, unit, width.GetOr(DefaultCloseWidth), force, speed)
    else if action == "stop" then ConfigEffect(s.connected, l, unit, CommandRegister, StopCommand)
    else if action == "move_to_width" then
      if width.None? then (Failed, l) else MoveEffect(s.connected, s.limits, l, unit, width.value, force, speed)
    else (Failed, l)
  }

  /** The width the system remembers for `kind` after an action: the requested width when
      that action succeeded with a width given, otherwise what it remembered before. */
  function Remembered(last: Option<int>, kind: string, action: string, width: Option<int>, o: Outcome): (r: Option<int>)
    ensures r != last ==> action == kind && o == Done && r == width && width.Some?
    ensures action == kind && o == Done && width.Some? ==> r == width
  {
    if action == kind && o == Done && width.Some? then width else last
  }

  /** Actions the system refuses touch nothing on the gripper's link; "open", "close" and
      "move_to_width" are moves of the gripper to the requested width or the action's
      default width. */
  lemma GripperActionSpec(connected: bool, s: Info, l: Link, unit: int, action: string,
                          width: Option<int>, force: int, speed: int)
    requires IsU16(l.tid)
    ensures var e := GripperActionEffect(connected, s, l, unit, action, width, force, speed);
      && ((!connected || action !in {"open", "close", "stop", "move_to_width"}
           || (action == "move_to_width" && width.None?)) ==> e == (Failed, l))
      && (connected && action == "open" ==>
            e == MoveEffect(s.connected, s.limits, l, unit, width.GetOr(DefaultOpenWidth), force, speed))
      && (connected && action == "close" ==>
            e == MoveEffect(s.connected, s.limits, l, unit, width.GetOr(DefaultCloseWidth), force, speed))
      && (connected && action == "move_to_width" && width.Some? ==>
            e == MoveEffect(s.connected, s.limits, l, unit, width.value, force, speed))
      && (connected && action == "stop" ==>
            e == ConfigEffect(s.connected, l, unit, CommandRegister, StopCommand))
  {
  }

  datatype SystemStatus = SystemStatus(connected: bool, armConnected: bool, gripper: GripperStatus,
                                       lastOpenWidth: Option<int>, lastCloseWidth: Option<int>)

  class RobotSystem {
    const arm: URRobotArm
    const gripper: OnRobotGripper
    var connected: bool
    var lastOpenWidth: Option<int>
    var lastCloseWidth: Option<int>

    ghost predicate Valid()
      reads this, gripper
    {
      gripper.Valid()
    }

    constructor ()
      ensures Valid() && fresh(arm) && fresh(gripper)
      ensures !connected && lastOpenWidth.None? && lastCloseWidth.None?
      ensures arm.State() == ArmState(false, [], 0, [])
      ensures gripper.unitId == DefaultUnitId && gripper.LinkState() == Link(1, [], 0, [])
      ensures gripper.State() == Info(false, None, None, None, false, false)
    {
      arm := new URRobotArm();
      gripper := new OnRobotGripper(DefaultUnitId);
      connected := false;
      lastOpenWidth := None;
      lastCloseWidth := None;
    }

    /** `connect`: the gripper first, then the arm; a failure of either leaves the system
        flag as it was. */
    method Connect(gripperUp: bool, replies: seq<Reply>, armUp: bool, armDeliveries: seq<bool>)
      returns (ok: bool)
      requires Valid() && AllReplyBytes(replies)
      modifies this, arm, gripper
      ensures Valid() && gripper.unitId == old(gripper.unitId)
      ensures ok == (gripperUp && armUp)
      ensures connected == (ok || old(connected))
      ensures lastOpenWidth == old(lastOpenWidth) && lastCloseWidth == old(lastCloseWidth)
      ensures !gripperUp ==> gripper.State() == old(gripper.State()).(connected := false)
                             && gripper.LinkState() == old(gripper.LinkState())
                             && arm.State() == old(arm.State())
      ensures gripperUp ==>
        (gripper.State(), gripper.LinkState())
          == ConnectEffect(old(gripper.State()), old(gripper.transactionId), gripper.unitId, replies)
        && (ok, arm.State()) == ArmConnectEffect(old(arm.State()), armUp, armDeliveries)
    {
      ok := gripper.Connect(gripperUp, replies);
      if !ok {
        return;
      }
      ok := arm.Connect(armUp, armDeliveries);
      if !ok {
        return;
      }
      connected := true;
    }

    method Disconnect()
      requires Valid()
      modifies this, arm, gripper
      ensures Valid() && gripper.unitId == old(gripper.unitId)
      ensures !connected && lastOpenWidth == old(lastOpenWidth) && lastCloseWidth == old(lastCloseWidth)
      ensures arm.State() == old(arm.State()).(connected := false)
      ensures gripper.State() == old(gripper.State()).(connected := false)
      ensures gripper.LinkState() == old(gripper.LinkState())
    {
      arm.Disconnect();
      gripper.Disconnect();
      connected := false;
    }

    method ExecuteMove(pose: PoseMap, moveType: string) returns (o: Outcome)
      requires Valid()
      modifies arm
      ensures !connected ==> o == Failed && arm.State() == old(arm.State())
      ensures connected ==> (o, arm.State()) == PoseMoveEffect(old(arm.State()), pose, moveType)
    {
      if !connected {
        return Failed;
      }
      var wait;
      o, wait := arm.MoveToPose(pose, moveType);
    }

    method ExecuteGripper(action: string, width: Option<int>, force: int, speed: int) returns (o: Outcome)
      requires Valid()
      modifies this, gripper
      ensures Valid() && gripper.unitId == old(gripper.unitId) && connected == old(connected)
      ensures gripper.State() == old(gripper.State())
      ensures (o, gripper.LinkState()) == GripperActionEffect(old(connected), old(gripper.State()),
                                           old(gripper.LinkState()), gripper.unitId, action, width, force, speed)
      ensures lastOpenWidth == Remembered(old(lastOpenWidth), "open", action, width, o)
      ensures lastCloseWidth == Remembered(old(lastCloseWidth), "close", action, width, o)
    {
      if !connected {
        return Failed;
      }
      if action == "open" {
        o := gripper.Open(width, force, speed);
        if o == Done && width.Some? {
          lastOpenWidth := width;
        }
      } else if action == "close" {
        o := gripper.Close(width, force, speed);
        if o == Done && width.Some? {
          lastCloseWidth := width;
        }
      } else if action == "stop" {
        o := gripper.Stop();
      } else if action == "move_to_width" {
        if width.None? {
          return Failed;
        }
        o := gripper.MoveToWidth(width.value, force, speed);
      } else {
        o := Failed;
      }
    }

    method GetStatus() returns (r: SystemStatus)
      requires Valid()
      modifies gripper
      ensures Valid() && gripper.unitId == old(gripper.unitId) && gripper.State() == old(gripper.State())
      ensures var e := StatusEffect(old(gripper.State()), old(gripper.LinkState()), gripper.unitId);
        r == SystemStatus(connected, arm.connected, e.0, lastOpenWidth, lastCloseWidth)
        && gripper.LinkState() == e.1
    {
      var g := gripper.GetStatus();
      r := SystemStatus(connected, arm.connected, g, lastOpenWidth, lastCloseWidth);
    }
  }
}
