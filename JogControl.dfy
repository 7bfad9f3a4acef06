/** The keyboard jog script (robotkeyboardcontrol.py): key presses and releases update a
    six-axis velocity vector in place, a control loop sends a `speedl` or `stopl` only when
    the vector has changed, pose keys start a move to a saved pose that a movement key
    cancels, and gripper keys run a command unless one is already running. The script's
    global variables are the fields of `JogGlobals`; the threads are the methods that the
    listener and the loop call one at a time (the sleeps between are not modelled). */
module JogControl {
  import opened Wrappers
  import opened Bytes
  import opened OnRobot
  import opened URScript
  import opened KeyboardGripper
  import opened Text

  const MaxLinSpeed: real := 0.05
  const MaxRotSpeed: real := 0.3
  const Acceleration: real := 0.2
  const SpeedLTime: real := 10.0
  const StopAcceleration: real := 0.5
  const PoseAcceleration: real := 0.3
  const PoseVelocity: real := 0.15
  /** The tolerance of `velocities_equal` and of the "any axis moving" test. */
  const Eps: real := 0.0001

  const GreetingText: string := "Keyboard jog connected"

  // ---------------------------------------------------------------- keys

  datatype KeyAction = Jog(axis: int, direction: int) | GripperKey(command: string) | PoseKey(name: string)

  /** `KEY_MAP`. */
  function KeyMap(c: char): (r: Option<KeyAction>)
    ensures r.Some? && r.value.Jog? <==> c in MovementKeys
    ensures r.Some? && r.value.Jog? ==> 0 <= r.value.axis < 6 && (r.value.direction == 1 || r.value.direction == -1)
    ensures r.Some? && r.value.GripperKey? <==> c in "ghy"
    ensures r.Some? && r.value.PoseKey? <==> '1' <= c <= '8'
  {
    match c
    case 'w' => Some(Jog(0, 1))   case 's' => Some(Jog(0, -1))
    case 'a' => Some(Jog(1, 1))   case 'd' => Some(Jog(1, -1))
    case 'q' => Some(Jog(2, 1))   case 'e' => Some(Jog(2, -1))
    case 'i' => Some(Jog(3, 1))   case 'k' => Some(Jog(3, -1))
    case 'j' => Some(Jog(4, 1))   case 'l' => Some(Jog(4, -1))
    case 'u' => Some(Jog(5, 1))   case 'o' => Some(Jog(5, -1))
    case 'g' => Some(GripperKey("close"))
    case 'h' => Some(GripperKey("open"))
    case 'y' => Some(GripperKey("stop"))
    case '1' => Some(PoseKey("pose1"))   case '2' => Some(PoseKey("pose2"))
    case '3' => Some(PoseKey("pose3"))   case '4' => Some(PoseKey("pose4"))
    case '5' => Some(PoseKey("pose5"))   case '6' => Some(PoseKey("pose6"))
    case '7' => Some(PoseKey("home"))    case '8' => Some(PoseKey("drop"))
    case _ => None
  }

  /** The keys that cancel a pose move. */
  const MovementKeys: set<char> := {'w', 's', 'a', 'd', 'q', 'e', 'i', 'k', 'j', 'l', 'u', 'o'}

  /** A key event: a key with a character, Esc, or another special key. */
  datatype Key = Char(c: char) | Esc | Special

  /** The velocity a movement key asks for on its axis: the linear speed for the three
      position axes, the rotational speed for the three rotation axes, with the key's sign. */
  function AxisSpeed(axis: int, direction: int): (r: real)
    ensures 0 <= axis < 3 ==> r == direction as real * MaxLinSpeed
    ensures 3 <= axis ==> r == direction as real * MaxRotSpeed
  {
    direction as real * (if axis < 3 then MaxLinSpeed else MaxRotSpeed)
  }

  /** What a key press sets off besides the velocity: a gripper command thread, a pose move
      thread, a pose key refused during a pose move, or the end of the listener (Esc). */
  datatype PressEffect = NoEffect | StartGripper(command: string) | StartPoseMove(key: char) | PoseMoveRefused | StopListener

  /** What `on_press` does: the thread it starts, the axis velocity it sets, and whether it
      cancels the pose move in progress. */
  datatype Press = Press(effect: PressEffect, axisSet: Option<(int, real)>, cancel: bool)

  function PressOf(key: Key, poseMoving: bool): (r: Press)
    // a movement key during a pose move cancels it and sets its axis, and nothing else
    ensures key.Char? && poseMoving && Lower(key.c) in MovementKeys ==>
              var a := KeyMap(Lower(key.c)).value;
              r == Press(NoEffect, Some((a.axis, AxisSpeed(a.axis, a.direction))), true)
    // otherwise nothing is cancelled, and only a movement key sets a velocity
    ensures r.cancel <==> key.Char? && poseMoving && Lower(key.c) in MovementKeys
    ensures r.axisSet.Some? <==> key.Char? && Lower(key.c) in MovementKeys
    ensures r.axisSet.Some? ==> var a := KeyMap(Lower(key.c)).value;
              r.axisSet.value == (a.axis, AxisSpeed(a.axis, a.direction)) && 0 <= a.axis < 6
    // a pose key during a pose move is refused, otherwise it starts one
    ensures key.Char? && '1' <= Lower(key.c) <= '8' ==>
              r.effect == if poseMoving then PoseMoveRefused else StartPoseMove(Lower(key.c))
    ensures r.effect.StartGripper? <==> key.Char? && Lower(key.c) in "ghy"
    ensures r.effect.StartGripper? ==> r.effect.command == KeyMap(Lower(key.c)).value.command
    ensures r.effect == StopListener <==> key == Esc
  {
    match key
    case Esc => Press(StopListener, None, false)
    case Special => Press(NoEffect, None, false)
    case Char(ch) =>
      var k := Lower(ch);
      var action := KeyMap(k);
      if poseMoving && k in MovementKeys then
        Press(NoEffect, Some((action.value.axis, AxisSpeed(action.value.axis, action.value.direction))), true)
      else if action.None? then Press(NoEffect, None, false)
      else
        match action.value
        case GripperKey(command) => Press(StartGripper(command), None, false)
        case PoseKey(_) => Press(if poseMoving then PoseMoveRefused else StartPoseMove(k), None, false)
        case Jog(axis, direction) => Press(NoEffect, Some((axis, AxisSpeed(axis, direction))), false)
  }

  /** The axis `on_release` zeroes: only a movement key's. */
  function ReleasedAxis(key: Key): (r: Option<int>)
    ensures r.Some? <==> key.Char? && Lower(key.c) in MovementKeys
    ensures r.Some? ==> 0 <= r.value < 6 && r.value == KeyMap(Lower(key.c)).value.axis
  {
    match key
    case Char(ch) =>
      var action := KeyMap(Lower(ch));
      if action.Some? && action.value.Jog? then Some(action.value.axis) else None
    case _ => None
  }

  // ---------------------------------------------------------------- the loop's decision

  function Abs(x: real): real {
    if x < 0.0 then -x else x
  }

  /** Two axis velocities within the tolerance of each other. */
  predicate Close(a: real, b: real) {
    Abs(a - b) < Eps
  }

  /** `velocities_equal`: every pair `zip` forms is within the tolerance. */
  predicate VelocitiesEqual(v1: seq<real>, v2: seq<real>) {
    forall i :: 0 <= i < |v1| && i < |v2| ==> Close(v1[i], v2[i])
  }

  /** Some axis is moving by more than the tolerance. */
  predicate AnyMoving(v: seq<real>) {
    exists i :: 0 <= i < |v| && Abs(v[i]) > Eps
  }

  /** The command one pass of the loop sends: nothing during a pose move or when the vector
      equals the one last sent; otherwise `speedl` with it when an axis moves, else `stopl`. */
  function LoopCommand(poseMoving: bool, v: seq<real>, last: seq<real>): (c: Option<Command>)
    ensures c.Some? <==> !poseMoving && !VelocitiesEqual(v, last)
    ensures c.Some? ==> (c.value.SpeedL? <==> AnyMoving(v))
    ensures c.Some? && c.value.SpeedL? ==> c.value == SpeedL(v, Acceleration, SpeedLTime)
    ensures c.Some? && !c.value.SpeedL? ==> c.value == StopL(StopAcceleration)
  {
    if poseMoving || VelocitiesEqual(v, last) then None
    else if AnyMoving(v) then Some(SpeedL(v, Acceleration, SpeedLTime))
    else Some(StopL(StopAcceleration))
  }

  /** After a pass that sent a command, a pass with the vector unchanged sends nothing, and
      a vector differing by at least the tolerance on an axis is always sent. */
  lemma SendOnlyOnChange(v: seq<real>, w: seq<real>, i: int)
    requires |v| == |w| && 0 <= i < |v|
    ensures LoopCommand(false, v, v).None?
    ensures Abs(v[i] - w[i]) >= Eps ==> LoopCommand(false, v, w).Some?
  {
    if Abs(v[i] - w[i]) >= Eps {
      assert !Close(v[i], w[i]);
    }
  }

  // ---------------------------------------------------------------- poses

  /** `pose_move_thread`'s lookup: '1'..'6' name the corners by position when there are
      that many, '7' and '8' the home and drop poses when present. */
  function PoseFor(key: char, poses: PoseFile): (r: Option<(string, PoseMap)>)
    ensures '1' <= key <= '6' ==>
              var i := key as int - '1' as int;
              (r.Some? <==> poses.corners.Some? && i < |poses.corners.value|)
              && (r.Some? ==> r.value == ("corner" + [key], poses.corners.value[i]))
    ensures key == '7' ==> r == if poses.home.Some? then Some(("home", poses.home.value)) else None
    ensures key == '8' ==> r == if poses.drop.Some? then Some(("drop", poses.drop.value)) else None
    ensures !('1' <= key <= '8') ==> r.None?
  {
    if '1' <= key <= '6' then
      var i := key as int - '1' as int;
      if poses.corners.Some? && i < |poses.corners.value| then Some(("corner" + [key], poses.corners.value[i]))
      else None
    else if key == '7' then (if poses.home.Some? then Some(("home", poses.home.value)) else None)
    else if key == '8' then (if poses.drop.Some? then Some(("drop", poses.drop.value)) else None)
    else None
  }

  /** The commands `send_movel` writes: a text message naming the pose when there is a name,
      then the linear move at the pose acceleration and velocity. */
  function MoveLCommands(pose: PoseMap, name: string): (cs: seq<Command>)
    requires HasPoseKeys(pose)
    ensures |cs| == (if name == "" then 1 else 2)
    ensures cs[|cs| - 1] == MoveL(PoseVector(pose), PoseAcceleration, PoseVelocity)
    ensures name != "" ==> cs[0] == TextMsg("Moving to " + name)
  {
    (if name == "" then [] else [TextMsg("Moving to " + name)])
      + [MoveL(PoseVector(pose), PoseAcceleration, PoseVelocity)]
  }

  // ---------------------------------------------------------------- state

  /** The script's global state. */
  class JogGlobals {
    const velocity: array<real>
    var lastSent: seq<real>
    var poseMoving: bool
    var cancelPoseMove: bool
    var gripperBusy: bool
    var running: bool

    ghost predicate Valid()
      reads this
    {
      velocity.Length == 6
    }

    constructor ()
      ensures Valid() && fresh(velocity)
      ensures velocity[..] == [0.0, 0.0, 0.0, 0.0, 0.0, 0.0] && lastSent == velocity[..]
      ensures !poseMoving && !cancelPoseMove && !gripperBusy && running
    {
      velocity := new real[6](_ => 0.0);
      lastSent := [0.0, 0.0, 0.0, 0.0, 0.0, 0.0];
      poseMoving, cancelPoseMove, gripperBusy, running := false, false, false, true;
    }

    /** `on_press` without the threads it starts, which its result names. */
    method OnPress(key: Key) returns (effect: PressEffect)
      requires Valid()
      modifies this, velocity
      ensures Valid()
      ensures var p := PressOf(key, old(poseMoving));
        && effect == p.effect
        && velocity[..] == (if p.axisSet.Some? then old(velocity[..])[p.axisSet.value.0 := p.axisSet.value.1] else old(velocity[..]))
        && cancelPoseMove == (old(cancelPoseMove) || p.cancel)
      ensures lastSent == old(lastSent) && poseMoving == old(poseMoving)
      ensures gripperBusy == old(gripperBusy) && running == old(running)
    {
      if key == Esc {
        return StopListener;
      }
      if key == Special {
        return NoEffect;
      }
      var k := Lower(key.c);
      if poseMoving && k in MovementKeys {
        cancelPoseMove := true;
        var action := KeyMap(k).value;
        velocity[action.axis] := AxisSpeed(action.axis, action.direction);
        return NoEffect;
      }
      var action := KeyMap(k);
      effect := NoEffect;
      if action.Some? {
        match action.value {
          case GripperKey(command) =>
            effect := StartGripper(command);
          case PoseKey(_) =>
            effect := if poseMoving then PoseMoveRefused else StartPoseMove(k);
          case Jog(axis, direction) =>
            velocity[axis] := AxisSpeed(axis, direction);
        }
      }
    }

    method OnRelease(key: Key)
      requires Valid()
      modifies velocity
      ensures var a := ReleasedAxis(key);
        velocity[..] == if a.Some? then old(velocity[..])[a.value := 0.0] else old(velocity[..])
    {
      var a := ReleasedAxis(key);
      if a.Some? {
        velocity[a.value] := 0.0;
      }
    }

    /** The busy guard of `gripper_command_thread`: a command is taken only while no other
        one runs. */
    method TryAcquireGripper() returns (acquired: bool)
      modifies this
      ensures acquired == !old(gripperBusy) && gripperBusy
      ensures lastSent == old(lastSent) && poseMoving == old(poseMoving)
      ensures cancelPoseMove == old(cancelPoseMove) && running == old(running)
    {
      if gripperBusy {
        return false;
      }
      gripperBusy := true;
      acquired := true;
    }

    method ReleaseGripper()
      modifies this
      ensures !gripperBusy
      ensures lastSent == old(lastSent) && poseMoving == old(poseMoving)
      ensures cancelPoseMove == old(cancelPoseMove) && running == old(running)
    {
      gripperBusy := false;
    }
  }

  /** The commands a gripper key's thread runs, with the defaults of `full_open` and
      `full_close`. */
  function GripperThreadEffect(command: string, s: KState, unit: int): (r: (Outcome, KState))
    requires IsU16(s.l.tid)
  {
    if command == "open" then KFull(s, unit, true, DefaultForce, DefaultSpeed)
    else if command == "close" then KFull(s, unit, false, DefaultForce, DefaultSpeed)
    else if command == "stop" then KCommand(s, unit, StopCommand)
    else (Failed, s)
  }

  /** `gripper_command_thread`: ignored while another command runs; otherwise the command
      runs (an exception is caught and only reported) and the busy flag is cleared after. */
  method GripperCommandThread(command: string, g: JogGlobals, gripper: SimpleGripperControl)
    returns (ran: bool, o: Outcome)
    requires gripper.Valid()
    modifies g, gripper
    ensures gripper.Valid() && gripper.unitId == old(gripper.unitId)
    ensures ran == !old(g.gripperBusy)
    ensures !ran ==> g.gripperBusy && gripper.State() == old(gripper.State())
                     && gripper.lastCommand == old(gripper.lastCommand)
    ensures ran ==> !g.gripperBusy
                    && (o, gripper.State()) == GripperThreadEffect(command, old(gripper.State()), gripper.unitId)
    ensures ran && (command == "open" || command == "close") ==>
              gripper.lastCommand == NoteCommand(old(gripper.lastCommand), command, o)
    ensures ran && !(command == "open" || command == "close") ==> gripper.lastCommand == old(gripper.lastCommand)
    ensures g.lastSent == old(g.lastSent) && g.poseMoving == old(g.poseMoving)
    ensures g.cancelPoseMove == old(g.cancelPoseMove) && g.running == old(g.running)
  {
    ran := g.TryAcquireGripper();
    if !ran {
      return ran, Failed;
    }
    o := Failed;
    if command == "open" {
      o := gripper.Full(true, DefaultForce, DefaultSpeed);
    } else if command == "close" {
      o := gripper.Full(false, DefaultForce, DefaultSpeed);
    } else if command == "stop" {
      o := gripper.Stop();
    }
    g.ReleaseGripper();
  }

  // ---------------------------------------------------------------- the arm controller

  class URJogController {
    /** The commands written to the arm's socket, the greeting first. */
    var sent: seq<Command>

    constructor ()
      ensures sent == [TextMsg(GreetingText)]
    {
      sent := [TextMsg(GreetingText)];
    }

    method Send(c: Command)
      modifies this
      ensures sent == old(sent) + [c]
    {
      sent := sent + [c];
    }

    /** One pass of `loop` while `running`. */
    method LoopPass(g: JogGlobals) returns (c: Option<Command>)
      requires g.Valid()
      modifies this, g
      ensures c == LoopCommand(old(g.poseMoving), old(g.velocity[..]), old(g.lastSent))
      ensures sent == old(sent) + (if c.Some? then [c.value] else [])
      ensures g.lastSent == (if c.Some? then old(g.velocity[..]) else old(g.lastSent))
      ensures g.poseMoving == old(g.poseMoving) && g.cancelPoseMove == old(g.cancelPoseMove)
      ensures g.gripperBusy == old(g.gripperBusy) && g.running == old(g.running)
    {
      if g.poseMoving {
        return None;
      }
      var v := g.velocity[..];
      c := LoopCommand(false, v, g.lastSent);
      if c.Some? {
        Send(c.value);
        g.lastSent := v;
      }
    }

    /** What `loop` sends once `running` is cleared. */
    method Shutdown()
      modifies this
      ensures sent == old(sent) + [StopL(StopAcceleration)]
    {
      Send(StopL(StopAcceleration));
    }

    /** `move_to_pose` up to its wait: the pose move is marked in progress and not cancelled,
        and the commands are sent. A pose missing a key raises while the move command is
        formatted, before anything is sent, and leaves the move marked in progress. */
    method MoveToPoseBegin(g: JogGlobals, pose: PoseMap, name: string) returns (o: Outcome)
      modifies this, g
      ensures g.poseMoving && !g.cancelPoseMove
      ensures o == (if HasPoseKeys(pose) then Done else Raised)
      ensures sent == old(sent) + (if HasPoseKeys(pose) then MoveLCommands(pose, name) else [])
      ensures g.lastSent == old(g.lastSent) && g.gripperBusy == old(g.gripperBusy) && g.running == old(g.running)
    {
      g.poseMoving := true;
      g.cancelPoseMove := false;
      if !HasPoseKeys(pose) {
        return Raised;
      }
      if name != "" {
        Send(TextMsg("Moving to " + name));
      }
      Send(MoveL(PoseVector(pose), PoseAcceleration, PoseVelocity));
      o := Done;
    }

    /** `move_to_pose` after its wait: a cancellation seen sends `stopl`, and the flags are
        cleared either way. */
    method MoveToPoseEnd(g: JogGlobals) returns (cancelled: bool)
      modifies this, g
      ensures cancelled == old(g.cancelPoseMove)
      ensures sent == old(sent) + (if cancelled then [StopL(StopAcceleration)] else [])
      ensures !g.poseMoving && !g.cancelPoseMove
      ensures g.lastSent == old(g.lastSent) && g.gripperBusy == old(g.gripperBusy) && g.running == old(g.running)
    {
      cancelled := g.cancelPoseMove;
      if cancelled {
        Send(StopL(StopAcceleration));
      }
      g.poseMoving := false;
      g.cancelPoseMove := false;
    }

    /** `pose_move_thread` up to the wait: a key with no pose behind it moves nothing. */
    method PoseMoveThread(g: JogGlobals, key: char, poses: PoseFile) returns (started: bool, o: Outcome)
      modifies this, g
      ensures started == PoseFor(key, poses).Some?
      ensures !started ==> sent == old(sent) && g.poseMoving == old(g.poseMoving)
                           && g.cancelPoseMove == old(g.cancelPoseMove)
      ensures started ==> var target := PoseFor(key, poses).value;
        g.poseMoving && !g.cancelPoseMove
        && o == (if HasPoseKeys(target.1) then Done else Raised)
        && sent == old(sent) + (if HasPoseKeys(target.1) then MoveLCommands(target.1, target.0) else [])
      ensures g.lastSent == old(g.lastSent) && g.gripperBusy == old(g.gripperBusy) && g.running == old(g.running)
    {
      var target := PoseFor(key, poses);
      if target.None? {
        return false, Failed;
      }
      o := MoveToPoseBegin(g, target.value.1, target.value.0);
      started := true;
    }
  }
}
