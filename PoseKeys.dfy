/** The pose-key script (robotmovetoposes.py): a loop reads one key at a time and, while the
    `running` field holds, quits on 'q', sends a stop on the space bar, moves to the home or
    drop pose on 'h' / 'd' when the pose file has one, moves to a corner on a digit naming
    one, and otherwise only reports the key. The keyboard is the sequence of what each poll
    of it gave; the sleeps and the console messages are not modelled. */
module PoseKeys {
  import opened Wrappers
  import opened URScript
  import opened Text
  import opened OnRobot
  import JogControl

  const Acceleration: real := 0.3
  const Velocity: real := 0.15
  /** The deceleration of the space-bar stop. */
  const StopDeceleration: real := 2.0
  const GreetingText: string := "Python script connected"

  /** A byte `getch` gives. */
  newtype KeyByte = x: int | 0 <= x < 0x100

  /** `check_keypress`: nothing off Windows or when no key is waiting; a byte that is not a
      one-byte UTF-8 character fails to decode and gives nothing; otherwise the character,
      lower-cased. */
  function KeyOf(windows: bool, hit: Option<KeyByte>): (r: Option<char>)
    ensures r.Some? <==> windows && hit.Some? && hit.value < 0x80
    ensures r.Some? ==> r.value == Lower(hit.value as int as char) && !('A' <= r.value <= 'Z')
  {
    if windows && hit.Some? && hit.value < 0x80 then Some(Lower(hit.value as int as char)) else None
  }

  /** What the loop does with one key. */
  datatype Action = Quit | EmergencyStop | MoveTo(pose: PoseMap, name: string) | NotDefined(key: char) | Unknown(key: char)

  /** `str.isdigit` on a character a one-byte decode can give. */
  predicate IsDigit(c: char) { '0' <= c <= '9' }

  /** The branch `interactive_loop` takes for a key. 'h' and 'd' without their pose fall
      through to the digit test and so are unknown keys; a digit names corner `k - 1`, so '0'
      never names one. */
  function Dispatch(key: char, poses: PoseFile): (r: Action)
    ensures r == Quit <==> key == 'q'
    ensures r == EmergencyStop <==> key == ' '
    ensures key == 'h' ==> r == if poses.home.Some? then MoveTo(poses.home.value, "Home") else Unknown('h')
    ensures key == 'd' ==> r == if poses.drop.Some? then MoveTo(poses.drop.value, "Drop") else Unknown('d')
    ensures IsDigit(key) ==>
              var idx := key as int - '1' as int;
              r == if poses.corners.Some? && 0 <= idx < |poses.corners.value|
                   then MoveTo(poses.corners.value[idx], "Corner " + [key])
                   else NotDefined(key)
    ensures r.MoveTo? ==> key == 'h' || key == 'd' || '1' <= key <= '9'
    ensures r.NotDefined? ==> IsDigit(key) && r.key == key
    ensures !(key in " qhd" || IsDigit(key)) ==> r == Unknown(key)
  {
    if key == 'q' then Quit
    else if key == ' ' then EmergencyStop
    else if key == 'h' && poses.home.Some? then MoveTo(poses.home.value, "Home")
    else if key == 'd' && poses.drop.Some? then MoveTo(poses.drop.value, "Drop")
    else if IsDigit(key) then
      var idx := key as int - '1' as int;
      if poses.corners.Some? && 0 <= idx < |poses.corners.value| then
        MoveTo(poses.corners.value[idx], "Corner " + [key])
      else NotDefined(key)
    else Unknown(key)
  }

  /** Keys '1' to '6' name the same corner poses here as in the jog script; '7' and '8' do
      not: there they are the home and drop poses, here corners seven and eight. */
  lemma CornerKeysAgree(key: char, poses: PoseFile)
    requires '1' <= key <= '8'
    ensures '1' <= key <= '6' ==>
              (Dispatch(key, poses).MoveTo? <==> JogControl.PoseFor(key, poses).Some?)
              && (Dispatch(key, poses).MoveTo? ==> Dispatch(key, poses).pose == JogControl.PoseFor(key, poses).value.1)
    ensures key == '7' && Dispatch(key, poses).MoveTo? ==> Dispatch(key, poses).pose == poses.corners.value[6]
    ensures key == '7' && JogControl.PoseFor(key, poses).Some? ==> JogControl.PoseFor(key, poses).value.1 == poses.home.value
  {
  }

  /** The state the loop works on: the `running` field, whether an exception has escaped the
      loop (a pose without one of its six keys), and the commands the robot has received. */
  datatype Loop = Loop(running: bool, raised: bool, sent: seq<Command>)

  predicate Halted(s: Loop) { !s.running || s.raised }

  /** What `send_command` delivers: nothing without a connection. */
  function Delivered(connected: bool, cs: seq<Command>): seq<Command> {
    if connected then cs else []
  }

  /** One pass of the loop body for what one poll of the keyboard gave. `move_to_pose` builds
      the `movel` before sending anything, so a pose missing a key raises with nothing sent;
      otherwise it sends the text message and then the move. */
  function Step(s: Loop, key: Option<char>, poses: PoseFile, connected: bool): (r: Loop)
    ensures Halted(s) ==> r == s
    ensures s.sent <= r.sent
    ensures |r.sent| > |s.sent| ==>
              connected && key.Some? && (key.value == ' ' || Dispatch(key.value, poses).MoveTo?)
    ensures r.running != s.running <==> !Halted(s) && key == Some('q')
    ensures r.raised != s.raised <==>
              !Halted(s) && key.Some? && Dispatch(key.value, poses).MoveTo?
              && !HasPoseKeys(Dispatch(key.value, poses).pose)
  {
    if Halted(s) || key.None? then s
    else
      match Dispatch(key.value, poses)
      case Quit => s.(running := false)
      case EmergencyStop => s.(sent := s.sent + Delivered(connected, [StopL(StopDeceleration)]))
      case MoveTo(pose, name) =>
        if HasPoseKeys(pose) then
          s.(sent := s.sent + Delivered(connected, [TextMsg("Moving to " + name),
                                                    MoveL(PoseVector(pose), Acceleration, Velocity)]))
        else s.(raised := true)
      case NotDefined(_) => s
      case Unknown(_) => s
  }

  /** The loop over the successive polls of the keyboard. */
  function Run(s: Loop, hits: seq<Option<KeyByte>>, windows: bool, poses: PoseFile, connected: bool): (r: Loop)
    decreases |hits|
  {
    if hits == [] then s
    else Step(Run(s, hits[..|hits| - 1], windows, poses, connected), KeyOf(windows, hits[|hits| - 1]), poses, connected)
  }

  /** The commands only grow, and a loop that has stopped stays as it is. */
  lemma {:induction false} RunGrows(s: Loop, hits: seq<Option<KeyByte>>, windows: bool, poses: PoseFile, connected: bool)
    ensures s.sent <= Run(s, hits, windows, poses, connected).sent
    ensures Halted(s) ==> Run(s, hits, windows, poses, connected) == s
    decreases |hits|
  {
    if hits != [] {
      RunGrows(s, hits[..|hits| - 1], windows, poses, connected);
    }
  }

  /** Once the loop has stopped, later polls change nothing. */
  lemma {:induction false} RunHalted(s: Loop, hits: seq<Option<KeyByte>>, more: seq<Option<KeyByte>>, windows: bool, poses: PoseFile, connected: bool)
    requires Halted(Run(s, hits, windows, poses, connected))
    ensures Run(s, hits + more, windows, poses, connected) == Run(s, hits, windows, poses, connected)
    decreases |more|
  {
    if more == [] {
      assert hits + more == hits;
    } else {
      var front := more[..|more| - 1];
      assert (hits + more)[..|hits + more| - 1] == hits + front;
      RunHalted(s, hits, front, windows, poses, connected);
      var last := KeyOf(windows, more[|more| - 1]);
      assert Run(s, hits + more, windows, poses, connected)
             == Step(Run(s, hits + front, windows, poses, connected), last, poses, connected);
    }
  }

  /** 'q' ends the session: nothing the keyboard gives after it reaches the robot. */
  lemma QuitEndsSession(s: Loop, hits: seq<Option<KeyByte>>, more: seq<Option<KeyByte>>, poses: PoseFile, connected: bool)
    requires !Halted(Run(s, hits, true, poses, connected))
    ensures var before := Run(s, hits, true, poses, connected);
      Run(s, hits + [Some('q' as int as KeyByte)] + more, true, poses, connected) == before.(running := false)
  {
    var q: seq<Option<KeyByte>> := [Some('q' as int as KeyByte)];
    QuitStep(s, hits, poses, connected);
    RunHalted(s, hits + q, more, true, poses, connected);
  }

  lemma QuitStep(s: Loop, hits: seq<Option<KeyByte>>, poses: PoseFile, connected: bool)
    requires !Halted(Run(s, hits, true, poses, connected))
    ensures Run(s, hits + [Some('q' as int as KeyByte)], true, poses, connected) == Run(s, hits, true, poses, connected).(running := false)
  {
    var h := hits + [Some('q' as int as KeyByte)];
    assert h[..|h| - 1] == hits;
    assert KeyOf(true, h[|h| - 1]) == Some('q');
    assert Run(s, h, true, poses, connected) == Step(Run(s, hits, true, poses, connected), Some('q'), poses, connected);
  }

  /** Whether a command is one the loop sends: the stop, a move message, or a move at the
      script's acceleration and velocity. */
  predicate LoopCommand(c: Command) {
    c == StopL(StopDeceleration)
    || (c.TextMsg? && |c.text| >= 10 && c.text[..10] == "Moving to ")
    || (c.MoveL? && c.a == Acceleration && c.v == Velocity && |c.pose| == 6)
  }

  /** The loop sends the robot nothing but stops and pose moves. */
  lemma {:induction false} OnlyStopsAndMoves(s: Loop, hits: seq<Option<KeyByte>>, windows: bool, poses: PoseFile, connected: bool)
    ensures var r := Run(s, hits, windows, poses, connected);
      |s.sent| <= |r.sent| && forall i :: |s.sent| <= i < |r.sent| ==> LoopCommand(r.sent[i])
    decreases |hits|
  {
    if hits != [] {
      var front := Run(s, hits[..|hits| - 1], windows, poses, connected);
      OnlyStopsAndMoves(s, hits[..|hits| - 1], windows, poses, connected);
      RunGrows(s, hits[..|hits| - 1], windows, poses, connected);
      var key := KeyOf(windows, hits[|hits| - 1]);
      var r := Step(front, key, poses, connected);
      if |r.sent| > |front.sent| {
        forall i | |front.sent| <= i < |r.sent|
          ensures LoopCommand(r.sent[i])
        {
          match Dispatch(key.value, poses)
          case EmergencyStop =>
          case MoveTo(pose, name) =>
            assert ("Moving to " + name)[..10] == "Moving to ";
          case Quit =>
          case NotDefined(_) =>
          case Unknown(_) =>
        }
      }
    }
  }

  /** The controller object: its `running` field, whether its socket is connected, the pose
      file, and the commands the robot has received. */
  class RobotController {
    var running: bool
    var connected: bool
    var sent: seq<Command>
    const poses: PoseFile

    constructor (poses: PoseFile)
      ensures running && !connected && sent == [] && this.poses == poses
    {
      running := true;
      connected := false;
      sent := [];
      this.poses := poses;
    }

    /** `send_command`: false and nothing sent without a connection. */
    method Send(c: Command) returns (ok: bool)
      modifies this
      ensures ok == connected
      ensures sent == old(sent) + Delivered(connected, [c])
      ensures running == old(running) && connected == old(connected)
    {
      if !connected {
        return false;
      }
      sent := sent + [c];
      ok := true;
    }

    /** `connect`: whether the arm accepted the connection is a parameter; once connected the
        script greets it. */
    method Connect(up: bool) returns (ok: bool)
      modifies this
      ensures ok == up && connected == up
      ensures sent == old(sent) + Delivered(up, [TextMsg(GreetingText)])
      ensures running == old(running)
    {
      connected := up;
      if !up {
        return false;
      }
      var _ := Send(TextMsg(GreetingText));
      ok := true;
    }

    /** `move_to_pose`: `Raised` with nothing sent for a pose missing a key. */
    method MoveToPose(pose: PoseMap, name: string) returns (o: Outcome)
      modifies this
      ensures o == (if HasPoseKeys(pose) then Done else Raised)
      ensures sent == old(sent)
                      + (if HasPoseKeys(pose)
                         then Delivered(connected, [TextMsg("Moving to " + name), MoveL(PoseVector(pose), Acceleration, Velocity)])
                         else [])
      ensures running == old(running) && connected == old(connected)
    {
      if !HasPoseKeys(pose) {
        return Raised;
      }
      var cmd := MoveL(PoseVector(pose), Acceleration, Velocity);
      var _ := Send(TextMsg("Moving to " + name));
      var _ := Send(cmd);
      o := Done;
    }

    /** One pass of the loop body. */
    method HandleKey(key: Option<char>) returns (o: Outcome)
      requires running
      modifies this
      ensures Loop(running, o == Raised, sent) == Step(Loop(old(running), false, old(sent)), key, poses, connected)
      ensures connected == old(connected)
    {
      o := Done;
      if key.None? {
        return;
      }
      var k := key.value;
      if k == 'q' {
        running := false;
      } else if k == ' ' {
        var _ := Send(StopL(StopDeceleration));
      } else if k == 'h' && poses.home.Some? {
        o := MoveToPose(poses.home.value, "Home");
      } else if k == 'd' && poses.drop.Some? {
        o := MoveToPose(poses.drop.value, "Drop");
      } else if IsDigit(k) {
        var idx := k as int - '1' as int;
        if poses.corners.Some? && 0 <= idx < |poses.corners.value| {
          o := MoveToPose(poses.corners.value[idx], "Corner " + [k]);
        }
      }
    }

    /** `interactive_loop`: poll the keyboard and handle the key while `running` holds; an
        exception ends the loop. The sequence of polls is finite here, so the loop also ends
        when it runs out. */
    method InteractiveLoop(hits: seq<Option<KeyByte>>, windows: bool) returns (raised: bool)
      modifies this
      ensures Loop(running, raised, sent) == Run(Loop(old(running), false, old(sent)), hits, windows, poses, connected)
      ensures connected == old(connected)
    {
      ghost var start := Loop(running, false, sent);
      raised := false;
      var i := 0;
      while i < |hits| && running && !raised
        invariant 0 <= i <= |hits|
        invariant Loop(running, raised, sent) == Run(start, hits[..i], windows, poses, connected)
        invariant connected == old(connected)
        decreases |hits| - i
      {
        var key := KeyOf(windows, hits[i]);
        var o := HandleKey(key);
        raised := o == Raised;
        assert hits[..i + 1][..i] == hits[..i];
        i := i + 1;
      }
      if i < |hits| {
        RunHalted(start, hits[..i], hits[i..], windows, poses, connected);
        assert hits[..i] + hits[i..] == hits;
      } else {
        assert hits[..i] == hits;
      }
    }
  }
}
