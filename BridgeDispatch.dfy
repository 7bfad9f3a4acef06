/** The message handler of the WebSocket bridge (public/robot_bridge_advanced.py,
    `WebSocketBridge._handle_message`): a JSON request is routed by its "type" field through
    ordered validation checks to one robot operation, and the outcome of that operation is
    turned into the reply. Widths and configuration values arrive already in the gripper's
    units; the reply's human-readable message text is not modelled, its kind and data are. */
module BridgeDispatch {
  import opened Wrappers
  import opened Bytes
  import opened Modbus
  import opened OnRobot
  import opened URScript
  import opened BridgeGripper
  import opened BridgeSystem

  /** The fields of a request the handler looks at; `None` is a missing key. */
  datatype Message = Message(
    kind: Option<string>,
    pose: Option<PoseMap>,
    moveType: Option<string>,
    action: Option<string>,
    width: Option<int>,
    force: Option<int>,
    speed: Option<int>,
    fingerLength: Option<int>,
    fingerHeight: Option<int>,
    fingerOrientation: Option<int>,
    fingertipOffset: Option<int>)

  /** The move type a "move" request without one gets. */
  const DefaultMoveType: string := "clearance"

  const GripperActions: set<string> := {"open", "close", "stop", "move_to_width"}

  /** Python's `not pose`: a missing pose and an empty one are both refused. */
  predicate PoseGiven(m: Message) {
    m.pose.Some? && |m.pose.value| > 0
  }

  datatype Refusal =
    | NoPose
    | RobotNotConnected
    | InvalidAction(action: Option<string>)
    | WidthRequired
    | UnknownType(kind: Option<string>)

  /** Where a request goes: refused by a validation check, or to one robot operation. */
  datatype Route =
    | ToConnect
    | ToDisconnect
    | ToStatus
    | ToMove(pose: PoseMap, moveType: string)
    | ToGripper(action: string, width: Option<int>, force: int, speed: int)
    | ToConfig
    | ToTest
    | Refuse(reason: Refusal)

  /** The handler's branch table and its checks in order. */
  function RouteOf(m: Message, connected: bool): (r: Route)
    // a move without a pose is refused before the connection is looked at
    ensures m.kind == Some("move") && !PoseGiven(m) ==> r == Refuse(NoPose)
    // so is a gripper request with an unknown action, or a width move without a width
    ensures m.kind == Some("gripper") && (m.action.None? || m.action.value !in GripperActions) ==>
              r == Refuse(InvalidAction(m.action))
    ensures m.kind == Some("gripper") && m.action == Some("move_to_width") && m.width.None? ==>
              r == Refuse(WidthRequired)
    // requests that drive the hardware only reach it while the system is connected
    ensures r.ToMove? || r.ToGripper? || r.ToConfig? ==> connected
    ensures r == Refuse(RobotNotConnected) ==>
              !connected && m.kind in {Some("move"), Some("gripper"), Some("set_gripper_config")}
    ensures r.ToMove? <==> m.kind == Some("move") && PoseGiven(m) && connected
    ensures r.ToMove? ==> r.pose == m.pose.value && r.moveType == m.moveType.GetOr(DefaultMoveType)
    ensures r.ToGripper? ==>
              && r.action in GripperActions && Some(r.action) == m.action
              && (r.action == "move_to_width" ==> r.width.Some?)
              && r.width == m.width && r.force == m.force.GetOr(DefaultForce)
              && r.speed == m.speed.GetOr(DefaultSpeed)
    // connecting, disconnecting, status and test need no connection
    ensures m.kind == Some("connect") <==> r == ToConnect
    ensures m.kind == Some("disconnect") <==> r == ToDisconnect
    ensures m.kind == Some("status") <==> r == ToStatus
    ensures m.kind == Some("test") <==> r == ToTest
    ensures r.Refuse? && r.reason.UnknownType? <==>
              m.kind !in {Some("connect"), Some("disconnect"), Some("status"), Some("move"),
                          Some("gripper"), Some("set_gripper_config"), Some("test")}
  {
    if m.kind == Some("connect") then ToConnect
    else if m.kind == Some("disconnect") then ToDisconnect
    else if m.kind == Some("status") then ToStatus
    else if m.kind == Some("move") then
      if !PoseGiven(m) then Refuse(NoPose)
      else if !connected then Refuse(RobotNotConnected)
      else ToMove(m.pose.value, m.moveType.GetOr(DefaultMoveType))
    else if m.kind == Some("gripper") then
      if m.action.None? || m.action.value !in GripperActions then Refuse(InvalidAction(m.action))
      else if m.action.value == "move_to_width" && m.width.None? then Refuse(WidthRequired)
      else if !connected then Refuse(RobotNotConnected)
      else ToGripper(m.action.value, m.width, m.force.GetOr(DefaultForce), m.speed.GetOr(DefaultSpeed))
    else if m.kind == Some("set_gripper_config") then
      if !connected then Refuse(RobotNotConnected) else ToConfig
    else if m.kind == Some("test") then ToTest
    else Refuse(UnknownType(m.kind))
  }

  // ---------------------------------------------------------------- configuration requests

  datatype ConfigField = FingerLengthField | FingerHeightField | FingerOrientationField | FingertipOffsetField

  function FieldRegister(f: ConfigField): (a: int)
    ensures IsU16(a)
  {
    match f
    case FingerLengthField => FingerLength
    case FingerHeightField => FingerHeight
    case FingerOrientationField => FingerOrientation
    case FingertipOffsetField => FingertipOffset
  }

  /** The effect of one setter: the orientation setter refuses values other than 0 and 1
      without writing, every setter is refused unless the gripper is connected. */
  function SetterEffect(connected: bool, l: Link, unit: int, f: ConfigField, value: int): (Outcome, Link)
    requires IsU16(l.tid)
  {
    if f == FingerOrientationField && value != 0 && value != 1 then (Failed, l)
    else ConfigEffect(connected, l, unit, FieldRegister(f), value)
  }

  /** The value a request gives for a setting, if its key is present. */
  function FieldValue(m: Message, f: ConfigField): Option<int> {
    match f
    case FingerLengthField => m.fingerLength
    case FingerHeightField => m.fingerHeight
    case FingerOrientationField => m.fingerOrientation
    case FingertipOffsetField => m.fingertipOffset
  }

  /** The position of a setting in the handler's order of application. */
  function Rank(f: ConfigField): nat {
    match f
    case FingerLengthField => 0
    case FingerHeightField => 1
    case FingerOrientationField => 2
    case FingertipOffsetField => 3
  }

  /** The setting `f` as a request lists it: nothing when its key is absent. */
  function Setting(m: Message, f: ConfigField): (r: seq<(ConfigField, int)>)
    ensures |r| <= 1
    ensures |r| == 1 <==> FieldValue(m, f).Some?
    ensures |r| == 1 ==> r[0].0 == f && FieldValue(m, f) == Some(r[0].1)
  {
    if FieldValue(m, f).Some? then [(f, FieldValue(m, f).value)] else []
  }

  /** The settings a "set_gripper_config" request carries, in the order they are applied:
      exactly the present keys with their values, in the handler's fixed order. */
  function ConfigRequests(m: Message): (r: seq<(ConfigField, int)>)
    ensures forall i :: 0 <= i < |r| ==> FieldValue(m, r[i].0) == Some(r[i].1)
    ensures forall f :: FieldValue(m, f).Some? ==> (f, FieldValue(m, f).value) in r
    ensures forall i, j :: 0 <= i < j < |r| ==> Rank(r[i].0) < Rank(r[j].0)
  {
    Setting(m, FingerLengthField) + Setting(m, FingerHeightField)
    + Setting(m, FingerOrientationField) + Setting(m, FingertipOffsetField)
  }

  /** One line of a configuration reply's details. */
  datatype ConfigNote = Applied(field: ConfigField, value: int) | NotApplied(field: ConfigField)

  /** Where a configuration request stands: whether an exception has escaped a setter, whether
      every setter so far succeeded, and the details so far. */
  datatype ConfigRun = ConfigRun(raised: bool, success: bool, notes: seq<ConfigNote>)

  /** Applying one setting: once a setter has raised nothing more happens. */
  function ConfigStep(run: ConfigRun, connected: bool, l: Link, unit: int, f: ConfigField, value: int): (ConfigRun, Link)
    requires IsU16(l.tid)
  {
    if run.raised then (run, l)
    else
      var e := SetterEffect(connected, l, unit, f, value);
      if e.0 == Raised then (run.(raised := true), e.1)
      else (ConfigRun(false, run.success && e.0 == Done,
                      run.notes + [if e.0 == Done then Applied(f, value) else NotApplied(f)]), e.1)
  }

  /** Applying the settings `reqs` one after another. */
  function ConfigOver(connected: bool, l: Link, unit: int, reqs: seq<(ConfigField, int)>): (r: (ConfigRun, Link))
    requires IsU16(l.tid)
    ensures IsU16(r.1.tid)
    decreases |reqs|
  {
    if reqs == [] then (ConfigRun(false, true, []), l)
    else
      var before := ConfigOver(connected, l, unit, reqs[..|reqs| - 1]);
      ConfigStep(before.0, connected, before.1, unit, reqs[|reqs| - 1].0, reqs[|reqs| - 1].1)
  }

  /** The details name the settings in request order, each applied one with its value. */
  predicate NotesFollow(notes: seq<ConfigNote>, reqs: seq<(ConfigField, int)>) {
    && |notes| == |reqs|
    && (forall i :: 0 <= i < |reqs| ==> notes[i].field == reqs[i].0)
    && (forall i :: 0 <= i < |reqs| && notes[i].Applied? ==> notes[i].value == reqs[i].1)
  }

  predicate AllApplied(notes: seq<ConfigNote>) {
    forall i :: 0 <= i < |notes| ==> notes[i].Applied?
  }

  /** Every setting is attempted even after one fails, each gets a line of details in
      request order, and the request succeeds exactly when all of them did. */
  lemma {:induction false} ConfigOverSpec(connected: bool, l: Link, unit: int, reqs: seq<(ConfigField, int)>)
    requires IsU16(l.tid)
    ensures var run := ConfigOver(connected, l, unit, reqs).0;
      !run.raised ==> NotesFollow(run.notes, reqs) && (run.success <==> AllApplied(run.notes))
    decreases |reqs|
  {
    if reqs != [] {
      var init := reqs[..|reqs| - 1];
      var last := reqs[|reqs| - 1];
      ConfigOverSpec(connected, l, unit, init);
      var before := ConfigOver(connected, l, unit, init);
      assert ConfigOver(connected, l, unit, reqs) == ConfigStep(before.0, connected, before.1, unit, last.0, last.1);
      StepNotes(before.0, connected, before.1, unit, last.0, last.1);
      var run := ConfigOver(connected, l, unit, reqs).0;
      if !run.raised {
        NotesSnoc(run.notes, before.0.notes, reqs);
      }
    }
  }

  /** One setting that does not raise adds one line of details for it, after the others. */
  lemma StepNotes(run: ConfigRun, connected: bool, l: Link, unit: int, f: ConfigField, value: int)
    requires IsU16(l.tid)
    ensures var r := ConfigStep(run, connected, l, unit, f, value).0; var n := |run.notes|;
      !r.raised ==>
        && !run.raised && |r.notes| == n + 1 && r.notes[..n] == run.notes
        && r.notes[n].field == f && (r.notes[n].Applied? ==> r.notes[n].value == value)
        && (r.success <==> run.success && r.notes[n].Applied?)
  {
  }

  lemma NotesSnoc(notes: seq<ConfigNote>, init: seq<ConfigNote>, reqs: seq<(ConfigField, int)>)
    requires reqs != [] && NotesFollow(init, reqs[..|reqs| - 1])
    requires |notes| == |init| + 1 && notes[..|init|] == init
    requires notes[|init|].field == reqs[|reqs| - 1].0
    requires notes[|init|].Applied? ==> notes[|init|].value == reqs[|reqs| - 1].1
    ensures NotesFollow(notes, reqs)
    ensures AllApplied(notes) <==> AllApplied(init) && notes[|init|].Applied?
  {
    forall i | 0 <= i < |init|
      ensures notes[i] == init[i] && reqs[i] == reqs[..|reqs| - 1][i]
    {
      assert notes[..|init|][i] == notes[i];
    }
  }

  /** A request refused by the gripper's disconnection writes nothing and fails every
      setting but raises for none, whatever its values: each setter checks the connection
      before it packs, so a value too wide for 16 bits is refused, not raised. */
  lemma {:induction false} ConfigDisconnected(l: Link, unit: int, reqs: seq<(ConfigField, int)>)
    requires IsU16(l.tid)
    ensures var r := ConfigOver(false, l, unit, reqs);
      && r.1 == l && !r.0.raised
      && (r.0.success <==> reqs == [])
      && r.0.notes == seq(|reqs|, i requires 0 <= i < |reqs| => NotApplied(reqs[i].0))
    decreases |reqs|
  {
    if reqs != [] {
      var init := reqs[..|reqs| - 1];
      ConfigDisconnected(l, unit, init);
    }
  }

  // ---------------------------------------------------------------- replies

  datatype Failure =
    | Refused(reason: Refusal)
    | ConnectFailed
    | MoveFailed
    | GripperFailed(action: string)
    | ConfigFailed(details: seq<ConfigNote>)
    | ProcessingError

  datatype Response =
    | ConnectedReply(status: SystemStatus)
    | DisconnectedReply
    | StatusReply(status: SystemStatus)
    | MoveComplete(pose: PoseMap, moveType: string)
    | GripperComplete(action: string, width: Option<int>, force: int, speed: int)
    | ConfigSet(details: seq<ConfigNote>)
    | TestReply(received: Message)
    | ErrorReply(failure: Failure)

  /** The reply to a move: an exception escaping the handler becomes a processing error. */
  function MoveAnswer(pose: PoseMap, moveType: string, o: Outcome): (r: Response)
    ensures r == MoveComplete(pose, moveType) <==> o == Done
    ensures r.ErrorReply? <==> o != Done
    ensures r == ErrorReply(ProcessingError) <==> o == Raised
  {
    match o
    case Done => MoveComplete(pose, moveType)
    case Failed => ErrorReply(MoveFailed)
    case Raised => ErrorReply(ProcessingError)
  }

  /** The reply to a gripper action, echoing the request's parameters on success. */
  function GripperAnswer(action: string, width: Option<int>, force: int, speed: int, o: Outcome): (r: Response)
    ensures r == GripperComplete(action, width, force, speed) <==> o == Done
    ensures r.ErrorReply? <==> o != Done
    ensures r == ErrorReply(ProcessingError) <==> o == Raised
  {
    match o
    case Done => GripperComplete(action, width, force, speed)
    case Failed => ErrorReply(GripperFailed(action))
    case Raised => ErrorReply(ProcessingError)
  }

  /** The reply to a configuration request. */
  function ConfigAnswer(run: ConfigRun): (r: Response)
    ensures r.ConfigSet? <==> !run.raised && run.success
    ensures r.ConfigSet? ==> r.details == run.notes
    ensures r == ErrorReply(ProcessingError) <==> run.raised
  {
    if run.raised then ErrorReply(ProcessingError)
    else if run.success then ConfigSet(run.notes)
    else ErrorReply(ConfigFailed(run.notes))
  }

  /** What the transports do while one "connect" request is handled. */
  datatype Env = Env(gripperUp: bool, replies: seq<Reply>, armUp: bool, deliveries: seq<bool>)

  // ---------------------------------------------------------------- the handler

  class WebSocketBridge {
    const robot: RobotSystem

    ghost predicate Valid()
      reads this, robot, robot.gripper
    {
      robot.Valid()
    }

    constructor ()
      ensures Valid() && fresh(robot) && fresh(robot.arm) && fresh(robot.gripper)
      ensures !robot.connected
    {
      robot := new RobotSystem();
    }

    /** Applies one setting, as one `if key in data` block of the handler does. */
    method ApplySetting(run: ConfigRun, f: ConfigField, value: int) returns (next: ConfigRun)
      requires Valid() && !run.raised
      modifies robot.gripper
      ensures Valid() && robot.gripper.unitId == old(robot.gripper.unitId)
      ensures robot.gripper.State() == old(robot.gripper.State())
      ensures (next, robot.gripper.LinkState())
                == ConfigStep(run, old(robot.gripper.connected), old(robot.gripper.LinkState()),
                              robot.gripper.unitId, f, value)
    {
      var o: Outcome;
      match f {
        case FingerLengthField => o := robot.gripper.SetFingerLength(value);
        case FingerHeightField => o := robot.gripper.SetFingerHeight(value);
        case FingerOrientationField => o := robot.gripper.SetFingerOrientation(value);
        case FingertipOffsetField => o := robot.gripper.SetFingertipOffset(value);
      }
      if o == Raised {
        return run.(raised := true);
      }
      next := ConfigRun(false, run.success && o == Done,
                        run.notes + [if o == Done then Applied(f, value) else NotApplied(f)]);
    }

    /** One `if key in data` block of the "set_gripper_config" branch: the setting, if
        present, is applied, extending the settings applied so far. */
    method ApplyIfPresent(m: Message, f: ConfigField, run: ConfigRun,
                          ghost c: bool, ghost l0: Link, ghost done: seq<(ConfigField, int)>)
      returns (next: ConfigRun, ghost done': seq<(ConfigField, int)>)
      requires Valid() && IsU16(l0.tid) && !run.raised && robot.gripper.connected == c
      requires (run, robot.gripper.LinkState()) == ConfigOver(c, l0, robot.gripper.unitId, done)
      modifies robot.gripper
      ensures Valid() && robot.gripper.unitId == old(robot.gripper.unitId)
      ensures robot.gripper.State() == old(robot.gripper.State())
      ensures done' == done + Setting(m, f)
      ensures (next, robot.gripper.LinkState()) == ConfigOver(c, l0, robot.gripper.unitId, done')
    {
      if FieldValue(m, f).None? {
        assert done + Setting(m, f) == done;
        return run, done;
      }
      next := ApplySetting(run, f, FieldValue(m, f).value);
      done' := Push(c, l0, robot.gripper.unitId, done, (f, FieldValue(m, f).value));
    }

    /** The "set_gripper_config" branch past its connection check. */
    method Configure(m: Message) returns (r: Response)
      requires Valid()
      modifies robot.gripper
      ensures Valid() && robot.gripper.unitId == old(robot.gripper.unitId)
      ensures robot.gripper.State() == old(robot.gripper.State())
      ensures var e := ConfigOver(old(robot.gripper.connected), old(robot.gripper.LinkState()),
                                  robot.gripper.unitId, ConfigRequests(m));
        r == ConfigAnswer(e.0) && robot.gripper.LinkState() == e.1
    {
      ghost var l0 := robot.gripper.LinkState();
      ghost var c := robot.gripper.connected;
      ghost var all := ConfigRequests(m);
      ghost var done: seq<(ConfigField, int)> := [];
      var run := ConfigRun(false, true, []);
      run, done := ApplyIfPresent(m, FingerLengthField, run, c, l0, done);
      if run.raised {
        AfterRaise(c, l0, robot.gripper.unitId, done, all);
        return ConfigAnswer(run);
      }
      run, done := ApplyIfPresent(m, FingerHeightField, run, c, l0, done);
      if run.raised {
        AfterRaise(c, l0, robot.gripper.unitId, done, all);
        return ConfigAnswer(run);
      }
      run, done := ApplyIfPresent(m, FingerOrientationField, run, c, l0, done);
      if run.raised {
        assert all == done + Setting(m, FingertipOffsetField);
        AfterRaise(c, l0, robot.gripper.unitId, done, all);
        return ConfigAnswer(run);
      }
      run, done := ApplyIfPresent(m, FingertipOffsetField, run, c, l0, done);
      r := ConfigAnswer(run);
    }

    /** `_handle_message` for one request. */
    method HandleMessage(m: Message, env: Env) returns (resp: Response)
      requires Valid() && AllReplyBytes(env.replies)
      modifies robot, robot.arm, robot.gripper
      ensures Valid()
      ensures var route := RouteOf(m, old(robot.connected));
        && (route.Refuse? ==> resp == ErrorReply(Refused(route.reason)))
        && (route.ToTest? ==> resp == TestReply(m))
        && (route.ToDisconnect? ==> resp == DisconnectedReply && !robot.connected)
        && (route.ToDisconnect? ==>
              robot.arm.State() == old(robot.arm.State()).(connected := false)
              && robot.gripper.State() == old(robot.gripper.State()).(connected := false)
              && robot.gripper.LinkState() == old(robot.gripper.LinkState()))
        && (route.ToConnect? ==> (resp.ConnectedReply? <==> env.gripperUp && env.armUp)
                                 && (resp.ConnectedReply? ==> robot.connected && resp.status.connected)
                                 && (!resp.ConnectedReply? ==> resp == ErrorReply(ConnectFailed)))
        && (route.ToConnect? ==>
              robot.connected == (resp.ConnectedReply? || old(robot.connected))
              && (!env.gripperUp ==>
                    robot.gripper.State() == old(robot.gripper.State()).(connected := false)
                    && robot.gripper.LinkState() == old(robot.gripper.LinkState())
                    && robot.arm.State() == old(robot.arm.State()))
              && (env.gripperUp ==>
                    var ce := ConnectEffect(old(robot.gripper.State()), old(robot.gripper.transactionId),
                                            robot.gripper.unitId, env.replies);
                    var ae := ArmConnectEffect(old(robot.arm.State()), env.armUp, env.deliveries);
                    robot.gripper.State() == ce.0 && robot.arm.State() == ae.1
                    && (!resp.ConnectedReply? ==> robot.gripper.LinkState() == ce.1)
                    && (resp.ConnectedReply? ==>
                          var se := StatusEffect(ce.0, ce.1, robot.gripper.unitId);
                          resp.status == SystemStatus(true, ae.1.connected, se.0,
                                                      old(robot.lastOpenWidth), old(robot.lastCloseWidth))
                          && robot.gripper.LinkState() == se.1)))
        && (route.ToStatus? ==> resp.StatusReply? && resp.status.connected == old(robot.connected))
        && (route.ToStatus? ==>
              var e := StatusEffect(old(robot.gripper.State()), old(robot.gripper.LinkState()), robot.gripper.unitId);
              resp == StatusReply(SystemStatus(old(robot.connected), old(robot.arm.connected), e.0,
                                               old(robot.lastOpenWidth), old(robot.lastCloseWidth)))
              && robot.gripper.LinkState() == e.1
              && robot.connected == old(robot.connected)
              && robot.arm.State() == old(robot.arm.State())
              && robot.gripper.State() == old(robot.gripper.State()))
        && (route.ToMove? ==>
              var e := PoseMoveEffect(old(robot.arm.State()), route.pose, route.moveType);
              resp == MoveAnswer(route.pose, route.moveType, e.0) && robot.arm.State() == e.1
              && robot.gripper.LinkState() == old(robot.gripper.LinkState()))
        && (route.ToGripper? ==>
              var e := GripperActionEffect(true, old(robot.gripper.State()), old(robot.gripper.LinkState()),
                                           robot.gripper.unitId, route.action, route.width, route.force, route.speed);
              resp == GripperAnswer(route.action, route.width, route.force, route.speed, e.0)
              && robot.gripper.LinkState() == e.1 && robot.arm.State() == old(robot.arm.State()))
        && (route.ToConfig? ==>
              var e := ConfigOver(old(robot.gripper.connected), old(robot.gripper.LinkState()),
                                  robot.gripper.unitId, ConfigRequests(m));
              resp == ConfigAnswer(e.0) && robot.gripper.LinkState() == e.1
              && robot.arm.State() == old(robot.arm.State()))
        && (route.Refuse? || route.ToTest? ==>
              robot.connected == old(robot.connected)
              && robot.arm.State() == old(robot.arm.State())
              && robot.gripper.State() == old(robot.gripper.State())
              && robot.gripper.LinkState() == old(robot.gripper.LinkState()))
    {
      var route := RouteOf(m, robot.connected);
      match route {
        case Refuse(reason) =>
          resp := ErrorReply(Refused(reason));
        case ToTest =>
          resp := TestReply(m);
        case ToDisconnect =>
          robot.Disconnect();
          resp := DisconnectedReply;
        case ToConnect =>
          var ok := robot.Connect(env.gripperUp, env.replies, env.armUp, env.deliveries);
          if ok {
            var status := robot.GetStatus();
            resp := ConnectedReply(status);
          } else {
            resp := ErrorReply(ConnectFailed);
          }
        case ToStatus =>
          var status := robot.GetStatus();
          resp := StatusReply(status);
        case ToMove(pose, moveType) =>
          var o := robot.ExecuteMove(pose, moveType);
          resp := MoveAnswer(pose, moveType, o);
        case ToGripper(action, width, force, speed) =>
          var o := robot.ExecuteGripper(action, width, force, speed);
          resp := GripperAnswer(action, width, force, speed, o);
        case ToConfig =>
          resp := Configure(m);
      }
    }
  }

  /** The settings applied so far, extended by one; the run after it is one more step. */
  lemma Push(connected: bool, l: Link, unit: int, reqs: seq<(ConfigField, int)>, x: (ConfigField, int))
    returns (reqs': seq<(ConfigField, int)>)
    requires IsU16(l.tid)
    ensures reqs' == reqs + [x]
    ensures var before := ConfigOver(connected, l, unit, reqs);
      ConfigOver(connected, l, unit, reqs') == ConfigStep(before.0, connected, before.1, unit, x.0, x.1)
  {
    reqs' := reqs + [x];
    assert reqs'[..|reqs'| - 1] == reqs;
  }

  /** Once a setter has raised, the settings left over change nothing. */
  lemma {:induction false} AfterRaise(connected: bool, l: Link, unit: int,
                                      done: seq<(ConfigField, int)>, all: seq<(ConfigField, int)>)
    requires IsU16(l.tid)
    requires |done| <= |all| && all[..|done|] == done
    requires ConfigOver(connected, l, unit, done).0.raised
    ensures ConfigOver(connected, l, unit, all) == ConfigOver(connected, l, unit, done)
    decreases |all|
  {
    if |all| > |done| {
      var init := all[..|all| - 1];
      assert init[..|done|] == done;
      AfterRaise(connected, l, unit, done, init);
    } else {
      assert all == done;
    }
  }
}
