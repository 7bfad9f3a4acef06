# Chess robot arm controllers and tools: a Dafny model

This project models the sequential cores of the Python controllers of a chess-playing
UR3e arm fitted with an OnRobot 2FG7/2FG14 gripper, together with two small tools.
Everything is in Dafny and its properties are proved.

- **Modbus TCP gripper codec** (`Bytes`, `Modbus`, `OnRobot`). Covers the MBAP header, Read Holding Registers
  (function 0x03) and Write Single Register (function 0x06) requests, the detection of exception
  responses (function code + 0x80), the wrapping 16-bit transaction counter, the speed and width
  clamps, the status bits and the product codes.
- **The three gripper controllers** built on that codec. Each is a class with the source's fields:
  - `BridgeGripper.OnRobotGripper` of the WebSocket bridge;
  - `MomentGripper.SimpleGripperControl` of the control panel;
  - `KeyboardGripper.SimpleGripperControl` of the jog script, with its connection flag.
- **The bridge's arm and system** (`BridgeSystem`). Covers `URRobotArm.move_to_pose` (a linear move for
  "vertical", a joint move otherwise) and `RobotSystem.execute_gripper`, which also remembers the
  last open and close widths. `BridgeDispatch` models the bridge's message handler: its branch table,
  its validation checks in order, and its replies.
- **URScript commands** (`URScript`). These are values: name and arguments.
- **The real-time state stream reader** (`StateStream`). Its buffer is cut into length-prefixed packets.
  A pose is accepted from the packet only when it passes a sanity check.
- **The keyboard jog controller** (`JogControl`). Covers the six-axis velocity vector that presses and
  releases update in place, the rule that a command is sent only when the vector changes, pose moves
  and their cancellation, and the guard that keeps gripper commands from overlapping.
  `PoseKeys` models the pose-key loop.
- **The archive tools.** `Combine` models the writer that concatenates a source tree into one text file.
  `Restore` models the reader that cuts it back into files, deletes files not named in it and removes
  empty directories. `Text` models the Python string operations they use. The headline result is
  `Restore.RoundTrip`: the combined text of records that avoid the delimiter, and whose paths have no
  surrounding whitespace or newline, parses back to exactly those records.

Transport is modelled as values:
- A gripper's socket is the script of replies the device gives, one per request; a missing reply is
  a timeout. What was written is a sequence of request frames. It also holds each frame whose send
  failed or whose reply never came, because the model treats both as a lost reply.
- An arm's socket says which `sendall` calls go through, and keeps a log of the commands sent.
- The keyboard is the sequence of what each poll of it returned.
- Directory walks are the given listings, and `os.path.join`, `os.path.normpath` and `os.path.dirname`
  are function parameters.

## Model

| member | source | states |
|---|---|---|
| Bytes.U16BE | public/robot_bridge_advanced.py:120-124 | `struct.pack('>H', v)` gives two bytes whose big-endian value is `v` |
| Bytes.U16RoundTrip | public/robot_bridge_advanced.py:139 | two bytes read big-endian and packed again come back unchanged, so header fields decode to what was encoded |
| Bytes.And | public/robot_bridge_advanced.py:221-224 | bitwise AND never exceeds its first operand |
| Bytes.AndPow2 | public/robot_bridge_advanced.py:221-224 | masking with a single power of two is non-zero exactly when that bit is set |
| Modbus.MbapHeader | public/robot_bridge_advanced.py:119-124 | the `>HHHB` header is seven bytes |
| Modbus.MbapHeaderParses | public/robot_bridge_advanced.py:120-124 | unpacking a header packed from transaction id, length and unit gives back those fields with protocol 0 |
| Modbus.Frame | public/robot_bridge_advanced.py:119-127 | a request frame is the seven-byte header followed by the PDU unchanged |
| Modbus.FrameParses | public/robot_bridge_advanced.py:119-127 | a frame's header carries the transaction id, protocol 0, a length counting the unit id and the PDU, and the unit |
| Modbus.Next | public/robot_bridge_advanced.py:116 | the next transaction id stays within 16 bits |
| Modbus.NextIsModular | public/robot_bridge_advanced.py:116 | the next id is `(id + 1) % 65536`: 65535 wraps round to 0 |
| Modbus.Advance | public/robot_bridge_advanced.py:115-116 | after any number of requests the id is still a 16-bit value |
| Modbus.AdvanceModular | public/robot_bridge_advanced.py:115-116 | after n requests the id is the starting id plus n modulo 65536 |
| Modbus.ReadRequest | public/robot_bridge_advanced.py:168 | a read PDU is five bytes: function 0x03, the address and a count of 1, big-endian |
| Modbus.WriteRequest | public/robot_bridge_advanced.py:179 | a write PDU is five bytes: function 0x06, the address and the value, big-endian |
| Modbus.ParseHeader | public/robot_bridge_advanced.py:139 | the MBAP header read back: transaction id, protocol id and length big-endian, then the unit id |
| Modbus.Receive | public/robot_bridge_advanced.py:132-164 | a PDU is accepted exactly when the header is 7 bytes, an announced body arrives whole and does not start with the function code + 0x80; a transport error exactly when the socket raises; an announced length of 1 or less gives an empty PDU |
| Modbus.ReceiveFramed | public/robot_bridge_advanced.py:132-157 | a correctly framed device reply is received as its PDU, or as an exception reply when the PDU carries the exception flag |
| Modbus.ReadGuardTooShort | public/robot_bridge_advanced.py:171-173 | the three-byte PDU 03 02 00 passes the reply checks and then makes the as-written read raise |
| Modbus.ReadValue | public/robot_bridge_advanced.py:171-175 | a value is read exactly when the reply has 4 bytes starting 0x03, 0x02; it is then a 16-bit value |
| Modbus.ReadValueAgrees | public/robot_bridge_advanced.py:171-175 | wherever the as-written read does not raise, the corrected read gives the same value or the same absence |
| Modbus.ReadValueAsWritten | public/robot_bridge_advanced.py:171-175 | the read as written: a value from 4 bytes starting 0x03, 0x02, a raise from exactly 3 such bytes, otherwise no value |
| Modbus.ReadReplyRoundTrip | public/robot_bridge_advanced.py:171-173 | a device's normal read answer (0x03, 2, value) yields exactly that value |
| Modbus.RegisterRead | public/robot_bridge_advanced.py:166-175 | a value read from received bytes is a 16-bit register value |
| Modbus.WriteAcked | public/robot_bridge_advanced.py:182-185 | a write is acknowledged by a reply PDU of at least 5 bytes that starts 0x06 |
| Modbus.RegisterWritten | public/robot_bridge_advanced.py:177-185 | a reply acknowledges a write when it passes the reply checks and its PDU is acknowledging |
| Modbus.ReadReplyRead | public/robot_bridge_advanced.py:166-175 | whatever the transaction id and unit, a device's framed read answer is read as its value |
| Modbus.EchoAcknowledges | public/robot_bridge_advanced.py:182-183 | the echo of a write request the standard prescribes passes the write acknowledgement check |
| Modbus.EchoWritten | public/robot_bridge_advanced.py:177-185 | a framed echo of a write request makes the write succeed |
| Modbus.ExceptionRejected | public/robot_bridge_advanced.py:152-155 | an exception reply never counts as a written register nor as a read value |
| Modbus.Send | public/robot_bridge_advanced.py:114-130 | sending keeps the transaction counter within 16 bits |
| OnRobot.DecodeStatus | public/robot_bridge_advanced.py:219-226 | busy, grip detected, not calibrated and linear sensor error are bits 0, 1, 3 and 4 of the status register |
| OnRobot.ModelOf | public/robot_bridge_advanced.py:55-68 | product code 0xC0 names a 2FG7, 0xC1 a 2FG14, 0xF0 a 2FGP20, any other code an unknown model |
| OnRobot.NominalLimits | public/robot_bridge_advanced.py:80-86 | the fallback limits in tenths of a millimetre: 130-310 for a 2FG7, 220-480 for a 2FG14, 0-1000 otherwise |
| OnRobot.ClampSpeed | public/robot_bridge_advanced.py:237 | the speed is within 10..100, unchanged inside the range and the nearer bound outside it |
| OnRobot.ClampWidth | public/robot_bridge_advanced.py:244-254 | without limits the width is unchanged; with limits it lies within them, is unchanged inside them and is a bound otherwise |
| OnRobot.ClampIdempotent | public/robot_bridge_advanced.py:291 | clamping the speed or the width twice is clamping once |
| OnRobot.ReadEffect | public/robot_bridge_advanced.py:166-175 | a register read keeps the transaction counter within 16 bits |
| OnRobot.WriteEffect | public/robot_bridge_advanced.py:177-185 | a register write keeps the transaction counter within 16 bits |
| OnRobot.ReadEffectSpec | public/robot_bridge_advanced.py:108-111 | a read is refused unsent when not connected; otherwise it sends one read request under the current id, which advances, and yields the value of the next reply; what each kind of reply reads as is stated by Modbus.ReadReplyRead and Modbus.ExceptionRejected |
| OnRobot.WriteEffectSpec | public/robot_bridge_advanced.py:177-185 | a write raises, sending nothing, exactly when the value does not fit 16 bits; it succeeds exactly when connected, packable and acknowledged; a request is sent exactly when connected and packable; which replies acknowledge is stated by Modbus.EchoWritten and Modbus.ExceptionRejected |
| BridgeGripper.MoveSends | public/robot_bridge_advanced.py:230-278 | a move sends nothing unless connected and otherwise at most four requests, the first being the clamped target width, with the counter advanced by the number sent |
| BridgeGripper.MoveEffect | public/robot_bridge_advanced.py:230-278 | a move: refused unsent unless connected, otherwise the writes of the clamped width, the force and the clamped speed |
| BridgeGripper.GripWrites | public/robot_bridge_advanced.py:256-278 | the width, force and speed writes and then the grip command, each only after the previous one was acknowledged |
| BridgeGripper.ConfigEffect | public/robot_bridge_advanced.py:324-361 | a one-register write made only while connected |
| BridgeGripper.ConnectEffect | public/robot_bridge_advanced.py:39-90 | connecting reads the product code under the carried-on id and then identifies the gripper from it |
| BridgeGripper.IdentifyEffect | public/robot_bridge_advanced.py:51-90 | a missing or zero code identifies nothing; otherwise the model and flags, then the two limit reads, with the nominal limits when either read gave nothing |
| BridgeGripper.StatusEffect | public/robot_bridge_advanced.py:187-228 | a disconnected gripper reports that; otherwise the nine reads in order, each reported in its field |
| BridgeGripper.MoveDone | public/robot_bridge_advanced.py:256-278 | a move succeeds exactly when connected, the clamped width and the force fit 16 bits and all four writes are acknowledged; it then sent width, force, clamped speed and the grip command in that order |
| BridgeGripper.MoveNotDone | public/robot_bridge_advanced.py:256-275 | a move raises exactly when the clamped width, or after an acknowledged width the force, does not fit 16 bits; a failed move stops at the first unacknowledged write |
| BridgeGripper.MoveRaises | public/robot_bridge_advanced.py:256-265 | a move raises exactly when connected and the clamped width does not fit 16 bits, or the width was acknowledged and the force does not fit |
| BridgeGripper.MoveStops | public/robot_bridge_advanced.py:256-275 | a failed connected move sent one to four requests, the last one unacknowledged and every one before it acknowledged |
| BridgeGripper.MoveEchoed | public/robot_bridge_advanced.py:256-278 | against a gripper that echoes every write, a move of packable width and force succeeds |
| BridgeGripper.OpenCloseAreMoves | public/robot_bridge_advanced.py:280-310 | `open` and `close` are moves to the given width or to 20.0 mm / 0.3 mm, the extra speed clamp changing nothing |
| BridgeGripper.ConnectReadsCode | public/robot_bridge_advanced.py:39-50 | connecting marks the gripper connected and first sends a product-code read (register 1536) under the carried-on id |
| BridgeGripper.IdentifyNothing | public/robot_bridge_advanced.py:50-90 | an unreadable or zero product code identifies nothing and sends nothing more |
| BridgeGripper.IdentifyModel | public/robot_bridge_advanced.py:51-87 | a non-zero code names the model, sets the 2FG7/2FG14 flags, reads registers 259 and 260, and takes those limits or the nominal ones in the source's order |
| BridgeGripper.StatusReads | public/robot_bridge_advanced.py:187-228 | a connected status report sends the nine reads in order and reports each register's reply in its field |
| BridgeGripper.StatusLink | public/robot_bridge_advanced.py:187-228 | a connected status report sends nine reads of the status registers in order under consecutive ids, taking nine replies |
| BridgeGripper.StatusValues | public/robot_bridge_advanced.py:187-228 | a connected status report carries the stored identity and, field by field, the value of each of the nine replies in order |
| BridgeGripper.StatusOfDevice | public/robot_bridge_advanced.py:193-226 | when the nine reads are answered normally, the report carries the nine values and the status bits of the first |
| BridgeGripper.OnRobotGripper.constructor | public/robot_bridge_advanced.py:21-33 | a new gripper has transaction id 1, is not connected and has nothing identified |
| BridgeGripper.OnRobotGripper.SendRequest | public/robot_bridge_advanced.py:108-164 | nothing is sent unless connected; otherwise one frame under the current id, which advances, and the PDU that `Receive` accepts |
| BridgeGripper.OnRobotGripper.ReadHoldingRegister | public/robot_bridge_advanced.py:166-175 | the read is `ReadEffect` on the object's link, and its value fits 16 bits |
| BridgeGripper.OnRobotGripper.WriteSingleRegister | public/robot_bridge_advanced.py:177-185 | the write is `WriteEffect` on the object's link |
| BridgeGripper.OnRobotGripper.Connect | public/robot_bridge_advanced.py:35-97 | a link that does not come up leaves the gripper disconnected; otherwise the state is `ConnectEffect`'s |
| BridgeGripper.OnRobotGripper.Identify | public/robot_bridge_advanced.py:51-90 | identification is `IdentifyEffect` on the object's state |
| BridgeGripper.OnRobotGripper.Disconnect | public/robot_bridge_advanced.py:99-106 | only the connection flag changes |
| BridgeGripper.OnRobotGripper.GetStatus | public/robot_bridge_advanced.py:187-228 | the report and the link are `StatusEffect`'s |
| BridgeGripper.OnRobotGripper.MoveToWidth | public/robot_bridge_advanced.py:230-278 | the outcome and link are `MoveEffect`'s with the stored limits |
| BridgeGripper.OnRobotGripper.Open | public/robot_bridge_advanced.py:280-294 | a move to the given width or 20.0 mm |
| BridgeGripper.OnRobotGripper.Close | public/robot_bridge_advanced.py:296-310 | a move to the given width or 0.3 mm |
| BridgeGripper.OnRobotGripper.Stop | public/robot_bridge_advanced.py:312-322 | the stop command (3) written to the command register when connected |
| BridgeGripper.OnRobotGripper.SetFingerLength | public/robot_bridge_advanced.py:324-331 | one write to register 1024 when connected |
| BridgeGripper.OnRobotGripper.SetFingerHeight | public/robot_bridge_advanced.py:333-340 | one write to register 1025 when connected |
| BridgeGripper.OnRobotGripper.SetFingerOrientation | public/robot_bridge_advanced.py:342-352 | orientations other than 0 and 1 fail unsent; otherwise one write to register 1026 |
| BridgeGripper.OnRobotGripper.SetFingertipOffset | public/robot_bridge_advanced.py:354-361 | one write to register 1027 when connected |
| BridgeSystem.MoveCommand | public/robot_bridge_advanced.py:433-444 | "vertical" gives a linear move and every other type a joint move, at the pose's six numbers with a=0.3 and v=0.15 |
| BridgeSystem.SendEffect | public/robot_bridge_advanced.py:411-425 | a send is refused unless connected; a delivered one is logged, a failed one drops the connection |
| BridgeSystem.ArmConnectEffect | public/robot_bridge_advanced.py:383-401 | a link that does not come up leaves the arm disconnected; one that does starts a fresh log and sends the greeting |
| BridgeSystem.PoseMoveEffect | public/robot_bridge_advanced.py:427-455 | a move is refused unless connected, raises on a pose missing a key, and otherwise succeeds exactly when its command is delivered |
| BridgeSystem.GripperActionEffect | public/robot_bridge_advanced.py:521-546 | the action names the gripper operation: open and close are moves to the given or default width, stop is the stop command, move_to_width needs a width, anything else fails |
| BridgeSystem.SettleTime | public/robot_bridge_advanced.py:433-440 | the wait is 1.0 s for "vertical", 3.5 s for "clearance" and 4.0 s otherwise |
| BridgeSystem.PoseMoveSpec | public/robot_bridge_advanced.py:427-455 | a move completes exactly when connected, the pose has its six keys and the send goes through; only then is the command logged; it raises exactly on a missing key; a failed send drops the connection |
| BridgeSystem.ArmConnectSpec | public/robot_bridge_advanced.py:383-401 | connecting reports whether the link came up; when it does the greeting is sent and the arm stays connected only if that send goes through |
| BridgeSystem.URRobotArm.constructor | public/robot_bridge_advanced.py:377-381 | a new arm is not connected and has sent nothing |
| BridgeSystem.URRobotArm.SendCommand | public/robot_bridge_advanced.py:411-425 | the send is `SendEffect`: refused unless connected, a failed send drops the connection |
| BridgeSystem.URRobotArm.Connect | public/robot_bridge_advanced.py:383-401 | the new state is `ArmConnectEffect`'s |
| BridgeSystem.URRobotArm.Disconnect | public/robot_bridge_advanced.py:403-409 | only the connection flag changes |
| BridgeSystem.URRobotArm.MoveToPose | public/robot_bridge_advanced.py:427-455 | the outcome and state are `PoseMoveEffect`'s, and the wait is the settle time only after a completed move |
| BridgeSystem.Remembered | public/robot_bridge_advanced.py:527-536 | a remembered width changes only after a successful action of that kind with a width given, and then becomes that width |
| BridgeSystem.GripperActionSpec | public/robot_bridge_advanced.py:521-546 | refused actions touch nothing; "open", "close" and "move_to_width" are moves to the given or default width; "stop" is the stop command |
| BridgeSystem.RobotSystem.constructor | public/robot_bridge_advanced.py:472-477 | a new system owns a fresh arm and a fresh gripper (unit 65), not connected, with no remembered widths |
| BridgeSystem.RobotSystem.Connect | public/robot_bridge_advanced.py:479-505 | the gripper is connected first; its failure leaves the arm untouched; the system is connected only when both come up |
| BridgeSystem.RobotSystem.Disconnect | public/robot_bridge_advanced.py:507-513 | both devices and the system are marked disconnected; the remembered widths stay |
| BridgeSystem.RobotSystem.ExecuteMove | public/robot_bridge_advanced.py:515-519 | refused unless connected; otherwise the arm's move |
| BridgeSystem.RobotSystem.ExecuteGripper | public/robot_bridge_advanced.py:521-546 | the outcome and gripper link are `GripperActionEffect`'s; the open and close widths are remembered per `Remembered` |
| BridgeSystem.RobotSystem.GetStatus | public/robot_bridge_advanced.py:548-560 | the report combines the system flag, the arm flag, the gripper's status and the remembered widths |
| BridgeDispatch.RouteOf | public/robot_bridge_advanced.py:615-774 | each branch's validation in order (no pose, invalid action, missing width, not connected, unknown type); operations are reached only when connected, with the request's fields and the defaults 20, 50 and "clearance" |
| BridgeDispatch.FieldRegister | public/robot_bridge_advanced.py:324-361 | the configuration registers are 16-bit addresses |
| BridgeDispatch.Setting | public/robot_bridge_advanced.py:719 | a setting appears at most once; it is there exactly when its key is present in the request, and then carries that key's value |
| BridgeDispatch.ConfigRequests | public/robot_bridge_advanced.py:719-746 | the settings applied are exactly the keys present, with their values, in the handler's order |
| BridgeDispatch.ConfigOver | public/robot_bridge_advanced.py:716-746 | applying settings keeps the transaction counter within 16 bits |
| BridgeDispatch.ConfigOverSpec | public/robot_bridge_advanced.py:716-746 | unless a setter raises, every setting is attempted and noted in order, and the request succeeds exactly when every setting was applied |
| BridgeDispatch.SetterEffect | public/robot_bridge_advanced.py:324-361 | an orientation other than 0 or 1 fails unsent; any other setting is a write of its register |
| BridgeDispatch.ConfigStep | public/robot_bridge_advanced.py:719-746 | once a setter has raised nothing more happens; otherwise the setting is written and noted, and success is kept only while every setting succeeds |
| BridgeDispatch.FieldValue | public/robot_bridge_advanced.py:719-746 | the request's value for each configuration key, if present |
| BridgeDispatch.Rank | public/robot_bridge_advanced.py:719-746 | the order in which the handler applies the four settings |
| BridgeDispatch.NotesFollow | public/robot_bridge_advanced.py:719-746 | the notes record the requested settings one for one, in order, with the value of each applied one |
| BridgeDispatch.AllApplied | public/robot_bridge_advanced.py:748-759 | every noted setting was applied |
| BridgeDispatch.StepNotes | public/robot_bridge_advanced.py:719-746 | a step that does not raise adds exactly one note, for its field and with its value when applied, and keeps success exactly when that setting was applied |
| BridgeDispatch.NotesSnoc | public/robot_bridge_advanced.py:719-746 | notes that follow the settings, extended by one matching note, follow the extended settings; they are all applied exactly when the old ones were and the new one is |
| BridgeDispatch.ConfigDisconnected | public/robot_bridge_advanced.py:324-361 | with the gripper disconnected nothing is written and nothing raises, whatever the values (the connection is checked before packing), every setting is noted as not applied, and only an empty request succeeds |
| BridgeDispatch.MoveAnswer | public/robot_bridge_advanced.py:661-673 | a move is answered complete exactly when it succeeded, and as a processing error exactly when it raised |
| BridgeDispatch.GripperAnswer | public/robot_bridge_advanced.py:691-705 | a gripper action is answered complete, echoing the parameters, exactly when it succeeded |
| BridgeDispatch.ConfigAnswer | public/robot_bridge_advanced.py:748-759 | a configuration request is answered "config_set" with its details exactly when nothing raised and all succeeded |
| BridgeDispatch.WebSocketBridge.constructor | public/robot_bridge_advanced.py:569-571 | a new bridge owns a fresh, disconnected robot system |
| BridgeDispatch.WebSocketBridge.ApplySetting | public/robot_bridge_advanced.py:719-746 | one setting is `ConfigStep` on the gripper's link |
| BridgeDispatch.WebSocketBridge.ApplyIfPresent | public/robot_bridge_advanced.py:719-725 | a setting is applied only when its key is present, extending the run by that setting |
| BridgeDispatch.WebSocketBridge.Configure | public/robot_bridge_advanced.py:712-759 | the reply and link are those of applying `ConfigRequests` in order |
| BridgeDispatch.WebSocketBridge.HandleMessage | public/robot_bridge_advanced.py:615-774 | a refused request answers its reason and changes nothing; a disconnect clears both devices' flags and touches nothing else; a connect reports success exactly when both devices came up, leaves the arm alone when the gripper does not, and otherwise leaves the gripper and arm in `ConnectEffect`'s and `ArmConnectEffect`'s states, a success answering the status read just after; a status request answers `StatusEffect`'s report with the old flags and widths; every other route answers from the effect of its one operation, leaving the other device untouched |
| BridgeDispatch.Push | public/robot_bridge_advanced.py:719-746 | applying one more setting is one more step of the run |
| BridgeDispatch.AfterRaise | public/robot_bridge_advanced.py:606-608 | once a setter has raised, the remaining settings change nothing |
| MomentGripper.LimitsEffect | momentoftruth.py:142-149 | reading the limits keeps the transaction counter within 16 bits |
| MomentGripper.StatusEffect | momentoftruth.py:151-161 | reading the status keeps the transaction counter within 16 bits |
| MomentGripper.ParamsEffect | momentoftruth.py:163-182 | setting the parameters keeps the transaction counter within 16 bits |
| MomentGripper.FullEffect | momentoftruth.py:188-224 | a full open or close keeps the transaction counter within 16 bits |
| MomentGripper.FullFrom | momentoftruth.py:191-205 | after the limits: no limit fails at once; otherwise the parameters with it, then the grip command only if they all succeeded |
| MomentGripper.LimitsSpec | momentoftruth.py:142-149 | the limits come as a pair or not at all, a pair exactly when both reads (259 then 260) gave values |
| MomentGripper.ParamsAllAttempted | momentoftruth.py:163-182 | with a socket, the width, force and speed writes are all sent in that order whatever the earlier ones gave, and the call succeeds exactly when all three are acknowledged |
| MomentGripper.ParamsRaise | momentoftruth.py:166-175 | a width, force or speed that does not fit 16 bits raises, after the writes before it |
| MomentGripper.FullSpec | momentoftruth.py:188-224 | an unreadable limit fails after the two reads; a success used the limit read (maximum to open, minimum to close), set the parameters and then sent the grip command |
| MomentGripper.FullDone | momentoftruth.py:188-224 | a full open or close succeeds exactly when the limit was read, the parameters with it were all acknowledged, and the grip command after them was acknowledged |
| MomentGripper.FullFromDone | momentoftruth.py:191-205 | after the limits, success exactly when the limit is there, the parameters with it were all acknowledged and so was the grip command, the fourth request |
| MomentGripper.StatusSpec | momentoftruth.py:151-161 | the status comes from one read of register 256: present exactly when a socket is there and the reply carries a value, and then its flags are bits 0, 1, 3 and 4 of it |
| MomentGripper.SimpleGripperControl.constructor | momentoftruth.py:11-17 | a new controller has no socket and transaction id 1 |
| MomentGripper.SimpleGripperControl.Connect | momentoftruth.py:19-33 | a new socket replaces the old one whether or not it connects, and the id carries on |
| MomentGripper.SimpleGripperControl.Disconnect | momentoftruth.py:35-41 | the socket is dropped; the id stays |
| MomentGripper.SimpleGripperControl.SendRequest | momentoftruth.py:43-100 | nothing without a socket; otherwise one frame under the current id and the PDU `Receive` accepts, an empty one counting as a failure |
| MomentGripper.SimpleGripperControl.ReadHoldingRegister | momentoftruth.py:102-115 | the read is `ReadEffect` on the object's link and its value fits 16 bits |
| MomentGripper.SimpleGripperControl.WriteSingleRegister | momentoftruth.py:117-129 | the write is `WriteEffect` on the object's link |
| MomentGripper.SimpleGripperControl.GetProductInfo | momentoftruth.py:131-133 | a read of register 1536 |
| MomentGripper.SimpleGripperControl.GetCurrentWidth | momentoftruth.py:135-140 | a read of register 257 |
| MomentGripper.SimpleGripperControl.GetLimits | momentoftruth.py:142-149 | the limits and link are `LimitsEffect`'s |
| MomentGripper.SimpleGripperControl.GetStatus | momentoftruth.py:151-161 | the status bits and link are `StatusEffect`'s |
| MomentGripper.SimpleGripperControl.SetGripperParameters | momentoftruth.py:163-182 | the outcome and link are `ParamsEffect`'s |
| MomentGripper.SimpleGripperControl.ExecuteCommand | momentoftruth.py:184-186 | one write to the command register |
| MomentGripper.SimpleGripperControl.Full | momentoftruth.py:188-224 | the outcome and link are `FullEffect`'s |
| MomentGripper.SimpleGripperControl.FullOpen | momentoftruth.py:188-205 | a full move to the maximum width |
| MomentGripper.SimpleGripperControl.FullClose | momentoftruth.py:207-224 | a full move to the minimum width |
| MomentGripper.SimpleGripperControl.Stop | momentoftruth.py:226-228 | the stop command (3) written to the command register |
| KeyboardGripper.KSend | robotkeyboardcontrol.py:132-181 | a request keeps the counter within 16 bits, never changes whether a socket is held and leaves the device's replies untouched |
| KeyboardGripper.Drops | robotkeyboardcontrol.py:160-181 | a reply drops the connection when none arrives or when its body is empty, so that the exception check raises |
| KeyboardGripper.KRead | robotkeyboardcontrol.py:183-198 | a read keeps the counter within 16 bits, the socket as it was and the device's replies untouched |
| KeyboardGripper.KWrite | robotkeyboardcontrol.py:200-214 | a write keeps the counter within 16 bits, the socket as it was and the device's replies untouched |
| KeyboardGripper.KParams | robotkeyboardcontrol.py:244-261 | setting the parameters keeps the counter within 16 bits, the socket as it was and the device's replies untouched |
| KeyboardGripper.KCommand | robotkeyboardcontrol.py:263-267 | a command keeps the counter within 16 bits, the socket as it was and the device's replies untouched |
| KeyboardGripper.KLimits | robotkeyboardcontrol.py:223-230 | reading the limits keeps the counter within 16 bits, the socket as it was and the device's replies untouched |
| KeyboardGripper.KFull | robotkeyboardcontrol.py:269-303 | a full open or close keeps the counter within 16 bits, the socket as it was and the device's replies untouched |
| KeyboardGripper.KFullFrom | robotkeyboardcontrol.py:269-303 | after the limits: no limit fails at once; otherwise the parameters with it, then the grip command only if they all succeeded; the device replies are untouched |
| KeyboardGripper.NoteCommand | robotkeyboardcontrol.py:277-300 | the last command changes only after a full open or close that succeeded, and then names it |
| KeyboardGripper.KSendSpec | robotkeyboardcontrol.py:132-181 | a request is refused unsent unless both the socket and the flag are there; a sent one advances the link, and the flag is cleared exactly when the reply makes the code raise (none, or an empty body); a value comes back only while connected |
| KeyboardGripper.KRequestSpec | robotkeyboardcontrol.py:183-214 | reads and writes with the flag clear send nothing; a write of an unpackable value raises unsent; otherwise the flag drops exactly on a raising reply and a write succeeds exactly when acknowledged |
| KeyboardGripper.KParamsSpec | robotkeyboardcontrol.py:244-261 | with packable values the call never raises; on a live link it succeeds exactly when all three writes are acknowledged, and the writes stop early only where the connection dropped |
| KeyboardGripper.KReadValue | robotkeyboardcontrol.py:183-198 | on a live link a read yields what the reply carries, and a reply carrying a value does not drop the link |
| KeyboardGripper.KLimitsSpec | robotkeyboardcontrol.py:223-230 | the limits come as a pair or not at all, a pair exactly when the link is live and both replies carry values; the second read is sent unless the first one dropped the link |
| KeyboardGripper.KParamsDoneFits | robotkeyboardcontrol.py:244-261 | parameters that were all set were packable and set on a live link |
| KeyboardGripper.KFullSpec | robotkeyboardcontrol.py:269-303 | a full open or close succeeds exactly when the limit was read, the parameters with it were all acknowledged and the grip command, the sixth request, was acknowledged; the link is then still up |
| KeyboardGripper.KLimitsTarget | robotkeyboardcontrol.py:223-230 | a limit that was read came from its reply, two requests on, with the link still up |
| KeyboardGripper.KFullAfterLimits | robotkeyboardcontrol.py:269-303 | the statement of `KFullSpec` for any limits read as `KLimitsTarget` says |
| KeyboardGripper.KFullFromSpec | robotkeyboardcontrol.py:269-303 | after the limits, success exactly when the limit is there, the parameters with it and then the grip command were all acknowledged; the link is then up, four requests on |
| KeyboardGripper.KCommandAfterParams | robotkeyboardcontrol.py:263-267 | after parameters that were all set, the grip command is the fourth request and succeeds exactly when its reply acknowledges it, keeping the link up |
| KeyboardGripper.SimpleGripperControl.constructor | robotkeyboardcontrol.py:98-105 | a new controller has no socket, is not connected, has id 1 and no last command |
| KeyboardGripper.SimpleGripperControl.Connect | robotkeyboardcontrol.py:107-122 | a new socket replaces the old one, the flag says whether it connected, and the id carries on |
| KeyboardGripper.SimpleGripperControl.Disconnect | robotkeyboardcontrol.py:124-129 | only a held socket is closed, and only then is the flag cleared |
| KeyboardGripper.SimpleGripperControl.SendRequest | robotkeyboardcontrol.py:132-181 | the result and state are `KSend`'s |
| KeyboardGripper.SimpleGripperControl.ReadHoldingRegister | robotkeyboardcontrol.py:183-198 | the result and state are `KRead`'s |
| KeyboardGripper.SimpleGripperControl.WriteSingleRegister | robotkeyboardcontrol.py:200-214 | the result and state are `KWrite`'s |
| KeyboardGripper.SimpleGripperControl.GetCurrentWidth | robotkeyboardcontrol.py:216-221 | a read of register 257 |
| KeyboardGripper.SimpleGripperControl.GetLimits | robotkeyboardcontrol.py:223-230 | the limits and state are `KLimits`'s |
| KeyboardGripper.SimpleGripperControl.GetStatus | robotkeyboardcontrol.py:232-242 | a read of register 256, decoded into its four status bits when it gave a value |
| KeyboardGripper.SimpleGripperControl.SetGripperParameters | robotkeyboardcontrol.py:244-261 | the outcome and state are `KParams`'s |
| KeyboardGripper.SimpleGripperControl.ExecuteCommand | robotkeyboardcontrol.py:263-267 | the outcome and state are `KCommand`'s |
| KeyboardGripper.SimpleGripperControl.Full | robotkeyboardcontrol.py:269-303 | the outcome and state are `KFull`'s, and the last command is noted only on success |
| KeyboardGripper.SimpleGripperControl.Stop | robotkeyboardcontrol.py:305-312 | the stop command written to the command register when connected |
| Text.Lower | robotkeyboardcontrol.py:468 | `lower()` on one character maps 'A'..'Z' to 'a'..'z' and leaves every other character alone |
| JogControl.KeyMap | robotkeyboardcontrol.py:48-64 | exactly the twelve movement keys jog, each one axis in 0..5 and one direction ±1; exactly 'g', 'h', 'y' are gripper keys; exactly '1'..'8' are pose keys |
| JogControl.AxisSpeed | robotkeyboardcontrol.py:477-508 | the three linear axes move at ±0.05 and the three rotational axes at ±0.3 |
| JogControl.PressOf | robotkeyboardcontrol.py:464-512 | during a pose move a movement key cancels it and sets its axis; a movement key always sets its axis speed; a pose key is refused during a pose move and starts one otherwise; exactly the gripper keys start a gripper thread, with their command; exactly Esc stops the listener |
| JogControl.ReleasedAxis | robotkeyboardcontrol.py:515-526 | only a movement key's release zeroes an axis, that key's axis |
| JogControl.LoopCommand | robotkeyboardcontrol.py:373-393 | a command is sent exactly when no pose move is running and the vector differs from the last sent; it is `speedl` of the vector exactly when some axis moves, `stopl(0.5)` otherwise |
| JogControl.VelocitiesEqual | robotkeyboardcontrol.py:314-315 | two vectors are equal when every pair of axes, up to the shorter length, differs by less than the tolerance |
| JogControl.AnyMoving | robotkeyboardcontrol.py:383 | some axis moves by more than the tolerance |
| JogControl.SendOnlyOnChange | robotkeyboardcontrol.py:382-393 | an unchanged vector sends nothing, and a change of at least the tolerance on some axis sends a command |
| JogControl.PoseFor | robotkeyboardcontrol.py:426-458 | '1'..'6' name the corner at that position only when the file has that many corners; '7' and '8' the home and drop poses only when present; every other key no pose |
| JogControl.MoveLCommands | robotkeyboardcontrol.py:328-336 | the text message naming the pose when there is a name, then the linear move at a=0.3, v=0.15 |
| JogControl.JogGlobals.constructor | robotkeyboardcontrol.py:33-43 | the velocity and the last sent vector start at six zeros, every flag is clear and the loop is running |
| JogControl.JogGlobals.OnPress | robotkeyboardcontrol.py:464-512 | the velocity vector is updated in place at the axis `PressOf` names, the cancel flag is raised when it cancels, and nothing else changes |
| JogControl.JogGlobals.OnRelease | robotkeyboardcontrol.py:515-526 | only the released movement key's axis is zeroed |
| JogControl.JogGlobals.TryAcquireGripper | robotkeyboardcontrol.py:405-410 | a command is taken exactly when the gripper is not busy, and the gripper is busy afterwards |
| JogControl.JogGlobals.ReleaseGripper | robotkeyboardcontrol.py:421-423 | the busy flag is cleared |
| JogControl.GripperCommandThread | robotkeyboardcontrol.py:401-423 | a command arriving while busy is ignored; otherwise it runs, the busy flag is cleared afterwards, and an open or close is noted as the last command only on success |
| JogControl.GripperThreadEffect | robotkeyboardcontrol.py:411-418 | "open" and "close" are full moves with the default force and speed, "stop" is the stop command, and anything else does nothing |
| JogControl.URJogController.constructor | robotkeyboardcontrol.py:319-322 | the controller starts by sending the greeting |
| JogControl.URJogController.Send | robotkeyboardcontrol.py:324-326 | one command appended to what the arm received |
| JogControl.URJogController.LoopPass | robotkeyboardcontrol.py:373-395 | the command sent is `LoopCommand` of the state, and the last sent vector becomes the current one exactly when one was sent |
| JogControl.URJogController.Shutdown | robotkeyboardcontrol.py:397-398 | a final `stopl(0.5)` |
| JogControl.URJogController.MoveToPoseBegin | robotkeyboardcontrol.py:338-349 | the pose move is marked in progress and not cancelled; a pose missing a key raises with nothing sent; otherwise the move commands are sent |
| JogControl.URJogController.MoveToPoseEnd | robotkeyboardcontrol.py:356-367 | a cancellation seen sends `stopl(0.5)`, and both flags are cleared |
| JogControl.URJogController.PoseMoveThread | robotkeyboardcontrol.py:426-461 | a key without a pose behind it moves nothing; otherwise the move to `PoseFor`'s pose begins |
| PoseKeys.KeyOf | robotmovetoposes.py:68-79 | a key is read exactly on Windows, with a key waiting, that decodes as one UTF-8 byte; it is the lower-cased character |
| PoseKeys.Dispatch | robotmovetoposes.py:89-106 | 'q' exactly quits, ' ' exactly stops; 'h'/'d' move to home/drop only when present and are otherwise unknown keys; a digit k moves to corner k-1 when it exists and is otherwise not defined; every other key is unknown |
| PoseKeys.CornerKeysAgree | robotmovetoposes.py:99-102 | keys '1'..'6' name the same corner poses as the jog script's lookup; '7' names a corner here and the home pose there |
| PoseKeys.Step | robotmovetoposes.py:86-106 | a stopped loop changes nothing; commands are only appended; something is sent only for the space bar or a move, while connected; `running` changes exactly on 'q'; an exception exactly on a move to a pose missing a key |
| PoseKeys.Halted | robotmovetoposes.py:86 | the loop has stopped: its `running` flag is clear or an exception escaped |
| PoseKeys.Run | robotmovetoposes.py:86-107 | the loop state after the polls, one `Step` per poll |
| PoseKeys.RunGrows | robotmovetoposes.py:86-107 | over any run of polls the commands only grow, and a stopped loop stays stopped |
| PoseKeys.RunHalted | robotmovetoposes.py:86 | once `running` is false or an exception has escaped, later key presses change nothing |
| PoseKeys.QuitEndsSession | robotmovetoposes.py:89-91 | after 'q' the loop ends and nothing more reaches the robot |
| PoseKeys.QuitStep | robotmovetoposes.py:89-91 | 'q' on a loop still going only clears `running` |
| PoseKeys.OnlyStopsAndMoves | robotmovetoposes.py:92-102 | the loop sends the robot nothing but `stopl(2.0)`, "Moving to" messages and moves at a=0.3, v=0.15 |
| PoseKeys.RobotController.constructor | robotmovetoposes.py:26-31 | a new controller is running, unconnected, with nothing sent |
| PoseKeys.RobotController.Send | robotmovetoposes.py:46-56 | without a connection nothing is sent and the result is false |
| PoseKeys.RobotController.Connect | robotmovetoposes.py:33-44 | the result is whether the arm accepted the connection, which is then greeted |
| PoseKeys.RobotController.MoveToPose | robotmovetoposes.py:58-66 | a pose missing a key raises with nothing sent; otherwise the "Moving to" message and then the move |
| PoseKeys.RobotController.HandleKey | robotmovetoposes.py:88-106 | one pass of the loop body is `Step` on the object's state |
| PoseKeys.RobotController.InteractiveLoop | robotmovetoposes.py:81-107 | the loop's final state is `Run` over the polls of the keyboard |
| StateStream.DeclaredSize | robotcontroltestTCP.py:72 | the size a header declares is a 32-bit unsigned value |
| StateStream.PacketPose | robotcontroltestTCP.py:83-99 | a packet yields a pose exactly when it is long enough to hold the 48 pose bytes at offset 448 and the decoded pose passes the sanity bounds, and the pose is the decoding of exactly those bytes |
| StateStream.Sane | robotcontroltestTCP.py:93-94 | x and y within 2 m, z strictly between 0 and 2 m, and each rotation within 10 rad |
| StateStream.Latest | robotcontroltestTCP.py:93-99 | after a run of packets the current pose is the old one or one that some packet of the run yields |
| StateStream.ConcatCons | robotcontroltestTCP.py:76-78 | the bytes of a run of packets are the first packet's followed by the rest's |
| StateStream.SplitBuffer | robotcontroltestTCP.py:70-115 | the split stalls exactly when the bytes left declare size 0; otherwise what is left is shorter than a header or shorter than the packet it declares |
| StateStream.SplitConcat | robotcontroltestTCP.py:70-115 | nothing is lost or reordered: the packets cut followed by what is left are the buffer |
| StateStream.FirstPacket | robotcontroltestTCP.py:72-78 | a complete packet at the front is cut off whole, exactly as long as its header declares, and the split continues after it |
| StateStream.IncompleteKept | robotcontroltestTCP.py:113-115 | a front packet longer than the buffer stops the loop with the buffer kept as it is |
| StateStream.SplitExtends | robotcontroltestTCP.py:57-115 | more data only adds packets after those already cut: splitting in two receives gives the same packets as splitting once |
| StateStream.SplitSoFarStep | robotcontroltestTCP.py:75-78 | cutting one complete packet keeps the packet loop's invariant |
| StateStream.SplitSoFarDone | robotcontroltestTCP.py:70-115 | where the packet loop stops, the packets cut so far are the whole split |
| StateStream.LatestSnoc | robotcontroltestTCP.py:93-99 | one more packet replaces the current pose exactly when it yields one |
| StateStream.FrontOfAppend | robotcontroltestTCP.py:61-78 | appending data keeps the front header and the front packet of a buffer that holds them |
| StateStream.ContinuousTCPReader.constructor | robotcontroltestTCP.py:29-55 | a new reader has an empty buffer, no pose and is not running |
| StateStream.ContinuousTCPReader.Receive | robotcontroltestTCP.py:61-63 | a received chunk is appended after the buffered bytes |
| StateStream.ContinuousTCPReader.ProcessBuffer | robotcontroltestTCP.py:70-115 | the packets cut and the bytes left are `SplitBuffer` of the old buffer, and the pose is `Latest` over those packets |
| StateStream.ContinuousTCPReader.Start | robotcontroltestTCP.py:128-146 | the result is true exactly when the connection came up; then the reader runs with an empty buffer, since each reading thread starts its own; a failed connection leaves every field as it was |
| StateStream.ContinuousTCPReader.Stop | robotcontroltestTCP.py:153-159 | the reader stops, keeping its buffer and pose |
| StateStream.ContinuousTCPReader.Poll | robotcontroltestTCP.py:58-115 | no data skips the packet loop and changes nothing; a chunk is appended and the buffer split, with the pose updated from the packets cut |
| Text.FindFrom | recursivereverse.py:15-19 | the first occurrence of the delimiter at or after the start, or none at all |
| Text.Find | recursivereverse.py:15-19 | the first occurrence of the delimiter, and none exactly when the text is free of it |
| Text.SplitOn | recursivereverse.py:15 | `split` gives at least one piece and no piece contains the delimiter |
| Text.SplitJoin | recursivereverse.py:15 | joining the pieces of `split` with the delimiter gives the text back |
| Text.Partition | recursivereverse.py:19 | `partition` gives three parts that make up the text; the middle part is empty exactly when the delimiter does not occur, and is the delimiter otherwise, with no occurrence before it |
| Text.Strip | recursivereverse.py:20 | `strip` is no longer than its argument and has no whitespace at either end |
| Text.StripUnspaced | recursivereverse.py:20 | a text without whitespace at either end is unchanged by `strip` |
| Text.FreeAcrossNewline | recursivereverse.py:15 | two delimiter-free texts joined at a newline stay free of a delimiter without a newline |
| Text.NoneBeforeNewline | recursivereverse.py:15 | no delimiter occurrence starts inside a delimiter-free prefix that ends in a newline |
| Text.FindIs | recursivereverse.py:15-19 | the first occurrence is the one with none before it |
| Combine.Body | recursive.py:27-31 | a readable file contributes its text, an unreadable one the note with the exception's message |
| Combine.Record | recursive.py:26-32 | a record is the delimiter header with the path, the body and the blank-line separator |
| Combine.Archive | recursive.py:19-32 | the output is the records one after another |
| Combine.Included | recursive.py:10-25 | the records written come from files of the walk whose names are not skipped, each with its joined path and body; a walk of skipped names writes nothing |
| Combine.ArchiveSnoc | recursive.py:19-32 | one more record adds its text at the end of the output |
| Combine.CombineFiles | recursive.py:19-32 | the output is the records of the files not skipped, in walk order, each header, body and separator |
| Combine.IncludedStep | recursive.py:21-25 | one more file of the walk adds its record exactly when its name is not skipped |
| Combine.RecordAppended | recursive.py:26-32 | the header, body and separator written one after the other make one record |
| Restore.ParseBlock | recursivereverse.py:19-24 | the path is the header before the first end-of-header marker, stripped; the body is what follows, with one trailing blank-line separator removed when present; a block without the marker has an empty body |
| Restore.Blocks | recursivereverse.py:15-16 | no block holds the delimiter, and there are none exactly when the text holds no delimiter |
| Restore.Parse | recursivereverse.py:15-24 | one (path, body) pair per block |
| Restore.RecordParts | recursive.py:26-32 | a record is the delimiter, the path, the end-of-header marker, the body and the separator |
| Restore.RestFree | recursive.py:26-32 | a recoverable record holds no delimiter after its first one and ends with a newline |
| Restore.BlockRoundTrip | recursivereverse.py:19-24 | the block of a recoverable record parses to its path and body |
| Restore.SplitRests | recursivereverse.py:15-16 | splitting a run of recoverable records gives each record's block, in order |
| Restore.ParseRests | recursivereverse.py:18-24 | parsing the blocks of recoverable records gives the records back |
| Restore.RestsAt | recursivereverse.py:18 | the k-th block is the k-th record's |
| Restore.ArchiveFront | recursivereverse.py:15-16 | the combined text starts with the delimiter, so the first piece of the split is empty |
| Restore.RoundTrip | recursivereverse.py:11-24 | restoring undoes combining: the combined text of recoverable records parses back to exactly those records; the ban on newlines in a path is a simplification (see Left out) |
| Restore.Recoverable | recursivereverse.py:19-24 | a record reads back when its path has no newline and no surrounding whitespace, and neither the path with the end-of-header marker nor the body holds the delimiter |
| Restore.SourceTree.constructor | recursivereverse.py:3-6 | the tree starts with the given root, files and directories |
| Restore.SourceTree.WriteBlocks | recursivereverse.py:18-31 | every block's body is written to its normalised path over the old files, and the expected set is those paths |
| Restore.SourceTree.DeleteUnlisted | recursivereverse.py:33-42 | exactly the listed files that are not expected and are not the combined file are removed, and the rest keep their contents |
| Restore.SourceTree.RemoveEmptyDirs | recursivereverse.py:44-49 | no file changes; the directories left are `Pruned`'s: the walk removes each directory but the root that is empty at its turn, and nothing else |
| Restore.SourceTree.IsEmpty | recursivereverse.py:47 | a directory is empty when no file and no directory left lies directly in it |
| Restore.EmptyIn | recursivereverse.py:47 | the same test on a given tree |
| Restore.Pruned | recursivereverse.py:44-49 | the walk keeps every directory not in it and the root, and removes a directory only at its turn when it is empty then |
| Restore.Up | recursivereverse.py:44 | the ancestor a number of levels up |
| Restore.Barren | recursivereverse.py:44-49 | no file and not the root lies anywhere below the directory |
| Restore.ChildrenFirst | recursivereverse.py:44 | a bottom-up walk: every subdirectory is walked before its parent |
| Restore.PrunedShrinks | recursivereverse.py:44-49 | walking further never brings a directory back |
| Restore.BarrenRemovedAtTurn | recursivereverse.py:44-49 | in a bottom-up walk, a directory other than the root with nothing below it but directories is empty at its turn and removed then |
| Restore.BarrenRemoved | recursivereverse.py:44-49 | after a bottom-up walk no directory of it except the root is left that has nothing below it but directories |
| Restore.BarrenStaysRemoved | recursivereverse.py:44-49 | a directory removed at its turn is still gone at the end of the walk |
| Restore.ExpectedFiles | recursivereverse.py:31 | a path is expected exactly when some block names it |
| Restore.Written | recursivereverse.py:28-29 | writing the blocks adds exactly their paths to the files |
| Restore.WriteStep | recursivereverse.py:18-31 | one more block writes its body at its path and adds the path to the expected set |
| Restore.WrittenLastWins | recursivereverse.py:28-29 | a path named by several blocks holds the body of the last one |
| Restore.ParseAt | recursivereverse.py:18-24 | the pair at each position is the parse of the block at that position |
| Restore.Doomed | recursivereverse.py:34-42 | a path is removed exactly when it is listed, not expected and not the combined file |
| Restore.DoomedStep | recursivereverse.py:34-42 | one more listed path is removed unless it is expected or the combined file |

## Left out

- Sockets, `connect`/`sendall`/`recv`, timeouts and `close` are not modelled. Their outcomes are inputs: scripts of replies or of deliveries.
- Threads, locks, daemon threads, `time.sleep` waits and `join` are not modelled. The jog script's threads are methods that run one after another. Its busy and cancel flags are sequential state. `BridgeSystem` returns `move_to_pose`'s wait (1.0 s, 3.5 s or 4.0 s) as a value.
- The tkinter panel, the pynput listener, the asyncio/websockets server loop and the printed and logged messages are pure I/O and are left out. The bridge's replies keep their kind and data but not their message text.
- Floating point is not modelled. Widths are integers in tenths of a millimetre, and the conversion `int(width * 10)` of a float width is not modelled. Velocities and poses in `JogControl` and `PoseKeys` are `real`.
- The IEEE-754 decoding of the six pose doubles in the state stream is the parameter `decode`.
- The distance and tolerance maths of the state-stream test is not modelled.
- The `:.5f`/`:.4f` rendering of URScript command text is not modelled; commands are values.
- Loading the JSON pose file is left out. The poses are given as a `PoseFile` value.
- `os.walk` order, `open`, `os.makedirs`, `os.remove`, `os.rmdir` and `os.listdir` are not modelled as filesystem calls. The tree is a map of files and a set of directories. The directory set does not record the directories that `os.makedirs` creates when blocks are written, so a new subdirectory under an empty directory is missing from it. Errors these calls raise, such as a file removed while the walk is running, are not modelled.
- Python's UTF-8 encoding and decoding of files is not modelled. Texts are `seq<char>`.
- Restore.RoundTrip: its side condition `Recoverable` bans every newline in a path. That is a simplification. A path such as `a\nb`, in which the end-of-header marker never appears, also reads back unchanged. What the round trip needs is only that the first end-of-header marker in the record is the one that follows the path.
- Text.Lower: lower-cases ASCII letters only. Python's `str.lower` also maps other letters. The keys that matter are ASCII.
- StateStream.SplitBuffer: a header declaring size 0 removes nothing, so the source's inner loop repeats forever. The model stops there and reports `stalled` instead of looping without end.
- PoseKeys.RobotController.InteractiveLoop: the source polls the keyboard with no end. The model takes a finite sequence of polls.
- JogControl.URJogController.PoseMoveThread: a saved pose missing a key raises `KeyError` inside the thread, and `pose_moving` then stays set. The model keeps that outcome as `Raised` but does not model the thread dying.
- JogControl.URJogController.Send: a failed `sendall` in the jog controller is not modelled; every send is delivered.
- PoseKeys.RobotController.Send: a failed `sendall` on a connected socket is not modelled; every send on a connected socket is delivered, so the `except` branch that returns false cannot happen.
- Every register read in the three controllers uses the corrected read `Modbus.ReadValue` of the finding below. The code as written raises `struct.error` out of the read on a reply PDU of exactly three bytes `03 02 xx`. The model reads no value there instead, so the read gives `None` and the operation fails or reports no value rather than raising. Each member built on that read is listed on its own line below.
- Modbus.RegisterRead: uses the corrected read, so a three-byte read reply `03 02 xx` gives no value where the source raises `struct.error`.
- OnRobot.ReadEffect: uses the corrected read, so a three-byte read reply `03 02 xx` gives no value where the source raises `struct.error`.
- OnRobot.ReadEffectSpec: uses the corrected read, so a three-byte read reply `03 02 xx` gives no value where the source raises `struct.error`.
- BridgeGripper.ConnectEffect: uses the corrected read, so a three-byte read reply `03 02 xx` gives no value where the source raises `struct.error`.
- BridgeGripper.IdentifyEffect: uses the corrected read, so a three-byte read reply `03 02 xx` gives no value where the source raises `struct.error`.
- BridgeGripper.StatusEffect: uses the corrected read, so a three-byte read reply `03 02 xx` gives no value where the source raises `struct.error`.
- BridgeGripper.ConnectReadsCode: uses the corrected read, so a three-byte read reply `03 02 xx` gives no value where the source raises `struct.error`.
- BridgeGripper.IdentifyNothing: uses the corrected read, so a three-byte read reply `03 02 xx` gives no value where the source raises `struct.error`.
- BridgeGripper.IdentifyModel: uses the corrected read, so a three-byte read reply `03 02 xx` gives no value where the source raises `struct.error`.
- BridgeGripper.StatusReads: uses the corrected read, so a three-byte read reply `03 02 xx` gives no value where the source raises `struct.error`.
- BridgeGripper.OnRobotGripper.ReadHoldingRegister: uses the corrected read, so a three-byte read reply `03 02 xx` gives no value where the source raises `struct.error`.
- BridgeGripper.OnRobotGripper.Connect: uses the corrected read, so a three-byte read reply `03 02 xx` gives no value where the source raises `struct.error`.
- BridgeGripper.OnRobotGripper.Identify: uses the corrected read, so a three-byte read reply `03 02 xx` gives no value where the source raises `struct.error`.
- BridgeGripper.OnRobotGripper.GetStatus: uses the corrected read, so a three-byte read reply `03 02 xx` gives no value where the source raises `struct.error`.
- BridgeSystem.RobotSystem.Connect: uses the corrected read, so a three-byte read reply `03 02 xx` gives no value where the source raises `struct.error`.
- BridgeSystem.RobotSystem.GetStatus: uses the corrected read, so a three-byte read reply `03 02 xx` gives no value where the source raises `struct.error`.
- BridgeDispatch.WebSocketBridge.HandleMessage: uses the corrected read, so a three-byte read reply `03 02 xx` gives no value where the source raises `struct.error`. The request that reaches such a read is answered from the failed read, not with the processing error the raise would give.
- MomentGripper.LimitsEffect: uses the corrected read, so a three-byte read reply `03 02 xx` gives no value where the source raises `struct.error`.
- MomentGripper.StatusEffect: uses the corrected read, so a three-byte read reply `03 02 xx` gives no value where the source raises `struct.error`.
- MomentGripper.FullEffect: uses the corrected read, so a three-byte read reply `03 02 xx` gives no value where the source raises `struct.error`.
- MomentGripper.LimitsSpec: uses the corrected read, so a three-byte read reply `03 02 xx` gives no value where the source raises `struct.error`.
- MomentGripper.FullSpec: uses the corrected read, so a three-byte read reply `03 02 xx` gives no value where the source raises `struct.error`.
- MomentGripper.FullDone: uses the corrected read, so a three-byte read reply `03 02 xx` gives no value where the source raises `struct.error`.
- MomentGripper.StatusSpec: uses the corrected read, so a three-byte read reply `03 02 xx` gives no value where the source raises `struct.error`.
- MomentGripper.SimpleGripperControl.ReadHoldingRegister: uses the corrected read, so a three-byte read reply `03 02 xx` gives no value where the source raises `struct.error`.
- MomentGripper.SimpleGripperControl.GetProductInfo: uses the corrected read, so a three-byte read reply `03 02 xx` gives no value where the source raises `struct.error`.
- MomentGripper.SimpleGripperControl.GetCurrentWidth: uses the corrected read, so a three-byte read reply `03 02 xx` gives no value where the source raises `struct.error`.
- MomentGripper.SimpleGripperControl.GetLimits: uses the corrected read, so a three-byte read reply `03 02 xx` gives no value where the source raises `struct.error`.
- MomentGripper.SimpleGripperControl.GetStatus: uses the corrected read, so a three-byte read reply `03 02 xx` gives no value where the source raises `struct.error`.
- MomentGripper.SimpleGripperControl.Full: uses the corrected read, so a three-byte read reply `03 02 xx` gives no value where the source raises `struct.error`.
- MomentGripper.SimpleGripperControl.FullOpen: uses the corrected read, so a three-byte read reply `03 02 xx` gives no value where the source raises `struct.error`.
- MomentGripper.SimpleGripperControl.FullClose: uses the corrected read, so a three-byte read reply `03 02 xx` gives no value where the source raises `struct.error`.
- KeyboardGripper.KRead: uses the corrected read, so a three-byte read reply `03 02 xx` gives no value where the source raises `struct.error`.
- KeyboardGripper.KLimits: uses the corrected read, so a three-byte read reply `03 02 xx` gives no value where the source raises `struct.error`.
- KeyboardGripper.KFull: uses the corrected read, so a three-byte read reply `03 02 xx` gives no value where the source raises `struct.error`.
- KeyboardGripper.KRequestSpec: uses the corrected read, so a three-byte read reply `03 02 xx` gives no value where the source raises `struct.error`.
- KeyboardGripper.KReadValue: uses the corrected read, so a three-byte read reply `03 02 xx` gives no value where the source raises `struct.error`.
- KeyboardGripper.KLimitsSpec: uses the corrected read, so a three-byte read reply `03 02 xx` gives no value where the source raises `struct.error`.
- KeyboardGripper.KFullSpec: uses the corrected read, so a three-byte read reply `03 02 xx` gives no value where the source raises `struct.error`.
- KeyboardGripper.SimpleGripperControl.ReadHoldingRegister: uses the corrected read, so a three-byte read reply `03 02 xx` gives no value where the source raises `struct.error`.
- KeyboardGripper.SimpleGripperControl.GetCurrentWidth: uses the corrected read, so a three-byte read reply `03 02 xx` gives no value where the source raises `struct.error`.
- KeyboardGripper.SimpleGripperControl.GetLimits: uses the corrected read, so a three-byte read reply `03 02 xx` gives no value where the source raises `struct.error`.
- KeyboardGripper.SimpleGripperControl.GetStatus: uses the corrected read, so a three-byte read reply `03 02 xx` gives no value where the source raises `struct.error`.
- KeyboardGripper.SimpleGripperControl.Full: uses the corrected read, so a three-byte read reply `03 02 xx` gives no value where the source raises `struct.error`.
- JogControl.GripperCommandThread: uses the corrected read, so a three-byte read reply `03 02 xx` gives no value where the source raises `struct.error`. The thread reports a failed command, not the exception it would print.
- BridgeGripper.StatusLink: uses the corrected read, so a three-byte read reply `03 02 xx` gives no value where the source raises `struct.error`. The source sends no read after the one that raised; the model sends all nine.
- BridgeGripper.StatusValues: uses the corrected read, so a three-byte read reply `03 02 xx` gives no value where the source raises `struct.error`. The model reports `None` in that field; the source returns no report at all.
- JogControl.GripperThreadEffect: uses the corrected read, so a three-byte read reply `03 02 xx` gives no value where the source raises `struct.error`. The model returns the `Failed` of `KFull` where `full_open` or `full_close` raise and the thread catches the exception.

## Findings

| source | as written | input that shows it | evidently intended | confidence | as-written member | corrected member |
|---|---|---|---|---|---|---|
| public/robot_bridge_advanced.py:171-173 | in all three controllers (also momentoftruth.py:108-111 and robotkeyboardcontrol.py:192-195) a read reply is accepted when it has at least 3 bytes and starts 0x03, 0x02, and then `struct.unpack('>H', response[2:4])` is applied | the reply PDU `03 02 00` (a byte count of 2 but only one data byte) makes `struct.unpack` raise `struct.error` out of the read | the guard should demand the 4 bytes it goes on to read (`len(response) >= 4`), so that a short reply yields `None`; the controllers are modelled on this corrected read | not executed | Modbus.ReadValueAsWritten, Modbus.ReadGuardTooShort | Modbus.ReadValue |
