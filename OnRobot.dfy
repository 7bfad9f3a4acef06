/** The OnRobot 2FG7/2FG14 register map and the rules the gripper controllers apply above the
    Modbus codec: speed and width clamping, status-register bits, product codes with their
    nominal width limits, and the outcome of a gripper operation.
    Widths are in tenths of a millimetre, the gripper's own unit. */
module OnRobot {
  import opened Bytes
  import opened Wrappers
  import opened Modbus

  // ---------------------------------------------------------------- register map

  const TargetWidth: int := 0x0000
  const TargetForce: int := 0x0001
  const TargetSpeed: int := 0x0002
  const CommandRegister: int := 0x0003
  const StatusRegister: int := 0x0100
  const ExternalWidth: int := 0x0101
  const InternalWidth: int := 0x0102
  const MinExternalWidth: int := 0x0103
  const MaxExternalWidth: int := 0x0104
  const MinInternalWidth: int := 0x0105
  const MaxInternalWidth: int := 0x0106
  const CurrentForce: int := 0x0107
  const FingerLength: int := 0x0400
  const FingerHeight: int := 0x0401
  const FingerOrientation: int := 0x0402
  const FingertipOffset: int := 0x0403
  const MaxForce: int := 0x0405
  const ProductCodeRegister: int := 0x0600

  /** Values of the command register. */
  const GripExternal: int := 1
  const StopCommand: int := 3

  /** The unit id of the Compute Box and the defaults of the gripper methods. */
  const DefaultUnitId: int := 65
  const DefaultForce: int := 20
  const DefaultSpeed: int := 50

  // ---------------------------------------------------------------- status register

  datatype StatusBits = StatusBits(busy: bool, gripDetected: bool,
                                   errorNotCalibrated: bool, errorLinearSensor: bool)

  /** The status register masked with 0x0001, 0x0002, 0x0008 and 0x0010. */
  function DecodeStatus(reg: nat): (s: StatusBits)
    ensures s.busy == Bit(reg, 0)
    ensures s.gripDetected == Bit(reg, 1)
    ensures s.errorNotCalibrated == Bit(reg, 3)
    ensures s.errorLinearSensor == Bit(reg, 4)
  {
    assert Pow2(0) == 0x0001 && Pow2(1) == 0x0002;
    assert Pow2(3) == 0x0008 && Pow2(4) == 0x0010 by {
      assert Pow2(2) == 4;
    }
    AndPow2(reg, 0);
    AndPow2(reg, 1);
    AndPow2(reg, 3);
    AndPow2(reg, 4);
    StatusBits(And(reg, 0x0001) != 0, And(reg, 0x0002) != 0,
               And(reg, 0x0008) != 0, And(reg, 0x0010) != 0)
  }

  // ---------------------------------------------------------------- clamping

  /** `max(10, min(100, speed_percent))`. */
  function ClampSpeed(speed: int): (r: int)
    ensures 10 <= r <= 100
    ensures 10 <= speed <= 100 ==> r == speed
    ensures speed < 10 ==> r == 10
    ensures speed > 100 ==> r == 100
  {
    var upper := if speed < 100 then speed else 100;
    if upper > 10 then upper else 10
  }

  /** The width rule of `move_to_width`: with limits known, a width below the minimum becomes
      the minimum, otherwise one above the maximum becomes the maximum. */
  function ClampWidth(width: int, limits: Option<(int, int)>): (r: int)
    ensures limits.None? ==> r == width
    ensures limits.Some? && limits.value.0 <= limits.value.1 ==>
              limits.value.0 <= r <= limits.value.1
    ensures limits.Some? && limits.value.0 <= width <= limits.value.1 ==> r == width
    ensures limits.Some? ==> r == width || r == limits.value.0 || r == limits.value.1
  {
    if limits.None? then width
    else if width < limits.value.0 then limits.value.0
    else if width > limits.value.1 then limits.value.1
    else width
  }

  /** Clamping twice is clamping once, so `open` and `close`, which clamp the speed before
      handing it to `move_to_width`, send the same speed `move_to_width` alone would. */
  lemma ClampIdempotent(speed: int, width: int, limits: Option<(int, int)>)
    requires limits.Some? ==> limits.value.0 <= limits.value.1
    ensures ClampSpeed(ClampSpeed(speed)) == ClampSpeed(speed)
    ensures ClampWidth(ClampWidth(width, limits), limits) == ClampWidth(width, limits)
  {
  }

  // ---------------------------------------------------------------- product codes

  const Code2FG7: int := 0xC0
  const Code2FG14: int := 0xC1
  const Code2FGP20: int := 0xF0

  datatype Model = TwoFG7 | TwoFG14 | TwoFGP20 | UnknownModel

  function ModelOf(code: int): Model {
    if code == Code2FG7 then TwoFG7
    else if code == Code2FG14 then TwoFG14
    else if code == Code2FGP20 then TwoFGP20
    else UnknownModel
  }

  /** The nominal limits used when the limit registers cannot be read: 13-31 mm for a 2FG7,
      22-48 mm for a 2FG14, 0-100 mm otherwise, checked in that order. */
  function NominalLimits(is2fg7: bool, is2fg14: bool): (int, int) {
    if is2fg7 then (130, 310) else if is2fg14 then (220, 480) else (0, 1000)
  }

  // ---------------------------------------------------------------- outcomes

  /** The outcome of a gripper operation: `Raised` is a Python exception (struct.error for a
      value that does not fit 16 bits) escaping the method. */
  datatype Outcome = Done | Failed | Raised

  // ---------------------------------------------------------------- one request

  /** A register read (`_read_holding_register` / `read_holding_register`): nothing is sent
      unless connected; otherwise one read request is sent and takes the next reply. */
  function ReadEffect(connected: bool, l: Link, unit: int, address: int): (r: (Option<int>, Link))
    requires IsU16(l.tid) && IsU16(address)
    ensures IsU16(r.1.tid)
  {
    if !connected then (None, l)
    else (RegisterRead(Ahead(l, 0)), Send(l, unit, ReadRequest(address)))
  }

  /** A register write (`_write_single_register` / `write_single_register`): the value is
      packed first, which raises when it does not fit 16 bits; then the request is sent only
      while connected, and succeeds on an acknowledging reply. */
  function WriteEffect(connected: bool, l: Link, unit: int, address: int, value: int): (r: (Outcome, Link))
    requires IsU16(l.tid) && IsU16(address)
    ensures IsU16(r.1.tid)
  {
    if !IsU16(value) then (Raised, l)
    else if !connected then (Failed, l)
    else (if RegisterWritten(Ahead(l, 0)) then Done else Failed,
          Send(l, unit, WriteRequest(address, value)))
  }

  /** One read: refused unsent when not connected; otherwise one request for the address
      under the current id, and the value is that of the reply it takes. This lemma states
      the link `Send` leaves; what value each kind of reply reads as is proved in Modbus
      (`ReadReplyRead`, `ExceptionRejected`). */
  lemma ReadEffectSpec(connected: bool, l: Link, unit: int, address: int)
    requires IsU16(l.tid) && IsU16(address)
    ensures var e := ReadEffect(connected, l, unit, address);
      var v, l' := e.0, e.1;
      && (!connected ==> v.None? && l' == l)
      && (connected ==> v == RegisterRead(Ahead(l, 0))
                        && l' == Link(Advance(l.tid, 1), l.replies, l.taken + 1,
                                      l.outbox + [Adu(l.tid, unit, ReadRequest(address))]))
  {
  }

  /** One write: it raises, sending nothing, exactly when the value does not fit 16 bits; it
      succeeds exactly when connected, the value packs and the reply acknowledges the write,
      and a request is sent exactly when connected and the value packs. Which replies
      acknowledge a write is proved in Modbus (`EchoWritten`, `ExceptionRejected`). */
  lemma WriteEffectSpec(connected: bool, l: Link, unit: int, address: int, value: int)
    requires IsU16(l.tid) && IsU16(address)
    ensures var e := WriteEffect(connected, l, unit, address, value);
      var o, l' := e.0, e.1;
      && (o == Raised <==> !IsU16(value))
      && (o == Done <==> connected && IsU16(value) && RegisterWritten(Ahead(l, 0)))
      && (connected && IsU16(value) ==>
            l' == Link(Advance(l.tid, 1), l.replies, l.taken + 1,
                       l.outbox + [Adu(l.tid, unit, WriteRequest(address, value))]))
      && (!(connected && IsU16(value)) ==> l' == l)
  {
  }
}
