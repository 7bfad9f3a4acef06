/** `OnRobotGripper` of the WebSocket bridge (public/robot_bridge_advanced.py): a Modbus TCP
    client object whose transaction counter, connection flag and identification fields its
    methods update. The socket is the object's script of device `replies` on the current
    connection, the count of them that requests have `taken`, and its `outbox` of requests
    written; each operation is specified by a function on those values that follows the
    method's own sequence of register reads and writes. */
module BridgeGripper {
  import opened Bytes
  import opened Wrappers
  import opened Modbus
  import opened OnRobot

  /** The default widths of `open` and `close`: 20.0 mm and 0.3 mm. */
  const DefaultOpenWidth: int := 200
  const DefaultCloseWidth: int := 3

  /** The addresses `get_status` reads, in its order. */
  const StatusAddresses: seq<int> :=
    [StatusRegister, ExternalWidth, InternalWidth, MinExternalWidth, MaxExternalWidth,
     MinInternalWidth, MaxInternalWidth, CurrentForce, MaxForce]

  /** Everything a gripper object holds besides its link. */
  datatype Info = Info(connected: bool, productCode: Option<int>, model: Option<Model>,
                       limits: Option<(int, int)>, is2fg7: bool, is2fg14: bool)

  /** The result of `get_status`; widths in tenths of a millimetre, forces in newton. */
  datatype GripperStatus =
    | NotConnected
    | Status(productCode: Option<int>, model: Option<Model>,
             width: Option<int>, internalWidth: Option<int>,
             minWidth: Option<int>, maxWidth: Option<int>,
             minInternalWidth: Option<int>, maxInternalWidth: Option<int>,
             force: Option<int>, maxForce: Option<int>,
             limits: Option<(int, int)>, bits: Option<StatusBits>, raw: Option<int>)

  // ---------------------------------------------------------------- specification

  /** `move_to_width`: refused unless connected; otherwise speed and width are clamped and
      the writes are made. */
  function MoveEffect(connected: bool, limits: Option<(int, int)>, l: Link, unit: int,
                      width: int, force: int, speed: int): (Outcome, Link)
    requires IsU16(l.tid)
  {
    if !connected then (Failed, l)
    else GripWrites(l, unit, ClampWidth(width, limits), force, ClampSpeed(speed))
  }

  /** The writes of `move_to_width`: target width, force, speed and the grip command in that
      order, the first write that does not succeed ending the move with its outcome. */
  function GripWrites(l: Link, unit: int, width: int, force: int, speed: int): (Outcome, Link)
    requires IsU16(l.tid)
  {
    var r1 := WriteEffect(true, l, unit, TargetWidth, width);
    if r1.0 != Done then r1 else
    var r2 := WriteEffect(true, r1.1, unit, TargetForce, force);
    if r2.0 != Done then r2 else
    var r3 := WriteEffect(true, r2.1, unit, TargetSpeed, speed);
    if r3.0 != Done then r3 else
    WriteEffect(true, r3.1, unit, CommandRegister, GripExternal)
  }

  /** A configuration setter: refused unless connected, otherwise one register write. */
  function ConfigEffect(connected: bool, l: Link, unit: int, address: int, value: int): (Outcome, Link)
    requires IsU16(l.tid) && IsU16(address)
  {
    if !connected then (Failed, l) else WriteEffect(true, l, unit, address, value)
  }

  /** `connect` over a link that came up with the device replies `replies`: the counter
      carries on, the product code is read, and the gripper is identified from it. */
  function ConnectEffect(s: Info, tid: int, unit: int, replies: seq<Reply>): (Info, Link)
    requires IsU16(tid)
  {
    var r1 := ReadEffect(true, Link(tid, replies, 0, []), unit, ProductCodeRegister);
    IdentifyEffect(s.(connected := true, productCode := r1.0), r1.1, unit)
  }

  /** The identification step of `connect`: only a readable non-zero product code names the
      model (setting, never clearing, the 2FG7/2FG14 flags) and sets the limits, read from
      the gripper or else nominal. */
  function IdentifyEffect(s: Info, l: Link, unit: int): (Info, Link)
    requires IsU16(l.tid)
  {
    var code := s.productCode;
    if code.None? || code.value == 0 then (s, l)
    else
      var m := ModelOf(code.value);
      var f7 := s.is2fg7 || m == TwoFG7;
      var f14 := s.is2fg14 || m == TwoFG14;
      var r2 := ReadEffect(true, l, unit, MinExternalWidth);
      var r3 := ReadEffect(true, r2.1, unit, MaxExternalWidth);
      var lim := if r2.0.Some? && r3.0.Some? then (r2.0.value, r3.0.value) else NominalLimits(f7, f14);
      (s.(model := Some(m), limits := Some(lim), is2fg7 := f7, is2fg14 := f14), r3.1)
  }

  /** `get_status`: a fixed answer unless connected; otherwise nine reads in order, the first
      (the status register) decoded into its bits when it was read. */
  function StatusEffect(s: Info, l: Link, unit: int): (GripperStatus, Link)
    requires IsU16(l.tid) && AllReplyBytes(l.replies)
  {
    if !s.connected then (NotConnected, l)
    else
      ReplyBytesAt(l.replies, l.taken);
      var r1 := ReadEffect(true, l, unit, StatusRegister);
      var r2 := ReadEffect(true, r1.1, unit, ExternalWidth);
      var r3 := ReadEffect(true, r2.1, unit, InternalWidth);
      var r4 := ReadEffect(true, r3.1, unit, MinExternalWidth);
      var r5 := ReadEffect(true, r4.1, unit, MaxExternalWidth);
      var r6 := ReadEffect(true, r5.1, unit, MinInternalWidth);
      var r7 := ReadEffect(true, r6.1, unit, MaxInternalWidth);
      var r8 := ReadEffect(true, r7.1, unit, CurrentForce);
      var r9 := ReadEffect(true, r8.1, unit, MaxForce);
      var bits := if r1.0.Some? then Some(DecodeStatus(r1.0.value)) else None;
      (Status(s.productCode, s.model, r2.0, r3.0, r4.0, r5.0, r6.0, r7.0, r8.0, r9.0,
              s.limits, bits, r1.0), r9.1)
  }

  // ---------------------------------------------------------------- properties

  /** What a move sends: nothing unless connected; otherwise at most the four writes, as a
      request appended to the outbox per reply taken, under consecutive ids, the first of
      them the target width clamped into the limits. */
  lemma MoveSends(connected: bool, limits: Option<(int, int)>, l: Link, unit: int,
                  width: int, force: int, speed: int)
    requires IsU16(l.tid)
    ensures var e := MoveEffect(connected, limits, l, unit, width, force, speed);
      var o, l' := e.0, e.1;
      var sent := |l'.outbox| - |l.outbox|;
      && (!connected ==> o == Failed && l' == l)
      && 0 <= sent <= 4 && l'.outbox[..|l.outbox|] == l.outbox
      && l'.replies == l.replies && l'.taken == l.taken + sent && l'.tid == Advance(l.tid, sent)
      && (sent > 0 ==> var w := ClampWidth(width, limits);
            IsU16(w) && l'.outbox[|l.outbox|] == Adu(l.tid, unit, WriteRequest(TargetWidth, w)))
  {
    if connected {
      var w := ClampWidth(width, limits);
      var sp := ClampSpeed(speed);
      var r1 := WriteEffect(true, l, unit, TargetWidth, w);
      WriteEffectSpec(true, l, unit, TargetWidth, w);
      if r1.0 == Done {
        var r2 := WriteEffect(true, r1.1, unit, TargetForce, force);
        WriteEffectSpec(true, r1.1, unit, TargetForce, force);
        if r2.0 == Done {
          var r3 := WriteEffect(true, r2.1, unit, TargetSpeed, sp);
          WriteEffectSpec(true, r2.1, unit, TargetSpeed, sp);
          assert Advance(l.tid, 3) == Next(Advance(l.tid, 2));
          if r3.0 == Done {
            WriteEffectSpec(true, r3.1, unit, CommandRegister, GripExternal);
            assert Advance(l.tid, 4) == Next(Advance(l.tid, 3));
          }
        }
      }
    }
  }

  /** A move succeeds exactly when connected, the clamped width and the force fit 16 bits,
      and all four writes are acknowledged; it has then sent the four requests in order under
      consecutive ids, ending with the grip command. */
  lemma MoveDone(connected: bool, limits: Option<(int, int)>, l: Link, unit: int,
                 width: int, force: int, speed: int)
    requires IsU16(l.tid)
    ensures var e := MoveEffect(connected, limits, l, unit, width, force, speed);
      var w := ClampWidth(width, limits);
      && (e.0 == Done <==> connected && IsU16(w) && IsU16(force)
                           && forall k :: 0 <= k < 4 ==> RegisterWritten(Ahead(l, k)))
      && (e.0 == Done ==>
            e.1 == Link(Advance(l.tid, 4), l.replies, l.taken + 4, l.outbox +
              [Adu(l.tid, unit, WriteRequest(TargetWidth, w)),
               Adu(Advance(l.tid, 1), unit, WriteRequest(TargetForce, force)),
               Adu(Advance(l.tid, 2), unit, WriteRequest(TargetSpeed, ClampSpeed(speed))),
               Adu(Advance(l.tid, 3), unit, WriteRequest(CommandRegister, GripExternal))]))
  {
    if connected {
      var w := ClampWidth(width, limits);
      var sp := ClampSpeed(speed);
      var r1 := WriteEffect(true, l, unit, TargetWidth, w);
      WriteEffectSpec(true, l, unit, TargetWidth, w);
      if r1.0 == Done {
        var r2 := WriteEffect(true, r1.1, unit, TargetForce, force);
        WriteEffectSpec(true, r1.1, unit, TargetForce, force);
        assert Ahead(r1.1, 0) == Ahead(l, 1);
        if r2.0 == Done {
          var r3 := WriteEffect(true, r2.1, unit, TargetSpeed, sp);
          WriteEffectSpec(true, r2.1, unit, TargetSpeed, sp);
          assert Ahead(r2.1, 0) == Ahead(l, 2);
          assert Advance(l.tid, 3) == Next(Advance(l.tid, 2));
          if r3.0 == Done {
            WriteEffectSpec(true, r3.1, unit, CommandRegister, GripExternal);
            assert Ahead(r3.1, 0) == Ahead(l, 3);
            assert Advance(l.tid, 4) == Next(Advance(l.tid, 3));
            var a1 := Adu(l.tid, unit, WriteRequest(TargetWidth, w));
            var a2 := Adu(r1.1.tid, unit, WriteRequest(TargetForce, force));
            var a3 := Adu(r2.1.tid, unit, WriteRequest(TargetSpeed, sp));
            var a4 := Adu(r3.1.tid, unit, WriteRequest(CommandRegister, GripExternal));
            assert l.outbox + [a1] + [a2] + [a3] + [a4] == l.outbox + [a1, a2, a3, a4];
          }
        }
      }
    }
  }

  /** A move raises (struct.error) exactly when connected and the clamped width does not fit
      16 bits, or the width write is acknowledged and the force does not fit; a move that
      fails while connected stops right after the first unacknowledged write. */
  lemma MoveNotDone(connected: bool, limits: Option<(int, int)>, l: Link, unit: int,
                    width: int, force: int, speed: int)
    requires IsU16(l.tid)
    ensures var e := MoveEffect(connected, limits, l, unit, width, force, speed);
      var w := ClampWidth(width, limits);
      var sent := |e.1.outbox| - |l.outbox|;
      && (e.0 == Raised <==> connected && (!IsU16(w) || (RegisterWritten(Ahead(l, 0)) && !IsU16(force))))
      && (e.0 == Failed && connected ==>
            1 <= sent <= 4 && !RegisterWritten(Ahead(l, sent - 1))
            && forall k :: 0 <= k < sent - 1 ==> RegisterWritten(Ahead(l, k)))
  {
    MoveRaises(connected, limits, l, unit, width, force, speed);
    MoveStops(connected, limits, l, unit, width, force, speed);
  }

  lemma MoveRaises(connected: bool, limits: Option<(int, int)>, l: Link, unit: int,
                   width: int, force: int, speed: int)
    requires IsU16(l.tid)
    ensures var e := MoveEffect(connected, limits, l, unit, width, force, speed);
      var w := ClampWidth(width, limits);
      e.0 == Raised <==> connected && (!IsU16(w) || (RegisterWritten(Ahead(l, 0)) && !IsU16(force)))
  {
    if connected {
      var w := ClampWidth(width, limits);
      var sp := ClampSpeed(speed);
      var r1 := WriteEffect(true, l, unit, TargetWidth, w);
      WriteEffectSpec(true, l, unit, TargetWidth, w);
      if r1.0 == Done {
        var r2 := WriteEffect(true, r1.1, unit, TargetForce, force);
        WriteEffectSpec(true, r1.1, unit, TargetForce, force);
        assert Ahead(r1.1, 0) == Ahead(l, 1);
        if r2.0 == Done {
          var r3 := WriteEffect(true, r2.1, unit, TargetSpeed, sp);
          WriteEffectSpec(true, r2.1, unit, TargetSpeed, sp);
          assert Ahead(r2.1, 0) == Ahead(l, 2);
          if r3.0 == Done {
            WriteEffectSpec(true, r3.1, unit, CommandRegister, GripExternal);
            assert Ahead(r3.1, 0) == Ahead(l, 3);
          }
        }
      }
    }
  }

  lemma MoveStops(connected: bool, limits: Option<(int, int)>, l: Link, unit: int,
                  width: int, force: int, speed: int)
    requires IsU16(l.tid)
    ensures var e := MoveEffect(connected, limits, l, unit, width, force, speed);
      var sent := |e.1.outbox| - |l.outbox|;
      e.0 == Failed && connected ==>
        1 <= sent <= 4 && !RegisterWritten(Ahead(l, sent - 1))
        && forall k :: 0 <= k < sent - 1 ==> RegisterWritten(Ahead(l, k))
  {
    if connected {
      var w := ClampWidth(width, limits);
      var sp := ClampSpeed(speed);
      var r1 := WriteEffect(true, l, unit, TargetWidth, w);
      WriteEffectSpec(true, l, unit, TargetWidth, w);
      if r1.0 == Done {
        var r2 := WriteEffect(true, r1.1, unit, TargetForce, force);
        WriteEffectSpec(true, r1.1, unit, TargetForce, force);
        assert Ahead(r1.1, 0) == Ahead(l, 1);
        if r2.0 == Done {
          var r3 := WriteEffect(true, r2.1, unit, TargetSpeed, sp);
          WriteEffectSpec(true, r2.1, unit, TargetSpeed, sp);
          assert Ahead(r2.1, 0) == Ahead(l, 2);
          if r3.0 == Done {
            WriteEffectSpec(true, r3.1, unit, CommandRegister, GripExternal);
            assert Ahead(r3.1, 0) == Ahead(l, 3);
          }
        }
      }
    }
  }

  /** A gripper that echoes every write request (the behaviour Write Single Register
      prescribes) accepts a move of packable width and force. */
  lemma MoveEchoed(limits: Option<(int, int)>, l: Link, unit: int, width: int, force: int, speed: int)
    requires IsU16(l.tid) && IsByte(unit)
    requires IsU16(ClampWidth(width, limits)) && IsU16(force)
    requires Ahead(l, 0) == EchoReply(l.tid, unit, WriteRequest(TargetWidth, ClampWidth(width, limits)))
    requires Ahead(l, 1) == EchoReply(Advance(l.tid, 1), unit, WriteRequest(TargetForce, force))
    requires Ahead(l, 2) == EchoReply(Advance(l.tid, 2), unit, WriteRequest(TargetSpeed, ClampSpeed(speed)))
    requires Ahead(l, 3) == EchoReply(Advance(l.tid, 3), unit, WriteRequest(CommandRegister, GripExternal))
    ensures MoveEffect(true, limits, l, unit, width, force, speed).0 == Done
  {
    EchoWritten(l.tid, unit, TargetWidth, ClampWidth(width, limits));
    EchoWritten(Advance(l.tid, 1), unit, TargetForce, force);
    EchoWritten(Advance(l.tid, 2), unit, TargetSpeed, ClampSpeed(speed));
    EchoWritten(Advance(l.tid, 3), unit, CommandRegister, GripExternal);
    MoveDone(true, limits, l, unit, width, force, speed);
  }

  /** `open` and `close` clamp the speed before `move_to_width` clamps it again; the double
      clamp changes nothing, so they are moves to their width (or default) at the given speed. */
  lemma OpenCloseAreMoves(connected: bool, limits: Option<(int, int)>, l: Link, unit: int,
                          width: Option<int>, force: int, speed: int)
    requires IsU16(l.tid)
    ensures MoveEffect(connected, limits, l, unit, width.GetOr(DefaultOpenWidth), force, ClampSpeed(speed))
         == MoveEffect(connected, limits, l, unit, width.GetOr(DefaultOpenWidth), force, speed)
    ensures MoveEffect(connected, limits, l, unit, width.GetOr(DefaultCloseWidth), force, ClampSpeed(speed))
         == MoveEffect(connected, limits, l, unit, width.GetOr(DefaultCloseWidth), force, speed)
  {
    ClampIdempotent(speed, 0, None);
  }

  /** `connect` starts a fresh link whose first request, under the carried-on id, reads the
      product code, and then identifies the gripper from the code it read. */
  lemma ConnectReadsCode(s: Info, tid: int, unit: int, replies: seq<Reply>)
    requires IsU16(tid)
    ensures ConnectEffect(s, tid, unit, replies)
         == IdentifyEffect(s.(connected := true, productCode := RegisterRead(Nth(replies, 0))),
                           Link(Advance(tid, 1), replies, 1, [Adu(tid, unit, ReadRequest(ProductCodeRegister))]),
                           unit)
  {
    assert Advance(tid, 1) == Next(tid);
    assert [] + [Adu(tid, unit, ReadRequest(ProductCodeRegister))]
        == [Adu(tid, unit, ReadRequest(ProductCodeRegister))];
  }

  /** An unreadable or zero product code identifies nothing: no further request is sent and
      model, limits and flags stay as they were. */
  lemma IdentifyNothing(s: Info, l: Link, unit: int)
    requires IsU16(l.tid) && (s.productCode.None? || s.productCode.value == 0)
    ensures IdentifyEffect(s, l, unit) == (s, l)
  {
  }

  /** A readable non-zero product code names the model and is followed by the two limit
      reads, whose values give the limits when both are readable; otherwise a 2FG7 falls back
      to 13-31 mm, a 2FG14 that was never taken for a 2FG7 to 22-48 mm, and any other
      gripper to 0-100 mm. Nothing else changes. */
  lemma IdentifyModel(s: Info, l: Link, unit: int)
    requires IsU16(l.tid) && s.productCode.Some? && s.productCode.value != 0
    ensures var e := IdentifyEffect(s, l, unit);
      var s', l' := e.0, e.1;
      var code := s.productCode.value;
      var lo, hi := RegisterRead(Ahead(l, 0)), RegisterRead(Ahead(l, 1));
      && s'.connected == s.connected && s'.productCode == s.productCode
      && s'.model == Some(ModelOf(code))
      && s'.is2fg7 == (s.is2fg7 || code == Code2FG7)
      && s'.is2fg14 == (s.is2fg14 || code == Code2FG14)
      && l' == Link(Advance(l.tid, 2), l.replies, l.taken + 2,
                    l.outbox + [Adu(l.tid, unit, ReadRequest(MinExternalWidth)),
                                Adu(Advance(l.tid, 1), unit, ReadRequest(MaxExternalWidth))])
      && (lo.Some? && hi.Some? ==> s'.limits == Some((lo.value, hi.value)))
      && (!(lo.Some? && hi.Some?) ==>
            && (code == Code2FG7 ==> s'.limits == Some((130, 310)))
            && (code == Code2FG14 && !s.is2fg7 ==> s'.limits == Some((220, 480)))
            && (code != Code2FG7 && code != Code2FG14 && !s.is2fg7 && !s.is2fg14 ==>
                  s'.limits == Some((0, 1000))))
  {
  }

  /** The nine status reads are nine requests for `StatusAddresses` in order under
      consecutive ids, each register reporting the reply its request takes. */
  lemma StatusReads(s: Info, l: Link, unit: int)
    requires IsU16(l.tid) && AllReplyBytes(l.replies) && s.connected
    ensures var e := StatusEffect(s, l, unit);
      var r, l' := e.0, e.1;
      && l'.tid == Advance(l.tid, 9) && l'.replies == l.replies && l'.taken == l.taken + 9
      && |l'.outbox| == |l.outbox| + 9 && l'.outbox[..|l.outbox|] == l.outbox
      && (forall k :: 0 <= k < 9 ==>
            l'.outbox[|l.outbox| + k] == Adu(Advance(l.tid, k), unit, ReadRequest(StatusAddresses[k])))
      && r.Status? && r.productCode == s.productCode && r.model == s.model && r.limits == s.limits
      && r.raw == RegisterRead(Ahead(l, 0))
      && r.width == RegisterRead(Ahead(l, 1)) && r.internalWidth == RegisterRead(Ahead(l, 2))
      && r.minWidth == RegisterRead(Ahead(l, 3)) && r.maxWidth == RegisterRead(Ahead(l, 4))
      && r.minInternalWidth == RegisterRead(Ahead(l, 5))
      && r.maxInternalWidth == RegisterRead(Ahead(l, 6))
      && r.force == RegisterRead(Ahead(l, 7)) && r.maxForce == RegisterRead(Ahead(l, 8))
  {
    StatusLink(s, l, unit);
    StatusValues(s, l, unit);
  }

  lemma StatusLink(s: Info, l: Link, unit: int)
    requires IsU16(l.tid) && AllReplyBytes(l.replies) && s.connected
    ensures var l' := StatusEffect(s, l, unit).1;
      && l'.tid == Advance(l.tid, 9) && l'.replies == l.replies && l'.taken == l.taken + 9
      && |l'.outbox| == |l.outbox| + 9 && l'.outbox[..|l.outbox|] == l.outbox
      && (forall k :: 0 <= k < 9 ==>
            l'.outbox[|l.outbox| + k] == Adu(Advance(l.tid, k), unit, ReadRequest(StatusAddresses[k])))
  {
  }

  lemma StatusValues(s: Info, l: Link, unit: int)
    requires IsU16(l.tid) && AllReplyBytes(l.replies) && s.connected
    ensures var r := StatusEffect(s, l, unit).0;
      && r.Status? && r.productCode == s.productCode && r.model == s.model && r.limits == s.limits
      && r.raw == RegisterRead(Ahead(l, 0))
      && r.width == RegisterRead(Ahead(l, 1)) && r.internalWidth == RegisterRead(Ahead(l, 2))
      && r.minWidth == RegisterRead(Ahead(l, 3)) && r.maxWidth == RegisterRead(Ahead(l, 4))
      && r.minInternalWidth == RegisterRead(Ahead(l, 5))
      && r.maxInternalWidth == RegisterRead(Ahead(l, 6))
      && r.force == RegisterRead(Ahead(l, 7)) && r.maxForce == RegisterRead(Ahead(l, 8))
  {
  }

  /** When the nine status reads are answered normally with values `vs`, the report carries
      those values and the bits of the status register. */
  lemma StatusOfDevice(s: Info, l: Link, unit: int, vs: seq<int>)
    requires IsU16(l.tid) && IsByte(unit) && AllReplyBytes(l.replies) && s.connected
    requires |vs| == 9 && forall k :: 0 <= k < 9 ==> IsU16(vs[k])
    requires forall k :: 0 <= k < 9 ==> Ahead(l, k) == ReadReply(Advance(l.tid, k), unit, vs[k])
    ensures var r := StatusEffect(s, l, unit).0;
      && r.Status? && r.raw == Some(vs[0])
      && r.bits == Some(StatusBits(Bit(vs[0], 0), Bit(vs[0], 1), Bit(vs[0], 3), Bit(vs[0], 4)))
      && r.width == Some(vs[1]) && r.internalWidth == Some(vs[2])
      && r.minWidth == Some(vs[3]) && r.maxWidth == Some(vs[4])
      && r.minInternalWidth == Some(vs[5]) && r.maxInternalWidth == Some(vs[6])
      && r.force == Some(vs[7]) && r.maxForce == Some(vs[8])
  {
    StatusReads(s, l, unit);
    forall k | 0 <= k < 9 ensures RegisterRead(Ahead(l, k)) == Some(vs[k]) {
      ReadReplyRead(Advance(l.tid, k), unit, vs[k]);
    }
  }

  // ---------------------------------------------------------------- the object

  class OnRobotGripper {
    var unitId: int
    var transactionId: int
    var connected: bool
    var productCode: Option<int>
    var model: Option<Model>
    var limits: Option<(int, int)>
    var is2fg7: bool
    var is2fg14: bool
    var replies: seq<Reply>
    var taken: nat
    var outbox: seq<Adu>

    ghost predicate Valid()
      reads this
    {
      IsU16(transactionId) && IsByte(unitId) && AllReplyBytes(replies)
    }

    function LinkState(): Link
      reads this
    {
      Link(transactionId, replies, taken, outbox)
    }

    function State(): Info
      reads this
    {
      Info(connected, productCode, model, limits, is2fg7, is2fg14)
    }

    /** A fresh object: transaction id 1, not connected, nothing identified. */
    constructor (unitId: int)
      requires IsByte(unitId)
      ensures Valid() && this.unitId == unitId
      ensures LinkState() == Link(1, [], 0, [])
      ensures State() == Info(false, None, None, None, false, false)
    {
      this.unitId := unitId;
      transactionId := 1;
      connected := false;
      productCode := None;
      model := None;
      limits := None;
      is2fg7 := false;
      is2fg14 := false;
      replies := [];
      taken := 0;
      outbox := [];
    }

    /** `_send_modbus_request`: uses the current transaction id and advances it, writes the
        request, takes the next reply, and returns its PDU unless the reply is rejected. */
    method SendRequest(fc: int, pdu: seq<int>) returns (r: Option<seq<int>>)
      requires Valid()
      modifies this
      ensures Valid() && unitId == old(unitId) && State() == old(State())
      ensures !old(connected) ==> r.None? && LinkState() == old(LinkState())
      ensures old(connected) ==> LinkState() == Send(old(LinkState()), unitId, pdu)
      ensures old(connected) ==>
        var rec := Receive(fc, Ahead(old(LinkState()), 0));
        r == if rec.Pdu? then Some(rec.bytes) else None
    {
      if !connected {
        return None;
      }
      var tid := transactionId;
      NextIsModular(tid);
      transactionId := (transactionId + 1) % 0x1_0000;
      outbox := outbox + [Adu(tid, unitId, pdu)];
      var reply := Nth(replies, taken);
      taken := taken + 1;
      var rec := Receive(fc, reply);
      r := if rec.Pdu? then Some(rec.bytes) else None;
    }

    method ReadHoldingRegister(address: int) returns (v: Option<int>)
      requires Valid() && IsU16(address)
      modifies this
      ensures Valid() && unitId == old(unitId) && State() == old(State())
      ensures (v, LinkState()) == ReadEffect(old(connected), old(LinkState()), unitId, address)
      ensures v.Some? ==> IsU16(v.value)
    {
      ReplyBytesAt(replies, taken);
      var resp := SendRequest(ReadHoldingRegisters, ReadRequest(address));
      v := if resp.Some? then ReadValue(resp.value) else None;
    }

    method WriteSingleRegister(address: int, value: int) returns (o: Outcome)
      requires Valid() && IsU16(address)
      modifies this
      ensures Valid() && unitId == old(unitId) && State() == old(State())
      ensures (o, LinkState()) == WriteEffect(old(connected), old(LinkState()), unitId, address, value)
    {
      if !IsU16(value) {
        return Raised;
      }
      var resp := SendRequest(Modbus.WriteSingleRegister, WriteRequest(address, value));
      o := if resp.Some? && WriteAcked(resp.value) then Done else Failed;
    }

    /** `connect`: a link that does not come up leaves the object disconnected; otherwise
        the object identifies the gripper over the new link. */
    method Connect(linkUp: bool, newReplies: seq<Reply>) returns (ok: bool)
      requires Valid() && AllReplyBytes(newReplies)
      modifies this
      ensures Valid() && unitId == old(unitId) && ok == linkUp
      ensures !linkUp ==> State() == old(State()).(connected := false) && LinkState() == old(LinkState())
      ensures linkUp ==> (State(), LinkState()) == ConnectEffect(old(State()), old(transactionId), unitId, newReplies)
    {
      if !linkUp {
        connected := false;
        return false;
      }
      replies, taken, outbox, connected := newReplies, 0, [], true;
      var code := ReadHoldingRegister(ProductCodeRegister);
      productCode := code;
      Identify();
      ok := true;
    }

    /** The identification part of `connect`, run once the product code is stored. */
    method Identify()
      requires Valid() && connected
      modifies this
      ensures Valid() && unitId == old(unitId)
      ensures (State(), LinkState()) == IdentifyEffect(old(State()), old(LinkState()), unitId)
    {
      var code := productCode;
      if code.None? || code.value == 0 {
        return;
      }
      var m := ModelOf(code.value);
      model := Some(m);
      if m == TwoFG7 {
        is2fg7 := true;
      } else if m == TwoFG14 {
        is2fg14 := true;
      }
      var f7, f14 := is2fg7, is2fg14;
      assert f7 == (old(is2fg7) || m == TwoFG7) && f14 == (old(is2fg14) || m == TwoFG14);
      ghost var named := State();
      assert named == old(State()).(model := Some(m), is2fg7 := f7, is2fg14 := f14);
      var lo := ReadHoldingRegister(MinExternalWidth);
      var hi := ReadHoldingRegister(MaxExternalWidth);
      assert State() == named;
      if lo.Some? && hi.Some? {
        limits := Some((lo.value, hi.value));
      } else {
        limits := Some(NominalLimits(f7, f14));
      }
    }

    /** `disconnect`: the connection flag drops; the socket is closed. */
    method Disconnect()
      requires Valid()
      modifies this
      ensures Valid() && unitId == old(unitId) && LinkState() == old(LinkState())
      ensures State() == old(State()).(connected := false)
    {
      connected := false;
    }

    method GetStatus() returns (r: GripperStatus)
      requires Valid()
      modifies this
      ensures Valid() && unitId == old(unitId) && State() == old(State())
      ensures (r, LinkState()) == StatusEffect(old(State()), old(LinkState()), unitId)
    {
      if !connected {
        return NotConnected;
      }
      var raw := ReadHoldingRegister(StatusRegister);
      var width := ReadHoldingRegister(ExternalWidth);
      var internalWidth := ReadHoldingRegister(InternalWidth);
      var minWidth := ReadHoldingRegister(MinExternalWidth);
      var maxWidth := ReadHoldingRegister(MaxExternalWidth);
      var minInternal := ReadHoldingRegister(MinInternalWidth);
      var maxInternal := ReadHoldingRegister(MaxInternalWidth);
      var force := ReadHoldingRegister(CurrentForce);
      var maxForce := ReadHoldingRegister(MaxForce);
      var bits := if raw.Some? then Some(DecodeStatus(raw.value)) else None;
      r := Status(productCode, model, width, internalWidth, minWidth, maxWidth,
                  minInternal, maxInternal, force, maxForce, limits, bits, raw);
    }

    method MoveToWidth(width: int, force: int, speed: int) returns (o: Outcome)
      requires Valid()
      modifies this
      ensures Valid() && unitId == old(unitId) && State() == old(State())
      ensures (o, LinkState()) == MoveEffect(old(connected), old(limits), old(LinkState()), unitId, width, force, speed)
    {
      if !connected {
        return Failed;
      }
      var clampedSpeed := ClampSpeed(speed);
      var target := ClampWidth(width, limits);
      o := WriteSingleRegister(TargetWidth, target);
      if o != Done {
        return;
      }
      o := WriteSingleRegister(TargetForce, force);
      if o != Done {
        return;
      }
      o := WriteSingleRegister(TargetSpeed, clampedSpeed);
      if o != Done {
        return;
      }
      o := WriteSingleRegister(CommandRegister, GripExternal);
    }

    method Open(width: Option<int>, force: int, speed: int) returns (o: Outcome)
      requires Valid()
      modifies this
      ensures Valid() && unitId == old(unitId) && State() == old(State())
      ensures (o, LinkState()) == MoveEffect(old(connected), old(limits), old(LinkState()), unitId,
                                             width.GetOr(DefaultOpenWidth), force, speed)
    {
      if !connected {
        return Failed;
      }
      OpenCloseAreMoves(connected, limits, LinkState(), unitId, width, force, speed);
      o := MoveToWidth(width.GetOr(DefaultOpenWidth), force, ClampSpeed(speed));
    }

    method Close(width: Option<int>, force: int, speed: int) returns (o: Outcome)
      requires Valid()
      modifies this
      ensures Valid() && unitId == old(unitId) && State() == old(State())
      ensures (o, LinkState()) == MoveEffect(old(connected), old(limits), old(LinkState()), unitId,
                                             width.GetOr(DefaultCloseWidth), force, speed)
    {
      if !connected {
        return Failed;
      }
      OpenCloseAreMoves(connected, limits, LinkState(), unitId, width, force, speed);
      o := MoveToWidth(width.GetOr(DefaultCloseWidth), force, ClampSpeed(speed));
    }

    /** `stop`: the stop command written to the command register. */
    method Stop() returns (o: Outcome)
      requires Valid()
      modifies this
      ensures Valid() && unitId == old(unitId) && State() == old(State())
      ensures (o, LinkState()) == ConfigEffect(old(connected), old(LinkState()), unitId, CommandRegister, StopCommand)
    {
      if !connected {
        return Failed;
      }
      o := WriteSingleRegister(CommandRegister, StopCommand);
    }

    /** Finger length in tenths of a millimetre. */
    method SetFingerLength(units: int) returns (o: Outcome)
      requires Valid()
      modifies this
      ensures Valid() && unitId == old(unitId) && State() == old(State())
      ensures (o, LinkState()) == ConfigEffect(old(connected), old(LinkState()), unitId, FingerLength, units)
    {
      if !connected {
        return Failed;
      }
      o := WriteSingleRegister(FingerLength, units);
    }

    /** Finger height in tenths of a millimetre. */
    method SetFingerHeight(units: int) returns (o: Outcome)
      requires Valid()
      modifies this
      ensures Valid() && unitId == old(unitId) && State() == old(State())
      ensures (o, LinkState()) == ConfigEffect(old(connected), old(LinkState()), unitId, FingerHeight, units)
    {
      if !connected {
        return Failed;
      }
      o := WriteSingleRegister(FingerHeight, units);
    }

    /** Finger orientation: 0 inward, 1 outward; any other value is refused unsent. */
    method SetFingerOrientation(orientation: int) returns (o: Outcome)
      requires Valid()
      modifies this
      ensures Valid() && unitId == old(unitId) && State() == old(State())
      ensures orientation != 0 && orientation != 1 ==> o == Failed && LinkState() == old(LinkState())
      ensures orientation == 0 || orientation == 1 ==>
        (o, LinkState()) == ConfigEffect(old(connected), old(LinkState()), unitId, FingerOrientation, orientation)
    {
      if !connected {
        return Failed;
      }
      if orientation != 0 && orientation != 1 {
        return Failed;
      }
      o := WriteSingleRegister(FingerOrientation, orientation);
    }

    /** Fingertip offset in hundredths of a millimetre. */
    method SetFingertipOffset(units: int) returns (o: Outcome)
      requires Valid()
      modifies this
      ensures Valid() && unitId == old(unitId) && State() == old(State())
      ensures (o, LinkState()) == ConfigEffect(old(connected), old(LinkState()), unitId, FingertipOffset, units)
    {
      if !connected {
        return Failed;
      }
      o := WriteSingleRegister(FingertipOffset, units);
    }
  }
}
