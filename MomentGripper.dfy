/** `SimpleGripperControl` of the tkinter control panel (momentoftruth.py): the same Modbus
    TCP client without a connection flag. A socket object present is the only test a request
    makes, and a connect that fails still leaves its new, unconnected socket in place, so
    every later request on it fails. The socket is a script of device `replies`, the count
    `taken`, and the `outbox` of requests written. */
module MomentGripper {
  import opened Bytes
  import opened Wrappers
  import opened Modbus
  import opened OnRobot

  // ---------------------------------------------------------------- specification

  /** `get_limits`: both limit registers are read, and a pair is returned only when both
      values were read. */
  function LimitsEffect(open: bool, l: Link, unit: int): (r: ((Option<int>, Option<int>), Link))
    requires IsU16(l.tid)
    ensures IsU16(r.1.tid)
  {
    var lo := ReadEffect(open, l, unit, MinExternalWidth);
    var hi := ReadEffect(open, lo.1, unit, MaxExternalWidth);
    (if lo.0.Some? && hi.0.Some? then (lo.0, hi.0) else (None, None), hi.1)
  }

  /** `get_status`: the status register decoded into its four bits, when it was read. */
  function StatusEffect(open: bool, l: Link, unit: int): (r: (Option<StatusBits>, Link))
    requires IsU16(l.tid) && AllReplyBytes(l.replies)
    ensures IsU16(r.1.tid)
  {
    ReplyBytesAt(l.replies, l.taken);
    var s := ReadEffect(open, l, unit, StatusRegister);
    (if s.0.Some? then Some(DecodeStatus(s.0.value)) else None, s.1)
  }

  /** `set_gripper_parameters`: the three target writes are all made whatever the earlier
      ones gave, unless one raises (struct.error), which ends the call; it succeeds only
      when all three did. */
  function ParamsEffect(open: bool, l: Link, unit: int, width: int, force: int, speed: int): (r: (Outcome, Link))
    requires IsU16(l.tid)
    ensures IsU16(r.1.tid)
  {
    var w1 := WriteEffect(open, l, unit, TargetWidth, width);
    if w1.0 == Raised then w1 else
    var w2 := WriteEffect(open, w1.1, unit, TargetForce, force);
    if w2.0 == Raised then w2 else
    var w3 := WriteEffect(open, w2.1, unit, TargetSpeed, speed);
    if w3.0 == Raised then w3 else
    (if w1.0 == Done && w2.0 == Done && w3.0 == Done then Done else Failed, w3.1)
  }

  /** `full_open` (`toMax`) and `full_close`: the limits are read, the parameters are set
      with the maximum (or minimum) width, and only when that succeeded is the grip command
      sent. A limit that cannot be read fails the call before anything is written. */
  function FullEffect(open: bool, l: Link, unit: int, toMax: bool, force: int, speed: int): (r: (Outcome, Link))
    requires IsU16(l.tid)
    ensures IsU16(r.1.tid)
  {
    FullFrom(open, LimitsEffect(open, l, unit), unit, toMax, force, speed)
  }

  /** What follows the limit reads of a full open or close, given what they gave. */
  function FullFrom(open: bool, lim: ((Option<int>, Option<int>), Link), unit: int, toMax: bool, force: int, speed: int)
    : (r: (Outcome, Link))
    requires IsU16(lim.1.tid)
    ensures IsU16(r.1.tid)
  {
    var target := if toMax then lim.0.1 else lim.0.0;
    if target.None? then (Failed, lim.1)
    else
      var p := ParamsEffect(open, lim.1, unit, target.value, force, speed);
      if p.0 != Done then p
      else WriteEffect(open, p.1, unit, CommandRegister, GripExternal)
  }

  // ---------------------------------------------------------------- properties

  /** The limits come as a pair or not at all, a pair exactly when both reads gave values;
      with a socket present the two requests are sent whatever the first gave. */
  lemma LimitsSpec(open: bool, l: Link, unit: int)
    requires IsU16(l.tid)
    ensures var e := LimitsEffect(open, l, unit);
      && (e.0.0.Some? <==> e.0.1.Some?)
      && (e.0.0.Some? <==> open && RegisterRead(Ahead(l, 0)).Some? && RegisterRead(Ahead(l, 1)).Some?)
      && (e.0.0.Some? ==> e.0 == (RegisterRead(Ahead(l, 0)), RegisterRead(Ahead(l, 1))))
      && (!open ==> e.1 == l)
      && (open ==> e.1 == Link(Advance(l.tid, 2), l.replies, l.taken + 2,
                               l.outbox + [Adu(l.tid, unit, ReadRequest(MinExternalWidth)),
                                           Adu(Advance(l.tid, 1), unit, ReadRequest(MaxExternalWidth))]))
  {
    if open {
      var lo := ReadEffect(true, l, unit, MinExternalWidth);
      ReadEffectSpec(true, l, unit, MinExternalWidth);
      ReadEffectSpec(true, lo.1, unit, MaxExternalWidth);
      assert Ahead(lo.1, 0) == Ahead(l, 1);
      var a1 := Adu(l.tid, unit, ReadRequest(MinExternalWidth));
      var a2 := Adu(lo.1.tid, unit, ReadRequest(MaxExternalWidth));
      assert l.outbox + [a1] + [a2] == l.outbox + [a1, a2];
    }
  }

  /** With a socket and values that fit 16 bits, all three writes are sent in order under
      consecutive ids even when an earlier one fails, and the call succeeds exactly when all
      three are acknowledged. Without a socket nothing is sent and the call fails. */
  lemma ParamsAllAttempted(open: bool, l: Link, unit: int, width: int, force: int, speed: int)
    requires IsU16(l.tid) && IsU16(width) && IsU16(force) && IsU16(speed)
    ensures var e := ParamsEffect(open, l, unit, width, force, speed);
      && (!open ==> e == (Failed, l))
      && (open ==> (e.0 == Done <==> forall k :: 0 <= k < 3 ==> RegisterWritten(Ahead(l, k))))
      && (open ==> e.0 != Raised
                   && e.1 == Link(Advance(l.tid, 3), l.replies, l.taken + 3, l.outbox +
                        [Adu(l.tid, unit, WriteRequest(TargetWidth, width)),
                         Adu(Advance(l.tid, 1), unit, WriteRequest(TargetForce, force)),
                         Adu(Advance(l.tid, 2), unit, WriteRequest(TargetSpeed, speed))]))
  {
    if open {
      var w1 := WriteEffect(true, l, unit, TargetWidth, width);
      WriteEffectSpec(true, l, unit, TargetWidth, width);
      var w2 := WriteEffect(true, w1.1, unit, TargetForce, force);
      WriteEffectSpec(true, w1.1, unit, TargetForce, force);
      assert Ahead(w1.1, 0) == Ahead(l, 1);
      WriteEffectSpec(true, w2.1, unit, TargetSpeed, speed);
      assert Ahead(w2.1, 0) == Ahead(l, 2);
      assert Advance(l.tid, 3) == Next(Advance(l.tid, 2));
      var a1 := Adu(l.tid, unit, WriteRequest(TargetWidth, width));
      var a2 := Adu(w1.1.tid, unit, WriteRequest(TargetForce, force));
      var a3 := Adu(w2.1.tid, unit, WriteRequest(TargetSpeed, speed));
      assert l.outbox + [a1] + [a2] + [a3] == l.outbox + [a1, a2, a3];
    }
  }

  /** A width, force or speed that does not fit 16 bits raises; the writes before it have
      been made. */
  lemma ParamsRaise(open: bool, l: Link, unit: int, width: int, force: int, speed: int)
    requires IsU16(l.tid)
    ensures ParamsEffect(open, l, unit, width, force, speed).0 == Raised <==>
              !IsU16(width) || !IsU16(force) || !IsU16(speed)
  {
    var w1 := WriteEffect(open, l, unit, TargetWidth, width);
    WriteEffectSpec(open, l, unit, TargetWidth, width);
    var w2 := WriteEffect(open, w1.1, unit, TargetForce, force);
    WriteEffectSpec(open, w1.1, unit, TargetForce, force);
    WriteEffectSpec(open, w2.1, unit, TargetSpeed, speed);
  }

  /** A full open or close whose limit cannot be read sends nothing but the two reads; one
      that succeeds has set the parameters with that limit as the width and then sent the
      grip command last. */
  lemma FullSpec(open: bool, l: Link, unit: int, toMax: bool, force: int, speed: int)
    requires IsU16(l.tid) && AllReplyBytes(l.replies)
    ensures var lim := LimitsEffect(open, l, unit);
      var target := if toMax then lim.0.1 else lim.0.0;
      var e := FullEffect(open, l, unit, toMax, force, speed);
      && (target.None? ==> e == (Failed, lim.1))
      && (e.0 == Done ==>
            && target.Some? && IsU16(target.value)
            && target.value == RegisterRead(Ahead(l, if toMax then 1 else 0)).value
            && ParamsEffect(open, lim.1, unit, target.value, force, speed).0 == Done
            && |e.1.outbox| == |l.outbox| + 6
            && e.1.outbox[|l.outbox| + 2].pdu == WriteRequest(TargetWidth, target.value)
            && e.1.outbox[|l.outbox| + 5].pdu == WriteRequest(CommandRegister, GripExternal))
  {
    LimitsSpec(open, l, unit);
    var lim := LimitsEffect(open, l, unit);
    var target := if toMax then lim.0.1 else lim.0.0;
    if open && target.Some? {
      ReplyBytesAt(l.replies, l.taken);
      ReplyBytesAt(l.replies, l.taken + 1);
      var p := ParamsEffect(open, lim.1, unit, target.value, force, speed);
      if p.0 == Done {
        ParamsAllAttempted(open, lim.1, unit, target.value, force, speed);
        WriteEffectSpec(open, p.1, unit, CommandRegister, GripExternal);
      }
    }
  }

  /** The converse: a full open or close succeeds exactly when the limit was read, the
      parameters were all acknowledged with it as the width, and the grip command after
      them (the sixth request) was acknowledged. */
  lemma FullDone(open: bool, l: Link, unit: int, toMax: bool, force: int, speed: int)
    requires IsU16(l.tid)
    ensures var lim := LimitsEffect(open, l, unit);
      var target := if toMax then lim.0.1 else lim.0.0;
      FullEffect(open, l, unit, toMax, force, speed).0 == Done <==>
        && target.Some?
        && ParamsEffect(open, lim.1, unit, target.value, force, speed).0 == Done
        && RegisterWritten(Ahead(l, 5))
  {
    LimitsSpec(open, l, unit);
    var lim := LimitsEffect(open, l, unit);
    FullFromDone(open, lim, unit, toMax, force, speed);
    var target := if toMax then lim.0.1 else lim.0.0;
    if target.Some? {
      assert Ahead(lim.1, 3) == Ahead(l, 5);
    }
  }

  /** After the limits, the call succeeds exactly when the limit is there, the parameters
      with it were all acknowledged and so was the grip command, the fourth request. */
  lemma FullFromDone(open: bool, lim: ((Option<int>, Option<int>), Link), unit: int, toMax: bool, force: int, speed: int)
    requires IsU16(lim.1.tid)
    ensures var target := if toMax then lim.0.1 else lim.0.0;
      FullFrom(open, lim, unit, toMax, force, speed).0 == Done <==>
        && target.Some?
        && ParamsEffect(open, lim.1, unit, target.value, force, speed).0 == Done
        && RegisterWritten(Ahead(lim.1, 3))
  {
    var target := if toMax then lim.0.1 else lim.0.0;
    if target.Some? {
      var p := ParamsEffect(open, lim.1, unit, target.value, force, speed);
      ParamsRaise(open, lim.1, unit, target.value, force, speed);
      if p.0 == Done {
        ParamsAllAttempted(open, lim.1, unit, target.value, force, speed);
        WriteEffectSpec(open, p.1, unit, CommandRegister, GripExternal);
        assert Ahead(p.1, 0) == Ahead(lim.1, 3);
      }
    }
  }

  /** The status comes from one read of register 256: present exactly when a socket is
      there and the reply carries a value, and then its four flags are bits 0, 1, 3 and 4
      of that value. */
  lemma StatusSpec(open: bool, l: Link, unit: int)
    requires IsU16(l.tid) && AllReplyBytes(l.replies)
    ensures var e := StatusEffect(open, l, unit);
      var v := RegisterRead(Ahead(l, 0));
      && (!open ==> e == (None, l))
      && (e.0.Some? <==> open && v.Some?)
      && (e.0.Some? ==> e.0.value == DecodeStatus(v.value)
                        && e.0.value.busy == Bit(v.value, 0) && e.0.value.gripDetected == Bit(v.value, 1)
                        && e.0.value.errorNotCalibrated == Bit(v.value, 3)
                        && e.0.value.errorLinearSensor == Bit(v.value, 4))
      && (open ==> e.1 == Link(Advance(l.tid, 1), l.replies, l.taken + 1,
                               l.outbox + [Adu(l.tid, unit, ReadRequest(0x0100))]))
  {
    ReadEffectSpec(open, l, unit, StatusRegister);
  }

  // ---------------------------------------------------------------- the object

  class SimpleGripperControl {
    var unitId: int
    var transactionId: int
    /** Whether a socket object is held (`self.sock`). */
    var open: bool
    var replies: seq<Reply>
    var taken: nat
    var outbox: seq<Adu>

    ghost predicate Valid()
      reads this
    {
      IsU16(transactionId) && IsByte(unitId) && AllReplyBytes(replies)
    }

    function LinkState(): Link
      reads this
    {
      Link(transactionId, replies, taken, outbox)
    }

    constructor (unitId: int)
      requires IsByte(unitId)
      ensures Valid() && this.unitId == unitId && !open
      ensures LinkState() == Link(1, [], 0, [])
    {
      this.unitId := unitId;
      transactionId := 1;
      open := false;
      replies := [];
      taken := 0;
      outbox := [];
    }

    /** `connect`: a new socket replaces the old one whether or not it connects; one that
        does not connect gets no replies. The transaction counter carries on. */
    method Connect(linkUp: bool, newReplies: seq<Reply>) returns (ok: bool)
      requires Valid() && AllReplyBytes(newReplies)
      modifies this
      ensures Valid() && unitId == old(unitId) && open && ok == linkUp
      ensures LinkState() == Link(old(transactionId), if linkUp then newReplies else [], 0, [])
    {
      open := true;
      replies := if linkUp then newReplies else [];
      taken := 0;
      outbox := [];
      ok := linkUp;
    }

    method Disconnect()
      modifies this
      ensures !open && unitId == old(unitId) && LinkState() == old(LinkState())
    {
      open := false;
    }

    /** `_send_modbus_request`: nothing without a socket; otherwise the id is used and
        advanced, the request written and the next reply taken, and every failure (a short
        header or body, an exception reply, an empty body) becomes None. */
    method SendRequest(fc: int, pdu: seq<int>) returns (r: Option<seq<int>>)
      requires Valid()
      modifies this
      ensures Valid() && unitId == old(unitId) && open == old(open)
      ensures !old(open) ==> r.None? && LinkState() == old(LinkState())
      ensures old(open) ==> LinkState() == Send(old(LinkState()), unitId, pdu)
      ensures old(open) ==>
        var rec := Receive(fc, Ahead(old(LinkState()), 0));
        r == if rec.Pdu? && |rec.bytes| > 0 then Some(rec.bytes) else None
    {
      if !open {
        return None;
      }
      var tid := transactionId;
      NextIsModular(tid);
      transactionId := (transactionId + 1) % 0x1_0000;
      outbox := outbox + [Adu(tid, unitId, pdu)];
      var reply := Nth(replies, taken);
      taken := taken + 1;
      var rec := Receive(fc, reply);
      // an empty body makes the exception check index past its end, which the handler catches
      r := if rec.Pdu? && |rec.bytes| > 0 then Some(rec.bytes) else None;
    }

    method ReadHoldingRegister(address: int) returns (v: Option<int>)
      requires Valid() && IsU16(address)
      modifies this
      ensures Valid() && unitId == old(unitId) && open == old(open)
      ensures (v, LinkState()) == ReadEffect(old(open), old(LinkState()), unitId, address)
      ensures v.Some? ==> IsU16(v.value)
    {
      ReplyBytesAt(replies, taken);
      var resp := SendRequest(ReadHoldingRegisters, ReadRequest(address));
      v := if resp.Some? then ReadValue(resp.value) else None;
    }

    method WriteSingleRegister(address: int, value: int) returns (o: Outcome)
      requires Valid() && IsU16(address)
      modifies this
      ensures Valid() && unitId == old(unitId) && open == old(open)
      ensures (o, LinkState()) == WriteEffect(old(open), old(LinkState()), unitId, address, value)
    {
      if !IsU16(value) {
        return Raised;
      }
      var resp := SendRequest(Modbus.WriteSingleRegister, WriteRequest(address, value));
      o := if resp.Some? && WriteAcked(resp.value) then Done else Failed;
    }

    /** `get_product_info`: the product code register. */
    method GetProductInfo() returns (v: Option<int>)
      requires Valid()
      modifies this
      ensures Valid() && unitId == old(unitId) && open == old(open)
      ensures (v, LinkState()) == ReadEffect(old(open), old(LinkState()), unitId, ProductCodeRegister)
    {
      v := ReadHoldingRegister(ProductCodeRegister);
    }

    /** `get_current_width`: the external width register, in tenths of a millimetre. */
    method GetCurrentWidth() returns (v: Option<int>)
      requires Valid()
      modifies this
      ensures Valid() && unitId == old(unitId) && open == old(open)
      ensures (v, LinkState()) == ReadEffect(old(open), old(LinkState()), unitId, ExternalWidth)
    {
      v := ReadHoldingRegister(ExternalWidth);
    }

    method GetLimits() returns (lo: Option<int>, hi: Option<int>)
      requires Valid()
      modifies this
      ensures Valid() && unitId == old(unitId) && open == old(open)
      ensures ((lo, hi), LinkState()) == LimitsEffect(old(open), old(LinkState()), unitId)
    {
      var minVal := ReadHoldingRegister(MinExternalWidth);
      var maxVal := ReadHoldingRegister(MaxExternalWidth);
      if minVal.Some? && maxVal.Some? {
        return minVal, maxVal;
      }
      return None, None;
    }

    method GetStatus() returns (s: Option<StatusBits>)
      requires Valid()
      modifies this
      ensures Valid() && unitId == old(unitId) && open == old(open)
      ensures (s, LinkState()) == StatusEffect(old(open), old(LinkState()), unitId)
    {
      var value := ReadHoldingRegister(StatusRegister);
      s := if value.Some? then Some(DecodeStatus(value.value)) else None;
    }

    /** `set_gripper_parameters`, accumulating its success flag over the three writes. */
    method SetGripperParameters(width: int, force: int, speed: int) returns (o: Outcome)
      requires Valid()
      modifies this
      ensures Valid() && unitId == old(unitId) && open == old(open)
      ensures (o, LinkState()) == ParamsEffect(old(open), old(LinkState()), unitId, width, force, speed)
    {
      var success := true;
      var w := WriteSingleRegister(TargetWidth, width);
      if w == Raised {
        return Raised;
      }
      if w != Done {
        success := false;
      }
      w := WriteSingleRegister(TargetForce, force);
      if w == Raised {
        return Raised;
      }
      if w != Done {
        success := false;
      }
      w := WriteSingleRegister(TargetSpeed, speed);
      if w == Raised {
        return Raised;
      }
      if w != Done {
        success := false;
      }
      o := if success then Done else Failed;
    }

    /** `execute_command`: the command register (1 grip external, 2 grip internal, 3 stop). */
    method ExecuteCommand(command: int) returns (o: Outcome)
      requires Valid()
      modifies this
      ensures Valid() && unitId == old(unitId) && open == old(open)
      ensures (o, LinkState()) == WriteEffect(old(open), old(LinkState()), unitId, CommandRegister, command)
    {
      o := WriteSingleRegister(CommandRegister, command);
    }

    /** `full_open` (`toMax`) or `full_close`. */
    method Full(toMax: bool, force: int, speed: int) returns (o: Outcome)
      requires Valid()
      modifies this
      ensures Valid() && unitId == old(unitId) && open == old(open)
      ensures (o, LinkState()) == FullEffect(old(open), old(LinkState()), unitId, toMax, force, speed)
    {
      var minWidth, maxWidth := GetLimits();
      var target := if toMax then maxWidth else minWidth;
      if target.None? {
        return Failed;
      }
      o := SetGripperParameters(target.value, force, speed);
      if o != Done {
        return;
      }
      o := ExecuteCommand(GripExternal);
    }

    method FullOpen(force: int, speed: int) returns (o: Outcome)
      requires Valid()
      modifies this
      ensures Valid() && unitId == old(unitId) && open == old(open)
      ensures (o, LinkState()) == FullEffect(old(open), old(LinkState()), unitId, true, force, speed)
    {
      o := Full(true, force, speed);
    }

    method FullClose(force: int, speed: int) returns (o: Outcome)
      requires Valid()
      modifies this
      ensures Valid() && unitId == old(unitId) && open == old(open)
      ensures (o, LinkState()) == FullEffect(old(open), old(LinkState()), unitId, false, force, speed)
    {
      o := Full(false, force, speed);
    }

    method Stop() returns (o: Outcome)
      requires Valid()
      modifies this
      ensures Valid() && unitId == old(unitId) && open == old(open)
      ensures (o, LinkState()) == WriteEffect(old(open), old(LinkState()), unitId, CommandRegister, StopCommand)
    {
      o := ExecuteCommand(StopCommand);
    }
  }
}
