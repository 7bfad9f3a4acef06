/** `SimpleGripperControl` of the keyboard jog script (robotkeyboardcontrol.py): the Modbus TCP
    client with a connection flag that every request checks and that any transport exception
    clears (a timeout, a failed send, or the exception check indexing an empty reply body),
    and a record of the last full open or close that went through. As elsewhere the socket
    is a script of device `replies`, the count `taken`, and the `outbox` of requests. */
module KeyboardGripper {
  import opened Bytes
  import opened Wrappers
  import opened Modbus
  import opened OnRobot

  /** The socket object being present, the connection flag, and the link. */
  datatype KState = KState(open: bool, connected: bool, l: Link)

  predicate Live(s: KState) {
    s.open && s.connected
  }

  /** A reply that makes the request code raise inside its handler: none arrives before the
      timeout, or the body is empty and the exception check reads past its end. */
  predicate Drops(fc: int, reply: Reply) {
    reply.Lost? || Receive(fc, reply) == Pdu([])
  }

  // ---------------------------------------------------------------- specification

  /** `_send_modbus_request`: refused without a socket or the flag; otherwise the request is
      sent and the next reply taken; a dropping reply clears the flag. */
  function KSend(s: KState, unit: int, fc: int, pdu: seq<int>): (r: (Option<seq<int>>, KState))
    requires IsU16(s.l.tid)
    ensures IsU16(r.1.l.tid) && r.1.open == s.open && r.1.l.replies == s.l.replies
  {
    if !Live(s) then (None, s)
    else
      var reply := Ahead(s.l, 0);
      var l' := Send(s.l, unit, pdu);
      if Drops(fc, reply) then (None, s.(connected := false, l := l'))
      else
        var rec := Receive(fc, reply);
        (if rec.Pdu? then Some(rec.bytes) else None, s.(l := l'))
  }

  /** `read_holding_register`: refused unless the flag is set. */
  function KRead(s: KState, unit: int, address: int): (r: (Option<int>, KState))
    requires IsU16(s.l.tid) && IsU16(address)
    ensures IsU16(r.1.l.tid) && r.1.open == s.open && r.1.l.replies == s.l.replies
  {
    if !s.connected then (None, s)
    else
      var e := KSend(s, unit, ReadHoldingRegisters, ReadRequest(address));
      (if e.0.Some? then ReadValue(e.0.value) else None, e.1)
  }

  /** `write_single_register`: refused unless the flag is set, which is checked before the
      value is packed (a value that does not fit 16 bits raises struct.error). */
  function KWrite(s: KState, unit: int, address: int, value: int): (r: (Outcome, KState))
    requires IsU16(s.l.tid) && IsU16(address)
    ensures IsU16(r.1.l.tid) && r.1.open == s.open && r.1.l.replies == s.l.replies
  {
    if !s.connected then (Failed, s)
    else if !IsU16(value) then (Raised, s)
    else
      var e := KSend(s, unit, Modbus.WriteSingleRegister, WriteRequest(address, value));
      (if e.0.Some? && WriteAcked(e.0.value) then Done else Failed, e.1)
  }

  /** `set_gripper_parameters`: refused unless connected; the three writes are all attempted
      (though one that finds the flag cleared is refused unsent), a raise ends the call, and
      it succeeds only when all three did. */
  function KParams(s: KState, unit: int, width: int, force: int, speed: int): (r: (Outcome, KState))
    requires IsU16(s.l.tid)
    ensures IsU16(r.1.l.tid) && r.1.open == s.open && r.1.l.replies == s.l.replies
  {
    if !s.connected then (Failed, s)
    else
      var w1 := KWrite(s, unit, TargetWidth, width);
      if w1.0 == Raised then w1 else
      var w2 := KWrite(w1.1, unit, TargetForce, force);
      if w2.0 == Raised then w2 else
      var w3 := KWrite(w2.1, unit, TargetSpeed, speed);
      if w3.0 == Raised then w3 else
      (if w1.0 == Done && w2.0 == Done && w3.0 == Done then Done else Failed, w3.1)
  }

  /** `execute_command`: refused unless connected, otherwise a write of the command register. */
  function KCommand(s: KState, unit: int, command: int): (r: (Outcome, KState))
    requires IsU16(s.l.tid)
    ensures IsU16(r.1.l.tid) && r.1.open == s.open && r.1.l.replies == s.l.replies
  {
    if !s.connected then (Failed, s) else KWrite(s, unit, CommandRegister, command)
  }

  /** `get_limits`: both reads are made, and a pair comes back only when both gave values. */
  function KLimits(s: KState, unit: int): (r: ((Option<int>, Option<int>), KState))
    requires IsU16(s.l.tid)
    ensures IsU16(r.1.l.tid) && r.1.open == s.open && r.1.l.replies == s.l.replies
  {
    var lo := KRead(s, unit, MinExternalWidth);
    var hi := KRead(lo.1, unit, MaxExternalWidth);
    (if lo.0.Some? && hi.0.Some? then (lo.0, hi.0) else (None, None), hi.1)
  }

  /** `full_open` (`toMax`) or `full_close`: the limit, then the parameters with it as the
      width, then, only after they succeeded, the grip command. */
  function KFull(s: KState, unit: int, toMax: bool, force: int, speed: int): (r: (Outcome, KState))
    requires IsU16(s.l.tid)
    ensures IsU16(r.1.l.tid) && r.1.open == s.open && r.1.l.replies == s.l.replies
  {
    KFullFrom(KLimits(s, unit), unit, toMax, force, speed)
  }

  /** What follows the limit reads of a full open or close, given what they gave. */
  function KFullFrom(lim: ((Option<int>, Option<int>), KState), unit: int, toMax: bool, force: int, speed: int)
    : (r: (Outcome, KState))
    requires IsU16(lim.1.l.tid)
    ensures IsU16(r.1.l.tid) && r.1.open == lim.1.open && r.1.l.replies == lim.1.l.replies
  {
    var target := if toMax then lim.0.1 else lim.0.0;
    if target.None? then (Failed, lim.1)
    else
      var p := KParams(lim.1, unit, target.value, force, speed);
      if p.0 != Done then p else KCommand(p.1, unit, GripExternal)
  }

  /** The command last carried out by a full open or close: set only by one that succeeded. */
  function NoteCommand(last: Option<string>, name: string, o: Outcome): (r: Option<string>)
    ensures r != last ==> o == Done && r == Some(name)
    ensures o == Done ==> r == Some(name)
  {
    if o == Done then Some(name) else last
  }

  // ---------------------------------------------------------------- properties

  /** A request is refused unsent unless the socket and the flag are both there; a sent
      request clears the flag exactly when its reply drops, and no request sets it. */
  lemma KSendSpec(s: KState, unit: int, fc: int, pdu: seq<int>)
    requires IsU16(s.l.tid)
    ensures var e := KSend(s, unit, fc, pdu);
      && (!Live(s) ==> e == (None, s))
      && (Live(s) ==> e.1.l == Send(s.l, unit, pdu)
                      && (e.1.connected <==> !Drops(fc, Ahead(s.l, 0))))
      && (e.1.connected ==> s.connected)
      && (e.0.Some? ==> e.1.connected)
  {
  }

  /** A read or write made while the flag is clear sends nothing and changes nothing; one
      made while connected leaves the flag set exactly when its reply does not drop.
      A write that succeeds keeps the connection. */
  lemma KRequestSpec(s: KState, unit: int, address: int, value: int)
    requires IsU16(s.l.tid) && IsU16(address)
    ensures var r := KRead(s, unit, address);
      && (!s.connected ==> r == (None, s))
      && (Live(s) ==> (r.1.connected <==> !Drops(ReadHoldingRegisters, Ahead(s.l, 0))))
      && (r.1.connected ==> s.connected)
    ensures var w := KWrite(s, unit, address, value);
      && (!s.connected ==> w == (Failed, s))
      && (s.connected && !IsU16(value) ==> w == (Raised, s))
      && (Live(s) && IsU16(value) ==>
            (w.1.connected <==> !Drops(Modbus.WriteSingleRegister, Ahead(s.l, 0)))
            && (w.0 == Done <==> RegisterWritten(Ahead(s.l, 0))))
      && (w.1.connected ==> s.connected)
      && (w.0 == Done ==> w.1.connected)
  {
    KSendSpec(s, unit, ReadHoldingRegisters, ReadRequest(address));
    if IsU16(value) {
      KSendSpec(s, unit, Modbus.WriteSingleRegister, WriteRequest(address, value));
    }
  }

  /** Setting the parameters with packable values on a live link: it succeeds exactly when
      all three writes are acknowledged, and then all three were sent and the link is still
      up; a write whose reply drops is the last one sent. */
  lemma KParamsSpec(s: KState, unit: int, width: int, force: int, speed: int)
    requires IsU16(s.l.tid) && IsU16(width) && IsU16(force) && IsU16(speed)
    ensures var e := KParams(s, unit, width, force, speed);
      var sent := e.1.l.taken - s.l.taken;
      && (!s.connected ==> e == (Failed, s))
      && e.0 != Raised
      && (Live(s) ==> (e.0 == Done <==> forall k :: 0 <= k < 3 ==> RegisterWritten(Ahead(s.l, k))))
      && (Live(s) ==> 1 <= sent <= 3 && (e.1.connected <==> sent == 3 && !Drops(Modbus.WriteSingleRegister, Ahead(s.l, 2))))
      && (Live(s) && sent < 3 ==> Drops(Modbus.WriteSingleRegister, Ahead(s.l, sent - 1)))
      && (e.0 == Done ==> e.1.connected)
  {
    if Live(s) {
      var w1 := KWrite(s, unit, TargetWidth, width);
      KRequestSpec(s, unit, TargetWidth, width);
      KSendSpec(s, unit, Modbus.WriteSingleRegister, WriteRequest(TargetWidth, width));
      var w2 := KWrite(w1.1, unit, TargetForce, force);
      KRequestSpec(w1.1, unit, TargetForce, force);
      KSendSpec(w1.1, unit, Modbus.WriteSingleRegister, WriteRequest(TargetForce, force));
      assert Ahead(w1.1.l, 0) == Ahead(s.l, 1);
      KRequestSpec(w2.1, unit, TargetSpeed, speed);
      KSendSpec(w2.1, unit, Modbus.WriteSingleRegister, WriteRequest(TargetSpeed, speed));
      if w1.1.connected && w2.1.connected {
        assert Ahead(w2.1.l, 0) == Ahead(s.l, 2);
      }
    }
  }

  /** On a live link a read yields what the reply carries; a reply carrying a value does
      not drop the link. */
  lemma KReadValue(s: KState, unit: int, address: int)
    requires IsU16(s.l.tid) && IsU16(address)
    ensures Live(s) ==> KRead(s, unit, address).0 == RegisterRead(Ahead(s.l, 0))
    ensures RegisterRead(Ahead(s.l, 0)).Some? ==> !Drops(ReadHoldingRegisters, Ahead(s.l, 0))
  {
    var reply := Ahead(s.l, 0);
    if Receive(ReadHoldingRegisters, reply) == Pdu([]) {
      assert ReadValue([]).None?;
    }
  }

  /** The limits come as a pair or not at all, a pair exactly when the link is live and
      both replies carry values; the second read is sent unless the first reply dropped
      the link. */
  lemma KLimitsSpec(s: KState, unit: int)
    requires IsU16(s.l.tid)
    ensures var e := KLimits(s, unit);
      && (e.0.0.Some? <==> e.0.1.Some?)
      && (!Live(s) ==> e == ((None, None), s))
      && (e.0.0.Some? <==> Live(s) && RegisterRead(Ahead(s.l, 0)).Some? && RegisterRead(Ahead(s.l, 1)).Some?)
      && (e.0.0.Some? ==> e.0 == (RegisterRead(Ahead(s.l, 0)), RegisterRead(Ahead(s.l, 1))) && e.1.connected)
      && (Live(s) ==> e.1.l.taken == s.l.taken + (if Drops(ReadHoldingRegisters, Ahead(s.l, 0)) then 1 else 2))
      && (e.1.connected ==> s.connected)
  {
    var lo := KRead(s, unit, MinExternalWidth);
    KRequestSpec(s, unit, MinExternalWidth, 0);
    KSendSpec(s, unit, ReadHoldingRegisters, ReadRequest(MinExternalWidth));
    KReadValue(s, unit, MinExternalWidth);
    KRequestSpec(lo.1, unit, MaxExternalWidth, 0);
    KSendSpec(lo.1, unit, ReadHoldingRegisters, ReadRequest(MaxExternalWidth));
    KReadValue(lo.1, unit, MaxExternalWidth);
    if Live(s) && lo.1.connected {
      assert Ahead(lo.1.l, 0) == Ahead(s.l, 1);
    }
  }

  /** A full open or close succeeds exactly when the limit was read, the parameters were
      all acknowledged with it as the width, and the grip command, the sixth request, was
      acknowledged; then the link is still up. A limit that cannot be read fails the call
      with nothing written. */
  lemma KFullSpec(s: KState, unit: int, toMax: bool, force: int, speed: int)
    requires IsU16(s.l.tid)
    ensures var lim := KLimits(s, unit);
      var target := if toMax then lim.0.1 else lim.0.0;
      var e := KFull(s, unit, toMax, force, speed);
      && (target.None? ==> e == (Failed, lim.1))
      && (e.0 == Done <==>
            && target.Some?
            && KParams(lim.1, unit, target.value, force, speed).0 == Done
            && RegisterWritten(Ahead(s.l, 5)))
      && (e.0 == Done ==>
            && e.1.connected
            && target == RegisterRead(Ahead(s.l, if toMax then 1 else 0))
            && e.1.l.taken == s.l.taken + 6)
  {
    KLimitsTarget(s, unit, toMax);
    var lim := KLimits(s, unit);
    KFullAfterLimits(s, lim, unit, toMax, force, speed);
  }

  /** `KFullSpec` for limits `lim` that were read as `KLimitsTarget` says. */
  lemma KFullAfterLimits(s: KState, lim: ((Option<int>, Option<int>), KState), unit: int, toMax: bool, force: int, speed: int)
    requires IsU16(lim.1.l.tid)
    requires var target := if toMax then lim.0.1 else lim.0.0;
      target.Some? ==>
        && target == RegisterRead(Ahead(s.l, if toMax then 1 else 0))
        && lim.1.connected && lim.1.l.taken == s.l.taken + 2 && lim.1.l.replies == s.l.replies
    ensures var target := if toMax then lim.0.1 else lim.0.0;
      var e := KFullFrom(lim, unit, toMax, force, speed);
      && (target.None? ==> e == (Failed, lim.1))
      && (e.0 == Done <==>
            && target.Some?
            && KParams(lim.1, unit, target.value, force, speed).0 == Done
            && RegisterWritten(Ahead(s.l, 5)))
      && (e.0 == Done ==>
            && e.1.connected
            && target == RegisterRead(Ahead(s.l, if toMax then 1 else 0))
            && e.1.l.taken == s.l.taken + 6)
  {
    KFullFromSpec(lim, unit, toMax, force, speed);
    var target := if toMax then lim.0.1 else lim.0.0;
    if target.Some? {
      assert Ahead(lim.1.l, 3) == Ahead(s.l, 5);
    }
  }

  /** After the limits, the call succeeds exactly when the limit is there, the parameters
      with it were all acknowledged and so was the grip command, the fourth request; the
      link is then still up. */
  lemma KFullFromSpec(lim: ((Option<int>, Option<int>), KState), unit: int, toMax: bool, force: int, speed: int)
    requires IsU16(lim.1.l.tid)
    ensures var target := if toMax then lim.0.1 else lim.0.0;
      var e := KFullFrom(lim, unit, toMax, force, speed);
      && (target.None? ==> e == (Failed, lim.1))
      && (e.0 == Done <==>
            && target.Some?
            && KParams(lim.1, unit, target.value, force, speed).0 == Done
            && RegisterWritten(Ahead(lim.1.l, 3)))
      && (e.0 == Done ==> e.1.connected && e.1.l.taken == lim.1.l.taken + 4)
  {
    var target := if toMax then lim.0.1 else lim.0.0;
    if target.Some? && KParams(lim.1, unit, target.value, force, speed).0 == Done {
      KCommandAfterParams(lim.1, unit, target.value, force, speed);
    }
  }

  /** A limit read in full came from its reply, two requests on, with the link up. */
  lemma KLimitsTarget(s: KState, unit: int, toMax: bool)
    requires IsU16(s.l.tid)
    ensures var lim := KLimits(s, unit);
      var target := if toMax then lim.0.1 else lim.0.0;
      target.Some? ==>
        && target == RegisterRead(Ahead(s.l, if toMax then 1 else 0))
        && lim.1.connected && lim.1.l.taken == s.l.taken + 2 && lim.1.l.replies == s.l.replies
  {
    KLimitsSpec(s, unit);
  }

  /** After parameters that were all set, the grip command is the fourth request: it
      succeeds exactly when its reply acknowledges it, and then the link is still up. */
  lemma KCommandAfterParams(t: KState, unit: int, width: int, force: int, speed: int)
    requires IsU16(t.l.tid)
    requires KParams(t, unit, width, force, speed).0 == Done
    ensures var p := KParams(t, unit, width, force, speed);
      var c := KCommand(p.1, unit, GripExternal);
      && (c.0 == Done <==> RegisterWritten(Ahead(t.l, 3)))
      && (c.0 == Done ==> c.1.connected && c.1.l.taken == t.l.taken + 4)
  {
    var p := KParams(t, unit, width, force, speed);
    KParamsDoneFits(t, unit, width, force, speed);
    KParamsSpec(t, unit, width, force, speed);
    KRequestSpec(p.1, unit, CommandRegister, GripExternal);
    KSendSpec(p.1, unit, Modbus.WriteSingleRegister, WriteRequest(CommandRegister, GripExternal));
    assert Ahead(p.1.l, 0) == Ahead(t.l, 3);
  }

  /** Parameters that were all set were all packable and set on a live link. */
  lemma KParamsDoneFits(s: KState, unit: int, width: int, force: int, speed: int)
    requires IsU16(s.l.tid)
    requires KParams(s, unit, width, force, speed).0 == Done
    ensures IsU16(width) && IsU16(force) && IsU16(speed) && Live(s)
  {
    var w1 := KWrite(s, unit, TargetWidth, width);
    var w2 := KWrite(w1.1, unit, TargetForce, force);
    KRequestSpec(s, unit, TargetWidth, width);
    KSendSpec(s, unit, Modbus.WriteSingleRegister, WriteRequest(TargetWidth, width));
    KRequestSpec(w1.1, unit, TargetForce, force);
    KRequestSpec(w2.1, unit, TargetSpeed, speed);
  }

  // ---------------------------------------------------------------- the object

  class SimpleGripperControl {
    var unitId: int
    var transactionId: int
    var open: bool
    var connected: bool
    var lastCommand: Option<string>
    var replies: seq<Reply>
    var taken: nat
    var outbox: seq<Adu>

    ghost predicate Valid()
      reads this
    {
      IsU16(transactionId) && IsByte(unitId) && AllReplyBytes(replies)
    }

    function LinkState(): Link
      reads this
    {
      Link(transactionId, replies, taken, outbox)
    }

    function State(): KState
      reads this
    {
      KState(open, connected, LinkState())
    }

    constructor (unitId: int)
      requires IsByte(unitId)
      ensures Valid() && this.unitId == unitId && lastCommand.None?
      ensures State() == KState(false, false, Link(1, [], 0, []))
    {
      this.unitId := unitId;
      transactionId := 1;
      open, connected := false, false;
      lastCommand := None;
      replies, taken, outbox := [], 0, [];
    }

    /** `connect`: a new socket replaces the old one; the flag says whether it connected, and
        one that did not gets no replies. */
    method Connect(linkUp: bool, newReplies: seq<Reply>) returns (ok: bool)
      requires Valid() && AllReplyBytes(newReplies)
      modifies this
      ensures Valid() && unitId == old(unitId) && lastCommand == old(lastCommand) && ok == linkUp
      ensures State() == KState(true, linkUp, Link(old(transactionId), if linkUp then newReplies else [], 0, []))
    {
      open := true;
      connected := linkUp;
      replies := if linkUp then newReplies else [];
      taken, outbox := 0, [];
      ok := linkUp;
    }

    /** `disconnect`: only a present socket is closed, and only then is the flag cleared. */
    method Disconnect()
      modifies this
      ensures unitId == old(unitId) && lastCommand == old(lastCommand)
      ensures State() == if old(open) then old(State()).(open := false, connected := false) else old(State())
    {
      if open {
        open := false;
        connected := false;
      }
    }

    method SendRequest(fc: int, pdu: seq<int>) returns (r: Option<seq<int>>)
      requires Valid()
      modifies this
      ensures Valid() && unitId == old(unitId) && lastCommand == old(lastCommand)
      ensures (r, State()) == KSend(old(State()), unitId, fc, pdu)
    {
      if !open || !connected {
        return None;
      }
      var tid := transactionId;
      NextIsModular(tid);
      transactionId := (transactionId + 1) % 0x1_0000;
      outbox := outbox + [Adu(tid, unitId, pdu)];
      var reply := Nth(replies, taken);
      taken := taken + 1;
      if reply.Lost? {
        // the timeout is caught by the handler, which clears the flag
        connected := false;
        return None;
      }
      var rec := Receive(fc, reply);
      if rec == Pdu([]) {
        // so is the IndexError of the exception check on an empty body
        connected := false;
        return None;
      }
      r := if rec.Pdu? then Some(rec.bytes) else None;
    }

    method ReadHoldingRegister(address: int) returns (v: Option<int>)
      requires Valid() && IsU16(address)
      modifies this
      ensures Valid() && unitId == old(unitId) && lastCommand == old(lastCommand)
      ensures (v, State()) == KRead(old(State()), unitId, address)
    {
      if !connected {
        return None;
      }
      var resp := SendRequest(ReadHoldingRegisters, ReadRequest(address));
      v := if resp.Some? then ReadValue(resp.value) else None;
    }

    method WriteSingleRegister(address: int, value: int) returns (o: Outcome)
      requires Valid() && IsU16(address)
      modifies this
      ensures Valid() && unitId == old(unitId) && lastCommand == old(lastCommand)
      ensures (o, State()) == KWrite(old(State()), unitId, address, value)
    {
      if !connected {
        return Failed;
      }
      if !IsU16(value) {
        return Raised;
      }
      var resp := SendRequest(Modbus.WriteSingleRegister, WriteRequest(address, value));
      o := if resp.Some? && WriteAcked(resp.value) then Done else Failed;
    }

    /** `get_current_width`, in tenths of a millimetre. */
    method GetCurrentWidth() returns (v: Option<int>)
      requires Valid()
      modifies this
      ensures Valid() && unitId == old(unitId) && lastCommand == old(lastCommand)
      ensures (v, State()) == KRead(old(State()), unitId, ExternalWidth)
    {
      v := ReadHoldingRegister(ExternalWidth);
    }

    method GetLimits() returns (lo: Option<int>, hi: Option<int>)
      requires Valid()
      modifies this
      ensures Valid() && unitId == old(unitId) && lastCommand == old(lastCommand)
      ensures ((lo, hi), State()) == KLimits(old(State()), unitId)
    {
      var minVal := ReadHoldingRegister(MinExternalWidth);
      var maxVal := ReadHoldingRegister(MaxExternalWidth);
      if minVal.Some? && maxVal.Some? {
        return minVal, maxVal;
      }
      return None, None;
    }

    method GetStatus() returns (s: Option<StatusBits>)
      requires Valid()
      modifies this
      ensures Valid() && unitId == old(unitId) && lastCommand == old(lastCommand)
      ensures var e := KRead(old(State()), unitId, StatusRegister);
        State() == e.1 && s == if e.0.Some? then Some(DecodeStatus(e.0.value)) else None
    {
      ReplyBytesAt(replies, taken);
      var value := ReadHoldingRegister(StatusRegister);
      s := if value.Some? then Some(DecodeStatus(value.value)) else None;
    }

    method SetGripperParameters(width: int, force: int, speed: int) returns (o: Outcome)
      requires Valid()
      modifies this
      ensures Valid() && unitId == old(unitId) && lastCommand == old(lastCommand)
      ensures (o, State()) == KParams(old(State()), unitId, width, force, speed)
    {
      if !connected {
        return Failed;
      }
      var success := true;
      var w := WriteSingleRegister(TargetWidth, width);
      if w == Raised {
        return Raised;
      }
      if w != Done {
        success := false;
      }
      w := WriteSingleRegister(TargetForce, force);
      if w == Raised {
        return Raised;
      }
      if w != Done {
        success := false;
      }
      w := WriteSingleRegister(TargetSpeed, speed);
      if w == Raised {
        return Raised;
      }
      if w != Done {
        success := false;
      }
      o := if success then Done else Failed;
    }

    method ExecuteCommand(command: int) returns (o: Outcome)
      requires Valid()
      modifies this
      ensures Valid() && unitId == old(unitId) && lastCommand == old(lastCommand)
      ensures (o, State()) == KCommand(old(State()), unitId, command)
    {
      if !connected {
        return Failed;
      }
      o := WriteSingleRegister(CommandRegister, command);
    }

    /** `full_open` (`toMax`, noted as "open") or `full_close` (noted as "close"). */
    method Full(toMax: bool, force: int, speed: int) returns (o: Outcome)
      requires Valid()
      modifies this
      ensures Valid() && unitId == old(unitId)
      ensures (o, State()) == KFull(old(State()), unitId, toMax, force, speed)
      ensures lastCommand == NoteCommand(old(lastCommand), if toMax then "open" else "close", o)
    {
      var minWidth, maxWidth := GetLimits();
      var target := if toMax then maxWidth else minWidth;
      if target.None? {
        return Failed;
      }
      o := SetGripperParameters(target.value, force, speed);
      if o != Done {
        return;
      }
      o := ExecuteCommand(GripExternal);
      if o == Done {
        lastCommand := Some(if toMax then "open" else "close");
      }
    }

    method Stop() returns (o: Outcome)
      requires Valid()
      modifies this
      ensures Valid() && unitId == old(unitId) && lastCommand == old(lastCommand)
      ensures (o, State()) == KCommand(old(State()), unitId, StopCommand)
    {
      if !connected {
        return Failed;
      }
      o := ExecuteCommand(StopCommand);
    }
  }
}
