/** The Modbus TCP client codec the three gripper controllers share: the MBAP header
    (section 3.1.3 of the MODBUS Messaging on TCP/IP Implementation Guide V1.0b), Read Holding
    Registers (function 0x03, section 6.3 of the MODBUS Application Protocol Specification
    V1.1b3), Write Single Register (function 0x06, section 6.6) and exception responses
    (function code + 0x80, section 7), together with the wrapping transaction counter.

    The socket is not modelled: the replies a device gives are a sequence of `Reply` values
    taken one per request (a missing reply is a timeout), and the requests written are a
    sequence of `Adu` values, each standing for the frame of bytes it encodes. */
module Modbus {
  import opened Bytes
  import opened Wrappers

  const ReadHoldingRegisters: int := 0x03
  const WriteSingleRegister: int := 0x06
  const ExceptionFlag: int := 0x80
  const ProtocolId: int := 0
  const HeaderSize: int := 7
  /** Every request PDU these clients build is five bytes: function code and two 16-bit fields. */
  const PduSize: int := 5

  // ---------------------------------------------------------------- MBAP header and frames

  datatype Header = Header(transactionId: int, protocolId: int, length: int, unitId: int)

  /** `struct.unpack('>HHHB', header)`. */
  function ParseHeader(h: seq<int>): Header
    requires |h| == HeaderSize
  {
    Header(h[0] * 0x100 + h[1], h[2] * 0x100 + h[3], h[4] * 0x100 + h[5], h[6])
  }

  /** `struct.pack('>HHHB', transaction_id, 0, length, unit_id)`. */
  function MbapHeader(tid: int, length: int, unit: int): (h: seq<int>)
    requires IsU16(tid) && IsU16(length) && IsByte(unit)
    ensures |h| == HeaderSize && IsBytes(h)
  {
    U16BE(tid) + U16BE(ProtocolId) + U16BE(length) + [unit]
  }

  /** Parsing a header built from its four fields gives back those fields. */
  lemma MbapHeaderParses(tid: int, length: int, unit: int)
    requires IsU16(tid) && IsU16(length) && IsByte(unit)
    ensures ParseHeader(MbapHeader(tid, length, unit)) == Header(tid, ProtocolId, length, unit)
  {
    var h := MbapHeader(tid, length, unit);
    assert h[0..2] == U16BE(tid) && h[4..6] == U16BE(length);
  }

  /** A whole request: the MBAP header, whose length field counts the unit id and the PDU,
      followed by the PDU itself. */
  function Frame(tid: int, unit: int, pdu: seq<int>): (f: seq<int>)
    requires IsU16(tid) && IsByte(unit) && IsU16(|pdu| + 1)
    ensures |f| == HeaderSize + |pdu| && f[HeaderSize..] == pdu
  {
    MbapHeader(tid, |pdu| + 1, unit) + pdu
  }

  /** The header of a frame parses to the transaction id, protocol 0, a length counting the
      unit id and the PDU, and the unit id. */
  lemma FrameParses(tid: int, unit: int, pdu: seq<int>)
    requires IsU16(tid) && IsByte(unit) && IsU16(|pdu| + 1)
    ensures ParseHeader(Frame(tid, unit, pdu)[..HeaderSize]) == Header(tid, ProtocolId, |pdu| + 1, unit)
  {
    var h := MbapHeader(tid, |pdu| + 1, unit);
    assert (h + pdu)[..HeaderSize] == h;
    MbapHeaderParses(tid, |pdu| + 1, unit);
  }

  /** A request as written to the socket, kept as its MBAP fields and its PDU; `Wire()` is
      the frame of bytes sent. */
  datatype Adu = Adu(tid: int, unit: int, pdu: seq<int>) {
    function Wire(): seq<int>
      requires IsU16(tid) && IsByte(unit) && IsU16(|pdu| + 1)
    {
      Frame(tid, unit, pdu)
    }
  }

  /** The transaction id that follows `tid`: 65535 wraps round to 0. */
  function Next(tid: int): (r: int)
    requires IsU16(tid)
    ensures IsU16(r)
  {
    if tid == 0xFFFF then 0 else tid + 1
  }

  /** The source's update `(transaction_id + 1) % 65536` is `Next` on every 16-bit id. */
  lemma NextIsModular(tid: int)
    requires IsU16(tid)
    ensures Next(tid) == (tid + 1) % 0x1_0000
  {
  }

  /** The transaction id after `n` requests. */
  function Advance(tid: int, n: nat): (r: int)
    requires IsU16(tid)
    ensures IsU16(r)
    decreases n
  {
    if n == 0 then tid else Next(Advance(tid, n - 1))
  }

  /** After n requests the stored id is the starting id plus n, modulo 65536, so the counter
      stays within 0..65535 and wraps round. */
  lemma {:induction false} AdvanceModular(tid: int, n: nat)
    requires IsU16(tid)
    ensures Advance(tid, n) == (tid + n) % 0x1_0000
    decreases n
  {
    if n > 0 {
      AdvanceModular(tid, n - 1);
      var m := 0x1_0000;
      var x := tid + n - 1;
      assert x == m * (x / m) + x % m;
      assert (x % m + 1) % m == (x + 1) % m by {
        assert x % m + 1 == (x + 1) - m * (x / m);
      }
    }
  }

  // ---------------------------------------------------------------- request PDUs

  /** Read Holding Registers for one register: `struct.pack('>BHH', 0x03, address, 1)`. */
  function ReadRequest(address: int): (pdu: seq<int>)
    requires IsU16(address)
    ensures |pdu| == PduSize && IsBytes(pdu) && pdu[0] == ReadHoldingRegisters
    ensures pdu[1] * 0x100 + pdu[2] == address && pdu[3] * 0x100 + pdu[4] == 1
  {
    [ReadHoldingRegisters] + U16BE(address) + U16BE(1)
  }

  /** Write Single Register: `struct.pack('>BHH', 0x06, address, value)`, which raises
      unless the value fits in 16 bits (the model's precondition is the packability). */
  function WriteRequest(address: int, value: int): (pdu: seq<int>)
    requires IsU16(address) && IsU16(value)
    ensures |pdu| == PduSize && IsBytes(pdu) && pdu[0] == WriteSingleRegister
    ensures pdu[1] * 0x100 + pdu[2] == address && pdu[3] * 0x100 + pdu[4] == value
  {
    [WriteSingleRegister] + U16BE(address) + U16BE(value)
  }

  // ---------------------------------------------------------------- replies

  /** What the transport delivers for one request. `Lost` stands for `sendall` or `recv`
      raising (timeout, reset); otherwise the bytes returned by the 7-byte header read and by
      the body read (the latter only consulted when the header announces a body). */
  datatype Reply = Lost | Reply(header: seq<int>, body: seq<int>)

  /** The next reply in a stream of replies, a timeout when there is none. */
  function Nth(replies: seq<Reply>, k: nat): Reply {
    if k < |replies| then replies[k] else Lost
  }

  /** Body bytes announced by a response header: its length field minus the unit id. */
  function DataLen(h: seq<int>): int
    requires |h| == HeaderSize
  {
    ParseHeader(h).length - 1
  }

  /** What the request code holds after reading a reply. */
  datatype Received = Pdu(bytes: seq<int>) | TransportError | BadHeader | ShortBody | ExceptionReply

  /** The reply handling common to the three clients: a header that is not exactly 7 bytes,
      a body that is not the announced size, and a body whose first byte is the function
      code + 0x80 are rejected; a length field of 1 or less means an empty body. */
  function Receive(fc: int, reply: Reply): (r: Received)
    ensures r.Pdu? <==>
      && reply.Reply?
      && |reply.header| == HeaderSize
      && (DataLen(reply.header) > 0 ==> |reply.body| == DataLen(reply.header))
      && !(DataLen(reply.header) > 0 && reply.body[0] == fc + ExceptionFlag)
    ensures r.Pdu? && DataLen(reply.header) > 0 ==> r.bytes == reply.body
    ensures r.Pdu? && DataLen(reply.header) <= 0 ==> r.bytes == []
    ensures r.TransportError? <==> reply.Lost?
  {
    match reply
    case Lost => TransportError
    case Reply(h, b) =>
      if |h| != HeaderSize then BadHeader
      else if DataLen(h) > 0 && |b| != DataLen(h) then ShortBody
      else
        var data := if DataLen(h) > 0 then b else [];
        if |data| > 0 && data[0] == fc + ExceptionFlag then ExceptionReply else Pdu(data)
  }

  /** A device reply framed as the standard requires (MBAP header and a non-empty PDU) is
      received as that PDU, or as an exception when the PDU carries the exception flag. */
  lemma ReceiveFramed(fc: int, tid: int, unit: int, pdu: seq<int>)
    requires IsU16(tid) && IsByte(unit) && IsU16(|pdu| + 1) && |pdu| >= 1
    ensures var f := Frame(tid, unit, pdu);
      Receive(fc, Reply(f[..HeaderSize], f[HeaderSize..]))
        == if pdu[0] == fc + ExceptionFlag then ExceptionReply else Pdu(pdu)
  {
    var f := Frame(tid, unit, pdu);
    FrameParses(tid, unit, pdu);
    assert DataLen(f[..HeaderSize]) == |pdu|;
  }

  // ---------------------------------------------------------------- reading a register

  datatype ReadOutcome = Value(v: int) | NoValue | Raises

  /** `_read_holding_register` / `read_holding_register` as written: a value is taken when
      the reply starts 0x03, 0x02 and has at least 3 bytes, and then
      `struct.unpack('>H', response[2:4])` raises when byte 3 is missing. */
  function ReadValueAsWritten(resp: seq<int>): ReadOutcome {
    if |resp| >= 3 && resp[0] == ReadHoldingRegisters && resp[1] == 2 then
      if |resp| >= 4 then Value(resp[2] * 0x100 + resp[3]) else Raises
    else NoValue
  }

  /** The reply a device may send to a read whose only data byte is missing: the three-byte
      PDU 0x03, 0x02, 0x00 with a length field of 4 passes the reply checks and then makes
      the source's read raise instead of reporting no value. */
  lemma ReadGuardTooShort()
    ensures Receive(ReadHoldingRegisters, Reply(MbapHeader(1, 4, 65), [3, 2, 0])) == Pdu([3, 2, 0])
    ensures ReadValueAsWritten([3, 2, 0]) == Raises
  {
    MbapHeaderParses(1, 4, 65);
    assert DataLen(MbapHeader(1, 4, 65)) == 3;
  }

  /** The register value of a read reply, with the guard the unpacking needs (4 bytes). */
  function ReadValue(resp: seq<int>): (r: Option<int>)
    ensures r.Some? <==> |resp| >= 4 && resp[0] == ReadHoldingRegisters && resp[1] == 2
    ensures r.Some? && IsBytes(resp) ==> IsU16(r.value)
  {
    if |resp| >= 4 && resp[0] == ReadHoldingRegisters && resp[1] == 2 then
      Some(resp[2] * 0x100 + resp[3])
    else None
  }

  /** The corrected read agrees with the source wherever the source does not raise. */
  lemma ReadValueAgrees(resp: seq<int>)
    requires ReadValueAsWritten(resp) != Raises
    ensures ReadValue(resp).Some? <==> ReadValueAsWritten(resp).Value?
    ensures ReadValue(resp).Some? ==> ReadValue(resp).value == ReadValueAsWritten(resp).v
  {
  }

  /** A device's normal answer to a read (function code, byte count 2, the value big-endian)
      yields exactly that value. */
  lemma ReadReplyRoundTrip(v: int)
    requires IsU16(v)
    ensures ReadValue([ReadHoldingRegisters, 2] + U16BE(v)) == Some(v)
  {
  }

  /** A reply made of bytes, as `recv` returns. */
  predicate ReplyBytes(reply: Reply) {
    reply.Reply? ==> IsBytes(reply.header) && IsBytes(reply.body)
  }

  predicate AllReplyBytes(replies: seq<Reply>) {
    forall i :: 0 <= i < |replies| ==> ReplyBytes(replies[i])
  }

  lemma ReplyBytesAt(replies: seq<Reply>, k: nat)
    requires AllReplyBytes(replies)
    ensures ReplyBytes(Nth(replies, k))
  {
  }

  /** What one read request yields from the device's reply: a value produced from received
      bytes is a 16-bit register value. */
  function RegisterRead(reply: Reply): (r: Option<int>)
    ensures ReplyBytes(reply) && r.Some? ==> IsU16(r.value)
  {
    var r := Receive(ReadHoldingRegisters, reply);
    if r.Pdu? then ReadValue(r.bytes) else None
  }

  /** A device's normal answer to a one-register read: function code, byte count 2 and the
      value big-endian, under an MBAP header whose length counts the unit id. */
  function ReadReply(tid: int, unit: int, value: int): Reply
    requires IsU16(tid) && IsByte(unit) && IsU16(value)
  {
    var pdu := [ReadHoldingRegisters, 2] + U16BE(value);
    Reply(MbapHeader(tid, |pdu| + 1, unit), pdu)
  }

  /** Whatever the transaction id and unit, a device's normal read answer yields its value. */
  lemma ReadReplyRead(tid: int, unit: int, value: int)
    requires IsU16(tid) && IsByte(unit) && IsU16(value)
    ensures ReplyBytes(ReadReply(tid, unit, value))
    ensures RegisterRead(ReadReply(tid, unit, value)) == Some(value)
  {
    var pdu := [ReadHoldingRegisters, 2] + U16BE(value);
    MbapHeaderParses(tid, |pdu| + 1, unit);
    assert DataLen(MbapHeader(tid, |pdu| + 1, unit)) == 4;
    ReadReplyRoundTrip(value);
  }

  // ---------------------------------------------------------------- writing a register

  /** A write is acknowledged by a reply of at least 5 bytes starting with 0x06. */
  predicate WriteAcked(resp: seq<int>) {
    |resp| >= PduSize && resp[0] == WriteSingleRegister
  }

  /** A device that echoes the request, as Write Single Register prescribes, acknowledges it. */
  lemma EchoAcknowledges(address: int, value: int)
    requires IsU16(address) && IsU16(value)
    ensures WriteAcked(WriteRequest(address, value))
  {
  }

  /** Whether one write request is acknowledged by the device's reply. */
  predicate RegisterWritten(reply: Reply) {
    var r := Receive(WriteSingleRegister, reply);
    r.Pdu? && WriteAcked(r.bytes)
  }

  /** The reply of a device that echoes a request PDU, as Write Single Register prescribes. */
  function EchoReply(tid: int, unit: int, pdu: seq<int>): Reply
    requires IsU16(tid) && IsByte(unit) && |pdu| == PduSize
  {
    Reply(MbapHeader(tid, |pdu| + 1, unit), pdu)
  }

  /** An echoed write request is an acknowledged write. */
  lemma EchoWritten(tid: int, unit: int, address: int, value: int)
    requires IsU16(tid) && IsByte(unit) && IsU16(address) && IsU16(value)
    ensures RegisterWritten(EchoReply(tid, unit, WriteRequest(address, value)))
  {
    var pdu := WriteRequest(address, value);
    MbapHeaderParses(tid, |pdu| + 1, unit);
    assert DataLen(MbapHeader(tid, |pdu| + 1, unit)) == PduSize;
    EchoAcknowledges(address, value);
  }

  /** An exception reply never counts as a written register nor as a read value. */
  lemma ExceptionRejected(tid: int, unit: int, code: int)
    requires IsU16(tid) && IsByte(unit)
    ensures var fw := Frame(tid, unit, [WriteSingleRegister + ExceptionFlag, code]);
      !RegisterWritten(Reply(fw[..HeaderSize], fw[HeaderSize..]))
    ensures var fr := Frame(tid, unit, [ReadHoldingRegisters + ExceptionFlag, code]);
      RegisterRead(Reply(fr[..HeaderSize], fr[HeaderSize..])).None?
  {
    ReceiveFramed(WriteSingleRegister, tid, unit, [WriteSingleRegister + ExceptionFlag, code]);
    ReceiveFramed(ReadHoldingRegisters, tid, unit, [ReadHoldingRegisters + ExceptionFlag, code]);
  }

  // ---------------------------------------------------------------- the link as a value

  /** The client side of a connection: the next transaction id, the replies the device gives
      on this connection, how many of them requests have taken, and the requests written. */
  datatype Link = Link(tid: int, replies: seq<Reply>, taken: nat, outbox: seq<Adu>)

  /** The reply that the request `k` places from now will take. */
  function Ahead(l: Link, k: nat): Reply {
    Nth(l.replies, l.taken + k)
  }

  /** One request sent under the current transaction id, which advances; it takes the next
      reply. */
  function Send(l: Link, unit: int, pdu: seq<int>): (r: Link)
    requires IsU16(l.tid)
    ensures IsU16(r.tid)
  {
    Link(Next(l.tid), l.replies, l.taken + 1, l.outbox + [Adu(l.tid, unit, pdu)])
  }
}
