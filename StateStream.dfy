/** The reader of the Universal Robots real-time state stream (robotcontroltestTCP.py): the
    bytes received are appended to a buffer, and the buffer is cut into packets, each
    announcing its own length in a 4-byte big-endian header. A packet long enough to hold
    the tool pose gives six doubles at offset 448 (444 into the data after the header); a
    pose passing the bounds check replaces the current one. */
module StateStream {
  import opened Wrappers

  /** One octet of the stream. */
  newtype Byte = x: int | 0 <= x < 0x100

  /** `struct.unpack('>I', buffer[0:4])`: the size the header of the front packet declares. */
  function DeclaredSize(b: seq<Byte>): (r: nat)
    requires |b| >= 4
    ensures r < 0x1_0000_0000
  {
    ((b[0] as int * 0x100 + b[1] as int) * 0x100 + b[2] as int) * 0x100 + b[3] as int
  }

  /** The header is 4 bytes, the pose is 444 bytes into the data after it, 6 doubles long. */
  const HeaderSize: nat := 4
  const PoseDataOffset: nat := 444
  const PoseOffset: nat := HeaderSize + PoseDataOffset
  const PoseBytes: nat := 48

  /** A tool pose: position in metres, rotation vector in radians. */
  datatype Pose = Pose(x: real, y: real, z: real, rx: real, ry: real, rz: real)

  function Abs(v: real): real {
    if v < 0.0 then -v else v
  }

  /** The bounds a decoded pose must meet to be believed. */
  predicate Sane(p: Pose) {
    Abs(p.x) < 2.0 && Abs(p.y) < 2.0 && 0.0 < p.z < 2.0
    && Abs(p.rx) < 10.0 && Abs(p.ry) < 10.0 && Abs(p.rz) < 10.0
  }

  /** The pose a packet yields, if any. `decode` is the IEEE-754 reading of the 48 pose bytes
      as six big-endian doubles, which is not modelled. */
  function PacketPose(packet: seq<Byte>, decode: seq<Byte> -> Pose): (r: Option<Pose>)
    ensures r.Some? <==> |packet| >= PoseOffset + PoseBytes && Sane(decode(packet[PoseOffset..PoseOffset + PoseBytes]))
    ensures r.Some? ==> r.value == decode(packet[448..496])
  {
    if |packet| >= PoseOffset + PoseBytes then
      var p := decode(packet[PoseOffset..PoseOffset + PoseBytes]);
      if Sane(p) then Some(p) else None
    else None
  }

  /** The current pose after a run of packets: the last pose some packet yields, or the
      pose before them when none does. */
  function Latest(current: Option<Pose>, packets: seq<seq<Byte>>, decode: seq<Byte> -> Pose): (r: Option<Pose>)
    ensures r == current || exists i :: 0 <= i < |packets| && PacketPose(packets[i], decode) == r
    decreases |packets|
  {
    if packets == [] then current
    else
      var last := packets[|packets| - 1];
      var p := PacketPose(last, decode);
      if p.Some? then p else Latest(current, packets[..|packets| - 1], decode)
  }

  /** The packets of a run concatenated. */
  function Concat(packets: seq<seq<Byte>>): seq<Byte> {
    if packets == [] then [] else packets[0] + Concat(packets[1..])
  }

  lemma ConcatCons(p: seq<Byte>, ps: seq<seq<Byte>>)
    ensures Concat([p] + ps) == p + Concat(ps)
  {
    assert ([p] + ps)[1..] == ps;
  }

  /** What splitting a buffer comes to: the packets cut off it in order, what is left, and
      whether the split stalled on a header declaring size 0 (where the source spins
      without consuming anything). */
  datatype Split = Split(packets: seq<seq<Byte>>, rest: seq<Byte>, stalled: bool)

  /** The inner loop of `reading_thread_func` as a function of the buffer. */
  function SplitBuffer(b: seq<Byte>): (r: Split)
    ensures r.stalled <==> |r.rest| >= HeaderSize && DeclaredSize(r.rest) == 0
    ensures !r.stalled ==> |r.rest| < HeaderSize || DeclaredSize(r.rest) > |r.rest|
    decreases |b|
  {
    if |b| < HeaderSize then Split([], b, false)
    else
      var n := DeclaredSize(b);
      if n == 0 || n > |b| then Split([], b, n == 0)
      else
        var tail := SplitBuffer(b[n..]);
        Split([b[..n]] + tail.packets, tail.rest, tail.stalled)
  }

  /** Nothing is lost or reordered: the packets cut, followed by what is left, are the
      buffer. */
  lemma {:induction false} SplitConcat(b: seq<Byte>)
    ensures Concat(SplitBuffer(b).packets) + SplitBuffer(b).rest == b
    decreases |b|
  {
    var s := SplitBuffer(b);
    if |b| < HeaderSize || DeclaredSize(b) == 0 || DeclaredSize(b) > |b| {
      assert s.packets == [] && s.rest == b;
    } else {
      var n := DeclaredSize(b);
      var tail := SplitBuffer(b[n..]);
      FirstPacket(b);
      SplitConcat(b[n..]);
      ConcatCons(b[..n], tail.packets);
      JoinAt(b, n, Concat(tail.packets), tail.rest);
    }
  }

  /** Putting back the front `n` bytes before any division of the rest gives the whole. */
  lemma JoinAt(b: seq<Byte>, n: nat, x: seq<Byte>, y: seq<Byte>)
    requires n <= |b| && x + y == b[n..]
    ensures (b[..n] + x) + y == b
  {
    assert (b[..n] + x) + y == b[..n] + (x + y);
  }

  /** A complete packet at the front is cut off exactly: the first packet is the first
      `size` bytes, and the rest of the split is the split of what follows. */
  lemma FirstPacket(b: seq<Byte>)
    requires |b| >= HeaderSize && 1 <= DeclaredSize(b) <= |b|
    ensures var n := DeclaredSize(b); var tail := SplitBuffer(b[n..]);
      SplitBuffer(b) == Split([b[..n]] + tail.packets, tail.rest, tail.stalled)
  {
  }

  /** An incomplete packet at the front stops the split with the buffer unchanged. */
  lemma IncompleteKept(b: seq<Byte>)
    requires |b| >= HeaderSize && DeclaredSize(b) > |b|
    ensures SplitBuffer(b) == Split([], b, false)
  {
  }

  /** Data arriving after a split that did not stall only adds packets after the ones
      already cut: splitting the whole is splitting the front, then splitting what it left
      with the new data after it. */
  lemma {:induction false} SplitExtends(b: seq<Byte>, c: seq<Byte>)
    requires !SplitBuffer(b).stalled
    ensures var s := SplitBuffer(b); var t := SplitBuffer(s.rest + c);
      SplitBuffer(b + c) == Split(s.packets + t.packets, t.rest, t.stalled)
    decreases |b|
  {
    var s := SplitBuffer(b);
    if |b| < HeaderSize || DeclaredSize(b) > |b| {
      assert s.packets == [] && s.rest == b;
      assert s.packets + SplitBuffer(b + c).packets == SplitBuffer(b + c).packets;
    } else {
      var n := DeclaredSize(b);
      var tail := SplitBuffer(b[n..]);
      var t := SplitBuffer(tail.rest + c);
      var v := SplitBuffer(b[n..] + c);
      FirstPacket(b);
      assert s == Split([b[..n]] + tail.packets, tail.rest, tail.stalled);
      SplitExtends(b[n..], c);
      assert v == Split(tail.packets + t.packets, t.rest, t.stalled);
      FrontOfAppend(b, c);
      FirstPacket(b + c);
      assert SplitBuffer(b + c) == Split([b[..n]] + v.packets, v.rest, v.stalled);
      PacketsAssoc([b[..n]], tail.packets, t.packets);
    }
  }

  lemma PacketsAssoc(p: seq<seq<Byte>>, q: seq<seq<Byte>>, r: seq<seq<Byte>>)
    ensures p + (q + r) == (p + q) + r
  {
  }

  /** The packet loop's invariant: the packets cut so far, followed by the split of the
      buffer left, are the split of the buffer at the start. */
  predicate SplitSoFar(whole: seq<Byte>, packets: seq<seq<Byte>>, b: seq<Byte>) {
    var s := SplitBuffer(b);
    SplitBuffer(whole) == Split(packets + s.packets, s.rest, s.stalled)
  }

  lemma SplitSoFarStep(whole: seq<Byte>, packets: seq<seq<Byte>>, b: seq<Byte>)
    requires SplitSoFar(whole, packets, b)
    requires |b| >= HeaderSize && 1 <= DeclaredSize(b) <= |b|
    ensures SplitSoFar(whole, packets + [b[..DeclaredSize(b)]], b[DeclaredSize(b)..])
  {
    var n := DeclaredSize(b);
    FirstPacket(b);
    var tail := SplitBuffer(b[n..]);
    assert (packets + [b[..n]]) + tail.packets == packets + ([b[..n]] + tail.packets);
  }

  /** Where the packet loop stops, the split cuts nothing more. */
  lemma SplitSoFarDone(whole: seq<Byte>, packets: seq<seq<Byte>>, b: seq<Byte>)
    requires SplitSoFar(whole, packets, b)
    requires !(|b| >= HeaderSize && 1 <= DeclaredSize(b) <= |b|)
    ensures SplitBuffer(whole) == Split(packets, b, |b| >= HeaderSize && DeclaredSize(b) == 0)
  {
    assert SplitBuffer(b) == Split([], b, |b| >= HeaderSize && DeclaredSize(b) == 0);
    assert packets + [] == packets;
  }

  /** One more packet: the current pose becomes its pose if it yields one. */
  lemma LatestSnoc(current: Option<Pose>, initial: Option<Pose>, packets: seq<seq<Byte>>, packet: seq<Byte>, decode: seq<Byte> -> Pose)
    requires current == Latest(initial, packets, decode)
    ensures Latest(initial, packets + [packet], decode)
         == if PacketPose(packet, decode).Some? then PacketPose(packet, decode) else current
  {
    assert (packets + [packet])[..|packets|] == packets;
  }

  /** Appending data keeps the header and the first packet of a buffer that holds them. */
  lemma FrontOfAppend(b: seq<Byte>, c: seq<Byte>)
    requires |b| >= HeaderSize && DeclaredSize(b) <= |b|
    ensures DeclaredSize(b + c) == DeclaredSize(b)
    ensures (b + c)[..DeclaredSize(b)] == b[..DeclaredSize(b)]
    ensures (b + c)[DeclaredSize(b)..] == b[DeclaredSize(b)..] + c
  {
    assert (b + c)[0] == b[0] && (b + c)[1] == b[1] && (b + c)[2] == b[2] && (b + c)[3] == b[3];
  }

  /** The state-stream reader: the receive buffer and the last believed pose. */
  class ContinuousTCPReader {
    var buffer: seq<Byte>
    var currentPose: Option<Pose>
    var running: bool

    constructor ()
      ensures buffer == [] && currentPose.None? && !running
    {
      buffer := [];
      currentPose := None;
      running := false;
    }

    /** A received chunk is appended after the bytes already buffered. */
    method Receive(chunk: seq<Byte>)
      modifies this
      ensures buffer == old(buffer) + chunk
      ensures currentPose == old(currentPose) && running == old(running)
    {
      buffer := buffer + chunk;
    }

    /** The packet loop: complete packets are cut off the front while the buffer holds a
        header, each long enough one offering a pose. */
    method ProcessBuffer(decode: seq<Byte> -> Pose) returns (packets: seq<seq<Byte>>, stalled: bool)
      modifies this
      ensures SplitBuffer(old(buffer)) == Split(packets, buffer, stalled)
      ensures currentPose == Latest(old(currentPose), packets, decode)
      ensures running == old(running)
    {
      packets := [];
      ghost var whole := buffer;
      while |buffer| >= HeaderSize && 1 <= DeclaredSize(buffer) <= |buffer|
        invariant SplitSoFar(whole, packets, buffer)
        invariant currentPose == Latest(old(currentPose), packets, decode)
        invariant running == old(running)
        decreases |buffer|
      {
        var size := DeclaredSize(buffer);
        var packet := buffer[..size];
        SplitSoFarStep(whole, packets, buffer);
        LatestSnoc(currentPose, old(currentPose), packets, packet, decode);
        buffer := buffer[size..];
        var pose := PacketPose(packet, decode);
        if pose.Some? {
          currentPose := pose;
        }
        packets := packets + [packet];
      }
      // where the source keeps looping on a header declaring size 0, the model stops
      stalled := |buffer| >= HeaderSize && DeclaredSize(buffer) == 0;
      SplitSoFarDone(whole, packets, buffer);
    }

    /** `start`: a connection that fails returns at once and touches nothing; one that comes
        up starts a reading thread, which begins with an empty buffer of its own. */
    method Start(connected: bool) returns (ok: bool)
      modifies this
      ensures ok == connected
      ensures connected ==> running && buffer == []
      ensures !connected ==> running == old(running) && buffer == old(buffer)
      ensures currentPose == old(currentPose)
    {
      if !connected {
        return false;
      }
      running := true;
      buffer := [];
      ok := true;
    }

    method Stop()
      modifies this
      ensures !running && buffer == old(buffer) && currentPose == old(currentPose)
    {
      running := false;
    }

    /** One pass of the reading thread: no data yet (`BlockingIOError`) skips the packet
        loop; otherwise the chunk is appended and the packets are cut. */
    method Poll(chunk: Option<seq<Byte>>, decode: seq<Byte> -> Pose) returns (packets: seq<seq<Byte>>, stalled: bool)
      modifies this
      ensures chunk.None? ==> packets == [] && !stalled && buffer == old(buffer) && currentPose == old(currentPose)
      ensures chunk.Some? ==> SplitBuffer(old(buffer) + chunk.value) == Split(packets, buffer, stalled)
      ensures chunk.Some? ==> currentPose == Latest(old(currentPose), packets, decode)
      ensures running == old(running)
    {
      if chunk.None? {
        return [], false;
      }
      Receive(chunk.value);
      packets, stalled := ProcessBuffer(decode);
    }
  }
}
