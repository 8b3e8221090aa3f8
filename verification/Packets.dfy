/**
 The packets that carry file data between the kernel module and the user client: built by the kernel,
 answered by the client, and taken apart by the kernel.

 A packet is a buffer of bytes. On x86-64 its fixed part is 56 bytes: the header (size at 0, id at 8, type
 at 16, initiator at 17, pid at 20, uid at 24, gid at 28) and from 32 on a union. For reading and writing
 the union holds a code at 32, the file offset at 40, and the size and position of the data at 48 and 52;
 for opening and releasing, the file id at 32 and the size and position of the path at 40 and 44.
*/
module Packets {
  import opened Options
  import opened Bytes

  const PACKET_SIZE: nat := 56
  const HEADER_SIZE: nat := 32
  const DATA_EXTENSION_SIZE: nat := 32

  /** What the client's receive buffer holds of a packet, and what fits with the fixed part. */
  const MAX_MSG_SIZE: nat := 8192
  const MAX_DATA_SIZE: nat := MAX_MSG_SIZE - PACKET_SIZE
  const PATH_MAX: nat := 4096

  const ENOMEM: int := 12
  const OFR_INIT: int := 1
  const MAX_INT: int := 0x7fff_ffff

  const PR_MSG_OPEN: byte := 4
  const PR_MSG_RELEASE: byte := 5
  const PR_MSG_READ: byte := 6
  const PR_MSG_WRITE: byte := 7

  /** A transform of the client: from the file offset, the source bytes and the room at the destination to the
    bytes it writes there. It must not write beyond the room. */
  type Transform = (nat, seq<byte>, nat) -> seq<byte>

  /** A notification of the client: from the file id, the pid and the path to a result code. */
  type Notify = (nat, nat, seq<byte>) -> int

  /** The callbacks of the client, any of which may be missing. */
  datatype Client = Client(
    open: Option<Notify>, release: Option<Notify>, read: Option<Transform>, write: Option<Transform>)

  // ---------------------------------------------------------------- what the packets say

  predicate HasHeader(q: seq<byte>, msgType: byte, id: nat, pid: nat) {
    && |q| >= PACKET_SIZE
    && Field(q, 0, 4) == |q| && Field(q, 8, 8) == id
    && Field(q, 16, 1) == msgType && Field(q, 17, 1) == 0
    && Field(q, 20, 4) == pid && Field(q, 24, 4) == 0 && Field(q, 28, 4) == 0
  }

  /** A request to transform the bytes of `src`. */
  predicate AsksFor(q: seq<byte>, msgType: byte, id: nat, pid: nat, offset: nat, src: seq<byte>) {
    && HasHeader(q, msgType, id, pid)
    && |q| == PACKET_SIZE + |src| && q[PACKET_SIZE..] == src
    && Field(q, 32, 4) == 0 && Field(q, 40, 8) == offset
    && Field(q, 48, 4) == |src| && Field(q, 52, 4) == PACKET_SIZE
  }

  /** A request about a file, by path. */
  predicate Names(q: seq<byte>, msgType: byte, id: nat, pid: nat, fileId: nat, path: seq<byte>) {
    && HasHeader(q, msgType, id, pid)
    && |q| == PACKET_SIZE + |path| && q[PACKET_SIZE..] == path
    && Field(q, 32, 8) == fileId
    && Field(q, 40, 4) == |path| && Field(q, 44, 4) == PACKET_SIZE
  }

  /** The answer to packet q that brings back these bytes. */
  predicate Brings(p: seq<byte>, q: seq<byte>, bytes: seq<byte>) {
    && |q| >= PACKET_SIZE && |p| == PACKET_SIZE + |bytes|
    && p[..HEADER_SIZE] == q[..HEADER_SIZE] && p[PACKET_SIZE..] == bytes
    && Field(p, 32, 4) == 0 && Field(p, 48, 4) == |bytes| && Field(p, 52, 4) == PACKET_SIZE
  }

  /** The answer to packet q that brings back this code. */
  predicate Reports(p: seq<byte>, q: seq<byte>, code: int) {
    && |q| >= PACKET_SIZE == |p| && p[..HEADER_SIZE] == q[..HEADER_SIZE]
    && Signed(Field(p, 32, 4)) == code
  }

  function Signed(n: nat): int {
    if n <= MAX_INT then n else n - TWO_32
  }

  function Unsigned(code: int): (n: nat)
    requires IsInt(code)
    ensures n < TWO_32 && Signed(n) == code
  {
    if code >= 0 then code else code + TWO_32
  }

  predicate IsInt(n: int) {
    -MAX_INT - 1 <= n <= MAX_INT
  }

  // ---------------------------------------------------------------- the kernel builds a request

  method PutHeader(packet: array<byte>, msgType: byte, id: nat, pid: nat)
    requires PACKET_SIZE <= packet.Length <= MAX_INT && id < TWO_64 && pid < TWO_32
    requires forall i :: 0 <= i < PACKET_SIZE ==> packet[i] == 0
    modifies packet
    ensures HasHeader(packet[..], msgType, id, pid)
    ensures forall i :: HEADER_SIZE <= i < packet.Length ==> packet[i] == old(packet[i])
  {
    Limits();
    Put(packet, 0, 4, packet.Length);
    Put(packet, 8, 8, id);
    Put(packet, 16, 1, msgType);
    Put(packet, 17, 1, 0);
    Put(packet, 20, 4, pid);
    Put(packet, 24, 4, 0);
    Put(packet, 28, 4, 0);
  }

  /** The header is untouched by stores behind it. */
  lemma HeaderKept(q: seq<byte>, q': seq<byte>, msgType: byte, id: nat, pid: nat)
    requires HasHeader(q, msgType, id, pid) && |q'| == |q| && q'[..HEADER_SIZE] == q[..HEADER_SIZE]
    ensures HasHeader(q', msgType, id, pid)
  {
    forall at: nat, width: nat | at + width <= HEADER_SIZE ensures Field(q', at, width) == Field(q, at, width) {
      FieldOfPrefix(q', HEADER_SIZE, at, width);
      FieldOfPrefix(q, HEADER_SIZE, at, width);
    }
  }

  method PutData(packet: array<byte>, data: seq<byte>)
    requires packet.Length == PACKET_SIZE + |data|
    modifies packet
    ensures packet[..] == old(packet[..PACKET_SIZE]) + data
  {
    forall i | 0 <= i < |data| {
      packet[PACKET_SIZE + i] := data[i];
    }
  }

  method BuildTransform(msgType: byte, id: nat, pid: nat, offset: nat, src: seq<byte>)
    returns (packet: array<byte>)
    requires FitsPacket(|src|) && id < TWO_64 && pid < TWO_32 && offset < TWO_64
    ensures fresh(packet) && AsksFor(packet[..], msgType, id, pid, offset, src)
  {
    packet := new byte[PACKET_SIZE + |src|](_ => 0);
    PutHeader(packet, msgType, id, pid);
    ghost var built := packet[..];
    Limits();
    Put(packet, 40, 8, offset);
    Put(packet, 32, 4, 0);
    Put(packet, 48, 4, |src|);
    Put(packet, 52, 4, PACKET_SIZE);
    ghost var before := packet[..];
    PutData(packet, src);
    DataKept(before, packet[..]);
    HeaderKept(built, packet[..], msgType, id, pid);
  }

  /** The fields of the fixed part are untouched by the data behind it. */
  lemma DataKept(q: seq<byte>, q': seq<byte>)
    requires |q| >= PACKET_SIZE && |q'| >= PACKET_SIZE && q'[..PACKET_SIZE] == q[..PACKET_SIZE]
    ensures forall at: nat, width: nat :: at + width <= PACKET_SIZE ==> Field(q', at, width) == Field(q, at, width)
  {
    forall at: nat, width: nat | at + width <= PACKET_SIZE ensures Field(q', at, width) == Field(q, at, width) {
      FieldOfPrefix(q', PACKET_SIZE, at, width);
      FieldOfPrefix(q, PACKET_SIZE, at, width);
    }
  }

  method BuildNotice(msgType: byte, id: nat, pid: nat, fileId: nat, path: seq<byte>)
    returns (packet: array<byte>)
    requires FitsPacket(|path|) && id < TWO_64 && pid < TWO_32 && fileId < TWO_64
    ensures fresh(packet) && Names(packet[..], msgType, id, pid, fileId, path)
  {
    packet := new byte[PACKET_SIZE + |path|](_ => 0);
    PutHeader(packet, msgType, id, pid);
    ghost var built := packet[..];
    Limits();
    Put(packet, 32, 8, fileId);
    Put(packet, 40, 4, |path|);
    Put(packet, 44, 4, PACKET_SIZE);
    ghost var before := packet[..];
    PutData(packet, path);
    DataKept(before, packet[..]);
    HeaderKept(built, packet[..], msgType, id, pid);
  }

  // ---------------------------------------------------------------- the client answers

  /** What the client can read from the start of a packet on: its first bytes, as far as the buffer goes, and
    then whatever its memory holds. */
  predicate IsSeenOf(q: seq<byte>, packet: seq<byte>) {
    |q| >= |packet| && q[..Min(|packet|, MAX_MSG_SIZE)] == packet[..Min(|packet|, MAX_MSG_SIZE)]
  }

  method Fetch(packet: seq<byte>) returns (q: seq<byte>)
    ensures IsSeenOf(q, packet)
  {
    var n := Min(|packet|, MAX_MSG_SIZE);
    var rest := |packet| - n;
    assert |seq<byte>(rest, _ => 0)| == rest;
    var behind: seq<byte> :| |behind| == rest;
    q := packet[..n] + behind;
  }

  /** As much is in sight as the packet names. */
  predicate Readable(q: seq<byte>) {
    && PACKET_SIZE <= |q|
    && (Field(q, 16, 1) in {PR_MSG_READ, PR_MSG_WRITE} ==> Field(q, 52, 4) + Field(q, 48, 4) <= |q|)
    && (Field(q, 16, 1) in {PR_MSG_OPEN, PR_MSG_RELEASE} ==> Field(q, 44, 4) + Field(q, 40, 4) <= |q|)
  }

  function TransformOf(client: Client, msgType: byte): Option<Transform> {
    if msgType == PR_MSG_READ then client.read else client.write
  }

  function NotifyOf(client: Client, msgType: byte): Option<Notify> {
    if msgType == PR_MSG_OPEN then client.open else client.release
  }

  /** The room for the result, counted in 32 bits. */
  function Room(size: nat): nat {
    (size + DATA_EXTENSION_SIZE) % TWO_32
  }

  /** What the client sends back for these bytes; without a callback, its zeroed room. */
  function Transformed(f: Option<Transform>, offset: nat, src: seq<byte>): seq<byte> {
    if f.Some? then f.value(offset, src, Room(|src|)) else seq(Room(|src|), _ => 0)
  }

  /** The data fits a packet whose size is an int. */
  predicate FitsPacket(size: nat) {
    PACKET_SIZE + size <= MAX_INT
  }

  /** What this callback of the client makes of data that fits a packet: the callback gets 32 bytes more room than
    there is data; without a callback, that room comes back zeroed. */
  function Result(f: Option<Transform>, offset: nat, src: seq<byte>): seq<byte> {
    if f.Some? then f.value(offset, src, |src| + 32) else seq(|src| + 32, _ => 0)
  }

  lemma TransformedIs(client: Client, msgType: byte, offset: nat, src: seq<byte>)
    requires FitsPacket(|src|)
    ensures msgType == PR_MSG_READ ==>
      Transformed(TransformOf(client, msgType), offset, src) == Result(client.read, offset, src)
    ensures msgType == PR_MSG_WRITE ==>
      Transformed(TransformOf(client, msgType), offset, src) == Result(client.write, offset, src)
  {
  }

  /** A transform keeps within the room it is given. */
  ghost predicate Keeps(f: Option<Transform>) {
    forall offset: nat, src: seq<byte> :: FitsPacket(|src|) ==> |Transformed(f, offset, src)| <= Room(|src|)
  }

  /** A notification returns an int. */
  ghost predicate Answers(f: Option<Notify>) {
    f.Some? ==> forall fileId: nat, pid: nat, path: seq<byte> :: IsInt(f.value(fileId, pid, path))
  }

  /** The callback for this type of request does what it should. */
  ghost predicate Decent(client: Client, msgType: nat) {
    && (msgType in {PR_MSG_READ, PR_MSG_WRITE} ==> Keeps(TransformOf(client, msgType)))
    && (msgType in {PR_MSG_OPEN, PR_MSG_RELEASE} ==> Answers(NotifyOf(client, msgType)))
  }

  /** The source bytes that a data request names. */
  function Source(q: seq<byte>): seq<byte>
    requires Readable(q) && Field(q, 16, 1) in {PR_MSG_READ, PR_MSG_WRITE}
  {
    q[Field(q, 52, 4)..Field(q, 52, 4) + Field(q, 48, 4)]
  }

  function Path(q: seq<byte>): seq<byte>
    requires Readable(q) && Field(q, 16, 1) in {PR_MSG_OPEN, PR_MSG_RELEASE}
  {
    q[Field(q, 44, 4)..Field(q, 44, 4) + Field(q, 40, 4)]
  }

  /** The answer to a notice has the code of this callback, any code if there is none. */
  ghost predicate ReportsOf(f: Option<Notify>, p: seq<byte>, q: seq<byte>)
    requires Readable(q) && Field(q, 16, 1) in {PR_MSG_OPEN, PR_MSG_RELEASE}
  {
    if f.Some? then Reports(p, q, f.value(Field(q, 32, 8), Field(q, 20, 4), Path(q)))
    else exists code :: IsInt(code) && Reports(p, q, code)
  }

  /** The client's dispatch on the type of the request. Without a callback for it, the code of the answer to a
    notice is whatever the variable held. */
  method Deal(client: Client, q: seq<byte>) returns (response: array<byte>)
    requires Readable(q) && Decent(client, Field(q, 16, 1))
    requires Field(q, 16, 1) in {PR_MSG_READ, PR_MSG_WRITE} ==> FitsPacket(|Source(q)|)
    ensures fresh(response)
    ensures Field(q, 16, 1) == PR_MSG_READ ==>
      Brings(response[..], q, Result(client.read, Field(q, 40, 8), Source(q)))
    ensures Field(q, 16, 1) == PR_MSG_WRITE ==>
      Brings(response[..], q, Result(client.write, Field(q, 40, 8), Source(q)))
    ensures Field(q, 16, 1) == PR_MSG_OPEN ==> ReportsOf(client.open, response[..], q)
    ensures Field(q, 16, 1) == PR_MSG_RELEASE ==> ReportsOf(client.release, response[..], q)
    ensures Field(q, 16, 1) !in {PR_MSG_READ, PR_MSG_WRITE, PR_MSG_OPEN, PR_MSG_RELEASE} ==> response.Length == 0
  {
    var msgType := Field(q, 16, 1);
    if msgType == PR_MSG_READ || msgType == PR_MSG_WRITE {
      var bytes := Transformed(TransformOf(client, msgType), Field(q, 40, 8), Source(q));
      TransformedIs(client, msgType, Field(q, 40, 8), Source(q));
      response := Bring(q, bytes);
    } else if msgType == PR_MSG_OPEN || msgType == PR_MSG_RELEASE {
      assert IsInt(0);
      var code: int :| IsInt(code);
      if NotifyOf(client, msgType).Some? {
        code := NotifyOf(client, msgType).value(Field(q, 32, 8), Field(q, 20, 4), Path(q));
      }
      response := Report(q, code);
    } else {
      response := new byte[0];
    }
  }

  method Bring(q: seq<byte>, bytes: seq<byte>) returns (response: array<byte>)
    requires |q| >= PACKET_SIZE && |bytes| < TWO_32
    ensures fresh(response) && Brings(response[..], q, bytes)
  {
    response := new byte[PACKET_SIZE + |bytes|](i requires 0 <= i => if i < HEADER_SIZE then q[i] else 0);
    Limits();
    Put(response, 32, 4, 0);
    Put(response, 48, 4, |bytes|);
    Put(response, 52, 4, PACKET_SIZE);
    ghost var before := response[..];
    PutData(response, bytes);
    DataKept(before, response[..]);
  }

  method Report(q: seq<byte>, code: int) returns (response: array<byte>)
    requires |q| >= PACKET_SIZE && IsInt(code)
    ensures fresh(response) && Reports(response[..], q, code)
  {
    response := new byte[PACKET_SIZE](i requires 0 <= i => if i < HEADER_SIZE then q[i] else 0);
    Limits();
    Put(response, 32, 4, Unsigned(code));
  }

  // ---------------------------------------------------------------- the kernel takes the answer apart

  /** The answer passes every test of the kernel, for a destination of this size. No answer is no bytes. */
  predicate Accepted(p: seq<byte>, room: nat) {
    && |p| >= PACKET_SIZE && Field(p, 32, 4) == 0
    && |p| == PACKET_SIZE + Field(p, 48, 4) && Field(p, 48, 4) <= room
  }

  /** `behind` is what lies behind the answer in memory; the position of the data is not tested, so the copy may
    run into it. */
  method Receive(response: seq<byte>, behind: seq<byte>, dst: array<byte>) returns (rc: int)
    requires dst.Length <= MAX_INT
    requires Accepted(response, dst.Length) ==>
      Field(response, 52, 4) + Field(response, 48, 4) <= |response| + |behind|
    modifies dst
    ensures !Accepted(response, dst.Length) ==> rc == -ENOMEM && dst[..] == old(dst[..])
    ensures Accepted(response, dst.Length) ==>
      var at, n := Field(response, 52, 4), Field(response, 48, 4);
      rc == n && dst[..] == (response + behind)[at..at + n] + old(dst[n..])
  {
    if |response| < PACKET_SIZE {
      return -ENOMEM;
    }
    rc := Signed(Field(response, 32, 4));
    FromLeBound(response[32..36]);
    Limits();
    if rc != 0 {
      return -ENOMEM;
    }
    var n: nat := Field(response, 48, 4);
    if |response| != PACKET_SIZE + n || dst.Length < n {
      return -ENOMEM;
    }
    var at := Field(response, 52, 4);
    var memory := response + behind;
    forall i | 0 <= i < n {
      dst[i] := memory[at + i];
    }
    rc := n;
  }

  // ---------------------------------------------------------------- both sides together

  /** One exchange about data. It does not reach the client when no client is connected or the caller is the
    client itself, and the answer may be lost. `seen` is the source as the client sees it: all of it up to
    MAX_DATA_SIZE bytes, and behind that whatever is in its memory. */
  method Exchange(client: Client, connected: bool, own: bool, answered: bool, msgType: byte, id: nat, pid: nat,
                  offset: nat, src: seq<byte>, dst: array<byte>)
    returns (rc: int, seen: seq<byte>)
    requires msgType in {PR_MSG_READ, PR_MSG_WRITE} && Keeps(TransformOf(client, msgType))
    requires FitsPacket(|src|) && dst.Length <= MAX_INT
    requires id < TWO_64 && pid < TWO_32 && offset < TWO_64
    modifies dst
    ensures IsSourceSeen(seen, src) && (|src| <= MAX_DATA_SIZE ==> seen == src)
    ensures var bytes := Result(if msgType == PR_MSG_READ then client.read else client.write, offset, seen);
      if connected && !own && answered && |bytes| <= dst.Length then
        rc == |bytes| && dst[..] == bytes + old(dst[|bytes|..])
      else
        rc == -ENOMEM && dst[..] == old(dst[..])
  {
    seen := src;
    if !connected || own {
      rc := -ENOMEM;
      return;
    }
    var response;
    response, seen := Answer(client, answered, msgType, id, pid, offset, src, dst.Length);
    TransformedIs(client, msgType, offset, seen);
    rc := Receive(response, [], dst);
  }

  /** As many bytes as the source, the same ones as far as they fit the client's buffer. */
  predicate IsSourceSeen(seen: seq<byte>, src: seq<byte>) {
    |seen| == |src| && seen[..Min(|src|, MAX_DATA_SIZE)] == src[..Min(|src|, MAX_DATA_SIZE)]
  }

  /** The request goes out, and its answer comes back or is lost. */
  method Answer(client: Client, answered: bool, msgType: byte, id: nat, pid: nat,
                offset: nat, src: seq<byte>, room: nat)
    returns (response: seq<byte>, seen: seq<byte>)
    requires msgType in {PR_MSG_READ, PR_MSG_WRITE} && Keeps(TransformOf(client, msgType))
    requires FitsPacket(|src|) && id < TWO_64 && pid < TWO_32 && offset < TWO_64
    ensures IsSourceSeen(seen, src) && (|src| <= MAX_DATA_SIZE ==> seen == src)
    ensures answered ==> Carries(response, Transformed(TransformOf(client, msgType), offset, seen), room)
    ensures !answered ==> response == []
  {
    var packet := BuildTransform(msgType, id, pid, offset, src);
    response, seen := [], src;
    if answered {
      var q := Fetch(packet[..]);
      SourceSeen(packet[..], q, msgType, id, pid, offset, src);
      seen := Source(q);
      var reply := Deal(client, q);
      response := reply[..];
      TransformRoundTrip(client, packet[..], q, response, msgType, id, pid, offset, src, room);
    }
  }

  /** The client finds every field of a request, and its data as far as it fits. */
  lemma SourceSeen(packet: seq<byte>, q: seq<byte>, msgType: byte, id: nat, pid: nat, offset: nat, src: seq<byte>)
    requires AsksFor(packet, msgType, id, pid, offset, src) && msgType in {PR_MSG_READ, PR_MSG_WRITE}
    requires IsSeenOf(q, packet)
    ensures Readable(q) && Field(q, 16, 1) == msgType && Field(q, 8, 8) == id && Field(q, 17, 1) == 0
    ensures Field(q, 40, 8) == offset && Field(q, 20, 4) == pid
    ensures IsSourceSeen(Source(q), src) && (|src| <= MAX_DATA_SIZE ==> Source(q) == src)
  {
    FixedPartSeen(packet, q);
    var n := Min(|packet|, MAX_MSG_SIZE);
    assert q[PACKET_SIZE..n] == q[..n][PACKET_SIZE..] == packet[..n][PACKET_SIZE..] == packet[PACKET_SIZE..n];
    assert packet[PACKET_SIZE..n] == src[..Min(|src|, MAX_DATA_SIZE)];
    assert Source(q)[..Min(|src|, MAX_DATA_SIZE)] == q[PACKET_SIZE..n];
  }

  /** The client is sure to see exactly the data of a request if and only if it fits its buffer: behind the
    buffer, its memory may hold anything else. */
  lemma SourceSeenIff(packet: seq<byte>, msgType: byte, id: nat, pid: nat, offset: nat, src: seq<byte>)
    requires AsksFor(packet, msgType, id, pid, offset, src) && msgType in {PR_MSG_READ, PR_MSG_WRITE}
    ensures (forall q :: IsSeenOf(q, packet) ==> SeesExactly(q, src)) <==> |src| <= MAX_DATA_SIZE
  {
    if |src| <= MAX_DATA_SIZE {
      forall q | IsSeenOf(q, packet) ensures SeesExactly(q, src) {
        SourceSeen(packet, q, msgType, id, pid, offset, src);
      }
    } else {
      var last := packet[|packet| - 1];
      var q := packet[|packet| - 1 := if last == 0 then 1 else 0];
      assert q[..MAX_MSG_SIZE] == packet[..MAX_MSG_SIZE];
      SourceSeen(packet, q, msgType, id, pid, offset, src);
      FixedPartSeen(packet, q);
      assert Source(q)[|src| - 1] == q[|packet| - 1] != src[|src| - 1];
      assert IsSeenOf(q, packet) && !SeesExactly(q, src);
    }
  }

  predicate SeesExactly(q: seq<byte>, src: seq<byte>) {
    Readable(q) && Field(q, 16, 1) in {PR_MSG_READ, PR_MSG_WRITE} && Source(q) == src
  }

  lemma FixedPartSeen(packet: seq<byte>, q: seq<byte>)
    requires IsSeenOf(q, packet) && |packet| >= PACKET_SIZE
    ensures q[..PACKET_SIZE] == packet[..PACKET_SIZE]
    ensures forall at: nat, width: nat :: at + width <= PACKET_SIZE ==> Field(q, at, width) == Field(packet, at, width)
  {
    var n := Min(|packet|, MAX_MSG_SIZE);
    assert q[..PACKET_SIZE] == q[..n][..PACKET_SIZE] && packet[..PACKET_SIZE] == packet[..n][..PACKET_SIZE];
    DataKept(packet, q);
  }

  /** The kernel takes the answer exactly when these bytes fit the room, and they are what it copies out. */
  predicate Carries(p: seq<byte>, bytes: seq<byte>, room: nat) {
    && |p| == PACKET_SIZE + |bytes|
    && (Accepted(p, room) <==> |bytes| <= room)
    && Field(p, 52, 4) == PACKET_SIZE && Field(p, 48, 4) == |bytes|
    && p[PACKET_SIZE..PACKET_SIZE + |bytes|] == bytes
  }

  /** For every request and its answer: the client sees the source, exactly if it fits its buffer; the answer
    bears the request's id for the kernel to find the requester; and the kernel takes it, when it fits, and
    finds in it exactly what the client wrote. */
  lemma TransformRoundTrip(client: Client, packet: seq<byte>, q: seq<byte>, p: seq<byte>,
                           msgType: byte, id: nat, pid: nat, offset: nat, src: seq<byte>, room: nat)
    requires AsksFor(packet, msgType, id, pid, offset, src) && msgType in {PR_MSG_READ, PR_MSG_WRITE}
    requires IsSeenOf(q, packet) && Readable(q) && Field(q, 16, 1) == msgType
    requires Brings(p, q, Transformed(TransformOf(client, msgType), Field(q, 40, 8), Source(q)))
    ensures IsSourceSeen(Source(q), src) && (|src| <= MAX_DATA_SIZE ==> Source(q) == src)
    ensures Carries(p, Transformed(TransformOf(client, msgType), offset, Source(q)), room)
    ensures Field(p, 8, 8) == id && Field(p, 16, 1) == msgType && Field(p, 17, 1) == 0
  {
    SourceSeen(packet, q, msgType, id, pid, offset, src);
    AnswerBearsId(q, p);
  }

  lemma AnswerBearsId(q: seq<byte>, p: seq<byte>)
    requires |q| >= PACKET_SIZE && |p| >= PACKET_SIZE && p[..HEADER_SIZE] == q[..HEADER_SIZE]
    ensures Field(p, 8, 8) == Field(q, 8, 8) && Field(p, 16, 1) == Field(q, 16, 1) && Field(p, 17, 1) == Field(q, 17, 1)
  {
    FieldOfPrefix(p, HEADER_SIZE, 8, 8);
    FieldOfPrefix(q, HEADER_SIZE, 8, 8);
    FieldOfPrefix(p, HEADER_SIZE, 16, 1);
    FieldOfPrefix(q, HEADER_SIZE, 16, 1);
    FieldOfPrefix(p, HEADER_SIZE, 17, 1);
    FieldOfPrefix(q, HEADER_SIZE, 17, 1);
  }

  /** One exchange about a file being opened or released: the callback gets the path and its code comes back. */
  method Inform(client: Client, connected: bool, own: bool, answered: bool, msgType: byte, id: nat, pid: nat,
                fileId: nat, path: seq<byte>)
    returns (rc: int)
    requires msgType in {PR_MSG_OPEN, PR_MSG_RELEASE} && Answers(NotifyOf(client, msgType))
    requires |path| <= PATH_MAX && id < TWO_64 && pid < TWO_32 && fileId < TWO_64
    ensures IsInt(rc)
    ensures !(connected && !own && answered) ==> rc == -ENOMEM
    ensures connected && !own && answered && msgType == PR_MSG_OPEN && client.open.Some? ==>
      rc == client.open.value(fileId, pid, path)
    ensures connected && !own && answered && msgType == PR_MSG_RELEASE && client.release.Some? ==>
      rc == client.release.value(fileId, pid, path)
  {
    if !connected || own {
      return -ENOMEM;
    }
    var packet := BuildNotice(msgType, id, pid, fileId, path);
    if !answered {
      return -ENOMEM;
    }
    var q := Fetch(packet[..]);
    NoticeSeen(packet[..], q, msgType, id, pid, fileId, path);
    var reply := Deal(client, q);
    rc := Signed(Field(reply[..], 32, 4));
  }

  /** A notice fits the client's buffer. */
  lemma NoticeSeen(packet: seq<byte>, q: seq<byte>, msgType: byte, id: nat, pid: nat, fileId: nat, path: seq<byte>)
    requires Names(packet, msgType, id, pid, fileId, path) && msgType in {PR_MSG_OPEN, PR_MSG_RELEASE}
    requires IsSeenOf(q, packet) && |path| <= PATH_MAX
    ensures Readable(q) && Field(q, 16, 1) == msgType && Field(q, 32, 8) == fileId && Field(q, 20, 4) == pid
    ensures Path(q) == path
  {
    FixedPartSeen(packet, q);
    assert packet[..|packet|] == packet;
    assert Path(q) == q[..|packet|][PACKET_SIZE..];
  }

  /** What the open of a file makes of it: no negative result. */
  method OpenFile(client: Client, connected: bool, own: bool, answered: bool, id: nat, pid: nat,
                  fileId: nat, path: seq<byte>)
    returns (rc: int)
    requires Answers(client.open)
    requires |path| <= PATH_MAX && id < TWO_64 && pid < TWO_32 && fileId < TWO_64
    ensures rc >= 0
    ensures !(connected && !own && answered) ==> rc == OFR_INIT
    ensures connected && !own && answered && client.open.Some? ==>
      rc == var code := client.open.value(fileId, pid, path); if code >= 0 then code else OFR_INIT
  {
    rc := Inform(client, connected, own, answered, PR_MSG_OPEN, id, pid, fileId, path);
    if rc < 0 {
      rc := OFR_INIT;
    }
  }

  // ---------------------------------------------------------------- the sample client

  /** The loop of the sample client's `read` and `write`. */
  method XorCallback(src: seq<byte>, dst: array<byte>) returns (n: nat)
    requires |src| <= dst.Length
    modifies dst
    ensures n == |src| && dst[..] == XorAll(src) + old(dst[n..])
  {
    for i := 0 to |src|
      invariant dst[..i] == XorAll(src)[..i]
      invariant dst[|src|..] == old(dst[|src|..])
    {
      dst[i] := Xor13(src[i]);
    }
    n := |src|;
  }

  const XOR_TRANSFORM: Transform := (offset, src, room) => XorAll(src)

  /** That client keeps within the room, whatever its other callbacks. */
  lemma SampleClientKeeps()
    ensures Keeps(Some(XOR_TRANSFORM))
  {
  }

  /** With that client, data that fits its buffer, written and read back, is the same again. */
  method WriteAndReadBack(client: Client, id: nat, id': nat, pid: nat, offset: nat, data: seq<byte>, dst: array<byte>)
    requires client.read == client.write == Some(XOR_TRANSFORM)
    requires |data| <= MAX_DATA_SIZE && dst.Length == |data|
    requires id < TWO_64 && id' < TWO_64 && pid < TWO_32 && offset < TWO_64
    modifies dst
    ensures dst[..] == data
  {
    SampleClientKeeps();
    var rc, seen := Exchange(client, true, false, true, PR_MSG_WRITE, id, pid, offset, data, dst);
    assert dst[..] == XorAll(data);
    rc, seen := Exchange(client, true, false, true, PR_MSG_READ, id', pid, offset, dst[..], dst);
    XorAllTwice(data);
  }

  /** With that client, what a write makes of data that fits its buffer is made back into it by a read, at any
    offsets. */
  lemma WriteThenRead(client: Client, packet: seq<byte>, q: seq<byte>, p: seq<byte>,
                      packet': seq<byte>, q': seq<byte>, p': seq<byte>,
                      id: nat, pid: nat, offset: nat, id': nat, pid': nat, offset': nat, data: seq<byte>)
    requires client.read == client.write == Some(XOR_TRANSFORM) && |data| <= MAX_DATA_SIZE
    requires AsksFor(packet, PR_MSG_WRITE, id, pid, offset, data) && IsSeenOf(q, packet)
    requires Readable(q) && Field(q, 16, 1) == PR_MSG_WRITE
    requires Brings(p, q, Transformed(client.write, Field(q, 40, 8), Source(q)))
    requires AsksFor(packet', PR_MSG_READ, id', pid', offset', p[PACKET_SIZE..]) && IsSeenOf(q', packet')
    requires Readable(q') && Field(q', 16, 1) == PR_MSG_READ
    requires Brings(p', q', Transformed(client.read, Field(q', 40, 8), Source(q')))
    ensures Accepted(p, |data|) && Accepted(p', |data|) && p'[PACKET_SIZE..] == data
  {
    TransformRoundTrip(client, packet, q, p, PR_MSG_WRITE, id, pid, offset, data, |data|);
    assert p[PACKET_SIZE..] == XorAll(data);
    TransformRoundTrip(client, packet', q', p', PR_MSG_READ, id', pid', offset', XorAll(data), |data|);
    XorAllTwice(data);
  }
}
