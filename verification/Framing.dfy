/** Packets on a byte stream: a 4-byte big-endian length and the body, cut out of whatever pieces arrive. */
module Framing {
  import opened Types

  newtype Byte = b: int | 0 <= b < 256

  const MAX_BODY := 64 * 1024 * 1024
  const TWO_32 := 0x1_0000_0000

  // ---- packets ----

  /** htonl of a 32-bit length, byte by byte. */
  function LengthBytes(len: nat): (s: seq<Byte>)
    requires len < TWO_32
    ensures |s| == 4
  {
    [(len / 0x100_0000) as Byte, (len / 0x1_0000 % 0x100) as Byte, (len / 0x100 % 0x100) as Byte, (len % 0x100) as Byte]
  }

  function LengthOf(s: seq<Byte>): (len: nat)
    requires |s| >= 4
    ensures len < TWO_32
  {
    s[0] as int * 0x100_0000 + s[1] as int * 0x1_0000 + s[2] as int * 0x100 + s[3] as int
  }

  lemma LengthRoundTrip(len: nat, rest: seq<Byte>)
    requires len < TWO_32
    ensures LengthOf(LengthBytes(len) + rest) == len
  {
    var s := LengthBytes(len) + rest;
    var b0, b1, b2 := len / 0x100_0000, len / 0x1_0000, len / 0x100;
    assert s[0] as int == b0 && s[1] as int == b1 % 0x100 && s[2] as int == b2 % 0x100 && s[3] as int == len % 0x100;
    assert LengthOf(s) == b0 * 0x100_0000 + b1 % 0x100 * 0x1_0000 + b2 % 0x100 * 0x100 + len % 0x100;
    BytesAddUp(len);
  }

  lemma BytesAddUp(len: nat)
    ensures len / 0x100_0000 * 0x100_0000 + len / 0x1_0000 % 0x100 * 0x1_0000 + len / 0x100 % 0x100 * 0x100 + len % 0x100 == len
  {
    assert len / 0x1_0000 / 0x100 == len / 0x100_0000 && len / 0x100 / 0x100 == len / 0x1_0000;
  }

  /** The length field is a 32-bit cast of the size. */
  function EncodePacket(body: seq<Byte>): seq<Byte> {
    LengthBytes(|body| % TWO_32) + body
  }

  /** One packet off the front; None where the buffer holds no complete packet, or a length out of range. */
  function Decode(buf: seq<Byte>): (r: Option<(seq<Byte>, seq<Byte>)>)
    ensures r.Some? ==> |r.value.1| < |buf|
  {
    if |buf| < 4 then None
    else
      var len := LengthOf(buf);
      if len == 0 || len > MAX_BODY || |buf| < 4 + len then None
      else Some((buf[4..4 + len], buf[4 + len..]))
  }

  predicate Sendable(body: seq<Byte>) {
    1 <= |body| <= MAX_BODY
  }

  ghost predicate ReadsBack(body: seq<Byte>) {
    forall rest :: Decode(EncodePacket(body) + rest) == Some((body, rest))
  }

  lemma DecodeEncoded(body: seq<Byte>, rest: seq<Byte>)
    ensures Decode(EncodePacket(body) + rest) == Some((body, rest)) <==> Sendable(body)
  {
    var len := |body| % TWO_32;
    var buf := EncodePacket(body) + rest;
    LengthRoundTrip(len, body + rest);
    assert buf == LengthBytes(len) + (body + rest);
    if Sendable(body) {
      assert len == |body| && buf[4..4 + len] == body && buf[4 + len..] == rest;
    } else if len != 0 && len <= MAX_BODY {
      assert |body| >= TWO_32;
    }
  }

  /** A packet is read back, whatever follows it, if and only if its body has 1 to 64 MiB; an empty response, say, is
      sent but never received. */
  lemma ReadsBackIff(body: seq<Byte>)
    ensures ReadsBack(body) <==> Sendable(body)
  {
    forall rest: seq<Byte>
      ensures Decode(EncodePacket(body) + rest) == Some((body, rest)) <==> Sendable(body)
    {
      DecodeEncoded(body, rest);
    }
    var none: seq<Byte> := [];
    assert Decode(EncodePacket(body) + none) == Some((body, none)) <==> Sendable(body);
  }

  // ---- draining ----

  /** Everything the draining loop takes out of a buffer, and what it leaves. */
  function Drain(buf: seq<Byte>): (r: (seq<seq<Byte>>, seq<Byte>))
    ensures Decode(r.1) == None
    decreases |buf|
  {
    match Decode(buf)
    case None => ([], buf)
    case Some((body, rest)) =>
      var (more, last) := Drain(rest);
      ([body] + more, last)
  }

  lemma DecodeLonger(buf: seq<Byte>, more: seq<Byte>)
    requires Decode(buf).Some?
    ensures Decode(buf + more) == Some((Decode(buf).value.0, Decode(buf).value.1 + more))
  {
    var len := LengthOf(buf);
    assert LengthOf(buf + more) == len;
    assert (buf + more)[4..4 + len] == buf[4..4 + len];
    assert (buf + more)[4 + len..] == buf[4 + len..] + more;
  }

  /** Draining early does not change what comes out. */
  lemma {:induction false} DrainInTwo(buf: seq<Byte>, more: seq<Byte>)
    ensures var (first, left) := Drain(buf);
      Drain(buf + more) == (first + Drain(left + more).0, Drain(left + more).1)
    decreases |buf|
  {
    match Decode(buf) {
      case None =>
        assert [] + Drain(buf + more).0 == Drain(buf + more).0;
      case Some((body, rest)) =>
        DecodeLonger(buf, more);
        DrainInTwo(rest, more);
        var (first, left) := Drain(rest);
        assert [body] + (first + Drain(left + more).0) == ([body] + first) + Drain(left + more).0;
    }
  }

  function Flat(chunks: seq<seq<Byte>>): seq<Byte> {
    if chunks == [] then [] else chunks[0] + Flat(chunks[1..])
  }

  /** Appending chunk after chunk, draining after each. */
  function Feed(buf: seq<Byte>, chunks: seq<seq<Byte>>): (seq<seq<Byte>>, seq<Byte>)
    decreases |chunks|
  {
    if chunks == [] then ([], buf)
    else
      var (first, left) := Drain(buf + chunks[0]);
      var (more, last) := Feed(left, chunks[1..]);
      (first + more, last)
  }

  /** For any bytes at all, malformed ones included, and any cutting: the chunks yield what the whole would. */
  lemma {:induction false} ChunkingDoesNotMatter(buf: seq<Byte>, chunks: seq<seq<Byte>>)
    requires Decode(buf) == None
    ensures Feed(buf, chunks) == Drain(buf + Flat(chunks))
    decreases |chunks|
  {
    hide Drain, Decode;
    if chunks == [] {
      assert buf + [] == buf;
      NothingToDrain(buf);
    } else {
      var left := Drain(buf + chunks[0]).1;
      ChunkingDoesNotMatter(left, chunks[1..]);
      DrainInTwo(buf + chunks[0], Flat(chunks[1..]));
      assert buf + Flat(chunks) == buf + chunks[0] + Flat(chunks[1..]);
    }
  }

  lemma NothingToDrain(buf: seq<Byte>)
    requires Decode(buf) == None
    ensures Drain(buf) == ([], buf)
  {
  }

  function Packets(bodies: seq<seq<Byte>>): seq<Byte> {
    if bodies == [] then [] else EncodePacket(bodies[0]) + Packets(bodies[1..])
  }

  /** What is left after a cut: a part of the packet of the next body that is not yet complete. */
  ghost predicate Incomplete(left: seq<Byte>, bodies: seq<seq<Byte>>, k: nat) {
    if k < |bodies| then |left| < |EncodePacket(bodies[k])| && left <= EncodePacket(bodies[k]) else left == []
  }

  lemma PartOfPacket(body: seq<Byte>, left: seq<Byte>)
    requires Sendable(body) && |left| < |EncodePacket(body)| && left <= EncodePacket(body)
    ensures Decode(left) == None
  {
    if |left| >= 4 {
      LengthRoundTrip(|body|, []);
      var p := EncodePacket(body);
      assert left[0] == p[0] && left[1] == p[1] && left[2] == p[2] && left[3] == p[3];
      assert LengthBytes(|body|) + [] == p[..4];
      assert LengthOf(left) == |body|;
    }
  }

  /** Wherever a stream of packets is cut, the packets before the cut come out, in order, and only a part of the next
      packet stays. */
  lemma {:induction false} DrainPrefix(bodies: seq<seq<Byte>>, cut: nat) returns (k: nat)
    requires forall i | 0 <= i < |bodies| :: Sendable(bodies[i])
    requires cut <= |Packets(bodies)|
    ensures k <= |bodies|
    ensures Drain(Packets(bodies)[..cut]).0 == bodies[..k]
    ensures Incomplete(Drain(Packets(bodies)[..cut]).1, bodies, k)
    ensures cut == |Packets(bodies)| ==> k == |bodies|
    decreases |bodies|
  {
    var stream := Packets(bodies);
    if bodies == [] {
      k := 0;
      assert stream[..cut] == [];
    } else {
      var p, rest := EncodePacket(bodies[0]), Packets(bodies[1..]);
      if cut < |p| {
        k := 0;
        assert stream[..cut] == p[..cut];
        PartOfPacket(bodies[0], p[..cut]);
        assert bodies[..0] == [];
      } else {
        var j := DrainPrefix(bodies[1..], cut - |p|);
        k := j + 1;
        assert stream[..cut] == p + rest[..cut - |p|];
        DecodeEncoded(bodies[0], rest[..cut - |p|]);
        assert [bodies[0]] + bodies[1..][..j] == bodies[..k];
      }
    }
  }

  /** Any list of bodies, any cutting of their packets into chunks: exactly those bodies come out, in order, and
      nothing is left; and at every stop on the way only a part of the next packet is buffered. */
  lemma FramingIsTransparent(bodies: seq<seq<Byte>>, chunks: seq<seq<Byte>>, n: nat) returns (k: nat)
    requires forall i | 0 <= i < |bodies| :: Sendable(bodies[i])
    requires Flat(chunks) == Packets(bodies) && n <= |chunks|
    ensures Feed([], chunks) == (bodies, [])
    ensures k <= |bodies| && Feed([], chunks[..n]).0 == bodies[..k] && Incomplete(Feed([], chunks[..n]).1, bodies, k)
  {
    hide Drain, Decode, Feed, Flat, Packets, Incomplete, Sendable;
    var all := FedIsPrefix(bodies, chunks);
    assert bodies[..|bodies|] == bodies;
    EndIsComplete(bodies, Feed([], chunks).1);
    FlatPrefix(chunks, n);
    k := FedIsPrefix(bodies, chunks[..n]);
  }

  lemma EndIsComplete(bodies: seq<seq<Byte>>, left: seq<Byte>)
    ensures Incomplete(left, bodies, |bodies|) ==> left == []
  {
  }

  /** Chunks that make up any beginning of the packets. */
  lemma FedIsPrefix(bodies: seq<seq<Byte>>, chunks: seq<seq<Byte>>) returns (k: nat)
    requires forall i | 0 <= i < |bodies| :: Sendable(bodies[i])
    requires Flat(chunks) <= Packets(bodies)
    ensures k <= |bodies| && Feed([], chunks).0 == bodies[..k] && Incomplete(Feed([], chunks).1, bodies, k)
    ensures Flat(chunks) == Packets(bodies) ==> k == |bodies|
  {
    hide Drain, Feed, Flat, Packets, Incomplete, Sendable;
    ChunkingDoesNotMatter([], chunks);
    assert [] + Flat(chunks) == Packets(bodies)[..|Flat(chunks)|];
    k := DrainPrefix(bodies, |Flat(chunks)|);
  }

  lemma {:induction false} FlatPrefix(chunks: seq<seq<Byte>>, n: nat)
    requires n <= |chunks|
    ensures Flat(chunks[..n]) <= Flat(chunks)
    decreases n
  {
    if n > 0 {
      assert chunks[..n][1..] == chunks[1..][..n - 1];
      FlatPrefix(chunks[1..], n - 1);
    }
  }

  /** A length out of range is never skipped: everything that arrives later stays behind it. */
  lemma BadLengthBlocks(buf: seq<Byte>, more: seq<Byte>)
    requires |buf| >= 4 && (LengthOf(buf) == 0 || LengthOf(buf) > MAX_BODY)
    ensures Drain(buf + more) == ([], buf + more)
  {
    assert LengthOf(buf + more) == LengthOf(buf);
  }

  // ---- the objects ----

  class Buffer {
    var data: seq<Byte>

    constructor ()
      ensures data == []
    {
      data := [];
    }

    method Append(s: seq<Byte>)
      modifies this
      ensures data == old(data) + s
    {
      data := data + s;
    }

    /** erase(0, len): at most everything. */
    method Retrieve(len: nat)
      modifies this
      ensures data == if len <= |old(data)| then old(data)[len..] else []
    {
      data := if len <= |data| then data[len..] else [];
    }

    method RetrieveAll() returns (s: seq<Byte>)
      modifies this
      ensures s == old(data) && data == []
    {
      s := data;
      data := [];
    }
  }

  method TryDecodePacket(input: Buffer) returns (ok: bool, body: seq<Byte>)
    modifies input
    ensures ok <==> Decode(old(input.data)).Some?
    ensures ok ==> (body, input.data) == Decode(old(input.data)).value
    ensures !ok ==> input.data == old(input.data)
  {
    body := [];
    if |input.data| < 4 {
      return false, body;
    }
    var len := LengthOf(input.data);
    if len == 0 || len > MAX_BODY {
      return false, body;
    }
    if |input.data| < 4 + len {
      return false, body;
    }
    assert input.data[4..][..len] == input.data[4..4 + len];
    assert input.data[4..][len..] == input.data[4 + len..];
    input.Retrieve(4);
    body := input.data[..len];
    input.Retrieve(len);
    return true, body;
  }

  function Answers(bodies: seq<seq<Byte>>, respond: seq<Byte> -> seq<Byte>): seq<Byte> {
    if bodies == [] then [] else EncodePacket(respond(bodies[0])) + Answers(bodies[1..], respond)
  }

  class TcpConnection {
    const inputBuffer: Buffer
    const outputBuffer: Buffer

    constructor ()
      ensures fresh(inputBuffer) && fresh(outputBuffer) && inputBuffer != outputBuffer
      ensures inputBuffer.data == outputBuffer.data == []
    {
      inputBuffer := new Buffer();
      outputBuffer := new Buffer();
    }

    /** What arrived is appended, and then every complete request is answered, in order. */
    method HandleRead(received: seq<Byte>, respond: seq<Byte> -> seq<Byte>)
      requires inputBuffer != outputBuffer
      modifies inputBuffer, outputBuffer
      ensures inputBuffer.data == Drain(old(inputBuffer.data) + received).1
      ensures outputBuffer.data == old(outputBuffer.data) + Answers(Drain(old(inputBuffer.data) + received).0, respond)
    {
      hide Decode, EncodePacket;
      inputBuffer.Append(received);
      ghost var all := inputBuffer.data;
      ghost var target := outputBuffer.data + Answers(Drain(all).0, respond);
      var ok, req := TryDecodePacket(inputBuffer);
      while ok
        invariant outputBuffer.data + Answers((if ok then [req] else []) + Drain(inputBuffer.data).0, respond) == target
        invariant Drain(inputBuffer.data).1 == Drain(all).1
        invariant !ok ==> Decode(inputBuffer.data) == None
        decreases |inputBuffer.data| + if ok then 1 else 0
      {
        ghost var rest := Drain(inputBuffer.data).0;
        assert ([req] + rest)[1..] == rest;
        assert outputBuffer.data + (EncodePacket(respond(req)) + Answers(rest, respond))
            == outputBuffer.data + EncodePacket(respond(req)) + Answers(rest, respond);
        outputBuffer.Append(EncodePacket(respond(req)));
        ok, req := TryDecodePacket(inputBuffer);
      }
    }
  }
}
