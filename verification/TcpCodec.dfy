/** Length-prefixed frames over a byte stream that arrives in arbitrary chunks. */
module TcpCodec {
  import opened Basics

  newtype byte = x: int | 0 <= x < 256

  type Bytes = seq<byte>

  const LENGTH_PREFIX_BYTES: nat := 4
  const MAX_FRAME_BYTES: nat := 64 * 1024 * 1024
  const TWO_TO_THE_32: nat := 0x1_0000_0000

  /** An unsigned 32-bit number, most significant byte first. */
  function BigEndian(n: nat): (r: Bytes)
    requires n < TWO_TO_THE_32
    ensures |r| == LENGTH_PREFIX_BYTES
  {
    [(n / 0x100_0000) as byte, (n / 0x1_0000 % 256) as byte, (n / 256 % 256) as byte, (n % 256) as byte]
  }

  function FromBigEndian(s: Bytes): nat
    requires |s| == LENGTH_PREFIX_BYTES
  {
    s[0] as nat * 0x100_0000 + s[1] as nat * 0x1_0000 + s[2] as nat * 256 + s[3] as nat
  }

  lemma BigEndianRoundTrip(n: nat)
    requires n < TWO_TO_THE_32
    ensures FromBigEndian(BigEndian(n)) == n
  {
    var high := n / 256;
    assert n / 0x1_0000 == high / 256;
    assert n / 0x100_0000 == high / 256 / 256;
    assert n == high * 256 + n % 256;
    assert high == high / 256 * 256 + high % 256;
  }

  /** The frame of a body. The prefix holds the length modulo two to the 32. */
  function Frame(body: Bytes): Bytes {
    BigEndian(|body| % TWO_TO_THE_32) + body
  }

  function Stream(bodies: seq<Bytes>): Bytes {
    if bodies == [] then [] else Frame(bodies[0]) + Stream(bodies[1..])
  }

  /** What reading one frame gives: a body and what follows it, the end of the stream, or a length over the limit. */
  datatype Parsed = Body(body: Bytes, rest: Bytes) | End | TooLarge(length: nat)

  function Parse(s: Bytes): Parsed {
    if |s| < LENGTH_PREFIX_BYTES then End
    else
      var length := FromBigEndian(s[..LENGTH_PREFIX_BYTES]);
      if length > MAX_FRAME_BYTES then TooLarge(length)
      else if |s| < LENGTH_PREFIX_BYTES + length then End
      else Body(s[LENGTH_PREFIX_BYTES..LENGTH_PREFIX_BYTES + length], s[LENGTH_PREFIX_BYTES + length..])
  }

  /** All bodies that repeated reading gives, and whether a length over the limit stopped it. */
  function ParseAll(s: Bytes): (seq<Bytes>, bool)
    decreases |s|
  {
    match Parse(s)
    case End => ([], false)
    case TooLarge(_) => ([], true)
    case Body(body, rest) => var more := ParseAll(rest); ([body] + more.0, more.1)
  }

  /** The prefix has the most significant byte first. */
  lemma FrameLayout(body: Bytes)
    ensures var f := Frame(body);
            && |f| == 4 + |body| && f[4..] == body
            && f[0] as nat * 0x100_0000 + f[1] as nat * 0x1_0000 + f[2] as nat * 0x100 + f[3] as nat
                 == |body| % 0x1_0000_0000
  {
    BigEndianRoundTrip(|body| % TWO_TO_THE_32);
  }

  /** A body is read by the length in front of it, most significant byte first, if that is at most 64 MiB. */
  lemma ParseByLength(s: Bytes)
    requires |s| >= 4
    ensures var n := s[0] as nat * 0x100_0000 + s[1] as nat * 0x1_0000 + s[2] as nat * 0x100 + s[3] as nat;
            Parse(s) == if n > 0x400_0000 then TooLarge(n) else if |s| < 4 + n then End
                        else Body(s[4..4 + n], s[4 + n..])
  {
    var prefix := s[..LENGTH_PREFIX_BYTES];
    assert prefix[0] == s[0] && prefix[1] == s[1] && prefix[2] == s[2] && prefix[3] == s[3];
  }

  // ----------------------------------------------------------------- the codec

  method EncodeFrame(body: Bytes) returns (buf: array<byte>)
    ensures fresh(buf) && buf[..] == Frame(body)
  {
    buf := new byte[LENGTH_PREFIX_BYTES + |body|](i => 0);
    var n := |body| % TWO_TO_THE_32;
    buf[0], buf[1], buf[2], buf[3] := (n / 0x100_0000) as byte, (n / 0x1_0000 % 256) as byte,
      (n / 256 % 256) as byte, (n % 256) as byte;
    for i := 0 to |body|
      invariant buf[..LENGTH_PREFIX_BYTES] == BigEndian(n)
      invariant buf[LENGTH_PREFIX_BYTES..LENGTH_PREFIX_BYTES + i] == body[..i]
    {
      buf[LENGTH_PREFIX_BYTES + i] := body[i];
    }
    assert buf[..] == buf[..LENGTH_PREFIX_BYTES] + buf[LENGTH_PREFIX_BYTES..LENGTH_PREFIX_BYTES + |body|];
  }

  /** The receiving end of a connection. `chunk` decides how much each read delivers, and `fails` which
      reads throw. */
  class Conn {
    const chunk: nat -> nat
    const fails: nat -> bool
    var incoming: Bytes
    var calls: nat

    constructor (incoming: Bytes, chunk: nat -> nat, fails: nat -> bool)
      ensures this.incoming == incoming && this.chunk == chunk && this.fails == fails && calls == 0
    {
      this.incoming, this.chunk, this.fails, calls := incoming, chunk, fails, 0;
    }

    ghost predicate Reliable() {
      forall n :: !fails(n)
    }

    /** Fills a part of `buf` from `offset` on; nothing is read at the end of the stream or when the read throws. */
    method Read(buf: array<byte>, offset: nat) returns (bytesRead: Option<nat>)
      requires offset < buf.Length
      modifies this`incoming, this`calls, buf
      ensures buf[..offset] == old(buf[..offset])
      ensures bytesRead.None? ==> incoming == old(incoming) && (Reliable() ==> incoming == [])
      ensures bytesRead.Some? ==>
                && 1 <= bytesRead.value && offset + bytesRead.value <= buf.Length
                && old(incoming) == buf[offset..offset + bytesRead.value] + incoming
    {
      calls := calls + 1;
      if fails(calls) || incoming == [] {
        return None;
      }
      var most := if |incoming| < buf.Length - offset then |incoming| else buf.Length - offset;
      var n := chunk(calls) % most + 1;
      for i := 0 to n
        invariant incoming == old(incoming)
        invariant buf[..offset] == old(buf[..offset]) && buf[offset..offset + i] == incoming[..i]
      {
        buf[offset + i] := incoming[i];
      }
      incoming := incoming[n..];
      bytesRead := Some(n);
    }
  }

  /** Exactly `n` bytes, however they are chunked, or nothing when the stream ends before. */
  method ReadExact(conn: Conn, n: nat) returns (r: Option<Bytes>)
    modifies conn`incoming, conn`calls
    ensures r.Some? ==> |r.value| == n && old(conn.incoming) == r.value + conn.incoming
    ensures r.None? ==> conn.Reliable() ==> |old(conn.incoming)| < n && conn.incoming == []
  {
    var buf := new byte[n](i => 0);
    var offset := 0;
    while offset < n
      invariant offset <= n && old(conn.incoming) == buf[..offset] + conn.incoming
      decreases n - offset
    {
      ghost var before := buf[..offset];
      var bytesRead := conn.Read(buf, offset);
      if bytesRead.None? {
        return None;
      }
      assert buf[..offset + bytesRead.value] == before + buf[offset..offset + bytesRead.value];
      ConcatAssociative(before, buf[offset..offset + bytesRead.value], conn.incoming);
      offset := offset + bytesRead.value;
    }
    assert buf[..] == buf[..n];
    r := Some(buf[..]);
  }

  datatype ReadResult = Read(body: Bytes) | Null | RangeError(length: nat)

  /** One frame. Whatever it returns is what the stream says; without failing reads it returns exactly that. */
  method ReadFrame(conn: Conn) returns (r: ReadResult)
    modifies conn`incoming, conn`calls
    ensures r.Read? ==> Parse(old(conn.incoming)) == Body(r.body, conn.incoming)
    ensures r.RangeError? ==> Parse(old(conn.incoming)) == TooLarge(r.length)
    ensures r.Null? && conn.Reliable() ==> Parse(old(conn.incoming)) == End
  {
    var header := ReadExact(conn, LENGTH_PREFIX_BYTES);
    if header.None? {
      return Null;
    }
    assert old(conn.incoming)[..LENGTH_PREFIX_BYTES] == header.value;
    assert old(conn.incoming)[LENGTH_PREFIX_BYTES..] == conn.incoming;
    var length := FromBigEndian(header.value);
    if length > MAX_FRAME_BYTES {
      return RangeError(length);
    }
    ghost var after := conn.incoming;
    var body := ReadExact(conn, length);
    if body.None? {
      return Null;
    }
    assert after[..length] == body.value && after[length..] == conn.incoming;
    r := Read(body.value);
  }

  // -------------------------------------------------------------------- theorems

  lemma NothingToParse()
    ensures Parse([]) == End
  {
  }

  lemma ParseFrame(body: Bytes, rest: Bytes)
    requires |body| < TWO_TO_THE_32
    ensures Parse(Frame(body) + rest) == if |body| <= MAX_FRAME_BYTES then Body(body, rest) else TooLarge(|body|)
  {
    hide BigEndian, FromBigEndian;
    BigEndianRoundTrip(|body|);
    var s := Frame(body) + rest;
    assert s[..LENGTH_PREFIX_BYTES] == BigEndian(|body|);
    assert s[LENGTH_PREFIX_BYTES..LENGTH_PREFIX_BYTES + |body|] == body;
    assert s[LENGTH_PREFIX_BYTES + |body|..] == rest;
  }

  /** Every list of bodies within the limit survives the stream; the first body over the limit stops the
      reading, after the bodies before it. */
  lemma {:induction false} StreamRoundTrip(bodies: seq<Bytes>, k: nat)
    requires k <= |bodies| && forall i | 0 <= i < k :: |bodies[i]| <= MAX_FRAME_BYTES
    requires k < |bodies| ==> MAX_FRAME_BYTES < |bodies[k]| < TWO_TO_THE_32
    ensures ParseAll(Stream(bodies)) == (bodies[..k], k < |bodies|)
    decreases |bodies|
  {
    hide Parse, BigEndian, FromBigEndian, Frame;
    if bodies == [] {
      assert Parse([]) == End by { NothingToParse(); }
    } else {
      ParseFrame(bodies[0], Stream(bodies[1..]));
      if k > 0 {
        StreamRoundTrip(bodies[1..], k - 1);
        assert bodies[..k] == [bodies[0]] + bodies[1..][..k - 1];
      }
    }
  }

  /** A stream cut short anywhere gives the bodies that arrived whole, and then ends. */
  lemma {:induction false} TruncatedStream(bodies: seq<Bytes>, cut: nat) returns (whole: nat)
    requires cut <= |Stream(bodies)| && forall i | 0 <= i < |bodies| :: |bodies[i]| <= MAX_FRAME_BYTES
    ensures whole <= |bodies| && ParseAll(Stream(bodies)[..cut]) == (bodies[..whole], false)
    ensures |Stream(bodies[..whole])| <= cut && (whole < |bodies| ==> cut < |Stream(bodies[..whole + 1])|)
    decreases |bodies|
  {
    hide Parse, BigEndian;
    whole := 0;
    if bodies == [] {
      ParsePart([], 0);
      return;
    }
    var body, rest := bodies[0], Stream(bodies[1..]);
    var s := Stream(bodies)[..cut];
    assert bodies[..1][1..] == [] && Stream(bodies[..1]) == Frame(body) + Stream([]);
    if cut < |Frame(body)| {
      assert s == Frame(body)[..cut];
      ParsePart(body, cut);
    } else {
      var left := cut - |Frame(body)|;
      assert s == Frame(body) + rest[..left];
      ParseFrame(body, rest[..left]);
      var more := TruncatedStream(bodies[1..], left);
      whole := more + 1;
      assert bodies[..whole] == [body] + bodies[1..][..more] && bodies[..whole][1..] == bodies[1..][..more];
      if whole < |bodies| {
        assert bodies[..whole + 1][1..] == bodies[1..][..more + 1];
      }
    }
  }

  /** A frame that is cut short is read as the end. */
  lemma ParsePart(body: Bytes, cut: nat)
    requires cut < |Frame(body)| && |body| <= MAX_FRAME_BYTES
    ensures Parse(Frame(body)[..cut]) == End && ParseAll(Frame(body)[..cut]) == ([], false)
  {
    hide BigEndian, FromBigEndian;
    BigEndianRoundTrip(|body|);
    if LENGTH_PREFIX_BYTES <= cut {
      assert Frame(body)[..cut][..LENGTH_PREFIX_BYTES] == BigEndian(|body|);
    }
  }

  /** A single frame is read back as its body exactly when the body is within the limit. What is read is
      decided by the length modulo two to the 32: the body is refused, or cut after that many bytes. */
  lemma FrameSurvivesWithinLimit(body: Bytes)
    ensures Parse(Frame(body)) == Body(body, []) <==> |body| <= MAX_FRAME_BYTES
    ensures var n := |body| % TWO_TO_THE_32;
            Parse(Frame(body)) == if n <= MAX_FRAME_BYTES then Body(body[..n], body[n..]) else TooLarge(n)
  {
    hide BigEndian, FromBigEndian;
    var n := |body| % TWO_TO_THE_32;
    BigEndianRoundTrip(n);
    assert Frame(body)[..LENGTH_PREFIX_BYTES] == BigEndian(n);
    assert Frame(body)[LENGTH_PREFIX_BYTES..LENGTH_PREFIX_BYTES + n] == body[..n];
    assert Frame(body)[LENGTH_PREFIX_BYTES + n..] == body[n..];
    if |body| <= MAX_FRAME_BYTES {
      assert body[..n] == body && body[n..] == [];
    }
  }
}
