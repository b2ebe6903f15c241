/** Length-prefixed frames: a four-byte big-endian length, then that many bytes. */
module Framing {

  type byte = x: int | 0 <= x < 256
  type bytes = seq<byte>

  const PREFIX_SIZE: nat := 4
  const MAX_MESSAGE_SIZE: nat := 1024 * 1024
  const LENGTH_LIMIT: nat := 0x1_0000_0000

  // ---------------------------------------------------------------------
  // The printer
  // ---------------------------------------------------------------------

  /** struct.pack(">I", n). */
  function PackLength(n: nat): (s: bytes)
    requires n < LENGTH_LIMIT
    ensures |s| == PREFIX_SIZE
  {
    [n / 0x100_0000, n / 0x1_0000 % 0x100, n / 0x100 % 0x100, n % 0x100]
  }

  /** struct.unpack(">I", s). */
  function UnpackLength(s: bytes): (n: nat)
    requires |s| == PREFIX_SIZE
    ensures n < LENGTH_LIMIT
  {
    s[0] as int * 0x100_0000 + s[1] as int * 0x1_0000 + s[2] as int * 0x100 + s[3]
  }

  /** A payload whose length does not fit the prefix cannot be packed. */
  datatype Encoded = Framed(frame: bytes) | Unpackable

  function EncodeWithLengthPrefix(payload: bytes): Encoded {
    if |payload| < LENGTH_LIMIT then Framed(PackLength(|payload|) + payload) else Unpackable
  }

  /** The frames of payloads short enough to be read back. */
  predicate Readable(payload: bytes) { |payload| <= MAX_MESSAGE_SIZE }

  function Frame(payload: bytes): bytes
    requires Readable(payload)
  {
    EncodeWithLengthPrefix(payload).frame
  }

  // ---------------------------------------------------------------------
  // The parser, on bytes that are all there
  // ---------------------------------------------------------------------

  /** How reading a stretch of the stream ends. A stream that has ended either
      raises or returns nothing; only the second is noticed as a short read. */
  datatype ReadResult =
    | Read(data: bytes)
    | Short(expected: nat, received: nat)
    | EndOfStream
    | TooLong(length: nat)

  datatype Parsed = Parsed(result: ReadResult, rest: bytes)

  function TakeExact(data: bytes, n: nat, raises: bool): Parsed {
    if n <= |data| then Parsed(Read(data[..n]), data[n..])
    else Parsed(if raises then EndOfStream else Short(n, |data|), [])
  }

  function ParseFrame(data: bytes, raises: bool): Parsed {
    var prefix := TakeExact(data, PREFIX_SIZE, raises);
    if !prefix.result.Read? then prefix
    else
      var length := UnpackLength(prefix.result.data);
      if length > MAX_MESSAGE_SIZE then Parsed(TooLong(length), prefix.rest)
      else TakeExact(prefix.rest, length, raises)
  }

  // ---------------------------------------------------------------------
  // One frame
  // ---------------------------------------------------------------------

  lemma LengthRoundTrip(n: nat)
    requires n < LENGTH_LIMIT
    ensures UnpackLength(PackLength(n)) == n
  {
    assert n / 0x100 == (n / 0x1_0000) * 0x100 + n / 0x100 % 0x100;
    assert n / 0x1_0000 == (n / 0x100_0000) * 0x100 + n / 0x1_0000 % 0x100;
  }

  lemma LengthUnique(s: bytes)
    requires |s| == PREFIX_SIZE
    ensures PackLength(UnpackLength(s)) == s
  {
    var n := UnpackLength(s);
    assert n / 0x100 == s[0] as int * 0x1_0000 + s[1] as int * 0x100 + s[2];
    assert n / 0x1_0000 == s[0] as int * 0x100 + s[1];
    assert n / 0x100_0000 == s[0];
  }

  /** A frame is read back as its payload whatever follows it, and nothing else
      is read as that payload: parsing and printing are inverse. */
  lemma FrameRoundTrip(data: bytes, payload: bytes, rest: bytes, raises: bool)
    ensures ParseFrame(data, raises) == Parsed(Read(payload), rest)
       <==> Readable(payload) && data == Frame(payload) + rest
  {
    if Readable(payload) && data == Frame(payload) + rest {
      LengthRoundTrip(|payload|);
      assert data[..PREFIX_SIZE] == PackLength(|payload|);
      assert data[PREFIX_SIZE..] == payload + rest;
    }
    if ParseFrame(data, raises) == Parsed(Read(payload), rest) {
      var tail := data[PREFIX_SIZE..];
      LengthUnique(data[..PREFIX_SIZE]);
      assert tail == payload + rest;
      assert data == data[..PREFIX_SIZE] + tail;
      assert data == Frame(payload) + rest;
    }
  }

  /** The bytes stop inside a length prefix, or short of the end of the readable
      frame they begin. */
  ghost predicate CutShort(data: bytes) {
    |data| < PREFIX_SIZE || exists payload :: Readable(payload) && data < Frame(payload)
  }

  /** Reading fails exactly when the bytes are a frame cut short, or announce a
      length above the limit. */
  lemma FailsExactly(data: bytes, raises: bool)
    ensures var r := ParseFrame(data, raises).result;
            && (CutShort(data) <==> r == EndOfStream || r.Short?)
            && (r.TooLong? <==> |data| >= PREFIX_SIZE && UnpackLength(data[..PREFIX_SIZE]) > MAX_MESSAGE_SIZE)
            && (r == EndOfStream ==> raises) && (r.Short? ==> !raises)
  {
    if |data| >= PREFIX_SIZE {
      var length := UnpackLength(data[..PREFIX_SIZE]);
      LengthUnique(data[..PREFIX_SIZE]);
      assert data == data[..PREFIX_SIZE] + data[PREFIX_SIZE..];
      if CutShort(data) {
        var payload :| Readable(payload) && data < Frame(payload);
        LengthRoundTrip(|payload|);
        assert data[..PREFIX_SIZE] == Frame(payload)[..PREFIX_SIZE] == PackLength(|payload|);
      }
      if length <= MAX_MESSAGE_SIZE && |data| < PREFIX_SIZE + length {
        var payload: bytes := data[PREFIX_SIZE..] + seq(length - (|data| - PREFIX_SIZE), _ => 0);
        assert data < Frame(payload);
      }
    }
  }

  /** The limit is checked on the way in only: a payload above it is framed and
      sent like any other, and the frame is one the reader refuses. */
  lemma LimitIsOneSided(payload: bytes, rest: bytes, raises: bool)
    requires MAX_MESSAGE_SIZE < |payload| < LENGTH_LIMIT
    ensures EncodeWithLengthPrefix(payload).Framed?
    ensures ParseFrame(EncodeWithLengthPrefix(payload).frame + rest, raises).result == TooLong(|payload|)
  {
    var data := EncodeWithLengthPrefix(payload).frame + rest;
    LengthRoundTrip(|payload|);
    assert data[..PREFIX_SIZE] == PackLength(|payload|);
  }

  // ---------------------------------------------------------------------
  // A stream of frames
  // ---------------------------------------------------------------------

  /** The frames of a stream one after another, and how reading it ends. */
  datatype Stream = Stream(payloads: seq<bytes>, ending: ReadResult)

  function ParseAll(data: bytes, raises: bool): Stream
    decreases |data|
  {
    var first := ParseFrame(data, raises);
    if !first.result.Read? then Stream([], first.result)
    else
      var others := ParseAll(first.rest, raises);
      Stream([first.result.data] + others.payloads, others.ending)
  }

  function FrameAll(payloads: seq<bytes>): bytes
    requires forall p | p in payloads :: Readable(p)
  {
    if payloads == [] then [] else Frame(payloads[0]) + FrameAll(payloads[1..])
  }

  ghost predicate AllReadable(payloads: seq<bytes>) { forall p | p in payloads :: Readable(p) }

  /** `tail` begins no readable frame, and reading it ends this way. */
  ghost predicate DeadEnd(tail: bytes, ending: ReadResult, raises: bool) {
    !ending.Read? && ParseFrame(tail, raises).result == ending
  }

  lemma OneFrameReadBack(payload: bytes, rest: bytes, raises: bool)
    requires Readable(payload)
    ensures ParseAll(Frame(payload) + rest, raises)
         == Stream([payload] + ParseAll(rest, raises).payloads, ParseAll(rest, raises).ending)
  {
    FrameRoundTrip(Frame(payload) + rest, payload, rest, raises);
  }

  lemma Rejoin<T>(s: seq<T>, t: seq<T>)
    requires s != []
    ensures s + t == [s[0]] + (s[1..] + t)
  {
  }

  lemma FrameAllOn(payloads: seq<bytes>, tail: bytes)
    requires payloads != [] && AllReadable(payloads)
    ensures FrameAll(payloads) + tail == Frame(payloads[0]) + (FrameAll(payloads[1..]) + tail)
  {
  }

  lemma {:induction false} FramesReadBack(payloads: seq<bytes>, tail: bytes, raises: bool)
    requires AllReadable(payloads)
    ensures ParseAll(FrameAll(payloads) + tail, raises)
         == Stream(payloads + ParseAll(tail, raises).payloads, ParseAll(tail, raises).ending)
    decreases |payloads|
  {
    if payloads == [] {
      assert FrameAll(payloads) + tail == tail;
      assert payloads + ParseAll(tail, raises).payloads == ParseAll(tail, raises).payloads;
    } else {
      var rest := FrameAll(payloads[1..]) + tail;
      FrameAllOn(payloads, tail);
      FramesReadBack(payloads[1..], tail, raises);
      OneFrameReadBack(payloads[0], rest, raises);
      assert ParseAll(FrameAll(payloads) + tail, raises)
          == Stream([payloads[0]] + ParseAll(rest, raises).payloads, ParseAll(rest, raises).ending);
      Rejoin(payloads, ParseAll(tail, raises).payloads);
    }
  }

  lemma {:induction false} ReadsFrames(data: bytes, raises: bool) returns (tail: bytes)
    ensures var stream := ParseAll(data, raises);
            && AllReadable(stream.payloads)
            && data == FrameAll(stream.payloads) + tail
            && DeadEnd(tail, stream.ending, raises)
    decreases |data|
  {
    var first := ParseFrame(data, raises);
    if !first.result.Read? {
      tail := data;
    } else {
      tail := ReadsFrames(first.rest, raises);
      FrameRoundTrip(data, first.result.data, first.rest, raises);
      FrameAllCons(first.result.data, ParseAll(first.rest, raises).payloads, tail);
    }
  }

  lemma FrameAllCons(payload: bytes, others: seq<bytes>, tail: bytes)
    requires Readable(payload) && AllReadable(others)
    ensures AllReadable([payload] + others)
    ensures FrameAll([payload] + others) + tail == Frame(payload) + (FrameAll(others) + tail)
  {
    assert ([payload] + others)[1..] == others;
    FrameAllOn([payload] + others, tail);
  }

  /** The payloads read off a stream are those whose frames it starts with, in
      order and to the last: reading stops only at bytes that begin no frame. */
  lemma StreamRoundTrip(data: bytes, payloads: seq<bytes>, ending: ReadResult, raises: bool)
    ensures ParseAll(data, raises) == Stream(payloads, ending)
       <==> AllReadable(payloads) && exists tail | DeadEnd(tail, ending, raises) :: data == FrameAll(payloads) + tail
  {
    var t := ReadsFrames(data, raises);
    if AllReadable(payloads) {
      forall tail | DeadEnd(tail, ending, raises) && data == FrameAll(payloads) + tail
        ensures ParseAll(data, raises) == Stream(payloads, ending)
      {
        FramesReadBack(payloads, tail, raises);
        assert payloads + [] == payloads;
      }
    }
  }

  // ---------------------------------------------------------------------
  // Reading a stream that arrives in chunks
  // ---------------------------------------------------------------------

  function Flatten(chunks: seq<bytes>): bytes {
    if chunks == [] then [] else chunks[0] + Flatten(chunks[1..])
  }

  /** The receiving side of a socket: what has yet to be received, in the chunks
      it will come in, and what a receive does once there is nothing left. */
  class ByteReceiveStream {
    var chunks: seq<bytes>
    const raises: bool

    constructor (chunks: seq<bytes>, raises: bool)
      requires forall c | c in chunks :: c != []
      ensures Valid() && this.chunks == chunks && this.raises == raises
    {
      this.chunks := chunks;
      this.raises := raises;
    }

    ghost predicate Valid()
      reads this
    {
      forall c | c in chunks :: c != []
    }

    ghost function Content(): bytes
      reads this
    {
      Flatten(chunks)
    }

    /** At most `maxBytes` bytes of the next chunk; nothing, or an exception, at the end. */
    method Receive(maxBytes: nat) returns (ended: bool, chunk: bytes)
      requires Valid() && maxBytes > 0
      modifies this
      ensures Valid()
      ensures old(Content()) == chunk + Content()
      ensures |chunk| <= maxBytes
      ensures chunk == [] <==> old(Content()) == []
      ensures ended <==> raises && old(Content()) == []
    {
      if chunks == [] { return raises, []; }
      ended := false;
      chunk := chunks[0];
      assert chunk in chunks && forall c | c in chunks[1..] :: c in chunks;
      if |chunk| <= maxBytes {
        chunks := chunks[1..];
      } else {
        var kept := chunk[maxBytes..];
        chunk := chunk[..maxBytes];
        assert chunks[0] == chunk + kept;
        chunks := [kept] + chunks[1..];
        assert chunks[1..] == old(chunks)[1..];
      }
    }
  }

  /** Joins chunks until it has the bytes it was asked for. */
  method ReadExact(stream: ByteReceiveStream, numBytes: nat) returns (r: ReadResult)
    requires stream.Valid()
    modifies stream
    ensures stream.Valid()
    ensures Parsed(r, stream.Content()) == TakeExact(old(stream.Content()), numBytes, stream.raises)
  {
    ghost var all := stream.Content();
    var joined: bytes := [];
    var bytesRemaining := numBytes;
    while bytesRemaining > 0
      invariant stream.Valid()
      invariant bytesRemaining == numBytes - |joined| >= 0
      invariant all == joined + stream.Content()
    {
      var ended, chunk := stream.Receive(bytesRemaining);
      if ended {
        assert all == joined;
        return EndOfStream;
      }
      if chunk == [] {
        assert all == joined;
        return Short(numBytes, numBytes - bytesRemaining);
      }
      joined := joined + chunk;
      bytesRemaining := bytesRemaining - |chunk|;
    }
    assert all[..numBytes] == joined && all[numBytes..] == stream.Content();
    r := Read(joined);
  }

  /** The outcome depends on the bytes alone, however they are chunked. */
  method ReadFramedMessage(stream: ByteReceiveStream) returns (r: ReadResult)
    requires stream.Valid()
    modifies stream
    ensures stream.Valid()
    ensures Parsed(r, stream.Content()) == ParseFrame(old(stream.Content()), stream.raises)
  {
    var prefix := ReadExact(stream, PREFIX_SIZE);
    if !prefix.Read? { return prefix; }
    var length := UnpackLength(prefix.data);
    if length > MAX_MESSAGE_SIZE { return TooLong(length); }
    r := ReadExact(stream, length);
  }

  /** What reading comes to, with these payloads read and these bytes to go. */
  function Gathered(payloads: seq<bytes>, data: bytes, raises: bool): Stream {
    Stream(payloads + ParseAll(data, raises).payloads, ParseAll(data, raises).ending)
  }

  lemma GatheredOn(payloads: seq<bytes>, data: bytes, raises: bool)
    ensures var first := ParseFrame(data, raises);
            if first.result.Read?
            then |first.rest| < |data| && Gathered(payloads, data, raises) == Gathered(payloads + [first.result.data], first.rest, raises)
            else Gathered(payloads, data, raises) == Stream(payloads, first.result)
  {
    var first := ParseFrame(data, raises);
    if first.result.Read? {
      var others := ParseAll(first.rest, raises).payloads;
      assert payloads + ([first.result.data] + others) == (payloads + [first.result.data]) + others;
    } else {
      assert payloads + [] == payloads;
    }
  }

  /** Reads messages until reading fails, as the reader does: what it gets is what
      the bytes parse as, however they are chunked. */
  method ReadStream(stream: ByteReceiveStream) returns (payloads: seq<bytes>, ending: ReadResult)
    requires stream.Valid()
    modifies stream
    ensures stream.Valid()
    ensures Stream(payloads, ending) == ParseAll(old(stream.Content()), stream.raises)
  {
    ghost var data := stream.Content();
    ghost var all := Gathered([], data, stream.raises);
    payloads := [];
    ending := ReadFramedMessage(stream);
    while ending.Read?
      invariant stream.Valid()
      invariant Parsed(ending, stream.Content()) == ParseFrame(data, stream.raises)
      invariant all == Gathered(payloads, data, stream.raises)
      decreases |data|
    {
      GatheredOn(payloads, data, stream.raises);
      payloads := payloads + [ending.data];
      data := stream.Content();
      ending := ReadFramedMessage(stream);
    }
    GatheredOn(payloads, data, stream.raises);
  }

  /** The frames of some payloads, sent in any chunks whatever, are read back as
      those payloads, in order and none besides. */
  method AnyChunkingReadsBack(chunks: seq<bytes>, ghost sent: seq<bytes>, raises: bool)
    returns (payloads: seq<bytes>, ending: ReadResult)
    requires (forall c | c in chunks :: c != []) && AllReadable(sent) && Flatten(chunks) == FrameAll(sent)
    ensures payloads == sent && ending == if raises then EndOfStream else Short(PREFIX_SIZE, 0)
  {
    var stream := new ByteReceiveStream(chunks, raises);
    payloads, ending := ReadStream(stream);
    FramesReadBack(sent, [], raises);
    assert FrameAll(sent) + [] == FrameAll(sent) && sent + [] == sent;
  }
}
