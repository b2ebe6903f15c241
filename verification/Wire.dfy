/** Senders sharing one connection through a write lock.

    One connection, that is: each new one has a new stream, and starts afresh.

    A sender that holds the lock hands its frame to the transport, which writes
    it piece by piece; the others wait. Any sender may be next to get the lock. */
module Wire {
  import opened Framing

  datatype State = State(
    locked: bool,
    left: bytes,            // what the holder still has to write
    wire: bytes,            // everything written so far
    taken: seq<bytes>,      // payloads, in the order their senders got the lock
    cut: bool)              // some sender let go of the lock mid-frame

  datatype Event =
    | Acquire(payload: bytes)
    | Write(count: nat)
    | Release
    | Abort                 // the holder is cancelled, or its write fails

  const START := State(false, [], [], [], false)

  predicate Enabled(s: State, e: Event) {
    match e
    case Acquire(_) => !s.locked
    case Write(n) => s.locked && 0 < n <= |s.left|
    case Release => s.locked && s.left == []
    case Abort => s.locked
  }

  /** Encoding happens under the lock; a payload that cannot be packed raises there. */
  function Next(s: State, e: Event): State
    requires Enabled(s, e)
  {
    match e
    case Acquire(p) =>
      (match EncodeWithLengthPrefix(p)
       case Framed(frame) => s.(locked := true, left := frame, taken := s.taken + [p])
       case Unpackable => s)
    case Write(n) => s.(left := s.left[n..], wire := s.wire + s.left[..n])
    case Release => s.(locked := false)
    case Abort => s.(locked := false, left := [], cut := s.cut || s.left != [])
  }

  ghost predicate Legal(s: State, es: seq<Event>)
    decreases es
  {
    es == [] || (Enabled(s, es[0]) && Legal(Next(s, es[0]), es[1..]))
  }

  ghost function Exec(s: State, es: seq<Event>): State
    requires Legal(s, es)
    decreases es
  {
    if es == [] then s else Exec(Next(s, es[0]), es[1..])
  }

  // ---------------------------------------------------------------------
  // Whole frames
  // ---------------------------------------------------------------------

  /** The payloads whose frames have been written to the last byte. */
  function Written(s: State): seq<bytes> {
    if s.left == [] || s.taken == [] then s.taken else s.taken[..|s.taken| - 1]
  }

  ghost predicate Inv(s: State) {
    && (!s.locked ==> s.left == [])
    && (s.left != [] ==> s.taken != [])
    && (!s.cut && AllReadable(s.taken) ==> s.wire + s.left == FrameAll(s.taken))
    && (s.left != [] ==> |s.left| <= PREFIX_SIZE + |s.taken[|s.taken| - 1]|)
  }

  lemma {:induction false} FrameAllSnoc(payloads: seq<bytes>, p: bytes)
    requires AllReadable(payloads) && Readable(p)
    ensures AllReadable(payloads + [p])
    ensures FrameAll(payloads + [p]) == FrameAll(payloads) + Frame(p)
    decreases |payloads|
  {
    if payloads == [] {
      assert [p][1..] == [];
      assert FrameAll([p]) == Frame(p) + FrameAll([]);
    } else {
      FrameAllSnoc(payloads[1..], p);
      assert (payloads + [p])[1..] == payloads[1..] + [p];
      assert (payloads + [p])[0] == payloads[0];
    }
  }

  lemma StepInv(s: State, e: Event)
    requires Enabled(s, e) && Inv(s)
    ensures Inv(Next(s, e))
  {
    match e
    case Acquire(p) =>
      if !s.cut && AllReadable(s.taken + [p]) {
        assert AllReadable(s.taken) by {
          forall q | q in s.taken ensures Readable(q) { assert q in s.taken + [p]; }
        }
        assert p in s.taken + [p];
        FrameAllSnoc(s.taken, p);
        assert s.wire + [] == s.wire;
      }
    case Write(n) =>
      assert s.left == s.left[..n] + s.left[n..];
      assert (s.wire + s.left[..n]) + s.left[n..] == s.wire + s.left;
    case Release =>
    case Abort =>
      if s.left == [] { assert s.wire + [] == s.wire + s.left; }
  }

  lemma {:induction false} RunInv(s: State, es: seq<Event>)
    requires Legal(s, es) && Inv(s)
    ensures Inv(Exec(s, es))
    decreases es
  {
    if es != [] {
      StepInv(s, es[0]);
      RunInv(Next(s, es[0]), es[1..]);
    }
  }

  /** A prefix of a run of frames that stops inside the last one. */
  lemma StopsInside(wire: bytes, left: bytes, done: seq<bytes>, last: bytes) returns (part: bytes)
    requires AllReadable(done) && Readable(last)
    requires wire + left == FrameAll(done) + Frame(last) && 0 < |left| <= |Frame(last)|
    ensures wire == FrameAll(done) + part && part < Frame(last)
  {
    var k := |FrameAll(done)|;
    var both := wire + left;
    part := wire[k..];
    assert wire[..k] == both[..k] == FrameAll(done);
    assert part + left == both[k..] == Frame(last);
  }

  lemma ReadsUpTo(done: seq<bytes>, part: bytes, raises: bool)
    requires AllReadable(done) && (part == [] || CutShort(part))
    ensures ParseAll(FrameAll(done) + part, raises).payloads == done
  {
    FailsExactly(part, raises);
    FramesReadBack(done, part, raises);
    assert ParseAll(part, raises).payloads == [];
    assert done + [] == done;
  }

  /** For every interleaving of senders of which none is cut short mid-frame,
      what has been written parses as the payloads in the order their senders
      got the lock, short of the one being written: frames stay whole. */
  lemma FramesStayWhole(es: seq<Event>, raises: bool)
    requires Legal(START, es)
    requires var s := Exec(START, es); !s.cut && AllReadable(s.taken)
    ensures var s := Exec(START, es);
            && ParseAll(s.wire, raises).payloads == Written(s)
            && (!s.locked ==> Written(s) == s.taken)
  {
    var s := Exec(START, es);
    RunInv(START, es);
    if s.left == [] {
      assert s.wire == s.wire + s.left == FrameAll(s.taken) + [];
      ReadsUpTo(s.taken, [], raises);
    } else {
      var last := s.taken[|s.taken| - 1];
      var done := Written(s);
      assert s.taken == done + [last];
      assert last in s.taken && forall p | p in done :: p in s.taken;
      FrameAllSnoc(done, last);
      var part := StopsInside(s.wire, s.left, done, last);
      ReadsUpTo(done, part, raises);
    }
  }

  /** How long the frames of some payloads are, readable or not. */
  function Total(payloads: seq<bytes>): nat {
    if payloads == [] then 0
    else Total(payloads[..|payloads| - 1]) + PREFIX_SIZE + |payloads[|payloads| - 1]|
  }

  /** Nothing is written but frames, and once one is cut short some of it is
      missing for good. */
  ghost predicate Accounted(s: State) {
    && (!s.locked ==> s.left == [])
    && (if s.cut then |s.wire| + |s.left| < Total(s.taken) else |s.wire| + |s.left| == Total(s.taken))
  }

  lemma {:induction false} RunAccounted(s: State, es: seq<Event>)
    requires Legal(s, es) && Accounted(s)
    ensures Accounted(Exec(s, es))
    decreases es
  {
    if es != [] {
      var s' := Next(s, es[0]);
      if es[0].Acquire? && s' != s { assert s'.taken[..|s'.taken| - 1] == s.taken; }
      RunAccounted(s', es[1..]);
    }
  }

  lemma {:induction false} TotalIsLength(payloads: seq<bytes>)
    requires AllReadable(payloads)
    ensures |FrameAll(payloads)| == Total(payloads)
  {
    if payloads != [] {
      var most, last := payloads[..|payloads| - 1], payloads[|payloads| - 1];
      assert payloads == most + [last] && last in payloads && forall p | p in most :: p in payloads;
      TotalIsLength(most);
      FrameAllSnoc(most, last);
    }
  }

  /** Whenever the lock is free, the wire parses as exactly the payloads taken, in
      the order their senders got the lock, if and only if no sender was cut
      short mid-frame and none of them took a payload above the reader's limit. */
  lemma FramesStayWholeIff(es: seq<Event>, raises: bool)
    requires Legal(START, es) && !Exec(START, es).locked
    ensures var s := Exec(START, es);
            ParseAll(s.wire, raises).payloads == s.taken <==> !s.cut && AllReadable(s.taken)
  {
    var s := Exec(START, es);
    if !s.cut && AllReadable(s.taken) { FramesStayWhole(es, raises); }
    if ParseAll(s.wire, raises).payloads == s.taken {
      var tail := ReadsFrames(s.wire, raises);
      RunAccounted(START, es);
      TotalIsLength(s.taken);
    }
  }

  lemma Run(s: State, e: Event, es: seq<Event>)
    requires Enabled(s, e) && Legal(Next(s, e), es)
    ensures Legal(s, [e] + es) && Exec(s, [e] + es) == Exec(Next(s, e), es)
  {
    assert ([e] + es)[1..] == es;
  }

  lemma CutFrames()
    ensures EncodeWithLengthPrefix([7]) == Framed([0, 0, 0, 1, 7])
    ensures EncodeWithLengthPrefix([]) == Framed([0, 0, 0, 0])
    ensures ParseAll([0, 0, 0, 1, 0, 0, 0, 0], true).payloads == [[0]]
  {
    var wire: bytes := [0, 0, 0, 1, 0, 0, 0, 0];
    assert wire[..4] == [0, 0, 0, 1] && wire[4..] == [0, 0, 0, 0];
    assert wire[4..][..1] == [0] && wire[4..][1..] == [0, 0, 0];
    assert ParseFrame(wire, true) == Parsed(Read([0]), [0, 0, 0]);
    assert ParseAll([0, 0, 0], true) == Stream([], EndOfStream);
  }

  const HALF_WAY: State := State(true, [7], [0, 0, 0, 1], [[7]], false)

  lemma SecondSender()
    ensures var es := [Abort] + ([Acquire([])] + ([Write(4)] + ([Release] + [])));
            Legal(HALF_WAY, es)
            && Exec(HALF_WAY, es) == State(false, [], [0, 0, 0, 1, 0, 0, 0, 0], [[7], []], true)
  {
    CutFrames();
    var s3 := Next(HALF_WAY, Abort);
    var s4 := Next(s3, Acquire([]));
    assert s4 == State(true, [0, 0, 0, 0], [0, 0, 0, 1], [[7], []], true);
    var s5 := Next(s4, Write(4));
    assert s5 == State(true, [], [0, 0, 0, 1, 0, 0, 0, 0], [[7], []], true);
    Run(s5, Release, []);
    Run(s4, Write(4), [Release] + []);
    Run(s3, Acquire([]), [Write(4)] + ([Release] + []));
    Run(HALF_WAY, Abort, [Acquire([])] + ([Write(4)] + ([Release] + [])));
  }

  /** The worst of it: a sender cut short after its length prefix leaves the next
      frame to be read as its payload, and the server reads a message that
      neither of them sent. */
  lemma CutWriteCorrupts()
    ensures var es := [Acquire([7]), Write(4), Abort, Acquire([]), Write(4), Release];
            && Legal(START, es)
            && Exec(START, es).taken == [[7], []] && Exec(START, es).cut
            && ParseAll(Exec(START, es).wire, true).payloads == [[0]]
  {
    CutFrames();
    SecondSender();
    var rest := [Abort] + ([Acquire([])] + ([Write(4)] + ([Release] + [])));
    var s1 := Next(START, Acquire([7]));
    assert s1 == State(true, [0, 0, 0, 1, 7], [], [[7]], false);
    assert Next(s1, Write(4)) == HALF_WAY;
    Run(s1, Write(4), rest);
    Run(START, Acquire([7]), [Write(4)] + rest);
    assert [Acquire([7])] + ([Write(4)] + rest)
        == [Acquire([7]), Write(4), Abort, Acquire([]), Write(4), Release];
  }
}
