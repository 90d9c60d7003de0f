/** IMServer::onConnectionMessage: peek at the length, and consume the frame once all of it is there.
    The bound test adds 4 to the length in 32 bits, so it wraps for the four largest lengths. */
module ServerDecoder {
  import opened Framing
  import opened ByteBuffer

  const MAX_SERVER_FRAME: nat := WORD32 - 5

  /** `4 + len` as the source computes it, on uint32_t. */
  function FrameSize32(len: nat): nat {
    (4 + len) % WORD32
  }

  /** Guard under which the decoder stays inside this buffer: where the readable bytes stop short
      of a frame, the frame's announced length is one that does not wrap. */
  predicate Fits(s: Bytes)
    decreases |s|
  {
    |s| < 4 ||
    if HasFrame(s) then Fits(s[4 + Announced(s)..]) else Announced(s) <= MAX_SERVER_FRAME
  }

  /** Every length announced in the stream is at most 2^32 - 5. */
  predicate Bounded(s: Bytes)
    decreases |s|
  {
    |s| < 4 || (Announced(s) <= MAX_SERVER_FRAME && (HasFrame(s) ==> Bounded(s[4 + Announced(s)..])))
  }

  datatype Step = NeedMore | Message(message: Payload) | PastEnd

  ghost predicate Advances(s: Bytes, r: Step, rest: Bytes) {
    match r
    case NeedMore => rest == s && Frames(s) == [] && Tail(s) == s && Fits(s)
    case Message(m) => |rest| < |s| && Frames(s) == [m] + Frames(rest) && Tail(s) == Tail(rest) && (Fits(s) <==> Fits(rest))
    case PastEnd => Frames(s) == [] && !Fits(s)
  }

  lemma StepNeedMore(s: Bytes)
    requires |s| < 4 || |s| < FrameSize32(Announced(s))
    ensures Advances(s, NeedMore, s)
  {
  }

  lemma StepMessage(s: Bytes, message: Payload, rest: Bytes)
    requires |s| >= 4 && |message| == Announced(s) && s[4..] == message + rest
    ensures Advances(s, Message(message), rest)
  {
    assert s[4..4 + |message|] == message;
    assert s[4 + |message|..] == rest;
  }

  lemma StepPastEnd(s: Bytes, rest: Bytes)
    requires |s| >= 4 && FrameSize32(Announced(s)) <= |s| < 4 + Announced(s)
    ensures Advances(s, PastEnd, rest)
  {
  }

  /** One round of the loop: the peeked length, the wrapped test, then the two reads. `PastEnd` is the
      state in which the source calls readAsString for more than is readable. */
  method NextMessage(input: Buffer) returns (r: Step)
    requires input.Valid()
    modifies input
    ensures input.Valid() && input.data == old(input.data)
    ensures Advances(old(input.Contents()), r, input.Contents())
  {
    ghost var s := input.Contents();
    if input.ReadableBytes() < 4 {
      StepNeedMore(s);
      return NeedMore;
    }
    var header := input.Peek(4);
    var len := FromBigEndian(header);
    if input.ReadableBytes() < FrameSize32(len) {
      StepNeedMore(s);
      return NeedMore;
    }
    input.Retrieve(4);
    if input.ReadableBytes() < len {
      StepPastEnd(s, input.Contents());
      return PastEnd;
    }
    var message := input.ReadAsString(len);
    StepMessage(s, message, input.Contents());
    return Message(message);
  }

  /** Hands over every complete frame and keeps the incomplete one; nothing is modelled beyond an overread. */
  method OnConnectionMessage(input: Buffer) returns (handed: seq<Payload>, overread: bool)
    requires input.Valid()
    modifies input
    ensures input.Valid() && input.data == old(input.data)
    ensures overread <==> !Fits(old(input.Contents()))
    ensures handed == Frames(old(input.Contents()))
    ensures !overread ==> input.Contents() == Tail(old(input.Contents()))
  {
    handed := [];
    ghost var s, now := input.Contents(), input.Contents();
    while true
      invariant input.Valid() && input.data == old(input.data) && now == input.Contents()
      invariant Frames(s) == handed + Frames(now) && Tail(s) == Tail(now) && (Fits(s) <==> Fits(now))
      decreases |now|
    {
      var r := NextMessage(input);
      if r.Message? {
        Assoc(handed, [r.message], Frames(input.Contents()));
        handed := handed + [r.message];
        now := input.Contents();
      } else {
        return handed, r.PastEnd?;
      }
    }
  }

  /** One connection's decoding so far: what was handed over, and what the input buffer holds. */
  datatype Session = Session(handed: seq<Payload>, buffered: Bytes) | Overread

  const START := Session([], [])

  /** A burst of bytes is appended to the input buffer and decoded. */
  function Feed(s: Session, chunk: Bytes): Session {
    if s.Overread? then Overread
    else
      var input := s.buffered + chunk;
      if Fits(input) then Session(s.handed + Frames(input), Tail(input)) else Overread
  }

  function FeedAll(s: Session, chunks: seq<Bytes>): Session
    decreases |chunks|
  {
    if chunks == [] then s else FeedAll(Feed(s, chunks[0]), chunks[1..])
  }

  lemma {:induction false} BoundedFits(s: Bytes)
    requires Bounded(s)
    ensures Fits(s)
    decreases |s|
  {
    if HasFrame(s) { BoundedFits(s[4 + Announced(s)..]); }
  }

  lemma {:induction false} BoundedSplit(a: Bytes, b: Bytes)
    requires Bounded(a + b)
    ensures Bounded(a) && Bounded(Tail(a) + b)
    decreases |a|
  {
    if |a| >= 4 {
      assert (a + b)[..4] == a[..4];
      if HasFrame(a) {
        var n := Announced(a);
        assert (a + b)[4 + n..] == a[4 + n..] + b;
        BoundedSplit(a[4 + n..], b);
      }
    }
  }

  lemma {:induction false} FeedAllIsOneParse(h: seq<Payload>, t: Bytes, chunks: seq<Bytes>)
    requires Bounded(t + Concat(chunks))
    requires !HasFrame(t)
    ensures FeedAll(Session(h, t), chunks)
         == Session(h + Frames(t + Concat(chunks)), Tail(t + Concat(chunks)))
    decreases |chunks|
  {
    if chunks == [] {
      assert t + Concat(chunks) == t && h + [] == h;
    } else {
      var input, rest := t + chunks[0], Concat(chunks[1..]);
      assert t + Concat(chunks) == input + rest;
      BoundedSplit(input, rest);
      BoundedFits(input);
      TailIsIncomplete(input);
      FeedAllIsOneParse(h + Frames(input), Tail(input), chunks[1..]);
      FramesSplit(input, rest);
      Assoc(h, Frames(input), Frames(Tail(input) + rest));
    }
  }

  /** However the stream is cut into reads, the same payloads are handed over in the same order and
      exactly the trailing incomplete frame stays buffered. */
  lemma DecodingIgnoresChunking(chunks: seq<Bytes>)
    requires Bounded(Concat(chunks))
    ensures FeedAll(START, chunks) == Session(Frames(Concat(chunks)), Tail(Concat(chunks)))
  {
    assert [] + Concat(chunks) == Concat(chunks);
    FeedAllIsOneParse([], [], chunks);
  }

  /** An unbounded length can be met with only its header received: the cut that overreads. */
  lemma {:induction false} UnboundedHeader(s: Bytes) returns (k: nat)
    requires !Bounded(s)
    ensures k <= |s| && !Fits(s[..k])
    decreases |s|
  {
    var n := Announced(s);
    if n > MAX_SERVER_FRAME {
      k := 4;
      assert s[..4][..4] == s[..4];
    } else {
      var k' := UnboundedHeader(s[4 + n..]);
      k := 4 + n + k';
      var cut := s[..k];
      assert cut[..4] == s[..4];
      assert cut[4 + n..] == s[4 + n..][..k'];
    }
  }

  lemma OverreadStays(chunks: seq<Bytes>)
    ensures FeedAll(Overread, chunks) == Overread
    decreases |chunks|
  {
  }

  ghost predicate SafeForEverySplit(s: Bytes) {
    forall chunks :: Concat(chunks) == s ==> FeedAll(START, chunks) != Overread
  }

  /** Lengths of at most 2^32 - 5 are exactly what keeps the decoder inside its buffer under every split. */
  lemma SafeIffBounded(s: Bytes)
    ensures SafeForEverySplit(s) <==> Bounded(s)
  {
    if Bounded(s) {
      forall chunks | Concat(chunks) == s
        ensures FeedAll(START, chunks) != Overread
      {
        DecodingIgnoresChunking(chunks);
      }
    } else {
      var k := UnboundedHeader(s);
      var chunks: seq<Bytes> := [s[..k], s[k..]];
      assert chunks[1..] == [s[k..]];
      assert Concat(chunks[1..]) == s[k..] + [] && Concat(chunks) == s;
      assert [] + s[..k] == s[..k];
      assert Feed(START, s[..k]) == Overread;
      OverreadStays(chunks[1..]);
      assert FeedAll(START, chunks) == Overread;
    }
  }

  const LARGEST_HEADER: Bytes := [255, 255, 255, 255]

  /** Four bytes 255 announce 2^32 - 1; the sum is then 3, and the decoder reads past its buffer. */
  lemma LargestHeaderOverreads()
    ensures Announced(LARGEST_HEADER) == WORD32 - 1 && FrameSize32(Announced(LARGEST_HEADER)) == 3
    ensures FeedAll(START, [LARGEST_HEADER]) == Overread
  {
    var s := LARGEST_HEADER;
    assert s[..4] == s;
    assert s[..3] == [255, 255, 255] && s[..3][..2] == [255, 255] && s[..3][..2][..1] == [255];
    assert [255][..0] == [];
    assert FromBigEndian([]) == 0;
    assert FromBigEndian(s[..3][..2][..1]) == 255;
    assert FromBigEndian(s[..3][..2]) == 255 * 256 + 255;
    assert FromBigEndian(s[..3]) == (255 * 256 + 255) * 256 + 255;
    assert FromBigEndian(s) == WORD32 - 1;
    assert [] + s == s && [LARGEST_HEADER][1..] == [];
    assert !Fits(s);
  }

  ghost predicate FitServer(ps: seq<Payload>) {
    forall p :: p in ps ==> |p| <= MAX_SERVER_FRAME
  }

  lemma FrontPacketBounded(p: Payload, s: Bytes)
    requires |p| <= MAX_SERVER_FRAME
    ensures Bounded(Packet(p) + s) <==> Bounded(s)
  {
    var w := Packet(p) + s;
    HeaderRoundTrip(|p|);
    assert w[..4] == Be32(|p|);
    assert w[4 + |p|..] == s;
  }

  lemma {:induction false} WireBounded(ps: seq<Payload>)
    requires FitServer(ps)
    ensures Bounded(Wire(ps))
    decreases |ps|
  {
    if ps != [] {
      WireBounded(ps[1..]);
      FrontPacketBounded(ps[0], Wire(ps[1..]));
    }
  }

  /** What clients send is what the server hands over: any packets of at most 2^32 - 5 payload bytes,
      cut into reads in any way, come out complete, in order, with nothing left over. */
  lemma ServerReceivesWhatWasSent(ps: seq<Payload>, chunks: seq<Bytes>)
    requires FitServer(ps) && Concat(chunks) == Wire(ps)
    ensures FeedAll(START, chunks) == Session(ps, [])
  {
    WireBounded(ps);
    DecodingIgnoresChunking(chunks);
    FramesOfWire(ps, []);
    assert Wire(ps) + [] == Wire(ps) && ps + Frames([]) == ps;
  }
}
