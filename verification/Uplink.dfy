/** The other direction: the client's sendMessage, the network, and the server's reads and decoding, as
    interleaved steps. */
module Uplink {
  import opened Framing
  import opened ServerDecoder

  /** `sent` records every payload sent, `chunks` what each handleRead has found in the socket. */
  datatype State = State(sent: seq<Payload>, flight: Bytes, chunks: seq<Bytes>, session: Session)

  const INIT := State([], [], [], START)

  datatype Action =
    | SendMessage(p: Payload)  // NetworkManager::sendMessage
    | HandleRead(n: nat)       // handleRead: the next n bytes have arrived, all are read and decoded

  ghost predicate Enabled(s: State, a: Action) {
    match a
    case SendMessage(p) => |p| <= MAX_SERVER_FRAME
    case HandleRead(n) => n <= |s.flight|
  }

  ghost function Next(s: State, a: Action): State
    requires Enabled(s, a)
  {
    match a
    case SendMessage(p) => s.(sent := s.sent + [p], flight := s.flight + Packet(p))
    case HandleRead(n) =>
      s.(flight := s.flight[n..], chunks := s.chunks + [s.flight[..n]], session := Feed(s.session, s.flight[..n]))
  }

  ghost predicate Reaches(s: State, run: seq<Action>, t: State)
    decreases |run|
  {
    if run == [] then s == t else Enabled(s, run[0]) && Reaches(Next(s, run[0]), run[1..], t)
  }

  ghost predicate Inv(s: State) {
    FitServer(s.sent) && Concat(s.chunks) + s.flight == Wire(s.sent) && s.session == FeedAll(START, s.chunks)
  }

  lemma {:induction false} FeedSnoc(s: Session, chunks: seq<Bytes>, c: Bytes)
    ensures FeedAll(s, chunks + [c]) == Feed(FeedAll(s, chunks), c)
    decreases |chunks|
  {
    if chunks == [] {
      assert (chunks + [c])[1..] == [];
    } else {
      FeedSnoc(Feed(s, chunks[0]), chunks[1..], c);
      assert (chunks + [c])[1..] == chunks[1..] + [c];
    }
  }

  lemma StepPreserves(s: State, a: Action)
    requires Inv(s) && Enabled(s, a)
    ensures Inv(Next(s, a))
  {
    hide Packet, Feed, FeedAll, Wire;
    match a
    case SendMessage(p) =>
      WireSnoc(s.sent, p);
      Assoc(Concat(s.chunks), s.flight, Packet(p));
    case HandleRead(n) =>
      var c := s.flight[..n];
      FeedSnoc(START, s.chunks, c);
      ConcatSnoc(s.chunks, c);
      assert s.flight == c + s.flight[n..];
      Assoc(Concat(s.chunks), c, s.flight[n..]);
  }

  lemma {:induction false} RunPreserves(s: State, run: seq<Action>, t: State)
    requires Inv(s) && Reaches(s, run, t)
    ensures Inv(t)
    decreases |run|
  {
    hide Inv, Next;
    if run != [] {
      StepPreserves(s, run[0]);
      RunPreserves(Next(s, run[0]), run[1..], t);
    }
  }

  /** Whatever the interleaving and however the network cuts the stream: the server never reads past its
      buffer, what it has handed over followed by the decoding of what it holds and what is under way is
      what was sent, in order, and once nothing is under way it has handed over everything. */
  lemma EndToEndDelivery(run: seq<Action>, t: State)
    requires Reaches(INIT, run, t)
    ensures t.session.Session?
    ensures t.session.handed + Frames(t.session.buffered + t.flight) == t.sent
    ensures t.flight == [] ==> t.session == Session(t.sent, [])
  {
    RunPreserves(INIT, run, t);
    hide Reaches, Wire, FeedAll;
    var whole := Concat(t.chunks);
    WireBounded(t.sent);
    BoundedSplit(whole, t.flight);
    DecodingIgnoresChunking(t.chunks);
    FramesSplit(whole, t.flight);
    FramesOfWire(t.sent, []);
    assert Wire(t.sent) + [] == Wire(t.sent) && t.sent + Frames([]) == t.sent;
    if t.flight == [] {
      assert whole + t.flight == whole;
    }
  }

  /** The payloads that the client sends in a run. */
  ghost function SentIn(run: seq<Action>): seq<Payload> {
    if run == [] then []
    else (match run[0] case SendMessage(p) => [p] case HandleRead(_) => []) + SentIn(run[1..])
  }

  lemma {:induction false} SentIsRecorded(s: State, run: seq<Action>, t: State)
    requires Reaches(s, run, t)
    ensures t.sent == s.sent + SentIn(run)
    decreases |run|
  {
    if run == [] {
      assert s.sent + [] == s.sent;
    } else {
      SentIsRecorded(Next(s, run[0]), run[1..], t);
      hide Packet, Feed;
      match run[0]
      case SendMessage(p) => Assoc(s.sent, [p], SentIn(run[1..]));
      case HandleRead(_) => assert [] + SentIn(run[1..]) == SentIn(run[1..]);
    }
  }

  lemma {:induction false} ReachesThen(s: State, run: seq<Action>, t: State, run': seq<Action>, u: State)
    requires Reaches(s, run, t) && Reaches(t, run', u)
    ensures Reaches(s, run + run', u)
    decreases |run|
  {
    hide Enabled, Next;
    if run == [] {
      assert run + run' == run';
    } else {
      ReachesThen(Next(s, run[0]), run[1..], t, run', u);
      assert (run + run')[1..] == run[1..] + run';
    }
  }

  lemma {:induction false} SentOfMore(run: seq<Action>, p: Payload, n: nat)
    ensures SentIn(run + [SendMessage(p), HandleRead(n)]) == SentIn(run) + [p]
    decreases |run|
  {
    var more := [SendMessage(p), HandleRead(n)];
    if run == [] {
      assert run + more == more && more[1..] == [HandleRead(n)] && more[1..][1..] == [];
      assert SentIn([HandleRead(n)]) == [];
    } else {
      SentOfMore(run[1..], p, n);
      assert (run + more)[1..] == run[1..] + more;
    }
  }

  /** After any run the client can send another payload of up to 2^32 - 5 bytes, and one read of all that
      is under way then leaves the server with exactly what the run sent, and that payload. */
  lemma AnotherArrives(run: seq<Action>, t: State, p: Payload) returns (n: nat, u: State)
    requires Reaches(INIT, run, t) && |p| <= 0xFFFF_FFFB
    ensures Reaches(INIT, run + [SendMessage(p), HandleRead(n)], u)
    ensures u.session == Session(SentIn(run) + [p], []) && u.flight == []
  {
    var t1 := Next(t, SendMessage(p));
    n := |t1.flight|;
    u := Next(t1, HandleRead(n));
    var more := [SendMessage(p), HandleRead(n)];
    assert more[1..] == [HandleRead(n)] && more[1..][1..] == [];
    assert Reaches(u, [], u);
    assert Reaches(t1, [HandleRead(n)], u);
    assert Reaches(t, more, u);
    hide Enabled, Next, Reaches, Packet, Feed;
    ReachesThen(INIT, run, t, more, u);
    EndToEndDelivery(run + more, u);
    SentIsRecorded(INIT, run + more, u);
    SentOfMore(run, p, n);
    assert [] + SentIn(run + more) == SentIn(run + more);
  }
}
