/** client/src/network/network_manager.cpp: the client consumes the length first and remembers it in
    m_expectedSize until the payload has arrived; zero-length frames are skipped. */
module ClientDecoder {
  import opened Framing
  import opened ServerDecoder

  /** Length already consumed (0 when none), bytes still in the socket, payloads passed to fromJson. */
  datatype Client = Client(expected: nat, unread: Bytes, received: seq<Payload>) {
    ghost predicate Valid() {
      expected < WORD32
    }

    /** No further frame can be read from what has arrived. */
    ghost predicate Settled() {
      if expected == 0 then |unread| < 4 else |unread| < expected
    }

    /** The part of the stream not yet turned into payloads, with a consumed length put back. */
    function Pending(): Bytes
      requires Valid()
    {
      if expected == 0 then unread else Be32(expected) + unread
    }
  }

  /** What one onReadyRead does, told in terms of the reference parser. */
  function AfterReadyRead(c: Client): (r: Client)
    requires c.Valid()
    ensures r.Valid()
  {
    var got := c.received + NonEmpty(Frames(c.Pending()));
    var t := Tail(c.Pending());
    if |t| < 4 then Client(0, t, got) else Client(Announced(t), t[4..], got)
  }

  /** Taking c to d hands over the non-empty frames at the front of what c has pending. */
  ghost predicate Progress(c: Client, d: Client)
    requires c.Valid() && d.Valid()
  {
    c.received + NonEmpty(Frames(c.Pending())) == d.received + NonEmpty(Frames(d.Pending()))
    && Tail(c.Pending()) == Tail(d.Pending())
  }

  lemma ReadHeader(c: Client)
    requires c.Valid() && c.expected == 0 && |c.unread| >= 4
    ensures Progress(c, Client(Announced(c.unread), c.unread[4..], c.received))
  {
    var u := c.unread;
    var n := Announced(u);
    if n == 0 {
      assert Frames(u) == [u[4..4]] + Frames(u[4..]);
      assert NonEmpty(Frames(u)) == NonEmpty(Frames(u)[1..]);
    } else {
      BigEndianIsCanonical(u[..4]);
      assert u == u[..4] + u[4..];
    }
  }

  lemma ReadPayload(c: Client)
    requires c.Valid() && 0 < c.expected <= |c.unread|
    ensures Progress(c, Client(0, c.unread[c.expected..], c.received + [c.unread[..c.expected]]))
  {
    var p, rest := c.unread[..c.expected], c.unread[c.expected..];
    assert c.unread == p + rest;
    Assoc(Be32(c.expected), p, rest);
    assert c.Pending() == Packet(p) + rest;
    FrontFrame(p, rest);
    var fs := [p] + Frames(rest);
    assert fs[1..] == Frames(rest);
    Assoc(c.received, [p], NonEmpty(Frames(rest)));
  }

  lemma WaitForMore(c: Client)
    requires c.Valid() && c.Settled()
    ensures Frames(c.Pending()) == [] && Tail(c.Pending()) == c.Pending()
    ensures AfterReadyRead(c) == c
  {
    if c.expected > 0 {
      var s := c.Pending();
      HeaderRoundTrip(c.expected);
      assert s[..4] == Be32(c.expected) && s[4..] == c.unread;
    }
    assert c.received + [] == c.received;
  }

  lemma ProgressIsTransitive(c: Client, d: Client, e: Client)
    requires c.Valid() && d.Valid() && e.Valid()
    requires Progress(c, d) && Progress(d, e)
    ensures Progress(c, e)
  {
  }

  lemma ProgressToSettled(c: Client, d: Client)
    requires c.Valid() && d.Valid() && Progress(c, d) && d.Settled()
    ensures d == AfterReadyRead(c)
  {
    WaitForMore(d);
    assert d.received + [] == d.received;
  }

  class NetworkManager {
    var unread: Bytes
    var expectedSize: nat
    var received: seq<Payload>

    ghost predicate Valid()
      reads this
    {
      expectedSize < WORD32
    }

    ghost function View(): (c: Client)
      reads this
      requires Valid()
      ensures c.Valid()
    {
      Client(expectedSize, unread, received)
    }

    constructor ()
      ensures Valid() && View() == Client(0, [], [])
    {
      unread, expectedSize, received := [], 0, [];
    }

    /** QTcpSocket::read for bytes known to be available. */
    method Read(n: nat) returns (s: Bytes)
      requires n <= |unread|
      modifies this`unread
      ensures s == old(unread)[..n] && unread == old(unread)[n..]
    {
      s := unread[..n];
      unread := unread[n..];
    }

    method OnReadyRead()
      requires Valid()
      modifies this
      ensures Valid() && View() == AfterReadyRead(old(View()))
      ensures View().Settled()
    {
      ghost var c := View();
      while true
        invariant Valid() && Progress(c, View())
        decreases |unread|
      {
        ghost var d := View();
        if expectedSize == 0 {
          if |unread| >= 4 {
            var header := Read(4);
            ReadHeader(d);
            BigEndianIsCanonical(header);
            expectedSize := FromBigEndian(header);
            ProgressIsTransitive(c, d, View());
          } else {
            break;
          }
        }
        d := View();
        if expectedSize > 0 {
          if |unread| >= expectedSize {
            var payload := Read(expectedSize);
            ReadPayload(d);
            expectedSize := 0;
            received := received + [payload];
            ProgressIsTransitive(c, d, View());
          } else {
            break;
          }
        }
      }
      ProgressToSettled(c, View());
    }
  }

  /** A burst of bytes arrives at the socket and readyRead fires. */
  function Arrive(c: Client, chunk: Bytes): (r: Client)
    requires c.Valid()
    ensures r.Valid()
  {
    AfterReadyRead(c.(unread := c.unread + chunk))
  }

  function ArriveAll(c: Client, chunks: seq<Bytes>): (r: Client)
    requires c.Valid()
    ensures r.Valid()
    decreases |chunks|
  {
    if chunks == [] then c else ArriveAll(Arrive(c, chunks[0]), chunks[1..])
  }

  lemma PendingGrows(c: Client, chunk: Bytes)
    requires c.Valid()
    ensures c.(unread := c.unread + chunk).Pending() == c.Pending() + chunk
  {
  }

  lemma AfterReadyReadFacts(c: Client)
    requires c.Valid()
    ensures AfterReadyRead(c).received == c.received + NonEmpty(Frames(c.Pending()))
    ensures AfterReadyRead(c).Pending() == Tail(c.Pending())
    ensures AfterReadyRead(c).Settled()
  {
    var t := Tail(c.Pending());
    TailIsIncomplete(c.Pending());
    if |t| >= 4 {
      BigEndianIsCanonical(t[..4]);
      assert t == t[..4] + t[4..];
    }
  }

  lemma {:induction false} ArriveAllIsOneParse(c: Client, chunks: seq<Bytes>)
    requires c.Valid() && Frames(c.Pending()) == [] && Tail(c.Pending()) == c.Pending()
    ensures ArriveAll(c, chunks).received == c.received + NonEmpty(Frames(c.Pending() + Concat(chunks)))
    ensures ArriveAll(c, chunks).Pending() == Tail(c.Pending() + Concat(chunks))
    decreases |chunks|
  {
    if chunks == [] {
      assert c.Pending() + Concat(chunks) == c.Pending();
      assert c.received + [] == c.received;
    } else {
      var d, rest := Arrive(c, chunks[0]), Concat(chunks[1..]);
      var s := c.Pending() + chunks[0];
      PendingGrows(c, chunks[0]);
      AfterReadyReadFacts(c.(unread := c.unread + chunks[0]));
      WaitForMore(d);
      ArriveAllIsOneParse(d, chunks[1..]);
      FramesSplit(s, rest);
      NonEmptyOfConcat(Frames(s), Frames(Tail(s) + rest));
      Assoc(c.received, NonEmpty(Frames(s)), NonEmpty(Frames(Tail(s) + rest)));
      Assoc(c.Pending(), chunks[0], rest);
    }
  }

  /** The two decoders agree: for one stream, however each side's reads cut it, the client receives
      the server's payloads without the empty ones, and both hold the same incomplete frame. */
  lemma DecodersAgree(serverChunks: seq<Bytes>, clientChunks: seq<Bytes>)
    requires Concat(serverChunks) == Concat(clientChunks)
    requires Bounded(Concat(serverChunks))
    ensures var s, c := FeedAll(START, serverChunks), ArriveAll(Client(0, [], []), clientChunks);
            s.Session? && c.received == NonEmpty(s.handed) && c.Pending() == s.buffered
  {
    var c0, whole := Client(0, [], []), Concat(clientChunks);
    DecodingIgnoresChunking(serverChunks);
    ArriveAllIsOneParse(c0, clientChunks);
    assert c0.Pending() + whole == whole;
    assert c0.received + NonEmpty(Frames(whole)) == NonEmpty(Frames(whole));
  }
}
