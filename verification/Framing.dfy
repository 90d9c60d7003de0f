/** The wire format: every message is a 4-byte big-endian length followed by the payload.
    This module is the reference meaning of a byte stream, against which the packet builders,
    the server's decoder and the client's decoder are each proved. */
module Framing {
  const WORD32: nat := 0x1_0000_0000

  type byte = b: int | 0 <= b < 256

  type Bytes = seq<byte>

  type Payload = Bytes

  /** The last `width` base-256 digits of n, most significant first; htonl is width 4. */
  function ToBigEndian(n: nat, width: nat): (h: Bytes)
    ensures |h| == width
  {
    if width == 0 then [] else ToBigEndian(n / 256, width - 1) + [n % 256]
  }

  function FromBigEndian(h: Bytes): nat {
    if h == [] then 0 else FromBigEndian(h[..|h| - 1]) * 256 + h[|h| - 1]
  }

  function Pow256(k: nat): (p: nat)
    ensures p > 0
  {
    if k == 0 then 1 else 256 * Pow256(k - 1)
  }

  lemma {:induction false} BigEndianRoundTrip(n: nat, width: nat)
    requires n < Pow256(width)
    ensures FromBigEndian(ToBigEndian(n, width)) == n
  {
    if width > 0 {
      BigEndianRoundTrip(n / 256, width - 1);
      var h := ToBigEndian(n, width);
      assert h[..|h| - 1] == ToBigEndian(n / 256, width - 1);
    }
  }

  lemma LastDigit(q: nat, r: nat)
    requires r < 256
    ensures (q * 256 + r) / 256 == q && (q * 256 + r) % 256 == r
  {
  }

  lemma {:induction false} BigEndianIsCanonical(h: Bytes)
    ensures FromBigEndian(h) < Pow256(|h|)
    ensures ToBigEndian(FromBigEndian(h), |h|) == h
  {
    if h != [] {
      var front, last := h[..|h| - 1], h[|h| - 1];
      BigEndianIsCanonical(front);
      LastDigit(FromBigEndian(front), last);
      assert h == front + [last];
    }
  }

  /** htonl / qToBigEndian of a 32-bit length, as the four bytes put on the wire. */
  function Be32(n: nat): (h: Bytes)
    requires n < WORD32
    ensures |h| == 4
  {
    ToBigEndian(n, 4)
  }

  lemma HeaderRoundTrip(n: nat)
    requires n < WORD32
    ensures FromBigEndian(Be32(n)) == n
  {
    assert Pow256(4) == WORD32;
    BigEndianRoundTrip(n, 4);
  }

  lemma TwoDigits(n: nat)
    ensures n / 256 / 256 == n / 0x1_0000 && n / 256 / 256 / 256 == n / 0x100_0000
  {
  }

  /** The four bytes of a header, the most significant first. */
  lemma HeaderBytes(n: nat)
    requires n < WORD32
    ensures Be32(n) == [n / 0x100_0000, n / 0x1_0000 % 256, n / 256 % 256, n % 256]
  {
    TwoDigits(n);
    var a, b, c := n / 256, n / 256 / 256, n / 256 / 256 / 256;
    assert ToBigEndian(c, 1) == ToBigEndian(c / 256, 0) + [c % 256] == [c % 256];
    assert ToBigEndian(b, 2) == ToBigEndian(c, 1) + [b % 256];
    assert ToBigEndian(a, 3) == ToBigEndian(b, 2) + [a % 256];
    assert ToBigEndian(n, 4) == ToBigEndian(a, 3) + [n % 256];
  }

  /** What the packet builders emit: the length is truncated to 32 bits by the cast in the source. */
  function Packet(p: Payload): (w: Bytes)
    ensures |w| == 4 + |p|
  {
    Be32(|p| % WORD32) + p
  }

  function Wire(ps: seq<Payload>): Bytes {
    if ps == [] then [] else Packet(ps[0]) + Wire(ps[1..])
  }

  ghost predicate Fit(ps: seq<Payload>) {
    forall p :: p in ps ==> |p| < WORD32
  }

  /** Length announced by the header at the front of a stream. */
  function Announced(s: Bytes): (n: nat)
    requires |s| >= 4
    ensures n < WORD32
  {
    BigEndianIsCanonical(s[..4]);
    assert Pow256(4) == WORD32;
    FromBigEndian(s[..4])
  }

  predicate HasFrame(s: Bytes) {
    |s| >= 4 && |s| >= 4 + Announced(s)
  }

  /** The complete frames at the front of a stream... */
  function Frames(s: Bytes): (ps: seq<Payload>)
    decreases |s|
  {
    if !HasFrame(s) then [] else [s[4..4 + Announced(s)]] + Frames(s[4 + Announced(s)..])
  }

  /** ...and the incomplete frame left behind them. */
  function Tail(s: Bytes): (t: Bytes)
    decreases |s|
  {
    if !HasFrame(s) then s else Tail(s[4 + Announced(s)..])
  }

  lemma {:induction false} TailIsIncomplete(s: Bytes)
    ensures !HasFrame(Tail(s)) && Frames(Tail(s)) == []
    decreases |s|
  {
    if HasFrame(s) { TailIsIncomplete(s[4 + Announced(s)..]); }
  }

  lemma FrontOfStream(s: Bytes)
    requires HasFrame(s)
    ensures s == Packet(s[4..4 + Announced(s)]) + s[4 + Announced(s)..]
  {
    BigEndianIsCanonical(s[..4]);
    assert s[..4] + s[4..4 + Announced(s)] + s[4 + Announced(s)..] == s;
  }

  lemma Assoc<T>(a: seq<T>, b: seq<T>, c: seq<T>)
    ensures a + b + c == a + (b + c)
  {
  }

  lemma WireCons(p: Payload, ps: seq<Payload>)
    ensures Wire([p] + ps) == Packet(p) + Wire(ps)
  {
    assert ([p] + ps)[1..] == ps;
  }

  /** Parsing loses nothing: the stream is its frames, re-encoded, followed by its tail. */
  lemma {:induction false} StreamIsFramesThenTail(s: Bytes)
    ensures s == Wire(Frames(s)) + Tail(s)
    ensures Fit(Frames(s))
    decreases |s|
  {
    if HasFrame(s) {
      var n := Announced(s);
      var p, rest := s[4..4 + n], s[4 + n..];
      StreamIsFramesThenTail(rest);
      WireCons(p, Frames(rest));
      FrontOfStream(s);
      Assoc(Packet(p), Wire(Frames(rest)), Tail(rest));
    }
  }

  lemma {:induction false} WireSnoc(ps: seq<Payload>, p: Payload)
    ensures Wire(ps + [p]) == Wire(ps) + Packet(p)
    decreases |ps|
  {
    if ps != [] {
      WireSnoc(ps[1..], p);
      assert (ps + [p])[1..] == ps[1..] + [p];
    }
  }

  lemma FrontFirst(s: Bytes)
    ensures HasFrame(s) ==>
              Frames(s) == [s[4..4 + Announced(s)]] + Frames(s[4 + Announced(s)..]) && Tail(s) == Tail(s[4 + Announced(s)..])
  {
  }

  lemma PacketIs(p: Payload)
    requires |p| < WORD32
    ensures Packet(p) == Be32(|p|) + p
  {
    hide ToBigEndian;
  }

  lemma PacketInFront(p: Payload, s: Bytes)
    requires |p| < WORD32
    ensures var w := Packet(p) + s;
            HasFrame(w) && Announced(w) == |p| && w[4..4 + |p|] == p && w[4 + |p|..] == s
  {
    hide FromBigEndian, Be32, Packet;
    PacketIs(p);
    HeaderRoundTrip(|p|);
    assert (Packet(p) + s)[..4] == Be32(|p|);
  }

  lemma FrontFrame(p: Payload, s: Bytes)
    requires |p| < WORD32
    ensures Frames(Packet(p) + s) == [p] + Frames(s)
    ensures Tail(Packet(p) + s) == Tail(s)
  {
    hide Frames, Tail, Announced, HasFrame, Packet;
    PacketInFront(p, s);
    FrontFirst(Packet(p) + s);
  }

  lemma FrontFrameOfWire(p: Payload, w: Bytes, s: Bytes)
    requires |p| < WORD32
    ensures Frames(Packet(p) + w + s) == [p] + Frames(w + s)
    ensures Tail(Packet(p) + w + s) == Tail(w + s)
  {
    FrontFrame(p, w + s);
    Assoc(Packet(p), w, s);
  }

  /** Encoding then parsing gives the payloads back, whatever follows them on the wire. */
  lemma {:induction false} FramesOfWire(ps: seq<Payload>, s: Bytes)
    requires Fit(ps)
    ensures Frames(Wire(ps) + s) == ps + Frames(s)
    ensures Tail(Wire(ps) + s) == Tail(s)
    decreases |ps|
  {
    if ps == [] {
      assert Wire(ps) + s == s && ps + Frames(s) == Frames(s);
    } else {
      var p, rest, w := ps[0], ps[1..], Wire(ps[1..]);
      FramesOfWire(rest, s);
      FrontFrameOfWire(p, w, s);
      calc {
        Frames(Wire(ps) + s);
        Frames(Packet(p) + w + s);
        [p] + Frames(w + s);
        [p] + (rest + Frames(s));
        { Assoc([p], rest, Frames(s)); }
        [p] + rest + Frames(s);
        { assert ps == [p] + rest; }
        ps + Frames(s);
      }
    }
  }

  /** The 32-bit header is exactly the limit of one packet: longer payloads do not survive. */
  lemma PacketSurvivesIffItFits(p: Payload)
    ensures (Frames(Packet(p)) == [p] && Tail(Packet(p)) == []) <==> |p| < WORD32
  {
    var w := Packet(p);
    if |p| < WORD32 {
      FrontFrame(p, []);
      assert w + [] == w;
    } else {
      HeaderRoundTrip(|p| % WORD32);
      assert w[..4] == Be32(|p| % WORD32);
      assert Announced(w) < |p|;
      assert Frames(w)[0] == w[4..4 + Announced(w)];
      assert |Frames(w)[0]| < |p|;
    }
  }

  /** What follows does not change the frame in front. */
  lemma FrontStays(a: Bytes, b: Bytes)
    requires HasFrame(a)
    ensures HasFrame(a + b) && Announced(a + b) == Announced(a)
    ensures (a + b)[4..4 + Announced(a)] == a[4..4 + Announced(a)]
    ensures (a + b)[4 + Announced(a)..] == a[4 + Announced(a)..] + b
  {
    assert (a + b)[..4] == a[..4];
  }

  /** A stream may be parsed in two instalments, keeping the tail of the first. */
  lemma {:induction false} FramesSplit(a: Bytes, b: Bytes)
    ensures Frames(a + b) == Frames(a) + Frames(Tail(a) + b)
    ensures Tail(a + b) == Tail(Tail(a) + b)
    decreases |a|
  {
    if HasFrame(a) {
      FrontFirst(a);
      FrontFirst(a + b);
      FrontStays(a, b);
      hide Frames, Tail, Announced, HasFrame;
      var rest := a[4 + Announced(a)..];
      FramesSplit(rest, b);
      Assoc([a[4..4 + Announced(a)]], Frames(rest), Frames(Tail(rest) + b));
    }
  }

  function NonEmpty(ps: seq<Payload>): seq<Payload> {
    if ps == [] then []
    else if ps[0] == [] then NonEmpty(ps[1..])
    else [ps[0]] + NonEmpty(ps[1..])
  }

  /** Only empty payloads go. */
  lemma NonEmptyFirst(p: Payload, ps: seq<Payload>)
    ensures NonEmpty([p] + ps) == (if p == [] then [] else [p]) + NonEmpty(ps) && NonEmpty([]) == []
  {
    assert ([p] + ps)[1..] == ps;
  }

  lemma {:induction false} NonEmptyOfConcat(ps: seq<Payload>, qs: seq<Payload>)
    ensures NonEmpty(ps + qs) == NonEmpty(ps) + NonEmpty(qs)
    decreases |ps|
  {
    if ps == [] {
      assert ps + qs == qs;
    } else {
      var rest := ps[1..];
      NonEmptyOfConcat(rest, qs);
      assert (ps + qs)[1..] == rest + qs;
      if ps[0] != [] {
        Assoc([ps[0]], NonEmpty(rest), NonEmpty(qs));
      }
    }
  }

  function Concat(chunks: seq<Bytes>): Bytes {
    if chunks == [] then [] else chunks[0] + Concat(chunks[1..])
  }

  lemma {:induction false} ConcatSnoc(chunks: seq<Bytes>, c: Bytes)
    ensures Concat(chunks + [c]) == Concat(chunks) + c
    decreases |chunks|
  {
    if chunks == [] {
      assert Concat([c]) == c + Concat([]);
    } else {
      ConcatSnoc(chunks[1..], c);
      assert (chunks + [c])[1..] == chunks[1..] + [c];
    }
  }
}
