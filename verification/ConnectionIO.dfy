/** server/src/net/Connection.cpp: one client socket with its two byte buffers and the channel's
    write-interest flag. The kernel is a Socket whose results are not determined by the caller. */
module ConnectionIO {
  import opened Framing
  import opened ByteBuffer
  import opened ServerDecoder

  const SEND_LIMIT: nat := 64 * 1024

  datatype SendResult = Sent(n: nat) | WouldBlock | Failed

  datatype ReadEnd = Drained | PeerClosed | ReadError

  /** What the kernel has accepted for sending, in order, and what it answered to each send. */
  class Socket {
    var accepted: Bytes
    var answers: seq<SendResult>

    constructor ()
      ensures accepted == [] && answers == []
    {
      accepted, answers := [], [];
    }

    /** send(2): takes some prefix, possibly empty, or none with an error. */
    method Send(data: Bytes) returns (r: SendResult)
      requires 0 < |data| <= SEND_LIMIT
      modifies this
      ensures answers == old(answers) + [r]
      ensures r.Sent? ==> r.n <= |data| && accepted == old(accepted) + data[..r.n]
      ensures !r.Sent? ==> accepted == old(accepted)
    {
      var n: nat;
      n :| n <= |data|;
      if * {
        accepted := accepted + data[..n];
        r := Sent(n);
      } else if * {
        r := WouldBlock;
      } else {
        r := Failed;
      }
      answers := answers + [r];
    }
  }

  predicate Stops(r: SendResult) {
    r == WouldBlock || r == Failed || r == Sent(0)
  }

  /** One send moves a prefix, no longer than the limit, from the buffer to the kernel. */
  ghost predicate Moves(accepted: Bytes, out: Bytes, r: SendResult, accepted': Bytes, out': Bytes) {
    match r
    case Sent(n) => n <= |out| && n <= SEND_LIMIT && accepted' == accepted + out[..n] && out' == out[n..]
    case _ => accepted' == accepted && out' == out
  }

  /** Bytes only move from the front of the buffer to the end of what the kernel accepted. */
  ghost predicate Drains(accepted: Bytes, out: Bytes, accepted': Bytes, out': Bytes) {
    |accepted| <= |accepted'| && accepted' + out' == accepted + out
  }

  lemma DrainsThenMoves(accepted: Bytes, out: Bytes, r: SendResult, accepted1: Bytes, out1: Bytes,
                        accepted2: Bytes, out2: Bytes)
    requires Drains(accepted, out, accepted1, out1) && Moves(accepted1, out1, r, accepted2, out2)
    ensures Drains(accepted, out, accepted2, out2)
    ensures |out2| == |out1| - if r.Sent? then r.n else 0
  {
    if r.Sent? {
      assert out1 == out1[..r.n] + out1[r.n..];
      Assoc(accepted1, out1[..r.n], out1[r.n..]);
    }
  }

  lemma ConcatNext(before: Bytes, chunks: seq<Bytes>, i: nat)
    requires i < |chunks|
    ensures before + Concat(chunks[..i + 1]) == before + Concat(chunks[..i]) + chunks[i]
  {
    assert chunks[..i + 1] == chunks[..i] + [chunks[i]];
    ConcatSnoc(chunks[..i], chunks[i]);
  }

  class Connection {
    const input: Buffer
    const output: Buffer
    var writing: bool

    ghost predicate Valid()
      reads this, input, output
    {
      input != output && input.data != output.data && input.Valid() && output.Valid()
    }

    constructor ()
      ensures Valid() && fresh(input) && fresh(output) && fresh(input.data) && fresh(output.data)
      ensures input.Contents() == [] && output.Contents() == [] && !writing
    {
      input := new Buffer(1024);
      output := new Buffer(1024);
      writing := false;
    }

    /** Called under out_mutex: queues the bytes and asks for EPOLLOUT. */
    method WriteData(data: Bytes)
      requires Valid()
      modifies this, output, output.data
      ensures Valid() && (output.data == old(output.data) || fresh(output.data))
      ensures output.Contents() == old(output.Contents()) + data
      ensures input.Contents() == old(input.Contents())
      ensures writing
    {
      output.Append(data);
      if !writing {
        writing := true;
      }
    }

    /** One send of at most 64 KiB from the front of the output buffer. */
    method SendOnce(socket: Socket) returns (r: SendResult)
      requires Valid() && output.Contents() != []
      modifies output, socket
      ensures Valid() && output.data == old(output.data)
      ensures Moves(old(socket.accepted), old(output.Contents()), r, socket.accepted, output.Contents())
      ensures socket.answers == old(socket.answers) + [r] && (r.Sent? ==> r.n <= 65536)
    {
      ghost var out := output.Contents();
      var toSend := output.ReadableBytes();
      if toSend > SEND_LIMIT {
        toSend := SEND_LIMIT;
      }
      var data := output.Peek(toSend);
      r := socket.Send(data);
      if r.Sent? && r.n > 0 {
        output.Retrieve(r.n);
        assert data[..r.n] == out[..r.n];
      }
    }

    /** Called under out_mutex: keeps sending until the buffer is drained or the kernel refuses. A failed
        send leaves the write interest as it was, and the caller then closes the connection. */
    method HandleWrite(socket: Socket) returns (failed: bool)
      requires Valid()
      modifies this, output, socket
      ensures Valid() && output.data == old(output.data)
      ensures Drains(old(socket.accepted), old(output.Contents()), socket.accepted, output.Contents())
      ensures input.Contents() == old(input.Contents())
      ensures old(socket.answers) <= socket.answers
      ensures output.Contents() != [] ==>
                |socket.answers| > |old(socket.answers)|
                && var last := socket.answers[|socket.answers| - 1]; last == WouldBlock || last == Failed || last == Sent(0)
      ensures failed <==> output.Contents() != [] && socket.answers[|socket.answers| - 1].Failed?
      ensures writing == (old(writing) && (failed || output.Contents() != []))
    {
      failed := false;
      if output.ReadableBytes() == 0 {
        if writing {
          writing := false;
        }
        return;
      }
      ghost var accepted, out := socket.accepted, output.Contents();
      var stop := false;
      while !stop && output.ReadableBytes() > 0
        invariant Valid() && output.data == old(output.data)
        invariant input.Contents() == old(input.Contents())
        invariant writing == old(writing)
        invariant Drains(accepted, out, socket.accepted, output.Contents())
        invariant old(socket.answers) <= socket.answers
        invariant stop ==> |socket.answers| > |old(socket.answers)| && Stops(socket.answers[|socket.answers| - 1])
        invariant stop ==> output.Contents() != []
        invariant failed <==> stop && socket.answers[|socket.answers| - 1].Failed?
        decreases output.ReadableBytes(), !stop
      {
        ghost var accepted1, out1 := socket.accepted, output.Contents();
        var r := SendOnce(socket);
        DrainsThenMoves(accepted, out, r, accepted1, out1, socket.accepted, output.Contents());
        stop := Stops(r);
        failed := r.Failed?;
      }
      if output.ReadableBytes() == 0 {
        if writing {
          writing := false;
        }
      }
    }

    /** Reads every available chunk into the input buffer, then decodes; `close` says whether the
        caller disconnects afterwards. `chunks` is what the kernel delivers before `end`. */
    method HandleRead(chunks: seq<Bytes>, end: ReadEnd)
      returns (handed: seq<Payload>, overread: bool, close: bool)
      requires Valid()
      modifies input, input.data
      ensures Valid() && (input.data == old(input.data) || fresh(input.data))
      ensures output.Contents() == old(output.Contents())
      ensures var r := Feed(Session([], old(input.Contents())), Concat(chunks));
              if overread then r == Overread
              else r == Session(handed, input.Contents())
      ensures close == (end != Drained)
    {
      ghost var before := input.Contents();
      for i := 0 to |chunks|
        invariant Valid() && (input.data == old(input.data) || fresh(input.data))
        invariant output.Contents() == old(output.Contents())
        invariant input.Contents() == before + Concat(chunks[..i])
      {
        input.Append(chunks[i]);
        ConcatNext(before, chunks, i);
      }
      assert chunks[..|chunks|] == chunks;
      handed, overread := [], false;
      if input.ReadableBytes() > 0 {
        handed, overread := OnConnectionMessage(input);
      }
      assert [] + handed == handed;
      close := end != Drained;
    }
  }
}
