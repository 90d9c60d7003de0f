/** What has been queued for each connection: its output_buffer, by the number of the Connection. */
module OutputBuffers {
  import opened Framing
  import opened TimerManagement
  import opened ServerState
  import opened Broadcasts
  import opened ServerFacts

  const MAX_MESSAGE: nat := WORD32 - 5   // beyond it 4 + len wraps in 32 bits

  /** What is left of a text whose length is passed on as a uint32_t. */
  function Cut(message: Bytes): Bytes {
    message[..|message| % WORD32]
  }

  /** With this text broadcastMessage makes a vector shorter than what it copies into it. */
  predicate Overruns(message: Bytes) {
    |message| % WORD32 > MAX_MESSAGE
  }

  /** A text short enough is neither cut nor overruns, and its packet is one frame with all of it. */
  lemma OrdinaryText(message: Bytes)
    requires |message| <= 0xFFFF_FFFB
    ensures !Overruns(message) && Cut(message) == message
    ensures Frames(Packet(message)) == [message] && Tail(Packet(message)) == []
  {
    assert message[..|message|] == message;
    assert Packet(message) == Wire([message]) + [];
    hide Frames, Tail, Packet;
    FramesOfWire([message], []);
    assert [message] + [] == [message];
  }

  type Outputs = map<ConnId, Bytes>

  function Queued(outputs: Outputs, c: ConnId): Bytes {
    if c in outputs then outputs[c] else []
  }

  function AddedIf(b: bool, bytes: Bytes, more: Bytes): Bytes {
    if b then bytes + more else bytes
  }

  /** Connection::write_data, whose own contract is ConnectionIO.Connection.WriteData. */
  function Write(outputs: Outputs, c: ConnId, data: Bytes): Outputs {
    outputs[c := Queued(outputs, c) + data]
  }

  /** The clause of broadcastMessage, read off the maps themselves. */
  lemma GainsExactly(s: Server, senderFd: Fd, message: Bytes, before: Outputs, outputs: Outputs)
    requires Inv(s) && |message| <= 0xFFFF_FFFB
    requires forall c :: Queued(outputs, c) ==
               AddedIf(Registered(s, c) && s.live[c] != senderFd, Queued(before, c), Packet(Cut(message)))
    ensures forall c ::
              (if c in outputs then outputs[c] else []) ==
              (if c in before then before[c] else [])
              + if Registered(s, c) && s.live[c] != senderFd then Packet(message) else []
  {
    hide Packet, Inv;
    OrdinaryText(message);
    forall c
      ensures (if c in outputs then outputs[c] else []) ==
              (if c in before then before[c] else [])
              + if Registered(s, c) && s.live[c] != senderFd then Packet(message) else []
    {
      assert Queued(outputs, c) == AddedIf(Registered(s, c) && s.live[c] != senderFd, Queued(before, c), Packet(Cut(message)));
      assert Queued(before, c) + [] == Queued(before, c);
    }
  }

  /** And those of a login. */
  lemma LoginGains(s: Server, conn: ConnId, own: Bytes, joined: Bytes, before: Outputs, outputs: Outputs)
    requires |joined| <= 0xFFFF_FFFB
    requires forall c :: Queued(outputs, c) ==
               if c == conn then Queued(before, c) + own
               else AddedIf(Registered(s, c), Queued(before, c), Packet(Cut(joined)))
    ensures forall c ::
              (if c in outputs then outputs[c] else []) ==
              (if c in before then before[c] else [])
              + if c == conn then own else if Registered(s, c) then Packet(joined) else []
  {
    hide Packet, Registered;
    OrdinaryText(joined);
    forall c
      ensures (if c in outputs then outputs[c] else []) ==
              (if c in before then before[c] else [])
              + if c == conn then own else if Registered(s, c) then Packet(joined) else []
    {
      assert Queued(before, c) + [] == Queued(before, c);
    }
  }

  ghost predicate ServedUpTo(s: Server, fds: seq<Fd>, packet: Bytes, before: Outputs, outputs: Outputs) {
    forall c :: Queued(outputs, c) == AddedIf(Registered(s, c) && s.live[c] in fds, Queued(before, c), packet)
  }

  lemma AddTarget(targets: seq<Fd>, fd: Fd)
    requires NoRepeats(targets) && fd !in targets
    ensures NoRepeats(targets + [fd])
  {
  }

  lemma WriteIs(outputs: Outputs, c: ConnId, data: Bytes, d: ConnId)
    ensures Queued(Write(outputs, c, data), d) == AddedIf(d == c, Queued(outputs, d), data)
  {
  }

  lemma TakeOne(targets: seq<Fd>, i: nat)
    requires NoRepeats(targets) && i < |targets|
    ensures targets[i] !in targets[..i]
    ensures forall f :: f in targets[..i + 1] <==> f in targets[..i] || f == targets[i]
  {
    assert targets[..i + 1] == targets[..i] + [targets[i]];
  }

  lemma EntryRegistered(s: Server, fd: Fd)
    requires Inv(s) && fd in s.registered
    ensures s.registered[fd] in s.live && Registered(s, s.registered[fd]) && s.live[s.registered[fd]] == fd
  {
    hide FdsAreOwned, LiveIsOwned, DisconnectsOnce;
  }

  lemma ServedOne(s: Server, conn: ConnId, c: ConnId)
    requires Inv(s) && Registered(s, conn)
    ensures Registered(s, c) ==> c in s.live && (s.live[c] == s.live[conn] <==> c == conn)
  {
    hide LiveIsOwned, MapIsSound, DisconnectsOnce;
  }

  lemma ServeNext(s: Server, targets: seq<Fd>, i: nat, packet: Bytes, before: Outputs, outputs: Outputs)
    requires Inv(s) && NoRepeats(targets) && i < |targets| && targets[i] in s.registered
    requires ServedUpTo(s, targets[..i], packet, before, outputs)
    ensures ServedUpTo(s, targets[..i + 1], packet, before, Write(outputs, s.registered[targets[i]], packet))
  {
    hide Inv, Write, Queued, NoRepeats;
    var fd := targets[i];
    var conn := s.registered[fd];
    EntryRegistered(s, fd);
    TakeOne(targets, i);
    forall c
      ensures Queued(Write(outputs, conn, packet), c) ==
                AddedIf(Registered(s, c) && s.live[c] in targets[..i + 1], Queued(before, c), packet)
    {
      WriteIs(outputs, conn, packet, c);
      ServedOne(s, conn, c);
    }
  }

  lemma ServedAll(s: Server, targets: seq<Fd>, senderFd: Fd, packet: Bytes, before: Outputs, outputs: Outputs)
    requires forall f :: f in targets <==> f in s.registered && f != senderFd
    requires ServedUpTo(s, targets, packet, before, outputs)
    ensures forall c :: Queued(outputs, c) ==
              AddedIf(Registered(s, c) && s.live[c] != senderFd, Queued(before, c), packet)
  {
    hide Queued;
  }

  /** The three writes of a login, put together. */
  lemma LoginAdds(s: Server, conn: ConnId, success: Bytes, joined: Bytes, history: Bytes,
                  o: Outputs, greeted: Outputs, told: Outputs, done: Outputs)
    requires Inv(s) && conn in s.live
    requires forall c :: Queued(greeted, c) == AddedIf(c == conn, Queued(o, c), success)
    requires forall c :: Queued(told, c) ==
               AddedIf(Registered(s, c) && s.live[c] != s.live[conn], Queued(greeted, c), joined)
    requires forall c :: Queued(done, c) == AddedIf(c == conn, Queued(told, c), history)
    ensures forall c :: Queued(done, c) ==
              if c == conn then Queued(o, c) + (success + history) else AddedIf(Registered(s, c), Queued(o, c), joined)
  {
    FdsDiffer(s);
    hide Inv, Queued;
    Assoc(Queued(o, conn), success, history);
  }
}
