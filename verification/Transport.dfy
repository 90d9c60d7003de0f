/** One connection from write_data to onReadyRead, as interleaved steps of the writers, the loop thread
    that flushes, the thread that removes the connection, the network and the client. */
module Transport {
  import opened Framing
  import opened ConnectionIO
  import opened ClientDecoder

  /** Who holds out_mutex. */
  datatype OutMutex = Free | Writer | Flusher

  /** `queued` records every payload ever written; the rest is the state of the two processes. */
  datatype State = State(
    queued: seq<Payload>,
    output: Bytes,
    writing: bool,
    outMutex: OutMutex,
    registered: bool,
    removing: bool,
    flight: Bytes,
    client: Client
  )

  const INIT := State([], [], false, Free, true, false, [], Client(0, [], []))

  /** Steps; `removing` stands for removeClient holding m_mutex. */
  datatype Action =
    | WriteAppend(p: Payload)  // write_data: lock, append the packet
    | WriteArm                 // write_data: enableWriting if needed, unlock
    | FlushBegin               // handleWrite: lock, return at once when there is nothing to send
    | FlushSend(n: nat)        // handleWrite: one send that took n bytes
    | FlushEnd                 // handleWrite: drained or blocked; disableWriting if drained, unlock
    | FlushFail                // handleWrite: send error; unlock (and close later)
    | RemoveBegin              // removeClient: lock m_mutex, disableWriting
    | RemoveEnd                // removeClient: erase from m_connections, unlock
    | Carry(n: nat)            // the network hands n more bytes to the client's socket
    | ReadyRead                // onReadyRead

  ghost predicate Enabled(s: State, a: Action) {
    match a
    case WriteAppend(p) => s.outMutex.Free? && |p| < WORD32
    case WriteArm => s.outMutex.Writer?
    case FlushBegin => s.outMutex.Free?
    case FlushSend(n) => s.outMutex.Flusher? && 0 < n <= |s.output| && n <= SEND_LIMIT
    case FlushEnd => s.outMutex.Flusher?
    case FlushFail => s.outMutex.Flusher? && s.output != []
    case RemoveBegin => s.registered && !s.removing
    case RemoveEnd => s.removing
    case Carry(n) => n <= |s.flight|
    case ReadyRead => true
  }

  ghost function Next(s: State, a: Action): State
    requires Enabled(s, a) && s.client.Valid()
  {
    match a
    case WriteAppend(p) => s.(queued := s.queued + [p], output := s.output + Packet(p), outMutex := Writer)
    case WriteArm => s.(writing := true, outMutex := Free)
    case FlushBegin => if s.output == [] then s.(writing := false) else s.(outMutex := Flusher)
    case FlushSend(n) => s.(flight := s.flight + s.output[..n], output := s.output[n..])
    case FlushEnd => s.(writing := s.writing && s.output != [], outMutex := Free)
    case FlushFail => s.(outMutex := Free)
    case RemoveBegin => s.(writing := false, removing := true)
    case RemoveEnd => s.(registered := false, removing := false)
    case Carry(n) => s.(flight := s.flight[n..], client := s.client.(unread := s.client.unread + s.flight[..n]))
    case ReadyRead => s.(client := AfterReadyRead(s.client))
  }

  ghost predicate Reaches(s: State, run: seq<Action>, t: State)
    decreases |run|
  {
    if run == [] then s == t
    else s.client.Valid() && Enabled(s, run[0]) && Reaches(Next(s, run[0]), run[1..], t)
  }

  /** Every byte between the writers and the client's decoder, in stream order. */
  ghost function InTransit(s: State): Bytes
    requires s.client.Valid()
  {
    s.client.Pending() + s.flight + s.output
  }

  /** Decoded so far, followed by the decoding of what is in transit, is what was queued. */
  ghost predicate Delivers(s: State) {
    s.client.Valid()
    && s.client.received + NonEmpty(Frames(InTransit(s))) == NonEmpty(s.queued)
    && Tail(InTransit(s)) == []
  }

  /** EPOLLOUT is requested for a registered connection with bytes to send, except while a writer
      (out_mutex) or a remover (m_mutex) is in the middle of its step. */
  ghost predicate NoStrandedOutput(s: State) {
    s.registered && !s.removing && !s.outMutex.Writer? && s.output != [] ==> s.writing
  }

  ghost predicate Inv(s: State) {
    Delivers(s) && NoStrandedOutput(s) && (s.removing ==> s.registered)
  }

  lemma AppendPacket(t: Bytes, p: Payload)
    requires Tail(t) == [] && |p| < WORD32
    ensures NonEmpty(Frames(t + Packet(p))) == NonEmpty(Frames(t)) + NonEmpty([p])
    ensures Tail(t + Packet(p)) == []
  {
    FramesSplit(t, Packet(p));
    FrontFrame(p, []);
    assert Packet(p) + [] == Packet(p) && [] + Packet(p) == Packet(p);
    assert [p] + [] == [p];
    NonEmptyOfConcat(Frames(t), [p]);
  }

  lemma WritePreserves(s: State, p: Payload)
    requires Delivers(s) && Enabled(s, WriteAppend(p))
    ensures Delivers(Next(s, WriteAppend(p)))
  {
    var t := InTransit(s);
    AppendPacket(t, p);
    Assoc(s.client.Pending() + s.flight, s.output, Packet(p));
    NonEmptyOfConcat(s.queued, [p]);
    Assoc(s.client.received, NonEmpty(Frames(t)), NonEmpty([p]));
  }

  lemma SendKeepsTransit(s: State, n: nat)
    requires Delivers(s) && Enabled(s, FlushSend(n))
    ensures InTransit(Next(s, FlushSend(n))) == InTransit(s)
  {
    var a := s.client.Pending() + s.flight;
    assert s.output == s.output[..n] + s.output[n..];
    Assoc(s.client.Pending(), s.flight, s.output[..n]);
    Assoc(a, s.output[..n], s.output[n..]);
  }

  lemma CarryKeepsTransit(s: State, n: nat)
    requires Delivers(s) && Enabled(s, Carry(n))
    ensures InTransit(Next(s, Carry(n))) == InTransit(s)
  {
    var c := s.client;
    PendingGrows(c, s.flight[..n]);
    assert s.flight == s.flight[..n] + s.flight[n..];
    Assoc(c.Pending(), s.flight[..n], s.flight[n..]);
  }

  lemma ReadPreserves(s: State)
    requires Delivers(s)
    ensures Delivers(Next(s, ReadyRead))
  {
    var c, rest := s.client, s.flight + s.output;
    AfterReadyReadFacts(c);
    Assoc(c.Pending(), s.flight, s.output);
    Assoc(Tail(c.Pending()), s.flight, s.output);
    FramesSplit(c.Pending(), rest);
    NonEmptyOfConcat(Frames(c.Pending()), Frames(Tail(c.Pending()) + rest));
    Assoc(c.received, NonEmpty(Frames(c.Pending())), NonEmpty(Frames(Tail(c.Pending()) + rest)));
  }

  lemma StepPreserves(s: State, a: Action)
    requires Inv(s) && Enabled(s, a)
    ensures Inv(Next(s, a))
  {
    match a
    case WriteAppend(p) => WritePreserves(s, p);
    case FlushSend(n) => SendKeepsTransit(s, n);
    case Carry(n) => CarryKeepsTransit(s, n);
    case ReadyRead => ReadPreserves(s);
    case _ => assert InTransit(Next(s, a)) == InTransit(s);
  }

  lemma {:induction false} RunPreserves(s: State, run: seq<Action>, t: State)
    requires Inv(s) && Reaches(s, run, t)
    ensures Inv(t)
    decreases |run|
  {
    if run != [] {
      StepPreserves(s, run[0]);
      RunPreserves(Next(s, run[0]), run[1..], t);
    }
  }

  /** Whatever the interleaving of writers, partial sends, network splits and reads: the client has
      received a prefix of the non-empty payloads queued, and once nothing is in transit, all of them. */
  lemma EndToEndDelivery(run: seq<Action>, t: State)
    requires Reaches(INIT, run, t)
    ensures Delivers(t)
    ensures t.client.received <= NonEmpty(t.queued)
    ensures t.output == [] && t.flight == [] && t.client.Settled() ==> t.client.received == NonEmpty(t.queued)
  {
    assert InTransit(INIT) == [];
    RunPreserves(INIT, run, t);
    if t.output == [] && t.flight == [] && t.client.Settled() {
      assert InTransit(t) == t.client.Pending();
      WaitForMore(t.client);
      assert t.client.received + [] == t.client.received;
    }
  }

  /** In every reachable state with m_mutex and out_mutex free, a registered connection that has
      output is waiting for EPOLLOUT. */
  lemma OutputIsNeverStranded(run: seq<Action>, t: State)
    requires Reaches(INIT, run, t)
    requires t.outMutex.Free? && !t.removing && t.registered
    ensures t.output != [] ==> t.writing
  {
    assert InTransit(INIT) == [];
    RunPreserves(INIT, run, t);
  }

  lemma ReachesFirst(s: State, a: Action, run: seq<Action>, t: State)
    requires s.client.Valid() && Enabled(s, a) && Reaches(Next(s, a), run, t)
    ensures Reaches(s, [a] + run, t)
  {
    assert ([a] + run)[1..] == run;
  }

  lemma {:induction false} ReachesLast(s: State, run: seq<Action>, t: State, a: Action)
    requires Reaches(s, run, t) && t.client.Valid() && Enabled(t, a)
    ensures Reaches(s, run + [a], Next(t, a))
    decreases |run|
  {
    if run == [] {
      assert run + [a] == [a] + [];
      ReachesFirst(s, a, [], Next(s, a));
    } else {
      var first, rest := run[0], run[1..];
      ReachesLast(Next(s, first), rest, t, a);
      ReachesFirst(s, first, rest + [a], Next(t, a));
      assert run + [a] == [first] + (rest + [a]);
    }
  }

  /** n bytes in sends of at most 64 KiB. */
  ghost function Sends(n: nat): seq<Action> {
    if n == 0 then []
    else var k := if n > SEND_LIMIT then SEND_LIMIT else n;
      [FlushSend(k)] + Sends(n - k)
  }

  ghost function Moved(s: State, n: nat): State
    requires n <= |s.output|
  {
    s.(flight := s.flight + s.output[..n], output := s.output[n..])
  }

  lemma MovedTwice(s: State, k: nat, n: nat)
    requires k <= n <= |s.output|
    ensures Moved(Moved(s, k), n - k) == Moved(s, n)
  {
    var rest := s.output[k..];
    assert s.output[..n] == s.output[..k] + rest[..n - k];
    assert rest[n - k..] == s.output[n..];
    Assoc(s.flight, s.output[..k], rest[..n - k]);
  }

  lemma {:induction false} SendsReach(s: State, n: nat)
    requires s.client.Valid() && s.outMutex.Flusher? && n <= |s.output|
    ensures Reaches(s, Sends(n), Moved(s, n))
    decreases n
  {
    if n == 0 {
      assert Moved(s, 0) == s;
    } else {
      var k := if n > SEND_LIMIT then SEND_LIMIT else n;
      assert Next(s, FlushSend(k)) == Moved(s, k);
      SendsReach(Moved(s, k), n - k);
      MovedTwice(s, k, n);
      ReachesFirst(s, FlushSend(k), Sends(n - k), Moved(s, n));
    }
  }

  lemma DrainsMoves(s: State, t: State)
    requires Drains(s.flight, s.output, t.flight, t.output)
    ensures var n := |t.flight| - |s.flight|;
            0 <= n <= |s.output| && Moved(s, n).flight == t.flight && Moved(s, n).output == t.output
  {
    var n := |t.flight| - |s.flight|;
    var all := t.flight + t.output;
    assert t.flight == all[..|t.flight|] && t.output == all[|t.flight|..];
  }

  lemma FlushStops(s: State, failed: bool)
    requires s.outMutex.Flusher? && s.client.Valid() && (failed ==> s.output != [])
    ensures var last := if failed then FlushFail else FlushEnd;
            Enabled(s, last) && Next(s, last) == s.(outMutex := Free, writing := s.writing && (failed || s.output != []))
  {
  }

  lemma FlushStarts(s: State)
    requires s.outMutex.Free? && s.client.Valid() && s.output != []
    ensures Enabled(s, FlushBegin) && Next(s, FlushBegin) == s.(outMutex := Flusher)
  {
  }

  lemma ReturnsAtOnce(s: State, t: State)
    requires s.client.Valid() && s.outMutex.Free? && s.output == [] && t == s.(writing := false)
    ensures Reaches(s, [FlushBegin], t)
  {
    ReachesFirst(s, FlushBegin, [], t);
    assert [FlushBegin] + [] == [FlushBegin];
  }

  /** With output pending: some sends, and the end. */
  lemma FlushIsARun(s: State, failed: bool, n: nat, t: State) returns (run: seq<Action>)
    requires s.client.Valid() && s.outMutex.Free? && s.output != [] && n <= |s.output|
    requires failed ==> n < |s.output|
    requires t == Moved(s, n).(writing := s.writing && (failed || n < |s.output|))
    ensures Reaches(s, run, t)
  {
    hide Reaches, Enabled, Next;
    var s1 := s.(outMutex := Flusher);
    var s2 := Moved(s1, n);
    var last := if failed then FlushFail else FlushEnd;
    SendsReach(s1, n);
    FlushStops(s2, failed);
    ReachesLast(s1, Sends(n), s2, last);
    FlushStarts(s);
    ReachesFirst(s, FlushBegin, Sends(n) + [last], t);
    run := [FlushBegin] + (Sends(n) + [last]);
  }

  /** Every outcome that the contract of Connection.HandleWrite allows is a run of these steps. */
  lemma HandleWriteIsARun(s: State, failed: bool, t: State) returns (run: seq<Action>)
    requires s.client.Valid() && s.outMutex.Free?
    requires Drains(s.flight, s.output, t.flight, t.output) && (failed ==> t.output != [])
    requires t == s.(flight := t.flight, output := t.output, writing := s.writing && (failed || t.output != []))
    ensures Reaches(s, run, t)
  {
    hide Reaches;
    DrainsMoves(s, t);
    if s.output == [] {
      ReturnsAtOnce(s, t);
      run := [FlushBegin];
    } else {
      run := FlushIsARun(s, failed, |t.flight| - |s.flight|, t);
    }
  }

  // ---- Everything can be delivered

  /** The payloads written in a run. */
  ghost function WrittenIn(run: seq<Action>): seq<Payload> {
    if run == [] then []
    else (if run[0].WriteAppend? then [run[0].p] else []) + WrittenIn(run[1..])
  }

  lemma QueuedNext(s: State, a: Action)
    requires s.client.Valid() && Enabled(s, a)
    ensures Next(s, a).queued == s.queued + if a.WriteAppend? then [a.p] else []
  {
  }

  lemma {:induction false} WrittenIsQueued(s: State, run: seq<Action>, t: State)
    requires Reaches(s, run, t)
    ensures t.queued == s.queued + WrittenIn(run)
    decreases |run|
  {
    hide Enabled, Next;
    if run == [] {
      assert s.queued + [] == s.queued;
    } else {
      WrittenIsQueued(Next(s, run[0]), run[1..], t);
      QueuedNext(s, run[0]);
      Assoc(s.queued, if run[0].WriteAppend? then [run[0].p] else [], WrittenIn(run[1..]));
    }
  }

  lemma {:induction false} WrittenInBoth(run: seq<Action>, run': seq<Action>)
    ensures WrittenIn(run + run') == WrittenIn(run) + WrittenIn(run')
    decreases |run|
  {
    if run == [] {
      assert run + run' == run' && [] + WrittenIn(run') == WrittenIn(run');
    } else {
      WrittenInBoth(run[1..], run');
      assert (run + run')[1..] == run[1..] + run';
      Assoc(if run[0].WriteAppend? then [run[0].p] else [], WrittenIn(run[1..]), WrittenIn(run'));
    }
  }

  lemma {:induction false} ReachesThen(s: State, run: seq<Action>, t: State, run': seq<Action>, u: State)
    requires Reaches(s, run, t) && Reaches(t, run', u)
    ensures Reaches(s, run + run', u)
    decreases |run|
  {
    hide Enabled, Next;
    if run == [] {
      assert run + run' == run';
    } else {
      ReachesThen(Next(s, run[0]), run[1..], t, run', u);
      assert (run + run')[1..] == run[1..] + run';
    }
  }

  /** Steps of the flushing thread, the network and the client alone. */
  predicate Flows(run: seq<Action>) {
    forall a :: a in run ==> !a.WriteAppend? && !a.RemoveBegin? && !a.RemoveEnd?
  }

  lemma {:induction false} FlowsWriteNothing(run: seq<Action>)
    requires Flows(run)
    ensures WrittenIn(run) == []
  {
    if run != [] {
      assert run[0] in run;
      FlowsWriteNothing(run[1..]);
    }
  }

  /** Whoever holds out_mutex gives it back. */
  lemma Unlock(s: State) returns (run: seq<Action>, t: State)
    requires s.client.Valid()
    ensures Reaches(s, run, t) && Flows(run)
    ensures t.outMutex.Free? && t.client == s.client
  {
    if s.outMutex.Free? {
      run, t := [], s;
    } else {
      var a := if s.outMutex.Writer? then WriteArm else FlushEnd;
      run, t := [a], Next(s, a);
      assert run[1..] == [];
      assert Reaches(t, [], t);
    }
  }

  lemma WritesOne(s: State, p: Payload) returns (run: seq<Action>, t: State)
    requires s.client.Valid() && s.outMutex.Free? && |p| < WORD32
    ensures Reaches(s, run, t) && WrittenIn(run) == [p]
    ensures t.outMutex.Free? && t.client == s.client && t.output != []
  {
    var s1 := Next(s, WriteAppend(p));
    t := Next(s1, WriteArm);
    run := [WriteAppend(p), WriteArm];
    assert run[1..] == [WriteArm] && run[1..][1..] == [];
    assert WrittenIn([WriteArm]) == [];
    assert Reaches(t, [], t);
    assert Reaches(s1, [WriteArm], t);
  }

  /** The kernel takes everything, the network carries it, the client reads. */
  lemma ReadsAll(s: State) returns (run: seq<Action>, t: State)
    requires s.client.Valid() && s.output == []
    ensures Reaches(s, run, t) && Flows(run)
    ensures t.output == [] && t.flight == [] && t.client.Valid() && t.client.Settled()
  {
    var s1 := Next(s, Carry(|s.flight|));
    AfterReadyReadFacts(s1.client);
    t := Next(s1, ReadyRead);
    run := [Carry(|s.flight|), ReadyRead];
    assert run[1..] == [ReadyRead] && run[1..][1..] == [];
    assert Reaches(t, [], t);
    assert Reaches(s1, [ReadyRead], t);
  }

  lemma {:induction false} SendsFlow(n: nat)
    ensures Flows(Sends(n))
    decreases n
  {
    if n > 0 {
      SendsFlow(n - if n > SEND_LIMIT then SEND_LIMIT else n);
    }
  }

  lemma FlushesAll(s: State) returns (run: seq<Action>, t: State)
    requires s.client.Valid() && s.outMutex.Free? && s.output != []
    ensures Reaches(s, run, t) && Flows(run)
    ensures t.output == [] && t.client == s.client
  {
    var n := |s.output|;
    var s1 := s.(outMutex := Flusher);
    FlushStarts(s);
    SendsReach(s1, n);
    t := Moved(s1, n);
    ReachesFirst(s, FlushBegin, Sends(n), t);
    run := [FlushBegin] + Sends(n);
    SendsFlow(n);
  }

  /** Without another write, everything there is gets to the client. */
  lemma EverythingFlows(s: State) returns (run: seq<Action>, t: State)
    requires s.client.Valid()
    ensures Reaches(s, run, t) && Flows(run)
    ensures t.output == [] && t.flight == [] && t.client.Valid() && t.client.Settled()
  {
    var run1, t1 := Unlock(s);
    if t1.output == [] {
      var run2;
      run2, t := ReadsAll(t1);
      hide Reaches;
      run := run1 + run2;
      ReachesThen(s, run1, t1, run2, t);
    } else {
      var run2, t2 := FlushesAll(t1);
      var run3;
      run3, t := ReadsAll(t2);
      hide Reaches;
      run := run1 + run2 + run3;
      ReachesThen(s, run1, t1, run2, t2);
      ReachesThen(s, run1 + run2, t2, run3, t);
    }
  }

  /** After any run another payload can be written, and further steps, which write nothing else, bring the
      client to have received exactly the non-empty payloads of the run, in order, and then this one. */
  lemma AnotherIsReceived(run: seq<Action>, t: State, p: Payload) returns (more: seq<Action>, u: State)
    requires Reaches(INIT, run, t) && |p| < 0x1_0000_0000
    ensures Reaches(INIT, run + more, u) && WrittenIn(more) == [p]
    ensures u.client.received == NonEmpty(WrittenIn(run) + [p])
    ensures u.output == [] && u.flight == []
  {
    assert InTransit(INIT) == [];
    RunPreserves(INIT, run, t);
    hide Reaches, Inv, Enabled, Next, WrittenIn, NonEmpty, Delivers;
    var run1, t1 := Unlock(t);
    var run2, t2 := WritesOne(t1, p);
    var run3, t3 := EverythingFlows(t2);
    u := t3;
    more := run1 + run2 + run3;
    ReachesThen(t, run1, t1, run2, t2);
    ReachesThen(t, run1 + run2, t2, run3, t3);
    WrittenInBoth(run1, run2);
    WrittenInBoth(run1 + run2, run3);
    FlowsWriteNothing(run1);
    FlowsWriteNothing(run3);
    assert [] + [p] + [] == [p];
    ReachesThen(INIT, run, t, more, u);
    WrittenIsQueued(INIT, run + more, u);
    WrittenInBoth(run, more);
    assert [] + WrittenIn(run + more) == WrittenIn(run + more);
    EndToEndDelivery(run + more, u);
  }
}
