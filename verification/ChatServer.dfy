/** server/src/server/IMServer.cpp and ChatService.cpp as the objects they are. Every method that runs
    under m_mutex is proved to be one step of the state machine in ServerState, so the invariants of its
    runs hold here; Connection objects appear by their number. */
module ChatServer {
  import opened Options
  import opened Framing
  import opened ByteBuffer
  import opened ServerDecoder
  import opened JwtUtils
  import opened TimerManagement
  import opened ServerState
  import opened Lifetime
  import opened Directories
  import Broadcasts
  import opened PrivateMessages
  import opened ServerFacts
  import opened OutputBuffers

  /** The packet of every handler: the length, cut to 32 bits, then the text. */
  method MakePacket(message: Bytes) returns (packet: array<byte>)
    ensures fresh(packet) && packet[..] == Packet(message)
  {
    var header := Be32(|message| % WORD32);
    packet := new byte[4 + |message|];
    for i := 0 to 4
      invariant packet[..i] == header[..i]
    {
      packet[i] := header[i];
    }
    for i := 0 to |message|
      invariant packet[..4] == header
      invariant packet[4..4 + i] == message[..i]
    {
      packet[4 + i] := message[i];
    }
    assert packet[..] == packet[..4] + packet[4..];
  }

  /** The packet of broadcastMessage, whose length parameter and sum are uint32_t. `overrun`: the copy
      would go past the end of the vector. */
  method MakeBroadcast(message: Bytes) returns (packet: array<byte>, overrun: bool)
    ensures fresh(packet)
    ensures overrun <==> Overruns(message)
    ensures overrun <==> |message| % 0x1_0000_0000 > 0xFFFF_FFFB
    ensures !overrun ==> packet[..] == Packet(Cut(message))
    ensures |message| <= 0xFFFF_FFFB ==> !overrun && packet[..] == Packet(message)
  {
    var len := |message| % WORD32;
    overrun := FrameSize32(len) < 4 + len;
    if overrun {
      packet := new byte[FrameSize32(len)];
    } else {
      packet := MakePacket(message[..len]);
      if |message| <= 0xFFFF_FFFB {
        OrdinaryText(message);
      }
    }
  }

  function One(b: bool): nat {
    if b then 1 else 0
  }

  function Ones(a: bool, b: bool, c: bool): nat {
    One(a) + One(b) + One(c)
  }

  /** The frames that parse. */
  function Parsed(ps: seq<Payload>, parses: Bytes -> bool): seq<Payload> {
    if ps == [] then [] else (if parses(ps[0]) then [ps[0]] else []) + Parsed(ps[1..], parses)
  }

  /** In order, those that parse and no others. */
  lemma {:induction false} ParsedIs(ps: seq<Payload>, qs: seq<Payload>, p: Payload, parses: Bytes -> bool)
    ensures Parsed(ps + qs, parses) == Parsed(ps, parses) + Parsed(qs, parses)
    ensures Parsed([p], parses) == if parses(p) then [p] else []
    decreases |ps|
  {
    assert [p][1..] == [];
    if ps == [] {
      assert ps + qs == qs;
    } else {
      ParsedIs(ps[1..], qs, p, parses);
      assert (ps + qs)[1..] == ps[1..] + qs;
    }
  }

  /** What the decoder's loop has done so far with the buffer content s. */
  ghost predicate DecodedSoFar(s: Bytes, now: Bytes, routed: seq<Payload>, parses: Bytes -> bool) {
    Tail(s) == Tail(now) && (Fits(s) <==> Fits(now))
    && routed + Parsed(Frames(now), parses) == Parsed(Frames(s), parses)
  }

  lemma DecodeStarts(s: Bytes, parses: Bytes -> bool)
    ensures DecodedSoFar(s, s, [], parses)
  {
    hide Frames, Tail, Fits, Parsed;
  }

  lemma DecodeOne(s: Bytes, now: Bytes, routed: seq<Payload>, m: Payload, rest: Bytes, parses: Bytes -> bool)
    requires DecodedSoFar(s, now, routed, parses) && Advances(now, Message(m), rest)
    ensures |rest| < |now|
    ensures var routed' := if parses(m) then routed + [m] else routed;
            DecodedSoFar(s, rest, routed', parses) && |routed'| <= |Parsed(Frames(s), parses)|
  {
    hide Frames, Tail, Fits;
    assert ([m] + Frames(rest))[1..] == Frames(rest);
    if parses(m) {
      Assoc(routed, [m], Parsed(Frames(rest), parses));
    }
  }

  lemma DecodeEnds(s: Bytes, now: Bytes, routed: seq<Payload>, r: Step, rest: Bytes, parses: Bytes -> bool)
    requires DecodedSoFar(s, now, routed, parses) && Advances(now, r, rest) && !r.Message?
    ensures routed == Parsed(Frames(s), parses) && (r.PastEnd? <==> !Fits(s))
    ensures r.NeedMore? ==> rest == Tail(s)
  {
    hide Frames, Tail, Fits;
    assert routed + [] == routed;
  }

  /** The part of handleEvent before any callback closes. */
  lemma HandlerStarts(d: Directory, conn: ConnId, readable: bool, expires: seq<int>, s: Server, t: Server)
    requires Inv(d.server) && conn in d.server.live && s == Next(d.server, Lock(conn))
    requires readable ==> Reaches(s, RefreshRun(conn, expires), t)
    requires !readable ==> expires == [] && t == s
    ensures Follows(d, HandlerRun(conn, expires, 0), d.(server := t)) && Closed(d.server, t, conn, false)
    ensures t == s.(timers := t.timers)
  {
    LockFacts(d.server, conn);
    QuietStep(d, Lock(conn));
    if !readable {
      StartRefreshing(s, conn, expires);
    }
    hide Inv, Next, Enabled;
    RefreshesFollow(After(d, Base(Lock(conn))), RefreshRun(conn, expires), t);
    FollowsCons(d, Lock(conn), RefreshRun(conn, expires), d.(server := t));
    NotClosed(d.server, t, conn);
  }

  class IMServer {
    var connections: map<Fd, ConnId>
    var live: Live                  // the Connection objects that exist
    var holders: multiset<ConnId>   // the shared_ptrs to them outside m_connections
    var nextId: ConnId
    var outputs: Outputs
    const timers: TimerManager
    const chat: ChatService
    ghost var server: Server

    ghost predicate Valid()
      reads this, timers
    {
      server.registered == connections && server.live == live && server.holders == holders && server.nextId == nextId
      && server.timers == timers.View() && Inv(server)
    }

    ghost function Dir(): Directory
      reads this, chat
    {
      Directory(server, chat.usernames, chat.onlineUsers)
    }

    constructor ()
      ensures Valid() && fresh(timers) && fresh(chat)
      ensures Dir() == Directories.START && outputs == map[]
    {
      connections, live, holders, nextId, outputs := map[], map[], multiset{}, 0, map[];
      timers := new TimerManager();
      chat := new ChatService();
      server := INIT;
      new;
      InitInv();
    }

    method RemoveClient(fd: Fd)
      requires Valid()
      modifies this`connections, this`live, this`server, timers, chat`onlineUsers
      ensures Valid() && server == ServerState.RemoveClient(old(server), fd)
      ensures chat.onlineUsers == ForgetGone(old(server), server, chat.usernames, old(chat.onlineUsers))
    {
      hide Inv, AfterRemove, Forget;
      RemoveInv(server, fd);
      if fd in connections {
        var conn := connections[fd];
        DetachUnregisters(server, fd);
        chat.OnDisconnect(conn);
        timers.RemoveTimer(fd);
        connections := connections - {fd};
        if conn !in holders {
          live := live - {conn};   // that was the last owner: ~Connection
        }
      }
      server := ServerState.RemoveClient(server, fd);
    }

    /** The locked section of handleNewConnection. */
    method AddConnection(fd: Fd, expire: int)
      requires Valid() && fd in server.pending
      modifies this`connections, this`live, this`nextId, this`server, timers
      ensures Valid() && server == Next(old(server), Register(fd, expire))
      ensures connections == old(connections)[fd := old(nextId)] && nextId == old(nextId) + 1
      ensures timers.expectedExpire == old(timers.expectedExpire)[fd := expire]
    {
      hide Inv, AfterAdd;
      RegisterInv(server, fd, expire);
      live := live[nextId := fd];
      connections := connections[fd := nextId];
      timers.AddTimer(nextId, expire, live);
      nextId := nextId + 1;
      server := Next(server, Register(fd, expire));
    }

    /** accept has returned answers[i]; `s` and `first` record where it all began. */
    method AddAccepted(answers: seq<Fd>, expires: seq<int>, i: nat, ghost s: Server, ghost first: ConnId)
      requires Valid() && i < |answers| == |expires| && Broadcasts.NoRepeats(answers)
      requires AcceptedTo(s, answers, expires, i, server)
      requires nextId == first + i && Entered(answers, expires, i, first, connections, timers.expectedExpire)
      modifies this`connections, this`live, this`nextId, this`server, timers
      ensures Valid() && AcceptedTo(s, answers, expires, i + 1, server)
      ensures nextId == first + i + 1 && Entered(answers, expires, i + 1, first, connections, timers.expectedExpire)
      ensures answers[i] !in old(connections) && connections == old(connections)[answers[i] := old(nextId)]
    {
      hide Inv, Enabled, Next, Reaches, Entered, AcceptRun, KernelFds;
      AcceptOne(s, answers, expires, i, server);
      EnterOne(answers, expires, i, first, connections, timers.expectedExpire);
      server := Next(server, Accept(answers[i]));
      AddConnection(answers[i], expires[i]);
    }

    /** Accepts until the kernel has no more; `answers` is what accept returned before that, `expires`
        the deadline computed from the clock for each. */
    method HandleNewConnection(answers: seq<Fd>, expires: seq<int>)
      requires Valid() && KernelFds(server, answers) && |expires| == |answers|
      modifies this`connections, this`live, this`nextId, this`server, timers
      ensures Valid() && Reaches(old(server), AcceptRun(answers, expires), server)
      ensures forall f :: f in connections <==> f in old(connections) || f in answers
      ensures forall f :: f in old(connections) ==> connections[f] == old(connections)[f]
      ensures forall i :: 0 <= i < |answers| ==>
                connections[answers[i]] == old(nextId) + i
                && answers[i] in timers.expectedExpire && timers.expectedExpire[answers[i]] == expires[i]
    {
      hide Inv, Reaches, Entered, KernelFds, AcceptRun, AcceptedTo, Grown, Broadcasts.NoRepeats;
      ghost var s, first, before := server, nextId, connections;
      StartAccepting(s, answers, expires, before);
      StartEntering(answers, expires, first, before, timers.expectedExpire);
      for i := 0 to |answers|
        invariant Valid() && AcceptedTo(s, answers, expires, i, server) && Grown(before, connections, answers, i)
        invariant nextId == first + i && Entered(answers, expires, i, first, connections, timers.expectedExpire)
      {
        GrowOne(before, connections, answers, i, nextId);
        AddAccepted(answers, expires, i, s, first);
      }
      AcceptedAll(s, answers, expires, server);
      GrownAll(before, connections, answers);
      AllEntered(answers, expires, first, connections, timers.expectedExpire);
    }

    /** The locked section of onConnectionMessage. */
    method RefreshTimer(conn: ConnId, expire: int)
      requires Valid() && Enabled(server, Refresh(conn, expire))
      modifies this`server, timers
      ensures Valid() && server == Next(old(server), Refresh(conn, expire))
      ensures conn in live && timers.expectedExpire == old(timers.expectedExpire)[live[conn] := expire]
    {
      hide Inv, AfterAdd;
      HoldInv(server, Refresh(conn, expire));
      timers.AddTimer(conn, expire, live);
      server := Next(server, Refresh(conn, expire));
    }

    /** The deadline of the next message that parses; `s` and `k` record the run so far. */
    method Renew(conn: ConnId, expires: seq<int>, k: nat, ghost s: Server)
      requires Valid() && conn in live && conn in holders && k < |expires|
      requires Reaches(s, RefreshRun(conn, expires[..k]), server)
      modifies this`server, timers
      ensures Valid() && conn in live && conn in holders
      ensures Reaches(s, RefreshRun(conn, expires[..k + 1]), server)
      ensures live[conn] in timers.expectedExpire && timers.expectedExpire[live[conn]] == expires[k]
    {
      hide Inv, Enabled, Next, Reaches, RefreshRun;
      RefreshFacts(server, conn, expires[k]);
      ReachesSnoc(s, RefreshRun(conn, expires[..k]), server, Refresh(conn, expires[k]));
      RefreshSnoc(conn, expires, k);
      RefreshTimer(conn, expires[k]);
    }

    /** onConnectionMessage: every complete frame is handed over; one that parses renews the deadline and
        goes to the router, one that does not is only logged. `expires` are the deadlines computed from
        the clock, one for each message that parses. */
    method OnConnectionMessage(conn: ConnId, input: Buffer, parses: Bytes -> bool, expires: seq<int>)
      returns (routed: seq<Payload>, overread: bool)
      requires Valid() && conn in live && conn in holders && input.Valid()
      requires |expires| == |Parsed(Frames(input.Contents()), parses)|
      modifies this`server, timers, input
      ensures Valid() && input.Valid() && input.data == old(input.data)
      ensures overread <==> !Fits(old(input.Contents()))
      ensures !overread ==> input.Contents() == Tail(old(input.Contents()))
      ensures routed == Parsed(Frames(old(input.Contents())), parses)
      ensures Reaches(old(server), RefreshRun(conn, expires), server)
      ensures expires != [] ==>
                live[conn] in timers.expectedExpire && timers.expectedExpire[live[conn]] == expires[|expires| - 1]
    {
      hide Inv, Enabled, Next, Reaches, Frames, Tail, Fits, DecodedSoFar, Advances, Parsed, RefreshRun;
      routed := [];
      StartRefreshing(server, conn, expires);
      ghost var s, now := input.Contents(), input.Contents();
      DecodeStarts(s, parses);
      while true
        invariant Valid() && input.Valid() && input.data == old(input.data) && now == input.Contents()
        invariant conn in live && conn in holders
        invariant DecodedSoFar(s, now, routed, parses)
        invariant |routed| <= |expires| && Reaches(old(server), RefreshRun(conn, expires[..|routed|]), server)
        invariant routed != [] ==> live[conn] in timers.expectedExpire
                                   && timers.expectedExpire[live[conn]] == expires[|routed| - 1]
        decreases |now|
      {
        var r := NextMessage(input);
        if !r.Message? {
          DecodeEnds(s, now, routed, r, input.Contents(), parses);
          assert expires[..|routed|] == expires;
          overread := r.PastEnd?;
          return;
        }
        DecodeOne(s, now, routed, r.message, input.Contents(), parses);
        if parses(r.message) {
          Renew(conn, expires, |routed|, old(server));
          routed := routed + [r.message];
        }
        now := input.Contents();
      }
    }

    method OnConnectionClose(conn: ConnId)
      requires Valid() && Enabled(server, Close(conn))
      modifies this`connections, this`live, this`server, timers, chat`onlineUsers
      ensures Valid() && Dir() == After(old(Dir()), Base(Close(conn)))
      ensures forall c :: Registered(server, c) <==> Registered(old(server), c) && c != conn
      ensures server.disconnects == old(server.disconnects) + if Registered(old(server), conn) then [conn] else []
      ensures server.holders == old(server.holders) && server.collected == old(server.collected)
    {
      hide Inv, ForgetGone, ServerState.RemoveClient, Registered;
      RemoveOwn(server, conn);
      RemoveClient(live[conn]);
    }

    /** One callback: it closes the connection, which somebody holds, or does not. `d`, `expires`
        and `closes` record the run so far. */
    method CloseIf(conn: ConnId, ends: bool, ghost d: Directory, ghost expires: seq<int>,
                   ghost closes: nat)
      requires Valid() && conn in holders && Follows(d, HandlerRun(conn, expires, closes), Dir())
      modifies this`connections, this`live, this`server, timers, chat`onlineUsers
      ensures Valid() && Closed(old(server), server, conn, ends)
      ensures Follows(d, HandlerRun(conn, expires, closes + One(ends)), Dir())
      ensures server.holders == old(server.holders) && server.collected == old(server.collected)
    {
      hide Inv, Next, Enabled, Registered, Follows, ForgetGone;
      if ends {
        HeldIsLive(server, conn);
        FollowsSnoc(d, HandlerRun(conn, expires, closes), Dir(), Close(conn));
        OnConnectionClose(conn);
      }
    }

    /** The three callbacks that may close it, in their order. */
    method Callbacks(conn: ConnId, readEnds: bool, writeFails: bool, hangUp: bool, ghost d: Directory,
                     ghost expires: seq<int>)
      requires Valid() && conn in holders && Follows(d, HandlerRun(conn, expires, 0), Dir())
      modifies this`connections, this`live, this`server, timers, chat`onlineUsers
      ensures Valid() && Closed(old(server), server, conn, readEnds || writeFails || hangUp)
      ensures Follows(d, HandlerRun(conn, expires, Ones(readEnds, writeFails, hangUp)), Dir())
      ensures server.holders == old(server.holders) && server.collected == old(server.collected)
    {
      hide Inv, Closed, Follows, HandlerRun;
      ghost var s := server;
      CloseIf(conn, readEnds, d, expires, 0);
      ghost var s1 := server;
      CloseIf(conn, writeFails, d, expires, One(readEnds));
      ClosedTwice(s, s1, server, conn, readEnds, writeFails);
      ghost var s2 := server;
      CloseIf(conn, hangUp, d, expires, One(readEnds) + One(writeFails));
      ClosedTwice(s, s2, server, conn, readEnds || writeFails, hangUp);
    }

    /** A shared_ptr goes out of scope; the last one takes the object with it. */
    method LetGo(conn: ConnId)
      requires Valid() && Enabled(server, Release(conn))
      modifies this`live, this`holders, this`server
      ensures Valid() && server == Next(old(server), Release(conn))
      ensures forall c :: Registered(server, c) <==> Registered(old(server), c)
      ensures conn in live <==> Registered(server, conn) || conn in holders
      ensures holders == old(holders) - multiset{conn} && server.disconnects == old(server.disconnects)
    {
      hide Inv, FdsAreOwned;
      ReleaseFacts(server, conn);
      holders := holders - multiset{conn};
      if conn !in holders && !(live[conn] in connections && connections[live[conn]] == conn) {
        live := live - {conn};   // ~Connection closes the fd
      }
      server := Next(server, Release(conn));
    }

    /** handleEvent lets the owner go; `d` and `run` record the run so far. */
    method Leave(conn: ConnId, ghost d: Directory, ghost run: seq<Action>)
      requires Valid() && Enabled(server, Release(conn)) && Follows(d, run, Dir())
      modifies this`live, this`holders, this`server
      ensures Valid() && holders == old(holders) - multiset{conn}
      ensures Follows(d, run + [Release(conn)], Dir()) && Closed(old(server), server, conn, false)
      ensures conn in live <==> Registered(server, conn) || conn in holders
    {
      hide Inv, Next, Enabled, Registered, Closed, Follows, ForgetGone;
      ghost var s, e := server, Dir();
      FollowsSnoc(d, run, e, Release(conn));
      LetGo(conn);
      QuietStep(e, Release(conn));
      NotClosed(s, server, conn);
    }

    /** handleEvent locks the owner and runs the read callback, which hands the messages in `input` over. */
    method LockAndRead(conn: ConnId, input: Buffer, parses: Bytes -> bool, expires: seq<int>, readable: bool)
      returns (routed: seq<Payload>, overread: bool)
      requires Valid() && input.Valid() && conn in live
      requires |expires| == if readable then |Parsed(Frames(input.Contents()), parses)| else 0
      modifies this`holders, this`server, timers, input
      ensures Valid() && holders == old(holders) + multiset{conn} && conn in holders
      ensures overread <==> readable && !Fits(old(input.Contents()))
      ensures routed == if readable then Parsed(Frames(old(input.Contents())), parses) else []
      ensures !overread ==>
                Follows(old(Dir()), HandlerRun(conn, expires, 0), Dir())
                && Closed(old(server), server, conn, false) && Enabled(server, Release(conn))
    {
      hide Inv, Next, Enabled, Registered, Closed, Follows, Gone, Parsed, Frames, Fits;
      routed, overread := [], false;
      ghost var d := Dir();
      LockFacts(server, conn);
      holders := holders + multiset{conn};
      server := Next(server, Lock(conn));
      ghost var s0 := server;
      if readable {
        routed, overread := OnConnectionMessage(conn, input, parses, expires);
        if overread {
          return;
        }
      }
      HandlerStarts(d, conn, readable, expires, s0, server);
      StillHeld(s0, server, conn);
    }

    /** Channel::handleEvent of a tied channel, with nothing between its steps: if the owner still exists
        it is kept alive while the callbacks run. The read callback hands the messages in `input` over,
        and each callback may find the connection ended. However many do, onDisconnect runs once if it
        was still registered, and the object is destroyed at the end if nobody else has it. */
    method HandleEvent(conn: ConnId, input: Buffer, parses: Bytes -> bool, expires: seq<int>,
                       readable: bool, readEnds: bool, writeFails: bool, hangUp: bool)
      returns (routed: seq<Payload>, overread: bool)
      requires Valid() && input.Valid()
      requires |expires| == if readable then |Parsed(Frames(input.Contents()), parses)| else 0
      modifies this`connections, this`live, this`holders, this`server, timers, chat`onlineUsers, input
      ensures Valid()
      ensures overread <==> conn in old(live) && readable && !Fits(old(input.Contents()))
      ensures routed == if conn in old(live) && readable then Parsed(Frames(old(input.Contents())), parses) else []
      ensures !overread ==>
                holders == old(holders)
                && (if conn in old(live)
                    then Follows(old(Dir()), EventRun(conn, expires, Ones(readEnds, writeFails, hangUp)), Dir())
                    else Dir() == old(Dir()))
                && (var ends := conn in old(live) && (readEnds || writeFails || hangUp);
                    (forall c :: Registered(server, c) <==> Registered(old(server), c) && !(ends && c == conn))
                    && server.disconnects ==
                       old(server).disconnects + if ends && Registered(old(server), conn) then [conn] else [])
                && (conn in live <==> Registered(server, conn) || conn in holders)
    {
      hide Inv, Next, Enabled, Registered, Closed, Follows, Gone, ForgetGone, Parsed, Frames, Fits;
      routed, overread := [], false;
      if conn !in live {
        GoneIsNotHeld(server, conn);
        return;
      }
      ghost var s, d := server, Dir();
      routed, overread := LockAndRead(conn, input, parses, expires, readable);
      if overread {
        return;
      }
      ghost var s1 := server;
      Callbacks(conn, readEnds, writeFails, hangUp, d, expires);
      ClosedTwice(s, s1, server, conn, false, readEnds || writeFails || hangUp);
      ghost var s2 := server;
      StillHeld(s1, s2, conn);
      Leave(conn, d, HandlerRun(conn, expires, Ones(readEnds, writeFails, hangUp)));
      ClosedTwice(s, s2, server, conn, readEnds || writeFails || hangUp, false);
      ClosedMeans(s, server, conn, readEnds || writeFails || hangUp);
      assert holders == old(holders);
    }

    method CollectExpired(now: int) returns (expired: seq<ConnId>)
      requires Valid() && server.collected == []
      modifies this`holders, this`server, timers
      ensures Valid() && Enabled(old(server), Collect(now, expired))
      ensures server == Next(old(server), Collect(now, expired)) && server.collected == expired
      ensures server.disconnects == old(server.disconnects)
      ensures forall c :: Registered(server, c) <==> Registered(old(server), c)
      ensures forall c :: c in expired <==> IsDue(old(server.timers), old(live), now, c)
    {
      hide Inv, AfterCheck, IsDue, DistinctFds, IsExpiredList, Enabled, Next, Registered;
      FdsDiffer(server);
      expired := timers.CheckTimeout(now, live);
      CollectFacts(server, now, expired);
      holders := holders + multiset(expired);
      server := Next(server, Collect(now, expired));
    }

    /** removeClient of the next connection in to_remove. */
    method RemoveCollected(conn: ConnId)
      requires Valid() && server.collected != [] && server.collected[0] == conn
      modifies this`connections, this`live, this`server, timers, chat`onlineUsers
      ensures Valid() && Enabled(old(server), TickRemove) && Dir() == After(old(Dir()), Base(TickRemove))
      ensures server.collected == old(server.collected)[1..]
      ensures forall c :: Registered(server, c) <==> Registered(old(server), c) && c != conn
    {
      hide Inv, Forget, ServerState.RemoveClient, Registered;
      ghost var s := server;
      PopFacts(s);
      server := s.(collected := s.collected[1..]);
      RemoveOwn(server, conn);
      RemoveClient(live[conn]);
    }

    /** The tick callback, when nothing runs between its two phases. */
    method Tick(now: int) returns (expired: seq<ConnId>)
      requires Valid() && server.collected == []
      modifies this`connections, this`live, this`holders, this`server, timers, chat`onlineUsers
      ensures Valid() && server.collected == []
      ensures Follows(old(Dir()), TickRun(now, expired, |expired|), Dir())
      ensures forall c :: Registered(server, c) <==>
                Registered(old(server), c) && !IsDue(old(server.timers), old(live), now, c)
    {
      hide Inv, Enabled, Next, Follows, Registered, IsDue, ForgetGone;
      ghost var s, d := server, Dir();
      expired := CollectExpired(now);
      FollowsFirst(d, Collect(now, expired));
      QuietStep(d, Collect(now, expired));
      assert expired[0..] == expired;
      for i := 0 to |expired|
        invariant Valid() && server.collected == expired[i..]
        invariant Follows(d, TickRun(now, expired, i), Dir())
        invariant forall c :: Registered(server, c) <==> Registered(s, c) && c !in expired[..i]
      {
        ghost var t := Dir();
        RemoveCollected(expired[i]);
        FollowsSnoc(d, TickRun(now, expired, i), t, TickRemove);
        assert expired[i..][1..] == expired[i + 1..];
        assert expired[..i + 1] == expired[..i] + [expired[i]];
      }
      assert expired[..|expired|] == expired;
    }

    /** First section of broadcastMessage: every fd in m_connections but the sender's. */
    method CollectTargets(senderFd: Fd) returns (targets: seq<Fd>)
      ensures Broadcasts.NoRepeats(targets)
      ensures forall f :: f in targets <==> f in connections && f != senderFd
    {
      targets := [];
      var rest := connections.Items;
      while rest != {}
        invariant rest <= connections.Items
        invariant Broadcasts.NoRepeats(targets)
        invariant forall f :: f in targets <==> f in connections && (f, connections[f]) !in rest && f != senderFd
      {
        var pair :| pair in rest;
        if pair.0 != senderFd {
          AddTarget(targets, pair.0);
          targets := targets + [pair.0];
        }
        rest := rest - {pair};
      }
    }

    /** sendToUser, and the second section of broadcastMessage for one target. */
    method SendToUser(fd: Fd, data: Bytes)
      modifies this`outputs
      ensures outputs == if fd in connections then Write(old(outputs), connections[fd], data) else old(outputs)
      ensures fd in connections ==> var c, o := connections[fd], old(outputs);
                outputs == o[c := (if c in o then o[c] else []) + data]
    {
      if fd in connections {
        outputs := Write(outputs, connections[fd], data);
      }
    }

    /** When nothing runs between its sections: each registered connection except the one with the
        sender's fd has exactly the packet appended, everyone else's output is as before. Nothing is
        said when the packet overruns its vector. */
    method BroadcastMessage(senderFd: Fd, message: Bytes) returns (overrun: bool)
      requires Valid()
      modifies this`outputs
      ensures overrun <==> Overruns(message)
      ensures overrun <==> |message| % 0x1_0000_0000 > 0xFFFF_FFFB
      ensures !overrun ==> forall c ::
                Queued(outputs, c) ==
                AddedIf(Registered(server, c) && live[c] != senderFd, Queued(old(outputs), c), Packet(Cut(message)))
      ensures |message| <= 0xFFFF_FFFB ==>
                !overrun && forall c ::
                  (if c in outputs then outputs[c] else []) ==
                  (if c in old(outputs) then old(outputs)[c] else [])
                  + if Registered(server, c) && live[c] != senderFd then Packet(message) else []
    {
      hide Inv, Write, Packet, Queued, Cut, Overruns;
      var packet;
      packet, overrun := MakeBroadcast(message);
      if overrun {
        return;
      }
      var targets := CollectTargets(senderFd);
      for i := 0 to |targets|
        invariant packet[..] == Packet(Cut(message))
        invariant ServedUpTo(server, targets[..i], Packet(Cut(message)), old(outputs), outputs)
      {
        ghost var before := outputs;
        SendToUser(targets[i], packet[..]);
        ServeNext(server, targets, i, Packet(Cut(message)), old(outputs), before);
      }
      ServedAll(server, targets, senderFd, Packet(Cut(message)), old(outputs), outputs);
      if |message| <= 0xFFFF_FFFB {
        GainsExactly(server, senderFd, message, old(outputs), outputs);
      }
    }

    /** Connection::write_data on a connection the caller holds. */
    method WriteTo(conn: ConnId, data: Bytes)
      modifies this`outputs
      ensures outputs == Write(old(outputs), conn, data)
      ensures var o := old(outputs); outputs == o[conn := (if conn in o then o[conn] else []) + data]
    {
      outputs := Write(outputs, conn, data);
    }

    method SendMessage(conn: ConnId, message: Bytes)
      modifies this`outputs
      ensures forall c :: Queued(outputs, c) == AddedIf(c == conn, Queued(old(outputs), c), Packet(message))
      ensures var o := old(outputs); outputs == o[conn := (if conn in o then o[conn] else []) + Packet(message)]
    {
      hide Packet;
      var packet := MakePacket(message);
      WriteTo(conn, packet[..]);
    }

    method IsConnectionActive(fd: Fd) returns (active: bool)
      ensures active <==> fd in connections
    {
      active := fd in connections;
    }
  }

  class ChatService {
    var onlineUsers: Online
    var usernames: Names

    constructor ()
      ensures onlineUsers == map[] && usernames == map[]
    {
      onlineUsers, usernames := map[], map[];
    }

    method OnDisconnect(conn: ConnId)
      modifies this`onlineUsers
      ensures onlineUsers == Forget(old(onlineUsers), Name(usernames, conn))
      ensures onlineUsers == if conn in usernames && usernames[conn] != "" then old(onlineUsers) - {usernames[conn]}
                             else old(onlineUsers)
    {
      if conn in usernames && usernames[conn] != "" {
        onlineUsers := onlineUsers - {usernames[conn]};
      }
    }

    /** The locked section of handleLogin. */
    method Enter(im: IMServer, conn: ConnId, user: string)
      requires im.chat == this && im.Valid() && Possible(im.Dir(), Login(conn, user))
      modifies this
      ensures im.Valid() && im.Dir() == After(old(im.Dir()), Login(conn, user))
      ensures usernames == old(usernames)[conn := user] && onlineUsers == old(onlineUsers)[user := im.live[conn]]
    {
      hide Inv, Enabled, Next;
      usernames := usernames[conn := user];
      onlineUsers := onlineUsers[user := im.live[conn]];
    }

    method SendHistory(im: IMServer, conn: ConnId, history: seq<Bytes>)
      modifies im`outputs
      ensures forall c :: Queued(im.outputs, c) == AddedIf(c == conn, Queued(old(im.outputs), c), Wire(history))
    {
      hide Write, Packet, Queued;
      ghost var before := im.outputs;
      for i := 0 to |history|
        invariant forall c :: Queued(im.outputs, c) == AddedIf(c == conn, Queued(before, c), Wire(history[..i]))
      {
        im.SendMessage(conn, history[i]);
        assert history[..i + 1] == history[..i] + [history[i]];
        WireSnoc(history[..i], history[i]);
        Assoc(Queued(before, conn), Wire(history[..i]), Packet(history[i]));
      }
      assert history[..|history|] == history;
    }

    method Welcome(im: IMServer, conn: ConnId, success: Bytes, joined: Bytes, history: seq<Bytes>)
      returns (overrun: bool)
      requires im.chat == this && im.Valid() && conn in im.live
      modifies im`outputs
      ensures overrun <==> Overruns(joined)
      ensures !overrun ==> forall c ::
                Queued(im.outputs, c) ==
                if c == conn then Queued(old(im.outputs), c) + (Packet(success) + Wire(history))
                else AddedIf(Registered(im.server, c), Queued(old(im.outputs), c), Packet(Cut(joined)))
      ensures |joined| <= 0xFFFF_FFFB ==>
                !overrun && forall c ::
                  (if c in im.outputs then im.outputs[c] else []) ==
                  (if c in old(im.outputs) then old(im.outputs)[c] else [])
                  + if c == conn then Packet(success) + Wire(history)
                    else if Registered(im.server, c) then Packet(joined) else []
    {
      hide Inv, Write, Packet, Queued, AddedIf, Registered, Wire, Cut, Overruns;
      im.SendMessage(conn, success);
      ghost var greeted := im.outputs;
      overrun := im.BroadcastMessage(im.live[conn], joined);
      if overrun {
        return;
      }
      ghost var told := im.outputs;
      SendHistory(im, conn, history);
      LoginAdds(im.server, conn, Packet(success), Packet(Cut(joined)), Wire(history), old(im.outputs), greeted, told, im.outputs);
      if |joined| <= 0xFFFF_FFFB {
        LoginGains(im.server, conn, Packet(success) + Wire(history), joined, old(im.outputs), im.outputs);
      }
    }

    /** handleLogin, when nothing runs between its sections: a token that verifies names the user, else
        the password decides (`known` is verifyUser's answer). The texts are those of the JSON values
        sent. `overrun`: the "joined" text is one with which broadcastMessage writes out of bounds. */
    method HandleLogin(im: IMServer, conn: ConnId, lib: Library, token: string, now: int, user: string, known: bool,
                       rejected: Bytes, success: Bytes, joined: Bytes, history: seq<Bytes>)
      returns (who: Option<string>, overrun: bool)
      requires im.chat == this && im.Valid() && conn in im.live && conn in im.holders && lib.DigestsAreBytes()
      modifies this, im`outputs
      ensures im.Valid()
      ensures who == if token != "" && VerifyToken(lib, token, now).Some? then VerifyToken(lib, token, now)
                     else if known then Some(user) else None
      ensures im.Dir() == if who.Some? then After(old(im.Dir()), Login(conn, who.value)) else old(im.Dir())
      ensures overrun <==> who.Some? && Overruns(joined)
      ensures who.None? ==> var o := old(im.outputs);
                im.outputs == o[conn := (if conn in o then o[conn] else []) + Packet(rejected)]
      ensures who.Some? && !overrun ==> forall c ::
                Queued(im.outputs, c) ==
                if c == conn then Queued(old(im.outputs), c) + (Packet(success) + Wire(history))
                else AddedIf(Registered(im.server, c), Queued(old(im.outputs), c), Packet(Cut(joined)))
      ensures who.Some? && |joined| <= 0xFFFF_FFFB ==>
                !overrun && forall c ::
                  (if c in im.outputs then im.outputs[c] else []) ==
                  (if c in old(im.outputs) then old(im.outputs)[c] else [])
                  + if c == conn then Packet(success) + Wire(history)
                    else if Registered(im.server, c) then Packet(joined) else []
    {
      hide Inv, Enabled, Next, Write, Packet, Queued, AddedIf, Registered, Wire, VerifyToken, Cut, Overruns;
      overrun := false;
      who := if token != "" then VerifyToken(lib, token, now) else None;
      if who.None? && known {
        who := Some(user);
      }
      if who.Some? {
        Enter(im, conn, who.value);
        overrun := Welcome(im, conn, success, joined, history);
      } else {
        im.SendMessage(conn, rejected);
      }
    }

    /** handlePrivate, when nothing runs between its sections. */
    method HandlePrivate(im: IMServer, conn: ConnId, to: string, message: Bytes, notOnline: Bytes)
      requires im.chat == this && im.Valid()
      modifies im`outputs
      ensures match Private(im.Dir(), im.server, im.server, to)
              case Delivered(c) => im.outputs == Write(old(im.outputs), c, Packet(message))
              case NotOnline => im.outputs == Write(old(im.outputs), conn, Packet(notOnline))
              case Lost => false
      ensures var found := to in onlineUsers && onlineUsers[to] in im.connections;
              var c := if found then im.connections[onlineUsers[to]] else conn;
              var o := old(im.outputs);
              im.outputs == o[c := (if c in o then o[c] else []) + Packet(if found then message else notOnline)]
    {
      NoFdIsNegative(im.server);
      hide Inv, Write, Packet;
      var targetFd := -1;
      if to in onlineUsers {
        targetFd := onlineUsers[to];
      }
      var active := im.IsConnectionActive(targetFd);
      if active {
        var packet := MakePacket(message);
        im.SendToUser(targetFd, packet[..]);
      } else {
        var packet := MakePacket(notOnline);
        im.WriteTo(conn, packet[..]);
      }
    }

    /** The names handleList sends. */
    method HandleList() returns (users: seq<string>)
      ensures forall i, j :: 0 <= i < j < |users| ==> users[i] != users[j]
      ensures forall user :: user in users <==> user in onlineUsers
    {
      users := [];
      var rest := onlineUsers.Keys;
      while rest != {}
        invariant rest <= onlineUsers.Keys
        invariant forall i, j :: 0 <= i < j < |users| ==> users[i] != users[j]
        invariant forall user :: user in users <==> user in onlineUsers && user !in rest
      {
        var user :| user in rest;
        users := users + [user];
        rest := rest - {user};
      }
    }
  }
}
