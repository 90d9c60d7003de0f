/** The server's mutexes. Every code path is written out as the locks it takes and gives back; any number
    of threads, each running any sequence of events, never wait for one another in a circle. */
module LockOrder {
  datatype Lock =
    | Server            // IMServer::m_mutex
    | Chat              // ChatService::mutex_
    | Out(conn: nat)    // Connection::out_mutex
    | Pool              // MySQLPool::mutex_
    | Log               // AsyncLogger::mutex_

  datatype Op = Acquire(l: Lock) | Release(l: Lock) | Park   // Park: asleep in a condition variable

  // ---- The sections of the code

  datatype Section =
    | Plain(l: Lock)                          // a section that calls nothing with a lock of its own
    | RemoveClient(registered: bool)          // removeClient; onDisconnect runs if the fd is mapped
    | SendTo(found: bool, conn: nat)          // sendToUser, or one target of a broadcast
    | GetConnection(waits: nat, errors: nat)  // sleeps and error lines before it returns
    | InitPool(errors: nat)
    | DrainLog(waited: bool)                  // the locked part of the logger thread's loop

  function Locked(l: Lock, body: seq<Op>): seq<Op> {
    [Acquire(l)] + body + [Release(l)]
  }

  function LogLines(n: nat): seq<Op> {
    if n == 0 then [] else [Acquire(Log), Release(Log)] + LogLines(n - 1)
  }

  function Sleep(l: Lock): seq<Op> {
    [Release(l), Park, Acquire(l)]
  }

  function Sleeps(l: Lock, n: nat): seq<Op> {
    if n == 0 then [] else Sleep(l) + Sleeps(l, n - 1)
  }

  function Ops(s: Section): seq<Op> {
    match s
    case Plain(l) => Locked(l, [])
    case RemoveClient(registered) => Locked(Server, if registered then Locked(Chat, []) else [])
    case SendTo(found, conn) => Locked(Server, if found then Locked(Out(conn), []) else [])
    case GetConnection(waits, errors) => Locked(Pool, Sleeps(Pool, waits) + LogLines(errors))
    case InitPool(errors) => Locked(Pool, LogLines(errors))
    case DrainLog(waited) => Locked(Log, if waited then Sleep(Log) else [])
  }

  // ---- The handlers, and the events that run them

  /** A database call: borrow, perhaps log a failed query, and give back what was borrowed. */
  datatype Query = Query(waits: nat, errors: nat, got: bool, failed: bool)

  function Sections(q: Query): seq<Section> {
    [GetConnection(q.waits, q.errors)]
    + (if q.got && q.failed then [Plain(Log)] else [])
    + (if q.got then [Plain(Pool)] else [])
  }

  /** What one decoded message makes the server do; targets say who is still found, and under which
      number, when a broadcast comes to each. */
  datatype Message =
    | Garbage
    | Unknown
    | Heartbeat
    | RegisterUser(query: seq<Query>)
    | RejectedLogin(q: Query)
    | AcceptedLogin(query: seq<Query>, targets: seq<(bool, nat)>, recent: Query, history: nat)
    | ChatLine(q: Query, targets: seq<(bool, nat)>)
    | PrivateLine(q: Query, active: bool, found: bool, to: nat)
    | List

  function Queries(qs: seq<Query>): seq<Section> {
    if qs == [] then [] else Sections(qs[0]) + Queries(qs[1..])
  }

  function Broadcast(targets: seq<(bool, nat)>): seq<Section> {
    [Plain(Server)] + seq(|targets|, i requires 0 <= i < |targets| => SendTo(targets[i].0, targets[i].1))
  }

  function Handler(conn: nat, m: Message): seq<Section> {
    match m
    case Garbage => [Plain(Log)]
    case Unknown => [Plain(Log)]
    case Heartbeat => [Plain(Log)]
    case RegisterUser(query) => Queries(query) + [Plain(Out(conn))]
    case RejectedLogin(q) => Sections(q) + [Plain(Out(conn)), Plain(Log)]
    case AcceptedLogin(query, targets, recent, history) =>
      Queries(query) + [Plain(Chat), Plain(Log), Plain(Out(conn))] + Broadcast(targets)
      + Sections(recent) + seq(history, i => Plain(Out(conn)))
    case ChatLine(q, targets) => [Plain(Log)] + Sections(q) + Broadcast(targets)
    case PrivateLine(q, active, found, to) =>
      [Plain(Log), Plain(Chat)] + Sections(q) + [Plain(Server)]
      + (if active then [SendTo(found, to)] else [Plain(Out(conn)), Plain(Log)])
    case List => [Plain(Chat), Plain(Out(conn)), Plain(Log)]
  }

  function OnMessages(conn: nat, messages: seq<Message>): seq<Section> {
    if messages == [] then []
    else (if messages[0].Garbage? then [] else [Plain(Server)]) + Handler(conn, messages[0]) + OnMessages(conn, messages[1..])
  }

  function OnClose(registered: bool): seq<Section> {
    [Plain(Log), RemoveClient(registered)]
  }

  function Expire(expired: seq<bool>): seq<Section> {
    if expired == [] then [] else OnClose(expired[0]) + Expire(expired[1..])
  }

  function Accept(n: nat): seq<Section> {
    if n == 0 then [] else [Plain(Server), Plain(Log)] + Accept(n - 1)
  }

  datatype Event =
    | Start(errors: nat)
    | Connections(accepted: nat, failed: bool)
    | Readable(conn: nat, messages: seq<Message>, ended: bool, registered: bool)
    | Writable(conn: nat, failed: bool, registered: bool)
    | HangUp(registered: bool)
    | Tick(expired: seq<bool>)
    | Flush(waited: bool)

  function OfEvent(e: Event): seq<Section> {
    match e
    case Start(errors) => [InitPool(errors)]
    case Connections(accepted, failed) => Accept(accepted) + if failed then [Plain(Log)] else []
    case Readable(conn, messages, ended, registered) =>
      OnMessages(conn, messages) + if ended then OnClose(registered) else []
    case Writable(conn, failed, registered) => [Plain(Out(conn))] + if failed then OnClose(registered) else []
    case HangUp(registered) => OnClose(registered)
    case Tick(expired) => [Plain(Server)] + Expire(expired)
    case Flush(waited) => [DrainLog(waited)]
  }

  function OfSections(ss: seq<Section>): seq<Op> {
    if ss == [] then [] else Ops(ss[0]) + OfSections(ss[1..])
  }

  function Program(events: seq<Event>): seq<Op> {
    if events == [] then [] else OfSections(OfEvent(events[0])) + Program(events[1..])
  }

  // ---- Who takes what

  /** The sections one by one. */
  lemma SectionsByValue(l: Lock, conn: nat)
    ensures Ops(Plain(l)) == [Acquire(l), Release(l)]
    ensures Ops(RemoveClient(true)) == [Acquire(Server), Acquire(Chat), Release(Chat), Release(Server)]
    ensures Ops(RemoveClient(false)) == [Acquire(Server), Release(Server)]
    ensures Ops(SendTo(true, conn)) == [Acquire(Server), Acquire(Out(conn)), Release(Out(conn)), Release(Server)]
    ensures Ops(SendTo(false, conn)) == [Acquire(Server), Release(Server)]
    ensures Ops(GetConnection(1, 1)) ==
            [Acquire(Pool), Release(Pool), Park, Acquire(Pool), Acquire(Log), Release(Log), Release(Pool)]
    ensures Ops(InitPool(1)) == [Acquire(Pool), Acquire(Log), Release(Log), Release(Pool)]
    ensures Ops(DrainLog(true)) == [Acquire(Log), Release(Log), Park, Acquire(Log), Release(Log)]
    ensures Ops(DrainLog(false)) == [Acquire(Log), Release(Log)]
  {
    assert LogLines(1) == [Acquire(Log), Release(Log)] && Sleeps(Pool, 1) == Sleep(Pool);
  }

  function Acquired(ops: seq<Op>): set<Lock> {
    set o | o in ops && o.Acquire? :: o.l
  }

  lemma AcquiredBoth(a: seq<Op>, b: seq<Op>)
    ensures Acquired(a + b) == Acquired(a) + Acquired(b)
  {
  }

  lemma {:induction false} AcquiredByLines(n: nat)
    ensures Acquired(LogLines(n)) == if n == 0 then {} else {Log}
  {
    if n > 0 {
      AcquiredByLines(n - 1);
      AcquiredBoth([Acquire(Log), Release(Log)], LogLines(n - 1));
    }
  }

  lemma {:induction false} AcquiredBySleeps(l: Lock, n: nat)
    ensures Acquired(Sleeps(l, n)) == if n == 0 then {} else {l}
  {
    if n > 0 {
      AcquiredBySleeps(l, n - 1);
      AcquiredBoth(Sleep(l), Sleeps(l, n - 1));
    }
  }

  lemma AcquiredInside(l: Lock, body: seq<Op>)
    ensures Acquired(Locked(l, body)) == {l} + Acquired(body)
  {
    AcquiredBoth([Acquire(l)], body);
    AcquiredBoth([Acquire(l)] + body, [Release(l)]);
  }

  lemma AcquiredBySleep(l: Lock)
    ensures Acquired(Sleep(l)) == {l} && Acquired([]) == {}
  {
  }

  /** The locks that a section takes. */
  lemma SectionLocks(s: Section)
    ensures Acquired(Ops(s)) == match s
                                case Plain(l) => {l}
                                case RemoveClient(registered) => {Server} + if registered then {Chat} else {}
                                case SendTo(found, conn) => {Server} + if found then {Out(conn)} else {}
                                case GetConnection(_, errors) => {Pool} + if errors > 0 then {Log} else {}
                                case InitPool(errors) => {Pool} + if errors > 0 then {Log} else {}
                                case DrainLog(_) => {Log}
  {
    hide Acquired, Locked, LogLines, Sleeps, Sleep;
    AcquiredBySleep(Log);
    match s
    case Plain(l) => AcquiredInside(l, []);
    case RemoveClient(registered) =>
      AcquiredInside(Chat, []);
      AcquiredInside(Server, if registered then Locked(Chat, []) else []);
    case SendTo(found, conn) =>
      AcquiredInside(Out(conn), []);
      AcquiredInside(Server, if found then Locked(Out(conn), []) else []);
    case GetConnection(waits, errors) =>
      AcquiredInside(Pool, Sleeps(Pool, waits) + LogLines(errors));
      AcquiredBoth(Sleeps(Pool, waits), LogLines(errors));
      AcquiredBySleeps(Pool, waits);
      AcquiredByLines(errors);
    case InitPool(errors) =>
      AcquiredInside(Pool, LogLines(errors));
      AcquiredByLines(errors);
    case DrainLog(waited) => AcquiredInside(Log, if waited then Sleep(Log) else []);
  }

  /** The locks that a handler or an event takes. */
  function Locks(ss: seq<Section>): set<Lock> {
    Acquired(OfSections(ss))
  }

  lemma LocksFirst(s: Section, ss: seq<Section>)
    ensures Locks([s] + ss) == Acquired(Ops(s)) + Locks(ss)
  {
    assert ([s] + ss)[1..] == ss;
    AcquiredBoth(Ops(s), OfSections(ss));
  }

  lemma LocksOfNone()
    ensures Locks([]) == {}
  {
  }

  lemma {:induction false} LocksBoth(a: seq<Section>, b: seq<Section>)
    ensures Locks(a + b) == Locks(a) + Locks(b)
    decreases |a|
  {
    hide Locks;
    LocksOfNone();
    if a == [] {
      assert a + b == b;
    } else {
      LocksBoth(a[1..], b);
      LocksFirst(a[0], a[1..]);
      LocksFirst(a[0], a[1..] + b);
      assert a == [a[0]] + a[1..] && a + b == [a[0]] + (a[1..] + b);
    }
  }

  lemma LocksOfOne(s: Section)
    ensures Locks([s]) == Acquired(Ops(s))
  {
    LocksFirst(s, []);
    LocksOfNone();
    assert [s] + [] == [s];
  }

  lemma LocksOfPlain(l: Lock)
    ensures Locks([Plain(l)]) == {l}
  {
    LocksOfOne(Plain(l));
    SectionLocks(Plain(l));
  }

  /** Out of a broadcast's targets, the connections still found. */
  function FoundOf(targets: seq<(bool, nat)>): set<Lock> {
    set t | t in targets && t.0 :: Out(t.1)
  }

  lemma FoundFirst(targets: seq<(bool, nat)>)
    requires targets != []
    ensures FoundOf(targets) == FoundOf(targets[1..]) + if targets[0].0 then {Out(targets[0].1)} else {}
  {
    assert targets == [targets[0]] + targets[1..];
  }

  lemma {:induction false} LocksOfTargets(targets: seq<(bool, nat)>)
    ensures var ss := seq(|targets|, i requires 0 <= i < |targets| => SendTo(targets[i].0, targets[i].1));
            Locks(ss) == (if targets == [] then {} else {Server}) + FoundOf(targets)
  {
    hide Locks, Acquired, Ops;
    LocksOfNone();
    var ss := seq(|targets|, i requires 0 <= i < |targets| => SendTo(targets[i].0, targets[i].1));
    if targets == [] {
      assert ss == [];
    } else {
      var rest := targets[1..];
      var first := SendTo(targets[0].0, targets[0].1);
      assert ss == [first] + seq(|rest|, i requires 0 <= i < |rest| => SendTo(rest[i].0, rest[i].1));
      LocksOfTargets(rest);
      LocksFirst(first, ss[1..]);
      SectionLocks(first);
      FoundFirst(targets);
    }
  }

  lemma LocksOfBroadcast(targets: seq<(bool, nat)>)
    ensures Locks(Broadcast(targets)) == {Server} + FoundOf(targets)
  {
    hide Locks, FoundOf;
    var ss := seq(|targets|, i requires 0 <= i < |targets| => SendTo(targets[i].0, targets[i].1));
    LocksBoth([Plain(Server)], ss);
    LocksOfPlain(Server);
    LocksOfTargets(targets);
  }

  /** A query needs the pool, and the log if something goes wrong. */
  lemma LocksOfQuery(q: Query)
    ensures Locks(Sections(q)) == {Pool} + if q.errors > 0 || (q.got && q.failed) then {Log} else {}
  {
    hide Locks, Acquired, Ops;
    var a, b, c := [GetConnection(q.waits, q.errors)], if q.got && q.failed then [Plain(Log)] else [],
                   if q.got then [Plain(Pool)] else [];
    LocksBoth(a + b, c);
    LocksBoth(a, b);
    LocksOfOne(a[0]);
    SectionLocks(a[0]);
    LocksOfPlain(Log);
    LocksOfPlain(Pool);
    LocksOfNone();
  }

  lemma {:induction false} LocksOfQueries(qs: seq<Query>)
    ensures {Pool} <= Locks(Queries(qs)) + (if qs == [] then {Pool} else {})
    ensures Locks(Queries(qs)) <= if qs == [] then {} else {Pool, Log}
  {
    hide Locks, Sections;
    LocksOfNone();
    if qs != [] {
      LocksOfQuery(qs[0]);
      LocksOfQueries(qs[1..]);
      LocksBoth(Sections(qs[0]), Queries(qs[1..]));
    }
  }

  lemma {:induction false} LocksOfCopies(n: nat, l: Lock)
    ensures Locks(seq(n, i => Plain(l))) == if n == 0 then {} else {l}
  {
    hide Locks;
    LocksOfNone();
    if n == 0 {
      assert seq(n, i => Plain(l)) == [];
    } else {
      LocksOfCopies(n - 1, l);
      LocksOfPlain(l);
      LocksBoth([Plain(l)], seq(n - 1, i => Plain(l)));
      assert seq(n, i => Plain(l)) == [Plain(l)] + seq(n - 1, i => Plain(l));
    }
  }

  lemma LocksOfTwo(a: Lock, b: Lock)
    ensures Locks([Plain(a), Plain(b)]) == {a, b}
  {
    hide Locks;
    LocksOfPlain(a);
    LocksOfPlain(b);
    LocksBoth([Plain(a)], [Plain(b)]);
    assert [Plain(a)] + [Plain(b)] == [Plain(a), Plain(b)];
  }

  lemma LocksOfThree(a: Lock, b: Lock, c: Lock)
    ensures Locks([Plain(a), Plain(b), Plain(c)]) == {a, b, c}
  {
    hide Locks;
    LocksOfTwo(a, b);
    LocksOfPlain(c);
    LocksBoth([Plain(a), Plain(b)], [Plain(c)]);
    assert [Plain(a), Plain(b)] + [Plain(c)] == [Plain(a), Plain(b), Plain(c)];
  }

  lemma NoLogFound(targets: seq<(bool, nat)>)
    ensures Log !in FoundOf(targets)
  {
  }

  lemma LoginLocks(conn: nat, query: seq<Query>, targets: seq<(bool, nat)>, recent: Query, history: nat)
    ensures var locks := Locks(Handler(conn, AcceptedLogin(query, targets, recent, history)));
            locks - {Log} == {Chat, Out(conn), Server, Pool} + FoundOf(targets) && Log in locks
  {
    NoLogFound(targets);
    hide Locks, Sections, Broadcast, Queries, FoundOf;
    var a, b, c, d, e := Queries(query), [Plain(Chat), Plain(Log), Plain(Out(conn))], Broadcast(targets), Sections(recent),
                         seq(history, i => Plain(Out(conn)));
    LocksBoth(a + b + c + d, e);
    LocksBoth(a + b + c, d);
    LocksBoth(a + b, c);
    LocksBoth(a, b);
    LocksOfQueries(query);
    LocksOfThree(Chat, Log, Out(conn));
    LocksOfBroadcast(targets);
    LocksOfQuery(recent);
    LocksOfCopies(history, Out(conn));
  }

  lemma PrivateLocks(conn: nat, q: Query, active: bool, found: bool, to: nat)
    ensures var locks := Locks(Handler(conn, PrivateLine(q, active, found, to)));
            locks - {Log} == {Chat, Pool, Server} + (if !active then {Out(conn)} else if found then {Out(to)} else {})
            && Log in locks
  {
    hide Locks, Sections, Acquired, Ops;
    var last := if active then [SendTo(found, to)] else [Plain(Out(conn)), Plain(Log)];
    LocksBoth([Plain(Log), Plain(Chat)] + Sections(q) + [Plain(Server)], last);
    LocksBoth([Plain(Log), Plain(Chat)] + Sections(q), [Plain(Server)]);
    LocksBoth([Plain(Log), Plain(Chat)], Sections(q));
    LocksOfTwo(Log, Chat);
    LocksOfQuery(q);
    LocksOfPlain(Server);
    LocksOfTwo(Out(conn), Log);
    LocksOfOne(SendTo(found, to));
    SectionLocks(SendTo(found, to));
  }

  /** Which locks, but for the log's, a message makes the server take. */
  lemma MessageLocks(conn: nat, m: Message)
    ensures Locks(Handler(conn, m)) - {Log} ==
            match m
            case RegisterUser(query) => {Out(conn)} + if query != [] then {Pool} else {}
            case RejectedLogin(_) => {Pool, Out(conn)}
            case AcceptedLogin(_, targets, _, _) => {Chat, Out(conn), Server, Pool} + FoundOf(targets)
            case ChatLine(_, targets) => {Pool, Server} + FoundOf(targets)
            case PrivateLine(_, active, found, to) =>
              {Chat, Pool, Server} + if !active then {Out(conn)} else if found then {Out(to)} else {}
            case List => {Chat, Out(conn)}
            case _ => {}
    ensures !m.RegisterUser? ==> Log in Locks(Handler(conn, m))
  {
    hide Locks, Sections, Broadcast, Queries, Acquired, Ops;
    LocksOfPlain(Log);
    match m
    case RegisterUser(query) =>
      LocksOfQueries(query);
      LocksOfPlain(Out(conn));
      LocksBoth(Queries(query), [Plain(Out(conn))]);
    case RejectedLogin(q) =>
      LocksOfQuery(q);
      LocksOfTwo(Out(conn), Log);
      LocksBoth(Sections(q), [Plain(Out(conn)), Plain(Log)]);
    case AcceptedLogin(query, targets, recent, history) => LoginLocks(conn, query, targets, recent, history);
    case ChatLine(q, targets) =>
      NoLogFound(targets);
      LocksOfQuery(q);
      LocksOfBroadcast(targets);
      LocksBoth([Plain(Log)] + Sections(q), Broadcast(targets));
      LocksBoth([Plain(Log)], Sections(q));
    case PrivateLine(q, active, found, to) => PrivateLocks(conn, q, active, found, to);
    case List => LocksOfThree(Chat, Out(conn), Log);
    case _ =>
  }

  lemma {:induction false} MessagesLocks(conn: nat, messages: seq<Message>, l: Lock)
    ensures l in Locks(OnMessages(conn, messages)) <==>
              exists i :: 0 <= i < |messages|
                       && (l in Locks(Handler(conn, messages[i])) || (l == Server && !messages[i].Garbage?))
  {
    hide Locks, Handler;
    LocksOfNone();
    if messages != [] {
      var rest := messages[1..];
      var first := if messages[0].Garbage? then [] else [Plain(Server)];
      LocksBoth(first + Handler(conn, messages[0]), OnMessages(conn, rest));
      LocksBoth(first, Handler(conn, messages[0]));
      LocksOfPlain(Server);
      MessagesLocks(conn, rest, l);
      if i :| 0 <= i < |rest| && (l in Locks(Handler(conn, rest[i])) || (l == Server && !rest[i].Garbage?)) {
        assert messages[i + 1] == rest[i];
      }
      if i :| 0 < i < |messages| && (l in Locks(Handler(conn, messages[i])) || (l == Server && !messages[i].Garbage?)) {
        assert rest[i - 1] == messages[i];
      }
    }
  }

  lemma LocksOfClose(registered: bool)
    ensures Locks(OnClose(registered)) == {Log, Server} + if registered then {Chat} else {}
  {
    hide Locks, Acquired, Ops;
    LocksFirst(Plain(Log), [RemoveClient(registered)]);
    LocksOfOne(RemoveClient(registered));
    SectionLocks(Plain(Log));
    SectionLocks(RemoveClient(registered));
    assert [Plain(Log)] + [RemoveClient(registered)] == OnClose(registered);
  }

  lemma {:induction false} LocksOfExpire(expired: seq<bool>)
    ensures Locks(Expire(expired)) ==
            (if expired == [] then {} else {Log, Server}) + if true in expired then {Chat} else {}
  {
    hide Locks;
    LocksOfNone();
    if expired != [] {
      LocksOfExpire(expired[1..]);
      LocksOfClose(expired[0]);
      LocksBoth(OnClose(expired[0]), Expire(expired[1..]));
      assert expired == [expired[0]] + expired[1..];
    }
  }

  lemma {:induction false} LocksOfAccept(n: nat)
    ensures Locks(Accept(n)) == if n == 0 then {} else {Server, Log}
  {
    hide Locks;
    LocksOfNone();
    if n > 0 {
      LocksOfAccept(n - 1);
      LocksOfTwo(Server, Log);
      LocksBoth([Plain(Server), Plain(Log)], Accept(n - 1));
    }
  }

  /** Which locks an event of a thread takes; MessagesLocks says which its messages do. */
  lemma EventLocks(e: Event)
    ensures var closing := (registered: bool) => {Log, Server} + if registered then {Chat} else {};
            Locks(OfEvent(e)) ==
            match e
            case Start(errors) => {Pool} + if errors > 0 then {Log} else {}
            case Connections(accepted, failed) =>
              (if accepted > 0 then {Server} else {}) + if accepted > 0 || failed then {Log} else {}
            case Readable(conn, messages, ended, registered) =>
              Locks(OnMessages(conn, messages)) + if ended then closing(registered) else {}
            case Writable(conn, failed, registered) => {Out(conn)} + if failed then closing(registered) else {}
            case HangUp(registered) => closing(registered)
            case Tick(expired) =>
              {Server} + (if expired == [] then {} else {Log}) + if true in expired then {Chat} else {}
            case Flush(_) => {Log}
  {
    hide Locks, Acquired, Ops, OnMessages, OnClose, Expire, Accept;
    LocksOfNone();
    LocksOfPlain(Log);
    match e
    case Start(errors) => LocksOfOne(InitPool(errors)); SectionLocks(InitPool(errors));
    case Connections(accepted, failed) =>
      LocksOfAccept(accepted);
      LocksBoth(Accept(accepted), if failed then [Plain(Log)] else []);
    case Readable(conn, messages, ended, registered) =>
      LocksOfClose(registered);
      LocksBoth(OnMessages(conn, messages), if ended then OnClose(registered) else []);
    case Writable(conn, failed, registered) =>
      LocksOfClose(registered);
      LocksOfPlain(Out(conn));
      LocksBoth([Plain(Out(conn))], if failed then OnClose(registered) else []);
    case HangUp(registered) => LocksOfClose(registered);
    case Tick(expired) =>
      LocksOfPlain(Server);
      LocksOfExpire(expired);
      LocksBoth([Plain(Server)], Expire(expired));
    case Flush(waited) => LocksOfOne(DrainLog(waited)); SectionLocks(DrainLog(waited));
  }

  lemma {:induction false} ProgramLocks(events: seq<Event>, l: Lock)
    ensures l in Acquired(Program(events)) <==> exists i :: 0 <= i < |events| && l in Locks(OfEvent(events[i]))
  {
    hide Acquired, OfEvent, OfSections;
    if events == [] {
      AcquiredBySleep(l);
    } else {
      var rest := events[1..];
      ProgramLocks(rest, l);
      AcquiredBoth(OfSections(OfEvent(events[0])), Program(rest));
      assert l in Acquired(OfSections(OfEvent(events[0]))) <==> l in Locks(OfEvent(events[0]));
      if i :| 0 <= i < |rest| && l in Locks(OfEvent(rest[i])) {
        assert events[i + 1] == rest[i];
      }
      if i :| 0 < i < |events| && l in Locks(OfEvent(events[i])) {
        assert rest[i - 1] == events[i];
      }
    }
  }

  // ---- One after the other

  lemma {:induction false} QueriesInTurn(a: seq<Query>, b: seq<Query>, q: Query)
    ensures Queries(a + b) == Queries(a) + Queries(b) && Queries([q]) == Sections(q)
    decreases |a|
  {
    assert [q][1..] == [] && Sections(q) + [] == Sections(q);
    if a == [] {
      assert a + b == b;
    } else {
      QueriesInTurn(a[1..], b, q);
      assert (a + b)[1..] == a[1..] + b;
      assert Sections(a[0]) + (Queries(a[1..]) + Queries(b)) == Sections(a[0]) + Queries(a[1..]) + Queries(b);
    }
  }

  lemma {:induction false} MessagesInTurn(conn: nat, a: seq<Message>, b: seq<Message>, m: Message)
    ensures OnMessages(conn, a + b) == OnMessages(conn, a) + OnMessages(conn, b)
    ensures OnMessages(conn, [m]) == (if m.Garbage? then [] else [Plain(Server)]) + Handler(conn, m)
    decreases |a|
  {
    hide Handler;
    assert [m][1..] == [];
    if a == [] {
      assert a + b == b;
    } else {
      MessagesInTurn(conn, a[1..], b, m);
      assert (a + b)[1..] == a[1..] + b;
    }
  }

  lemma {:induction false} AcceptsInTurn(m: nat, n: nat)
    ensures Accept(m + n) == Accept(m) + Accept(n) && Accept(1) == [Plain(Server), Plain(Log)]
    decreases m
  {
    if m > 0 {
      AcceptsInTurn(m - 1, n);
    }
  }

  lemma {:induction false} ClosesInTurn(a: seq<bool>, b: seq<bool>, registered: bool)
    ensures Expire(a + b) == Expire(a) + Expire(b) && Expire([registered]) == OnClose(registered)
    decreases |a|
  {
    assert [registered][1..] == [];
    if a == [] {
      assert a + b == b;
    } else {
      ClosesInTurn(a[1..], b, registered);
      assert (a + b)[1..] == a[1..] + b;
    }
  }

  /** A thread does its events one after the other, and each section of an event. */
  lemma {:induction false} EventsInTurn(a: seq<Event>, b: seq<Event>, e: Event)
    ensures Program(a + b) == Program(a) + Program(b) && Program([e]) == OfSections(OfEvent(e))
    decreases |a|
  {
    hide OfEvent, OfSections;
    assert [e][1..] == [];
    if a == [] {
      assert a + b == b;
    } else {
      EventsInTurn(a[1..], b, e);
      assert (a + b)[1..] == a[1..] + b;
    }
  }

  lemma {:induction false} SectionsInTurn(a: seq<Section>, b: seq<Section>, s: Section)
    ensures OfSections(a + b) == OfSections(a) + OfSections(b) && OfSections([s]) == Ops(s)
    decreases |a|
  {
    hide Ops;
    assert [s][1..] == [];
    if a == [] {
      assert a + b == b;
    } else {
      SectionsInTurn(a[1..], b, s);
      assert (a + b)[1..] == a[1..] + b;
    }
  }

  // ---- The discipline

  function Rank(l: Lock): nat {
    match l case Server => 0 case Chat => 1 case Out(_) => 2 case Pool => 3 case Log => 4
  }

  /** Locks are taken upwards and given back last first; who sleeps or stops holds none. */
  ghost predicate Disciplined(held: seq<Lock>, todo: seq<Op>)
    decreases |todo|
  {
    if todo == [] then held == []
    else
      match todo[0]
      case Acquire(l) => (forall h :: h in held ==> Rank(h) < Rank(l)) && Disciplined(held + [l], todo[1..])
      case Release(l) => held != [] && held[|held| - 1] == l && Disciplined(held[..|held| - 1], todo[1..])
      case Park => held == [] && Disciplined(held, todo[1..])
  }

  lemma {:induction false} ThenDisciplined(held: seq<Lock>, a: seq<Op>, b: seq<Op>)
    requires Disciplined(held, a) && Disciplined([], b)
    ensures Disciplined(held, a + b)
    decreases |a|
  {
    if a == [] {
      assert a + b == b;
    } else {
      assert (a + b)[0] == a[0] && (a + b)[1..] == a[1..] + b;
      match a[0]
      case Acquire(l) => ThenDisciplined(held + [l], a[1..], b);
      case Release(l) => ThenDisciplined(held[..|held| - 1], a[1..], b);
      case Park => ThenDisciplined(held, a[1..], b);
    }
  }

  /** A lock above those held can be taken and given back at any point. */
  lemma NestedSection(held: seq<Lock>, l: Lock, rest: seq<Op>)
    requires (forall h :: h in held ==> Rank(h) < Rank(l)) && Disciplined(held, rest)
    ensures Disciplined(held, [Acquire(l), Release(l)] + rest)
  {
    var all := [Acquire(l), Release(l)] + rest;
    assert all[1..] == [Release(l)] + rest && all[1..][1..] == rest;
    assert (held + [l])[..|held|] == held;
    assert Disciplined(held + [l], all[1..]);
  }

  lemma OneMoreLine(n: nat, rest: seq<Op>)
    requires n > 0
    ensures LogLines(n) + rest == [Acquire(Log), Release(Log)] + (LogLines(n - 1) + rest)
  {
  }

  lemma {:induction false} LogLinesNest(held: seq<Lock>, n: nat, rest: seq<Op>)
    requires (forall h :: h in held ==> Rank(h) < Rank(Log)) && Disciplined(held, rest)
    ensures Disciplined(held, LogLines(n) + rest)
  {
    if n == 0 {
      assert LogLines(0) + rest == rest;
    } else {
      hide Disciplined;
      LogLinesNest(held, n - 1, rest);
      NestedSection(held, Log, LogLines(n - 1) + rest);
      OneMoreLine(n, rest);
    }
  }

  /** The wait gives the lock up and takes it again. */
  lemma OneSleep(l: Lock, rest: seq<Op>)
    requires Disciplined([l], rest)
    ensures Disciplined([l], Sleep(l) + rest)
  {
    var all := Sleep(l) + rest;
    assert all[1..] == [Park, Acquire(l)] + rest;
    assert all[1..][1..] == [Acquire(l)] + rest;
    assert all[1..][1..][1..] == rest;
    assert [l][..0] == [] && [] + [l] == [l];
    assert Disciplined([], all[1..][1..]);
    assert Disciplined([], all[1..]);
  }

  lemma OneMoreSleep(l: Lock, n: nat, rest: seq<Op>)
    requires n > 0
    ensures Sleeps(l, n) + rest == Sleep(l) + (Sleeps(l, n - 1) + rest)
  {
  }

  lemma {:induction false} SleepsNest(l: Lock, n: nat, rest: seq<Op>)
    requires Disciplined([l], rest)
    ensures Disciplined([l], Sleeps(l, n) + rest)
  {
    if n == 0 {
      assert Sleeps(l, 0) + rest == rest;
    } else {
      hide Disciplined;
      SleepsNest(l, n - 1, rest);
      OneSleep(l, Sleeps(l, n - 1) + rest);
      OneMoreSleep(l, n, rest);
    }
  }

  lemma LastRelease(l: Lock)
    ensures Disciplined([l], [Release(l)])
  {
    assert [Release(l)][1..] == [] && [l][..0] == [];
  }

  lemma OuterSection(l: Lock, body: seq<Op>)
    requires Disciplined([l], body + [Release(l)])
    ensures Disciplined([], Locked(l, body))
  {
    var all := Locked(l, body);
    assert all[0] == Acquire(l) && all[1..] == body + [Release(l)];
    assert [] + [l] == [l];
    hide Locked;
  }

  lemma NestedOnce(outer: Lock, inner: Lock, taken: bool)
    requires Rank(outer) < Rank(inner)
    ensures Disciplined([], Locked(outer, if taken then Locked(inner, []) else []))
  {
    hide Disciplined;
    var body := if taken then Locked(inner, []) else [];
    LastRelease(outer);
    NestedSection([outer], inner, [Release(outer)]);
    assert body + [Release(outer)] == if taken then [Acquire(inner), Release(inner)] + [Release(outer)] else [Release(outer)];
    OuterSection(outer, body);
  }

  lemma SectionIsDisciplined(s: Section)
    ensures Disciplined([], Ops(s))
  {
    hide Disciplined;
    match s
    case Plain(l) =>
      LastRelease(l);
      assert [] + [Release(l)] == [Release(l)];
      OuterSection(l, []);
    case RemoveClient(registered) => NestedOnce(Server, Chat, registered);
    case SendTo(found, conn) => NestedOnce(Server, Out(conn), found);
    case GetConnection(waits, errors) =>
      LastRelease(Pool);
      LogLinesNest([Pool], errors, [Release(Pool)]);
      SleepsNest(Pool, waits, LogLines(errors) + [Release(Pool)]);
      assert Sleeps(Pool, waits) + LogLines(errors) + [Release(Pool)] == Sleeps(Pool, waits) + (LogLines(errors) + [Release(Pool)]);
      OuterSection(Pool, Sleeps(Pool, waits) + LogLines(errors));
    case InitPool(errors) =>
      LastRelease(Pool);
      LogLinesNest([Pool], errors, [Release(Pool)]);
      OuterSection(Pool, LogLines(errors));
    case DrainLog(waited) =>
      LastRelease(Log);
      OneSleep(Log, [Release(Log)]);
      assert [] + [Release(Log)] == [Release(Log)];
      OuterSection(Log, if waited then Sleep(Log) else []);
  }

  lemma EmptyIsDisciplined()
    ensures Disciplined([], [])
  {
  }

  lemma {:induction false} SectionsAreDisciplined(ss: seq<Section>)
    ensures Disciplined([], OfSections(ss))
  {
    hide Disciplined;
    if ss == [] {
      EmptyIsDisciplined();
    } else {
      SectionIsDisciplined(ss[0]);
      SectionsAreDisciplined(ss[1..]);
      ThenDisciplined([], Ops(ss[0]), OfSections(ss[1..]));
    }
  }

  lemma {:induction false} ProgramIsDisciplined(events: seq<Event>)
    ensures Disciplined([], Program(events))
  {
    hide Disciplined, OfSections, OfEvent;
    if events == [] {
      EmptyIsDisciplined();
    } else {
      SectionsAreDisciplined(OfEvent(events[0]));
      ProgramIsDisciplined(events[1..]);
      ThenDisciplined([], OfSections(OfEvent(events[0])), Program(events[1..]));
    }
  }

  // ---- Threads

  datatype Thread = Thread(held: seq<Lock>, todo: seq<Op>)

  type State = seq<Thread>

  function InitialState(programs: seq<seq<Event>>): State {
    seq(|programs|, i requires 0 <= i < |programs| => Thread([], Program(programs[i])))
  }

  ghost predicate Free(s: State, l: Lock) {
    forall i :: 0 <= i < |s| ==> l !in s[i].held
  }

  ghost predicate CanRun(s: State, i: nat) {
    i < |s| && s[i].todo != [] && (s[i].todo[0].Acquire? ==> Free(s, s[i].todo[0].l))
  }

  function Advance(t: Thread): Thread
    requires t.todo != []
  {
    var rest := t.todo[1..];
    match t.todo[0]
    case Acquire(l) => Thread(t.held + [l], rest)
    case Release(l) => Thread(if t.held == [] then [] else t.held[..|t.held| - 1], rest)
    case Park => Thread(t.held, rest)
  }

  ghost predicate Reaches(s: State, schedule: seq<nat>, t: State)
    decreases |schedule|
  {
    if schedule == [] then s == t
    else CanRun(s, schedule[0]) && Reaches(s[schedule[0] := Advance(s[schedule[0]])], schedule[1..], t)
  }

  ghost predicate AllDisciplined(s: State) {
    forall i :: 0 <= i < |s| ==> Disciplined(s[i].held, s[i].todo)
  }

  ghost predicate Exclusive(s: State) {
    forall i, j, l :: 0 <= i < |s| && 0 <= j < |s| && l in s[i].held && l in s[j].held ==> i == j
  }

  lemma AdvanceDisciplined(t: Thread)
    requires t.todo != [] && Disciplined(t.held, t.todo)
    ensures Disciplined(Advance(t).held, Advance(t).todo)
    ensures forall l :: l in Advance(t).held ==> l in t.held || t.todo[0] == Acquire(l)
  {
  }

  lemma StepKeeps(s: State, i: nat)
    requires AllDisciplined(s) && Exclusive(s) && CanRun(s, i)
    ensures var t := s[i := Advance(s[i])]; AllDisciplined(t) && Exclusive(t)
  {
    AdvanceDisciplined(s[i]);
    hide Advance, Disciplined;
  }

  lemma {:induction false} RunKeeps(s: State, schedule: seq<nat>, t: State)
    requires AllDisciplined(s) && Exclusive(s) && Reaches(s, schedule, t)
    ensures AllDisciplined(t) && Exclusive(t)
    decreases |schedule|
  {
    hide AllDisciplined, Exclusive, Free, Advance;
    if schedule != [] {
      StepKeeps(s, schedule[0]);
      RunKeeps(s[schedule[0] := Advance(s[schedule[0]])], schedule[1..], t);
    }
  }

  lemma ReachableIsDisciplined(programs: seq<seq<Event>>, schedule: seq<nat>, s: State)
    requires Reaches(InitialState(programs), schedule, s)
    ensures AllDisciplined(s) && Exclusive(s)
  {
    hide Disciplined, Program, Reaches;
    var init := InitialState(programs);
    forall i | 0 <= i < |init|
      ensures Disciplined(init[i].held, init[i].todo)
    {
      ProgramIsDisciplined(programs[i]);
    }
    RunKeeps(init, schedule, s);
  }

  /** i is blocked on a lock that j has. */
  ghost predicate WaitsFor(s: State, i: nat, j: nat) {
    i < |s| && j < |s| && s[i].todo != [] && s[i].todo[0].Acquire? && s[i].todo[0].l in s[j].held
  }

  /** Whoever has the lock and waits in turn wants a higher one. */
  lemma WaitsClimb(s: State, i: nat, j: nat)
    requires AllDisciplined(s) && WaitsFor(s, i, j)
    ensures s[j].todo != [] && s[j].todo[0].Acquire? ==> Rank(s[i].todo[0].l) < Rank(s[j].todo[0].l)
  {
    assert Disciplined(s[j].held, s[j].todo);
  }

  ghost predicate IsChain(s: State, chain: seq<nat>) {
    forall k :: 0 <= k < |chain| - 1 ==> WaitsFor(s, chain[k], chain[k + 1])
  }

  lemma {:induction false} ChainsClimb(s: State, chain: seq<nat>, k: nat)
    requires AllDisciplined(s) && |chain| > 1 && IsChain(s, chain) && k < |chain| - 1
    ensures WaitsFor(s, chain[0], chain[1]) && WaitsFor(s, chain[k], chain[k + 1])
    ensures Rank(s[chain[k]].todo[0].l) >= Rank(s[chain[0]].todo[0].l) + k
  {
    hide AllDisciplined, Rank;
    assert WaitsFor(s, chain[k], chain[k + 1]);
    if k > 0 {
      ChainsClimb(s, chain, k - 1);
      WaitsClimb(s, chain[k - 1], chain[k]);
    }
  }

  /** No thread is blocked, through however many others, on itself: in every reachable state of any
      threads, every chain of waiting ends elsewhere, and after at most five threads. */
  lemma NoDeadlock(programs: seq<seq<Event>>, schedule: seq<nat>, s: State, chain: seq<nat>)
    requires Reaches(InitialState(programs), schedule, s)
    requires |chain| > 1 && IsChain(s, chain)
    ensures chain[0] != chain[|chain| - 1]
    ensures |chain| <= 6
  {
    ReachableIsDisciplined(programs, schedule, s);
    var n := |chain| - 1;
    ChainsClimb(s, chain, n - 1);
    WaitsClimb(s, chain[n - 1], chain[n]);
  }

  // ---- Progress

  /** Climbing from one holder to the next ends at a thread that can run. */
  lemma {:induction false} SomebodyRuns(s: State, i: nat) returns (runner: nat)
    requires AllDisciplined(s) && i < |s| && s[i].todo != [] && !s[i].todo[0].Park?
    ensures CanRun(s, runner) && !s[runner].todo[0].Park?
    decreases if s[i].todo[0].Acquire? then 5 - Rank(s[i].todo[0].l) else 0
  {
    if s[i].todo[0].Release? || Free(s, s[i].todo[0].l) {
      return i;
    }
    var j: nat :| j < |s| && s[i].todo[0].l in s[j].held;
    assert Disciplined(s[j].held, s[j].todo);
    WaitsClimb(s, i, j);
    runner := SomebodyRuns(s, j);
  }

  /** In every reachable state either some thread can take or give back a lock now, or every thread has
      finished or sleeps in a condition variable, and then no lock is held at all. */
  lemma AlwaysProgress(programs: seq<seq<Event>>, schedule: seq<nat>, s: State)
    requires Reaches(InitialState(programs), schedule, s)
    ensures (exists i: nat :: CanRun(s, i) && !s[i].todo[0].Park?)
         || forall i :: 0 <= i < |s| ==> s[i].held == [] && (s[i].todo == [] || s[i].todo[0].Park?)
  {
    ReachableIsDisciplined(programs, schedule, s);
    hide Reaches;
    if i: nat :| i < |s| && s[i].todo != [] && !s[i].todo[0].Park? {
      var runner := SomebodyRuns(s, i);
    } else {
      assert forall i :: 0 <= i < |s| ==> Disciplined(s[i].held, s[i].todo);
    }
  }

  /** No lock is ever held by two threads. */
  lemma MutualExclusion(programs: seq<seq<Event>>, schedule: seq<nat>, s: State, i: nat, j: nat, l: Lock)
    requires Reaches(InitialState(programs), schedule, s)
    requires i < |s| && j < |s| && l in s[i].held && l in s[j].held
    ensures i == j
  {
    hide Reaches, AllDisciplined;
    ReachableIsDisciplined(programs, schedule, s);
  }

  // ---- Everybody can finish

  /** What the threads have still to do. */
  ghost function Work(s: State): nat {
    if s == [] then 0 else Work(s[..|s| - 1]) + |s[|s| - 1].todo|
  }

  lemma {:induction false} WorkShrinks(s: State, i: nat, t: Thread)
    requires i < |s| && |t.todo| < |s[i].todo|
    ensures Work(s[i := t]) < Work(s)
    decreases |s|
  {
    var n := |s| - 1;
    if i < n {
      WorkShrinks(s[..n], i, t);
      assert s[i := t][..n] == s[..n][i := t];
    } else {
      assert s[i := t][..n] == s[..n];
    }
  }

  lemma AdvanceShortens(t: Thread)
    requires t.todo != []
    ensures |Advance(t).todo| < |t.todo|
  {
  }

  ghost predicate Finished(s: State) {
    forall i :: 0 <= i < |s| ==> s[i].todo == [] && s[i].held == []
  }

  /** Somebody can run, asleep or not, unless all have finished. */
  lemma SomebodyNext(s: State) returns (i: nat)
    requires AllDisciplined(s) && !Finished(s)
    ensures CanRun(s, i)
  {
    var k: nat :| k < |s| && (s[k].todo != [] || s[k].held != []);
    assert Disciplined(s[k].held, s[k].todo);
    if s[k].todo[0].Park? {
      return k;
    }
    i := SomebodyRuns(s, k);
  }

  lemma {:induction false} CanFinish(s: State) returns (schedule: seq<nat>, t: State)
    requires AllDisciplined(s) && Exclusive(s)
    ensures Reaches(s, schedule, t) && Finished(t) && |t| == |s|
    decreases Work(s)
  {
    hide AllDisciplined, Exclusive, Advance, Disciplined;
    if Finished(s) {
      schedule, t := [], s;
    } else {
      var i := SomebodyNext(s);
      StepKeeps(s, i);
      AdvanceShortens(s[i]);
      WorkShrinks(s, i, Advance(s[i]));
      var rest;
      rest, t := CanFinish(s[i := Advance(s[i])]);
      schedule := [i] + rest;
      assert schedule[1..] == rest;
    }
  }

  /** From every reachable state of any threads a schedule exists, in which those asleep are woken some
      time, that lets all of them finish, with every lock given back. */
  lemma EverybodyCanFinish(programs: seq<seq<Event>>, schedule: seq<nat>, s: State) returns (more: seq<nat>, t: State)
    requires Reaches(InitialState(programs), schedule, s)
    ensures Reaches(s, more, t) && |t| == |s|
    ensures forall i :: 0 <= i < |t| ==> t[i].todo == [] && t[i].held == []
  {
    hide Reaches, AllDisciplined, Exclusive;
    ReachableIsDisciplined(programs, schedule, s);
    more, t := CanFinish(s);
  }

  // ---- Why handleWrite unlocks first

  /** If handleWrite closed the connection with out_mutex still held, two threads could block each other
      for good: it wants m_mutex, and a sendToUser of the same connection has that and wants out_mutex. */
  lemma UnlockingFirstMatters(conn: nat)
    ensures var s := [Thread([], Locked(Out(conn), Ops(RemoveClient(true)))), Thread([], Ops(SendTo(true, conn)))];
            exists t: State :: Reaches(s, [0, 1], t) && !CanRun(t, 0) && !CanRun(t, 1) && t[0].todo != []
  {
    var writer := Thread([], Locked(Out(conn), Ops(RemoveClient(true))));
    var sender := Thread([], Ops(SendTo(true, conn)));
    var writer' := Thread([Out(conn)], Ops(RemoveClient(true)) + [Release(Out(conn))]);
    var sender' := Thread([Server], Locked(Out(conn), []) + [Release(Server)]);
    assert writer.todo[1..] == writer'.todo && sender.todo[1..] == sender'.todo;
    assert Advance(writer) == writer' && Advance(sender) == sender';
    var s, t := [writer, sender], [writer', sender'];
    assert CanRun(s, 0) && s[0 := writer'] == [writer', sender];
    assert CanRun([writer', sender], 1) && [writer', sender][1 := sender'] == t;
    assert Reaches(t, [], t);
    assert [0, 1][1..] == [1] && [1][1..] == [];
    assert Reaches([writer', sender], [1], t);
    assert t[0].todo[0] == Acquire(Server) && t[1].todo[0] == Acquire(Out(conn));
    assert Server in t[1].held && Out(conn) in t[0].held;
    assert Reaches(s, [0, 1], t);
  }
}
