/** IMServer, Connection and Channel as one state machine: which Connection objects exist, who holds
    them, which fds are open, what m_connections and the timers say. A step is one section under
    m_mutex, one system call, or one shared_ptr gained or dropped. */
module ServerState {
  import opened TimerManagement

  datatype Server = Server(
    nextId: ConnId,              // Connection objects are numbered as they are made
    live: Live,                  // objects not yet destroyed, with the fd each owns
    holders: multiset<ConnId>,   // shared_ptrs outside m_connections
    pending: set<Fd>,            // accepted, no Connection yet
    others: set<Fd>,             // open elsewhere in the process
    registered: map<Fd, ConnId>, // m_connections
    timers: Timers,
    collected: seq<ConnId>,      // to_remove of the tick, not yet removed
    disconnects: seq<ConnId>     // calls of ChatService::onDisconnect, in order
  )

  const INIT := Server(0, map[], multiset{}, {}, {}, map[], Timers({}, map[]), [], [])

  datatype Action =
    | OpenOther(fd: Fd) | CloseOther(fd: Fd)
    | Accept(fd: Fd)                          // accept(2) returns fd
    | Register(fd: Fd, expire: int)           // handleNewConnection, under m_mutex
    | Lock(c: ConnId)                         // weak_ptr::lock, shared_from_this, or a copy
    | Release(c: ConnId)                      // a shared_ptr goes out of scope
    | Refresh(c: ConnId, expire: int)         // onConnectionMessage, under m_mutex
    | Close(c: ConnId)                        // onConnectionClose: removeClient(conn->fd)
    | Collect(now: int, expired: seq<ConnId>) // tick callback, under m_mutex
    | TickRemove                              // tick callback: removeClient of the next one

  function OpenFds(s: Server): set<Fd> {
    s.live.Values + s.pending + s.others
  }

  predicate Mapped(live: Live, registered: map<Fd, ConnId>, c: ConnId) {
    c in live && live[c] in registered && registered[live[c]] == c
  }

  predicate Registered(s: Server, c: ConnId) {
    Mapped(s.live, s.registered, c)
  }

  /** The last owner is gone: the destructor closes the fd. */
  function Settle(s: Server, c: ConnId): Server {
    if Registered(s, c) || c in s.holders then s else s.(live := s.live - {c})
  }

  /** IMServer::removeClient. */
  function RemoveClient(s: Server, fd: Fd): Server {
    if fd !in s.registered then s
    else
      var c := s.registered[fd];
      Settle(s.(disconnects := s.disconnects + [c],
                timers := AfterRemove(s.timers, fd),
                registered := s.registered - {fd}), c)
  }

  ghost predicate Enabled(s: Server, a: Action) {
    match a
    case OpenOther(fd) => fd !in OpenFds(s)
    case CloseOther(fd) => fd in s.others
    case Accept(fd) => fd >= 0 && fd !in OpenFds(s)
    case Register(fd, _) => fd in s.pending
    case Lock(c) => c in s.live
    case Release(c) => s.holders[c] > multiset(s.collected)[c]
    case Refresh(c, _) => c in s.live && c in s.holders
    case Close(c) => c in s.live && c in s.holders
    case Collect(now, expired) => s.collected == [] && IsExpiredList(s.timers, s.live, now, expired)
    case TickRemove => s.collected != [] && s.collected[0] in s.live
  }

  ghost function Next(s: Server, a: Action): Server
    requires Enabled(s, a)
  {
    match a
    case OpenOther(fd) => s.(others := s.others + {fd})
    case CloseOther(fd) => s.(others := s.others - {fd})
    case Accept(fd) => s.(pending := s.pending + {fd})
    case Register(fd, expire) =>
      var live := s.live[s.nextId := fd];
      s.(nextId := s.nextId + 1, live := live, pending := s.pending - {fd},
         registered := s.registered[fd := s.nextId],
         timers := AfterAdd(s.timers, live, s.nextId, expire))
    case Lock(c) => s.(holders := s.holders + multiset{c})
    case Release(c) => Settle(s.(holders := s.holders - multiset{c}), c)
    case Refresh(c, expire) => s.(timers := AfterAdd(s.timers, s.live, c, expire))
    case Close(c) => RemoveClient(s, s.live[c])
    case Collect(now, expired) =>
      s.(timers := AfterCheck(s.timers, s.live, now), collected := expired,
         holders := s.holders + multiset(expired))
    case TickRemove => RemoveClient(s.(collected := s.collected[1..]), s.live[s.collected[0]])
  }

  ghost predicate Reaches(s: Server, run: seq<Action>, t: Server)
    decreases |run|
  {
    if run == [] then s == t else Enabled(s, run[0]) && Reaches(Next(s, run[0]), run[1..], t)
  }

  // ---- One fd, one connection

  /** Every live object owns an open fd of its own. */
  ghost predicate FdsAreOwned(live: Live, pending: set<Fd>, others: set<Fd>, nextId: ConnId) {
    DistinctFds(live)
    && (forall c :: c in live ==> c < nextId && live[c] >= 0 && live[c] !in pending && live[c] !in others)
    && (forall f :: f in pending ==> f >= 0)
    && pending !! others
  }

  /** m_connections[f] is a live object whose fd is f. */
  ghost predicate MapIsSound(live: Live, registered: map<Fd, ConnId>) {
    forall f :: f in registered ==> registered[f] in live && live[registered[f]] == f
  }

  /** Objects live exactly as long as someone owns them. */
  ghost predicate LiveIsOwned(live: Live, registered: map<Fd, ConnId>, holders: multiset<ConnId>) {
    (forall c :: c in live ==> Mapped(live, registered, c) || c in holders)
    && forall c :: c in holders ==> c in live
  }

  /** onDisconnect has run at most once for each, and for none that is registered. */
  ghost predicate DisconnectsOnce(disconnects: seq<ConnId>, nextId: ConnId, live: Live, registered: map<Fd, ConnId>) {
    NoDuplicates(disconnects)
    && forall c :: c in disconnects ==> c < nextId && !Mapped(live, registered, c)
  }

  ghost predicate Inv(s: Server) {
    FdsAreOwned(s.live, s.pending, s.others, s.nextId)
    && MapIsSound(s.live, s.registered)
    && LiveIsOwned(s.live, s.registered, s.holders)
    && DisconnectsOnce(s.disconnects, s.nextId, s.live, s.registered)
    && multiset(s.collected) <= s.holders
  }
}
