/** handlePrivate: look the name up under ChatService::mutex_, then ask isConnectionActive, then
    sendToUser, each under m_mutex; the fd is all that is carried from one section to the next. */
module PrivateMessages {
  import opened TimerManagement
  import opened ServerState
  import opened Lifetime
  import opened Directories

  datatype Outcome =
    | NotOnline               // the sender is told "user not online"
    | Lost                    // the connection went between the last two sections
    | Delivered(to: ConnId)

  function Lookup(online: Online, user: string): Fd {
    if user in online then online[user] else -1
  }

  /** The sections run in states one, two and three. */
  function Private(one: Directory, two: Server, three: Server, user: string): Outcome {
    var fd := Lookup(one.online, user);
    if fd !in two.registered then NotOnline
    else if fd !in three.registered then Lost
    else Delivered(three.registered[fd])
  }

  // ---- What later states say about the connections of an earlier one

  ghost predicate Later(s: Server, t: Server) {
    s.nextId <= t.nextId
    && (forall c: ConnId :: c in t.live && c < s.nextId ==> c in s.live && t.live[c] == s.live[c])
    && (forall c: ConnId :: c < s.nextId && Registered(t, c) ==> Registered(s, c))
  }

  lemma {:induction false} RunIsLater(s: Server, run: seq<Action>, t: Server)
    requires Inv(s) && Reaches(s, run, t)
    ensures Inv(t) && Later(s, t)
    decreases |run|
  {
    hide Inv, Next, Enabled, Registered, Gone;
    if run != [] {
      StepInv(s, run[0]);
      StepEffect(s, run[0]);
      RunIsLater(Next(s, run[0]), run[1..], t);
    }
  }

  /** m_connections still has c under its fd exactly when c is still registered. */
  lemma EntryIsOwner(s: Server, t: Server, c: ConnId)
    requires Inv(s) && Inv(t) && Later(s, t) && Registered(s, c)
    ensures (s.live[c] in t.registered && t.registered[s.live[c]] == c) <==> Registered(t, c)
  {
    assert c < s.nextId;
    hide FdsAreOwned, LiveIsOwned, DisconnectsOnce;
  }

  lemma NoFdIsNegative(s: Server)
    requires Inv(s)
    ensures -1 !in s.registered
  {
    hide LiveIsOwned, DisconnectsOnce, DistinctFds;
  }

  lemma LookupFinds(d: Directory, c: ConnId, user: string)
    requires Agree(d.server, d.names, d.online) && Named(d.server, d.names, c, user) && user != ""
    ensures Lookup(d.online, user) == d.server.live[c]
  {
  }

  lemma LaterTwice(s: Server, t: Server, u: Server)
    requires Later(s, t) && Later(t, u)
    ensures Later(s, u)
    ensures forall c: ConnId :: c < s.nextId && Registered(u, c) ==> Registered(t, c)
  {
    hide Registered;
  }

  lemma KnownId(s: Server, c: ConnId)
    requires Inv(s) && Registered(s, c)
    ensures c < s.nextId
  {
  }

  /** While nothing intervenes a private message reaches exactly the user it names. When the server
      moves on between the sections, it reaches the addressee exactly if that connection is still
      registered at the send; a name that nobody had at the lookup is "not online" in any case. */
  lemma PrivateReachesAddressee(before: seq<Event>, one: Directory, run: seq<Action>, two: Server,
                                run': seq<Action>, three: Server, user: string)
    requires Guarded(Directories.START, before, one)
    requires Reaches(one.server, run, two) && Reaches(two, run', three)
    ensures forall c :: Named(one.server, one.names, c, user) && user != "" ==>
              (Private(one, two, three, user) == Delivered(c) <==> Registered(three, c))
    ensures (user == "" || forall c :: !Named(one.server, one.names, c, user)) ==>
              Private(one, two, three, user) == NotOnline
  {
    hide Inv, Reaches, Guarded, Registered, Name;
    InitInv();
    GuardedRunAgrees(Directories.START, before, one);
    RunIsLater(one.server, run, two);
    RunIsLater(two, run', three);
    NoFdIsNegative(two);
    var s := one.server;
    forall c | Named(s, one.names, c, user) && user != ""
      ensures Private(one, two, three, user) == Delivered(c) <==> Registered(three, c)
    {
      LookupFinds(one, c, user);
      KnownId(s, c);
      LaterTwice(s, two, three);
      EntryIsOwner(s, two, c);
      EntryIsOwner(s, three, c);
    }
  }

  // ---- Who else may get it

  lemma StepEntry(s: Server, a: Action, fd: Fd)
    requires Enabled(s, a) && !(a.Register? && a.fd == fd)
    ensures fd in Next(s, a).registered ==> fd in s.registered && Next(s, a).registered[fd] == s.registered[fd]
  {
    hide AfterAdd, AfterCheck, IsExpiredList, Registered;
  }

  lemma {:induction false} EntryStays(s: Server, run: seq<Action>, t: Server, fd: Fd)
    requires Reaches(s, run, t) && forall a :: a in run && a.Register? ==> a.fd != fd
    ensures fd in t.registered ==> fd in s.registered && t.registered[fd] == s.registered[fd]
    decreases |run|
  {
    hide Enabled, Next;
    if run != [] {
      StepEntry(s, run[0], fd);
      EntryStays(Next(s, run[0]), run[1..], t, fd);
    }
  }

  lemma EntryOfOwner(s: Server, c: ConnId)
    requires Registered(s, c)
    ensures c in s.live && s.live[c] in s.registered && s.registered[s.live[c]] == c
  {
  }

  /** The run gives fd to a new connection. */
  ghost predicate Reuses(run: seq<Action>, fd: Fd) {
    exists a :: a in run && a.Register? && a.fd == fd
  }

  /** A destroyed connection stays destroyed. */
  lemma {:induction false} GoneStays(s: Server, run: seq<Action>, t: Server, c: ConnId)
    requires Inv(s) && Reaches(s, run, t) && c < s.nextId && c !in s.live
    ensures c !in t.live
    decreases |run|
  {
    hide Inv, Next, Enabled, Registered, Gone;
    if run != [] {
      StepInv(s, run[0]);
      StepEffect(s, run[0]);
      GoneStays(Next(s, run[0]), run[1..], t, c);
    }
  }

  /** An fd is given out again only when its owner is gone. */
  lemma GivenWhenFree(s: Server, fd: Fd, expire: int, c: ConnId)
    requires Inv(s) && Enabled(s, Register(fd, expire)) && c < s.nextId && (c in s.live ==> s.live[c] == fd)
    ensures c !in s.live
  {
    hide LiveIsOwned, MapIsSound, DisconnectsOnce, DistinctFds;
  }

  lemma {:induction false} ReuseEnds(s: Server, run: seq<Action>, t: Server, c: ConnId, fd: Fd)
    requires Inv(s) && Reaches(s, run, t) && c < s.nextId && (c in s.live ==> s.live[c] == fd) && Reuses(run, fd)
    ensures c !in t.live
    decreases |run|
  {
    hide Inv, Next, Enabled, Registered, Gone;
    if c !in s.live {
      GoneStays(s, run, t, c);
    } else {
      StepInv(s, run[0]);
      StepEffect(s, run[0]);
      if run[0].Register? && run[0].fd == fd {
        GivenWhenFree(s, fd, run[0].expire, c);
      } else {
        var a :| a in run && a.Register? && a.fd == fd;
        assert run == [run[0]] + run[1..];
        ReuseEnds(Next(s, run[0]), run[1..], t, c, fd);
      }
    }
  }

  lemma {:induction false} ReachesThen(s: Server, a: seq<Action>, t: Server, b: seq<Action>, u: Server)
    requires Reaches(s, a, t) && Reaches(t, b, u)
    ensures Reaches(s, a + b, u)
    decreases |a|
  {
    hide Enabled, Next;
    if a == [] {
      assert a + b == b;
    } else {
      ReachesThen(Next(s, a[0]), a[1..], t, b, u);
      assert (a + b)[1..] == a[1..] + b;
    }
  }

  lemma OwnerIsAlive(s: Server, fd: Fd)
    requires Inv(s) && fd in s.registered
    ensures s.registered[fd] in s.live && s.live[s.registered[fd]] == fd
  {
    hide FdsAreOwned, LiveIsOwned, DisconnectsOnce;
  }

  /** Later, somebody else has the fd of c exactly if somebody has it and the run gave it out again. */
  lemma OwnerChangesIff(s: Server, run: seq<Action>, t: Server, c: ConnId)
    requires Inv(s) && Reaches(s, run, t) && Registered(s, c) && s.live[c] in t.registered
    ensures t.registered[s.live[c]] != c <==> Reuses(run, s.live[c])
  {
    var fd := s.live[c];
    RunIsLater(s, run, t);
    EntryOfOwner(s, c);
    KnownId(s, c);
    OwnerIsAlive(t, fd);
    hide Inv, Reaches, Registered;
    if Reuses(run, fd) {
      ReuseEnds(s, run, t, c, fd);
    } else {
      EntryStays(s, run, t, fd);
    }
  }

  /** Somebody else gets the message exactly if the addressee's fd is in m_connections at both later
      sections and was given to a new connection in between. */
  lemma StrangerIff(before: seq<Event>, one: Directory, run: seq<Action>, two: Server,
                    run': seq<Action>, three: Server, user: string, c: ConnId)
    requires Guarded(Directories.START, before, one)
    requires Reaches(one.server, run, two) && Reaches(two, run', three)
    requires Named(one.server, one.names, c, user) && user != ""
    ensures var fd := one.server.live[c];
            (exists d :: d != c && Private(one, two, three, user) == Delivered(d)) <==>
            fd in two.registered && fd in three.registered && Reuses(run + run', fd)
  {
    hide Inv, Reaches, Guarded, Name, Mapped, Reuses;
    InitInv();
    GuardedRunAgrees(Directories.START, before, one);
    var s := one.server;
    EntryOfOwner(s, c);
    var fd := s.live[c];
    LookupFinds(one, c, user);
    if fd in two.registered && fd in three.registered {
      ReachesThen(s, run, two, run', three);
      OwnerChangesIff(s, run + run', three, c);
      assert Private(one, two, three, user) == Delivered(three.registered[fd]);
    }
  }

  lemma OwnedIff(s: Server, fd: Fd)
    requires Inv(s)
    ensures fd in s.registered <==> exists d :: d in s.live && Registered(s, d) && s.live[d] == fd
  {
    hide FdsAreOwned, LiveIsOwned, DisconnectsOnce;
    if fd in s.registered {
      assert Registered(s, s.registered[fd]);
    }
  }

  lemma NoReuse(run: seq<Action>, run': seq<Action>, fd: Fd)
    requires !Reuses(run + run', fd)
    ensures !Reuses(run, fd)
  {
    assert forall a :: a in run ==> a in run + run';
  }

  /** The message reaches nobody, and the sender is not told, exactly if somebody had the addressee's fd
      when isConnectionActive was asked and nobody has it at the send; without a reuse of the fd, exactly
      if the addressee goes between these two. */
  lemma LostIff(before: seq<Event>, one: Directory, run: seq<Action>, two: Server,
                run': seq<Action>, three: Server, user: string, c: ConnId)
    requires Guarded(Directories.START, before, one)
    requires Reaches(one.server, run, two) && Reaches(two, run', three)
    requires Named(one.server, one.names, c, user) && user != ""
    ensures var fd := one.server.live[c];
            Private(one, two, three, user) == Lost <==>
            (exists d :: d in two.live && Registered(two, d) && two.live[d] == fd)
            && !exists d :: d in three.live && Registered(three, d) && three.live[d] == fd
    ensures !Reuses(run + run', one.server.live[c]) ==>
              (Private(one, two, three, user) == Lost <==> Registered(two, c) && !Registered(three, c))
  {
    hide Inv, Reaches, Guarded, Name, Reuses;
    InitInv();
    GuardedRunAgrees(Directories.START, before, one);
    RunIsLater(one.server, run, two);
    RunIsLater(two, run', three);
    var s := one.server;
    EntryOfOwner(s, c);
    KnownId(s, c);
    var fd := s.live[c];
    LookupFinds(one, c, user);
    LaterTwice(s, two, three);
    OwnedIff(two, fd);
    OwnedIff(three, fd);
    EntryIsOwner(s, two, c);
    EntryIsOwner(s, three, c);
    if !Reuses(run + run', fd) {
      NoReuse(run, run', fd);
      if fd in two.registered {
        OwnerChangesIff(s, run, two, c);
      }
      if fd in three.registered {
        ReachesThen(s, run, two, run', three);
        OwnerChangesIff(s, run + run', three, c);
      }
    }
  }

  // ---- The fd may have a new owner

  /** The addressee closes, its last owner lets go, and the system gives its fd to the next client. */
  function Replace(c: ConnId, fd: Fd, expire: int): seq<Action> {
    [Close(c), Release(c), Accept(fd), Register(fd, expire)]
  }

  ghost predicate HeldOnce(s: Server, c: ConnId) {
    s.holders[c] == 1 && c !in s.collected
  }

  lemma AfterClosing(s: Server, c: ConnId)
    requires Inv(s) && Registered(s, c) && HeldOnce(s, c)
    ensures Enabled(s, Close(c))
    ensures Next(s, Close(c)) == Detached(s, s.live[c])
  {
    hide FdsAreOwned, LiveIsOwned, DisconnectsOnce, MapIsSound, AfterRemove;
    assert c in s.holders;
  }

  lemma AfterReleasing(s: Server, c: ConnId)
    requires Inv(s) && Registered(s, c) && HeldOnce(s, c)
    ensures var t := Detached(s, s.live[c]);
            Enabled(t, Release(c))
            && Next(t, Release(c)) == t.(holders := s.holders - multiset{c}, live := s.live - {c})
  {
    hide FdsAreOwned, LiveIsOwned, DisconnectsOnce, MapIsSound, AfterRemove;
  }

  lemma FdIsFree(s: Server, c: ConnId)
    requires Inv(s) && Registered(s, c)
    ensures s.live[c] >= 0 && s.live[c] !in (s.live - {c}).Values + s.pending + s.others
  {
    hide LiveIsOwned, DisconnectsOnce, MapIsSound;
  }

  lemma FourSteps(s: Server, t1: Server, t2: Server, t3: Server, t4: Server, a: Action, b: Action, c: Action, d: Action)
    requires Enabled(s, a) && t1 == Next(s, a) && Enabled(t1, b) && t2 == Next(t1, b)
    requires Enabled(t2, c) && t3 == Next(t2, c) && Enabled(t3, d) && t4 == Next(t3, d)
    ensures Reaches(s, [a, b, c, d], t4)
  {
    hide Enabled, Next;
    assert [a, b, c, d][1..] == [b, c, d] && [b, c, d][1..] == [c, d] && [c, d][1..] == [d] && [d][1..] == [];
    assert Reaches(t4, [], t4);
    assert Reaches(t3, [d], t4);
    assert Reaches(t2, [c, d], t4);
    assert Reaches(t1, [b, c, d], t4);
  }

  /** So a message looked up before and sent after goes to the new client. This takes a connection
      whose handler runs on another thread than the sender's. */
  lemma PrivateReachesAStranger(one: Directory, c: ConnId, user: string, expire: int)
    requires DirInv(one) && Agree(one.server, one.names, one.online)
    requires Named(one.server, one.names, c, user) && user != "" && HeldOnce(one.server, c)
    ensures exists t ::
              Reaches(one.server, Replace(c, one.server.live[c], expire), t)
              && one.server.nextId != c
              && Private(one, t, t, user) == Delivered(one.server.nextId)
  {
    hide Inv, Name, AfterRemove, AfterAdd, Settle, RemoveClient;
    var s := one.server;
    var fd := s.live[c];
    AfterClosing(s, c);
    AfterReleasing(s, c);
    FdIsFree(s, c);
    LookupFinds(one, c, user);
    var t1 := Detached(s, fd);
    var t2 := t1.(holders := s.holders - multiset{c}, live := s.live - {c});
    var t3 := t2.(pending := t2.pending + {fd});
    assert Enabled(t2, Accept(fd)) && Next(t2, Accept(fd)) == t3;
    assert Enabled(t3, Register(fd, expire));
    var t4 := Next(t3, Register(fd, expire));
    assert Private(one, t4, t4, user) == Delivered(s.nextId);
    FourSteps(s, t1, t2, t3, t4, Close(c), Release(c), Accept(fd), Register(fd, expire));
    KnownId(s, c);
    assert Reaches(s, Replace(c, fd, expire), t4);
  }

  // ---- Both happen

  lemma TwoAgrees()
    ensures Reachable(TWO) && DirInv(TWO) && Agree(TWO.server, TWO.names, TWO.online)
  {
    TwoIsReachable();
    StartAgrees();
    hide Inv, Guarded, Agree;
    var run :| Guarded(Directories.START, run, TWO);
    GuardedRunAgrees(Directories.START, run, TWO);
  }

  /** Ann's client, connection 0, goes; the next client gets her fd and her message. */
  lemma StrangerHappens()
    ensures Reachable(TWO) && Named(TWO.server, TWO.names, 0, "ann") && TWO.server.nextId == 2
    ensures exists t :: Reaches(TWO.server, Replace(0, 5, 30), t) && Private(TWO, t, t, "ann") == Delivered(2)
  {
    TwoAgrees();
    hide Reachable, Inv, Agree, Reaches;
    PrivateReachesAStranger(TWO, 0, "ann", 30);
  }

  /** Ann's client goes between isConnectionActive and sendToUser: nobody gets the message, and the
      sender is not told. */
  lemma LostHappens()
    ensures Reachable(TWO) && Named(TWO.server, TWO.names, 0, "ann")
    ensures Enabled(TWO.server, Close(0)) && Private(TWO, TWO.server, Next(TWO.server, Close(0)), "ann") == Lost
  {
    TwoIsReachable();
    hide Reachable;
  }

  // ---- handleList

  ghost function LoggedIn(s: Server, names: Names): set<ConnId> {
    set c | c in s.live && Registered(s, c) && Name(names, c) != ""
  }

  lemma KeysAreNames(d: Directory)
    requires Agree(d.server, d.names, d.online)
    ensures d.online.Keys == set c | c in LoggedIn(d.server, d.names) :: Name(d.names, c)
  {
    hide Name;
    forall user | user in d.online
      ensures user in set c | c in LoggedIn(d.server, d.names) :: Name(d.names, c)
    {
      var c :| Named(d.server, d.names, c, user);
    }
  }

  lemma {:induction false} DistinctNames(names: Names, who: set<ConnId>)
    requires forall c, e :: c in who && e in who && Name(names, c) == Name(names, e) ==> c == e
    ensures |set c | c in who :: Name(names, c)| == |who|
    decreases who
  {
    hide Name;
    var all := set c | c in who :: Name(names, c);
    if who == {} {
      assert all == {};
    } else {
      var c :| c in who;
      var rest := who - {c};
      DistinctNames(names, rest);
      assert all == (set e | e in rest :: Name(names, e)) + {Name(names, c)};
    }
  }

  /** The names that handleList sends, online_users_'s keys, are the names of the registered
      connections that logged in, one entry for each of them. */
  lemma ListIsWhoIsThere(before: seq<Event>, d: Directory)
    requires Guarded(Directories.START, before, d)
    ensures d.online.Keys == set c | c in LoggedIn(d.server, d.names) :: Name(d.names, c)
    ensures |d.online.Keys| == |LoggedIn(d.server, d.names)|
  {
    hide Inv, Guarded, Name, Registered;
    InitInv();
    GuardedRunAgrees(Directories.START, before, d);
    var who := LoggedIn(d.server, d.names);
    KeysAreNames(d);
    forall c, e | c in who && e in who && Name(d.names, c) == Name(d.names, e)
      ensures c == e
    {
      AgreeingNamesDiffer(d.server, d.names, d.online, c, e);
    }
    DistinctNames(d.names, who);
  }
}
