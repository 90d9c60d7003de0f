/** Over every run of the server: one open fd per live connection, m_connections consistent with it,
    and each connection disconnected at most once. */
module Lifetime {
  import opened TimerManagement
  import opened ServerState

  /** Everyone but c is owned: the state before the destructor of c is considered. */
  ghost predicate OwnedExcept(live: Live, registered: map<Fd, ConnId>, holders: multiset<ConnId>, c: ConnId) {
    (forall d :: d in live && d != c ==> Mapped(live, registered, d) || d in holders)
    && forall d :: d in holders ==> d in live
  }

  ghost predicate InvExcept(s: Server, c: ConnId) {
    FdsAreOwned(s.live, s.pending, s.others, s.nextId)
    && MapIsSound(s.live, s.registered)
    && OwnedExcept(s.live, s.registered, s.holders, c)
    && DisconnectsOnce(s.disconnects, s.nextId, s.live, s.registered)
    && multiset(s.collected) <= s.holders
  }

  lemma DestroyMaps(s: Server, c: ConnId)
    requires MapIsSound(s.live, s.registered) && !Registered(s, c)
    ensures forall d :: Mapped(s.live - {c}, s.registered, d) <==> Mapped(s.live, s.registered, d)
    ensures MapIsSound(s.live - {c}, s.registered)
  {
  }

  /** Destroying an object that nobody maps or holds. */
  lemma DestroyKeeps(s: Server, c: ConnId)
    requires InvExcept(s, c) && !Registered(s, c) && c !in s.holders
    ensures Inv(s.(live := s.live - {c}))
    ensures forall d :: Mapped(s.live - {c}, s.registered, d) <==> Mapped(s.live, s.registered, d)
  {
    hide NoDuplicates, Mapped, MapIsSound;
    DestroyMaps(s, c);
  }

  lemma SettleInv(s: Server, c: ConnId)
    requires InvExcept(s, c)
    ensures Inv(Settle(s, c))
    ensures forall d :: Registered(Settle(s, c), d) <==> Registered(s, d)
  {
    hide FdsAreOwned, MapIsSound, DisconnectsOnce;
    if !Registered(s, c) && c !in s.holders {
      DestroyKeeps(s, c);
    } else {
      hide Mapped;
      assert LiveIsOwned(s.live, s.registered, s.holders);
    }
  }

  /** removeClient before the destructor: c leaves m_connections and is recorded. */
  ghost function Detached(s: Server, fd: Fd): Server
    requires fd in s.registered
  {
    s.(disconnects := s.disconnects + [s.registered[fd]], timers := AfterRemove(s.timers, fd),
       registered := s.registered - {fd})
  }

  lemma DetachUnregisters(s: Server, fd: Fd)
    requires Inv(s) && fd in s.registered
    ensures Registered(s, s.registered[fd])
    ensures forall d :: Mapped(s.live, s.registered - {fd}, d) <==> Mapped(s.live, s.registered, d) && d != s.registered[fd]
  {
    hide LiveIsOwned, DisconnectsOnce;
  }

  lemma DisconnectAgain(disconnects: seq<ConnId>, c: ConnId)
    requires NoDuplicates(disconnects) && c !in disconnects
    ensures NoDuplicates(disconnects + [c])
    ensures forall d :: d in disconnects + [c] <==> d in disconnects || d == c
  {
    assert forall i :: 0 <= i < |disconnects| ==> disconnects[i] in disconnects;
  }

  lemma DetachInv(s: Server, fd: Fd)
    requires Inv(s) && fd in s.registered
    ensures InvExcept(Detached(s, fd), s.registered[fd])
  {
    DetachUnregisters(s, fd);
    DisconnectAgain(s.disconnects, s.registered[fd]);
    hide NoDuplicates, Mapped, FdsAreOwned;
  }

  lemma RemoveInv(s: Server, fd: Fd)
    requires Inv(s)
    ensures Inv(RemoveClient(s, fd))
  {
    hide Inv, InvExcept, Settle;
    if fd in s.registered {
      DetachInv(s, fd);
      SettleInv(Detached(s, fd), s.registered[fd]);
    }
  }

  /** Another part of the process may take any fd that is not open; accept cannot return it until that part
      gives it back. */
  lemma OthersTakeFds(s: Server, fd: Fd)
    requires fd !in OpenFds(s)
    ensures Enabled(s, OpenOther(fd)) && (fd >= 0 ==> Enabled(s, Accept(fd)))
    ensures var t := Next(s, OpenOther(fd));
            !Enabled(t, Accept(fd)) && Enabled(t, CloseOther(fd)) && Next(t, CloseOther(fd)) == s
  {
    assert s.others + {fd} - {fd} == s.others;
  }

  /** A new fd is in no connection, so registering it overwrites no entry. */
  lemma RegisterIsNew(s: Server, fd: Fd)
    requires Inv(s) && fd in s.pending
    ensures fd !in s.registered && forall c :: c in s.live ==> s.live[c] != fd
    ensures s.nextId !in s.live && s.nextId !in s.disconnects && s.nextId !in s.holders
  {
    hide NoDuplicates;
    assert forall f :: f in s.registered ==> s.live[s.registered[f]] == f;
  }

  lemma RegisterMaps(s: Server, fd: Fd)
    requires Inv(s) && fd in s.pending
    ensures var live, registered := s.live[s.nextId := fd], s.registered[fd := s.nextId];
            Mapped(live, registered, s.nextId)
            && forall c :: c != s.nextId ==> (Mapped(live, registered, c) <==> Mapped(s.live, s.registered, c))
  {
    RegisterIsNew(s, fd);
    hide FdsAreOwned, LiveIsOwned, DisconnectsOnce;
  }

  lemma RegisterOwned(s: Server, fd: Fd)
    requires Inv(s) && fd in s.pending
    ensures var live, registered := s.live[s.nextId := fd], s.registered[fd := s.nextId];
            MapIsSound(live, registered) && LiveIsOwned(live, registered, s.holders)
            && DisconnectsOnce(s.disconnects, s.nextId + 1, live, registered)
  {
    RegisterIsNew(s, fd);
    RegisterMaps(s, fd);
    hide NoDuplicates, Mapped, FdsAreOwned;
  }

  lemma RegisterFds(s: Server, fd: Fd)
    requires Inv(s) && fd in s.pending
    ensures FdsAreOwned(s.live[s.nextId := fd], s.pending - {fd}, s.others, s.nextId + 1)
  {
    RegisterIsNew(s, fd);
    hide LiveIsOwned, MapIsSound, DisconnectsOnce;
  }

  lemma RegisterInv(s: Server, fd: Fd, expire: int)
    requires Inv(s) && Enabled(s, Register(fd, expire))
    ensures Inv(Next(s, Register(fd, expire)))
  {
    hide FdsAreOwned, MapIsSound, LiveIsOwned, DisconnectsOnce, AfterAdd;
    RegisterFds(s, fd);
    RegisterOwned(s, fd);
  }

  lemma DropOne(holders: multiset<ConnId>, kept: multiset<ConnId>, c: ConnId)
    requires kept <= holders && holders[c] > kept[c]
    ensures kept <= holders - multiset{c}
    ensures forall d :: d in holders && d != c ==> d in holders - multiset{c}
    ensures forall d :: d in holders - multiset{c} ==> d in holders
  {
  }

  lemma ReleaseInv(s: Server, c: ConnId)
    requires Inv(s) && Enabled(s, Release(c))
    ensures Inv(Next(s, Release(c)))
    ensures forall d :: Registered(Next(s, Release(c)), d) <==> Registered(s, d)
  {
    hide FdsAreOwned, MapIsSound, DisconnectsOnce, Mapped, Settle;
    DropOne(s.holders, multiset(s.collected), c);
    SettleInv(s.(holders := s.holders - multiset{c}), c);
  }

  lemma PopOne(cs: seq<ConnId>)
    requires cs != []
    ensures multiset(cs[1..]) <= multiset(cs)
  {
    assert cs == [cs[0]] + cs[1..];
  }

  lemma DueIsLive(t: Timers, live: Live, now: int, expired: seq<ConnId>)
    requires IsExpiredList(t, live, now, expired)
    ensures forall c :: c in multiset(expired) ==> c in live
  {
    hide NoDuplicates, Expected;
    assert forall c :: c in multiset(expired) ==> c in expired && IsDue(t, live, now, c);
  }

  lemma CollectInv(s: Server, now: int, expired: seq<ConnId>)
    requires Inv(s) && Enabled(s, Collect(now, expired))
    ensures Inv(Next(s, Collect(now, expired)))
  {
    DueIsLive(s.timers, s.live, now, expired);
    hide NoDuplicates, AfterCheck, FdsAreOwned, MapIsSound, DisconnectsOnce, Mapped, IsExpiredList;
  }

  lemma PopInv(s: Server)
    requires Inv(s) && s.collected != []
    ensures Inv(s.(collected := s.collected[1..]))
  {
    hide FdsAreOwned, MapIsSound, DisconnectsOnce, LiveIsOwned;
    PopOne(s.collected);
  }

  lemma TickInv(s: Server)
    requires Inv(s) && Enabled(s, TickRemove)
    ensures Inv(Next(s, TickRemove))
  {
    hide FdsAreOwned, MapIsSound, DisconnectsOnce, LiveIsOwned, RemoveClient;
    PopOne(s.collected);
    RemoveInv(s.(collected := s.collected[1..]), s.live[s.collected[0]]);
  }

  lemma OpenInv(s: Server, a: Action)
    requires Inv(s) && Enabled(s, a) && (a.OpenOther? || a.CloseOther? || a.Accept?)
    ensures Inv(Next(s, a))
  {
    hide DistinctFds, LiveIsOwned, MapIsSound, DisconnectsOnce;
    assert forall c :: c in s.live ==> s.live[c] in s.live.Values;
  }

  lemma HoldInv(s: Server, a: Action)
    requires Inv(s) && Enabled(s, a) && (a.Lock? || a.Refresh?)
    ensures Inv(Next(s, a))
  {
    hide FdsAreOwned, AfterAdd, Mapped, DisconnectsOnce, MapIsSound;
  }

  lemma StepInv(s: Server, a: Action)
    requires Inv(s) && Enabled(s, a)
    ensures Inv(Next(s, a))
  {
    hide Inv, RemoveClient, AfterAdd, AfterCheck, Settle;
    match a
    case Register(fd, expire) => RegisterInv(s, fd, expire);
    case Release(c) => ReleaseInv(s, c);
    case Close(c) => RemoveInv(s, s.live[c]);
    case Collect(now, expired) => CollectInv(s, now, expired);
    case TickRemove => TickInv(s);
    case Lock(_) => HoldInv(s, a);
    case Refresh(_, _) => HoldInv(s, a);
    case _ => OpenInv(s, a);
  }

  lemma {:induction false} RunInv(s: Server, run: seq<Action>, t: Server)
    requires Inv(s) && Reaches(s, run, t)
    ensures Inv(t)
    decreases |run|
  {
    hide Next, Inv, Enabled;
    if run != [] {
      StepInv(s, run[0]);
      RunInv(Next(s, run[0]), run[1..], t);
    }
  }

  // ---- What one step changes for the connections made before it

  /** Whom the step from s to t disconnected. */
  function Gone(s: Server, t: Server): set<ConnId> {
    if |t.disconnects| > |s.disconnects| then {t.disconnects[|s.disconnects|]} else {}
  }

  ghost predicate Effect(s: Server, t: Server) {
    s.nextId <= t.nextId
    && (forall c: ConnId :: c in t.live && c < s.nextId ==> c in s.live && t.live[c] == s.live[c])
    && (forall c: ConnId :: c < s.nextId ==> (Registered(t, c) <==> Registered(s, c) && c !in Gone(s, t)))
    && (forall c :: c in Gone(s, t) ==> Registered(s, c))
  }

  lemma DetachEffect(s: Server, fd: Fd)
    requires Inv(s) && fd in s.registered
    ensures Effect(s, Detached(s, fd)) && Gone(s, Detached(s, fd)) == {s.registered[fd]}
  {
    DetachUnregisters(s, fd);
    hide Mapped, Inv, AfterRemove;
  }

  lemma SettleShrinks(t: Server, c: ConnId)
    ensures var u := Settle(t, c);
            u.nextId == t.nextId && u.disconnects == t.disconnects && u.collected == t.collected && u.holders == t.holders
            && forall d :: d in u.live ==> d in t.live && u.live[d] == t.live[d]
  {
    hide Registered;
  }

  /** The destructor unregisters nobody. */
  lemma SettleEffect(s: Server, t: Server, c: ConnId)
    requires Effect(s, t) && InvExcept(t, c)
    ensures Effect(s, Settle(t, c))
  {
    hide InvExcept, Inv, Registered, Settle;
    SettleInv(t, c);
    SettleShrinks(t, c);
  }

  lemma NoEffect(s: Server, t: Server)
    requires t.live == s.live && t.registered == s.registered && t.nextId == s.nextId && t.disconnects == s.disconnects
    ensures Effect(s, t)
  {
  }

  lemma RemoveEffect(s: Server, fd: Fd)
    requires Inv(s)
    ensures Effect(s, RemoveClient(s, fd))
  {
    hide Mapped, Inv, InvExcept, Effect, Settle, AfterRemove;
    if fd in s.registered {
      DetachInv(s, fd);
      DetachEffect(s, fd);
      SettleEffect(s, Detached(s, fd), s.registered[fd]);
    } else {
      NoEffect(s, s);
    }
  }

  lemma ReleaseEffect(s: Server, c: ConnId)
    requires Inv(s) && Enabled(s, Release(c))
    ensures Effect(s, Next(s, Release(c)))
  {
    hide Inv;
  }

  lemma RegisterEffect(s: Server, fd: Fd, expire: int)
    requires Inv(s) && Enabled(s, Register(fd, expire))
    ensures Effect(s, Next(s, Register(fd, expire)))
  {
    RegisterMaps(s, fd);
    hide Inv, AfterAdd, Mapped;
  }

  lemma SameStart(s: Server, s': Server, t: Server)
    requires s'.live == s.live && s'.registered == s.registered
    requires s'.nextId == s.nextId && s'.disconnects == s.disconnects
    ensures Effect(s', t) ==> Effect(s, t)
  {
    assert Gone(s, t) == Gone(s', t);
    assert forall c :: Registered(s, c) <==> Registered(s', c);
  }

  lemma TickEffect(s: Server)
    requires Inv(s) && Enabled(s, TickRemove)
    ensures Effect(s, Next(s, TickRemove))
  {
    hide FdsAreOwned, MapIsSound, DisconnectsOnce, LiveIsOwned, RemoveClient, Effect;
    PopOne(s.collected);
    var s' := s.(collected := s.collected[1..]);
    RemoveEffect(s', s.live[s.collected[0]]);
    SameStart(s, s', RemoveClient(s', s.live[s.collected[0]]));
  }

  /** A step unregisters only those it passes to onDisconnect, and brings nobody back. */
  lemma StepEffect(s: Server, a: Action)
    requires Inv(s) && Enabled(s, a)
    ensures Effect(s, Next(s, a))
  {
    hide Inv, RemoveClient, AfterAdd, AfterCheck, Settle, Effect;
    match a
    case Register(fd, expire) => RegisterEffect(s, fd, expire);
    case Release(c) => ReleaseEffect(s, c);
    case Close(c) => RemoveEffect(s, s.live[c]);
    case TickRemove => TickEffect(s);
    case _ => NoEffect(s, Next(s, a));
  }

  lemma {:induction false} ReachesSnoc(s: Server, run: seq<Action>, t: Server, a: Action)
    requires Reaches(s, run, t) && Enabled(t, a)
    ensures Reaches(s, run + [a], Next(t, a))
    decreases |run|
  {
    hide Next, Enabled;
    if run == [] {
      assert Reaches(Next(t, a), [], Next(t, a));
    } else {
      ReachesSnoc(Next(s, run[0]), run[1..], t, a);
      assert (run + [a])[1..] == run[1..] + [a];
    }
  }

  lemma OnlyOwnerOf(s: Server, fd: Fd, c: ConnId)
    requires Inv(s) && fd in s.registered && c in s.live && s.live[c] == fd
    ensures s.registered[fd] == c
  {
  }

  /** removeClient of a live connection's fd unregisters that connection, if anyone. */
  lemma RemoveOwn(s: Server, c: ConnId)
    requires Inv(s) && c in s.live
    ensures var t := RemoveClient(s, s.live[c]);
            forall d :: Registered(t, d) <==> Registered(s, d) && d != c
    ensures !Registered(s, c) ==> RemoveClient(s, s.live[c]) == s
    ensures RemoveClient(s, s.live[c]).disconnects == s.disconnects + if Registered(s, c) then [c] else []
    ensures RemoveClient(s, s.live[c]).collected == s.collected && RemoveClient(s, s.live[c]).holders == s.holders
  {
    var fd := s.live[c];
    if fd in s.registered {
      OnlyOwnerOf(s, fd, c);
      DetachUnregisters(s, fd);
      DetachInv(s, fd);
      SettleInv(Detached(s, fd), c);
      SettleShrinks(Detached(s, fd), c);
    }
    hide Inv, InvExcept, Settle, AfterRemove;
  }

  lemma InitInv()
    ensures Inv(INIT)
  {
  }

  /** In every reachable state: live connections own distinct open fds, m_connections[f] has fd f,
      registering an accepted fd overwrites nothing, a connection that the tick still has to remove is
      alive, so its conn->fd can be read, and onDisconnect has run at most once for each. */
  lemma FdIdentity(run: seq<Action>, t: Server)
    requires Reaches(INIT, run, t)
    ensures DistinctFds(t.live) && forall c :: c in t.live ==> t.live[c] !in t.pending && t.live[c] !in t.others
    ensures forall f :: f in t.registered ==> t.registered[f] in t.live && t.live[t.registered[f]] == f
    ensures forall f :: f in t.pending ==> f !in t.registered
    ensures forall c :: c in t.collected ==> c in t.live
    ensures NoDuplicates(t.disconnects)
  {
    InitInv();
    RunInv(INIT, run, t);
    hide NoDuplicates;
    forall f | f in t.pending
      ensures f !in t.registered
    {
      RegisterIsNew(t, f);
    }
    assert forall c :: c in t.collected ==> c in multiset(t.collected);
  }

  // ---- Exactly once

  /** Whoever was ever accepted is either still registered or has been passed to onDisconnect. */
  ghost predicate GoneIsDisconnected(s: Server) {
    forall c: ConnId :: c < s.nextId ==> (Registered(s, c) <==> c !in s.disconnects)
  }

  lemma RegisterDisconnects(s: Server, fd: Fd, expire: int)
    requires Inv(s) && Enabled(s, Register(fd, expire)) && GoneIsDisconnected(s)
    ensures GoneIsDisconnected(Next(s, Register(fd, expire)))
  {
    RegisterIsNew(s, fd);
    RegisterMaps(s, fd);
    hide Inv, AfterAdd, Mapped;
  }

  lemma RemoveKeepsId(s: Server, fd: Fd)
    ensures RemoveClient(s, fd).nextId == s.nextId
  {
  }

  lemma RemoveDisconnects(s: Server, c: ConnId)
    requires Inv(s) && c in s.live && GoneIsDisconnected(s)
    ensures RemoveClient(s, s.live[c]).nextId == s.nextId
    ensures GoneIsDisconnected(RemoveClient(s, s.live[c]))
  {
    RemoveOwn(s, c);
    RemoveKeepsId(s, s.live[c]);
    hide Inv, RemoveClient, Mapped;
  }

  lemma SameDisconnects(s: Server, t: Server)
    requires GoneIsDisconnected(s) && t.nextId == s.nextId && t.disconnects == s.disconnects
    requires forall c :: Registered(t, c) <==> Registered(s, c)
    ensures GoneIsDisconnected(t)
  {
    hide Registered;
  }

  lemma StepDisconnects(s: Server, a: Action)
    requires Inv(s) && Enabled(s, a) && GoneIsDisconnected(s)
    ensures GoneIsDisconnected(Next(s, a))
  {
    hide Inv, RemoveClient, AfterAdd, AfterCheck, Settle, GoneIsDisconnected, IsExpiredList;
    match a
    case Register(fd, expire) => RegisterDisconnects(s, fd, expire);
    case Release(c) =>
      ReleaseInv(s, c);
      SettleShrinks(s.(holders := s.holders - multiset{c}), c);
      SameDisconnects(s, Next(s, a));
    case Close(c) => RemoveDisconnects(s, c);
    case TickRemove =>
      var s' := s.(collected := s.collected[1..]);
      PopInv(s);
      SameDisconnects(s, s');
      RemoveDisconnects(s', s.collected[0]);
    case _ => SameDisconnects(s, Next(s, a));
  }

  lemma {:induction false} RunDisconnects(s: Server, run: seq<Action>, t: Server)
    requires Inv(s) && GoneIsDisconnected(s) && Reaches(s, run, t)
    ensures GoneIsDisconnected(t)
    decreases |run|
  {
    hide Next, Inv, Enabled, GoneIsDisconnected;
    if run != [] {
      StepInv(s, run[0]);
      StepDisconnects(s, run[0]);
      RunDisconnects(Next(s, run[0]), run[1..], t);
    }
  }

  lemma {:induction false} CountOnce(cs: seq<ConnId>, c: ConnId)
    requires NoDuplicates(cs)
    ensures multiset(cs)[c] == if c in cs then 1 else 0
  {
    if cs != [] {
      var front, last := cs[..|cs| - 1], cs[|cs| - 1];
      assert cs == front + [last];
      assert forall i :: 0 <= i < |front| ==> front[i] == cs[i];
      CountOnce(front, c);
      assert last !in front;
    }
  }

  /** Whatever ends a connection, and however many of end of file, hang-up, send error and timeout come
      together: onDisconnect has run exactly once for everyone who was accepted and is no longer
      registered, and not at all for those who are. */
  lemma DisconnectedExactlyOnce(run: seq<Action>, t: Server, c: ConnId)
    requires Reaches(INIT, run, t) && c < t.nextId
    ensures multiset(t.disconnects)[c] == if Registered(t, c) then 0 else 1
  {
    InitInv();
    RunInv(INIT, run, t);
    RunDisconnects(INIT, run, t);
    CountOnce(t.disconnects, c);
    hide Inv, Mapped;
  }

  /** removeClient(conn->fd) by a holder of conn removes that connection, or nothing when it is
      already gone; it calls onDisconnect only in the first case, and for no other connection. */
  lemma CloseRemovesOwnOrNothing(run: seq<Action>, s: Server, c: ConnId)
    requires Reaches(INIT, run, s) && Enabled(s, Close(c))
    ensures var t := Next(s, Close(c));
            if Registered(s, c)
            then t.disconnects == s.disconnects + [c]
                 && forall d :: Registered(t, d) <==> Registered(s, d) && d != c
            else t == s
  {
    InitInv();
    RunInv(INIT, run, s);
    var fd := s.live[c];
    if fd in s.registered {
      OnlyOwnerOf(s, fd, c);
      DetachUnregisters(s, fd);
      DetachInv(s, fd);
      SettleInv(Detached(s, fd), c);
    }
  }
}
