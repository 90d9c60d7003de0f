/** ChatService: which user is online on which fd. handleLogin writes a name on the connection and an
    entry in online_users_; onDisconnect, called inside removeClient, erases by name. Nothing else keeps
    the two in step. */
module Directories {
  import opened TimerManagement
  import opened ServerState
  import opened Lifetime

  type Names = map<ConnId, string>   // Connection::username; "" until a login

  type Online = map<string, Fd>      // online_users_

  datatype Directory = Directory(server: Server, names: Names, online: Online)

  const START := Directory(INIT, map[], map[])

  datatype Event =
    | Base(a: Action)
    | Login(c: ConnId, user: string)  // the locked section of a successful handleLogin

  function Name(names: Names, c: ConnId): string {
    if c in names then names[c] else ""
  }

  /** ChatService::onDisconnect. */
  function Forget(online: Online, user: string): Online {
    if user != "" then online - {user} else online
  }

  function ForgetGone(s: Server, t: Server, names: Names, online: Online): Online {
    if |t.disconnects| > |s.disconnects| then Forget(online, Name(names, t.disconnects[|s.disconnects|])) else online
  }

  ghost predicate Possible(d: Directory, e: Event) {
    match e
    case Base(a) => Enabled(d.server, a)
    case Login(c, _) => c in d.server.live && c in d.server.holders
  }

  ghost function After(d: Directory, e: Event): Directory
    requires Possible(d, e)
  {
    match e
    case Base(a) =>
      d.(server := Next(d.server, a), online := ForgetGone(d.server, Next(d.server, a), d.names, d.online))
    case Login(c, user) => d.(names := d.names[c := user], online := d.online[user := d.server.live[c]])
  }

  // ---- Agreement

  ghost predicate Named(s: Server, names: Names, c: ConnId, user: string) {
    Registered(s, c) && Name(names, c) == user
  }

  /** Every registered connection that has a name is found under it. */
  ghost predicate Found(s: Server, names: Names, online: Online) {
    forall c :: c in s.live && Registered(s, c) && Name(names, c) != "" ==>
      Name(names, c) in online && online[Name(names, c)] == s.live[c]
  }

  /** Every entry belongs to a registered connection of that name. */
  ghost predicate Accounted(s: Server, names: Names, online: Online) {
    forall user :: user in online ==> user != "" && exists c :: Named(s, names, c, user)
  }

  ghost predicate Agree(s: Server, names: Names, online: Online) {
    Found(s, names, online) && Accounted(s, names, online)
  }

  ghost predicate DirInv(d: Directory) {
    Inv(d.server) && (forall c :: c in d.names ==> c < d.server.nextId)
  }

  /** What the caller of the login section could check. */
  ghost predicate MayLogin(d: Directory, c: ConnId, user: string) {
    user != "" && Registered(d.server, c) && (Name(d.names, c) == "" || Name(d.names, c) == user)
    && forall e :: e != c ==> !Named(d.server, d.names, e, user)
  }

  lemma SameFdSameConnection(s: Server, c: ConnId, e: ConnId)
    requires Inv(s) && c in s.live && e in s.live && s.live[c] == s.live[e]
    ensures c == e
  {
    hide LiveIsOwned, MapIsSound, DisconnectsOnce;
  }

  /** No name is on two registered connections. */
  lemma AgreeingNamesDiffer(s: Server, names: Names, online: Online, c: ConnId, e: ConnId)
    requires Inv(s) && Found(s, names, online)
    requires Registered(s, c) && Registered(s, e) && Name(names, c) == Name(names, e) != ""
    ensures c == e
  {
    hide Inv, Name;
    assert s.live[c] == s.live[e];
    SameFdSameConnection(s, c, e);
  }

  /** With the guard the login keeps the two in step. */
  lemma GuardedLoginAgrees(d: Directory, c: ConnId, user: string)
    requires DirInv(d) && Possible(d, Login(c, user)) && Agree(d.server, d.names, d.online)
    requires MayLogin(d, c, user)
    ensures Agree(d.server, d.names[c := user], d.online[user := d.server.live[c]])
  {
    hide Inv, Enabled, Registered;
    var s, names, online := d.server, d.names[c := user], d.online[user := d.server.live[c]];
    assert Named(s, names, c, user);
    forall u | u in online
      ensures u != "" && exists e :: Named(s, names, e, u)
    {
      if u != user {
        var e :| Named(s, d.names, e, u);
        assert Named(s, names, e, u);
      }
    }
  }

  /** An entry with the fd of c is the entry of c. */
  lemma EntryOf(s: Server, names: Names, online: Online, c: ConnId)
    requires Inv(s) && Agree(s, names, online) && c in s.live
    ensures forall user :: user in online && online[user] == s.live[c] ==> Named(s, names, c, user)
  {
    hide Inv, Name;
    forall user | user in online && online[user] == s.live[c]
      ensures Named(s, names, c, user)
    {
      var owner :| Named(s, names, owner, user);
      SameFdSameConnection(s, owner, c);
    }
  }

  /** Without it, each of its four parts missing leaves an entry or a connection wrong. */
  lemma UnguardedLoginDisagrees(d: Directory, c: ConnId, user: string)
    requires DirInv(d) && Possible(d, Login(c, user)) && Agree(d.server, d.names, d.online)
    requires Agree(d.server, d.names[c := user], d.online[user := d.server.live[c]])
    ensures MayLogin(d, c, user)
  {
    var s, names, online := d.server, d.names[c := user], d.online[user := d.server.live[c]];
    EntryOf(s, names, online, c);
    assert DistinctFds(s.live);
    assert user in online && user != "";
    hide Inv, Enabled, Accounted;
    assert forall e :: e != c ==> Name(names, e) == Name(d.names, e);
    assert Registered(s, c);
    forall u | u in d.online && d.online[u] == s.live[c]
      ensures u == user
    {
      assert u in online && online[u] == s.live[c];
    }
    assert Name(d.names, c) == "" || Name(d.names, c) == user;
    assert forall e :: e != c ==> !Named(s, d.names, e, user);
  }

  /** A successful login keeps the directory right exactly when the name is not empty, the connection
      is still in m_connections, has no other name, and nobody else who is registered has this one. */
  lemma LoginAgreesIff(d: Directory, c: ConnId, user: string)
    requires DirInv(d) && Possible(d, Login(c, user)) && Agree(d.server, d.names, d.online)
    ensures var t := After(d, Login(c, user)); Agree(t.server, t.names, t.online) <==> MayLogin(d, c, user)
  {
    hide DirInv, Agree, MayLogin;
    var t := After(d, Login(c, user));
    if MayLogin(d, c, user) {
      GuardedLoginAgrees(d, c, user);
    }
    if Agree(t.server, t.names, t.online) {
      UnguardedLoginDisagrees(d, c, user);
    }
  }

  // ---- Every run

  lemma FoundStill(s: Server, t: Server, names: Names, online: Online, c: ConnId)
    requires Inv(s) && Effect(s, t) && Found(s, names, online)
    requires c < s.nextId && c in t.live && Registered(t, c) && Name(names, c) != ""
    ensures var online' := ForgetGone(s, t, names, online);
            Name(names, c) in online' && online'[Name(names, c)] == t.live[c]
  {
    hide Inv, Name;
    assert Registered(s, c) && c !in Gone(s, t);
    if |t.disconnects| > |s.disconnects| {
      var gone := t.disconnects[|s.disconnects|];
      assert gone in Gone(s, t);
      if Name(names, gone) == Name(names, c) {
        AgreeingNamesDiffer(s, names, online, gone, c);
      }
    }
  }

  lemma OwnerStays(s: Server, t: Server, names: Names, online: Online, c: ConnId, user: string)
    requires Inv(s) && Effect(s, t) && user in ForgetGone(s, t, names, online) && user != ""
    requires Named(s, names, c, user)
    ensures Named(t, names, c, user)
  {
    assert c < s.nextId;
    hide Inv, Name;
  }

  /** Connections going unregister only themselves, and onDisconnect erases just their names. */
  lemma EffectAgrees(s: Server, t: Server, names: Names, online: Online)
    requires Inv(s) && Effect(s, t) && Agree(s, names, online)
    requires forall c :: c in names ==> c < s.nextId
    ensures Agree(t, names, ForgetGone(s, t, names, online))
  {
    var online' := ForgetGone(s, t, names, online);
    forall c | c in t.live && Registered(t, c) && Name(names, c) != ""
      ensures Name(names, c) in online' && online'[Name(names, c)] == t.live[c]
    {
      assert Registered(s, c);
      FoundStill(s, t, names, online, c);
    }
    forall user | user in online'
      ensures user != "" && exists c :: Named(t, names, c, user)
    {
      var c :| Named(s, names, c, user);
      OwnerStays(s, t, names, online, c, user);
    }
  }

  /** A run in which every login meets the guard. */
  ghost predicate Guarded(d: Directory, run: seq<Event>, t: Directory)
    decreases |run|
  {
    if run == [] then d == t
    else
      Possible(d, run[0]) && (run[0].Login? ==> MayLogin(d, run[0].c, run[0].user))
      && Guarded(After(d, run[0]), run[1..], t)
  }

  lemma BaseAgrees(d: Directory, a: Action)
    requires DirInv(d) && Possible(d, Base(a)) && Agree(d.server, d.names, d.online)
    ensures var t := After(d, Base(a)); DirInv(t) && Agree(t.server, t.names, t.online)
  {
    hide Inv, Enabled, Next, Agree, Gone, ForgetGone, Registered;
    StepInv(d.server, a);
    StepEffect(d.server, a);
    EffectAgrees(d.server, Next(d.server, a), d.names, d.online);
  }

  lemma LoginKeepsInv(d: Directory, c: ConnId, user: string)
    requires DirInv(d) && Possible(d, Login(c, user))
    ensures DirInv(After(d, Login(c, user)))
  {
    assert c < d.server.nextId;
    hide Inv;
  }

  lemma {:induction false} GuardedRunAgrees(d: Directory, run: seq<Event>, t: Directory)
    requires DirInv(d) && Agree(d.server, d.names, d.online) && Guarded(d, run, t)
    ensures DirInv(t) && Agree(t.server, t.names, t.online)
    decreases |run|
  {
    hide DirInv, Agree, MayLogin, Possible, After;
    if run != [] {
      match run[0] {
        case Base(a) => BaseAgrees(d, a);
        case Login(c, user) => LoginAgreesIff(d, c, user); LoginKeepsInv(d, c, user);
      }
      GuardedRunAgrees(After(d, run[0]), run[1..], t);
    }
  }

  lemma Inverse(t: Directory, user: string, fd: Fd)
    requires DirInv(t) && Agree(t.server, t.names, t.online)
    ensures user in t.online && t.online[user] == fd <==>
            user != "" && fd in t.server.registered && Name(t.names, t.server.registered[fd]) == user
  {
    hide Name, FdsAreOwned, LiveIsOwned, DisconnectsOnce;
    if user in t.online && t.online[user] == fd {
      var c :| Named(t.server, t.names, c, user);
      assert t.server.live[c] == fd;
    }
    if fd in t.server.registered {
      assert Registered(t.server, t.server.registered[fd]);
    }
  }

  /** online_users_ is the inverse of the usernames of the registered connections, at every moment of
      every run whose logins meet the guard, whoever disconnects in between. */
  lemma DirectoryAgrees(run: seq<Event>, t: Directory)
    requires Guarded(START, run, t)
    ensures forall user: string, fd: Fd ::
              user in t.online && t.online[user] == fd <==>
              user != "" && fd in t.server.registered && Name(t.names, t.server.registered[fd]) == user
  {
    InitInv();
    GuardedRunAgrees(START, run, t);
    forall user: string, fd: Fd
      ensures user in t.online && t.online[user] == fd <==>
              user != "" && fd in t.server.registered && Name(t.names, t.server.registered[fd]) == user
    {
      Inverse(t, user, fd);
    }
  }

  // ---- Runs of the server alone

  ghost predicate Follows(d: Directory, run: seq<Action>, t: Directory)
    decreases |run|
  {
    if run == [] then d == t
    else Possible(d, Base(run[0])) && Follows(After(d, Base(run[0])), run[1..], t)
  }

  lemma {:induction false} FollowsSnoc(d: Directory, run: seq<Action>, t: Directory, a: Action)
    requires Follows(d, run, t) && Possible(t, Base(a))
    ensures Follows(d, run + [a], After(t, Base(a)))
    decreases |run|
  {
    hide After, Possible;
    if run == [] {
      assert Follows(After(t, Base(a)), [], After(t, Base(a)));
      assert ([] + [a])[0] == a && ([] + [a])[1..] == [];
    } else {
      FollowsSnoc(After(d, Base(run[0])), run[1..], t, a);
      assert (run + [a])[1..] == run[1..] + [a];
    }
  }

  /** Connections that come and go never spoil the directory. */
  lemma {:induction false} FollowsAgrees(d: Directory, run: seq<Action>, t: Directory)
    requires DirInv(d) && Agree(d.server, d.names, d.online) && Follows(d, run, t)
    ensures DirInv(t) && Agree(t.server, t.names, t.online)
    ensures Reaches(d.server, run, t.server) && t.names == d.names
    decreases |run|
  {
    hide DirInv, Agree, Enabled, Next, ForgetGone;
    if run != [] {
      BaseAgrees(d, run[0]);
      FollowsAgrees(After(d, Base(run[0])), run[1..], t);
    }
  }

  // ---- Each part of the guard is needed: runs in which only that part is missing

  lemma {:induction false} GuardedSnoc(d: Directory, run: seq<Event>, t: Directory, e: Event)
    requires Guarded(d, run, t) && Possible(t, e) && (e.Login? ==> MayLogin(t, e.c, e.user))
    ensures Guarded(d, run + [e], After(t, e))
    decreases |run|
  {
    hide After, Possible, MayLogin;
    if run == [] {
      assert Guarded(After(t, e), [], After(t, e));
      assert ([] + [e])[0] == e && ([] + [e])[1..] == [];
    } else {
      GuardedSnoc(After(d, run[0]), run[1..], t, e);
      assert (run + [e])[1..] == run[1..] + [e];
    }
  }

  /** The state is one of a guarded run. */
  ghost predicate Reachable(d: Directory) {
    exists run :: Guarded(START, run, d)
  }

  lemma ReachableNext(d: Directory, e: Event)
    requires Reachable(d) && Possible(d, e) && (e.Login? ==> MayLogin(d, e.c, e.user))
    ensures Reachable(After(d, e))
  {
    hide Guarded, After, Possible, MayLogin;
    var run :| Guarded(START, run, d);
    GuardedSnoc(START, run, d, e);
  }

  /** The login can happen here, and spoils the directory, which was right. */
  ghost predicate Spoils(d: Directory, c: ConnId, user: string) {
    Reachable(d) && Agree(d.server, d.names, d.online)
    && Possible(d, Login(c, user)) && !Agree(d.server, d.names[c := user], d.online[user := d.server.live[c]])
  }

  lemma StartAgrees()
    ensures DirInv(START) && Agree(START.server, START.names, START.online)
  {
    InitInv();
    hide Inv;
  }

  lemma AfterLogin(d: Directory, c: ConnId, user: string)
    requires Possible(d, Login(c, user))
    ensures After(d, Login(c, user)) == d.(names := d.names[c := user], online := d.online[user := d.server.live[c]])
    ensures c in d.server.live
  {
  }

  lemma UnguardedSpoils(d: Directory, c: ConnId, user: string)
    requires Reachable(d) && Possible(d, Login(c, user)) && !MayLogin(d, c, user)
    ensures Spoils(d, c, user)
  {
    hide Inv, Guarded, Possible, MayLogin, Agree;
    InitInv();
    var run :| Guarded(START, run, d);
    StartAgrees();
    GuardedRunAgrees(START, run, d);
    LoginAgreesIff(d, c, user);
    AfterLogin(d, c, user);
  }

  /** One client, on fd 5, with its handler at work. */
  const ONE := Directory(
    Server(1, map[0 := 5], multiset{0}, {}, {}, map[5 := 0], Timers({Timer(0, 30)}, map[5 := 30]), [], []), map[], map[])

  lemma OneIsReachable()
    ensures Reachable(ONE)
  {
    var s1 := INIT.(pending := {5});
    var s2 := ONE.server.(holders := multiset{});
    assert Reachable(START) by { assert Guarded(START, [], START); }
    assert Next(INIT, Accept(5)) == s1;
    ReachableNext(START, Base(Accept(5)));
    assert Next(s1, Register(5, 30)) == s2;
    ReachableNext(START.(server := s1), Base(Register(5, 30)));
    assert Next(s2, Lock(0)) == ONE.server;
    ReachableNext(START.(server := s2), Base(Lock(0)));
  }

  lemma EmptyNameSpoils()
    ensures Spoils(ONE, 0, "")
    ensures Registered(ONE.server, 0) && Name(ONE.names, 0) == "" && forall e :: e != 0 ==> !Named(ONE.server, ONE.names, e, "")
  {
    OneIsReachable();
    hide Reachable;
    UnguardedSpoils(ONE, 0, "");
  }

  /** That client has logged in as ann. */
  const ANN := ONE.(names := map[0 := "ann"], online := map["ann" := 5])

  lemma AnnIsReachable()
    ensures Reachable(ANN)
  {
    OneIsReachable();
    hide Reachable;
    assert MayLogin(ONE, 0, "ann");
    ReachableNext(ONE, Login(0, "ann"));
    assert After(ONE, Login(0, "ann")) == ANN;
  }

  lemma SecondNameSpoils()
    ensures Spoils(ANN, 0, "bob")
    ensures Registered(ANN.server, 0) && forall e :: e != 0 ==> !Named(ANN.server, ANN.names, e, "bob")
  {
    AnnIsReachable();
    hide Reachable;
    assert Name(ANN.names, 0) == "ann";
    UnguardedSpoils(ANN, 0, "bob");
  }

  /** A second client has come, on fd 6. */
  const TWO := ANN.(server := Server(2, map[0 := 5, 1 := 6], multiset{0, 1}, {}, {}, map[5 := 0, 6 := 1],
                                     Timers({Timer(0, 30), Timer(1, 30)}, map[5 := 30, 6 := 30]), [], []))

  lemma SecondArrives()
    ensures var s0, s1 := ANN.server, ANN.server.(pending := {6});
            Enabled(s0, Accept(6)) && Next(s0, Accept(6)) == s1 && Enabled(s1, Register(6, 30))
  {
  }

  lemma SecondRegisters()
    ensures var s1, s2 := ANN.server.(pending := {6}), TWO.server.(holders := multiset{0});
            Enabled(s1, Register(6, 30)) && Next(s1, Register(6, 30)) == s2
            && Enabled(s2, Lock(1)) && Next(s2, Lock(1)) == TWO.server
  {
  }

  lemma TwoIsReachable()
    ensures Reachable(TWO)
  {
    hide Reachable, Next, Enabled;
    AnnIsReachable();
    SecondArrives();
    ReachableNext(ANN, Base(Accept(6)));
    SecondRegisters();
    ReachableNext(ANN.(server := ANN.server.(pending := {6})), Base(Register(6, 30)));
    ReachableNext(ANN.(server := TWO.server.(holders := multiset{0})), Base(Lock(1)));
  }

  lemma NameInUseSpoils()
    ensures Spoils(TWO, 1, "ann")
    ensures Registered(TWO.server, 1) && Name(TWO.names, 1) == ""
  {
    TwoIsReachable();
    hide Reachable;
    assert Named(TWO.server, TWO.names, 0, "ann");
    UnguardedSpoils(TWO, 1, "ann");
  }

  /** The first client was removed before its handler came to log it in. */
  const GONE := ONE.(server := ONE.server.(registered := map[], timers := Timers({Timer(0, 30)}, map[]), disconnects := [0]))

  lemma GoneIsReachable()
    ensures Reachable(GONE)
  {
    OneIsReachable();
    hide Reachable;
    assert Next(ONE.server, Close(0)) == GONE.server;
    ReachableNext(ONE, Base(Close(0)));
    assert After(ONE, Base(Close(0))) == GONE;
  }

  lemma RemovedSpoils()
    ensures Spoils(GONE, 0, "ann")
    ensures Name(GONE.names, 0) == "" && forall e :: !Named(GONE.server, GONE.names, e, "ann")
  {
    GoneIsReachable();
    hide Reachable;
    UnguardedSpoils(GONE, 0, "ann");
  }
}
