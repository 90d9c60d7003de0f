/** Single steps and short runs of the server, as the methods of its class need them. */
module ServerFacts {
  import opened TimerManagement
  import opened ServerState
  import opened Lifetime
  import opened Directories
  import Broadcasts

  lemma FdsDiffer(s: Server)
    requires Inv(s)
    ensures DistinctFds(s.live)
  {
  }

  /** What accept(2) may answer: fds that are not open, each once. */
  ghost predicate KernelFds(s: Server, answers: seq<Fd>) {
    Broadcasts.NoRepeats(answers) && forall f :: f in answers ==> f >= 0 && f !in OpenFds(s)
  }

  /** The first n answers have entries, numbered from `first` on, and deadlines. */
  ghost predicate Entered(answers: seq<Fd>, expires: seq<int>, n: nat, first: ConnId, entries: map<Fd, ConnId>,
                          expected: map<Fd, int>)
    requires n <= |answers| == |expires|
  {
    forall k :: 0 <= k < n ==>
      answers[k] in entries && entries[answers[k]] == first + k
      && answers[k] in expected && expected[answers[k]] == expires[k]
  }

  /** The entries before, and one for each of the first n answers. */
  ghost predicate Grown(before: map<Fd, ConnId>, entries: map<Fd, ConnId>, answers: seq<Fd>, n: nat)
    requires n <= |answers|
  {
    (forall f :: f in entries <==> f in before || f in answers[..n]) && forall f :: f in before ==> entries[f] == before[f]
  }

  lemma GrowOne(before: map<Fd, ConnId>, entries: map<Fd, ConnId>, answers: seq<Fd>, n: nat, c: ConnId)
    requires n < |answers| && Grown(before, entries, answers, n)
    ensures answers[n] !in entries ==> Grown(before, entries[answers[n] := c], answers, n + 1)
  {
    assert answers[..n + 1] == answers[..n] + [answers[n]];
  }

  lemma GrownAll(before: map<Fd, ConnId>, entries: map<Fd, ConnId>, answers: seq<Fd>)
    requires Grown(before, entries, answers, |answers|)
    ensures forall f :: f in entries <==> f in before || f in answers
    ensures forall f :: f in before ==> entries[f] == before[f]
  {
    assert answers[..|answers|] == answers;
  }

  /** Each accepted fd is registered with the deadline computed for it. */
  function AcceptRun(answers: seq<Fd>, expires: seq<int>): seq<Action>
    requires |expires| == |answers|
  {
    if answers == [] then []
    else
      var n := |answers| - 1;
      AcceptRun(answers[..n], expires[..n]) + [Accept(answers[n])] + [Register(answers[n], expires[n])]
  }

  /** The loop of handleNewConnection after n answers. */
  ghost predicate AcceptedTo(s: Server, answers: seq<Fd>, expires: seq<int>, n: nat, t: Server)
    requires n <= |answers| == |expires|
  {
    KernelFds(t, answers[n..]) && Reaches(s, AcceptRun(answers[..n], expires[..n]), t)
  }

  lemma StartAccepting(s: Server, answers: seq<Fd>, expires: seq<int>, entries: map<Fd, ConnId>)
    requires |answers| == |expires| && KernelFds(s, answers)
    ensures AcceptedTo(s, answers, expires, 0, s) && Grown(entries, entries, answers, 0)
    ensures Broadcasts.NoRepeats(answers)
  {
    assert answers[0..] == answers;
  }

  lemma AcceptedAll(s: Server, answers: seq<Fd>, expires: seq<int>, t: Server)
    requires |answers| == |expires| && AcceptedTo(s, answers, expires, |answers|, t)
    ensures Reaches(s, AcceptRun(answers, expires), t)
  {
    assert answers[..|answers|] == answers && expires[..|answers|] == expires;
  }

  lemma StartEntering(answers: seq<Fd>, expires: seq<int>, first: ConnId, entries: map<Fd, ConnId>, expected: map<Fd, int>)
    requires |answers| == |expires|
    ensures Entered(answers, expires, 0, first, entries, expected)
  {
  }

  lemma AllEntered(answers: seq<Fd>, expires: seq<int>, first: ConnId, entries: map<Fd, ConnId>, expected: map<Fd, int>)
    requires |answers| == |expires| && Entered(answers, expires, |answers|, first, entries, expected)
    ensures forall i :: 0 <= i < |answers| ==>
              answers[i] in entries && entries[answers[i]] == first + i
              && answers[i] in expected && expected[answers[i]] == expires[i]
  {
  }

  lemma EnterOne(answers: seq<Fd>, expires: seq<int>, n: nat, first: ConnId, entries: map<Fd, ConnId>,
                 expected: map<Fd, int>)
    requires n < |answers| == |expires| && Broadcasts.NoRepeats(answers)
    requires Entered(answers, expires, n, first, entries, expected)
    ensures Entered(answers, expires, n + 1, first, entries[answers[n] := first + n], expected[answers[n] := expires[n]])
  {
  }

  function TickRun(now: int, expired: seq<ConnId>, n: nat): seq<Action> {
    if n == 0 then [Collect(now, expired)] else TickRun(now, expired, n - 1) + [TickRemove]
  }

  lemma ReachesItself(s: Server)
    ensures Reaches(s, [], s)
  {
  }

  /** Between s and t conn was closed, if `ends`, and nothing else was unregistered. */
  ghost predicate Closed(s: Server, t: Server, conn: ConnId, ends: bool) {
    (forall c :: Registered(t, c) <==> Registered(s, c) && !(ends && c == conn))
    && t.disconnects == s.disconnects + if ends && Registered(s, conn) then [conn] else []
  }

  lemma NotClosed(s: Server, t: Server, conn: ConnId)
    requires (forall c :: Registered(t, c) <==> Registered(s, c)) && t.disconnects == s.disconnects
    ensures Closed(s, t, conn, false)
  {
    hide Registered;
  }

  lemma ClosedMeans(s: Server, t: Server, conn: ConnId, ends: bool)
    requires Closed(s, t, conn, ends)
    ensures forall c :: Registered(t, c) <==> Registered(s, c) && !(ends && c == conn)
    ensures t.disconnects == s.disconnects + if ends && Registered(s, conn) then [conn] else []
  {
    hide Registered;
  }

  /** Closing what is closed already does nothing more. */
  lemma ClosedTwice(s: Server, t: Server, u: Server, conn: ConnId, first: bool, second: bool)
    requires Closed(s, t, conn, first) && Closed(t, u, conn, second)
    ensures Closed(s, u, conn, first || second)
  {
    hide Registered;
  }

  lemma GoneIsNotHeld(s: Server, c: ConnId)
    requires Inv(s) && c !in s.live
    ensures !Registered(s, c) && c !in s.holders
  {
  }

  lemma HeldIsLive(s: Server, c: ConnId)
    requires Inv(s) && c in s.holders
    ensures c in s.live && Enabled(s, Close(c))
  {
  }

  lemma LockFacts(s: Server, c: ConnId)
    requires Inv(s) && c in s.live
    ensures var t := Next(s, Lock(c));
            Enabled(s, Lock(c)) && Inv(t) && t == s.(holders := s.holders + multiset{c})
            && Enabled(t, Release(c)) && forall d :: Registered(t, d) <==> Registered(s, d)
  {
    HoldInv(s, Lock(c));
    assert multiset(s.collected) <= s.holders;
    hide Inv;
  }

  lemma LiveIff(s: Server, c: ConnId)
    requires Inv(s)
    ensures c in s.live <==> Registered(s, c) || c in s.holders
  {
    hide FdsAreOwned, DisconnectsOnce, MapIsSound;
  }

  lemma ReleaseFacts(s: Server, c: ConnId)
    requires Inv(s) && Enabled(s, Release(c))
    ensures var t := Next(s, Release(c));
            c in s.live && Inv(t) && (forall d :: Registered(t, d) <==> Registered(s, d))
            && (c in t.live <==> Registered(t, c) || c in t.holders)
  {
    ReleaseInv(s, c);
    HeldIsLive(s, c);
    hide Inv, Next, Registered;
    LiveIff(Next(s, Release(c)), c);
  }

  lemma CollectFacts(s: Server, now: int, expired: seq<ConnId>)
    requires Inv(s) && s.collected == [] && IsExpiredList(s.timers, s.live, now, expired)
    ensures Enabled(s, Collect(now, expired))
    ensures var t := Next(s, Collect(now, expired));
            Inv(t) && t == s.(timers := AfterCheck(s.timers, s.live, now), collected := expired,
                              holders := s.holders + multiset(expired))
            && forall c :: Registered(t, c) <==> Registered(s, c)
    ensures forall c :: c in expired <==> IsDue(s.timers, s.live, now, c)
  {
    hide Inv, AfterCheck;
    CollectInv(s, now, expired);
  }

  lemma PopFacts(s: Server)
    requires Inv(s) && s.collected != []
    ensures Inv(s.(collected := s.collected[1..]))
    ensures forall c :: Registered(s.(collected := s.collected[1..]), c) <==> Registered(s, c)
    ensures Enabled(s, TickRemove)
  {
    hide FdsAreOwned, MapIsSound, DisconnectsOnce, Mapped;
    PopOne(s.collected);
    assert s.collected[0] in multiset(s.collected);
  }

  lemma AcceptThenRegister(t: Server, fd: Fd, expire: int)
    requires Inv(t) && fd >= 0 && fd !in OpenFds(t)
    ensures Enabled(t, Accept(fd)) && Inv(Next(t, Accept(fd))) && fd !in t.registered
    ensures Next(t, Accept(fd)) == t.(pending := t.pending + {fd})
    ensures Enabled(Next(t, Accept(fd)), Register(fd, expire))
    ensures forall f :: f in OpenFds(Next(Next(t, Accept(fd)), Register(fd, expire))) ==> f in OpenFds(t) || f == fd
  {
    OpenInv(t, Accept(fd));
    RegisterIsNew(Next(t, Accept(fd)), fd);
    hide Inv, AfterAdd;
  }

  lemma AcceptOne(s: Server, answers: seq<Fd>, expires: seq<int>, i: nat, t: Server)
    requires |expires| == |answers| && i < |answers| && Inv(t) && KernelFds(t, answers[i..])
    requires Reaches(s, AcceptRun(answers[..i], expires[..i]), t)
    ensures Enabled(t, Accept(answers[i])) && answers[i] !in t.registered
    ensures var u := Next(t, Accept(answers[i]));
            Inv(u) && u == t.(pending := t.pending + {answers[i]}) && Enabled(u, Register(answers[i], expires[i]))
            && KernelFds(Next(u, Register(answers[i], expires[i])), answers[i + 1..])
            && Reaches(s, AcceptRun(answers[..i + 1], expires[..i + 1]), Next(u, Register(answers[i], expires[i])))
  {
    hide Inv, Enabled, Next, OpenFds, Reaches;
    var fd, expire := answers[i], expires[i];
    assert fd in answers[i..];
    AcceptThenRegister(t, fd, expire);
    var u := Next(t, Accept(fd));
    var before := AcceptRun(answers[..i], expires[..i]);
    ReachesSnoc(s, before, t, Accept(fd));
    ReachesSnoc(s, before + [Accept(fd)], u, Register(fd, expire));
    assert answers[..i + 1][..i] == answers[..i] && expires[..i + 1][..i] == expires[..i];
    Broadcasts.RestOf(answers[i..]);
    assert answers[i..][1..] == answers[i + 1..];
  }

  /** A connection's messages, each renewing its deadline. */
  function RefreshRun(conn: ConnId, expires: seq<int>): seq<Action> {
    seq(|expires|, i requires 0 <= i < |expires| => Refresh(conn, expires[i]))
  }

  lemma RefreshSnoc(conn: ConnId, expires: seq<int>, i: nat)
    requires i < |expires|
    ensures RefreshRun(conn, expires[..i + 1]) == RefreshRun(conn, expires[..i]) + [Refresh(conn, expires[i])]
  {
  }

  lemma StartRefreshing(s: Server, conn: ConnId, expires: seq<int>)
    ensures Reaches(s, RefreshRun(conn, expires[..0]), s)
  {
    assert RefreshRun(conn, expires[..0]) == [];
  }

  lemma RefreshFacts(s: Server, conn: ConnId, expire: int)
    requires Inv(s) && conn in s.live && conn in s.holders
    ensures Enabled(s, Refresh(conn, expire))
    ensures var t := Next(s, Refresh(conn, expire)); conn in t.live && conn in t.holders
  {
    hide Inv, AfterAdd;
  }

  /** Channel::handleEvent so far: the owner is locked, its messages renew the deadline, and it is closed
      as often as callbacks say. */
  function HandlerRun(conn: ConnId, expires: seq<int>, closes: nat): seq<Action> {
    if closes == 0 then [Lock(conn)] + RefreshRun(conn, expires)
    else HandlerRun(conn, expires, closes - 1) + [Close(conn)]
  }

  /** All of it: at the end the owner is let go. */
  function EventRun(conn: ConnId, expires: seq<int>, closes: nat): seq<Action> {
    HandlerRun(conn, expires, closes) + [Release(conn)]
  }

  lemma StillHeld(s: Server, t: Server, c: ConnId)
    requires Enabled(s, Release(c)) && t.holders == s.holders && t.collected == s.collected
    ensures Enabled(t, Release(c))
  {
  }

  /** A step that disconnects nobody leaves the directory alone. */
  lemma QuietStep(d: Directory, a: Action)
    requires Enabled(d.server, a) && Next(d.server, a).disconnects == d.server.disconnects
    ensures After(d, Base(a)) == d.(server := Next(d.server, a))
  {
    hide Enabled, Next;
  }

  lemma RefreshIs(s: Server, a: Action)
    requires Enabled(s, a) && a.Refresh?
    ensures Next(s, a) == s.(timers := Next(s, a).timers)
  {
    hide AfterAdd;
  }

  /** Renewals of deadlines change nothing but the timers, and the directory follows. */
  lemma {:induction false} RefreshesFollow(d: Directory, run: seq<Action>, t: Server)
    requires Reaches(d.server, run, t) && forall a :: a in run ==> a.Refresh?
    ensures t == d.server.(timers := t.timers) && Follows(d, run, d.(server := t))
    decreases |run|
  {
    hide Enabled, Next;
    if run == [] {
      assert d.(server := t) == d;
    } else {
      var a := run[0];
      assert a in run;
      RefreshIs(d.server, a);
      QuietStep(d, a);
      RefreshesFollow(After(d, Base(a)), run[1..], t);
    }
  }

  lemma FollowsCons(d: Directory, a: Action, run: seq<Action>, t: Directory)
    requires Possible(d, Base(a)) && Follows(After(d, Base(a)), run, t)
    ensures Follows(d, [a] + run, t)
  {
    hide Possible, After;
    assert ([a] + run)[1..] == run;
  }

  lemma FollowsFirst(d: Directory, a: Action)
    requires Possible(d, Base(a))
    ensures Follows(d, [a], After(d, Base(a)))
  {
    hide Possible, After;
    assert Follows(After(d, Base(a)), [], After(d, Base(a)));
    assert [a][1..] == [];
  }
}
