/** The lazy timer queue refines a plain map from connection to deadline, over every run of the server. */
module Deadlines {
  import opened TimerManagement
  import opened ServerState
  import opened Lifetime

  /** The latest deadline set for each live connection and not yet removed or run out. */
  type Ideal = map<ConnId, int>

  /** removeClient takes the deadline of a registered connection away. */
  ghost function Removed(s: Server, d: Ideal, c: ConnId): Ideal {
    if Registered(s, c) then d - {c} else d
  }

  ghost function Surviving(d: Ideal, live: Live): (r: Ideal) {
    map c | c in d && c in live :: d[c]
  }

  /** The map a reader of the source would keep instead of the queue. */
  ghost function IdealStep(s: Server, d: Ideal, a: Action): Ideal
    requires Enabled(s, a)
  {
    match a
    case Register(_, expire) => d[s.nextId := expire]
    case Refresh(c, expire) => d[c := expire]
    case Close(c) => Removed(s, d, c)
    case Collect(_, expired) => d - set c | c in expired
    case TickRemove => Removed(s, d, s.collected[0])
    case _ => d
  }

  /** ...from which destroyed connections drop out. */
  ghost function IdealNext(s: Server, d: Ideal, a: Action): Ideal
    requires Enabled(s, a)
  {
    Surviving(IdealStep(s, d, a), Next(s, a).live)
  }

  ghost predicate Run(s: Server, d: Ideal, run: seq<Action>, t: Server, e: Ideal)
    decreases |run|
  {
    if run == [] then s == t && d == e
    else Enabled(s, run[0]) && Run(Next(s, run[0]), IdealNext(s, d, run[0]), run[1..], t, e)
  }

  /** Every deadline of the map is the one expected for the connection's fd, with its node queued; any
      other live connection has nothing expected under its fd, or no node; nodes name past objects. */
  ghost predicate Refines(t: Timers, live: Live, d: Ideal, nextId: ConnId) {
    (forall c :: c in d ==> c in live && live[c] in t.expected && t.expected[live[c]] == d[c] && Timer(c, d[c]) in t.queue)
    && (forall n :: n in t.queue && n.conn in live && n.conn !in d ==> live[n.conn] !in t.expected)
    && forall n :: n in t.queue ==> n.conn < nextId
  }

  lemma AddRefines(t: Timers, live: Live, d: Ideal, nextId: ConnId, c: ConnId, expire: int)
    requires Refines(t, live, d, nextId) && DistinctFds(live) && c in live && c < nextId
    ensures Refines(AfterAdd(t, live, c, expire), live, d[c := expire], nextId)
  {
  }

  /** Removing the deadline of the connection that owns fd, if any does. */
  lemma RemoveRefines(t: Timers, live: Live, d: Ideal, nextId: ConnId, c: ConnId)
    requires Refines(t, live, d, nextId) && DistinctFds(live) && c in live
    ensures Refines(AfterRemove(t, live[c]), live, d - {c}, nextId)
  {
  }

  lemma DeathRefines(t: Timers, live: Live, d: Ideal, nextId: ConnId, gone: set<ConnId>)
    requires Refines(t, live, d, nextId)
    ensures Refines(t, live - gone, d - gone, nextId)
  {
  }

  lemma BirthRefines(t: Timers, live: Live, d: Ideal, nextId: ConnId, fd: Fd)
    requires Refines(t, live, d, nextId)
    requires nextId !in live
    ensures Refines(t, live[nextId := fd], d, nextId + 1)
  {
  }

  lemma DueIsPast(t: Timers, live: Live, d: Ideal, nextId: ConnId, now: int, c: ConnId)
    requires Refines(t, live, d, nextId)
    ensures IsDue(t, live, now, c) <==> c in d && d[c] <= now
    ensures IsDue(t, live, now, c) ==> Expected(t, live, c) == d[c]
  {
    if IsDue(t, live, now, c) {
      assert Timer(c, t.expected[live[c]]) in t.queue;
      assert Timer(c, t.expected[live[c]]).conn == c;
    }
  }

  lemma CheckRefines(t: Timers, live: Live, d: Ideal, nextId: ConnId, now: int, expired: seq<ConnId>)
    requires Refines(t, live, d, nextId) && DistinctFds(live)
    requires forall c :: c in expired <==> IsDue(t, live, now, c)
    ensures Refines(AfterCheck(t, live, now), live, d - (set c | c in expired), nextId)
  {
    forall c
      ensures IsDue(t, live, now, c) <==> c in d && d[c] <= now
      ensures c in live ==> (live[c] in DueFds(t, live, now) <==> IsDue(t, live, now, c))
    {
      DueIsPast(t, live, d, nextId, now, c);
      if c in live && live[c] in DueFds(t, live, now) {
        var e :| e in live && IsDue(t, live, now, e) && live[e] == live[c];
        assert e == c;
      }
    }
    hide IsDue, DueFds;
    var gone := set c | c in expired;
    var u := AfterCheck(t, live, now);
    forall c | c in d - gone
      ensures live[c] in u.expected && u.expected[live[c]] == d[c] && Timer(c, d[c]) in u.queue
    {
    }
    forall n | n in u.queue && n.conn in live && n.conn !in d - gone
      ensures live[n.conn] !in u.expected
    {
    }
  }

  ghost predicate Refined(s: Server, d: Ideal) {
    Refines(s.timers, s.live, d, s.nextId)
  }

  ghost predicate Linked(s: Server, d: Ideal) {
    Inv(s) && Refined(s, d)
  }

  lemma AllSurvive(d: Ideal, live: Live)
    requires forall c :: c in d ==> c in live
    ensures Surviving(d, live) == d
  {
  }

  lemma OneDies(d: Ideal, live: Live, c: ConnId)
    requires forall e :: e in d ==> e in live
    ensures Surviving(d, live - {c}) == d - {c}
  {
  }

  lemma AllLive(s: Server, d: Ideal)
    requires Refined(s, d)
    ensures forall e :: e in d ==> e in s.live
  {
  }

  lemma SettleLinks(s: Server, d: Ideal, c: ConnId)
    requires Refined(s, d)
    ensures Refined(Settle(s, c), Surviving(d, Settle(s, c).live))
  {
    AllLive(s, d);
    DeathRefines(s.timers, s.live, d, s.nextId, {c});
    AllSurvive(d, s.live);
    OneDies(d, s.live, c);
    hide Refines, Surviving;
  }

  lemma RemoveLinks(s: Server, d: Ideal, c: ConnId)
    requires Inv(s) && Refined(s, d) && c in s.live
    ensures var t := RemoveClient(s, s.live[c]); Refined(t, Surviving(Removed(s, d, c), t.live))
  {
    var fd := s.live[c];
    AllLive(s, d);
    if fd in s.registered {
      OnlyOwnerOf(s, fd, c);
      RemoveRefines(s.timers, s.live, d, s.nextId, c);
      hide Refines, Settle, Surviving, Inv;
      SettleLinks(Detached(s, fd), d - {c}, c);
    } else {
      AllSurvive(d, s.live);
      hide Refines, Surviving, Inv;
    }
  }

  lemma RegisterDistinct(s: Server, fd: Fd)
    requires Inv(s) && fd in s.pending
    ensures s.nextId !in s.live && DistinctFds(s.live[s.nextId := fd])
  {
    RegisterIsNew(s, fd);
    RegisterFds(s, fd);
    hide Inv, DistinctFds;
  }

  lemma RegisterLinks(s: Server, d: Ideal, fd: Fd, expire: int)
    requires Linked(s, d) && Enabled(s, Register(fd, expire))
    ensures Refined(Next(s, Register(fd, expire)), IdealNext(s, d, Register(fd, expire)))
  {
    hide Refines, Inv, AfterAdd, DistinctFds, Surviving;
    var live := s.live[s.nextId := fd];
    RegisterDistinct(s, fd);
    AllLive(s, d);
    BirthRefines(s.timers, s.live, d, s.nextId, fd);
    AddRefines(s.timers, live, d, s.nextId + 1, s.nextId, expire);
    AllSurvive(d[s.nextId := expire], live);
  }

  lemma RefreshLinks(s: Server, d: Ideal, c: ConnId, expire: int)
    requires Linked(s, d) && Enabled(s, Refresh(c, expire))
    ensures Refined(Next(s, Refresh(c, expire)), IdealNext(s, d, Refresh(c, expire)))
  {
    AllLive(s, d);
    AddRefines(s.timers, s.live, d, s.nextId, c, expire);
    AllSurvive(d[c := expire], s.live);
    hide Refines, AfterAdd, Inv, Surviving;
  }

  lemma TickLinks(s: Server, d: Ideal)
    requires Linked(s, d) && Enabled(s, TickRemove)
    ensures Refined(Next(s, TickRemove), IdealNext(s, d, TickRemove))
  {
    hide Refines, RemoveClient, Inv, Surviving, Mapped;
    var s1 := s.(collected := s.collected[1..]);
    PopInv(s);
    RemoveLinks(s1, d, s.collected[0]);
  }

  lemma ReleaseLinks(s: Server, d: Ideal, c: ConnId)
    requires Linked(s, d) && Enabled(s, Release(c))
    ensures Refined(Next(s, Release(c)), IdealNext(s, d, Release(c)))
  {
    hide Refines, Settle, Inv, Surviving;
    SettleLinks(s.(holders := s.holders - multiset{c}), d, c);
  }

  lemma CollectLinks(s: Server, d: Ideal, now: int, expired: seq<ConnId>)
    requires Linked(s, d) && Enabled(s, Collect(now, expired))
    ensures Refined(Next(s, Collect(now, expired)), IdealNext(s, d, Collect(now, expired)))
  {
    AllLive(s, d);
    hide AfterCheck, IsDue, NoDuplicates, MapIsSound, LiveIsOwned, DisconnectsOnce;
    CheckRefines(s.timers, s.live, d, s.nextId, now, expired);
    AllSurvive(d - (set c | c in expired), s.live);
    hide Refines, Surviving;
  }

  lemma CloseLinks(s: Server, d: Ideal, c: ConnId)
    requires Linked(s, d) && Enabled(s, Close(c))
    ensures Refined(Next(s, Close(c)), IdealNext(s, d, Close(c)))
  {
    hide Refines, RemoveClient, Inv, Surviving;
    RemoveLinks(s, d, c);
  }

  lemma QuietLinks(s: Server, d: Ideal, a: Action)
    requires Linked(s, d) && Enabled(s, a)
    requires a.OpenOther? || a.CloseOther? || a.Accept? || a.Lock?
    ensures Refined(Next(s, a), IdealNext(s, d, a))
  {
    AllLive(s, d);
    AllSurvive(d, s.live);
    hide Refines, Inv, Surviving;
  }

  lemma StepLinks(s: Server, d: Ideal, a: Action)
    requires Linked(s, d) && Enabled(s, a)
    ensures Linked(Next(s, a), IdealNext(s, d, a))
  {
    StepInv(s, a);
    hide Refined, Inv, Enabled, Next, IdealNext;
    match a
    case Register(fd, expire) => RegisterLinks(s, d, fd, expire);
    case Refresh(c, expire) => RefreshLinks(s, d, c, expire);
    case Close(c) => CloseLinks(s, d, c);
    case TickRemove => TickLinks(s, d);
    case Release(c) => ReleaseLinks(s, d, c);
    case Collect(now, expired) => CollectLinks(s, d, now, expired);
    case _ => QuietLinks(s, d, a);
  }

  lemma {:induction false} RunLinks(s: Server, d: Ideal, run: seq<Action>, t: Server, e: Ideal)
    requires Linked(s, d) && Run(s, d, run, t, e)
    ensures Linked(t, e)
    decreases |run|
  {
    hide Next, IdealNext, Linked, Enabled;
    if run != [] {
      StepLinks(s, d, run[0]);
      RunLinks(Next(s, run[0]), IdealNext(s, d, run[0]), run[1..], t, e);
    }
  }

  /** The connections whose deadline is at most now, once each, by non-decreasing deadline. */
  ghost predicate IsPastList(d: Ideal, now: int, expired: seq<ConnId>) {
    (forall c :: c in expired <==> c in d && d[c] <= now)
    && NoDuplicates(expired)
    && forall i, j :: 0 <= i < j < |expired| && expired[i] in d && expired[j] in d ==> d[expired[i]] <= d[expired[j]]
  }

  lemma ListsAgree(t: Timers, live: Live, d: Ideal, nextId: ConnId, now: int, expired: seq<ConnId>)
    requires Refines(t, live, d, nextId)
    ensures IsExpiredList(t, live, now, expired) <==> IsPastList(d, now, expired)
  {
    forall c
      ensures IsDue(t, live, now, c) <==> c in d && d[c] <= now
      ensures IsDue(t, live, now, c) ==> Expected(t, live, c) == d[c]
    {
      DueIsPast(t, live, d, nextId, now, c);
    }
    hide IsDue, Expected, Refines, NoDuplicates;
    if forall c :: c in expired <==> c in d && d[c] <= now {
      assert forall i :: 0 <= i < |expired| ==> expired[i] in expired && expired[i] in d;
      assert forall i :: 0 <= i < |expired| ==> Expected(t, live, expired[i]) == d[expired[i]];
    }
  }

  lemma CollectForgets(t: Server, d: Ideal, now: int, expired: seq<ConnId>)
    requires Refined(t, d) && IsPastList(d, now, expired) && Enabled(t, Collect(now, expired))
    ensures IdealNext(t, d, Collect(now, expired)) == d - set c | c in d && d[c] <= now
  {
    AllLive(t, d);
    AllSurvive(d - (set c | c in expired), t.live);
    hide Refines, NoDuplicates, AfterCheck, Surviving, IsExpiredList;
    assert (set c | c in expired) == set c | c in d && d[c] <= now;
  }

  lemma LinkedRun(run: seq<Action>, t: Server, d: Ideal)
    requires Run(INIT, map[], run, t, d)
    ensures Linked(t, d)
  {
    InitInv();
    RunLinks(INIT, map[], run, t, d);
  }

  /** Whatever the run, checkTimeout(now) returns exactly the connections whose latest unremoved deadline
      is at most now, once each and by non-decreasing deadline; and it forgets exactly these. */
  lemma QueueRefinesDeadlines(run: seq<Action>, t: Server, d: Ideal, now: int, expired: seq<ConnId>)
    requires Run(INIT, map[], run, t, d)
    ensures IsExpiredList(t.timers, t.live, now, expired) <==> IsPastList(d, now, expired)
    ensures Enabled(t, Collect(now, expired)) ==>
              IdealNext(t, d, Collect(now, expired)) == d - set c | c in d && d[c] <= now
  {
    hide Run, Inv, Refines, IsExpiredList, IsPastList, IdealNext;
    LinkedRun(run, t, d);
    ListsAgree(t.timers, t.live, d, t.nextId, now, expired);
    if Enabled(t, Collect(now, expired)) {
      CollectForgets(t, d, now, expired);
    }
  }

  // ---- What this means for one connection

  /** The step does not set c's deadline again nor close c, and no tick finds x reached. */
  predicate Spares(a: Action, c: ConnId, x: int) {
    match a
    case Refresh(e, _) => e != c
    case Close(e) => e != c
    case Collect(now, _) => now < x
    case _ => true
  }

  ghost predicate Waiting(s: Server, d: Ideal, c: ConnId, x: int) {
    c in d && d[c] == x && c !in s.collected
  }

  lemma SparedByCollect(s: Server, d: Ideal, now: int, expired: seq<ConnId>, c: ConnId, x: int)
    requires Linked(s, d) && Enabled(s, Collect(now, expired)) && Waiting(s, d, c, x) && c in s.live
    ensures c in expired <==> x <= now
  {
    hide Inv, IsDue;
    DueIsPast(s.timers, s.live, d, s.nextId, now, c);
  }

  lemma WaitingIsLive(s: Server, d: Ideal, c: ConnId, x: int)
    requires Linked(s, d) && Waiting(s, d, c, x)
    ensures c in s.live && c < s.nextId
  {
    AllLive(s, d);
    hide Refines, MapIsSound, LiveIsOwned, DisconnectsOnce;
  }

  lemma CollectedAfter(s: Server, a: Action)
    requires Inv(s) && Enabled(s, a)
    ensures Next(s, a).collected ==
            match a case Collect(_, expired) => expired case TickRemove => s.collected[1..] case _ => s.collected
  {
    hide Inv, AfterAdd, AfterCheck, Settle, RemoveClient, IsExpiredList;
    match a
    case Release(c) => SettleShrinks(s.(holders := s.holders - multiset{c}), c);
    case Close(c) => RemoveOwn(s, c);
    case TickRemove => PopInv(s); RemoveOwn(s.(collected := s.collected[1..]), s.collected[0]);
    case _ =>
  }

  lemma SparedIdeal(s: Server, d: Ideal, a: Action, c: ConnId, x: int)
    requires Enabled(s, a) && Waiting(s, d, c, x) && Spares(a, c, x) && c != s.nextId
    requires a.Collect? ==> c !in a.expired
    ensures c in IdealStep(s, d, a) && IdealStep(s, d, a)[c] == x
  {
    hide Registered, IsExpiredList, OpenFds;
  }

  lemma SparedStep(s: Server, d: Ideal, a: Action, c: ConnId, x: int)
    requires Linked(s, d) && Enabled(s, a) && Waiting(s, d, c, x) && Spares(a, c, x)
    ensures c in Next(s, a).live ==> Waiting(Next(s, a), IdealNext(s, d, a), c, x)
  {
    WaitingIsLive(s, d, c, x);
    hide Inv, Refined, IdealStep, Next, Enabled;
    if a.Collect? {
      SparedByCollect(s, d, a.now, a.expired, c, x);
    }
    SparedIdeal(s, d, a, c, x);
    CollectedAfter(s, a);
  }

  lemma {:induction false} GoneForGood(s: Server, d: Ideal, run: seq<Action>, t: Server, e: Ideal, c: ConnId)
    requires Inv(s) && Run(s, d, run, t, e) && c < s.nextId && c !in s.live
    ensures c !in t.live
    decreases |run|
  {
    hide Inv, Next, IdealNext, Enabled, Registered, Gone;
    if run != [] {
      StepInv(s, run[0]);
      StepEffect(s, run[0]);
      GoneForGood(Next(s, run[0]), IdealNext(s, d, run[0]), run[1..], t, e, c);
    }
  }

  lemma {:induction false} SparedRun(s: Server, d: Ideal, run: seq<Action>, t: Server, e: Ideal, c: ConnId, x: int)
    requires Linked(s, d) && Run(s, d, run, t, e) && Waiting(s, d, c, x)
    requires forall a :: a in run ==> Spares(a, c, x)
    ensures c in t.live ==> Waiting(t, e, c, x)
    decreases |run|
  {
    hide Inv, Refined, Next, IdealNext, Enabled, Spares, Waiting, Registered, Gone;
    if run != [] {
      var u, f := Next(s, run[0]), IdealNext(s, d, run[0]);
      assert run[0] in run;
      SparedStep(s, d, run[0], c, x);
      StepLinks(s, d, run[0]);
      WaitingIsLive(s, d, c, x);
      StepEffect(s, run[0]);
      if c in u.live {
        SparedRun(u, f, run[1..], t, e, c, x);
      } else {
        GoneForGood(u, f, run[1..], t, e, c);
      }
    }
  }

  /** The step sets the deadline of c to x: c connects, or a message of c arrives. */
  ghost predicate Sets(s: Server, a: Action, c: ConnId, x: int) {
    (a.Register? && c == s.nextId && a.expire == x) || (a.Refresh? && a.c == c && a.expire == x)
  }

  lemma SetsWaiting(s: Server, d: Ideal, a: Action, c: ConnId, x: int)
    requires Linked(s, d) && Enabled(s, a) && Sets(s, a, c, x) && c !in s.collected
    ensures Waiting(Next(s, a), IdealNext(s, d, a), c, x)
  {
    hide Inv, Refined, AfterAdd, IsExpiredList;
  }

  /** Along any run of the server the map can be kept. */
  lemma {:induction false} MapCanBeKept(s: Server, d: Ideal, run: seq<Action>, t: Server) returns (e: Ideal)
    requires Reaches(s, run, t)
    ensures Run(s, d, run, t, e)
    decreases |run|
  {
    hide Enabled, Next, IdealNext;
    if run == [] {
      e := d;
    } else {
      e := MapCanBeKept(Next(s, run[0]), IdealNext(s, d, run[0]), run[1..], t);
    }
  }

  lemma DeadlineInMap(before: seq<Action>, s: Server, d: Ideal, a: Action, c: ConnId, x: int,
                      run: seq<Action>, t: Server, e: Ideal, now: int, expired: seq<ConnId>)
    requires Run(INIT, map[], before, s, d) && Enabled(s, a) && Sets(s, a, c, x) && c !in s.collected
    requires Run(Next(s, a), IdealNext(s, d, a), run, t, e)
    requires forall b :: b in run ==> Spares(b, c, x)
    requires c in t.live && Enabled(t, Collect(now, expired))
    ensures c in expired <==> x <= now
  {
    hide Run, Spares, IsExpiredList, Enabled, Next, IdealNext, Linked, Waiting, Sets;
    LinkedRun(before, s, d);
    StepLinks(s, d, a);
    SetsWaiting(s, d, a, c, x);
    SparedRun(Next(s, a), IdealNext(s, d, a), run, t, e, c, x);
    RunLinks(Next(s, a), IdealNext(s, d, a), run, t, e);
    SparedByCollect(t, e, now, expired, c, x);
  }

  /** A connection whose latest message, or else whose arrival, set the deadline x is collected by the first
      tick at or after x, and by none before it, whatever else happens in between, as long as it exists and
      is not closed. */
  lemma DeadlineDecides(before: seq<Action>, s: Server, a: Action, c: ConnId, x: int,
                        run: seq<Action>, t: Server, now: int, expired: seq<ConnId>)
    requires Reaches(INIT, before, s) && Enabled(s, a) && c !in s.collected
    requires (a.Register? && c == s.nextId && a.expire == x) || (a.Refresh? && a.c == c && a.expire == x)
    requires Reaches(Next(s, a), run, t)
    requires forall b :: b in run ==>
               !(b.Refresh? && b.c == c) && !(b.Close? && b.c == c) && !(b.Collect? && b.now >= x)
    requires c in t.live && Enabled(t, Collect(now, expired))
    ensures c in expired <==> x <= now
  {
    hide Reaches, Run, IsExpiredList, Enabled, Next, IdealNext;
    var d := MapCanBeKept(INIT, map[], before, s);
    var e := MapCanBeKept(Next(s, a), IdealNext(s, d, a), run, t);
    DeadlineInMap(before, s, d, a, c, x, run, t, e, now, expired);
  }

  /** And a tick can always collect, whatever the time. */
  lemma TickCanCollect(s: Server, now: int) returns (expired: seq<ConnId>)
    requires s.collected == []
    ensures Enabled(s, Collect(now, expired))
  {
    expired := ExpiredListExists(s.timers, s.live, now);
    hide IsExpiredList;
  }

  // ---- Collected is doomed

  ghost predicate Doomed(s: Server, c: ConnId) {
    c < s.nextId && (c in s.collected || !Registered(s, c))
  }

  lemma StepDooms(s: Server, a: Action, c: ConnId)
    requires Inv(s) && Enabled(s, a) && Doomed(s, c)
    ensures Doomed(Next(s, a), c)
  {
    StepEffect(s, a);
    CollectedAfter(s, a);
    if a.TickRemove? && c == s.collected[0] {
      PopInv(s);
      RemoveOwn(s.(collected := s.collected[1..]), c);
    }
    hide Inv, RemoveClient, AfterAdd, AfterCheck, Settle, IsExpiredList, Mapped;
  }

  lemma {:induction false} RunDooms(s: Server, run: seq<Action>, t: Server, c: ConnId)
    requires Inv(s) && Reaches(s, run, t) && Doomed(s, c)
    ensures Doomed(t, c)
    decreases |run|
  {
    hide Inv, Next, Enabled, Doomed;
    if run != [] {
      StepInv(s, run[0]);
      StepDooms(s, run[0], c);
      RunDooms(Next(s, run[0]), run[1..], t, c);
    }
  }

  lemma CollectedIsHeld(s: Server, c: ConnId)
    requires Inv(s) && c in s.collected
    ensures c in s.holders && c in s.live && c < s.nextId
  {
    hide MapIsSound, DisconnectsOnce, Mapped;
    assert c in multiset(s.collected);
  }

  /** A refresh between the collection and the removal is possible and saves nobody: whatever runs, as
      soon as the tick has come past a collected connection it is not registered. */
  lemma LateRefreshDoesNotSave(before: seq<Action>, s: Server, c: ConnId, run: seq<Action>, t: Server)
    requires Reaches(INIT, before, s) && c in s.collected
    requires Reaches(s, run, t) && c !in t.collected
    ensures forall expire :: Enabled(s, Refresh(c, expire))
    ensures !Registered(t, c)
  {
    hide Inv, Reaches, Registered;
    InitInv();
    RunInv(INIT, before, s);
    CollectedIsHeld(s, c);
    RunDooms(s, run, t, c);
  }
}
