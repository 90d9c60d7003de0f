/** server/src/net/TimerManager.cpp: a priority queue of deadlines with lazy deletion. A queue node names
    a connection weakly; m_expected_expire says, by fd, which of its deadlines still counts. */
module TimerManagement {
  /** A Connection object (not its fd, which the system reuses). */
  type ConnId = nat

  type Fd = int

  datatype Timer = Timer(conn: ConnId, expire: int)

  /** What the queue holds and what m_expected_expire says. */
  datatype Timers = Timers(queue: set<Timer>, expected: map<Fd, int>)

  /** The connections that still exist, with their fds; weak_ptr::lock succeeds for exactly these. */
  type Live = map<ConnId, Fd>

  ghost predicate DistinctFds(live: Live) {
    forall c, d :: c in live && d in live && live[c] == live[d] ==> c == d
  }

  function AfterAdd(t: Timers, live: Live, c: ConnId, expire: int): Timers {
    if c in live then Timers(t.queue + {Timer(c, expire)}, t.expected[live[c] := expire]) else t
  }

  function AfterRemove(t: Timers, fd: Fd): Timers {
    t.(expected := t.expected - {fd})
  }

  /** The node of c that counts is in the queue and has run out. */
  predicate IsDue(t: Timers, live: Live, now: int, c: ConnId) {
    c in live && live[c] in t.expected && t.expected[live[c]] <= now
    && Timer(c, t.expected[live[c]]) in t.queue
  }

  function DueFds(t: Timers, live: Live, now: int): set<Fd> {
    set c | c in live && IsDue(t, live, now, c) :: live[c]
  }

  function AfterCheck(t: Timers, live: Live, now: int): Timers {
    Timers((set n | n in t.queue && n.expire > now), t.expected - DueFds(t, live, now))
  }

  ghost predicate NoDuplicates(cs: seq<ConnId>) {
    forall i, j :: 0 <= i < j < |cs| ==> cs[i] != cs[j]
  }

  /** The deadline that counts for c. */
  ghost function Expected(t: Timers, live: Live, c: ConnId): int {
    if c in live && live[c] in t.expected then t.expected[live[c]] else 0
  }

  /** Exactly the due connections, once each, by non-decreasing deadline. */
  ghost predicate IsExpiredList(t: Timers, live: Live, now: int, expired: seq<ConnId>) {
    (forall c :: c in expired <==> IsDue(t, live, now, c))
    && NoDuplicates(expired)
    && forall i, j :: 0 <= i < j < |expired| ==> Expected(t, live, expired[i]) <= Expected(t, live, expired[j])
  }

  lemma EarliestExists(q: multiset<Timer>)
    requires q != multiset{}
    ensures exists n :: n in q && forall m :: m in q ==> n.expire <= m.expire
    decreases |q|
  {
    var a :| a in q;
    var rest := q - multiset{a};
    assert forall m :: m in q ==> m == a || m in rest;
    if rest != multiset{} {
      EarliestExists(rest);
      var b :| b in rest && forall m :: m in rest ==> b.expire <= m.expire;
      assert b in q;
      if b.expire < a.expire {
        assert forall m :: m in q ==> b.expire <= m.expire;
      }
    }
  }

  // What checkTimeout has done so far, starting from t.

  /** Only nodes that had run out have left the queue. */
  ghost predicate QueueSoFar(t: Timers, now: int, queue: multiset<Timer>) {
    (forall n :: n in queue ==> n in t.queue)
    && (forall n :: n in t.queue && n !in queue ==> n.expire <= now)
  }

  ghost predicate MapSoFar(t: Timers, live: Live, expected: map<Fd, int>, expired: seq<ConnId>) {
    expected == t.expected - set c | c in expired && c in live :: live[c]
  }

  /** Everything collected is due, and whoever is due and not collected still has its node queued. */
  ghost predicate CollectedSoFar(t: Timers, live: Live, now: int, queue: multiset<Timer>, expired: seq<ConnId>) {
    (forall c :: c in expired ==> IsDue(t, live, now, c))
    && (forall c :: IsDue(t, live, now, c) && c !in expired ==> Timer(c, t.expected[live[c]]) in queue)
    && NoDuplicates(expired)
  }

  ghost predicate OrderedSoFar(t: Timers, live: Live, queue: multiset<Timer>, expired: seq<ConnId>) {
    (forall i, j :: 0 <= i < j < |expired| ==> Expected(t, live, expired[i]) <= Expected(t, live, expired[j]))
    && (forall c, n :: c in expired && n in queue ==> Expected(t, live, c) <= n.expire)
  }

  ghost predicate SoFar(t: Timers, live: Live, now: int, queue: multiset<Timer>, expected: map<Fd, int>, expired: seq<ConnId>) {
    QueueSoFar(t, now, queue) && MapSoFar(t, live, expected, expired)
    && CollectedSoFar(t, live, now, queue, expired) && OrderedSoFar(t, live, queue, expired)
  }

  /** The node is the one that counts for its connection. */
  predicate Counts(live: Live, expected: map<Fd, int>, node: Timer) {
    node.conn in live && live[node.conn] in expected && expected[live[node.conn]] == node.expire
  }

  lemma PopQueue(t: Timers, now: int, queue: multiset<Timer>, node: Timer)
    requires QueueSoFar(t, now, queue) && node in queue && node.expire <= now
    ensures QueueSoFar(t, now, queue - multiset{node})
    ensures forall n :: n in queue && n != node ==> n in queue - multiset{node}
  {
  }

  /** Collecting other connections leaves the deadline of c in the map. */
  lemma StillExpected(t: Timers, live: Live, now: int, expected: map<Fd, int>, expired: seq<ConnId>, c: ConnId)
    requires MapSoFar(t, live, expected, expired) && DistinctFds(live)
    requires c in live && live[c] in t.expected && c !in expired
    ensures live[c] in expected && expected[live[c]] == t.expected[live[c]]
  {
    var gone := set d | d in expired && d in live :: live[d];
    assert live[c] !in gone;
  }

  /** A node that does not count is dropped. */
  lemma SkipStale(t: Timers, live: Live, now: int, queue: multiset<Timer>, expected: map<Fd, int>,
                  expired: seq<ConnId>, node: Timer)
    requires SoFar(t, live, now, queue, expected, expired) && DistinctFds(live)
    requires node in queue && node.expire <= now && !Counts(live, expected, node)
    ensures SoFar(t, live, now, queue - multiset{node}, expected, expired)
  {
    PopQueue(t, now, queue, node);
    forall c | IsDue(t, live, now, c) && c !in expired
      ensures Timer(c, t.expected[live[c]]) != node
    {
      StillExpected(t, live, now, expected, expired, c);
    }
  }

  lemma CountsIsDue(t: Timers, live: Live, now: int, queue: multiset<Timer>, expected: map<Fd, int>,
                    expired: seq<ConnId>, node: Timer)
    requires SoFar(t, live, now, queue, expected, expired)
    requires node in queue && node.expire <= now && Counts(live, expected, node)
    ensures IsDue(t, live, now, node.conn) && t.expected[live[node.conn]] == node.expire
    ensures node.conn !in expired
  {
    var gone := set d | d in expired && d in live :: live[d];
    assert forall d :: d in expired && d in live ==> live[d] in gone;
    assert live[node.conn] !in gone;
  }

  lemma CollectMap(t: Timers, live: Live, expected: map<Fd, int>, expired: seq<ConnId>, c: ConnId)
    requires MapSoFar(t, live, expected, expired) && c in live
    ensures MapSoFar(t, live, expected - {live[c]}, expired + [c])
  {
    var gone := set d | d in expired && d in live :: live[d];
    var more := set d | d in expired + [c] && d in live :: live[d];
    assert forall d :: d in expired + [c] <==> d in expired || d == c;
    assert more == gone + {live[c]};
  }

  lemma CollectOrder(t: Timers, live: Live, queue: multiset<Timer>, expired: seq<ConnId>, node: Timer)
    requires OrderedSoFar(t, live, queue, expired) && node in queue
    requires Expected(t, live, node.conn) == node.expire
    requires forall m :: m in queue ==> node.expire <= m.expire
    ensures OrderedSoFar(t, live, queue - multiset{node}, expired + [node.conn])
  {
    hide Expected;
    var list := expired + [node.conn];
    assert forall c :: c in list <==> c in expired || c == node.conn;
    forall i, j | 0 <= i < j < |list|
      ensures Expected(t, live, list[i]) <= Expected(t, live, list[j])
    {
      assert list[i] == expired[i] && expired[i] in expired;
      if j < |expired| {
        assert list[j] == expired[j];
      }
    }
  }

  lemma CollectOne(t: Timers, live: Live, now: int, queue: multiset<Timer>, expected: map<Fd, int>,
                   expired: seq<ConnId>, node: Timer)
    requires SoFar(t, live, now, queue, expected, expired) && DistinctFds(live)
    requires node in queue && node.expire <= now && Counts(live, expected, node)
    requires forall m :: m in queue ==> node.expire <= m.expire
    ensures SoFar(t, live, now, queue - multiset{node}, expected - {live[node.conn]}, expired + [node.conn])
  {
    PopQueue(t, now, queue, node);
    CountsIsDue(t, live, now, queue, expected, expired, node);
    CollectMap(t, live, expected, expired, node.conn);
    CollectOrder(t, live, queue, expired, node);
    var list := expired + [node.conn];
    assert forall c :: c in list <==> c in expired || c == node.conn;
    hide MapSoFar, OrderedSoFar, QueueSoFar;
    assert CollectedSoFar(t, live, now, queue - multiset{node}, list);
  }

  lemma CheckStarts(t: Timers, live: Live, now: int, queue: multiset<Timer>, expected: map<Fd, int>)
    requires t == Timers((set n | n in queue), expected)
    ensures SoFar(t, live, now, queue, expected, [])
  {
  }

  /** When nothing that has run out is left, the work is done. */
  lemma CheckIsDone(t: Timers, live: Live, now: int, queue: multiset<Timer>, expected: map<Fd, int>, expired: seq<ConnId>)
    requires SoFar(t, live, now, queue, expected, expired)
    requires forall n :: n in queue ==> n.expire > now
    ensures Timers((set n | n in queue), expected) == AfterCheck(t, live, now)
    ensures IsExpiredList(t, live, now, expired)
  {
    hide Expected;
    assert forall c :: IsDue(t, live, now, c) ==> c in expired;
    assert (set c | c in expired && c in live :: live[c]) == DueFds(t, live, now);
    assert (set n | n in queue) == (set n | n in t.queue && n.expire > now);
  }

  lemma LatestExists(s: set<Timer>) returns (n: Timer)
    requires s != {}
    ensures n in s && forall m :: m in s ==> m.expire <= n.expire
    decreases |s|
  {
    n :| n in s;
    if s - {n} != {} {
      var m := LatestExists(s - {n});
      assert forall k :: k in s ==> k == n || k in s - {n};
      if m.expire > n.expire {
        n := m;
      }
    }
  }

  /** The nodes of a set in the order of their deadlines. */
  lemma {:induction false} InOrder(s: set<Timer>) returns (nodes: seq<Timer>)
    ensures forall n :: n in nodes <==> n in s
    ensures forall i, j :: 0 <= i < j < |nodes| ==> nodes[i] != nodes[j] && nodes[i].expire <= nodes[j].expire
    decreases |s|
  {
    if s == {} {
      nodes := [];
    } else {
      var last := LatestExists(s);
      var front := InOrder(s - {last});
      nodes := front + [last];
    }
  }

  /** There always is a list for checkTimeout to return. */
  lemma ExpiredListExists(t: Timers, live: Live, now: int) returns (expired: seq<ConnId>)
    ensures IsExpiredList(t, live, now, expired)
  {
    var due := set n | n in t.queue && IsDue(t, live, now, n.conn) && n.expire == t.expected[live[n.conn]];
    var nodes := InOrder(due);
    expired := seq(|nodes|, i requires 0 <= i < |nodes| => nodes[i].conn);
    forall c
      ensures c in expired <==> IsDue(t, live, now, c)
    {
      if IsDue(t, live, now, c) {
        var n := Timer(c, t.expected[live[c]]);
        assert n in due && n in nodes;
        var i :| 0 <= i < |nodes| && nodes[i] == n;
        assert expired[i] == c;
      }
      if c in expired {
        var i :| 0 <= i < |expired| && expired[i] == c;
        assert nodes[i] in nodes;
      }
    }
    forall i, j | 0 <= i < j < |expired|
      ensures expired[i] != expired[j] && Expected(t, live, expired[i]) <= Expected(t, live, expired[j])
    {
      assert nodes[i] in due && nodes[j] in due;
    }
  }

  class TimerManager {
    var timers: multiset<Timer>
    var expectedExpire: map<Fd, int>

    ghost function View(): Timers
      reads this
    {
      Timers((set n | n in timers), expectedExpire)
    }

    constructor ()
      ensures View() == Timers({}, map[])
    {
      timers, expectedExpire := multiset{}, map[];
    }

    method AddTimer(conn: ConnId, expireTime: int, live: Live)
      modifies this
      ensures View() == AfterAdd(old(View()), live, conn, expireTime)
      ensures if conn in live
              then timers == old(timers) + multiset{Timer(conn, expireTime)}
                   && expectedExpire == old(expectedExpire)[live[conn] := expireTime]
              else timers == old(timers) && expectedExpire == old(expectedExpire)
    {
      if conn in live {
        timers := timers + multiset{Timer(conn, expireTime)};
        expectedExpire := expectedExpire[live[conn] := expireTime];
      }
    }

    method RemoveTimer(fd: Fd)
      modifies this`expectedExpire
      ensures View() == AfterRemove(old(View()), fd)
      ensures timers == old(timers) && expectedExpire == old(expectedExpire) - {fd}
    {
      expectedExpire := expectedExpire - {fd};
    }

    /** priority_queue::top: some node with the least deadline. */
    method Top() returns (node: Timer)
      requires timers != multiset{}
      ensures node in timers && forall m :: m in timers ==> node.expire <= m.expire
    {
      EarliestExists(timers);
      node :| node in timers && forall m :: m in timers ==> node.expire <= m.expire;
    }

    method CheckTimeout(now: int, live: Live) returns (expired: seq<ConnId>)
      requires DistinctFds(live)
      modifies this
      ensures View() == AfterCheck(old(View()), live, now)
      ensures IsExpiredList(old(View()), live, now, expired)
    {
      hide SoFar, IsDue, AfterCheck, IsExpiredList, DistinctFds;
      ghost var t := View();
      expired := [];
      CheckStarts(t, live, now, timers, expectedExpire);
      while timers != multiset{}
        invariant SoFar(t, live, now, timers, expectedExpire, expired)
        decreases |timers|
      {
        var node := Top();
        if node.expire > now {
          break;
        }
        ghost var queue, expected, list := timers, expectedExpire, expired;
        timers := timers - multiset{node};
        if Counts(live, expectedExpire, node) {
          expired := expired + [node.conn];
          expectedExpire := expectedExpire - {live[node.conn]};
          CollectOne(t, live, now, queue, expected, list, node);
        } else {
          SkipStale(t, live, now, queue, expected, list, node);
        }
      }
      CheckIsDone(t, live, now, timers, expectedExpire, expired);
    }
  }
}
