/** broadcastMessage: the targets are collected under m_mutex, then each is looked up and written to
    under m_mutex again, while connections come and go and other broadcasts run. */
module Broadcasts {
  import opened TimerManagement
  import opened ServerState
  import opened Lifetime

  /** One broadcast: its sender, the fds still to be written to, and (a record only) the other
      connections that were registered when the targets were collected. */
  datatype Job = Job(sender: ConnId, todo: seq<Fd>, snapshot: set<ConnId>)

  /** `Sent(sent, j, c)` is how often the packet of broadcast j was appended to c's output buffer. */
  type Deliveries = map<(nat, ConnId), nat>

  datatype State = State(server: Server, jobs: seq<Job>, sent: Deliveries)

  const START := State(INIT, [], map[])

  datatype Step =
    | Base(a: Action)
    | Snapshot(sender: ConnId, targets: seq<Fd>)
    | SendNext(j: nat)

  function Sent(sent: Deliveries, j: nat, c: ConnId): nat {
    if (j, c) in sent then sent[(j, c)] else 0
  }

  function Deliver(sent: Deliveries, j: nat, c: ConnId): Deliveries {
    sent[(j, c) := Sent(sent, j, c) + 1]
  }

  ghost predicate NoRepeats(fds: seq<Fd>) {
    forall i, k :: 0 <= i < k < |fds| ==> fds[i] != fds[k]
  }

  /** Besides the tick, somebody holds c: the handler that broadcasts keeps its Connection alive. */
  ghost predicate HandlerHolds(s: Server, c: ConnId) {
    s.holders[c] > multiset(s.collected)[c]
  }

  ghost predicate SendersHeld(s: Server, jobs: seq<Job>) {
    forall j :: 0 <= j < |jobs| && jobs[j].todo != [] ==> HandlerHolds(s, jobs[j].sender)
  }

  /** The keys of m_connections but one, in the order the hash table gives them. */
  ghost predicate IsTargetList(s: Server, c: ConnId, targets: seq<Fd>)
    requires c in s.live
  {
    NoRepeats(targets) && forall f :: f in targets <==> f in s.registered && f != s.live[c]
  }

  function RegisteredBut(s: Server, c: ConnId): set<ConnId> {
    set d | d in s.live && Registered(s, d) && d != c
  }

  ghost predicate CanStep(s: State, a: Step) {
    match a
    case Base(b) => Enabled(s.server, b) && SendersHeld(Next(s.server, b), s.jobs)
    case Snapshot(c, targets) =>
      c in s.server.live && HandlerHolds(s.server, c) && IsTargetList(s.server, c, targets)
    case SendNext(j) => j < |s.jobs| && s.jobs[j].todo != []
  }

  ghost function Do(s: State, a: Step): State
    requires CanStep(s, a)
  {
    match a
    case Base(b) => s.(server := Next(s.server, b))
    case Snapshot(c, targets) => s.(jobs := s.jobs + [Job(c, targets, RegisteredBut(s.server, c))])
    case SendNext(j) =>
      var fd := s.jobs[j].todo[0];
      s.(jobs := s.jobs[j := s.jobs[j].(todo := s.jobs[j].todo[1..])],
         sent := if fd in s.server.registered then Deliver(s.sent, j, s.server.registered[fd]) else s.sent)
  }

  ghost predicate Reachable(s: State, run: seq<Step>, t: State)
    decreases |run|
  {
    if run == [] then s == t else CanStep(s, run[0]) && Reachable(Do(s, run[0]), run[1..], t)
  }

  // ---- The invariant

  /** The sender is alive until the broadcast is done, so nobody else can get its fd. */
  ghost predicate SenderExcluded(live: Live, job: Job) {
    job.todo != [] ==> job.sender in live && live[job.sender] !in job.todo
  }

  /** Nobody has the packet twice, and whoever owns an fd still to come does not have it yet. */
  ghost predicate AtMostOnce(live: Live, todo: seq<Fd>, sent: Deliveries, j: nat) {
    forall c :: Sent(sent, j, c) <= 1 && (c in live && live[c] in todo ==> Sent(sent, j, c) == 0)
  }

  /** A connection of the snapshot that is still registered has it exactly when its fd has passed. */
  ghost predicate ServedSoFar(s: Server, job: Job, sent: Deliveries, j: nat) {
    forall c :: c in job.snapshot && Registered(s, c) ==>
      Sent(sent, j, c) == if s.live[c] in job.todo then 0 else 1
  }

  ghost predicate KnownOnly(nextId: ConnId, job: Job, sent: Deliveries, j: nat) {
    job.sender < nextId && Sent(sent, j, job.sender) == 0
    && (forall c :: c in job.snapshot ==> c < nextId)
    && (forall c :: c >= nextId ==> Sent(sent, j, c) == 0)
  }

  ghost predicate JobInv(s: Server, job: Job, sent: Deliveries, j: nat) {
    NoRepeats(job.todo) && SenderExcluded(s.live, job)
    && AtMostOnce(s.live, job.todo, sent, j)
    && ServedSoFar(s, job, sent, j)
    && KnownOnly(s.nextId, job, sent, j)
  }

  ghost predicate JobsInv(s: State) {
    (forall j :: 0 <= j < |s.jobs| ==> JobInv(s.server, s.jobs[j], s.sent, j))
    && forall j: nat, c: ConnId :: j >= |s.jobs| ==> Sent(s.sent, j, c) == 0
  }

  ghost predicate BroadcastInv(s: State) {
    Inv(s.server) && SendersHeld(s.server, s.jobs) && JobsInv(s)
  }

  // ---- Steps of the server

  lemma JobSurvives(s: Server, t: Server, job: Job, sent: Deliveries, j: nat)
    requires JobInv(s, job, sent, j) && Effect(s, t) && Inv(t)
    requires job.todo != [] ==> HandlerHolds(t, job.sender)
    ensures JobInv(t, job, sent, j)
  {
    hide NoRepeats, Sent, FdsAreOwned, MapIsSound, DisconnectsOnce;
    assert job.todo != [] ==> job.sender in t.holders;
    assert SenderExcluded(t.live, job);
    assert KnownOnly(t.nextId, job, sent, j);
    assert AtMostOnce(t.live, job.todo, sent, j);
    hide HandlerHolds, LiveIsOwned;
  }

  lemma BaseKeeps(s: State, a: Action)
    requires BroadcastInv(s) && CanStep(s, Base(a))
    ensures BroadcastInv(Do(s, Base(a)))
  {
    hide Inv, Next, Enabled, JobInv, Effect, Sent, HandlerHolds;
    StepInv(s.server, a);
    StepEffect(s.server, a);
    var t := Next(s.server, a);
    forall j | 0 <= j < |s.jobs|
      ensures JobInv(t, s.jobs[j], s.sent, j)
    {
      JobSurvives(s.server, t, s.jobs[j], s.sent, j);
    }
  }

  // ---- Steps of a broadcast

  lemma JobInvIs(s: Server, job: Job, sent: Deliveries, j: nat)
    ensures JobInv(s, job, sent, j) <==>
              NoRepeats(job.todo) && SenderExcluded(s.live, job) && AtMostOnce(s.live, job.todo, sent, j)
              && ServedSoFar(s, job, sent, j) && KnownOnly(s.nextId, job, sent, j)
  {
  }

  lemma SnapshotJob(s: State, c: ConnId, targets: seq<Fd>)
    requires BroadcastInv(s) && CanStep(s, Snapshot(c, targets))
    ensures JobInv(s.server, Job(c, targets, RegisteredBut(s.server, c)), s.sent, |s.jobs|)
  {
    hide NoRepeats, JobInv, Sent, LiveIsOwned, DisconnectsOnce, MapIsSound, HandlerHolds, SendersHeld;
    var job := Job(c, targets, RegisteredBut(s.server, c));
    assert NoRepeats(job.todo) && SenderExcluded(s.server.live, job);
    assert AtMostOnce(s.server.live, job.todo, s.sent, |s.jobs|);
    assert KnownOnly(s.server.nextId, job, s.sent, |s.jobs|);
    assert ServedSoFar(s.server, job, s.sent, |s.jobs|);
    JobInvIs(s.server, job, s.sent, |s.jobs|);
  }

  lemma SnapshotKeeps(s: State, c: ConnId, targets: seq<Fd>)
    requires BroadcastInv(s) && CanStep(s, Snapshot(c, targets))
    ensures BroadcastInv(Do(s, Snapshot(c, targets)))
  {
    SnapshotJob(s, c, targets);
    hide Inv, JobInv, Sent, HandlerHolds, IsTargetList;
  }

  /** Another broadcast's delivery changes nothing for this one. */
  lemma OtherJob(s: Server, job: Job, sent: Deliveries, sent': Deliveries, j: nat)
    requires JobInv(s, job, sent, j) && forall c :: Sent(sent', j, c) == Sent(sent, j, c)
    ensures JobInv(s, job, sent', j)
  {
    hide NoRepeats, SenderExcluded, Sent, Mapped;
  }

  lemma RestOf(todo: seq<Fd>)
    requires NoRepeats(todo) && todo != []
    ensures NoRepeats(todo[1..]) && todo[0] !in todo[1..]
    ensures forall f :: f in todo <==> f == todo[0] || f in todo[1..]
  {
    assert todo == [todo[0]] + todo[1..];
  }

  /** The lookup finds nobody: that connection has gone. */
  lemma PassOver(s: Server, job: Job, sent: Deliveries, j: nat)
    requires JobInv(s, job, sent, j) && job.todo != [] && job.todo[0] !in s.registered
    ensures JobInv(s, job.(todo := job.todo[1..]), sent, j)
  {
    RestOf(job.todo);
    hide NoRepeats, Sent;
  }

  /** The lookup finds c, who does not have the packet yet. */
  lemma ServeOne(s: Server, job: Job, sent: Deliveries, j: nat)
    requires Inv(s) && JobInv(s, job, sent, j) && job.todo != [] && job.todo[0] in s.registered
    ensures JobInv(s, job.(todo := job.todo[1..]), Deliver(sent, j, s.registered[job.todo[0]]), j)
  {
    RestOf(job.todo);
    var c := s.registered[job.todo[0]];
    var sent' := Deliver(sent, j, c);
    assert forall d :: Sent(sent', j, d) == if d == c then Sent(sent, j, c) + 1 else Sent(sent, j, d);
    assert c in s.live && s.live[c] == job.todo[0] && c < s.nextId;
    assert forall d :: d in s.live && s.live[d] == job.todo[0] ==> d == c;
    hide NoRepeats, Sent, Inv, Deliver;
    assert c != job.sender;
  }

  lemma SendKeepsJob(s: State, j: nat)
    requires BroadcastInv(s) && CanStep(s, SendNext(j))
    ensures var t := Do(s, SendNext(j)); JobInv(t.server, t.jobs[j], t.sent, j)
  {
    hide Inv, JobInv, Deliver, SendersHeld;
    var job := s.jobs[j];
    if job.todo[0] in s.server.registered {
      ServeOne(s.server, job, s.sent, j);
    } else {
      PassOver(s.server, job, s.sent, j);
    }
  }

  lemma SendKeepsOthers(s: State, j: nat)
    requires CanStep(s, SendNext(j))
    ensures forall k: nat, c: ConnId :: k != j ==> Sent(Do(s, SendNext(j)).sent, k, c) == Sent(s.sent, k, c)
  {
  }

  lemma SendKeeps(s: State, j: nat)
    requires BroadcastInv(s) && CanStep(s, SendNext(j))
    ensures BroadcastInv(Do(s, SendNext(j)))
  {
    hide Inv, JobInv, Deliver, Sent, HandlerHolds;
    SendKeepsJob(s, j);
    var t := Do(s, SendNext(j));
    assert SendersHeld(t.server, t.jobs);
    SendKeepsOthers(s, j);
    forall k | 0 <= k < |t.jobs|
      ensures JobInv(t.server, t.jobs[k], t.sent, k)
    {
      if k != j {
        OtherJob(s.server, s.jobs[k], s.sent, t.sent, k);
      }
    }
  }

  // ---- Runs

  lemma StepKeeps(s: State, a: Step)
    requires BroadcastInv(s) && CanStep(s, a)
    ensures BroadcastInv(Do(s, a))
    ensures |s.jobs| <= |Do(s, a).jobs|
    ensures forall j :: 0 <= j < |s.jobs| ==>
              Do(s, a).jobs[j].sender == s.jobs[j].sender && Do(s, a).jobs[j].snapshot == s.jobs[j].snapshot
  {
    hide BroadcastInv, Enabled, Next, SendersHeld, IsTargetList, HandlerHolds, RegisteredBut;
    match a
    case Base(b) => BaseKeeps(s, b);
    case Snapshot(c, targets) => SnapshotKeeps(s, c, targets);
    case SendNext(j) => SendKeeps(s, j);
  }

  lemma {:induction false} RunKeeps(s: State, run: seq<Step>, t: State)
    requires BroadcastInv(s) && Reachable(s, run, t)
    ensures BroadcastInv(t)
    ensures |s.jobs| <= |t.jobs|
    ensures forall j :: 0 <= j < |s.jobs| ==>
              t.jobs[j].sender == s.jobs[j].sender && t.jobs[j].snapshot == s.jobs[j].snapshot
    decreases |run|
  {
    hide BroadcastInv, CanStep, Do;
    if run != [] {
      StepKeeps(s, run[0]);
      RunKeeps(Do(s, run[0]), run[1..], t);
    }
  }

  lemma StartKeeps()
    ensures BroadcastInv(START)
  {
    InitInv();
  }

  lemma JobOf(t: State, j: nat)
    requires BroadcastInv(t) && j < |t.jobs|
    ensures forall c :: Sent(t.sent, j, c) <= 1
    ensures Sent(t.sent, j, t.jobs[j].sender) == 0
    ensures t.jobs[j].todo == [] ==>
              forall c :: c in t.jobs[j].snapshot && Registered(t.server, c) ==> Sent(t.sent, j, c) == 1
  {
    hide Inv, Sent, Registered;
    assert JobInv(t.server, t.jobs[j], t.sent, j);
  }

  /** However connections come and go and broadcasts interleave between the collecting of the targets
      and the last lookup: no connection gets the packet twice, the sender never gets it, and once the
      broadcast is over everybody who was registered from its start to now has it exactly once. */
  lemma BroadcastExactlyOnce(before: seq<Step>, s: State, sender: ConnId, targets: seq<Fd>,
                             after: seq<Step>, t: State)
    requires Reachable(START, before, s) && CanStep(s, Snapshot(sender, targets))
    requires Reachable(Do(s, Snapshot(sender, targets)), after, t)
    ensures |s.jobs| < |t.jobs|
    ensures forall c :: Sent(t.sent, |s.jobs|, c) <= 1
    ensures Sent(t.sent, |s.jobs|, sender) == 0
    ensures t.jobs[|s.jobs|].todo == [] ==>
              forall c :: c != sender && c in s.server.live && Registered(s.server, c) && Registered(t.server, c) ==>
                Sent(t.sent, |s.jobs|, c) == 1
  {
    hide BroadcastInv, CanStep, Registered, Sent;
    StartKeeps();
    RunKeeps(START, before, s);
    var u := Do(s, Snapshot(sender, targets));
    StepKeeps(s, Snapshot(sender, targets));
    RunKeeps(u, after, t);
    var j := |s.jobs|;
    assert u.jobs[j] == Job(sender, targets, RegisteredBut(s.server, sender));
    JobOf(t, j);
  }

  // ---- A broadcast can always be begun and finished

  lemma {:induction false} Listed(registered: map<Fd, ConnId>) returns (targets: seq<Fd>)
    ensures NoRepeats(targets) && forall f :: f in targets <==> f in registered
    decreases |registered|
  {
    if registered == map[] {
      targets := [];
    } else {
      assert registered.Items != {};
      var entry :| entry in registered.Items;
      var rest := Listed(registered - {entry.0});
      targets := [entry.0] + rest;
    }
  }

  /** A handler whose Connection exists and is held can begin one at any time. */
  lemma SnapshotIsPossible(s: State, sender: ConnId) returns (targets: seq<Fd>)
    requires sender in s.server.live && s.server.holders[sender] > multiset(s.server.collected)[sender]
    ensures CanStep(s, Snapshot(sender, targets))
  {
    targets := Listed(s.server.registered - {s.server.live[sender]});
    hide NoRepeats;
  }

  lemma SendIsNext(s: State, j: nat)
    requires j < |s.jobs| && s.jobs[j].todo != []
    ensures CanStep(s, SendNext(j))
    ensures var t := Do(s, SendNext(j));
            t.server == s.server && |t.jobs| == |s.jobs| && t.jobs[j].todo == s.jobs[j].todo[1..]
  {
  }

  function Finishing(j: nat, n: nat): seq<Step> {
    if n == 0 then [] else [SendNext(j)] + Finishing(j, n - 1)
  }

  lemma {:induction false} Finishes(s: State, j: nat) returns (t: State)
    requires j < |s.jobs|
    ensures Reachable(s, Finishing(j, |s.jobs[j].todo|), t)
    ensures t.server == s.server && |t.jobs| == |s.jobs| && t.jobs[j].todo == []
    decreases |s.jobs[j].todo|
  {
    hide CanStep, Do;
    var n := |s.jobs[j].todo|;
    if n == 0 {
      t := s;
    } else {
      SendIsNext(s, j);
      t := Finishes(Do(s, SendNext(j)), j);
      assert Finishing(j, n)[1..] == Finishing(j, n - 1);
    }
  }

  lemma {:induction false} ReachableThen(s: State, run: seq<Step>, t: State, run': seq<Step>, u: State)
    requires Reachable(s, run, t) && Reachable(t, run', u)
    ensures Reachable(s, run + run', u)
    decreases |run|
  {
    hide CanStep, Do;
    if run == [] {
      assert run + run' == run';
    } else {
      ReachableThen(Do(s, run[0]), run[1..], t, run', u);
      assert (run + run')[1..] == run[1..] + run';
    }
  }

  /** Wherever a broadcast has got to, its own sends alone finish it: then everybody who is registered and
      has been since its start has the packet exactly once. */
  lemma BroadcastFinishes(before: seq<Step>, s: State, sender: ConnId, targets: seq<Fd>, after: seq<Step>, t: State)
    returns (n: nat, u: State)
    requires Reachable(START, before, s) && CanStep(s, Snapshot(sender, targets))
    requires Reachable(Do(s, Snapshot(sender, targets)), after, t)
    ensures Reachable(t, Finishing(|s.jobs|, n), u) && u.server == t.server
    ensures forall c :: c != sender && c in s.server.live && Registered(s.server, c) && Registered(t.server, c) ==>
              Sent(u.sent, |s.jobs|, c) == 1
  {
    hide CanStep, Do, Sent, Registered, Reachable;
    BroadcastExactlyOnce(before, s, sender, targets, after, t);
    n := |t.jobs[|s.jobs|].todo|;
    u := Finishes(t, |s.jobs|);
    ReachableThen(Do(s, Snapshot(sender, targets)), after, t, Finishing(|s.jobs|, n), u);
    BroadcastExactlyOnce(before, s, sender, targets, after + Finishing(|s.jobs|, n), u);
  }

  /** The server's part of a run. */
  ghost function Bases(run: seq<Step>): seq<Action> {
    if run == [] then [] else (if run[0].Base? then [run[0].a] else []) + Bases(run[1..])
  }

  lemma BaseIsAStep(s: State, a: Step)
    requires CanStep(s, a)
    ensures if a.Base? then Enabled(s.server, a.a) && Do(s, a).server == Next(s.server, a.a)
            else Do(s, a).server == s.server
  {
    hide Next, Enabled;
  }

  /** To the server, broadcasts change nothing: its part of every run is a run of its own. */
  lemma {:induction false} BasesReach(s: State, run: seq<Step>, t: State)
    requires Reachable(s, run, t)
    ensures Reaches(s.server, Bases(run), t.server)
    decreases |run|
  {
    hide CanStep, Do, Next, Enabled;
    if run != [] {
      BaseIsAStep(s, run[0]);
      BasesReach(Do(s, run[0]), run[1..], t);
      var rest := Bases(run[1..]);
      if run[0].Base? {
        assert ([run[0].a] + rest)[1..] == rest;
      } else {
        assert [] + rest == rest;
      }
    }
  }
}
