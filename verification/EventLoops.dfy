/** EventLoop::loop: epoll_wait returns a batch of raw pointers to channels, and each is used before its
    handler can lock the owner. A channel is a member of its Connection and dies with it, so it must be
    alive when its turn in the batch comes. */
module EventLoops {
  import opened TimerManagement
  import opened ServerState
  import opened Lifetime

  type LoopId = nat

  /** The loop that accepts and that has the tick callback. */
  const MAIN: LoopId := 0

  /** What a loop is doing: waiting in epoll_wait; at the next of the channels it has got; in the handler
      of one of them; in the tick callback, with the owners in to_remove still to let go. */
  datatype Task =
    | Idle
    | Batch(rest: seq<ConnId>)
    | Handling(conn: ConnId, rest: seq<ConnId>)
    | Ticking(owners: seq<ConnId>)

  /** `loopOf` is the loop that a connection was given; `ticked` records whom the tick has removed. */
  datatype State = State(server: Server, loopOf: map<ConnId, LoopId>, tasks: map<LoopId, Task>, ticked: set<ConnId>)

  const START := State(INIT, map[], map[], {})

  datatype Step =
    | Environment(a: Action)               // another part of the process opens or closes an fd
    | Arrive(fd: Fd)                       // MAIN, at the listening channel: accept
    | Assign(fd: Fd, expire: int, l: LoopId)
    | Poll(l: LoopId, batch: seq<ConnId>)  // epoll_wait returns
    | Dispatch(l: LoopId)                  // setRevents and handleEvent of the next channel
    | Handle(l: LoopId, a: Action)         // a message or a close by the handler
    | Finish(l: LoopId)                    // handleEvent returns
    | EndBatch(l: LoopId)
    | StartTick(now: int, expired: seq<ConnId>)
    | TickOne                              // removeClient of the next in to_remove
    | DropOwner                            // to_remove is destroyed
    | EndTick

  function TaskOf(s: State, l: LoopId): Task {
    if l in s.tasks then s.tasks[l] else Idle
  }

  /** The channels that a loop has still to come to. */
  function Rest(t: Task): seq<ConnId> {
    match t
    case Batch(rest) => rest
    case Handling(_, rest) => rest
    case _ => []
  }

  /** epoll reports channels that are in its set, each once: those of registered connections. */
  ghost predicate IsBatch(s: State, l: LoopId, batch: seq<ConnId>) {
    NoDuplicates(batch)
    && forall c :: c in batch ==> Registered(s.server, c) && c in s.loopOf && s.loopOf[c] == l
  }

  predicate IsHandlers(c: ConnId, a: Action) {
    (a.Refresh? && a.c == c) || (a.Close? && a.c == c)
  }

  ghost predicate CanStep(s: State, a: Step) {
    match a
    case Environment(b) => (b.OpenOther? || b.CloseOther?) && Enabled(s.server, b)
    case Arrive(fd) => TaskOf(s, MAIN).Batch? && Enabled(s.server, Accept(fd))
    case Assign(fd, expire, l) => TaskOf(s, MAIN).Batch? && Enabled(s.server, Register(fd, expire))
    case Poll(l, batch) => TaskOf(s, l).Idle? && IsBatch(s, l, batch)
    case Dispatch(l) =>
      TaskOf(s, l).Batch? && TaskOf(s, l).rest != [] && Enabled(s.server, Lock(TaskOf(s, l).rest[0]))
    case Handle(l, b) => TaskOf(s, l).Handling? && IsHandlers(TaskOf(s, l).conn, b) && Enabled(s.server, b)
    case Finish(l) => TaskOf(s, l).Handling? && Enabled(s.server, Release(TaskOf(s, l).conn))
    case EndBatch(l) => l != MAIN && TaskOf(s, l) == Batch([])
    case StartTick(now, expired) => TaskOf(s, MAIN) == Batch([]) && Enabled(s.server, Collect(now, expired))
    case TickOne => TaskOf(s, MAIN).Ticking? && Enabled(s.server, TickRemove)
    case DropOwner =>
      TaskOf(s, MAIN).Ticking? && s.server.collected == [] && TaskOf(s, MAIN).owners != []
      && Enabled(s.server, Release(TaskOf(s, MAIN).owners[0]))
    case EndTick => TaskOf(s, MAIN) == Ticking([]) && s.server.collected == []
  }

  /** The step dereferences only channels that exist. */
  predicate Safe(s: State, a: Step) {
    match a
    case Dispatch(l) => TaskOf(s, l).Batch? && TaskOf(s, l).rest != [] ==> TaskOf(s, l).rest[0] in s.server.live
    case _ => true
  }

  /** The part of the step that the server's machine knows. */
  function Part(s: State, a: Step): seq<Action>
    requires a.Dispatch? ==> TaskOf(s, a.l).Batch? && TaskOf(s, a.l).rest != []
    requires a.Finish? ==> TaskOf(s, a.l).Handling?
    requires a.DropOwner? ==> TaskOf(s, MAIN).Ticking? && TaskOf(s, MAIN).owners != []
  {
    match a
    case Environment(b) => [b]
    case Arrive(fd) => [Accept(fd)]
    case Assign(fd, expire, _) => [Register(fd, expire)]
    case Dispatch(l) => [Lock(TaskOf(s, l).rest[0])]
    case Handle(_, b) => [b]
    case Finish(l) => [Release(TaskOf(s, l).conn)]
    case StartTick(now, expired) => [Collect(now, expired)]
    case TickOne => [TickRemove]
    case DropOwner => [Release(TaskOf(s, MAIN).owners[0])]
    case _ => []
  }

  function TaskAfter(s: State, a: Step): map<LoopId, Task>
    requires a.Dispatch? ==> TaskOf(s, a.l).Batch? && TaskOf(s, a.l).rest != []
    requires a.Finish? ==> TaskOf(s, a.l).Handling?
    requires a.DropOwner? ==> TaskOf(s, MAIN).Ticking? && TaskOf(s, MAIN).owners != []
  {
    match a
    case Poll(l, batch) => s.tasks[l := Batch(batch)]
    case Dispatch(l) => s.tasks[l := Handling(TaskOf(s, l).rest[0], TaskOf(s, l).rest[1..])]
    case Finish(l) => s.tasks[l := Batch(TaskOf(s, l).rest)]
    case EndBatch(l) => s.tasks[l := Idle]
    case StartTick(_, expired) => s.tasks[MAIN := Ticking(expired)]
    case DropOwner => s.tasks[MAIN := Ticking(TaskOf(s, MAIN).owners[1..])]
    case EndTick => s.tasks[MAIN := Idle]
    case _ => s.tasks
  }

  ghost function Do(s: State, a: Step): State
    requires CanStep(s, a)
  {
    State(if Part(s, a) == [] then s.server else Next(s.server, Part(s, a)[0]),
          if a.Assign? then s.loopOf[s.server.nextId := a.l] else s.loopOf,
          TaskAfter(s, a),
          if a.TickOne? then s.ticked + {s.server.collected[0]} else s.ticked)
  }

  ghost predicate Reaches(s: State, run: seq<Step>, t: State)
    decreases |run|
  {
    if run == [] then s == t else CanStep(s, run[0]) && Reaches(Do(s, run[0]), run[1..], t)
  }

  // ---- The invariant

  ghost predicate TaskInv(s: State, l: LoopId, t: Task) {
    NoDuplicates(Rest(t))
    && (forall c :: c in Rest(t) ==>
          c < s.server.nextId && c in s.loopOf && s.loopOf[c] == l
          && (Registered(s.server, c) || c in s.ticked) && (l == MAIN ==> Registered(s.server, c)))
    && (t.Handling? ==> t.conn !in t.rest && t.conn < s.server.nextId && t.conn in s.loopOf && s.loopOf[t.conn] == l)
    && (t.Ticking? ==> l == MAIN)
  }

  /** Nobody whom the tick has removed is registered again. */
  ghost predicate TickedAreGone(s: State) {
    forall c :: c in s.ticked ==> c < s.server.nextId && !Registered(s.server, c)
  }

  ghost predicate LoopInv(s: State) {
    Inv(s.server) && TickedAreGone(s) && forall l: LoopId :: TaskInv(s, l, TaskOf(s, l))
  }

  // ---- Whom a step unregisters

  lemma NobodyOut(s: Server, a: Action)
    requires Enabled(s, a) && !a.Close? && !a.TickRemove?
    ensures Gone(s, Next(s, a)) == {}
  {
    hide Registered, AfterAdd, AfterCheck, IsExpiredList;
  }

  lemma OutBy(s: Server, a: Action)
    requires Inv(s) && Enabled(s, a)
    ensures s.nextId <= Next(s, a).nextId
    ensures forall d: ConnId :: d < s.nextId ==>
              (Registered(Next(s, a), d) <==>
               Registered(s, d) && !(a.Close? && d == a.c) && !(a.TickRemove? && d == s.collected[0]))
  {
    StepEffect(s, a);
    if a.Close? {
      RemoveOwn(s, a.c);
    } else if a.TickRemove? {
      PopInv(s);
      RemoveOwn(s.(collected := s.collected[1..]), s.collected[0]);
    } else {
      NobodyOut(s, a);
    }
    hide Inv, Mapped, RemoveClient, AfterAdd, AfterCheck, Settle, IsExpiredList;
  }

  /** The connection that the step closes or the tick removes. */
  predicate TakesOut(s: State, a: Step, d: ConnId) {
    (a.Handle? && a.a.Close? && a.a.c == d) || (a.TickOne? && s.server.collected != [] && d == s.server.collected[0])
  }

  lemma PartEnabled(s: State, a: Step)
    requires CanStep(s, a) && Part(s, a) != []
    ensures Enabled(s.server, Part(s, a)[0])
    ensures Part(s, a)[0].TickRemove? ==> s.server.collected != []
    ensures forall d :: TakesOut(s, a, d) <==>
              (Part(s, a)[0].Close? && d == Part(s, a)[0].c)
              || (Part(s, a)[0].TickRemove? && s.server.collected != [] && d == s.server.collected[0])
  {
    hide IsExpiredList;
  }

  lemma ServerStep(s: State, a: Step)
    requires Inv(s.server) && CanStep(s, a)
    ensures var t := Do(s, a);
            Inv(t.server) && s.server.nextId <= t.server.nextId
            && forall d: ConnId :: d < s.server.nextId ==>
                 (Registered(t.server, d) <==> Registered(s.server, d) && !TakesOut(s, a, d))
  {
    hide Inv, Next, Enabled, Registered;
    var part := Part(s, a);
    if part != [] {
      PartEnabled(s, a);
      StepInv(s.server, part[0]);
      OutBy(s.server, part[0]);
    }
  }

  // ---- Each step keeps the invariant

  lemma CollectedIsKnown(s: Server)
    requires Inv(s) && s.collected != []
    ensures s.collected[0] < s.nextId
  {
    hide MapIsSound, DisconnectsOnce, Mapped;
    assert s.collected[0] in multiset(s.collected);
  }

  lemma TickedIs(s: State, a: Step)
    requires CanStep(s, a)
    ensures Do(s, a).ticked == if a.TickOne? then s.ticked + {s.server.collected[0]} else s.ticked
    ensures a.TickOne? ==> s.server.collected != []
  {
    hide Next, IsExpiredList, IsBatch;
  }

  lemma TickedStay(s: State, a: Step)
    requires LoopInv(s) && CanStep(s, a)
    ensures TickedAreGone(Do(s, a))
  {
    hide Inv, CanStep, Do, Registered, TaskInv;
    ServerStep(s, a);
    TickedIs(s, a);
    if a.TickOne? {
      CollectedIsKnown(s.server);
    }
  }

  lemma RegisteredIsKnown(s: Server, c: ConnId)
    requires Inv(s) && Registered(s, c)
    ensures c < s.nextId
  {
  }

  lemma LoopsStay(s: State, a: Step)
    requires CanStep(s, a)
    ensures forall c :: c in s.loopOf && c < s.server.nextId ==>
              c in Do(s, a).loopOf && Do(s, a).loopOf[c] == s.loopOf[c]
  {
    hide Next, Enabled, IsBatch;
  }

  /** Of those that a loop has still to come to, only the tick takes one out, and not on its own loop. */
  lemma OnlyTheTickTakes(s: State, a: Step, l: LoopId, c: ConnId)
    requires LoopInv(s) && CanStep(s, a) && c in Rest(TaskOf(s, l))
    ensures TakesOut(s, a, c) ==> a.TickOne? && l != MAIN
  {
    hide Inv, Next, Enabled, Registered, NoDuplicates, IsBatch;
    assert TaskInv(s, l, TaskOf(s, l));
    if a.Handle? {
      assert TaskInv(s, a.l, TaskOf(s, a.l));
    }
  }

  /** What a loop had still to come to is as it should be after a step of any loop. */
  lemma RestStays(s: State, a: Step, l: LoopId)
    requires LoopInv(s) && CanStep(s, a)
    ensures TaskInv(Do(s, a), l, TaskOf(s, l))
  {
    hide Inv, CanStep, Do, Registered, NoDuplicates, TickedAreGone;
    ServerStep(s, a);
    LoopsStay(s, a);
    TickedIs(s, a);
    assert TaskInv(s, l, TaskOf(s, l));
    forall c | c in Rest(TaskOf(s, l))
      ensures TakesOut(s, a, c) ==> a.TickOne? && l != MAIN
    {
      OnlyTheTickTakes(s, a, l, c);
    }
  }

  lemma TailOf(cs: seq<ConnId>)
    requires NoDuplicates(cs) && cs != []
    ensures NoDuplicates(cs[1..]) && cs[0] !in cs[1..] && cs[0] in cs && forall c :: c in cs[1..] ==> c in cs
  {
  }

  lemma PolledTask(s: State, l: LoopId, batch: seq<ConnId>)
    requires Inv(s.server) && IsBatch(s, l, batch)
    ensures TaskInv(s, l, Batch(batch))
  {
    forall c | c in batch
      ensures c < s.server.nextId
    {
      RegisteredIsKnown(s.server, c);
    }
    hide Inv, NoDuplicates, Registered;
  }

  lemma DispatchedTask(s: State, l: LoopId, rest: seq<ConnId>)
    requires TaskInv(s, l, Batch(rest)) && rest != []
    ensures TaskInv(s, l, Handling(rest[0], rest[1..]))
  {
    TailOf(rest);
    hide NoDuplicates, Registered;
  }

  /** What loop l does after the step. */
  lemma TaskIs(s: State, a: Step, l: LoopId)
    requires CanStep(s, a)
    ensures var t, u := TaskOf(s, l), TaskOf(Do(s, a), l);
            u == t || (a.Poll? && u == Batch(a.batch) && IsBatch(s, l, a.batch)) || u.Idle?
            || (t.Batch? && t.rest != [] && u == Handling(t.rest[0], t.rest[1..]))
            || (t.Handling? && u == Batch(t.rest)) || (l == MAIN && u.Ticking?)
  {
    hide Next, Enabled, IsBatch;
  }

  lemma PollChangesNothing(s: State, a: Step)
    requires CanStep(s, a) && a.Poll?
    ensures Do(s, a).server == s.server && Do(s, a).loopOf == s.loopOf && Do(s, a).ticked == s.ticked
  {
    hide IsBatch;
  }

  lemma SameTask(s: State, t: State, l: LoopId, u: Task)
    requires TaskInv(s, l, u) && t.server == s.server && t.loopOf == s.loopOf && t.ticked == s.ticked
    ensures TaskInv(t, l, u)
  {
    hide NoDuplicates, Registered;
  }

  lemma SimplerTask(t: State, l: LoopId, before: Task, u: Task)
    requires TaskInv(t, l, before)
    requires u == before || u.Idle? || (before.Handling? && u == Batch(before.rest)) || (l == MAIN && u.Ticking?)
    ensures TaskInv(t, l, u)
  {
    hide Registered;
  }

  lemma NewTask(s: State, a: Step, l: LoopId)
    requires LoopInv(s) && CanStep(s, a)
    ensures TaskInv(Do(s, a), l, TaskOf(Do(s, a), l))
  {
    hide Inv, CanStep, Do, IsBatch, TaskInv, TaskOf;
    RestStays(s, a, l);
    TaskIs(s, a, l);
    var t, u := Do(s, a), TaskOf(Do(s, a), l);
    if a.Poll? && u == Batch(a.batch) && IsBatch(s, l, a.batch) {
      PolledTask(s, l, a.batch);
      PollChangesNothing(s, a);
      SameTask(s, t, l, u);
    } else if u.Handling? && u != TaskOf(s, l) {
      DispatchedTask(t, l, TaskOf(s, l).rest);
    } else {
      SimplerTask(t, l, TaskOf(s, l), u);
    }
  }

  lemma StepKeeps(s: State, a: Step)
    requires LoopInv(s) && CanStep(s, a)
    ensures LoopInv(Do(s, a))
  {
    ServerStep(s, a);
    TickedStay(s, a);
    hide Inv, CanStep, Do, TaskInv, TickedAreGone;
    forall l: LoopId
      ensures TaskInv(Do(s, a), l, TaskOf(Do(s, a), l))
    {
      NewTask(s, a, l);
    }
  }

  lemma {:induction false} RunKeeps(s: State, run: seq<Step>, t: State)
    requires LoopInv(s) && Reaches(s, run, t)
    ensures LoopInv(t)
    decreases |run|
  {
    hide LoopInv, CanStep, Do;
    if run != [] {
      StepKeeps(s, run[0]);
      RunKeeps(Do(s, run[0]), run[1..], t);
    }
  }

  lemma StartKeeps()
    ensures LoopInv(START)
  {
    InitInv();
    hide Inv;
  }

  lemma AliveIff(s: Server, c: ConnId)
    requires Inv(s)
    ensures c in s.live <==> Registered(s, c) || c in s.holders
  {
    hide FdsAreOwned, DisconnectsOnce, MapIsSound;
  }

  /** In every reachable state of any number of loops: a channel that a loop has still to come to exists
      exactly if the tick has not removed its connection since, or somebody else still owns it. On the
      loop that runs the tick, and so on all of them if there is only one, it always exists. */
  lemma ChannelExistsIff(run: seq<Step>, t: State, l: LoopId, c: ConnId)
    requires Reaches(START, run, t) && c in Rest(TaskOf(t, l))
    ensures c in t.server.live <==> c !in t.ticked || c in t.server.holders
    ensures l == MAIN ==> c in t.server.live
  {
    hide Inv, Reaches, Registered;
    StartKeeps();
    RunKeeps(START, run, t);
    assert TaskInv(t, l, TaskOf(t, l));
    AliveIff(t.server, c);
  }

  // ---- The owners that handlers and the tick hold

  /** The loop that c was given to is in a handler of c. */
  ghost predicate Handles(s: State, c: ConnId) {
    c in s.loopOf && TaskOf(s, s.loopOf[c]).Handling? && TaskOf(s, s.loopOf[c]).conn == c
  }

  /** The owners that the tick holds. */
  function Owners(s: State): seq<ConnId> {
    if TaskOf(s, MAIN).Ticking? then TaskOf(s, MAIN).owners else []
  }

  /** A handler holds its connection once, the tick those of its list, and nobody else holds any. */
  ghost predicate Counted(s: State) {
    (forall c :: s.server.holders[c] == multiset(Owners(s))[c] + if Handles(s, c) then 1 else 0)
    && multiset(s.server.collected) <= multiset(Owners(s))
  }

  /** The shared_ptrs that the step takes, and those that it gives up. */
  function Takes(s: State, a: Step): seq<ConnId> {
    match a
    case Dispatch(l) => if TaskOf(s, l).Batch? && TaskOf(s, l).rest != [] then [TaskOf(s, l).rest[0]] else []
    case StartTick(_, expired) => expired
    case _ => []
  }

  function Gives(s: State, a: Step): seq<ConnId> {
    match a
    case Finish(l) => if TaskOf(s, l).Handling? then [TaskOf(s, l).conn] else []
    case DropOwner => if Owners(s) != [] then [Owners(s)[0]] else []
    case _ => []
  }

  /** What a step of the server does to the shared_ptrs. */
  lemma HoldersNext(s: Server, a: Action)
    requires Enabled(s, a)
    ensures Next(s, a).holders == match a
                                  case Lock(c) => s.holders + multiset{c}
                                  case Release(c) => s.holders - multiset{c}
                                  case Collect(_, expired) => s.holders + multiset(expired)
                                  case _ => s.holders
  {
    hide IsExpiredList, AfterAdd, AfterCheck, AfterRemove;
  }

  lemma PartTakes(s: State, a: Step)
    requires CanStep(s, a)
    ensures var part := Part(s, a);
            if part == [] then Takes(s, a) == [] && Gives(s, a) == []
            else match part[0]
                 case Lock(c) => Takes(s, a) == [c] && Gives(s, a) == []
                 case Release(c) => Takes(s, a) == [] && Gives(s, a) == [c]
                 case Collect(_, expired) => Takes(s, a) == expired && Gives(s, a) == []
                 case _ => Takes(s, a) == [] && Gives(s, a) == []
  {
    hide Enabled, IsBatch;
  }

  lemma ServerAfter(s: State, a: Step)
    requires CanStep(s, a)
    ensures var part := Part(s, a);
            if part == [] then Do(s, a).server == s.server
            else Enabled(s.server, part[0]) && Do(s, a).server == Next(s.server, part[0])
  {
    if Part(s, a) != [] {
      PartEnabled(s, a);
    }
    hide Next, Enabled, IsBatch, TaskAfter;
  }

  /** The shared_ptrs that a step of the server takes and gives up. */
  ghost predicate Moves(part: seq<Action>, takes: seq<ConnId>, gives: seq<ConnId>) {
    if part == [] then takes == [] && gives == []
    else match part[0]
         case Lock(c) => takes == [c] && gives == []
         case Release(c) => takes == [] && gives == [c]
         case Collect(_, expired) => takes == expired && gives == []
         case _ => takes == [] && gives == []
  }

  lemma PartOf(s: State, a: Step) returns (part: seq<Action>)
    requires CanStep(s, a)
    ensures Moves(part, Takes(s, a), Gives(s, a))
    ensures if part == [] then Do(s, a).server == s.server
            else Enabled(s.server, part[0]) && Do(s, a).server == Next(s.server, part[0])
  {
    part := Part(s, a);
    PartTakes(s, a);
    ServerAfter(s, a);
  }

  lemma MovesHolders(v: Server, b: Action, takes: seq<ConnId>, gives: seq<ConnId>)
    requires Enabled(v, b) && Moves([b], takes, gives)
    ensures Next(v, b).holders == v.holders + multiset(takes) - multiset(gives)
  {
    HoldersNext(v, b);
    hide Next, Enabled;
  }

  lemma HoldersAfter(s: State, a: Step)
    requires CanStep(s, a)
    ensures Do(s, a).server.holders == s.server.holders + multiset(Takes(s, a)) - multiset(Gives(s, a))
  {
    hide CanStep, Do, Takes, Gives, Next, Enabled;
    var part := PartOf(s, a);
    if part != [] {
      assert Moves([part[0]], Takes(s, a), Gives(s, a));
      MovesHolders(s.server, part[0], Takes(s, a), Gives(s, a));
    }
  }

  lemma CollectedNext(s: Server, a: Action)
    requires Enabled(s, a)
    ensures Next(s, a).collected == match a
                                    case Collect(_, expired) => expired
                                    case TickRemove => s.collected[1..]
                                    case _ => s.collected
    ensures a.Collect? ==> s.collected == []
  {
    hide IsExpiredList, AfterAdd, AfterCheck, AfterRemove;
  }

  /** Which of the server's steps the collecting and the removing of the tick are. */
  lemma PartCollects(s: State, a: Step)
    requires CanStep(s, a)
    ensures var part := Part(s, a);
            (a.StartTick? ==> part == [Collect(a.now, a.expired)])
            && (a.TickOne? ==> part == [TickRemove] && s.server.collected != [])
            && (a.EndTick? ==> s.server.collected == [])
            && (!a.StartTick? && !a.TickOne? ==> part == [] || (!part[0].Collect? && !part[0].TickRemove?))
  {
    hide IsExpiredList, IsBatch;
  }

  lemma CollectedAfter(s: State, a: Step)
    requires CanStep(s, a)
    ensures Do(s, a).server.collected ==
            if a.StartTick? then a.expired
            else if a.TickOne? && s.server.collected != [] then s.server.collected[1..]
            else s.server.collected
    ensures a.StartTick? || a.EndTick? ==> s.server.collected == []
  {
    PartCollects(s, a);
    ServerAfter(s, a);
    if Part(s, a) != [] {
      CollectedNext(s.server, Part(s, a)[0]);
    }
    hide *;
  }

  lemma OwnersAfter(s: State, a: Step)
    requires CanStep(s, a)
    ensures Owners(Do(s, a)) ==
            if a.StartTick? then a.expired else if a.DropOwner? then Owners(s)[1..] else Owners(s)
    ensures a.StartTick? ==> Owners(s) == []
    ensures a.DropOwner? ==> Owners(s) != [] && s.server.collected == []
  {
    hide Next, Enabled, IsBatch;
  }

  lemma HandlesAfter(s: State, a: Step, c: ConnId)
    requires LoopInv(s) && CanStep(s, a)
    ensures Handles(Do(s, a), c) <==> (Handles(s, c) && !(a.Finish? && Gives(s, a) == [c]))
                                      || (a.Dispatch? && Takes(s, a) == [c])
    ensures a.Dispatch? && Takes(s, a) == [c] ==> !Handles(s, c)
    ensures a.Finish? && Gives(s, a) == [c] ==> Handles(s, c)
  {
    hide Inv, Next, Enabled, Registered, NoDuplicates, IsBatch, TickedAreGone;
    if c in s.loopOf {
      assert TaskInv(s, s.loopOf[c], TaskOf(s, s.loopOf[c]));
    }
    if a.Assign? && TaskOf(s, a.l).Handling? {
      assert TaskInv(s, a.l, TaskOf(s, a.l));
    }
    if a.Dispatch? || a.Finish? {
      assert TaskInv(s, a.l, TaskOf(s, a.l));
    }
  }

  lemma OwnersCount(s: State, a: Step, c: ConnId)
    requires CanStep(s, a)
    ensures multiset(Owners(Do(s, a)))[c] ==
            multiset(Owners(s))[c] + (if a.StartTick? then multiset(Takes(s, a))[c] else 0)
                                   - if a.DropOwner? then multiset(Gives(s, a))[c] else 0
  {
    OwnersAfter(s, a);
    hide CanStep, Do, Owners;
    if a.DropOwner? {
      assert Owners(s) == [Owners(s)[0]] + Owners(s)[1..];
    }
  }

  lemma TakesAndGives(s: State, a: Step, c: ConnId)
    requires CanStep(s, a)
    ensures !a.Dispatch? && !a.StartTick? ==> Takes(s, a) == []
    ensures !a.Finish? && !a.DropOwner? ==> Gives(s, a) == []
    ensures a.Dispatch? ==> multiset(Takes(s, a))[c] == if Takes(s, a) == [c] then 1 else 0
    ensures a.Finish? ==> multiset(Gives(s, a))[c] == if Gives(s, a) == [c] then 1 else 0
    ensures a.DropOwner? ==> Owners(s) != [] && Gives(s, a) == [Owners(s)[0]]
  {
    hide Next, Enabled, IsBatch;
  }

  lemma HoldersCount(s: State, a: Step, c: ConnId)
    requires LoopInv(s) && Counted(s) && CanStep(s, a)
    ensures Do(s, a).server.holders[c] == multiset(Owners(Do(s, a)))[c] + if Handles(Do(s, a), c) then 1 else 0
  {
    hide LoopInv, CanStep, Do, Handles, Owners, Takes, Gives;
    HoldersAfter(s, a);
    OwnersCount(s, a, c);
    HandlesAfter(s, a, c);
    OwnersAfter(s, a);
    assert s.server.holders[c] == multiset(Owners(s))[c] + if Handles(s, c) then 1 else 0;
    TakesAndGives(s, a, c);
  }

  lemma CollectedStays(s: State, a: Step)
    requires Counted(s) && CanStep(s, a)
    ensures multiset(Do(s, a).server.collected) <= multiset(Owners(Do(s, a)))
  {
    hide CanStep, Do, Owners, Handles;
    CollectedAfter(s, a);
    OwnersAfter(s, a);
    if a.TickOne? && s.server.collected != [] {
      assert s.server.collected == [s.server.collected[0]] + s.server.collected[1..];
    }
  }

  lemma StepCounts(s: State, a: Step)
    requires LoopInv(s) && Counted(s) && CanStep(s, a)
    ensures Counted(Do(s, a))
  {
    hide LoopInv, CanStep, Do, Handles, Owners;
    CollectedStays(s, a);
    forall c
      ensures Do(s, a).server.holders[c] == multiset(Owners(Do(s, a)))[c] + if Handles(Do(s, a), c) then 1 else 0
    {
      HoldersCount(s, a, c);
    }
  }

  lemma {:induction false} RunCounts(s: State, run: seq<Step>, t: State)
    requires LoopInv(s) && Counted(s) && Reaches(s, run, t)
    ensures LoopInv(t) && Counted(t)
    decreases |run|
  {
    hide LoopInv, Counted, CanStep, Do;
    if run != [] {
      StepKeeps(s, run[0]);
      StepCounts(s, run[0]);
      RunCounts(Do(s, run[0]), run[1..], t);
    }
  }

  lemma StartCounts()
    ensures Counted(START)
  {
  }

  /** The loops that are in a handler of c. */
  ghost function HandlersOf(s: State, c: ConnId): set<LoopId> {
    set l | l in s.tasks && s.tasks[l].Handling? && s.tasks[l].conn == c
  }

  lemma OneHandler(s: State, c: ConnId)
    requires LoopInv(s)
    ensures |HandlersOf(s, c)| == if Handles(s, c) then 1 else 0
  {
    hide Inv, Registered, NoDuplicates, TickedAreGone;
    forall l | l in HandlersOf(s, c)
      ensures Handles(s, c) && l == s.loopOf[c]
    {
      assert TaskInv(s, l, TaskOf(s, l));
    }
    if Handles(s, c) {
      assert HandlersOf(s, c) == {s.loopOf[c]};
    } else {
      assert HandlersOf(s, c) == {};
    }
  }

  /** In every reachable state the shared_ptrs to a connection outside m_connections are those of the
      loops that handle it and those in the list of the tick. */
  lemma OwnersAreCounted(run: seq<Step>, t: State, c: ConnId)
    requires Reaches(START, run, t)
    ensures t.server.holders[c] ==
            |set l | l in t.tasks && t.tasks[l].Handling? && t.tasks[l].conn == c|
            + if TaskOf(t, MAIN).Ticking? then multiset(TaskOf(t, MAIN).owners)[c] else 0
  {
    StartKeeps();
    StartCounts();
    hide LoopInv, Reaches, Handles;
    RunCounts(START, run, t);
    OneHandler(t, c);
    assert HandlersOf(t, c) == set l | l in t.tasks && t.tasks[l].Handling? && t.tasks[l].conn == c;
  }

  lemma HeldIsAlive(s: Server, c: ConnId)
    requires Inv(s) && c in s.holders
    ensures c in s.live
  {
  }

  /** In every reachable state of any number of loops a connection exists while a handler of its channel
      runs, and the handler can return. */
  lemma HandledIsAlive(run: seq<Step>, t: State, l: LoopId, c: ConnId)
    requires Reaches(START, run, t) && TaskOf(t, l).Handling? && TaskOf(t, l).conn == c
    ensures c in t.server.live && c in t.server.holders && CanStep(t, Finish(l))
  {
    StartKeeps();
    StartCounts();
    hide Inv, Reaches, Registered, NoDuplicates, TickedAreGone;
    RunCounts(START, run, t);
    assert TaskInv(t, l, TaskOf(t, l));
    assert Handles(t, c);
    assert multiset(t.server.collected)[c] <= multiset(Owners(t))[c];
    assert t.server.holders[c] == multiset(Owners(t))[c] + 1;
    HeldIsAlive(t.server, c);
  }

  lemma LockThenRelease(v: Server, c: ConnId)
    requires Inv(v) && Enabled(v, Lock(c))
    ensures var w := Next(v, Lock(c));
            w == v.(holders := v.holders + multiset{c}) && Enabled(w, Release(c)) && Next(w, Release(c)) == v
  {
    AliveIff(v, c);
    assert multiset(v.collected) <= v.holders;
    assert v.holders + multiset{c} - multiset{c} == v.holders;
    hide Inv;
  }

  lemma TaskInHandler(s: State, l: LoopId)
    requires CanStep(s, Dispatch(l))
    ensures var t := Do(s, Dispatch(l));
            Enabled(s.server, Lock(TaskOf(s, l).rest[0]))
            && t.server == Next(s.server, Lock(TaskOf(s, l).rest[0]))
            && TaskOf(t, l) == Handling(TaskOf(s, l).rest[0], TaskOf(s, l).rest[1..])
  {
    hide Next, IsBatch;
  }

  lemma FinishIs(t: State, l: LoopId)
    requires TaskOf(t, l).Handling? && Enabled(t.server, Release(TaskOf(t, l).conn))
    ensures CanStep(t, Finish(l)) && Do(t, Finish(l)).server == Next(t.server, Release(TaskOf(t, l).conn))
  {
    hide Next, Enabled;
  }

  /** A handler that does nothing gives up exactly what it took. */
  lemma FinishUndoesDispatch(s: State, l: LoopId)
    requires LoopInv(s) && CanStep(s, Dispatch(l))
    ensures var t := Do(s, Dispatch(l));
            TaskOf(t, l).Handling? && CanStep(t, Finish(l)) && Do(t, Finish(l)).server == s.server
  {
    TaskInHandler(s, l);
    LockThenRelease(s.server, TaskOf(s, l).rest[0]);
    FinishIs(Do(s, Dispatch(l)), l);
    hide *;
  }

  // ---- No loop is ever stuck, except at a channel that is gone

  ghost predicate CanTick(t: State, now: int) {
    exists expired :: CanStep(t, StartTick(now, expired))
  }

  /** What NoLoopIsStuck says, for one state. */
  ghost predicate HasStep(t: State, l: LoopId) {
    match TaskOf(t, l)
    case Idle => CanStep(t, Poll(l, []))
    case Batch(rest) =>
      if rest != [] then CanStep(t, Dispatch(l)) <==> rest[0] in t.server.live
      else if l != MAIN then CanStep(t, EndBatch(l))
      else forall now :: CanTick(t, now)
    case Handling(c, _) =>
      CanStep(t, Finish(l)) && CanStep(t, Handle(l, Close(c))) && forall x :: CanStep(t, Handle(l, Refresh(c, x)))
    case Ticking(owners) =>
      l == MAIN
      && if t.server.collected != [] then CanStep(t, TickOne)
         else if owners != [] then CanStep(t, DropOwner)
         else CanStep(t, EndTick)
  }

  lemma NothingCollected(t: State)
    requires Counted(t) && !TaskOf(t, MAIN).Ticking?
    ensures t.server.collected == []
  {
    hide Handles;
    assert multiset(t.server.collected) <= multiset([]);
    assert |t.server.collected| == |multiset(t.server.collected)|;
  }

  lemma CollectedIsAlive(v: Server)
    requires Inv(v) && v.collected != []
    ensures v.collected[0] in v.live
  {
    assert v.collected[0] in multiset(v.collected);
    assert multiset(v.collected) <= v.holders;
    HeldIsAlive(v, v.collected[0]);
    hide Inv;
  }

  lemma OwnerMayGo(t: State)
    requires Counted(t) && TaskOf(t, MAIN).Ticking? && t.server.collected == [] && TaskOf(t, MAIN).owners != []
    ensures CanStep(t, DropOwner)
  {
    hide Handles;
    var owners := TaskOf(t, MAIN).owners;
    assert owners[0] in multiset(owners);
    assert multiset(t.server.collected)[owners[0]] == 0;
  }

  lemma TickMayGoOn(t: State)
    requires TaskOf(t, MAIN).Ticking?
    ensures t.server.collected != [] && t.server.collected[0] in t.server.live ==> CanStep(t, TickOne)
    ensures t.server.collected == [] && TaskOf(t, MAIN).owners == [] ==> CanStep(t, EndTick)
  {
  }

  lemma TickHasStep(t: State)
    requires Inv(t.server) && Counted(t) && TaskOf(t, MAIN).Ticking?
    ensures HasStep(t, MAIN)
  {
    hide Inv, Counted, CanStep;
    TickMayGoOn(t);
    if t.server.collected != [] {
      CollectedIsAlive(t.server);
    } else if TaskOf(t, MAIN).owners != [] {
      OwnerMayGo(t);
    }
  }

  lemma BatchHasStep(t: State, l: LoopId)
    requires Counted(t) && TaskOf(t, l).Batch?
    ensures HasStep(t, l)
  {
    if TaskOf(t, l).rest == [] && l == MAIN {
      NothingCollected(t);
      forall now
        ensures CanTick(t, now)
      {
        var expired := ExpiredListExists(t.server.timers, t.server.live, now);
        hide IsExpiredList;
        assert CanStep(t, StartTick(now, expired));
      }
    }
    hide Handles;
  }

  lemma HandlerHasStep(t: State, l: LoopId)
    requires TaskOf(t, l).Handling? && TaskOf(t, l).conn in t.server.live && TaskOf(t, l).conn in t.server.holders
    requires CanStep(t, Finish(l))
    ensures HasStep(t, l)
  {
  }

  lemma IdleHasStep(t: State, l: LoopId)
    requires TaskOf(t, l).Idle?
    ensures HasStep(t, l)
  {
    assert IsBatch(t, l, []);
  }

  lemma ReachableHasStep(run: seq<Step>, t: State, l: LoopId)
    requires Reaches(START, run, t)
    ensures HasStep(t, l)
  {
    StartKeeps();
    StartCounts();
    hide Inv, Reaches, CanStep, HasStep, Counted, TickedAreGone, Registered, NoDuplicates;
    RunCounts(START, run, t);
    assert TaskInv(t, l, TaskOf(t, l));
    match TaskOf(t, l)
    case Idle => IdleHasStep(t, l);
    case Batch(_) => BatchHasStep(t, l);
    case Handling(c, _) => HandledIsAlive(run, t, l, c); HandlerHasStep(t, l);
    case Ticking(_) => TickHasStep(t);
  }

  lemma OthersMayAct(t: State, fd: Fd)
    requires fd !in OpenFds(t.server)
    ensures CanStep(t, Environment(OpenOther(fd)))
  {
  }

  lemma TickStarts(t: State, now: int)
    requires CanTick(t, now)
    ensures exists expired :: CanStep(t, StartTick(now, expired))
  {
    hide CanStep;
  }

  /** In every reachable state each loop has its next step to take: from its wait into a batch, at a channel
      that exists into its handler, in the handler any message or close and the way out, after the batch
      back to the wait, or, on the loop of the tick, into and through the tick, at whatever time it is. */
  lemma NoLoopIsStuck(run: seq<Step>, t: State, l: LoopId, now: int, expire: int)
    requires Reaches(START, run, t)
    ensures match TaskOf(t, l)
            case Idle => CanStep(t, Poll(l, []))
            case Batch(rest) =>
              if rest != [] then CanStep(t, Dispatch(l)) <==> rest[0] in t.server.live
              else if l != MAIN then CanStep(t, EndBatch(l))
              else exists expired :: CanStep(t, StartTick(now, expired))
            case Handling(c, _) =>
              CanStep(t, Finish(l)) && CanStep(t, Handle(l, Close(c))) && CanStep(t, Handle(l, Refresh(c, expire)))
            case Ticking(owners) =>
              l == MAIN
              && if t.server.collected != [] then CanStep(t, TickOne)
                 else if owners != [] then CanStep(t, DropOwner)
                 else CanStep(t, EndTick)
  {
    hide Reaches, CanStep, CanTick;
    ReachableHasStep(run, t, l);
    if TaskOf(t, l) == Batch([]) && l == MAIN {
      assert CanTick(t, now);
      TickStarts(t, now);
    }
  }

  // ---- A run of loops is a run of the server

  /** What a run of the server is told from outside: everything but owners coming and going. */
  ghost function Told(actions: seq<Action>): seq<Action> {
    if actions == [] then []
    else (if actions[0].Lock? || actions[0].Release? then [] else [actions[0]]) + Told(actions[1..])
  }

  /** The same, as a loop does it. */
  function DoneAs(a: Step): seq<Action> {
    match a
    case Environment(b) => [b]
    case Arrive(fd) => [Accept(fd)]
    case Assign(fd, expire, _) => [Register(fd, expire)]
    case Handle(_, b) => [b]
    case StartTick(now, expired) => [Collect(now, expired)]
    case TickOne => [TickRemove]
    case _ => []
  }

  ghost function DoneBy(run: seq<Step>): seq<Action> {
    if run == [] then [] else DoneAs(run[0]) + DoneBy(run[1..])
  }

  lemma PartIsDone(s: State, a: Step)
    requires CanStep(s, a)
    ensures |Part(s, a)| <= 1 && Told(Part(s, a)) == DoneAs(a)
  {
    hide Enabled, IsBatch;
    if Part(s, a) != [] {
      assert Part(s, a)[1..] == [];
    }
  }

  lemma ToldFirst(part: seq<Action>, actions: seq<Action>)
    requires |part| <= 1
    ensures Told(part + actions) == Told(part) + Told(actions)
  {
    if part != [] {
      assert (part + actions)[1..] == actions;
    } else {
      assert part + actions == actions;
    }
  }

  lemma NothingTold()
    ensures Told([]) == [] && DoneBy([]) == []
  {
  }

  /** A step of the loops is at most one step of the server. */
  lemma StepIsAServers(s: State, a: Step) returns (part: seq<Action>)
    requires CanStep(s, a)
    ensures |part| <= 1 && Told(part) == DoneAs(a)
    ensures if part == [] then Do(s, a).server == s.server
            else Enabled(s.server, part[0]) && Do(s, a).server == Next(s.server, part[0])
  {
    part := Part(s, a);
    PartIsDone(s, a);
    ServerAfter(s, a);
  }

  lemma {:induction false} LoopsAreAServer(s: State, run: seq<Step>, t: State) returns (actions: seq<Action>)
    requires Reaches(s, run, t)
    ensures ServerState.Reaches(s.server, actions, t.server) && Told(actions) == DoneBy(run)
    decreases |run|
  {
    hide CanStep, Do, Next, Enabled, Told, DoneAs;
    if run == [] {
      actions := [];
      NothingTold();
    } else {
      var part := StepIsAServers(s, run[0]);
      var rest := LoopsAreAServer(Do(s, run[0]), run[1..], t);
      actions := part + rest;
      assert if part == [] then actions == rest else actions[0] == part[0] && actions[1..] == rest;
      ToldFirst(part, rest);
    }
  }

  /** Every run of any number of loops is, for the server, one of its own runs: the same connections
      arrive, send, close and expire in the same order. So what holds in all of those holds here. */
  lemma LoopsRunTheServer(run: seq<Step>, t: State)
    requires Reaches(START, run, t)
    ensures exists actions :: ServerState.Reaches(INIT, actions, t.server) && Told(actions) == DoneBy(run)
  {
    hide Reaches, Told, DoneBy, ServerState.Reaches;
    var actions := LoopsAreAServer(START, run, t);
  }

  // ---- With two loops it may not exist

  ghost predicate Reachable(s: State) {
    exists run :: Reaches(START, run, s)
  }

  lemma {:induction false} ReachesSnoc(s: State, run: seq<Step>, t: State, a: Step)
    requires Reaches(s, run, t) && CanStep(t, a)
    ensures Reaches(s, run + [a], Do(t, a))
    decreases |run|
  {
    hide CanStep, Do;
    if run == [] {
      assert Reaches(Do(t, a), [], Do(t, a));
      assert ([] + [a])[0] == a && ([] + [a])[1..] == [];
    } else {
      ReachesSnoc(Do(s, run[0]), run[1..], t, a);
      assert (run + [a])[1..] == run[1..] + [a];
    }
  }

  lemma ReachableNext(s: State, a: Step)
    requires Reachable(s) && CanStep(s, a)
    ensures Reachable(Do(s, a))
  {
    hide Reaches, CanStep, Do;
    var run :| Reaches(START, run, s);
    ReachesSnoc(START, run, s, a);
  }

  /** A client of loop 1 whose channel that loop has just been given. */
  const POLLED := State(
    Server(1, map[0 := 5], multiset{}, {}, {}, map[5 := 0], Timers({Timer(0, 30)}, map[5 := 30]), [], []),
    map[0 := 1], map[0 := Batch([]), 1 := Batch([0])], {})

  const ACCEPTING := State(INIT, map[], map[0 := Batch([])], {})

  lemma AcceptingIsReachable()
    ensures Reachable(ACCEPTING)
  {
    assert Reachable(START) by { assert Reaches(START, [], START); }
    hide Reachable;
    ReachableNext(START, Poll(0, []));
  }

  lemma PolledIsReachable()
    ensures Reachable(POLLED)
  {
    AcceptingIsReachable();
    hide Reachable;
    ReachableNext(ACCEPTING, Arrive(5));
    var s1 := ACCEPTING.(server := INIT.(pending := {5}));
    assert Do(ACCEPTING, Arrive(5)) == s1;
    ReachableNext(s1, Assign(5, 30, 1));
    var s2 := POLLED.(tasks := map[0 := Batch([])]);
    assert Do(s1, Assign(5, 30, 1)) == s2;
    ReachableNext(s2, Poll(1, [0]));
    assert Do(s2, Poll(1, [0])) == POLLED;
  }

  /** The tick has found it silent for too long. */
  const COLLECTED := State(
    POLLED.server.(holders := multiset{0}, timers := Timers({}, map[]), collected := [0]),
    map[0 := 1], map[0 := Ticking([0]), 1 := Batch([0])], {})

  lemma CollectsIt()
    ensures CanStep(POLLED, StartTick(30, [0])) && Do(POLLED, StartTick(30, [0])) == COLLECTED
  {
    var v := POLLED.server;
    assert forall c :: IsDue(v.timers, v.live, 30, c) <==> c == 0;
    assert IsExpiredList(v.timers, v.live, 30, [0]);
    assert DueFds(v.timers, v.live, 30) == {5} by {
      assert IsDue(v.timers, v.live, 30, 0);
      hide IsDue;
    }
    assert AfterCheck(v.timers, v.live, 30) == Timers({}, map[]);
  }

  const REMOVED := State(
    COLLECTED.server.(registered := map[], collected := [], disconnects := [0]),
    map[0 := 1], map[0 := Ticking([0]), 1 := Batch([0])], {0})

  const DROPPED := State(
    REMOVED.server.(live := map[], holders := multiset{}),
    map[0 := 1], map[0 := Ticking([]), 1 := Batch([0])], {0})

  lemma RemovesIt()
    ensures CanStep(COLLECTED, TickOne) && Do(COLLECTED, TickOne) == REMOVED
  {
    var v := COLLECTED.server;
    assert Registered(v, 0) && v.live[0] == 5;
    assert v.registered - {5} == map[];
    assert AfterRemove(v.timers, 5) == v.timers;
    assert 0 in REMOVED.server.holders;
    assert RemoveClient(v.(collected := []), 5) == REMOVED.server;
    assert v.collected[1..] == [];
  }

  lemma DropsIt()
    ensures CanStep(REMOVED, DropOwner) && Do(REMOVED, DropOwner) == DROPPED
  {
    var v := REMOVED.server;
    assert v.holders[0] > multiset(v.collected)[0];
    assert v.holders - multiset{0} == multiset{};
    assert v.live - {0} == map[];
    assert [0][1..] == [];
  }

  /** The tick removes the connection and lets go of it, its last owner, before loop 1 has come to its
      channel in the batch. */
  lemma TwoLoopsDangle()
    ensures Reachable(DROPPED)
    ensures TaskOf(DROPPED, 1) == Batch([0]) && 0 !in DROPPED.server.live && !Safe(DROPPED, Dispatch(1))
  {
    PolledIsReachable();
    CollectsIt();
    RemovesIt();
    DropsIt();
    hide Reachable, CanStep, Do;
    ReachableNext(POLLED, StartTick(30, [0]));
    ReachableNext(COLLECTED, TickOne);
    ReachableNext(REMOVED, DropOwner);
  }
}
