/** server/src/db/MySQLPool: a bounded pool of database connections. mysql_init/connect/ping/close are
    parameters: whether a ping succeeds, and the handle a connect gives, if any. */
module ConnectionPool {
  import opened Options

  type Handle = nat

  /** The pool's fields, plus who has what: `borrowed` are the handles that guards hold, `asleep` the
      threads in cond_.wait, `woken` those that have been woken and have not taken their turn yet. */
  datatype Pool = Pool(maxSize: int, currentSize: int, idle: seq<Handle>, borrowed: multiset<Handle>,
                       asleep: nat, woken: nat)

  datatype Answer = Got(h: Handle) | Null | MustWait

  /** Every connection that is open. */
  function Open(p: Pool): multiset<Handle> {
    multiset(p.idle) + p.borrowed
  }

  // ---- getConnection, one turn of its loop under the lock

  function Borrow(p: Pool, pingOk: bool, made: Option<Handle>): (Pool, Answer) {
    if p.idle == [] then
      if p.currentSize < p.maxSize then
        match made
        case Some(h) => (p.(currentSize := p.currentSize + 1, borrowed := p.borrowed + multiset{h}), Got(h))
        case None => (p, Null)
      else (p, MustWait)
    else
      var h, rest := p.idle[0], p.(idle := p.idle[1..]);
      if pingOk then (rest.(borrowed := p.borrowed + multiset{h}), Got(h))
      else
        match made
        case Some(h') => (rest.(borrowed := p.borrowed + multiset{h'}), Got(h'))
        case None => (rest.(currentSize := p.currentSize - 1), Null)
  }

  function WakeOne(p: Pool): Pool {
    if p.asleep > 0 then p.(asleep := p.asleep - 1, woken := p.woken + 1) else p
  }

  /** The turn that was taken was that of a woken thread, or of one that has just called. */
  function Took(p: Pool, woken: bool): Pool {
    if woken && p.woken > 0 then p.(woken := p.woken - 1) else p
  }

  function GiveBack(p: Pool, h: Handle): Pool {
    WakeOne(p.(idle := p.idle + [h], borrowed := p.borrowed - multiset{h}))
  }

  /** A connect never gives a handle that is open at that moment; a dead one is closed before. */
  ghost predicate IsFresh(p: Pool, pingOk: bool, made: Option<Handle>) {
    made.Some? ==>
      if p.idle != [] && !pingOk then made.value !in multiset(p.idle[1..]) + p.borrowed
      else made.value !in Open(p)
  }

  // ---- init

  /** The handles made before the first failure. */
  function Made(connects: seq<Option<Handle>>): seq<Handle> {
    if connects == [] || connects[0].None? then [] else [connects[0].value] + Made(connects[1..])
  }

  function Initial(connects: seq<Option<Handle>>, maxSize: int): Pool {
    Pool(maxSize, |Made(connects)|, Made(connects), multiset{}, 0, 0)
  }

  /** init on a pool that may be in use: the count starts again, the queue does not. */
  function Reinit(p: Pool, connects: seq<Option<Handle>>, maxSize: int): Pool {
    p.(maxSize := maxSize, currentSize := |Made(connects)|, idle := p.idle + Made(connects))
  }

  ghost predicate DistinctConnects(connects: seq<Option<Handle>>) {
    forall i, j :: 0 <= i < j < |connects| && connects[i].Some? ==> connects[i] != connects[j]
  }

  // ---- Runs

  datatype Action =
    | Get(pingOk: bool, made: Option<Handle>, woken: bool)
    | Sleep(woken: bool)
    | Return(h: Handle)
    | Spurious

  ghost predicate Enabled(p: Pool, a: Action) {
    match a
    case Get(pingOk, made, woken) =>
      (woken ==> p.woken > 0) && IsFresh(p, pingOk, made) && Borrow(p, pingOk, made).1 != MustWait
    case Sleep(woken) => (woken ==> p.woken > 0) && Borrow(p, true, None).1 == MustWait
    case Return(h) => h in p.borrowed
    case Spurious => p.asleep > 0
  }

  function Next(p: Pool, a: Action): Pool {
    match a
    case Get(pingOk, made, woken) => Took(Borrow(p, pingOk, made).0, woken)
    case Sleep(woken) => Took(p.(asleep := p.asleep + 1), woken)
    case Return(h) => GiveBack(p, h)
    case Spurious => WakeOne(p)
  }

  ghost predicate Reaches(p: Pool, run: seq<Action>, q: Pool)
    decreases |run|
  {
    if run == [] then p == q else Enabled(p, run[0]) && Reaches(Next(p, run[0]), run[1..], q)
  }

  // ---- The invariant

  /** Nothing is both idle and borrowed, or borrowed twice, or idle twice. */
  ghost predicate OnePlace(open: multiset<Handle>) {
    forall h: Handle :: open[h] <= 1
  }

  ghost predicate Accounted(p: Pool) {
    OnePlace(Open(p)) && p.currentSize == |p.idle| + |p.borrowed|
  }

  ghost predicate Inv(p: Pool) {
    Accounted(p) && p.currentSize <= p.maxSize
  }

  lemma FirstOfIdle(idle: seq<Handle>)
    requires idle != []
    ensures multiset(idle) == multiset{idle[0]} + multiset(idle[1..])
  {
    assert idle == [idle[0]] + idle[1..];
  }

  lemma MoveOne(h: Handle, rest: multiset<Handle>, borrowed: multiset<Handle>)
    ensures multiset{h} + rest + borrowed == rest + (borrowed + multiset{h})
    ensures multiset{h} + rest + borrowed - multiset{h} == rest + borrowed
  {
  }

  lemma MoveIn(h: Handle, rest: multiset<Handle>, borrowed: multiset<Handle>)
    ensures rest + borrowed + multiset{h} == rest + (borrowed + multiset{h})
  {
  }

  /** What one turn does to the open connections: nothing, one more, one replaced, or one lost. */
  lemma BorrowOpens(p: Pool, pingOk: bool, made: Option<Handle>)
    ensures var (q, answer) := Borrow(p, pingOk, made);
            Open(q) ==
            if p.idle == [] then if answer.Got? then Open(p) + multiset{answer.h} else Open(p)
            else if pingOk then Open(p)
            else Open(p) - multiset{p.idle[0]} + if answer.Got? then multiset{answer.h} else multiset{}
  {
    if p.idle != [] {
      FirstOfIdle(p.idle);
      MoveOne(p.idle[0], multiset(p.idle[1..]), p.borrowed);
    }
    if made.Some? {
      MoveIn(made.value, multiset(if p.idle == [] then [] else p.idle[1..]), p.borrowed);
    }
  }

  lemma BorrowCounts(p: Pool, pingOk: bool, made: Option<Handle>)
    requires Inv(p)
    ensures var q := Borrow(p, pingOk, made).0;
            q.currentSize == |q.idle| + |q.borrowed| && q.currentSize <= q.maxSize
  {
    hide OnePlace;
  }

  lemma LostAndFound(open: multiset<Handle>)
    requires OnePlace(open)
    ensures forall h: Handle :: OnePlace(open - multiset{h})
    ensures forall h: Handle :: h !in open ==> OnePlace(open + multiset{h})
    ensures forall h, h': Handle :: h' !in open - multiset{h} ==> OnePlace(open - multiset{h} + multiset{h'})
  {
  }

  lemma InIdle(idle: seq<Handle>, h: Handle)
    ensures h in idle <==> multiset(idle)[h] > 0
  {
  }

  /** The handle lent is in nobody's hands, nor still idle. */
  lemma BorrowFinds(p: Pool, pingOk: bool, made: Option<Handle>)
    requires OnePlace(Open(p)) && IsFresh(p, pingOk, made)
    ensures var (q, answer) := Borrow(p, pingOk, made);
            answer.Got? ==> answer.h !in p.borrowed && answer.h !in q.idle && q.borrowed == p.borrowed + multiset{answer.h}
  {
    if p.idle != [] {
      FirstOfIdle(p.idle);
      assert Open(p)[p.idle[0]] <= 1;
      InIdle(p.idle[1..], p.idle[0]);
      if made.Some? {
        InIdle(p.idle[1..], made.value);
      }
    }
  }

  /** A turn keeps the accounts, and what it lends nobody else has. */
  lemma BorrowKeeps(p: Pool, pingOk: bool, made: Option<Handle>)
    requires Inv(p) && IsFresh(p, pingOk, made)
    ensures Inv(Borrow(p, pingOk, made).0)
    ensures var (q, answer) := Borrow(p, pingOk, made);
            answer.Got? ==> answer.h !in p.borrowed && answer.h !in q.idle && q.borrowed == p.borrowed + multiset{answer.h}
  {
    BorrowOpens(p, pingOk, made);
    BorrowCounts(p, pingOk, made);
    BorrowFinds(p, pingOk, made);
    LostAndFound(Open(p));
  }

  lemma ReturnKeeps(p: Pool, h: Handle)
    requires Inv(p) && h in p.borrowed
    ensures Inv(GiveBack(p, h)) && Open(GiveBack(p, h)) == Open(p)
  {
    assert p.borrowed == p.borrowed - multiset{h} + multiset{h};
    assert multiset(p.idle + [h]) == multiset(p.idle) + multiset{h};
    assert Open(GiveBack(p, h)) == Open(p);
    hide OnePlace;
  }

  lemma SameAccounts(p: Pool, q: Pool)
    requires Inv(p) && q.(asleep := p.asleep, woken := p.woken) == p
    ensures Inv(q)
  {
    hide OnePlace;
    assert Open(q) == Open(p);
  }

  lemma StepKeeps(p: Pool, a: Action)
    requires Inv(p) && Enabled(p, a)
    ensures Inv(Next(p, a)) && Next(p, a).maxSize == p.maxSize
  {
    match a
    case Get(pingOk, made, woken) => BorrowKeeps(p, pingOk, made); SameAccounts(Borrow(p, pingOk, made).0, Next(p, a));
    case Return(h) => ReturnKeeps(p, h);
    case _ => SameAccounts(p, Next(p, a));
  }

  lemma {:induction false} RunKeeps(p: Pool, run: seq<Action>, q: Pool)
    requires Inv(p) && Reaches(p, run, q)
    ensures Inv(q) && q.maxSize == p.maxSize
    decreases |run|
  {
    hide Inv, Enabled, Next;
    if run != [] {
      StepKeeps(p, run[0]);
      RunKeeps(Next(p, run[0]), run[1..], q);
    }
  }

  // ---- Main results

  /** init keeps the handles up to the first failure, in order. */
  lemma {:induction false} MadeIs(connects: seq<Option<Handle>>)
    ensures |Made(connects)| <= |connects|
    ensures forall i :: 0 <= i < |Made(connects)| ==> connects[i] == Some(Made(connects)[i])
    ensures |Made(connects)| < |connects| ==> connects[|Made(connects)|].None?
  {
    if connects != [] && connects[0].Some? {
      MadeIs(connects[1..]);
      var rest := Made(connects[1..]);
      forall i | 0 <= i < |Made(connects)|
        ensures connects[i] == Some(Made(connects)[i])
      {
        if i > 0 {
          assert connects[i] == connects[1..][i - 1] && Made(connects)[i] == rest[i - 1];
        }
      }
    }
  }

  function AtLeastZero(n: int): nat {
    if n < 0 then 0 else n
  }

  lemma {:induction false} MadeIsDistinct(connects: seq<Option<Handle>>)
    requires DistinctConnects(connects)
    ensures OnePlace(multiset(Made(connects)))
    ensures forall h :: h in Made(connects) ==> Some(h) in connects
    ensures |Made(connects)| <= |connects|
    ensures |Made(connects)| == |connects| <==> None !in connects
  {
    if connects != [] && connects[0].Some? {
      var rest := connects[1..];
      MadeIsDistinct(rest);
      var h := connects[0].value;
      assert connects == [Some(h)] + rest;
      assert Some(h) !in rest;
      assert multiset(Made(connects)) == multiset{h} + multiset(Made(rest));
      InIdle(Made(rest), h);
    }
  }

  /** init always leaves the accounts right, but bounds them by maxSize, once it succeeds, exactly when
      the initial size is no larger; it does not compare the two. */
  lemma InitKeepsIff(connects: seq<Option<Handle>>, initialSize: int, maxSize: int)
    requires DistinctConnects(connects) && |connects| == AtLeastZero(initialSize)
    ensures Accounted(Initial(connects, maxSize))
    ensures None !in connects ==> (Inv(Initial(connects, maxSize)) <==> AtLeastZero(initialSize) <= maxSize)
  {
    MadeIsDistinct(connects);
    assert Open(Initial(connects, maxSize)) == multiset(Made(connects));
    hide OnePlace, Made;
  }

  /** Two connections in a pool for one. */
  lemma OversizedInit(h: Handle, h': Handle)
    requires h != h'
    ensures DistinctConnects([Some(h), Some(h')])
    ensures var p := Initial([Some(h), Some(h')], 1); Accounted(p) && p.currentSize > p.maxSize
  {
    InitKeepsIff([Some(h), Some(h')], 2, 1);
    assert Some(h) != Some(h');
    hide OnePlace;
  }

  /** A later init keeps the accounts exactly when the pool had no connection open. */
  lemma ReinitKeepsIff(p: Pool, connects: seq<Option<Handle>>, maxSize: int)
    requires OnePlace(Open(p)) && DistinctConnects(connects)
    requires forall h :: Some(h) in connects ==> h !in Open(p)
    ensures Accounted(Reinit(p, connects, maxSize)) <==> p.idle == [] && p.borrowed == multiset{}
  {
    MadeIsDistinct(connects);
    var q := Reinit(p, connects, maxSize);
    var made: seq<Handle> := Made(connects);
    assert multiset(q.idle) == multiset(p.idle) + multiset(made);
    forall h: Handle
      ensures Open(q)[h] <= 1
    {
      InIdle(made, h);
      assert Open(q)[h] == Open(p)[h] + multiset(made)[h];
    }
    hide OnePlace, Made;
  }

  /** A second init of a pool that holds one connection: two are idle, one is counted. */
  lemma SecondInit(h: Handle, h': Handle)
    requires h != h'
    ensures var p := Reinit(Initial([Some(h)], 2), [Some(h')], 2);
            p.idle == [h, h'] && p.borrowed == multiset{} && p.currentSize == 1
  {
    assert Made([Some(h)]) == [h] + Made([Some(h)][1..]) && Made([Some(h')]) == [h'] + Made([Some(h')][1..]);
  }

  lemma InvMeans(q: Pool)
    requires Inv(q)
    ensures q.currentSize == |q.idle| + |q.borrowed| <= q.maxSize
    ensures forall h: Handle :: multiset(q.idle)[h] + q.borrowed[h] <= 1
  {
    forall h: Handle
      ensures multiset(q.idle)[h] + q.borrowed[h] <= 1
    {
      assert Open(q)[h] <= 1;
    }
  }

  lemma MaxIs(connects: seq<Option<Handle>>, maxSize: int)
    ensures Initial(connects, maxSize).maxSize == maxSize
  {
  }

  /** Over every run of borrowing, waiting and returning, whatever pings and connects do: currentSize is
      the number of idle and borrowed handles, never above maxSize, and every handle is in one place. */
  lemma PoolConservation(connects: seq<Option<Handle>>, initialSize: int, maxSize: int, run: seq<Action>, q: Pool)
    requires DistinctConnects(connects) && |connects| == AtLeastZero(initialSize) && None !in connects
    requires AtLeastZero(initialSize) <= maxSize
    requires Reaches(Initial(connects, maxSize), run, q)
    ensures q.currentSize == |q.idle| + |q.borrowed| <= maxSize
    ensures forall h: Handle :: multiset(q.idle)[h] + q.borrowed[h] <= 1
  {
    hide Inv, Reaches, Initial, Made;
    InitKeepsIff(connects, initialSize, maxSize);
    RunKeeps(Initial(connects, maxSize), run, q);
    InvMeans(q);
    MaxIs(connects, maxSize);
  }

  /** Nobody is put to sleep unless all maxSize connections are lent out. */
  lemma WaitOnlyWhenExhausted(p: Pool)
    requires Inv(p)
    ensures Enabled(p, Sleep(false)) <==> p.idle == [] && |p.borrowed| == p.maxSize
  {
  }

  // ---- Sleepers

  /** Nobody sleeps while the pool has room for another connection. */
  predicate FullWhileAsleep(p: Pool) {
    p.asleep > 0 ==> p.currentSize == p.maxSize
  }

  /** A dead connection is given up, its replacement having failed, while somebody sleeps. */
  predicate LosesWhileAsleep(p: Pool, a: Action) {
    a.Get? && !a.pingOk && a.made.None? && p.idle != [] && p.asleep > 0
  }

  /** That is the one step that leaves a sleeper behind. */
  lemma SleeperLeftIff(p: Pool, a: Action)
    requires Inv(p) && Enabled(p, a) && FullWhileAsleep(p)
    ensures FullWhileAsleep(Next(p, a)) <==> !LosesWhileAsleep(p, a)
  {
    WaitOnlyWhenExhausted(p);
    hide OnePlace, IsFresh;
  }

  /** A run in which no connection is lost while somebody sleeps. */
  ghost predicate Keeps(p: Pool, run: seq<Action>, q: Pool)
    decreases |run|
  {
    if run == [] then p == q
    else Enabled(p, run[0]) && !LosesWhileAsleep(p, run[0]) && Keeps(Next(p, run[0]), run[1..], q)
  }

  lemma {:induction false} KeepsFull(p: Pool, run: seq<Action>, q: Pool)
    requires Inv(p) && FullWhileAsleep(p) && Keeps(p, run, q)
    ensures Inv(q) && FullWhileAsleep(q)
    decreases |run|
  {
    hide Inv, Enabled, Next, LosesWhileAsleep, FullWhileAsleep;
    if run != [] {
      StepKeeps(p, run[0]);
      SleeperLeftIff(p, run[0]);
      KeepsFull(Next(p, run[0]), run[1..], q);
    }
  }

  /** In every such run nobody ever sleeps while the pool has room. */
  lemma NoSleeperForgotten(connects: seq<Option<Handle>>, initialSize: int, maxSize: int, run: seq<Action>, q: Pool)
    requires DistinctConnects(connects) && |connects| == AtLeastZero(initialSize) && None !in connects
    requires AtLeastZero(initialSize) <= maxSize
    requires Keeps(Initial(connects, maxSize), run, q)
    ensures q.asleep > 0 ==> q.currentSize == q.maxSize
  {
    InitKeepsIff(connects, initialSize, maxSize);
    hide Inv, Keeps, Made;
    KeepsFull(Initial(connects, maxSize), run, q);
  }

  /** A guard's borrow and return leave what others have borrowed as it was. */
  lemma GuardRestores(p: Pool, pingOk: bool, made: Option<Handle>)
    requires Inv(p) && IsFresh(p, pingOk, made) && Borrow(p, pingOk, made).1.Got?
    ensures var (q, answer) := Borrow(p, pingOk, made);
            Inv(GiveBack(q, answer.h)) && GiveBack(q, answer.h).borrowed == p.borrowed
            && GiveBack(q, answer.h).idle == q.idle + [answer.h]
  {
    BorrowKeeps(p, pingOk, made);
    var (q, answer) := Borrow(p, pingOk, made);
    ReturnKeeps(q, answer.h);
    hide Inv, IsFresh, Borrow;
  }

  /** A run that comes to that step: one thread stays asleep although nothing is borrowed and the pool
      could make a connection for it. */
  lemma SleeperForgotten(h: Handle)
    ensures exists p ::
              Keeps(Initial([Some(h)], 1), [Get(true, None, false), Sleep(false), Sleep(false), Return(h)], p)
              && FullWhileAsleep(p)
              && Enabled(p, Get(false, None, true)) && LosesWhileAsleep(p, Get(false, None, true))
              && var q := Next(p, Get(false, None, true));
                 q.asleep == 1 && q.woken == 0 && q.borrowed == multiset{} && q.idle == [] && q.currentSize < q.maxSize
  {
    var p0 := Initial([Some(h)], 1);
    assert Made([Some(h)]) == [h] + Made([Some(h)][1..]);
    assert p0 == Pool(1, 1, [h], multiset{}, 0, 0);
    var p1 := Pool(1, 1, [], multiset{h}, 0, 0);
    var p2, p3 := p1.(asleep := 1), p1.(asleep := 2);
    var p4 := Pool(1, 1, [h], multiset{}, 1, 1);
    var p5 := Pool(1, 0, [], multiset{}, 1, 0);
    assert Enabled(p0, Get(true, None, false)) && Next(p0, Get(true, None, false)) == p1;
    assert Enabled(p1, Sleep(false)) && Next(p1, Sleep(false)) == p2;
    assert Enabled(p2, Sleep(false)) && Next(p2, Sleep(false)) == p3;
    assert Enabled(p3, Return(h)) && Next(p3, Return(h)) == p4;
    assert Enabled(p4, Get(false, None, true)) && Next(p4, Get(false, None, true)) == p5;
    hide Enabled, Next, Initial;
    var run := [Get(true, None, false), Sleep(false), Sleep(false), Return(h)];
    assert run[1..] == [Sleep(false), Sleep(false), Return(h)];
    assert run[1..][1..] == [Sleep(false), Return(h)];
    assert run[1..][1..][1..] == [Return(h)];
    assert Keeps(p4, [], p4);
    assert Keeps(p3, run[1..][1..][1..], p4);
    assert Keeps(p2, run[1..][1..], p4);
    assert Keeps(p1, run[1..], p4);
    assert Keeps(p0, run, p4);
  }

  /** While somebody sleeps, every idle handle has a woken thread on its way to it. */
  predicate WakeUpsSuffice(p: Pool) {
    p.asleep > 0 ==> |p.idle| <= p.woken
  }

  lemma StepWakes(p: Pool, a: Action)
    requires WakeUpsSuffice(p) && Enabled(p, a)
    ensures WakeUpsSuffice(Next(p, a))
  {
    hide IsFresh;
  }

  lemma {:induction false} RunWakes(p: Pool, run: seq<Action>, q: Pool)
    requires WakeUpsSuffice(p) && Reaches(p, run, q)
    ensures WakeUpsSuffice(q)
    decreases |run|
  {
    hide Enabled, Next, WakeUpsSuffice;
    if run != [] {
      StepWakes(p, run[0]);
      RunWakes(Next(p, run[0]), run[1..], q);
    }
  }

  /** No wake-up is lost: in every run, whoever takes the handle that a sleeper was woken for, and however
      spurious wake-ups come in between, nobody sleeps on while a handle is idle that no woken thread is
      still to look for. */
  lemma NoLostWakeUp(connects: seq<Option<Handle>>, maxSize: int, run: seq<Action>, q: Pool)
    requires Reaches(Initial(connects, maxSize), run, q)
    ensures q.asleep > 0 ==> |q.idle| <= q.woken
  {
    RunWakes(Initial(connects, maxSize), run, q);
  }

  /** How many calls have gone to sleep for the first time, and how many have come back from a sleep. */
  ghost function Slept(run: seq<Action>): nat {
    if run == [] then 0 else Slept(run[1..]) + if run[0] == Sleep(false) then 1 else 0
  }

  ghost function CameBack(run: seq<Action>): nat {
    if run == [] then 0 else CameBack(run[1..]) + if run[0].Get? && run[0].woken then 1 else 0
  }

  /** A sleeper may wake up for no reason. */
  lemma SpuriousWakes(p: Pool)
    ensures Enabled(p, Spurious) <==> p.asleep > 0
    ensures p.asleep > 0 ==> Next(p, Spurious) == p.(asleep := p.asleep - 1, woken := p.woken + 1)
  {
  }

  /** In every run the threads asleep and the woken ones are those that slept and have not come back. */
  lemma {:induction false} SleepersAreCounted(p: Pool, run: seq<Action>, q: Pool)
    requires Reaches(p, run, q)
    ensures q.asleep + q.woken + CameBack(run) == p.asleep + p.woken + Slept(run)
    decreases |run|
  {
    hide IsFresh;
    if run != [] {
      SleepersAreCounted(Next(p, run[0]), run[1..], q);
    }
  }

  // ---- The loop of getConnection

  /** One turn of the loop, and what other threads do while this one then sleeps, if it has to. */
  datatype Turn = Turn(pingOk: bool, made: Option<Handle>, others: seq<Action>)

  function After(p: Pool, run: seq<Action>): Pool
    decreases |run|
  {
    if run == [] then p else After(Next(p, run[0]), run[1..])
  }

  function AfterTurns(p: Pool, woken: bool, turns: seq<Turn>): (Pool, Answer)
    decreases |turns|
  {
    if turns == [] then (p, MustWait)
    else
      var (q, answer) := Borrow(p, turns[0].pingOk, turns[0].made);
      if answer == MustWait then AfterTurns(After(Next(p, Sleep(woken)), turns[0].others), true, turns[1..])
      else (Took(q, woken), answer)
  }

  /** After each sleep this thread is one of those that have been woken. */
  ghost predicate TurnsPossible(p: Pool, woken: bool, turns: seq<Turn>)
    decreases |turns|
  {
    turns != [] ==>
      var t := turns[0];
      (woken ==> p.woken > 0) && IsFresh(p, t.pingOk, t.made)
      && (Borrow(p, t.pingOk, t.made).1 == MustWait ==>
            var q := Next(p, Sleep(woken));
            Reaches(q, t.others, After(q, t.others)) && TurnsPossible(After(q, t.others), true, turns[1..]))
  }

  ghost function Trace(p: Pool, woken: bool, turns: seq<Turn>): seq<Action>
    decreases |turns|
  {
    if turns == [] then []
    else
      var t := turns[0];
      if Borrow(p, t.pingOk, t.made).1 != MustWait then [Get(t.pingOk, t.made, woken)]
      else [Sleep(woken)] + t.others + Trace(After(Next(p, Sleep(woken)), t.others), true, turns[1..])
  }

  lemma {:induction false} ReachesThen(p: Pool, a: seq<Action>, q: Pool, b: seq<Action>, r: Pool)
    requires Reaches(p, a, q) && Reaches(q, b, r)
    ensures Reaches(p, a + b, r)
    decreases |a|
  {
    hide Enabled, Next;
    if a == [] {
      assert a + b == b;
    } else {
      ReachesThen(Next(p, a[0]), a[1..], q, b, r);
      assert (a + b)[1..] == a[1..] + b;
    }
  }

  lemma TookBorrowed(p: Pool, woken: bool)
    ensures Took(p, woken).borrowed == p.borrowed
  {
  }

  lemma OneTurn(p: Pool, pingOk: bool, made: Option<Handle>, woken: bool)
    requires Inv(p) && Enabled(p, Get(pingOk, made, woken))
    ensures var (q, answer) := Borrow(p, pingOk, made);
            Reaches(p, [Get(pingOk, made, woken)], Took(q, woken)) && Inv(Took(q, woken))
            && (answer.Got? ==> Took(q, woken).borrowed[answer.h] == 1)
  {
    BorrowKeeps(p, pingOk, made);
    hide Inv, IsFresh, Borrow, Took;
    var q := Next(p, Get(pingOk, made, woken));
    StepKeeps(p, Get(pingOk, made, woken));
    TookBorrowed(Borrow(p, pingOk, made).0, woken);
    assert Reaches(q, [], q);
    assert [Get(pingOk, made, woken)][1..] == [];
  }

  lemma SleepTurn(p: Pool, pingOk: bool, made: Option<Handle>, woken: bool)
    requires Inv(p) && Borrow(p, pingOk, made).1 == MustWait && (woken ==> p.woken > 0)
    ensures Enabled(p, Sleep(woken)) && Inv(Next(p, Sleep(woken)))
  {
    StepKeeps(p, Sleep(woken));
  }

  /** However often it sleeps and whatever others do meanwhile, the call is a run of the machine; when it
      comes back with a handle, the accounts hold and the handle is borrowed once. */
  lemma {:induction false} WaitingIsARun(p: Pool, woken: bool, turns: seq<Turn>)
    requires Inv(p) && TurnsPossible(p, woken, turns)
    ensures var (q, answer) := AfterTurns(p, woken, turns);
            Reaches(p, Trace(p, woken, turns), q) && Inv(q) && (answer.Got? ==> q.borrowed[answer.h] == 1)
    decreases |turns|
  {
    hide Inv, Next, Borrow, IsFresh, Took;
    if turns != [] {
      var t := turns[0];
      var (q, answer) := Borrow(p, t.pingOk, t.made);
      if answer != MustWait {
        OneTurn(p, t.pingOk, t.made, woken);
      } else {
        SleepTurn(p, t.pingOk, t.made, woken);
        var p1 := Next(p, Sleep(woken));
        var p2 := After(p1, t.others);
        RunKeeps(p1, t.others, p2);
        WaitingIsARun(p2, true, turns[1..]);
        var rest := Trace(p2, true, turns[1..]);
        ReachesThen(p1, t.others, p2, rest, AfterTurns(p, woken, turns).0);
        assert [Sleep(woken)] + t.others + rest == [Sleep(woken)] + (t.others + rest);
        assert ([Sleep(woken)] + (t.others + rest))[1..] == t.others + rest;
      }
    }
  }

  /** The pool that turn k finds, after k sleeps and what the others did meanwhile. */
  function FoundAt(p: Pool, woken: bool, turns: seq<Turn>, k: nat): Pool
    requires k <= |turns|
    decreases k
  {
    if k == 0 then p else FoundAt(After(Next(p, Sleep(woken)), turns[0].others), true, turns[1..], k - 1)
  }

  lemma FoundFirst(p: Pool, woken: bool, turns: seq<Turn>)
    ensures FoundAt(p, woken, turns, 0) == p
  {
  }

  lemma FoundNext(p: Pool, woken: bool, turns: seq<Turn>, i: nat)
    requires 0 < i <= |turns|
    ensures FoundAt(p, woken, turns, i) == FoundAt(After(Next(p, Sleep(woken)), turns[0].others), true, turns[1..], i - 1)
  {
  }

  /** A turn that need not wait. */
  lemma TurnAnswers(p: Pool, woken: bool, turns: seq<Turn>)
    requires turns != [] && (p.idle != [] || p.currentSize < p.maxSize)
    ensures var (q, answer) := AfterTurns(p, woken, turns);
            answer == (if p.idle != [] && turns[0].pingOk then Got(p.idle[0])
                       else if turns[0].made.Some? then Got(turns[0].made.value)
                       else Null)
            && q.borrowed == p.borrowed + if answer.Got? then multiset{answer.h} else multiset{}
  {
    hide Next, After;
  }

  lemma FirstTurn(p: Pool, turns: seq<Turn>)
    ensures turns != [] && (p.idle != [] || p.currentSize < p.maxSize) ==>
              AfterTurns(p, false, turns).1 ==
                if p.idle != [] && turns[0].pingOk then Got(p.idle[0])
                else if turns[0].made.Some? then Got(turns[0].made.value)
                else Null
  {
    if turns != [] && (p.idle != [] || p.currentSize < p.maxSize) {
      TurnAnswers(p, false, turns);
    }
  }

  lemma TurnWaits(p: Pool, woken: bool, turns: seq<Turn>)
    requires turns != [] && p.idle == [] && p.currentSize >= p.maxSize
    ensures AfterTurns(p, woken, turns) == AfterTurns(After(Next(p, Sleep(woken)), turns[0].others), true, turns[1..])
  {
    hide Next, After;
  }

  /** What the call answers: every turn before the k-th finds nothing idle and no room. The k-th, if there
      is one, answers the first idle handle when the ping succeeds, else the one that the connect gives,
      and null only when that fails; what is lent is what it answers. */
  lemma {:induction false} GetAnswers(p: Pool, woken: bool, turns: seq<Turn>) returns (k: nat)
    ensures k <= |turns|
    ensures forall i :: 0 <= i < k ==>
              FoundAt(p, woken, turns, i).idle == []
              && FoundAt(p, woken, turns, i).currentSize >= FoundAt(p, woken, turns, i).maxSize
    ensures var (q, answer) := AfterTurns(p, woken, turns);
            var r := FoundAt(p, woken, turns, k);
            if k == |turns| then answer == MustWait && q == r
            else
              (r.idle != [] || r.currentSize < r.maxSize)
              && answer == (if r.idle != [] && turns[k].pingOk then Got(r.idle[0])
                            else if turns[k].made.Some? then Got(turns[k].made.value)
                            else Null)
              && q.borrowed == r.borrowed + if answer.Got? then multiset{answer.h} else multiset{}
    decreases |turns|
  {
    FoundFirst(p, woken, turns);
    hide Next, After, FoundAt;
    if turns == [] {
      k := 0;
    } else if p.idle != [] || p.currentSize < p.maxSize {
      hide AfterTurns;
      k := 0;
      TurnAnswers(p, woken, turns);
    } else {
      hide AfterTurns;
      TurnWaits(p, woken, turns);
      var p' := After(Next(p, Sleep(woken)), turns[0].others);
      var n := GetAnswers(p', true, turns[1..]);
      k := n + 1;
      FoundNext(p, woken, turns, k);
      forall i | 0 <= i < k
        ensures FoundAt(p, woken, turns, i).idle == []
        ensures FoundAt(p, woken, turns, i).currentSize >= FoundAt(p, woken, turns, i).maxSize
      {
        if i > 0 {
          FoundNext(p, woken, turns, i);
        }
      }
    }
  }

  /** The turn finds nothing idle and no room. */
  ghost predicate Exhausted(p: Pool) {
    p.idle == [] && p.currentSize >= p.maxSize
  }

  lemma MustWaitIf(p: Pool, pingOk: bool, made: Option<Handle>)
    requires Exhausted(p)
    ensures Borrow(p, pingOk, made).1 == MustWait
  {
  }

  lemma ReachesFirst(p: Pool, a: Action, run: seq<Action>, q: Pool)
    requires Enabled(p, a) && Reaches(Next(p, a), run, q)
    ensures Reaches(p, [a] + run, q)
  {
    hide Enabled, Next;
    assert ([a] + run)[1..] == run;
  }

  /** A turn that waits, and what the others do meanwhile. */
  lemma SleepLeads(p: Pool, woken: bool, turns: seq<Turn>)
    requires Inv(p) && TurnsPossible(p, woken, turns) && turns != [] && Exhausted(p)
    ensures var p2 := After(Next(p, Sleep(woken)), turns[0].others);
            Enabled(p, Sleep(woken)) && Reaches(Next(p, Sleep(woken)), turns[0].others, p2)
            && Inv(p2) && TurnsPossible(p2, true, turns[1..])
  {
    MustWaitIf(p, turns[0].pingOk, turns[0].made);
    SleepTurn(p, turns[0].pingOk, turns[0].made, woken);
    var p2 := After(Next(p, Sleep(woken)), turns[0].others);
    hide Inv, Next, IsFresh, Borrow;
    RunKeeps(Next(p, Sleep(woken)), turns[0].others, p2);
  }

  ghost predicate Reachable(p: Pool, q: Pool) {
    exists run :: Reaches(p, run, q)
  }

  lemma ReachableItself(p: Pool)
    ensures Reachable(p, p)
  {
    assert Reaches(p, [], p);
  }

  lemma ReachableAfter(p: Pool, woken: bool, others: seq<Action>, p2: Pool, q: Pool)
    requires Enabled(p, Sleep(woken)) && Reaches(Next(p, Sleep(woken)), others, p2) && Reachable(p2, q)
    ensures Reachable(p, q)
  {
    hide Reaches, Enabled, Next;
    var rest :| Reaches(p2, rest, q);
    ReachesThen(Next(p, Sleep(woken)), others, p2, rest, q);
    ReachesFirst(p, Sleep(woken), others + rest, q);
  }

  lemma ExhaustedLater(p: Pool, woken: bool, turns: seq<Turn>, k: nat, p2: Pool)
    requires 0 < k <= |turns| && p2 == After(Next(p, Sleep(woken)), turns[0].others)
    requires forall i :: 0 <= i < k ==> Exhausted(FoundAt(p, woken, turns, i))
    ensures Exhausted(p) && forall i :: 0 <= i < k - 1 ==> Exhausted(FoundAt(p2, true, turns[1..], i))
  {
    assert Exhausted(FoundAt(p, woken, turns, 0));
    hide Exhausted, Next, After;
    forall i | 0 <= i < k - 1
      ensures Exhausted(FoundAt(p2, true, turns[1..], i))
    {
      FoundNext(p, woken, turns, i + 1);
    }
  }

  /** A call that finds an idle handle alive is over after one turn. */
  lemma OneTurnIsEnough(p: Pool, others: seq<Action>)
    requires p.idle != []
    ensures var turns := [Turn(true, None, others)];
            TurnsPossible(p, false, turns)
            && AfterTurns(p, false, turns) ==
               (p.(idle := p.idle[1..], borrowed := p.borrowed + multiset{p.idle[0]}), Got(p.idle[0]))
  {
  }

  lemma {:induction false} ReachesTurn(p: Pool, woken: bool, turns: seq<Turn>, k: nat)
    requires Inv(p) && TurnsPossible(p, woken, turns) && k <= |turns|
    requires forall i :: 0 <= i < k ==> Exhausted(FoundAt(p, woken, turns, i))
    ensures Reachable(p, FoundAt(p, woken, turns, k))
    decreases k
  {
    hide Inv, Next, Enabled, FoundAt, Exhausted, TurnsPossible, After, Reachable, Reaches;
    if k == 0 {
      FoundFirst(p, woken, turns);
      ReachableItself(p);
    } else {
      var p2 := After(Next(p, Sleep(woken)), turns[0].others);
      ExhaustedLater(p, woken, turns, k, p2);
      SleepLeads(p, woken, turns);
      ReachesTurn(p2, true, turns[1..], k - 1);
      FoundNext(p, woken, turns, k);
      ReachableAfter(p, woken, turns[0].others, p2, FoundAt(p, woken, turns, k));
    }
  }

  /** And the pool that a turn finds is one that a run leads to. */
  lemma FoundIsReached(p: Pool, woken: bool, turns: seq<Turn>, k: nat)
    requires Inv(p) && TurnsPossible(p, woken, turns) && k <= |turns|
    requires forall i :: 0 <= i < k ==>
               FoundAt(p, woken, turns, i).idle == []
               && FoundAt(p, woken, turns, i).currentSize >= FoundAt(p, woken, turns, i).maxSize
    ensures exists run :: Reaches(p, run, FoundAt(p, woken, turns, k))
  {
    assert forall i :: 0 <= i < k ==> Exhausted(FoundAt(p, woken, turns, i));
    hide Inv, TurnsPossible, FoundAt, Exhausted, Reaches;
    ReachesTurn(p, woken, turns, k);
  }

  /** Runs lead where After says. */
  lemma {:induction false} RunsLeadThere(p: Pool, run: seq<Action>, q: Pool)
    requires Reaches(p, run, q)
    ensures q == After(p, run)
    decreases |run|
  {
    hide Enabled, Next;
    if run != [] {
      RunsLeadThere(Next(p, run[0]), run[1..], q);
    }
  }

  lemma MustWaitKeeps(p: Pool, pingOk: bool, made: Option<Handle>)
    ensures Borrow(p, pingOk, made).1 == MustWait ==> Borrow(p, pingOk, made).0 == p
  {
  }

  lemma MadeNext(pool: seq<Handle>, connects: seq<Option<Handle>>, i: nat)
    requires i <= |connects|
    ensures pool + Made(connects[i..]) ==
            if i == |connects| || connects[i].None? then pool else pool + [connects[i].value] + Made(connects[i + 1..])
    ensures i < |connects| ==> connects[..i + 1] == connects[..i] + [connects[i]]
  {
    if i < |connects| {
      assert connects[i..][1..] == connects[i + 1..];
    }
  }

  // ---- The classes

  class MySQLPool {
    var pool: seq<Handle>
    var currentSize: int
    var maxSize: int
    ghost var borrowed: multiset<Handle>
    ghost var asleep: nat
    ghost var woken: nat

    ghost function View(): Pool
      reads this
    {
      Pool(maxSize, currentSize, pool, borrowed, asleep, woken)
    }

    constructor ()
      ensures pool == [] && borrowed == multiset{} && asleep == 0 && woken == 0
    {
      pool, currentSize, maxSize, borrowed, asleep, woken := [], 0, 0, multiset{}, 0, 0;
    }

    /** `connects` is what createConnection would answer, one entry for each round of the loop. */
    method Init(connects: seq<Option<Handle>>, initialSize: int, max: int) returns (ok: bool)
      requires |connects| == AtLeastZero(initialSize)
      modifies this
      ensures View() == Reinit(old(View()), connects, max)
      ensures ok <==> None !in connects
      ensures maxSize == max && old(pool) <= pool && currentSize == |pool| - |old(pool)| <= |connects|
      ensures forall i :: 0 <= i < currentSize ==> connects[i] == Some(pool[|old(pool)| + i])
      ensures currentSize < |connects| ==> connects[currentSize].None?
    {
      MadeIs(connects);
      hide Made;
      maxSize := max;
      currentSize := 0;
      var i := 0;
      ghost var before := pool;
      assert connects[0..] == connects;
      while i < initialSize
        invariant 0 <= i <= |connects| && maxSize == max && currentSize == |pool| - |before|
        invariant borrowed == old(borrowed) && asleep == old(asleep) && woken == old(woken)
        invariant pool + Made(connects[i..]) == before + Made(connects)
        invariant None !in connects[..i]
      {
        MadeNext(pool, connects, i);
        match connects[i] {
          case Some(conn) =>
            pool := pool + [conn];
            currentSize := currentSize + 1;
          case None =>
            return false;
        }
        i := i + 1;
      }
      MadeNext(pool, connects, i);
      assert connects[..i] == connects;
      ok := true;
    }

    /** One turn of getConnection's loop under the lock. */
    method TryBorrow(pingOk: bool, made: Option<Handle>) returns (answer: Answer)
      modifies this
      ensures (View(), answer) == Borrow(old(View()), pingOk, made)
      ensures answer == if old(pool) == [] && old(currentSize) >= old(maxSize) then MustWait
                        else if old(pool) != [] && pingOk then Got(old(pool)[0])
                        else if made.Some? then Got(made.value)
                        else Null
      ensures borrowed == old(borrowed) + if answer.Got? then multiset{answer.h} else multiset{}
      ensures pool == if old(pool) == [] then [] else old(pool)[1..]
    {
      if pool == [] {
        if currentSize < maxSize {
          if made.Some? {
            currentSize := currentSize + 1;
            borrowed := borrowed + multiset{made.value};
            return Got(made.value);
          }
          return Null;
        }
        return MustWait;
      }
      var conn := pool[0];
      pool := pool[1..];
      if !pingOk {
        if made.None? {
          currentSize := currentSize - 1;
          return Null;
        }
        conn := made.value;
      }
      borrowed := borrowed + multiset{conn};
      return Got(conn);
    }

    /** cond_.notify_one, or a spurious wake-up. */
    ghost method NotifyOne()
      modifies this`asleep, this`woken
      ensures View() == WakeOne(old(View()))
    {
      if asleep > 0 {
        asleep := asleep - 1;
        woken := woken + 1;
      }
    }

    method ReleaseConnection(conn: Option<Handle>)
      modifies this
      ensures View() == if conn.Some? then GiveBack(old(View()), conn.value) else old(View())
    {
      if conn.Some? {
        pool := pool + [conn.value];
        borrowed := borrowed - multiset{conn.value};
        NotifyOne();
      }
    }

    /** A woken thread takes its turn, or one that has just called does. */
    ghost method Take(w: bool)
      modifies this`woken
      ensures View() == Took(old(View()), w)
    {
      if w && woken > 0 {
        woken := woken - 1;
      }
    }

    /** What another thread does. */
    method Perform(a: Action)
      modifies this
      ensures View() == Next(old(View()), a)
    {
      match a
      case Get(pingOk, made, w) => var _ := TryBorrow(pingOk, made); Take(w);
      case Sleep(w) => asleep := asleep + 1; Take(w);
      case Return(h) => ReleaseConnection(Some(h));
      case Spurious => NotifyOne();
    }

    /** cond_.wait: the lock is free, and other threads use the pool. */
    method Wait(w: bool, others: seq<Action>)
      requires var p := Next(View(), Sleep(w)); Reaches(p, others, After(p, others))
      modifies this
      ensures View() == After(Next(old(View()), Sleep(w)), others)
    {
      hide Borrow, GiveBack, Reaches, Took;
      asleep := asleep + 1;
      Take(w);
      ghost var p := View();
      assert others[0..] == others;
      for i := 0 to |others|
        invariant After(View(), others[i..]) == After(p, others)
      {
        assert others[i..][0] == others[i] && others[i..][1..] == others[i + 1..];
        Perform(others[i]);
      }
      assert others[|others|..] == [];
    }

    /** The whole of getConnection; the answer is MustWait if it is still waiting after these turns. */
    method GetConnection(turns: seq<Turn>) returns (answer: Answer)
      requires TurnsPossible(View(), false, turns)
      modifies this
      ensures (View(), answer) == AfterTurns(old(View()), false, turns)
      ensures turns != [] && (old(pool) != [] || old(currentSize) < old(maxSize)) ==>
                answer == if old(pool) != [] && turns[0].pingOk then Got(old(pool)[0])
                          else if turns[0].made.Some? then Got(turns[0].made.value)
                          else Null
    {
      hide Borrow, IsFresh, Reaches, Next, After, Took;
      ghost var p := View();
      assert turns[0..] == turns;
      for i := 0 to |turns|
        invariant TurnsPossible(View(), i > 0, turns[i..])
        invariant AfterTurns(View(), i > 0, turns[i..]) == AfterTurns(p, false, turns)
      {
        assert turns[i..][0] == turns[i] && turns[i..][1..] == turns[i + 1..];
        MustWaitKeeps(View(), turns[i].pingOk, turns[i].made);
        answer := TryBorrow(turns[i].pingOk, turns[i].made);
        if answer != MustWait {
          Take(i > 0);
          FirstTurn(p, turns);
          return;
        }
        Wait(i > 0, turns[i].others);
      }
      assert turns[|turns|..] == [];
      answer := MustWait;
      FirstTurn(p, turns);
    }
  }

  class MySQLConnectionGuard {
    const pool: MySQLPool
    const conn: Option<Handle>

    /** Returns once the wait, if any, has ended. */
    constructor (p: MySQLPool, turns: seq<Turn>)
      requires TurnsPossible(p.View(), false, turns) && AfterTurns(p.View(), false, turns).1 != MustWait
      modifies p
      ensures pool == p
      ensures (p.View(), if conn.Some? then Got(conn.value) else Null) == AfterTurns(old(p.View()), false, turns)
      ensures turns != [] && (old(p.pool) != [] || old(p.currentSize) < old(p.maxSize)) ==>
                conn == if old(p.pool) != [] && turns[0].pingOk then Some(old(p.pool)[0]) else turns[0].made
    {
      pool := p;
      var answer := p.GetConnection(turns);
      conn := if answer.Got? then Some(answer.h) else None;
    }

    /** The destructor. */
    method Destroy()
      modifies pool
      ensures pool.View() == if conn.Some? then GiveBack(old(pool.View()), conn.value) else old(pool.View())
    {
      if conn.Some? {
        pool.ReleaseConnection(conn);
      }
    }
  }
}
