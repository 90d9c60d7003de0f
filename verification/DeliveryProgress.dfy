/** What the runs of Delivery are made of, and that none of them is ever stuck: each connection's link runs
    as Transport says, and a broadcast can be brought to its end, and to a client's decoder, from
    wherever it has got to. */
module DeliveryProgress {
  import opened Framing
  import opened Options
  import opened TimerManagement
  import opened Delivery
  import ServerState
  import Lifetime
  import Broadcasts
  import Transport

  // ---- Every link runs as the transport does

  /** What a step of everything is for the link of c. */
  ghost function OnLink(s: State, a: Step, c: ConnId): seq<Transport.Action>
    requires CanStep(s, a)
  {
    match a
    case Base(b) => if TakesMutex(b) && s.removal == Some(c) then [Transport.RemoveEnd] else []
    case BeginRemove(x) => if x == c then [Transport.RemoveBegin] else []
    case Begin(_, _, _) => []
    case Send(j) => if Receiver(s.b, j) == Some(c) then [Transport.WriteAppend(s.texts[j])] else []
    case Answer(x, p) => if x == c then [Transport.WriteAppend(p)] else []
    case Move(x, b) => if x == c then [b] else []
  }

  lemma OneAction(l: Transport.State, a: Transport.Action)
    requires l.client.Valid() && Transport.Enabled(l, a)
    ensures Transport.Reaches(l, [a], Transport.Next(l, a))
  {
    Transport.ReachesFirst(l, a, [], Transport.Next(l, a));
    assert [a] + [] == [a];
  }

  lemma LinkIsValid(s: State, c: ConnId)
    requires LinksInv(s)
    ensures Link(s, c).client.Valid()
  {
    assert LinkInv(Link(s, c), Tags(s, c), s.texts);
  }

  lemma WriteOnLink(s: State, x: ConnId, p: Payload, tag: Tag, c: ConnId)
    requires LinksInv(s) && CanWrite(s, x) && IsText(p)
    ensures Transport.Reaches(Link(s, c), if x == c then [Transport.WriteAppend(p)] else [], Link(Written(s, x, p, tag), c))
  {
    LinkIsValid(s, c);
    if x == c {
      OneAction(Link(s, c), Transport.WriteAppend(p));
    }
  }

  lemma NothingOnLink(l: Transport.State)
    ensures Transport.Reaches(l, [], l)
  {
  }

  lemma BaseOnLink(s: State, b: ServerState.Action, c: ConnId)
    requires LinksInv(s) && Tied(s) && CanStep(s, Base(b))
    ensures Transport.Reaches(Link(s, c), OnLink(s, Base(b), c), Link(Do(s, Base(b)), c))
  {
    BaseIs(s, b);
    LinkIsValid(s, c);
    if TakesMutex(b) && s.removal.Some? {
      EndLinks(s, s.removal.value);
      if s.removal == Some(c) {
        OneAction(Link(s, c), Transport.RemoveEnd);
      }
    }
    hide CanStep, Do, LinksInv, EndRemoval, Transport.Reaches;
    if !(TakesMutex(b) && s.removal == Some(c)) {
      NothingOnLink(Link(s, c));
    }
  }

  lemma RemoveOnLink(s: State, x: ConnId, c: ConnId)
    requires LinksInv(s) && Tied(s) && ServerState.Inv(s.b.server) && CanStep(s, BeginRemove(x))
    ensures Transport.Reaches(Link(s, c), OnLink(s, BeginRemove(x), c), Link(Do(s, BeginRemove(x)), c))
  {
    RegisteredIsKnown(s.b.server, x);
    LinkIsValid(s, c);
    StartLinks(s, x);
    if x == c {
      OneAction(Link(s, c), Transport.RemoveBegin);
    }
    hide ServerState.Inv, LinksInv, StartRemoval;
  }

  lemma SendOnLink(s: State, j: nat, c: ConnId)
    requires LinksInv(s) && CanStep(s, Send(j))
    ensures Transport.Reaches(Link(s, c), OnLink(s, Send(j), c), Link(Do(s, Send(j)), c))
  {
    if Receiver(s.b, j).Some? {
      WriteOnLink(s, Receiver(s.b, j).value, s.texts[j], Some(j), c);
    } else {
      NothingOnLink(Link(s, c));
    }
    hide LinksInv, Broadcasts.Do, Broadcasts.CanStep, Written, IsText, CanWrite, Transport.Reaches;
  }

  lemma AnswerOnLink(s: State, x: ConnId, p: Payload, c: ConnId)
    requires LinksInv(s) && CanStep(s, Answer(x, p))
    ensures Transport.Reaches(Link(s, c), OnLink(s, Answer(x, p), c), Link(Do(s, Answer(x, p)), c))
  {
    WriteOnLink(s, x, p, None, c);
    hide LinksInv, Written, IsText, CanWrite, Transport.Reaches;
  }

  lemma MoveOnLink(s: State, x: ConnId, b: Transport.Action, c: ConnId)
    requires CanStep(s, Move(x, b))
    ensures Transport.Reaches(Link(s, c), OnLink(s, Move(x, b), c), Link(Do(s, Move(x, b)), c))
  {
    if x == c {
      OneAction(Link(s, c), b);
    } else {
      NothingOnLink(Link(s, c));
    }
    hide Transport.Next, Transport.Enabled, Transport.Reaches;
  }

  lemma BeginOnLink(s: State, x: ConnId, targets: seq<Fd>, text: Payload, c: ConnId)
    requires CanStep(s, Begin(x, targets, text))
    ensures Transport.Reaches(Link(s, c), OnLink(s, Begin(x, targets, text), c), Link(Do(s, Begin(x, targets, text)), c))
  {
    NothingOnLink(Link(s, c));
    hide Broadcasts.Do, Broadcasts.CanStep, IsText, Transport.Reaches;
  }

  /** A step of everything is, for each link, at most one step of the transport. */
  lemma StepOnLink(s: State, a: Step, c: ConnId)
    requires Inv(s) && CanStep(s, a)
    ensures Transport.Reaches(Link(s, c), OnLink(s, a, c), Link(Do(s, a), c))
  {
    hide Inv, LinksInv, Tied, Counted, ServerState.Inv, CanStep, Do, OnLink, Link, Transport.Reaches;
    InvParts(s);
    match a
    case Base(b) => BaseOnLink(s, b, c);
    case BeginRemove(x) => RemoveOnLink(s, x, c);
    case Begin(x, targets, text) => BeginOnLink(s, x, targets, text, c);
    case Send(j) => SendOnLink(s, j, c);
    case Answer(x, p) => AnswerOnLink(s, x, p, c);
    case Move(x, b) => MoveOnLink(s, x, b, c);
  }

  ghost function RunOnLink(s: State, run: seq<Step>, t: State, c: ConnId): seq<Transport.Action>
    requires Reachable(s, run, t)
    decreases |run|
  {
    if run == [] then [] else OnLink(s, run[0], c) + RunOnLink(Do(s, run[0]), run[1..], t, c)
  }

  lemma {:induction false} RunsOnLink(s: State, run: seq<Step>, t: State, c: ConnId)
    requires Inv(s) && Reachable(s, run, t)
    ensures Transport.Reaches(Link(s, c), RunOnLink(s, run, t, c), Link(t, c))
    decreases |run|
  {
    hide Inv, CanStep, Do, OnLink, Transport.Reaches, Link;
    if run == [] {
      NothingOnLink(Link(s, c));
    } else {
      var u := Do(s, run[0]);
      StepKeeps(s, run[0]);
      StepOnLink(s, run[0], c);
      RunsOnLink(u, run[1..], t, c);
      Transport.ReachesThen(Link(s, c), OnLink(s, run[0], c), Link(u, c), RunOnLink(u, run[1..], t, c), Link(t, c));
    }
  }

  /** Of every run of everything, what falls to one connection is a run of its transport: what was queued
      for it is what was sent, answered or broadcast to it, and all that Transport says holds. */
  lemma LinksAreTransports(run: seq<Step>, t: State, c: ConnId)
    requires Reachable(START, run, t)
    ensures Transport.Reaches(Transport.INIT, RunOnLink(START, run, t, c), Link(t, c))
    ensures Link(t, c).queued == Transport.WrittenIn(RunOnLink(START, run, t, c))
  {
    StartKeeps();
    hide Inv, Reachable, RunOnLink, Transport.Reaches;
    RunsOnLink(START, run, t, c);
    var actions := RunOnLink(START, run, t, c);
    Transport.WrittenIsQueued(Transport.INIT, actions, Link(t, c));
    assert [] + Transport.WrittenIn(actions) == Transport.WrittenIn(actions);
  }

  // ---- Nothing is ever stuck

  lemma {:induction false} ReachableThen(s: State, run: seq<Step>, t: State, run': seq<Step>, u: State)
    requires Reachable(s, run, t) && Reachable(t, run', u)
    ensures Reachable(s, run + run', u)
    decreases |run|
  {
    hide CanStep, Do;
    if run == [] {
      assert run + run' == run';
    } else {
      ReachableThen(Do(s, run[0]), run[1..], t, run', u);
      assert (run + run')[1..] == run[1..] + run';
    }
  }

  lemma ReachableFirst(s: State, a: Step, run: seq<Step>, t: State)
    requires CanStep(s, a) && Reachable(Do(s, a), run, t)
    ensures Reachable(s, [a] + run, t)
  {
    hide CanStep, Do;
    assert ([a] + run)[1..] == run;
  }

  lemma NoStep(s: State)
    ensures Reachable(s, [], s)
  {
  }

  /** Only c's link differs. */
  ghost predicate MovedOnly(s: State, t: State, c: ConnId) {
    t.b == s.b && t.texts == s.texts && t.tags == s.tags && t.removal == s.removal
    && forall d :: d != c ==> Link(t, d) == Link(s, d)
  }

  lemma MoveIs(s: State, c: ConnId, a: Transport.Action)
    requires c < s.b.server.nextId && !a.WriteAppend? && !a.RemoveBegin? && !a.RemoveEnd?
    requires Link(s, c).client.Valid() && Transport.Enabled(Link(s, c), a)
    ensures CanStep(s, Move(c, a))
    ensures MovedOnly(s, Do(s, Move(c, a)), c) && Link(Do(s, Move(c, a)), c) == Transport.Next(Link(s, c), a)
  {
    hide Transport.Next, Transport.Enabled;
  }

  /** Whatever c's transport can do by itself can be done here. */
  lemma {:induction false} LinkFlows(s: State, c: ConnId, run: seq<Transport.Action>, l: Transport.State)
    returns (moves: seq<Step>, t: State)
    requires c < s.b.server.nextId && Transport.Flows(run) && Transport.Reaches(Link(s, c), run, l)
    ensures Reachable(s, moves, t) && MovedOnly(s, t, c) && Link(t, c) == l
    decreases |run|
  {
    hide CanStep, Do, Link, Transport.Next, Transport.Enabled;
    if run == [] {
      moves, t := [], s;
    } else {
      assert run[0] in run;
      MoveIs(s, c, run[0]);
      var u := Do(s, Move(c, run[0]));
      var rest;
      rest, t := LinkFlows(u, c, run[1..], l);
      moves := [Move(c, run[0])] + rest;
      ReachableFirst(s, Move(c, run[0]), rest, t);
    }
  }

  /** Somebody who has c's out_mutex gives it back. */
  lemma MutexFreed(s: State, c: ConnId) returns (moves: seq<Step>, t: State)
    requires Inv(s) && c < s.b.server.nextId
    ensures Reachable(s, moves, t) && MovedOnly(s, t, c) && CanWrite(t, c)
  {
    InvParts(s);
    LinkIsValid(s, c);
    var run, l := Transport.Unlock(Link(s, c));
    hide Inv, LinksInv, Tied, Counted, ServerState.Inv, Transport.Reaches, Link;
    moves, t := LinkFlows(s, c, run, l);
  }

  lemma SendIs(s: State, j: nat)
    requires Inv(s) && s.removal.None? && j < |s.b.jobs| && s.b.jobs[j].todo != []
    requires Receiver(s.b, j).Some? ==> CanWrite(s, Receiver(s.b, j).value)
    ensures CanStep(s, Send(j))
    ensures var t := Do(s, Send(j));
            t.b.server == s.b.server && |t.b.jobs| == |s.b.jobs| && t.b.jobs[j].todo == s.b.jobs[j].todo[1..]
            && t.removal == s.removal
  {
    InvParts(s);
    assert j < |s.texts| && IsText(s.texts[j]);
    Broadcasts.SendIsNext(s.b, j);
    hide Inv, LinksInv, Tied, Counted, ServerState.Inv, Broadcasts.CanStep, Broadcasts.Do, CanWrite, IsText;
  }

  lemma ReceiverKnown(s: State, j: nat)
    requires Inv(s) && j < |s.b.jobs| && s.b.jobs[j].todo != []
    ensures Receiver(s.b, j).Some? ==> Receiver(s.b, j).value < s.b.server.nextId
  {
    InvParts(s);
    hide Inv, ServerState.Inv;
    ReceiverIsKnown(s.b, j);
  }

  /** The sends of a broadcast that are still to come can all be made. */
  lemma {:induction false} SendsRemaining(s: State, j: nat) returns (run: seq<Step>, t: State)
    requires Inv(s) && s.removal.None? && j < |s.b.jobs|
    ensures Reachable(s, run, t) && Inv(t)
    ensures t.b.server == s.b.server && |t.b.jobs| == |s.b.jobs| && t.b.jobs[j].todo == [] && t.removal.None?
    decreases |s.b.jobs[j].todo|
  {
    hide Inv, CanStep, Do, CanWrite, Receiver;
    if s.b.jobs[j].todo == [] {
      run, t := [], s;
    } else {
      var moves, u := [], s;
      if Receiver(s.b, j).Some? {
        ReceiverKnown(s, j);
        moves, u := MutexFreed(s, Receiver(s.b, j).value);
        RunKeeps(s, moves, u);
      }
      SendIs(u, j);
      StepKeeps(u, Send(j));
      var rest;
      rest, t := SendsRemaining(Do(u, Send(j)), j);
      ReachableFirst(u, Send(j), rest, t);
      run := moves + ([Send(j)] + rest);
      ReachableThen(s, moves, u, [Send(j)] + rest, t);
    }
  }

  lemma LockFacts(v: ServerState.Server, x: ConnId)
    requires ServerState.Inv(v) && ServerState.Registered(v, x)
    ensures ServerState.Enabled(v, ServerState.Lock(x))
    ensures var w := ServerState.Next(v, ServerState.Lock(x));
            w == v.(holders := v.holders + multiset{x}) && ServerState.Enabled(w, ServerState.Close(x))
  {
    hide ServerState.Inv;
  }

  lemma CloseFacts(v: ServerState.Server, x: ConnId)
    requires ServerState.Inv(v) && ServerState.Registered(v, x) && ServerState.Enabled(v, ServerState.Close(x))
    ensures var w := ServerState.Next(v, ServerState.Close(x));
            (forall d :: ServerState.Registered(w, d) <==> ServerState.Registered(v, d) && d != x)
            && w.collected == v.collected && w.holders == v.holders && Removed(v, w) == Some(x)
  {
    Lifetime.RemoveOwn(v, x);
    hide ServerState.Inv, ServerState.RemoveClient, ServerState.Registered;
  }

  /** The server does its part; nothing else is looked at. */
  lemma BaseMoves(s: State, b: ServerState.Action)
    requires ServerState.Enabled(s.b.server, b)
    requires var v, w := s.b.server, ServerState.Next(s.b.server, b);
             w.collected == v.collected && v.holders <= w.holders && (TakesMutex(b) ==> s.removal == Removed(v, w))
    requires Broadcasts.SendersHeld(s.b.server, s.b.jobs)
    ensures CanStep(s, Base(b))
    ensures var t := Do(s, Base(b));
            t.b.server == ServerState.Next(s.b.server, b) && t.b.jobs == s.b.jobs
            && t.removal == if TakesMutex(b) then None else s.removal
  {
    hide ServerState.Next, ServerState.Enabled;
  }

  lemma SendersAreHeld(s: State)
    requires Inv(s)
    ensures Broadcasts.SendersHeld(s.b.server, s.b.jobs)
  {
    hide LinksInv, Counted, Tied, ServerState.Inv, Broadcasts.JobsInv;
  }

  lemma RemovedIsRegistered(s: State)
    requires Inv(s)
    ensures s.removal.Some? ==> ServerState.Registered(s.b.server, s.removal.value)
  {
    InvParts(s);
    hide Inv, LinksInv, Counted, ServerState.Inv, ServerState.Registered;
  }

  lemma SameRegistered(v: ServerState.Server, x: ConnId)
    requires ServerState.Enabled(v, ServerState.Lock(x))
    ensures forall d :: ServerState.Registered(ServerState.Next(v, ServerState.Lock(x)), d) <==> ServerState.Registered(v, d)
  {
  }

  /** Somebody takes an owner of x. */
  lemma HoldsIt(s: State, x: ConnId)
    requires Inv(s) && s.removal == Some(x)
    ensures CanStep(s, Base(ServerState.Lock(x)))
    ensures var t := Do(s, Base(ServerState.Lock(x)));
            Inv(t) && t.removal == s.removal && t.b.jobs == s.b.jobs
            && ServerState.Enabled(t.b.server, ServerState.Close(x))
            && forall d :: ServerState.Registered(t.b.server, d) <==> ServerState.Registered(s.b.server, d)
  {
    hide Inv, CanStep, Do, ServerState.Inv, ServerState.Enabled, ServerState.Next, ServerState.Registered, Removed,
      Broadcasts.SendersHeld;
    InvParts(s);
    SendersAreHeld(s);
    RemovedIsRegistered(s);
    LockFacts(s.b.server, x);
    SameRegistered(s.b.server, x);
    BaseMoves(s, ServerState.Lock(x));
    StepKeeps(s, Base(ServerState.Lock(x)));
  }

  /** And finishes its removal. */
  lemma ClosesIt(s: State, x: ConnId)
    requires Inv(s) && s.removal == Some(x) && ServerState.Enabled(s.b.server, ServerState.Close(x))
    ensures CanStep(s, Base(ServerState.Close(x)))
    ensures var t := Do(s, Base(ServerState.Close(x)));
            Inv(t) && t.removal.None? && t.b.jobs == s.b.jobs
            && forall d :: ServerState.Registered(t.b.server, d) <==> ServerState.Registered(s.b.server, d) && d != x
  {
    hide Inv, CanStep, Do, ServerState.Inv, ServerState.Enabled, ServerState.Next, ServerState.Registered, Removed,
      Broadcasts.SendersHeld;
    InvParts(s);
    SendersAreHeld(s);
    RemovedIsRegistered(s);
    CloseFacts(s.b.server, x);
    BaseMoves(s, ServerState.Close(x));
    StepKeeps(s, Base(ServerState.Close(x)));
  }

  /** A removal that has begun can come to its end. */
  lemma RemovalEnds(s: State) returns (run: seq<Step>, t: State)
    requires Inv(s)
    ensures Reachable(s, run, t) && Inv(t) && t.removal.None? && t.b.jobs == s.b.jobs
    ensures forall d: ConnId :: ServerState.Registered(t.b.server, d) <==>
                                  ServerState.Registered(s.b.server, d) && s.removal != Some(d)
  {
    hide Inv, CanStep, Do, ServerState.Enabled, ServerState.Registered;
    if s.removal.None? {
      run, t := [], s;
    } else {
      var x := s.removal.value;
      HoldsIt(s, x);
      var u := Do(s, Base(ServerState.Lock(x)));
      ClosesIt(u, x);
      t := Do(u, Base(ServerState.Close(x)));
      NoStep(t);
      ReachableFirst(u, Base(ServerState.Close(x)), [], t);
      ReachableFirst(s, Base(ServerState.Lock(x)), [Base(ServerState.Close(x))] + [], t);
      run := [Base(ServerState.Lock(x))] + ([Base(ServerState.Close(x))] + []);
    }
  }

  /** What c's link has under way gets to its client. */
  lemma LinkEmpties(s: State, c: ConnId) returns (moves: seq<Step>, t: State)
    requires Inv(s) && c < s.b.server.nextId
    ensures Reachable(s, moves, t) && MovedOnly(s, t, c)
    ensures Link(t, c).output == [] && Link(t, c).flight == [] && Link(t, c).client.Valid() && Link(t, c).client.Settled()
  {
    InvParts(s);
    LinkIsValid(s, c);
    var run, l := Transport.EverythingFlows(Link(s, c));
    hide Inv, LinksInv, Tied, Counted, ServerState.Inv, Transport.Reaches, Link;
    moves, t := LinkFlows(s, c, run, l);
  }

  lemma ReceivedAll(s: State, c: ConnId)
    requires Inv(s) && Link(s, c).output == [] && Link(s, c).flight == [] && Link(s, c).client.Settled()
    ensures Link(s, c).client.received == Link(s, c).queued
  {
    InvParts(s);
    AllDecode(s);
    assert Decodes(Link(s, c));
    hide Inv, LinksInv, Tied, Counted;
  }

  lemma TagHasIndex(tags: seq<Tag>, tag: Tag)
    requires multiset(tags)[tag] == 1
    ensures exists i :: 0 <= i < |tags| && tags[i] == tag
  {
    assert tag in multiset(tags);
  }

  /** A handler that holds its Connection can begin a broadcast whenever m_mutex is free. */
  lemma BeginIsPossible(s: State, sender: ConnId, text: Payload) returns (targets: seq<Fd>)
    requires s.removal.None? && 0 < |text| <= 0xFFFF_FFFB && sender in s.b.server.live
    requires s.b.server.holders[sender] > multiset(s.b.server.collected)[sender]
    ensures CanStep(s, Begin(sender, targets, text))
  {
    targets := Broadcasts.SnapshotIsPossible(s.b, sender);
    hide Broadcasts.CanStep;
  }

  /** The removal of any registered connection can begin whenever m_mutex is free, and then end. */
  lemma RemovalIsPossible(s: State, c: ConnId) returns (run: seq<Step>, t: State)
    requires Inv(s) && s.removal.None? && ServerState.Registered(s.b.server, c)
    ensures CanStep(s, BeginRemove(c)) && Reachable(Do(s, BeginRemove(c)), run, t) && t.removal.None?
    ensures forall d: ConnId :: ServerState.Registered(t.b.server, d) <==> ServerState.Registered(s.b.server, d) && d != c
  {
    hide Inv, Reachable, ServerState.Registered;
    var u := Do(s, BeginRemove(c));
    assert u.removal == Some(c) && u.b == s.b;
    StepKeeps(s, BeginRemove(c));
    run, t := RemovalEnds(u);
  }

  /** And answer whenever the out_mutex is free. */
  lemma AnswerIsPossible(s: State, c: ConnId, p: Payload)
    requires 0 < |p| <= 0xFFFF_FFFB && c in s.b.server.live && c in s.b.server.holders
    requires Link(s, c).outMutex.Free?
    ensures CanStep(s, Answer(c, p))
  {
  }

  /** Wherever a broadcast has got to, and whatever else is going on: whoever has been registered since it
      began, and is not just being removed, can still get it, and then its client has decoded exactly what
      was queued for it, with the text of the broadcast in it once. */
  lemma BroadcastCanReach(before: seq<Step>, s: State, sender: ConnId, targets: seq<Fd>, text: Payload,
                          after: seq<Step>, t: State, c: ConnId) returns (more: seq<Step>, u: State, i: nat)
    requires Reachable(START, before, s) && CanStep(s, Begin(sender, targets, text))
    requires Reachable(Do(s, Begin(sender, targets, text)), after, t)
    requires c != sender && c in s.b.server.live && ServerState.Registered(s.b.server, c)
    requires ServerState.Registered(t.b.server, c) && t.removal != Some(c)
    ensures Reachable(t, more, u) && ServerState.Registered(u.b.server, c)
    ensures Link(u, c).client.received == Link(u, c).queued
    ensures i < |Link(u, c).client.received| && Link(u, c).client.received[i] == text
    ensures i < |Tags(u, c)| && Tags(u, c)[i] == Some(|s.texts|) && multiset(Tags(u, c))[Some(|s.texts|)] == 1
  {
    hide Inv, CanStep, Do, Link, Tags, ServerState.Registered, Reachable;
    StartKeeps();
    RunKeeps(START, before, s);
    StepKeeps(s, Begin(sender, targets, text));
    RunKeeps(Do(s, Begin(sender, targets, text)), after, t);
    BroadcastIsDecodedOnce(before, s, sender, targets, text, after, t);
    var j := |s.texts|;
    var run1, t1 := RemovalEnds(t);
    var run2, t2 := SendsRemaining(t1, j);
    InvParts(t2);
    RegisteredIsKnown(t2.b.server, c);
    var run3, t3 := LinkEmpties(t2, c);
    RunKeeps(t2, run3, t3);
    ReceivedAll(t3, c);
    u := t3;
    ReachableThen(t, run1, t1, run2, t2);
    ReachableThen(t, run1 + run2, t2, run3, u);
    more := run1 + run2 + run3;
    ReachableThen(Do(s, Begin(sender, targets, text)), after, t, more, u);
    BroadcastIsDecodedOnce(before, s, sender, targets, text, after + more, u);
    TagHasIndex(Tags(u, c), Some(j));
    i :| 0 <= i < |Tags(u, c)| && Tags(u, c)[i] == Some(j);
  }
}
