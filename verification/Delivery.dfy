/** Broadcasts on top of the transport: every connection has its own output buffer, network and client
    decoder, and the packets of several broadcasts and of the handlers' own answers meet there. */
module Delivery {
  import opened Framing
  import opened Options
  import opened ServerDecoder
  import ClientDecoder
  import opened TimerManagement
  import ServerState
  import Lifetime
  import Broadcasts
  import Transport

  type Tag = Option<nat>   // the broadcast a packet belongs to, None for an answer

  /** `texts[j]` is the text of broadcast j; `tags[c]` says what each packet queued for c is; `removal`
      is the connection that removeClient, holding m_mutex, is just taking out. */
  datatype State = State(
    b: Broadcasts.State,
    texts: seq<Payload>,
    links: map<ConnId, Transport.State>,
    tags: map<ConnId, seq<Tag>>,
    removal: Option<ConnId>
  )

  const START := State(Broadcasts.START, [], map[], map[], None)

  datatype Step =
    | Base(b: ServerState.Action)                             // a step of the server; it ends a removal
    | BeginRemove(c: ConnId)                                  // removeClient: disableWriting
    | Begin(sender: ConnId, targets: seq<Fd>, text: Payload)  // collect the targets of a new broadcast
    | Send(j: nat)                                            // its next target
    | Answer(c: ConnId, p: Payload)                           // write_data by a handler, out_mutex taken
    | Move(c: ConnId, a: Transport.Action)                    // the rest of c's transport

  function Link(s: State, c: ConnId): Transport.State {
    if c in s.links then s.links[c] else Transport.INIT
  }

  function Tags(s: State, c: ConnId): seq<Tag> {
    if c in s.tags then s.tags[c] else []
  }

  /** Whom the next lookup of broadcast j finds. */
  function Receiver(b: Broadcasts.State, j: nat): Option<ConnId>
    requires j < |b.jobs| && b.jobs[j].todo != []
  {
    var fd := b.jobs[j].todo[0];
    if fd in b.server.registered then Some(b.server.registered[fd]) else None
  }

  /** Texts are dumped JSON objects, never empty, that fit the 32-bit sums. */
  predicate IsText(p: Payload) {
    0 < |p| <= MAX_SERVER_FRAME
  }

  /** The steps that hold m_mutex. */
  predicate TakesMutex(a: ServerState.Action) {
    a.Register? || a.Refresh? || a.Close? || a.Collect? || a.TickRemove?
  }

  /** Whom the step from s to t takes out of m_connections. */
  function Removed(s: ServerState.Server, t: ServerState.Server): Option<ConnId> {
    if |t.disconnects| > |s.disconnects| then Some(t.disconnects[|s.disconnects|]) else None
  }

  /** c's out_mutex is free for a write. */
  predicate CanWrite(s: State, c: ConnId) {
    Link(s, c).outMutex.Free?
  }

  ghost predicate CanStep(s: State, a: Step) {
    match a
    case Base(b) =>
      Broadcasts.CanStep(s.b, Broadcasts.Base(b))
      && (TakesMutex(b) ==> s.removal == Removed(s.b.server, ServerState.Next(s.b.server, b)))
    case BeginRemove(c) => s.removal.None? && ServerState.Registered(s.b.server, c)
    case Begin(c, targets, text) =>
      s.removal.None? && Broadcasts.CanStep(s.b, Broadcasts.Snapshot(c, targets)) && IsText(text)
    case Send(j) =>
      s.removal.None? && Broadcasts.CanStep(s.b, Broadcasts.SendNext(j)) && j < |s.texts| && IsText(s.texts[j])
      && (Receiver(s.b, j).Some? ==> CanWrite(s, Receiver(s.b, j).value))
    case Answer(c, p) => c in s.b.server.live && c in s.b.server.holders && CanWrite(s, c) && IsText(p)
    case Move(c, a) =>
      c < s.b.server.nextId && !a.WriteAppend? && !a.RemoveBegin? && !a.RemoveEnd?
      && Link(s, c).client.Valid() && Transport.Enabled(Link(s, c), a)
  }

  /** The packet is appended to c's output buffer; WriteArm follows as a step of the transport. */
  function Written(s: State, c: ConnId, p: Payload, tag: Tag): State {
    var link := Link(s, c);
    s.(links := s.links[c := link.(queued := link.queued + [p], output := link.output + Packet(p), outMutex := Transport.Writer)],
       tags := s.tags[c := Tags(s, c) + [tag]])
  }

  /** RemoveBegin and RemoveEnd of the transport. */
  function StartRemoval(s: State, c: ConnId): State {
    s.(links := s.links[c := Link(s, c).(writing := false, removing := true)], removal := Some(c))
  }

  function EndRemoval(s: State, c: ConnId): State {
    s.(links := s.links[c := Link(s, c).(registered := false, removing := false)], removal := None)
  }

  ghost function Do(s: State, a: Step): State
    requires CanStep(s, a)
  {
    match a
    case Base(b) =>
      var t := if TakesMutex(b) && s.removal.Some? then EndRemoval(s, s.removal.value) else s;
      t.(b := Broadcasts.Do(s.b, Broadcasts.Base(b)))
    case BeginRemove(c) => StartRemoval(s, c)
    case Begin(c, targets, text) => s.(b := Broadcasts.Do(s.b, Broadcasts.Snapshot(c, targets)), texts := s.texts + [text])
    case Send(j) =>
      var t := if Receiver(s.b, j).Some? then Written(s, Receiver(s.b, j).value, s.texts[j], Some(j)) else s;
      t.(b := Broadcasts.Do(s.b, Broadcasts.SendNext(j)))
    case Answer(c, p) => Written(s, c, p, None)
    case Move(c, a) => s.(links := s.links[c := Transport.Next(Link(s, c), a)])
  }

  ghost predicate Reachable(s: State, run: seq<Step>, t: State)
    decreases |run|
  {
    if run == [] then s == t else CanStep(s, run[0]) && Reachable(Do(s, run[0]), run[1..], t)
  }

  // ---- The broadcasts of a run

  function Shadow(a: Step): seq<Broadcasts.Step> {
    match a
    case Base(b) => [Broadcasts.Base(b)]
    case Begin(c, targets, _) => [Broadcasts.Snapshot(c, targets)]
    case Send(j) => [Broadcasts.SendNext(j)]
    case _ => []
  }

  function Shadows(run: seq<Step>): seq<Broadcasts.Step> {
    if run == [] then [] else Shadow(run[0]) + Shadows(run[1..])
  }

  lemma ShadowStep(s: State, a: Step)
    requires CanStep(s, a)
    ensures if Shadow(a) == [] then Do(s, a).b == s.b
            else Broadcasts.CanStep(s.b, Shadow(a)[0]) && Do(s, a).b == Broadcasts.Do(s.b, Shadow(a)[0])
  {
    hide Broadcasts.Do, ServerState.Enabled, Broadcasts.SendersHeld, Broadcasts.IsTargetList, IsText, Transport.Next, Transport.Enabled;
  }

  lemma {:induction false} ShadowReaches(s: State, run: seq<Step>, t: State)
    requires Reachable(s, run, t)
    ensures Broadcasts.Reachable(s.b, Shadows(run), t.b)
    decreases |run|
  {
    hide CanStep, Do, Broadcasts.CanStep, Broadcasts.Do;
    if run != [] {
      ShadowStep(s, run[0]);
      ShadowReaches(Do(s, run[0]), run[1..], t);
      var first, rest := Shadow(run[0]), Shadows(run[1..]);
      if first == [] {
        assert first + rest == rest;
      } else {
        assert (first + rest)[0] == first[0] && (first + rest)[1..] == rest;
      }
    }
  }

  // ---- One connection

  ghost predicate Labelled(queued: seq<Payload>, tags: seq<Tag>, texts: seq<Payload>) {
    |tags| == |queued|
    && forall i :: 0 <= i < |tags| ==>
         IsText(queued[i]) && (tags[i].Some? ==> tags[i].value < |texts| && queued[i] == texts[tags[i].value])
  }

  ghost predicate LinkInv(link: Transport.State, tags: seq<Tag>, texts: seq<Payload>) {
    Transport.Inv(link) && Labelled(link.queued, tags, texts)
  }

  ghost predicate LinksInv(s: State) {
    (forall c :: LinkInv(Link(s, c), Tags(s, c), s.texts))
    && forall j :: 0 <= j < |s.texts| ==> IsText(s.texts[j])
  }

  /** m_connections and the transports agree on who is registered and who is being removed. */
  ghost predicate Tied(s: State) {
    (forall c: ConnId :: c < s.b.server.nextId ==> (Link(s, c).registered <==> ServerState.Registered(s.b.server, c)))
    && (forall c: ConnId :: c >= s.b.server.nextId ==> c !in s.links)
    && (forall c: ConnId :: Link(s, c).removing <==> s.removal == Some(c))
    && (s.removal.Some? ==> ServerState.Registered(s.b.server, s.removal.value) && s.removal.value < s.b.server.nextId)
  }

  /** As many packets of broadcast j are queued for c as the broadcast has counted. */
  ghost predicate Counted(s: State) {
    (forall c: ConnId, j: nat :: multiset(Tags(s, c))[Some(j)] == Broadcasts.Sent(s.b.sent, j, c))
    && |s.texts| == |s.b.jobs|
  }

  lemma WriteLink(link: Transport.State, tags: seq<Tag>, texts: seq<Payload>, p: Payload, tag: Tag)
    requires LinkInv(link, tags, texts) && link.outMutex.Free? && IsText(p)
    requires tag.Some? ==> tag.value < |texts| && p == texts[tag.value]
    ensures LinkInv(link.(queued := link.queued + [p], output := link.output + Packet(p), outMutex := Transport.Writer),
                    tags + [tag], texts)
  {
    Transport.StepPreserves(link, Transport.WriteAppend(p));
    hide Transport.Inv, Packet;
  }

  lemma MoveLink(link: Transport.State, tags: seq<Tag>, texts: seq<Payload>, a: Transport.Action)
    requires LinkInv(link, tags, texts) && link.client.Valid() && Transport.Enabled(link, a) && !a.WriteAppend?
    ensures LinkInv(Transport.Next(link, a), tags, texts)
  {
    Transport.StepPreserves(link, a);
    hide Transport.Inv, Labelled;
  }

  lemma WrittenLinks(s: State, c: ConnId, p: Payload, tag: Tag)
    requires LinksInv(s) && CanWrite(s, c) && IsText(p)
    requires tag.Some? ==> tag.value < |s.texts| && p == s.texts[tag.value]
    ensures LinksInv(Written(s, c, p, tag))
  {
    hide LinkInv, IsText;
    WriteLink(Link(s, c), Tags(s, c), s.texts, p, tag);
    var t := Written(s, c, p, tag);
    forall d
      ensures LinkInv(Link(t, d), Tags(t, d), t.texts)
    {
      if d != c {
        assert Link(t, d) == Link(s, d) && Tags(t, d) == Tags(s, d);
      }
    }
  }

  lemma MovedLinks(s: State, c: ConnId, a: Transport.Action)
    requires LinksInv(s) && CanStep(s, Move(c, a))
    ensures LinksInv(Do(s, Move(c, a)))
  {
    hide LinkInv, IsText, Transport.Next, Transport.Enabled;
    assert LinkInv(Link(s, c), Tags(s, c), s.texts);
    MoveLink(Link(s, c), Tags(s, c), s.texts, a);
    var t := Do(s, Move(c, a));
    forall d
      ensures LinkInv(Link(t, d), Tags(t, d), t.texts)
    {
      if d != c {
        assert Link(t, d) == Link(s, d) && Tags(t, d) == Tags(s, d);
      }
    }
  }

  lemma MoreTexts(s: State, t: State, text: Payload)
    requires LinksInv(s) && IsText(text) && t.links == s.links && t.tags == s.tags && t.texts == s.texts + [text]
    ensures LinksInv(t)
  {
    hide Transport.Inv, IsText;
    assert forall c :: Link(t, c) == Link(s, c) && Tags(t, c) == Tags(s, c);
  }

  lemma WrittenTexts(s: State, c: ConnId, p: Payload, tag: Tag)
    ensures Written(s, c, p, tag).texts == s.texts && Written(s, c, p, tag).b == s.b && Written(s, c, p, tag).removal == s.removal
  {
  }

  lemma SameLinks(s: State, t: State)
    requires LinksInv(s) && t.links == s.links && t.tags == s.tags && t.texts == s.texts
    ensures LinksInv(t)
  {
    hide LinkInv, IsText;
    assert forall c :: Link(t, c) == Link(s, c) && Tags(t, c) == Tags(s, c);
  }

  lemma OneLink(s: State, t: State, c: ConnId)
    requires LinksInv(s) && t.tags == s.tags && t.texts == s.texts
    requires (forall d :: d != c ==> Link(t, d) == Link(s, d)) && LinkInv(Link(t, c), Tags(s, c), s.texts)
    ensures LinksInv(t)
  {
    hide LinkInv, IsText;
    assert forall d :: Tags(t, d) == Tags(s, d);
  }

  lemma RemovalLinks(s: State, c: ConnId)
    requires LinksInv(s)
    ensures Link(s, c).registered && !Link(s, c).removing ==> LinksInv(StartRemoval(s, c))
    ensures Link(s, c).removing ==> LinksInv(EndRemoval(s, c))
  {
    var link := Link(s, c);
    assert LinkInv(link, Tags(s, c), s.texts);
    if link.registered && !link.removing {
      MoveLink(link, Tags(s, c), s.texts, Transport.RemoveBegin);
      OneLink(s, StartRemoval(s, c), c);
    }
    if link.removing {
      MoveLink(link, Tags(s, c), s.texts, Transport.RemoveEnd);
      OneLink(s, EndRemoval(s, c), c);
    }
  }

  lemma StepLinks(s: State, a: Step)
    requires LinksInv(s) && Tied(s) && CanStep(s, a)
    ensures LinksInv(Do(s, a)) && s.texts <= Do(s, a).texts
  {
    hide LinkInv, Broadcasts.Do, Broadcasts.IsTargetList, Broadcasts.SendersHeld, IsText, Transport.Next, Transport.Enabled,
      Written, LinksInv, ServerState.Registered;
    match a
    case Base(b) =>
      if TakesMutex(b) && s.removal.Some? {
        RemovalLinks(s, s.removal.value);
        SameLinks(EndRemoval(s, s.removal.value), Do(s, a));
      } else {
        SameLinks(s, Do(s, a));
      }
    case BeginRemove(c) => RemovalLinks(s, c);
    case Begin(_, _, text) => MoreTexts(s, Do(s, a), text);
    case Send(j) =>
      if Receiver(s.b, j).Some? {
        var t := Written(s, Receiver(s.b, j).value, s.texts[j], Some(j));
        WrittenLinks(s, Receiver(s.b, j).value, s.texts[j], Some(j));
        WrittenTexts(s, Receiver(s.b, j).value, s.texts[j], Some(j));
        SameLinks(t, Do(s, a));
      } else {
        SameLinks(s, Do(s, a));
      }
    case Answer(c, p) => WrittenLinks(s, c, p, None); WrittenTexts(s, c, p, None);
    case Move(c, b) => MovedLinks(s, c, b);
  }

  // ---- Who is registered

  lemma RegisteredAfter(s: ServerState.Server, fd: Fd, expire: int)
    requires ServerState.Inv(s) && ServerState.Enabled(s, ServerState.Register(fd, expire))
    ensures ServerState.Registered(ServerState.Next(s, ServerState.Register(fd, expire)), s.nextId)
  {
    Lifetime.RegisterMaps(s, fd);
    hide ServerState.Inv, ServerState.Mapped, AfterAdd;
  }

  lemma StepIds(s: ServerState.Server, a: ServerState.Action)
    requires ServerState.Enabled(s, a)
    ensures var t := ServerState.Next(s, a);
            t.nextId == s.nextId + (if a.Register? then 1 else 0) && (!TakesMutex(a) ==> t.disconnects == s.disconnects)
  {
    hide ServerState.Registered, AfterAdd, AfterCheck, IsExpiredList;
  }

  /** What a step of the server does to who is registered. */
  lemma BaseFacts(s: ServerState.Server, a: ServerState.Action)
    requires ServerState.Inv(s) && ServerState.Enabled(s, a)
    ensures var t := ServerState.Next(s, a);
            (forall c: ConnId :: c < s.nextId ==>
               (ServerState.Registered(t, c) <==> ServerState.Registered(s, c) && Removed(s, t) != Some(c)))
            && t.nextId == s.nextId + (if a.Register? then 1 else 0)
            && (a.Register? ==> ServerState.Registered(t, s.nextId))
            && (!TakesMutex(a) ==> Removed(s, t).None?)
  {
    hide ServerState.Inv, ServerState.Enabled, ServerState.Registered, ServerState.Next;
    Lifetime.StepEffect(s, a);
    StepIds(s, a);
    if a.Register? {
      RegisteredAfter(s, a.fd, a.expire);
    }
  }

  lemma TiedStays(s: State, t: State)
    requires Tied(s) && t.b.server == s.b.server && t.removal == s.removal
    requires forall c :: Link(t, c).registered == Link(s, c).registered && Link(t, c).removing == Link(s, c).removing
    requires forall c: ConnId :: c >= s.b.server.nextId ==> c !in t.links
    ensures Tied(t)
  {
    hide ServerState.Registered;
  }

  lemma WrittenTied(s: State, c: ConnId, p: Payload, tag: Tag)
    requires Tied(s) && c < s.b.server.nextId
    ensures Tied(Written(s, c, p, tag))
  {
    hide ServerState.Registered, Packet;
    TiedStays(s, Written(s, c, p, tag));
  }

  lemma EndLinks(s: State, c: ConnId)
    ensures forall d :: Link(EndRemoval(s, c), d) ==
              if d == c then Link(s, c).(registered := false, removing := false) else Link(s, d)
    ensures forall d :: d != c ==> (d in EndRemoval(s, c).links <==> d in s.links)
  {
  }

  /** A step that takes nobody out. */
  lemma QuietTied(s: State, t: State)
    requires Tied(s) && t.links == s.links && t.removal == s.removal
    requires var v, w := s.b.server, t.b.server;
             v.nextId <= w.nextId <= v.nextId + 1
             && (forall c: ConnId :: c < v.nextId ==> (ServerState.Registered(w, c) <==> ServerState.Registered(v, c)))
             && (w.nextId > v.nextId ==> ServerState.Registered(w, v.nextId))
    ensures Tied(t)
  {
    hide ServerState.Registered;
    assert forall c :: Link(t, c) == Link(s, c);
  }

  /** The step that takes out the connection being removed. */
  lemma EndTied(s: State, t: State, x: ConnId)
    requires Tied(s) && s.removal == Some(x) && t.links == EndRemoval(s, x).links && t.removal == None
    requires var v, w := s.b.server, t.b.server;
             v.nextId == w.nextId
             && forall c: ConnId :: c < v.nextId ==> (ServerState.Registered(w, c) <==> ServerState.Registered(v, c) && c != x)
    ensures Tied(t)
  {
    hide ServerState.Registered, EndRemoval;
    EndLinks(s, x);
    assert forall c :: Link(t, c) == Link(EndRemoval(s, x), c);
  }

  lemma BaseIs(s: State, b: ServerState.Action)
    requires CanStep(s, Base(b))
    ensures var t := Do(s, Base(b));
            ServerState.Enabled(s.b.server, b) && t.b.server == ServerState.Next(s.b.server, b)
            && (TakesMutex(b) ==> s.removal == Removed(s.b.server, t.b.server))
            && if TakesMutex(b) && s.removal.Some? then t.links == EndRemoval(s, s.removal.value).links && t.removal == None
               else t.links == s.links && t.removal == s.removal
  {
    hide Broadcasts.SendersHeld, ServerState.Enabled, ServerState.Next;
  }

  /** A registration takes nobody out. */
  lemma RemovingIsNotNew(s: State, b: ServerState.Action)
    requires CanStep(s, Base(b)) && TakesMutex(b) && s.removal.Some?
    ensures !b.Register?
  {
    hide Broadcasts.SendersHeld, AfterAdd;
  }

  lemma BaseTied(s: State, b: ServerState.Action)
    requires Tied(s) && ServerState.Inv(s.b.server) && CanStep(s, Base(b))
    ensures Tied(Do(s, Base(b)))
  {
    hide ServerState.Inv, ServerState.Enabled, ServerState.Next, ServerState.Registered, CanStep, Do, Tied, EndRemoval, Removed;
    BaseIs(s, b);
    BaseFacts(s.b.server, b);
    if TakesMutex(b) && s.removal.Some? {
      RemovingIsNotNew(s, b);
      EndTied(s, Do(s, Base(b)), s.removal.value);
    } else {
      QuietTied(s, Do(s, Base(b)));
    }
  }

  lemma ReceiverIsKnown(b: Broadcasts.State, j: nat)
    requires ServerState.Inv(b.server) && j < |b.jobs| && b.jobs[j].todo != []
    ensures Receiver(b, j).Some? ==> Receiver(b, j).value < b.server.nextId
  {
    hide ServerState.LiveIsOwned, ServerState.DisconnectsOnce, DistinctFds;
  }

  lemma MovedTied(s: State, c: ConnId, a: Transport.Action)
    requires Tied(s) && CanStep(s, Move(c, a))
    ensures Tied(Do(s, Move(c, a)))
  {
    hide ServerState.Registered;
    var t := Do(s, Move(c, a));
    assert Link(t, c).registered == Link(s, c).registered && Link(t, c).removing == Link(s, c).removing;
    hide Transport.Next, Transport.Enabled;
    TiedStays(s, t);
  }

  lemma SameTied(s: State, t: State)
    requires Tied(s) && t.b.server == s.b.server && t.removal == s.removal && t.links == s.links
    ensures Tied(t)
  {
    hide ServerState.Registered;
    assert forall c :: Link(t, c) == Link(s, c);
  }

  lemma LiveIsKnown(s: ServerState.Server, c: ConnId)
    requires ServerState.Inv(s) && c in s.live
    ensures c < s.nextId
  {
  }

  lemma StartLinks(s: State, c: ConnId)
    ensures var t := StartRemoval(s, c);
            t.b == s.b && t.removal == Some(c)
            && (forall d :: Link(t, d) == if d == c then Link(s, c).(writing := false, removing := true) else Link(s, d))
            && (forall d :: d != c ==> (d in t.links <==> d in s.links))
  {
  }

  lemma RegisteredIsKnown(s: ServerState.Server, c: ConnId)
    requires ServerState.Inv(s) && ServerState.Registered(s, c)
    ensures c < s.nextId
  {
  }

  lemma StartTied(s: State, c: ConnId)
    requires Tied(s) && ServerState.Inv(s.b.server) && s.removal.None? && ServerState.Registered(s.b.server, c)
    ensures Tied(StartRemoval(s, c))
  {
    RegisteredIsKnown(s.b.server, c);
    hide ServerState.Registered, ServerState.Inv, CanStep, StartRemoval;
    StartLinks(s, c);
  }

  lemma StepTied(s: State, a: Step)
    requires Tied(s) && ServerState.Inv(s.b.server) && CanStep(s, a)
    ensures Tied(Do(s, a))
  {
    hide ServerState.Inv, ServerState.Registered, Written, Transport.Next, Transport.Enabled, IsText,
      Broadcasts.IsTargetList, Broadcasts.SendersHeld;
    match a
    case Base(b) => BaseTied(s, b);
    case BeginRemove(c) => StartTied(s, c);
    case Begin(_, _, _) => TiedStays(s, Do(s, a));
    case Send(j) =>
      ReceiverIsKnown(s.b, j);
      if Receiver(s.b, j).Some? {
        var t := Written(s, Receiver(s.b, j).value, s.texts[j], Some(j));
        WrittenTied(s, Receiver(s.b, j).value, s.texts[j], Some(j));
        WrittenTexts(s, Receiver(s.b, j).value, s.texts[j], Some(j));
        hide Tied;
        SameTied(t, Do(s, a));
      } else {
        TiedStays(s, Do(s, a));
      }
    case Answer(c, p) => LiveIsKnown(s.b.server, c); WrittenTied(s, c, p, None);
    case Move(c, b) => MovedTied(s, c, b);
  }

  // ---- The count

  lemma WrittenCount(s: State, c: ConnId, p: Payload, tag: Tag)
    ensures forall d: ConnId, k: Tag ::
              multiset(Tags(Written(s, c, p, tag), d))[k] == multiset(Tags(s, d))[k] + if d == c && k == tag then 1 else 0
  {
  }

  lemma SameCounts(s: State, t: State)
    requires Counted(s) && t.tags == s.tags && t.b.sent == s.b.sent && |t.texts| == |t.b.jobs|
    ensures Counted(t)
  {
    hide Broadcasts.Sent;
    assert forall c :: Tags(t, c) == Tags(s, c);
  }

  lemma DeliverCount(sent: Broadcasts.Deliveries, j: nat, c: ConnId)
    ensures forall d: ConnId, k: nat ::
              Broadcasts.Sent(Broadcasts.Deliver(sent, j, c), k, d) == Broadcasts.Sent(sent, k, d) + if d == c && k == j then 1 else 0
  {
  }

  lemma SendCount(s: State, j: nat)
    requires CanStep(s, Send(j)) && Counted(s)
    ensures Counted(Do(s, Send(j)))
  {
    var t := Do(s, Send(j));
    if Receiver(s.b, j).Some? {
      var c := Receiver(s.b, j).value;
      var w := Written(s, c, s.texts[j], Some(j));
      WrittenCount(s, c, s.texts[j], Some(j));
      DeliverCount(s.b.sent, j, c);
      assert t.b.sent == Broadcasts.Deliver(s.b.sent, j, c) && |t.texts| == |t.b.jobs|;
      assert forall d :: Tags(t, d) == Tags(w, d);
      hide CanStep, Do, Written, Receiver, Tags, Broadcasts.Deliver, Broadcasts.Sent;
    } else {
      SameCounts(s, t);
    }
  }

  lemma AnswerCounts(s: State, c: ConnId, p: Payload)
    requires Counted(s)
    ensures Counted(Written(s, c, p, None))
  {
    WrittenCount(s, c, p, None);
    WrittenTexts(s, c, p, None);
    hide Written, Broadcasts.Sent, Tags;
  }

  lemma CountedMeans(s: State)
    requires Counted(s)
    ensures |s.texts| == |s.b.jobs|
  {
  }

  lemma StepCounts(s: State, a: Step)
    requires CanStep(s, a) && Counted(s)
    ensures Counted(Do(s, a))
  {
    hide Counted, ServerState.Next, ServerState.Enabled, Transport.Next, Transport.Enabled, Written, IsText;
    match a
    case Send(j) => SendCount(s, j);
    case Answer(c, p) => AnswerCounts(s, c, p);
    case Base(_) => CountedMeans(s); SameCounts(s, Do(s, a));
    case BeginRemove(_) => CountedMeans(s); SameCounts(s, Do(s, a));
    case Begin(_, _, _) => CountedMeans(s); SameCounts(s, Do(s, a));
    case Move(_, _) => CountedMeans(s); SameCounts(s, Do(s, a));
  }

  ghost predicate Inv(s: State) {
    Broadcasts.BroadcastInv(s.b) && LinksInv(s) && Counted(s) && Tied(s)
  }

  lemma InvParts(s: State)
    requires Inv(s)
    ensures LinksInv(s) && Counted(s) && Tied(s) && ServerState.Inv(s.b.server)
  {
  }

  lemma ShadowKeeps(s: State, a: Step)
    requires Broadcasts.BroadcastInv(s.b) && CanStep(s, a)
    ensures Broadcasts.BroadcastInv(Do(s, a).b)
  {
    hide Broadcasts.BroadcastInv, Broadcasts.Do, IsText, CanWrite, Transport.Next, Transport.Enabled;
    match a
    case Base(b) => Broadcasts.StepKeeps(s.b, Broadcasts.Base(b));
    case Begin(c, targets, _) => Broadcasts.StepKeeps(s.b, Broadcasts.Snapshot(c, targets));
    case Send(j) => Broadcasts.StepKeeps(s.b, Broadcasts.SendNext(j));
    case _ =>
  }

  lemma StepKeeps(s: State, a: Step)
    requires Inv(s) && CanStep(s, a)
    ensures Inv(Do(s, a)) && s.texts <= Do(s, a).texts
  {
    hide Broadcasts.BroadcastInv, LinksInv, Counted, Tied, CanStep, Do;
    InvParts(s);
    ShadowKeeps(s, a);
    StepLinks(s, a);
    StepCounts(s, a);
    StepTied(s, a);
  }

  lemma {:induction false} RunKeeps(s: State, run: seq<Step>, t: State)
    requires Inv(s) && Reachable(s, run, t)
    ensures Inv(t) && s.texts <= t.texts
    decreases |run|
  {
    hide Inv, CanStep, Do;
    if run != [] {
      StepKeeps(s, run[0]);
      RunKeeps(Do(s, run[0]), run[1..], t);
    }
  }

  lemma StartKeeps()
    ensures Inv(START)
  {
    Broadcasts.StartKeeps();
    assert Transport.InTransit(Transport.INIT) == [];
    hide Broadcasts.BroadcastInv;
  }

  lemma {:induction false} NoneEmpty(ps: seq<Payload>)
    requires forall p :: p in ps ==> p != []
    ensures NonEmpty(ps) == ps
  {
    if ps != [] {
      assert ps == [ps[0]] + ps[1..] && ps[0] in ps;
      assert forall p :: p in ps[1..] ==> p in ps;
      NoneEmpty(ps[1..]);
    }
  }

  /** What the client has decoded is, in order, what was queued for it; all of it once nothing is under
      way. */
  ghost predicate Decodes(link: Transport.State) {
    link.client.Valid() && link.client.received <= link.queued
    && (link.output == [] && link.flight == [] && link.client.Settled() ==> link.client.received == link.queued)
  }

  lemma LabelledIsNonEmpty(queued: seq<Payload>, tags: seq<Tag>, texts: seq<Payload>)
    requires Labelled(queued, tags, texts)
    ensures forall p :: p in queued ==> p != []
  {
  }

  lemma ClientDecodes(link: Transport.State, tags: seq<Tag>, texts: seq<Payload>)
    requires LinkInv(link, tags, texts)
    ensures Decodes(link)
  {
    LabelledIsNonEmpty(link.queued, tags, texts);
    NoneEmpty(link.queued);
    hide Labelled;
    if link.output == [] && link.flight == [] && link.client.Settled() {
      assert Transport.InTransit(link) == link.client.Pending();
      ClientDecoder.WaitForMore(link.client);
      assert link.client.received + [] == link.client.received;
    }
  }

  lemma AllDecode(s: State)
    requires LinksInv(s)
    ensures forall c: ConnId :: Decodes(Link(s, c))
  {
    hide LinkInv, Decodes;
    forall c: ConnId
      ensures Decodes(Link(s, c))
    {
      ClientDecodes(Link(s, c), Tags(s, c), s.texts);
    }
  }

  lemma AllDecodeMeans(s: State)
    requires forall c: ConnId :: Decodes(Link(s, c))
    ensures forall c: ConnId ::
              var link := Link(s, c);
              link.client.Valid() && link.client.received <= link.queued
              && (link.output == [] && link.flight == [] && link.client.Settled() ==> link.client.received == link.queued)
  {
    hide Link;
    assert forall c: ConnId :: Decodes(Link(s, c)) ==> Link(s, c).client.Valid();
  }

  lemma BeginFacts(s: State, sender: ConnId, targets: seq<Fd>, text: Payload)
    requires CanStep(s, Begin(sender, targets, text)) && Counted(s)
    ensures Broadcasts.CanStep(s.b, Broadcasts.Snapshot(sender, targets)) && |s.texts| == |s.b.jobs|
    ensures var u := Do(s, Begin(sender, targets, text));
            u.b == Broadcasts.Do(s.b, Broadcasts.Snapshot(sender, targets)) && u.texts == s.texts + [text]
  {
  }

  lemma TagsAreSent(s: State)
    requires Counted(s)
    ensures forall c: ConnId, j: nat :: multiset(Tags(s, c))[Some(j)] == Broadcasts.Sent(s.b.sent, j, c)
  {
    hide Tags, Broadcasts.Sent;
  }

  lemma TagsCarryTexts(s: State, j: nat)
    requires LinksInv(s) && j < |s.texts|
    ensures forall c: ConnId, i :: 0 <= i < |Tags(s, c)| && Tags(s, c)[i] == Some(j) ==>
              i < |Link(s, c).queued| && Link(s, c).queued[i] == s.texts[j]
  {
    hide Transport.Inv, IsText;
    forall c: ConnId, i | 0 <= i < |Tags(s, c)| && Tags(s, c)[i] == Some(j)
      ensures i < |Link(s, c).queued| && Link(s, c).queued[i] == s.texts[j]
    {
      assert LinkInv(Link(s, c), Tags(s, c), s.texts);
    }
  }

  /** However broadcasts, answers, disconnects, partial sends and network splits interleave: the packets
      tagged with a broadcast carry its text; nobody has two of them, the sender has none, and once the
      broadcast is over whoever was registered throughout has one; and every client decodes exactly the
      texts of its packets, one by one and in order, all of them once nothing is under way. */
  lemma BroadcastIsDecodedOnce(before: seq<Step>, s: State, sender: ConnId, targets: seq<Fd>, text: Payload,
                               after: seq<Step>, t: State)
    requires Reachable(START, before, s) && CanStep(s, Begin(sender, targets, text))
    requires Reachable(Do(s, Begin(sender, targets, text)), after, t)
    ensures var j := |s.texts|;
            (forall c: ConnId, i :: 0 <= i < |Tags(t, c)| && Tags(t, c)[i] == Some(j) ==>
               i < |Link(t, c).queued| && Link(t, c).queued[i] == text)
            && (forall c: ConnId :: multiset(Tags(t, c))[Some(j)] <= 1)
            && multiset(Tags(t, sender))[Some(j)] == 0
            && j < |t.b.jobs|
            && (t.b.jobs[j].todo == [] ==>
                  forall c: ConnId :: c != sender && c in s.b.server.live
                                      && ServerState.Registered(s.b.server, c) && ServerState.Registered(t.b.server, c) ==>
                    multiset(Tags(t, c))[Some(j)] == 1)
    ensures forall c: ConnId ::
              var link := Link(t, c);
              link.client.Valid() && link.client.received <= link.queued
              && (link.output == [] && link.flight == [] && link.client.Settled() ==> link.client.received == link.queued)
  {
    hide Inv, LinksInv, Counted, Tied, Tags, Link, CanStep, Do, Broadcasts.Sent, ServerState.Registered, Broadcasts.Reachable, Decodes;
    StartKeeps();
    RunKeeps(START, before, s);
    InvParts(s);
    BeginFacts(s, sender, targets, text);
    var u := Do(s, Begin(sender, targets, text));
    StepKeeps(s, Begin(sender, targets, text));
    RunKeeps(u, after, t);
    InvParts(t);
    ShadowReaches(START, before, s);
    ShadowReaches(u, after, t);
    Broadcasts.BroadcastExactlyOnce(Shadows(before), s.b, sender, targets, Shadows(after), t.b);
    AllDecode(t);
    AllDecodeMeans(t);
    TagsCarryTexts(t, |s.texts|);
    TagsAreSent(t);
  }

  /** In every reachable state of all of this with m_mutex and c's out_mutex free, a registered c that has
      output is waiting for EPOLLOUT. */
  lemma NobodyIsStranded(run: seq<Step>, t: State, c: ConnId)
    requires Reachable(START, run, t)
    requires ServerState.Registered(t.b.server, c) && t.removal.None? && Link(t, c).outMutex.Free?
    ensures Link(t, c).output != [] ==> Link(t, c).writing
  {
    hide ServerState.Registered;
    StartKeeps();
    RunKeeps(START, run, t);
    InvParts(t);
    RegisteredIsKnown(t.b.server, c);
    assert LinkInv(Link(t, c), Tags(t, c), t.texts);
    hide Broadcasts.BroadcastInv, LinksInv, Counted, Labelled, Transport.Delivers;
  }
}
