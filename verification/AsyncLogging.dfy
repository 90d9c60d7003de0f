/** server/src/log/AsyncLogger.cpp: the class. Its buffers are FixedBuffers on a BufferHeap, and a
    unique_ptr is an address there. Each method is one atomic step, with the mutex held where the source
    holds it, and is the protocol's step of that name; the locals of threadFunc are fields so that
    producers can run between its steps. */
module AsyncLogging {
  import opened LogStream
  import opened P = LoggerProtocol
  import opened LoggerHistory
  import opened Options

  // ---- Addresses

  type Address = nat

  type Contents = seq<seq<Line>>

  /** The addresses that the pointers and the vectors hold. */
  datatype Pointers = Pointers(
    current: Option<Address>,
    next: Option<Address>,
    buffers: seq<Address>,
    buffer1: Option<Address>,
    buffer2: Option<Address>,
    toWrite: seq<Address>
  )

  ghost function LinesAt(m: Contents, a: Address): seq<Line> {
    if a < |m| then m[a] else []
  }

  ghost function PtrAt(m: Contents, p: Option<Address>): Ptr {
    if p.None? then Null else Ptr(Buf(p.value, LinesAt(m, p.value)))
  }

  ghost function BufsAt(m: Contents, addresses: seq<Address>): (bufs: seq<Buf>)
    ensures |bufs| == |addresses|
  {
    seq(|addresses|, k requires 0 <= k < |addresses| => Buf(addresses[k], LinesAt(m, addresses[k])))
  }

  /** The protocol's state s is what the pointers lead to. */
  ghost predicate Matches(s: Logger, o: Pointers, m: Contents) {
    s.current == PtrAt(m, o.current) && s.next == PtrAt(m, o.next) && s.buffers == BufsAt(m, o.buffers)
    && s.buffer1 == PtrAt(m, o.buffer1) && s.buffer2 == PtrAt(m, o.buffer2) && s.toWrite == BufsAt(m, o.toWrite)
  }

  /** How many pointers lead to a. */
  ghost function References(o: Pointers, a: Address): nat {
    (if o.current == Some(a) then 1 else 0) + (if o.next == Some(a) then 1 else 0)
    + (if o.buffer1 == Some(a) then 1 else 0) + (if o.buffer2 == Some(a) then 1 else 0)
    + multiset(o.buffers)[a] + multiset(o.toWrite)[a]
  }

  lemma {:induction false} CountAt(m: Contents, addresses: seq<Address>, a: Address)
    ensures Count(BufsAt(m, addresses), a) == multiset(addresses)[a]
  {
    if addresses == [] {
      CountNone(a);
    } else {
      var front, last := addresses[..|addresses| - 1], addresses[|addresses| - 1];
      CountAt(m, front, a);
      assert addresses == front + [last];
      assert BufsAt(m, addresses) == BufsAt(m, front) + [Buf(last, LinesAt(m, last))];
      CountSnoc(BufsAt(m, front), Buf(last, LinesAt(m, last)), a);
    }
  }

  lemma ReferencesAreOwners(s: Logger, o: Pointers, m: Contents, a: Address)
    requires Matches(s, o, m)
    ensures References(o, a) == Owners(s, a)
  {
    hide Count;
    CountAt(m, o.buffers, a);
    CountAt(m, o.toWrite, a);
  }

  /** Writing to the buffer at a changes nothing that other pointers lead to. */
  lemma PtrApart(m: Contents, p: Option<Address>, a: Address, lines: seq<Line>)
    requires a < |m| && p != Some(a)
    ensures PtrAt(m[a := lines], p) == PtrAt(m, p)
  {
  }

  lemma BufsApart(m: Contents, addresses: seq<Address>, a: Address, lines: seq<Line>)
    requires a < |m| && multiset(addresses)[a] == 0
    ensures BufsAt(m[a := lines], addresses) == BufsAt(m, addresses)
  {
    assert forall k :: 0 <= k < |addresses| ==> addresses[k] in multiset(addresses);
  }

  lemma PtrIs(m: Contents, a: Address)
    ensures PtrAt(m, Some(a)) == Ptr(Buf(a, LinesAt(m, a)))
    ensures a < |m| ==> LinesAt(m, a) == m[a]
  {
  }

  /** A line goes to the current buffer. */
  lemma WriteCurrent(s: Logger, o: Pointers, m: Contents, lines: seq<Line>)
    requires Matches(s, o, m) && o.current.Some? && o.current.value < |m| && References(o, o.current.value) <= 1
    ensures Matches(s.(current := Ptr(Buf(o.current.value, lines))), o, m[o.current.value := lines])
  {
    var a := o.current.value;
    PtrApart(m, if o.next == Some(a) then None else o.next, a, lines);
    PtrApart(m, if o.buffer1 == Some(a) then None else o.buffer1, a, lines);
    PtrApart(m, if o.buffer2 == Some(a) then None else o.buffer2, a, lines);
    BufsApart(m, o.buffers, a, lines);
    BufsApart(m, o.toWrite, a, lines);
    hide PtrAt, BufsAt, LinesAt;
    assert PtrAt(m[a := lines], o.current) == Ptr(Buf(a, lines)) by {
      PtrIs(m[a := lines], a);
    }
  }

  lemma PutKeepsId(b: Buf, line: Line)
    ensures Put(b, line) == Buf(b.id, Put(b, line).lines)
  {
    hide Flatten;
  }

  /** A pointer leads to an allocated buffer, and no other pointer leads there. */
  lemma OnlyReference(s: Logger, o: Pointers, m: Contents, a: Address)
    requires Matches(s, o, m) && Unaliased(s)
    ensures References(o, a) <= 1 && (References(o, a) > 0 ==> a < s.allocations)
  {
    ReferencesAreOwners(s, o, m, a);
    hide Matches, References, Owners;
  }

  lemma CurrentIsThere(s: Logger, o: Pointers, m: Contents)
    requires Matches(s, o, m) && Owns(s) && Unaliased(s)
    ensures o.current.Some? && o.current.value < s.allocations && References(o, o.current.value) == 1
  {
    OnlyReference(s, o, m, if o.current.Some? then o.current.value else 0);
    hide Unaliased;
  }

  lemma NextIsThere(s: Logger, o: Pointers, m: Contents)
    requires Matches(s, o, m) && Unaliased(s) && o.next.Some?
    ensures o.next.value < s.allocations && References(o, o.next.value) == 1
  {
    OnlyReference(s, o, m, o.next.value);
    hide Unaliased;
  }

  lemma NewIsUnknown(s: Logger, o: Pointers, m: Contents)
    requires Matches(s, o, m) && Unaliased(s)
    ensures References(o, s.allocations) == 0
  {
    OnlyReference(s, o, m, s.allocations);
    hide References, Unaliased;
  }

  /** append, before the line is put: the full buffer is handed over and another taken. */
  ghost function Rotated(s: Logger): Logger
    requires s.current.Ptr?
  {
    var t := s.(buffers := s.buffers + [s.current.buf]);
    if s.next.Ptr? then t.(current := s.next, next := Null)
    else t.(current := Ptr(Buf(s.allocations, [])), allocations := s.allocations + 1)
  }

  lemma AppendIsRotateThenPut(s: Logger, line: Line)
    requires s.current.Ptr?
    ensures AfterAppend(s, line) ==
            var r := if Used(s.current.buf.lines) + |line| < CAPACITY then s else Rotated(s);
            r.(current := Ptr(Put(r.current.buf, line)))
  {
    hide Flatten;
  }

  lemma BufsSnoc(m: Contents, addresses: seq<Address>, a: Address)
    ensures BufsAt(m, addresses + [a]) == BufsAt(m, addresses) + [Buf(a, LinesAt(m, a))]
    ensures forall b: Address :: multiset(addresses + [a])[b] == multiset(addresses)[b] + if a == b then 1 else 0
  {
  }

  lemma RotateToNext(s: Logger, o: Pointers, m: Contents)
    requires Matches(s, o, m) && o.current.Some? && o.next.Some?
    ensures var o' := o.(buffers := o.buffers + [o.current.value], current := o.next, next := None);
            Matches(Rotated(s), o', m) && References(o', o.next.value) == References(o, o.next.value)
  {
    hide BufsAt;
    BufsSnoc(m, o.buffers, o.current.value);
  }

  /** A new buffer is empty, as is whatever a pointer to nowhere is taken to lead to. */
  lemma NewIsEmpty(m: Contents)
    ensures forall p :: PtrAt(m + [[]], p) == PtrAt(m, p)
    ensures forall addresses :: BufsAt(m + [[]], addresses) == BufsAt(m, addresses)
  {
    assert forall a: Address :: LinesAt(m + [[]], a) == LinesAt(m, a);
    hide LinesAt;
  }

  lemma RotateToNew(s: Logger, o: Pointers, m: Contents)
    requires Matches(s, o, m) && o.current.Some? && o.next.None? && References(o, s.allocations) == 0
    requires s.allocations == |m|
    ensures s.next.Null? && Rotated(s).allocations == |m| + 1
    ensures var o' := o.(buffers := o.buffers + [o.current.value], current := Some(s.allocations));
            Matches(Rotated(s), o', m + [[]]) && References(o', s.allocations) == 1
  {
    NewIsEmpty(m);
    BufsSnoc(m, o.buffers, o.current.value);
    PtrIs(m, s.allocations);
    hide BufsAt;
  }

  lemma DrainMatches(s: Logger, o: Pointers, m: Contents)
    requires Matches(s, o, m) && o.current.Some?
    ensures s.current.Ptr?
    ensures Matches(AfterDrain(s),
                    Pointers(o.buffer1, if o.next.None? then o.buffer2 else o.next, o.toWrite, None,
                             if o.next.None? then None else o.buffer2, o.buffers + [o.current.value]), m)
  {
    BufsSnoc(m, o.buffers, o.current.value);
    hide BufsAt;
  }

  lemma BufsPrefix(m: Contents, addresses: seq<Address>, n: nat)
    requires n <= |addresses|
    ensures BufsAt(m, addresses[..n]) == BufsAt(m, addresses)[..n]
    ensures forall a: Address :: multiset(addresses[..n])[a] <= multiset(addresses)[a]
  {
    assert addresses == addresses[..n] + addresses[n..];
  }

  lemma NullIsNone(m: Contents)
    ensures forall p :: PtrAt(m, p).Null? <==> p.None?
  {
  }

  lemma NoneAtAll(m: Contents)
    ensures BufsAt(m, []) == []
  {
  }

  /** Every address in use is one of the first n, and has one reference. */
  ghost predicate Sole(o: Pointers, n: nat) {
    forall a: Address :: References(o, a) <= if a < n then 1 else 0
  }

  lemma UnaliasedIsSole(s: Logger, o: Pointers, m: Contents)
    requires Matches(s, o, m) && Unaliased(s)
    ensures Sole(o, s.allocations)
  {
    forall a: Address
      ensures References(o, a) <= if a < s.allocations then 1 else 0
    {
      OnlyReference(s, o, m, a);
    }
  }

  lemma PrefixSole(o: Pointers, n: nat, k: nat)
    requires Sole(o, n) && k <= |o.toWrite|
    ensures Sole(o.(toWrite := o.toWrite[..k]), n)
  {
    forall a: Address
      ensures References(o.(toWrite := o.toWrite[..k]), a) <= References(o, a)
    {
      BufsPrefix([], o.toWrite, k);
    }
  }

  ghost function Take1(s: Logger): Logger
    requires s.toWrite != []
  {
    var n := |s.toWrite| - 1;
    s.(buffer1 := Ptr(Buf(s.toWrite[n].id, [])), toWrite := s.toWrite[..n])
  }

  ghost function Take2(s: Logger): Logger
    requires s.toWrite != []
  {
    var n := |s.toWrite| - 1;
    s.(buffer2 := Ptr(Buf(s.toWrite[n].id, [])), toWrite := s.toWrite[..n])
  }

  lemma RecycleIsTakes(s: Logger)
    requires Enabled(s, Recycle) && Safe(s, Recycle)
    ensures var s0 := s.(toWrite := Spare(s));
            (s.buffer1.Null? ==> s0.toWrite != [])
            && var s1 := if s.buffer1.Null? then Take1(s0) else s0;
               (s.buffer2.Null? ==> s1.toWrite != [])
               && var s2 := if s.buffer2.Null? then Take2(s1) else s1;
                  AfterRecycle(s) == s2.(toWrite := [], phase := Head)
  {
  }

  /** The last address moves from the vector to a pointer. */
  lemma LastMoves(m: Contents, addresses: seq<Address>)
    requires addresses != []
    ensures var n := |addresses| - 1;
            BufsAt(m, addresses[..n]) == BufsAt(m, addresses)[..n] && BufsAt(m, addresses)[n].id == addresses[n]
            && forall a: Address :: multiset(addresses)[a] == multiset(addresses[..n])[a] + if a == addresses[n] then 1 else 0
  {
    var n := |addresses| - 1;
    BufsSnoc(m, addresses[..n], addresses[n]);
    assert addresses[..n] + [addresses[n]] == addresses;
  }

  /** Resetting a buffer with one reference changes nothing that the other pointers lead to. */
  lemma ResetOthers(o: Pointers, m: Contents, a: Address)
    requires a < |m| && References(o, a) <= 1 && (o.buffer1 == Some(a) || o.buffer2 == Some(a))
    ensures var m' := m[a := []];
            PtrAt(m', o.current) == PtrAt(m, o.current) && PtrAt(m', o.next) == PtrAt(m, o.next)
            && BufsAt(m', o.buffers) == BufsAt(m, o.buffers) && BufsAt(m', o.toWrite) == BufsAt(m, o.toWrite)
            && (o.buffer1 != Some(a) ==> PtrAt(m', o.buffer1) == PtrAt(m, o.buffer1))
            && (o.buffer2 != Some(a) ==> PtrAt(m', o.buffer2) == PtrAt(m, o.buffer2))
  {
    BufsApart(m, o.buffers, a, []);
    BufsApart(m, o.toWrite, a, []);
    hide BufsAt;
  }

  lemma Take1Matches(s: Logger, o: Pointers, m: Contents)
    requires Matches(s, o, m) && o.toWrite != [] && o.buffer1.None? && Sole(o, |m|)
    ensures var n := |o.toWrite| - 1;
            var a, o' := o.toWrite[n], o.(buffer1 := Some(o.toWrite[n]), toWrite := o.toWrite[..n]);
            a < |m| && Matches(Take1(s), o', m[a := []]) && Sole(o', |m|)
  {
    var n := |o.toWrite| - 1;
    var a, o' := o.toWrite[n], o.(buffer1 := Some(o.toWrite[n]), toWrite := o.toWrite[..n]);
    LastMoves(m, o.toWrite);
    assert forall x: Address :: References(o', x) == References(o, x);
    assert References(o, a) >= 1;
    ResetOthers(o', m, a);
    PtrIs(m[a := []], a);
    hide BufsAt, PtrAt, References;
  }

  lemma Take2Matches(s: Logger, o: Pointers, m: Contents)
    requires Matches(s, o, m) && o.toWrite != [] && o.buffer2.None? && Sole(o, |m|)
    ensures var n := |o.toWrite| - 1;
            var a, o' := o.toWrite[n], o.(buffer2 := Some(o.toWrite[n]), toWrite := o.toWrite[..n]);
            a < |m| && Matches(Take2(s), o', m[a := []]) && Sole(o', |m|)
  {
    var n := |o.toWrite| - 1;
    var a, o' := o.toWrite[n], o.(buffer2 := Some(o.toWrite[n]), toWrite := o.toWrite[..n]);
    LastMoves(m, o.toWrite);
    assert forall x: Address :: References(o', x) == References(o, x);
    assert References(o, a) >= 1;
    ResetOthers(o', m, a);
    PtrIs(m[a := []], a);
    hide BufsAt, PtrAt, References;
  }

  /** A buffer of a vector is allocated. */
  lemma WrittenIsThere(s: Logger, o: Pointers, m: Contents, k: nat)
    requires Matches(s, o, m) && Unaliased(s) && k < |o.toWrite| && |m| == s.allocations
    ensures o.toWrite[k] < |m| && s.toWrite[k] == Buf(o.toWrite[k], m[o.toWrite[k]])
  {
    var a := o.toWrite[k];
    assert a in multiset(o.toWrite);
    OnlyReference(s, o, m, a);
    hide Unaliased;
  }

  // ---- The file

  function NoticeText(count: nat): string {
    "Dropped log messages, " + Decimal(count) + " larger than 25\n"
  }

  ghost function TextOf(e: Entry): string {
    match e
    case Block(lines) => Flatten(lines)
    case Notice(count) => NoticeText(count)
  }

  /** The text of the file. */
  ghost function Render(entries: seq<Entry>): string {
    if entries == [] then ""
    else Render(entries[..|entries| - 1]) + TextOf(entries[|entries| - 1])
  }

  lemma RenderSnoc(entries: seq<Entry>, e: Entry)
    ensures Render(entries + [e]) == Render(entries) + TextOf(e)
  {
    assert (entries + [e])[..|entries|] == entries;
  }

  /** A file without notices is the text of the lines in its blocks. */
  lemma {:induction false} TextOfBlocks(entries: seq<Entry>)
    requires FileCounts(entries) == []
    ensures Render(entries) == Flatten(BlockLines(FileBlocks(entries)))
    decreases |entries|
  {
    if entries != [] {
      var front, last := entries[..|entries| - 1], entries[|entries| - 1];
      assert last.Block?;
      TextOfBlocks(front);
      P.Snoc(FileBlocks(front), last);
      FlattenConcat(BlockLines(FileBlocks(front)), last.lines);
    }
  }

  ghost function Blocks(bufs: seq<Buf>): (es: seq<Entry>)
    ensures |es| == |bufs|
  {
    seq(|bufs|, k requires 0 <= k < |bufs| => Block(bufs[k].lines))
  }

  lemma NoBlocks(bufs: seq<Buf>)
    ensures Blocks(bufs[|bufs|..]) == []
  {
  }

  lemma BlocksFirst(bufs: seq<Buf>, k: nat)
    requires k < |bufs|
    ensures Blocks(bufs[k..]) == [Block(bufs[k].lines)] + Blocks(bufs[k + 1..])
  {
  }

  lemma NoText(bufs: seq<Buf>)
    ensures Flatten(Lines(bufs[|bufs|..])) == ""
  {
    assert bufs[|bufs|..] == [];
  }

  lemma TextFirst(bufs: seq<Buf>, k: nat)
    requires k < |bufs|
    ensures Flatten(Lines(bufs[k..])) == Flatten(bufs[k].lines) + Flatten(Lines(bufs[k + 1..]))
  {
    hide Flatten, Lines;
    assert bufs[k..] == [bufs[k]] + bufs[k + 1..];
    LinesFirst(bufs[k], bufs[k + 1..]);
    FlattenConcat(bufs[k].lines, Lines(bufs[k + 1..]));
  }

  /** FixedBuffer::append on the array is Put on what the buffer holds. */
  method AppendToBuffer(b: FixedBuffer, a: Address, line: string)
    requires b.Valid() && b.data.Length == CAPACITY
    modifies b, b.data
    ensures b.Valid()
    ensures Buf(a, b.pieces) == Put(Buf(a, old(b.pieces)), line)
  {
    assert b.cur == |b.data[..b.cur]| == Used(b.pieces);
    b.Append(line);
  }

  // ---- The buffers on the heap

  class BufferHeap {
    var store: seq<FixedBuffer>
    ghost var Repr: set<object>

    /** The buffers are apart, and each is a full-size array with its lines in it. */
    ghost predicate Valid()
      reads this, Repr
    {
      this in Repr
      && (forall b :: b in store ==> b in Repr && b.data in Repr && b.Valid() && b.data.Length == CAPACITY)
      && (forall i, j :: 0 <= i < j < |store| ==> store[i] != store[j] && store[i].data != store[j].data)
    }

    ghost function Lines(): (m: Contents)
      reads this, Repr
      requires Valid()
      ensures |m| == |store|
    {
      seq(|store|, a requires 0 <= a < |store| && Valid() reads this, Repr => store[a].pieces)
    }

    /** The buffers that exist when the thread is in its loop. */
    constructor (n: nat)
      ensures Valid() && fresh(Repr) && Lines() == seq(n, i => [])
    {
      store, Repr := [], {this};
      new;
      for i := 0 to n
        invariant Valid() && fresh(Repr) && Lines() == seq(i, k => [])
      {
        var _ := New();
      }
    }

    /** new Buffer. */
    method New() returns (a: Address)
      requires Valid()
      modifies this
      ensures Valid() && fresh(Repr - old(Repr)) && a == |old(store)|
      ensures Lines() == old(Lines()) + [[]]
    {
      hide Flatten;
      a := |store|;
      var b := new FixedBuffer(CAPACITY);
      store := store + [b];
      Repr := Repr + {b, b.data};
    }

    /** FixedBuffer::append on the buffer at a. */
    method Append(a: Address, line: string)
      requires Valid() && a < |store|
      modifies Repr
      ensures Valid() && Repr == old(Repr) && store == old(store)
      ensures Lines() == old(Lines())[a := Put(Buf(a, old(Lines())[a]), line).lines]
    {
      hide Flatten;
      AppendToBuffer(store[a], a, line);
    }

    /** FixedBuffer::reset. */
    method Reset(a: Address)
      requires Valid() && a < |store|
      modifies Repr
      ensures Valid() && Repr == old(Repr) && store == old(store)
      ensures Lines() == old(Lines())[a := []]
    {
      hide Flatten;
      store[a].Reset();
    }

    /** FixedBuffer::avail, compared with the length of a line. */
    method HasRoom(a: Address, line: string) returns (room: bool)
      requires Valid() && a < |store|
      ensures room <==> Used(Lines()[a]) + |line| < CAPACITY
    {
      var b := store[a];
      assert b in store;
      assert b.cur == |b.data[..b.cur]| == Used(b.pieces);
      room := b.Avail() > |line|;
    }

    /** FixedBuffer::data and length. */
    method Text(a: Address) returns (text: string)
      requires Valid() && a < |store|
      ensures text == Flatten(Lines()[a])
    {
      var b := store[a];
      assert b in store;
      text := b.data[..b.cur];
    }
  }

  lemma StartMatches()
    ensures Matches(INIT, Pointers(Some(0), Some(1), [], Some(2), Some(3), []), seq(4, i => []))
    ensures Owns(INIT) && Unaliased(INIT) && Render([]) == ""
  {
    InitInv();
    hide Owns, Unaliased;
  }

  lemma WrittenInside(s: Logger)
    requires Owns(s) && s.phase.Writing?
    ensures s.written <= |s.toWrite|
  {
  }

  /** What the file holds after the round that the consumer is in. */
  ghost function LastFile(s: Logger): seq<Entry> {
    var t := if s.phase.Drained? then AfterTrim(s) else s;
    if t.phase.Writing? && t.written <= |t.toWrite| then t.file + Blocks(t.toWrite[t.written..]) else t.file
  }

  lemma HeadIsEmpty(s: Logger)
    requires Owns(s) && s.phase.Head?
    ensures s.current.Ptr? && Empty(s.buffer1) && s.toWrite == []
  {
  }

  lemma LastFileIgnoresFlag(s: Logger)
    ensures LastFile(s.(running := false)) == LastFile(s)
    ensures s.current.Ptr? ==> LastFile(AfterDrain(s.(running := false))) == LastFile(AfterDrain(s))
  {
    hide Blocks;
  }

  /** The consumer's writes are a run of the protocol. */
  lemma {:induction false} WritesReach(s: Logger, h: History) returns (run: seq<Action>, k: History)
    requires s.phase.Writing? && s.written <= |s.toWrite|
    ensures var t := s.(written := |s.toWrite|, file := s.file + Blocks(s.toWrite[s.written..]));
            NoAppend(run) && LoggerHistory.Reaches(s, h, run, t, k)
    decreases |s.toWrite| - s.written
  {
    hide Blocks;
    if s.written == |s.toWrite| {
      run, k := [], h;
      NoBlocks(s.toWrite);
      assert s.file + [] == s.file;
    } else {
      var t := Next(s, WriteOne);
      BlocksFirst(s.toWrite, s.written);
      var b := [Block(s.toWrite[s.written].lines)];
      assert s.file + (b + Blocks(t.toWrite[t.written..])) == t.file + Blocks(t.toWrite[t.written..]);
      var rest;
      rest, k := WritesReach(t, Record(s, h, WriteOne));
      run := [WriteOne] + rest;
      assert run[1..] == rest;
    }
  }

  lemma {:induction false} ReachesSnoc(s: Logger, h: History, run: seq<Action>, t: Logger, k: History, a: Action)
    requires LoggerHistory.Reaches(s, h, run, t, k) && Enabled(t, a) && Safe(t, a)
    ensures LoggerHistory.Reaches(s, h, run + [a], Next(t, a), Record(t, k, a))
    decreases |run|
  {
    hide Next, Record, Enabled, Safe;
    if run == [] {
      assert LoggerHistory.Reaches(Next(t, a), Record(t, k, a), [], Next(t, a), Record(t, k, a));
      assert ([] + [a])[0] == a && ([] + [a])[1..] == [];
    } else {
      ReachesSnoc(Next(s, run[0]), Record(s, h, run[0]), run[1..], t, k, a);
      assert (run + [a])[1..] == run[1..] + [a];
    }
  }

  lemma NoSteps(s: Logger, h: History) returns (run: seq<Action>, k: History)
    ensures NoAppend(run) && LoggerHistory.Reaches(s, h, run, s, k)
  {
    run, k := [], h;
  }

  lemma OneStep(s: Logger, h: History, run: seq<Action>, t: Logger, k: History, a: Action)
    returns (run': seq<Action>, k': History)
    requires NoAppend(run) && LoggerHistory.Reaches(s, h, run, t, k) && Owns(t) && Enabled(t, a) && !a.Append?
    ensures Safe(t, a) && NoAppend(run') && LoggerHistory.Reaches(s, h, run', Next(t, a), k')
  {
    hide Next, Record, Enabled, Safe, Owns, LoggerHistory.Reaches;
    StepOwns(t, a);
    ReachesSnoc(s, h, run, t, k, a);
    run', k' := run + [a], Record(t, k, a);
  }

  lemma MoreSteps(s: Logger, h: History, run: seq<Action>, t: Logger, k: History, more: seq<Action>, u: Logger, m: History)
    returns (run': seq<Action>, k': History)
    requires NoAppend(run) && LoggerHistory.Reaches(s, h, run, t, k)
    requires NoAppend(more) && LoggerHistory.Reaches(t, k, more, u, m)
    ensures NoAppend(run') && LoggerHistory.Reaches(s, h, run', u, k')
  {
    hide LoggerHistory.Reaches;
    LoggerHistory.ReachesThen(s, h, run, t, k, more, u, m);
    run', k' := run + more, m;
  }

  lemma StopFirst(s: Logger, h: History, run: seq<Action>, t: Logger, k: History)
    requires LoggerHistory.Reaches(Next(s, Action.Stop), Record(s, h, Action.Stop), run, t, k)
    ensures LoggerHistory.Reaches(s, h, [Action.Stop] + run, t, k)
  {
    assert ([Action.Stop] + run)[1..] == run;
  }

  class AsyncLogger {
    const heap: BufferHeap
    var running: bool
    var currentBuffer: Option<Address>
    var nextBuffer: Option<Address>
    var buffers: seq<Address>
    // locals of threadFunc
    var phase: Phase
    var buffer1: Option<Address>
    var buffer2: Option<Address>
    var buffersToWrite: seq<Address>
    var written: nat
    var file: string
    ghost var entries: seq<Entry>   // the writes that made the file

    ghost function Held(): Pointers
      reads this
    {
      Pointers(currentBuffer, nextBuffer, buffers, buffer1, buffer2, buffersToWrite)
    }

    /** The protocol's state. */
    ghost function View(): Logger
      reads this, heap, heap.Repr
      requires heap.Valid()
    {
      var m := heap.Lines();
      Logger(|m|, running, PtrAt(m, currentBuffer), PtrAt(m, nextBuffer), BufsAt(m, buffers),
             phase, PtrAt(m, buffer1), PtrAt(m, buffer2), BufsAt(m, buffersToWrite), written, entries)
    }

    ghost predicate Valid()
      reads this, heap, heap.Repr
    {
      heap.Valid() && this !in heap.Repr
      && Owns(View()) && Unaliased(View()) && file == Render(entries)
    }

    /** The constructor, start(), and the two buffers that threadFunc allocates. */
    constructor ()
      ensures Valid() && fresh(heap) && fresh(heap.Repr) && View() == INIT
    {
      heap := new BufferHeap(4);
      running, phase := true, Head;
      buffers, buffersToWrite, written, file, entries := [], [], 0, "", [];
      currentBuffer, nextBuffer, buffer1, buffer2 := Some(0), Some(1), Some(2), Some(3);
      new;
      hide Owns, Unaliased, PtrAt, BufsAt, Render;
      StartMatches();
    }

    // ---- append

    /** The line goes to the current buffer, if it fits. */
    method Fill(line: string)
      requires heap.Valid() && this !in heap.Repr && currentBuffer.Some? && currentBuffer.value < |heap.store|
      requires References(Held(), currentBuffer.value) <= 1
      modifies heap.Repr
      ensures heap.Valid() && heap.Repr == old(heap.Repr)
      ensures View() == old(View()).(current := Ptr(Put(old(View()).current.buf, line)))
    {
      hide Flatten, References, PtrAt, BufsAt;
      ghost var s, o, m := View(), Held(), heap.Lines();
      var a := currentBuffer.value;
      PtrIs(m, a);
      heap.Append(a, line);
      PutKeepsId(s.current.buf, line);
      WriteCurrent(s, o, m, Put(s.current.buf, line).lines);
    }

    /** The full buffer goes to buffers_, and the next one takes its place. */
    method TakeNext()
      requires heap.Valid() && this !in heap.Repr && currentBuffer.Some? && nextBuffer.Some?
      modifies this`currentBuffer, this`nextBuffer, this`buffers
      ensures heap.Valid() && View() == Rotated(old(View())) && currentBuffer == old(nextBuffer)
      ensures buffers == old(buffers) + [old(currentBuffer).value]
      ensures References(Held(), currentBuffer.value) == References(old(Held()), currentBuffer.value)
    {
      hide References, PtrAt, BufsAt;
      RotateToNext(View(), Held(), heap.Lines());
      buffers := buffers + [currentBuffer.value];
      currentBuffer := nextBuffer;
      nextBuffer := None;
    }

    /** Or a new one does. */
    method TakeNew()
      requires heap.Valid() && this !in heap.Repr && currentBuffer.Some? && nextBuffer.None?
      requires References(Held(), |heap.store|) == 0
      modifies heap, this`currentBuffer, this`buffers
      ensures heap.Valid() && fresh(heap.Repr - old(heap.Repr)) && this !in heap.Repr
      ensures View() == Rotated(old(View())) && currentBuffer == Some(|old(heap.store)|)
      ensures buffers == old(buffers) + [old(currentBuffer).value]
      ensures currentBuffer.value < |heap.store| && References(Held(), currentBuffer.value) == 1
    {
      hide References, PtrAt, BufsAt;
      RotateToNew(View(), Held(), heap.Lines());
      buffers := buffers + [currentBuffer.value];
      var a := heap.New();
      currentBuffer := Some(a);
    }

    /** append, under the mutex. */
    method Append(line: string)
      requires Valid()
      modifies this, heap, heap.Repr
      ensures Valid() && fresh(heap.Repr - old(heap.Repr)) && View() == AfterAppend(old(View()), line)
      ensures old(currentBuffer.Some?)
              && var full := |Flatten(old(View()).current.buf.lines)| + |line| >= 4_000_000;
                 buffers == old(buffers) + if full then [old(currentBuffer).value] else []
    {
      hide Owns, Unaliased, References, PtrAt, BufsAt, Flatten, AfterAppend, Render;
      ghost var s, o, m := View(), Held(), heap.Lines();
      StepOwns(s, Action.Append(line));
      StepUnaliased(s, Action.Append(line));
      AppendIsRotateThenPut(s, line);
      CurrentIsThere(s, o, m);
      PtrIs(m, currentBuffer.value);
      var room := heap.HasRoom(currentBuffer.value, line);
      if !room {
        if nextBuffer.Some? {
          NextIsThere(s, o, m);
          TakeNext();
        } else {
          NewIsUnknown(s, o, m);
          TakeNew();
        }
      }
      Fill(line);
    }

    // ---- threadFunc

    /** The locked section at the loop head, after any wait. */
    method Drain()
      requires Valid() && Enabled(View(), Action.Drain)
      modifies this
      ensures Valid() && View() == AfterDrain(old(View()))
    {
      hide Owns, Unaliased, PtrAt, BufsAt, Render;
      ghost var s, o, m := View(), Held(), heap.Lines();
      StepOwns(s, Action.Drain);
      StepUnaliased(s, Action.Drain);
      CurrentIsThere(s, o, m);
      DrainMatches(s, o, m);
      buffers := buffers + [currentBuffer.value];
      currentBuffer := buffer1;
      buffer1 := None;
      buffersToWrite, buffers := buffers, buffersToWrite;
      if nextBuffer.None? {
        nextBuffer := buffer2;
        buffer2 := None;
      }
      phase := Drained;
    }

    /** More than 25 buffers: say so in the file and keep the first two. */
    method Trim()
      requires Valid() && Enabled(View(), Action.Trim)
      modifies this`file, this`entries, this`buffersToWrite, this`written, this`phase
      ensures Valid() && View() == AfterTrim(old(View()))
      ensures var n := |old(buffersToWrite)|;
              if n > 25
              then file == old(file) + ("Dropped log messages, " + Decimal(n) + " larger than 25\n")
                   && buffersToWrite == old(buffersToWrite[..2])
              else file == old(file) && buffersToWrite == old(buffersToWrite)
    {
      hide Owns, Unaliased, PtrAt, Render, Decimal;
      ghost var s, m := View(), heap.Lines();
      StepOwns(s, Action.Trim);
      StepUnaliased(s, Action.Trim);
      if |buffersToWrite| > TRIM_LIMIT {
        RenderSnoc(entries, Notice(|buffersToWrite|));
        BufsPrefix(m, buffersToWrite, 2);
        file := file + NoticeText(|buffersToWrite|);
        entries := entries + [Notice(|buffersToWrite|)];
        buffersToWrite := buffersToWrite[..2];
      }
      written := 0;
      phase := Writing;
      assert View() == AfterTrim(s);
    }

    /** One turn of the loop over buffersToWrite. */
    method WriteNext()
      requires Valid() && Enabled(View(), WriteOne)
      modifies this`file, this`entries, this`written
      ensures Valid() && View() == Next(old(View()), WriteOne)
      ensures file == old(file) + Flatten(old(View()).toWrite[old(written)].lines)
    {
      hide Owns, Unaliased, PtrAt, Render, Flatten;
      ghost var s, o, m := View(), Held(), heap.Lines();
      StepOwns(s, WriteOne);
      StepUnaliased(s, WriteOne);
      var a := buffersToWrite[written];
      WrittenIsThere(s, o, m, written);
      var text := heap.Text(a);
      RenderSnoc(entries, Block(m[a]));
      file := file + text;
      entries := entries + [Block(m[a])];
      written := written + 1;
      assert View() == Next(s, WriteOne);
    }

    /** The loop over buffersToWrite: one fwrite each, in order. */
    method WriteAll()
      requires Valid() && phase.Writing? && written <= |buffersToWrite|
      modifies this`file, this`entries, this`written
      ensures Valid() && written == |buffersToWrite|
      ensures View() == old(View()).(written := written, file := entries)
      ensures entries == old(entries) + Blocks(old(View().toWrite[written..]))
      ensures file == old(file) + Flatten(LoggerHistory.Lines(old(View().toWrite[written..])))
    {
      hide Owns, Unaliased, PtrAt, BufsAt, Render, Flatten, Blocks, LoggerHistory.Lines;
      ghost var v, es, pending := View(), entries, View().toWrite[written..];
      ghost var text := file;
      while written < |buffersToWrite|
        invariant Valid() && written <= |buffersToWrite|
        invariant View() == v.(written := written, file := entries)
        invariant entries + Blocks(v.toWrite[written..]) == es + Blocks(pending)
        invariant file + Flatten(LoggerHistory.Lines(v.toWrite[written..])) == text + Flatten(LoggerHistory.Lines(pending))
        decreases |buffersToWrite| - written
      {
        BlocksFirst(v.toWrite, written);
        TextFirst(v.toWrite, written);
        WriteNext();
      }
      NoBlocks(v.toWrite);
      NoText(v.toWrite);
    }

    /** buffer1 takes back(), reset. */
    method TakeBack1()
      requires heap.Valid() && this !in heap.Repr && Sole(Held(), |heap.store|)
      requires buffer1.None? && buffersToWrite != []
      modifies this`buffer1, this`buffersToWrite, heap.Repr
      ensures heap.Valid() && heap.Repr == old(heap.Repr) && |heap.store| == |old(heap.store)|
      ensures Sole(Held(), |heap.store|) && View() == Take1(old(View()))
    {
      hide Sole, PtrAt, BufsAt;
      Take1Matches(View(), Held(), heap.Lines());
      var n := |buffersToWrite| - 1;
      buffer1 := Some(buffersToWrite[n]);
      buffersToWrite := buffersToWrite[..n];
      heap.Reset(buffer1.value);
    }

    method TakeBack2()
      requires heap.Valid() && this !in heap.Repr && Sole(Held(), |heap.store|)
      requires buffer2.None? && buffersToWrite != []
      modifies this`buffer2, this`buffersToWrite, heap.Repr
      ensures heap.Valid() && heap.Repr == old(heap.Repr) && |heap.store| == |old(heap.store)|
      ensures Sole(Held(), |heap.store|) && View() == Take2(old(View()))
    {
      hide Sole, PtrAt, BufsAt;
      Take2Matches(View(), Held(), heap.Lines());
      var n := |buffersToWrite| - 1;
      buffer2 := Some(buffersToWrite[n]);
      buffersToWrite := buffersToWrite[..n];
      heap.Reset(buffer2.value);
    }

    /** resize(2). */
    method Resize()
      requires heap.Valid() && this !in heap.Repr && Sole(Held(), |heap.store|)
      modifies this`buffersToWrite
      ensures heap.Valid() && Sole(Held(), |heap.store|)
      ensures View() == old(View()).(toWrite := Spare(old(View())))
    {
      hide Sole, PtrAt, BufsAt;
      if |buffersToWrite| > 2 {
        BufsPrefix(heap.Lines(), buffersToWrite, 2);
        PrefixSole(Held(), |heap.store|, 2);
        buffersToWrite := buffersToWrite[..2];
      }
    }

    /** Takes the spare buffers back, reset, and drops the rest. */
    method Recycle()
      requires Valid() && Enabled(View(), Action.Recycle)
      modifies this`buffer1, this`buffer2, this`buffersToWrite, this`phase, heap.Repr
      ensures Valid() && heap.Repr == old(heap.Repr)
      ensures Safe(old(View()), Action.Recycle) && View() == AfterRecycle(old(View()))
    {
      hide Owns, Unaliased, PtrAt, BufsAt, Render, Sole, AfterRecycle, Spare;
      ghost var s := View();
      StepOwns(s, Action.Recycle);
      StepUnaliased(s, Action.Recycle);
      UnaliasedIsSole(s, Held(), heap.Lines());
      RecycleIsTakes(s);
      NullIsNone(heap.Lines());
      Resize();
      if buffer1.None? {
        TakeBack1();
      }
      if buffer2.None? {
        TakeBack2();
      }
      NoneAtAll(heap.Lines());
      buffersToWrite := [];
      phase := Head;
    }

    /** The loop test once running is false. */
    method LeaveLoop()
      requires Valid() && Enabled(View(), Action.Exit)
      modifies this`phase
      ensures Valid() && View() == Next(old(View()), Action.Exit)
    {
      hide Owns, Unaliased, PtrAt, BufsAt, Render;
      ghost var s := View();
      StepOwns(s, Action.Exit);
      StepUnaliased(s, Action.Exit);
      phase := Exited;
      assert View() == Next(s, Action.Exit);
    }

    method WriteAndRecycle(ghost h: History) returns (ghost run: seq<Action>, ghost k: History)
      requires Valid() && phase.Writing?
      modifies this`file, this`entries, this`written, this`phase
      modifies this`buffer1, this`buffer2, this`buffersToWrite, heap.Repr
      ensures Valid() && phase.Head? && running == old(running)
      ensures NoAppend(run) && LoggerHistory.Reaches(old(View()), h, run, View(), k)
      ensures View().file == LastFile(old(View()))
      ensures View().buffers == old(View().buffers) && View().current == old(View().current)
    {
      hide Owns, Unaliased, PtrAt, BufsAt, Render, Spare, Blocks, Record, LoggerHistory.Reaches, NoAppend;
      ghost var s := View();
      WrittenInside(s);
      run, k := WritesReach(s, h);
      WriteAll();
      run, k := OneStep(s, h, run, View(), k, Action.Recycle);
      Recycle();
    }

    /** The rest of the round that the consumer is in, and the loop test that ends it: a run of the
        protocol without appends, whatever was recorded before. */
    method FinishRound(ghost h: History) returns (ghost run: seq<Action>, ghost k: History)
      requires Valid() && !running
      modifies this`file, this`entries, this`written, this`phase
      modifies this`buffer1, this`buffer2, this`buffersToWrite, heap.Repr
      ensures Valid() && phase.Exited?
      ensures NoAppend(run) && LoggerHistory.Reaches(old(View()), h, run, View(), k)
      ensures View().file == LastFile(old(View()))
      ensures View().buffers == old(View().buffers) && View().current == old(View().current)
    {
      hide Owns, Unaliased, PtrAt, BufsAt, Render, Spare, Blocks, Record, LoggerHistory.Reaches, NoAppend;
      ghost var s := View();
      run, k := NoSteps(s, h);
      if phase.Drained? {
        run, k := OneStep(s, h, run, View(), k, Action.Trim);
        Trim();
      }
      if phase.Writing? {
        ghost var t := View();
        ghost var more, m := WriteAndRecycle(k);
        run, k := MoreSteps(s, h, run, t, k, more, View(), m);
      }
      if phase.Head? {
        run, k := OneStep(s, h, run, View(), k, Action.Exit);
        LeaveLoop();
      }
    }

    /** stop(): the flag, and the join with a thread that finishes its round and leaves. A thread at the
        loop head that has `passed` the test already goes round once more, and takes along what waits in
        the buffers; otherwise that stays there. */
    method Stop(passed: bool, ghost h: History) returns (ghost run: seq<Action>, ghost k: History)
      requires Valid()
      modifies this, heap.Repr
      ensures Valid() && phase.Exited? && !running
      ensures NoAppend(run) && LoggerHistory.Reaches(old(View()), h, [Action.Stop] + run, View(), k)
      ensures if passed && old(phase).Head?
              then View().file == LastFile(AfterDrain(old(View()))) && View().buffers == [] && Empty(View().current)
              else View().file == LastFile(old(View()))
                   && View().buffers == old(View().buffers) && View().current == old(View().current)
    {
      hide Owns, Unaliased, PtrAt, BufsAt, Render, Record, LoggerHistory.Reaches, NoAppend;
      ghost var s := View();
      StepOwns(s, Action.Stop);
      StepUnaliased(s, Action.Stop);
      running := false;
      assert View() == Next(s, Action.Stop);
      ghost var s1, h1 := View(), Record(s, h, Action.Stop);
      run, k := NoSteps(s1, h1);
      if passed && phase.Head? {
        HeadIsEmpty(s);
        run, k := OneStep(s1, h1, run, View(), k, Action.Drain);
        Drain();
      }
      LastFileIgnoresFlag(s);
      ghost var t := View();
      ghost var more, m := FinishRound(k);
      run, k := MoreSteps(s1, h1, run, t, k, more, View(), m);
      StopFirst(s, h, run, View(), k);
    }
  }

  /** The text of the file: without notices, it and what is still held are the text of the appended
      lines that fit a buffer. */
  lemma FileText(log: AsyncLogger, run: seq<Action>, k: History)
    requires log.Valid() && LoggerHistory.Reaches(INIT, NO_HISTORY, run, log.View(), k)
    requires FileCounts(log.entries) == []
    ensures log.file + Flatten(Held(log.View(), k)) == Flatten(Storable(Appends(run)))
  {
    hide Flatten, Owns, Unaliased, BlockLines, FileBlocks, FileCounts, Held, Storable, Render, LoggerHistory.Reaches;
    FileWithoutNotices(run, log.View(), k);
    TextOfBlocks(log.entries);
    FlattenConcat(BlockLines(FileBlocks(log.entries)), Held(log.View(), k));
  }
}
