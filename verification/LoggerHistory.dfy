/** Runs of the logger protocol: what was appended, what the file holds, and what is in between. */
module LoggerHistory {
  import opened LogStream
  import opened LoggerProtocol

  /** What became of the buffers that left the consumer, in the order they were filled: written to
      the file, or erased together by one trim. */
  datatype Fate = Kept(lines: seq<Line>) | Erased(batch: seq<Buf>)

  /** Record of a run: lines appended so far, fates so far, and what the present round has erased. */
  datatype History = History(appended: seq<Line>, fates: seq<Fate>, trimmed: seq<Buf>)

  const NO_HISTORY := History([], [], [])

  ghost function Record(s: Logger, h: History, a: Action): History
    requires Enabled(s, a)
  {
    match a
    case Append(line) => h.(appended := h.appended + [line])
    case Trim => if |s.toWrite| > TRIM_LIMIT then h.(trimmed := s.toWrite[2..]) else h
    case WriteOne => h.(fates := h.fates + [Kept(s.toWrite[s.written].lines)])
    case Recycle => if h.trimmed == [] then h else h.(fates := h.fates + [Erased(h.trimmed)], trimmed := [])
    case _ => h
  }

  ghost function Fitting(line: Line): seq<Line> {
    if |line| < CAPACITY then [line] else []
  }

  /** The lines that a buffer can hold at all. */
  ghost function Storable(lines: seq<Line>): seq<Line> {
    if lines == [] then []
    else Storable(lines[..|lines| - 1]) + Fitting(lines[|lines| - 1])
  }

  ghost function Lines(bufs: seq<Buf>): seq<Line> {
    if bufs == [] then [] else Lines(bufs[..|bufs| - 1]) + bufs[|bufs| - 1].lines
  }

  ghost function FateLines(f: Fate): seq<Line> {
    match f
    case Kept(b) => b
    case Erased(batch) => Lines(batch)
  }

  ghost function AllLines(fates: seq<Fate>): seq<Line> {
    if fates == [] then [] else AllLines(fates[..|fates| - 1]) + FateLines(fates[|fates| - 1])
  }

  /** What the kept buffers put in the file, and the notices that the erasures put there. */
  ghost function BlocksOf(fates: seq<Fate>): seq<Entry> {
    if fates == [] then []
    else BlocksOf(fates[..|fates| - 1]) + (match fates[|fates| - 1] case Kept(b) => [Block(b)] case Erased(_) => [])
  }

  ghost function Counts(fates: seq<Fate>): seq<nat> {
    if fates == [] then []
    else Counts(fates[..|fates| - 1]) + (match fates[|fates| - 1] case Kept(_) => [] case Erased(batch) => [|batch| + 2])
  }

  ghost function FileBlocks(file: seq<Entry>): seq<Entry> {
    if file == [] then []
    else FileBlocks(file[..|file| - 1]) + (if file[|file| - 1].Block? then [file[|file| - 1]] else [])
  }

  ghost function FileCounts(file: seq<Entry>): seq<nat> {
    if file == [] then []
    else FileCounts(file[..|file| - 1]) + (if file[|file| - 1].Notice? then [file[|file| - 1].count] else [])
  }

  /** Buffers that the consumer holds and has not written. */
  ghost function Unwritten(s: Logger): seq<Buf> {
    match s.phase
    case Drained => s.toWrite
    case Writing => if s.written <= |s.toWrite| then s.toWrite[s.written..] else []
    case _ => []
  }

  ghost function Deref(p: Ptr): seq<Line> {
    if p.Null? then [] else p.buf.lines
  }

  ghost function Held(s: Logger, h: History): seq<Line> {
    Lines(Unwritten(s)) + Lines(h.trimmed) + Lines(s.buffers) + Deref(s.current)
  }

  /** Nothing is lost, duplicated or reordered: fates, then what the consumer holds, then what waits. */
  ghost predicate Conserves(s: Logger, h: History) {
    AllLines(h.fates) + Held(s, h) == Storable(h.appended)
  }

  /** The file is the kept buffers, and one notice for each trim, naming how many were drained. */
  ghost predicate FileMatches(s: Logger, h: History) {
    FileBlocks(s.file) == BlocksOf(h.fates)
    && FileCounts(s.file) == Counts(h.fates) + if h.trimmed == [] then [] else [|h.trimmed| + 2]
  }

  /** Only drains of more than the limit are trimmed. */
  ghost predicate TrimsAreLarge(h: History) {
    (forall f :: f in h.fates && f.Erased? ==> |f.batch| + 2 > TRIM_LIMIT)
    && (h.trimmed != [] ==> |h.trimmed| + 2 > TRIM_LIMIT)
  }

  /** What the file and its record promise between them. */
  ghost predicate FileInv(s: Logger, h: History) {
    FileMatches(s, h) && TrimsAreLarge(h) && (!s.phase.Writing? ==> h.trimmed == [])
  }

  ghost predicate Inv(s: Logger, h: History) {
    Owns(s) && Unaliased(s) && Conserves(s, h) && FileInv(s, h)
  }

  lemma LinesSnoc(bufs: seq<Buf>, b: Buf)
    ensures Lines(bufs + [b]) == Lines(bufs) + b.lines
  {
    Snoc(bufs, b);
  }

  lemma Regroup(a: seq<Line>, b: seq<Line>, c: seq<Line>)
    ensures a + b + c == a + (b + c)
  {
  }

  lemma LastOfSum(a: seq<Buf>, b: seq<Buf>)
    requires b != []
    ensures b == b[..|b| - 1] + [b[|b| - 1]]
    ensures a + b == (a + b[..|b| - 1]) + [b[|b| - 1]]
  {
  }

  lemma {:induction false} LinesOfConcat(a: seq<Buf>, b: seq<Buf>)
    ensures Lines(a + b) == Lines(a) + Lines(b)
    decreases |b|
  {
    if b == [] {
      assert a + b == a;
    } else {
      hide Lines;
      var front, last := b[..|b| - 1], b[|b| - 1];
      LinesOfConcat(a, front);
      LinesSnoc(a + front, last);
      LinesSnoc(front, last);
      LastOfSum(a, b);
      Regroup(Lines(a), Lines(front), last.lines);
    }
  }

  /** The lines of a buffer after Put: a line is stored exactly when it fits an empty buffer or here. */
  lemma FlattenFits(b: Buf, line: Line)
    requires b.lines == []
    ensures Put(b, line).lines == Fitting(line)
  {
    assert [] + [line] == [line];
  }

  /** Everything held except the buffer being filled. */
  ghost function HeldBefore(s: Logger, h: History): seq<Line> {
    Lines(Unwritten(s)) + Lines(h.trimmed) + Lines(s.buffers)
  }

  lemma AppendHere(s: Logger, h: History, line: Line)
    requires s.current.Ptr? && Used(s.current.buf.lines) + |line| < CAPACITY
    ensures Held(AfterAppend(s, line), h) == Held(s, h) + Fitting(line)
  {
    hide Flatten, Lines;
    var cur := s.current.buf.lines;
    assert HeldBefore(s, h) + (cur + [line]) == HeldBefore(s, h) + cur + [line];
  }

  lemma AppendRotates(s: Logger, h: History, line: Line)
    requires Owns(s) && Used(s.current.buf.lines) + |line| >= CAPACITY
    ensures Held(AfterAppend(s, line), h) == Held(s, h) + Fitting(line)
  {
    FlattenFits(if s.next.Ptr? then s.next.buf else Buf(s.allocations, []), line);
    LinesSnoc(s.buffers, s.current.buf);
    hide Flatten, Lines, Put;
    var cur, a := s.current.buf.lines, Lines(Unwritten(s)) + Lines(h.trimmed);
    assert a + (Lines(s.buffers) + cur) == a + Lines(s.buffers) + cur;
  }

  lemma AppendHolds(s: Logger, h: History, line: Line)
    requires Owns(s)
    ensures Held(AfterAppend(s, line), h) == Held(s, h) + Fitting(line)
  {
    hide Held, Lines, Flatten, AfterAppend;
    if Used(s.current.buf.lines) + |line| < CAPACITY {
      AppendHere(s, h, line);
    } else {
      AppendRotates(s, h, line);
    }
  }

  lemma Shift2(fates: seq<Line>, held: seq<Line>, more: seq<Line>)
    ensures fates + (held + more) == fates + held + more
  {
  }

  lemma AppendPreserves(s: Logger, h: History, line: Line)
    requires Owns(s) && Conserves(s, h)
    ensures Conserves(AfterAppend(s, line), h.(appended := h.appended + [line]))
  {
    AppendHolds(s, h, line);
    hide Held, AllLines, AfterAppend;
    Snoc(h.appended, line);
    Shift2(AllLines(h.fates), Held(s, h), Fitting(line));
  }

  lemma FatesSnoc(fates: seq<Fate>, f: Fate)
    ensures AllLines(fates + [f]) == AllLines(fates) + FateLines(f)
    ensures BlocksOf(fates + [f]) == BlocksOf(fates) + match f case Kept(b) => [Block(b)] case Erased(_) => []
    ensures Counts(fates + [f]) == Counts(fates) + match f case Kept(_) => [] case Erased(batch) => [|batch| + 2]
  {
    Snoc(fates, f);
  }

  lemma FileSnoc(file: seq<Entry>, e: Entry)
    ensures FileBlocks(file + [e]) == FileBlocks(file) + if e.Block? then [e] else []
    ensures FileCounts(file + [e]) == FileCounts(file) + if e.Notice? then [e.count] else []
  {
    Snoc(file, e);
  }

  lemma DrainShape(s: Logger)
    requires Owns(s) && Enabled(s, Drain)
    ensures var t := AfterDrain(s);
            s.current.Ptr? && Unwritten(s) == [] && Unwritten(t) == s.buffers + [s.current.buf] && !s.phase.Writing?
            && t.buffers == [] && Deref(t.current) == [] && Deref(s.current) == s.current.buf.lines
  {
  }

  lemma LinesOfNone()
    ensures Lines([]) == []
  {
  }

  lemma DrainPreserves(s: Logger, h: History)
    requires Inv(s, h) && Enabled(s, Drain)
    ensures Held(AfterDrain(s), h) == Held(s, h)
  {
    hide Flatten, Lines, Conserves, FileMatches, TrimsAreLarge, AfterDrain, Owns, Unaliased, Unwritten, Deref;
    DrainShape(s);
    LinesSnoc(s.buffers, s.current.buf);
    LinesOfNone();
    assert h.trimmed == [];
  }

  lemma TrimShape(s: Logger, h: History)
    requires Enabled(s, Trim)
    ensures var t, k := AfterTrim(s), Record(s, h, Trim);
            t.buffers == s.buffers && t.current == s.current && Unwritten(s) == s.toWrite
            && if |s.toWrite| > TRIM_LIMIT then Unwritten(t) == s.toWrite[..2] && k.trimmed == s.toWrite[2..]
               else Unwritten(t) == s.toWrite && k == h
  {
  }

  lemma TrimPreserves(s: Logger, h: History)
    requires Inv(s, h) && Enabled(s, Trim)
    ensures Held(AfterTrim(s), Record(s, h, Trim)) == Held(s, h)
  {
    hide Flatten, Lines, Conserves, FileMatches, TrimsAreLarge, Owns, Unaliased, AfterTrim, Record, Unwritten, Deref;
    LinesOfNone();
    TrimShape(s, h);
    if |s.toWrite| > TRIM_LIMIT {
      LinesOfConcat(s.toWrite[..2], s.toWrite[2..]);
      assert s.toWrite == s.toWrite[..2] + s.toWrite[2..];
    }
  }

  lemma LinesFirst(b: Buf, rest: seq<Buf>)
    ensures Lines([b] + rest) == b.lines + Lines(rest)
  {
    LinesOfConcat([b], rest);
    LinesSnoc([], b);
    LinesOfNone();
    assert [] + [b] == [b] && [] + b.lines == b.lines;
  }

  lemma HeldFirst(s: Logger, h: History)
    requires Enabled(s, WriteOne)
    ensures Held(s, h) == s.toWrite[s.written].lines + Held(s.(written := s.written + 1), h)
  {
    hide Lines;
    var b, rest := s.toWrite[s.written], s.toWrite[s.written + 1..];
    assert s.toWrite[s.written..] == [b] + rest;
    LinesFirst(b, rest);
    var x, y, z := Lines(h.trimmed), Lines(s.buffers), Deref(s.current);
    assert b.lines + Lines(rest) + x + y + z == b.lines + (Lines(rest) + x + y + z);
  }

  /** Lines that leave the held part and join the fates keep the whole. */
  lemma Shift(fates: seq<Line>, held: seq<Line>, whole: seq<Line>, x: seq<Line>, rest: seq<Line>)
    requires fates + held == whole && held == x + rest
    ensures fates + x + rest == whole
  {
  }

  lemma WriteHolds(s: Logger, h: History)
    requires Enabled(s, WriteOne)
    ensures Held(s, h) == s.toWrite[s.written].lines + Held(Next(s, WriteOne), Record(s, h, WriteOne))
  {
    HeldFirst(s, h);
    hide Lines;
    assert Held(s.(written := s.written + 1), h) == Held(Next(s, WriteOne), Record(s, h, WriteOne));
  }

  lemma WritePreserves(s: Logger, h: History)
    requires Conserves(s, h) && Enabled(s, WriteOne)
    ensures Conserves(Next(s, WriteOne), Record(s, h, WriteOne))
  {
    WriteHolds(s, h);
    hide Held, AllLines, Storable, Next;
    var b := s.toWrite[s.written].lines;
    FatesSnoc(h.fates, Kept(b));
    Shift(AllLines(h.fates), Held(s, h), Storable(h.appended), b, Held(Next(s, WriteOne), Record(s, h, WriteOne)));
  }

  lemma RecycleHolds(s: Logger, h: History)
    requires Enabled(s, Recycle) && Safe(s, Recycle)
    ensures Held(s, h) == Lines(h.trimmed) + Held(AfterRecycle(s), Record(s, h, Recycle))
  {
    LinesOfNone();
    hide Lines;
    assert Unwritten(s) == [];
    var x, y, z := Lines(h.trimmed), Lines(s.buffers), Deref(s.current);
    assert [] + x + y + z == x + ([] + [] + y + z);
    assert Record(s, h, Recycle).trimmed == [];
  }

  lemma RecyclePreserves(s: Logger, h: History)
    requires Conserves(s, h) && Enabled(s, Recycle) && Safe(s, Recycle)
    ensures Conserves(AfterRecycle(s), Record(s, h, Recycle))
  {
    RecycleHolds(s, h);
    LinesOfNone();
    hide Held, AllLines, Storable, AfterRecycle, Lines;
    FatesSnoc(h.fates, Erased(h.trimmed));
    var rest := Held(AfterRecycle(s), Record(s, h, Recycle));
    Shift(AllLines(h.fates), Held(s, h), Storable(h.appended), Lines(h.trimmed), rest);
    assert AllLines(h.fates) + [] == AllLines(h.fates);
  }

  lemma StepConserves(s: Logger, h: History, a: Action)
    requires Inv(s, h) && Enabled(s, a) && Safe(s, a)
    ensures Conserves(Next(s, a), Record(s, h, a))
  {
    hide Flatten, AllLines, Lines, Storable;
    match a
    case Append(line) => AppendPreserves(s, h, line);
    case Drain => DrainPreserves(s, h);
    case Trim => TrimPreserves(s, h);
    case WriteOne => WritePreserves(s, h);
    case Recycle => RecyclePreserves(s, h);
    case _ =>
  }

  lemma TrimMatches(s: Logger, h: History)
    requires FileInv(s, h) && Enabled(s, Trim)
    ensures FileInv(AfterTrim(s), Record(s, h, Trim))
  {
    hide BlocksOf, Counts, FileBlocks, FileCounts;
    FileSnoc(s.file, Notice(|s.toWrite|));
  }

  lemma KeptIsNoTrim(h: History, b: seq<Line>)
    requires TrimsAreLarge(h)
    ensures TrimsAreLarge(h.(fates := h.fates + [Kept(b)]))
  {
  }

  lemma WriteMatches(s: Logger, h: History)
    requires FileInv(s, h) && Enabled(s, WriteOne)
    ensures FileInv(Next(s, WriteOne), Record(s, h, WriteOne))
  {
    hide BlocksOf, Counts, FileBlocks, FileCounts, AllLines, FateLines, TrimsAreLarge;
    var b := s.toWrite[s.written].lines;
    FileSnoc(s.file, Block(b));
    FatesSnoc(h.fates, Kept(b));
    KeptIsNoTrim(h, b);
  }

  lemma RecycleMatches(s: Logger, h: History)
    requires FileInv(s, h) && Enabled(s, Recycle) && Safe(s, Recycle)
    ensures FileInv(AfterRecycle(s), Record(s, h, Recycle))
  {
    hide BlocksOf, Counts, FileBlocks, FileCounts;
    FatesSnoc(h.fates, Erased(h.trimmed));
  }

  lemma StepMatches(s: Logger, h: History, a: Action)
    requires FileInv(s, h) && Enabled(s, a) && Safe(s, a)
    ensures FileInv(Next(s, a), Record(s, h, a))
  {
    hide BlocksOf, Counts, FileBlocks, FileCounts;
    match a
    case Trim => TrimMatches(s, h);
    case WriteOne => WriteMatches(s, h);
    case Recycle => RecycleMatches(s, h);
    case _ =>
  }

  lemma StepPreserves(s: Logger, h: History, a: Action)
    requires Inv(s, h) && Enabled(s, a)
    ensures Safe(s, a) && Inv(Next(s, a), Record(s, h, a))
  {
    hide Next, Record, Owns, Unaliased, Conserves, FileInv;
    StepOwns(s, a);
    StepUnaliased(s, a);
    StepConserves(s, h, a);
    StepMatches(s, h, a);
  }

  // ---- Runs

  /** The run leads from (s, h) to (t, k); a step that is not safe leads nowhere. */
  ghost predicate Reaches(s: Logger, h: History, run: seq<Action>, t: Logger, k: History)
    decreases |run|
  {
    if run == [] then s == t && h == k
    else Enabled(s, run[0]) && Safe(s, run[0])
         && Reaches(Next(s, run[0]), Record(s, h, run[0]), run[1..], t, k)
  }

  ghost function Appends(run: seq<Action>): seq<Line> {
    if run == [] then []
    else (if run[0].Append? then [run[0].line] else []) + Appends(run[1..])
  }

  lemma {:induction false} RunPreserves(s: Logger, h: History, run: seq<Action>, t: Logger, k: History)
    requires Inv(s, h) && Reaches(s, h, run, t, k)
    ensures Inv(t, k)
    decreases |run|
  {
    hide Next, Inv, Record, Enabled, Safe;
    if run != [] {
      StepPreserves(s, h, run[0]);
      RunPreserves(Next(s, run[0]), Record(s, h, run[0]), run[1..], t, k);
    }
  }

  lemma RecordAppends(s: Logger, h: History, a: Action)
    requires Enabled(s, a)
    ensures Record(s, h, a).appended == h.appended + if a.Append? then [a.line] else []
  {
  }

  lemma {:induction false} RunAppends(s: Logger, h: History, run: seq<Action>, t: Logger, k: History)
    requires Reaches(s, h, run, t, k)
    ensures k.appended == h.appended + Appends(run)
    decreases |run|
  {
    hide Next, Record, Enabled, Safe;
    if run == [] {
      assert h.appended + [] == h.appended;
    } else {
      RecordAppends(s, h, run[0]);
      RunAppends(Next(s, run[0]), Record(s, h, run[0]), run[1..], t, k);
      var first, rest := if run[0].Append? then [run[0].line] else [], Appends(run[1..]);
      assert h.appended + first + rest == h.appended + (first + rest);
    }
  }

  lemma InitInv()
    ensures Inv(INIT, NO_HISTORY)
  {
  }

  /** In every reachable state the buffers are owned as the code needs: no step dereferences a null
      pointer or pops an empty vector, no buffer has two owners, and at the loop head both spare
      buffers are there and empty. */
  lemma OwnershipAlways(run: seq<Action>, t: Logger, k: History, a: Action)
    requires Reaches(INIT, NO_HISTORY, run, t, k) && Enabled(t, a)
    ensures Owns(t) && Unaliased(t) && Safe(t, a)
    ensures t.current.Ptr? && (t.next.Null? ==> t.buffers != [])
    ensures t.phase.Head? ==> t.buffer1.Ptr? && t.buffer1.buf.lines == [] && t.buffer2.Ptr? && t.buffer2.buf.lines == []
  {
    InitInv();
    RunPreserves(INIT, NO_HISTORY, run, t, k);
    StepPreserves(t, k, a);
  }

  /** In every reachable state the written and erased buffers, then the consumer's unwritten ones,
      then buffers_ and currentBuffer_, are exactly the appended lines that fit a buffer, in order;
      the file holds the written buffers, plus a notice for each erasure, of more than 25 buffers. */
  lemma ConservationAlways(run: seq<Action>, t: Logger, k: History)
    requires Reaches(INIT, NO_HISTORY, run, t, k)
    ensures AllLines(k.fates) + Held(t, k) == Storable(Appends(run))
    ensures FileMatches(t, k) && TrimsAreLarge(k)
    ensures forall f :: f in k.fates && f.Erased? ==> |f.batch| > 23
  {
    InitInv();
    RunPreserves(INIT, NO_HISTORY, run, t, k);
    RunAppends(INIT, NO_HISTORY, run, t, k);
    assert [] + Appends(run) == Appends(run);
  }

  ghost function BlockLines(blocks: seq<Entry>): seq<Line> {
    if blocks == [] then []
    else BlockLines(blocks[..|blocks| - 1]) + if blocks[|blocks| - 1].Block? then blocks[|blocks| - 1].lines else []
  }

  lemma {:induction false} KeptLines(fates: seq<Fate>)
    requires Counts(fates) == []
    ensures BlockLines(BlocksOf(fates)) == AllLines(fates)
    decreases |fates|
  {
    if fates != [] {
      var front, last := fates[..|fates| - 1], fates[|fates| - 1];
      KeptLines(front);
      Snoc(BlocksOf(front), Block(last.lines));
    }
  }

  /** A file without notices holds, in order, the first of the appended lines that fit a buffer; the
      rest are still held. */
  lemma FileWithoutNotices(run: seq<Action>, t: Logger, k: History)
    requires Reaches(INIT, NO_HISTORY, run, t, k) && FileCounts(t.file) == []
    ensures BlockLines(FileBlocks(t.file)) + Held(t, k) == Storable(Appends(run))
    ensures k.trimmed == []
  {
    ConservationAlways(run, t, k);
    KeptLines(k.fates);
  }

  // ---- What stop() leaves behind

  /** The lines of buffers_ and currentBuffer_. */
  ghost function Waiting(s: Logger): seq<Line> {
    Lines(s.buffers) + Deref(s.current)
  }

  lemma HeldAtExit(t: Logger, k: History)
    requires t.phase.Exited? && k.trimmed == []
    ensures Held(t, k) == Waiting(t)
  {
    LinesOfNone();
    hide Lines;
  }

  /** What has become of the lines by the time the thread has left. */
  lemma FatesAtExit(t: Logger, k: History)
    requires Inv(t, k) && t.phase.Exited?
    ensures AllLines(k.fates) + Waiting(t) == Storable(k.appended)
    ensures AllLines(k.fates) == Storable(k.appended) <==> Waiting(t) == []
    ensures FileCounts(t.file) == [] ==> BlockLines(FileBlocks(t.file)) == AllLines(k.fates)
  {
    hide Lines, Deref, Owns, Unaliased, Storable, BlockLines, FileBlocks, AllLines;
    HeldAtExit(t, k);
    if FileCounts(t.file) == [] {
      KeptLines(k.fates);
    }
  }

  ghost predicate NoAppend(run: seq<Action>) {
    forall a :: a in run ==> !a.Append?
  }

  lemma StepWaitsNothing(s: Logger, a: Action)
    requires Owns(s) && Enabled(s, a) && Safe(s, a) && !a.Append? && Waiting(s) == []
    ensures Waiting(Next(s, a)) == []
  {
    LinesOfNone();
    hide Flatten, Lines;
  }

  lemma {:induction false} RunWaitsNothing(s: Logger, h: History, run: seq<Action>, t: Logger, k: History)
    requires Inv(s, h) && Reaches(s, h, run, t, k) && NoAppend(run) && Waiting(s) == []
    ensures Inv(t, k) && Waiting(t) == []
    decreases |run|
  {
    hide Next, Record, Enabled, Safe, Waiting, Owns, Unaliased, Conserves, FileInv;
    if run != [] {
      assert run[0] in run;
      StepPreserves(s, h, run[0]);
      StepWaitsNothing(s, run[0]);
      RunWaitsNothing(Next(s, run[0]), Record(s, h, run[0]), run[1..], t, k);
    }
  }

  lemma {:induction false} NoAppendAdds(run: seq<Action>)
    requires NoAppend(run)
    ensures Appends(run) == []
  {
    if run != [] {
      assert run[0] in run;
      NoAppendAdds(run[1..]);
    }
  }

  /** What the thread does next when it is not to drain again. */
  ghost function Leaving(s: Logger): Action
    requires !s.phase.Exited?
  {
    match s.phase
    case Drained => Trim
    case Writing => if s.written < |s.toWrite| then WriteOne else Recycle
    case _ => if s.running then Stop else Exit
  }

  ghost function Left(s: Logger): nat {
    match s.phase
    case Exited => 0
    case Head => if s.running then 2 else 1
    case Writing => if s.written < |s.toWrite| then 3 + |s.toWrite| - s.written else 3
    case Drained => 4 + |s.toWrite|
  }

  /** The next thing the thread does is to note that it has erased buffers. */
  predicate AboutToTrim(s: Logger) {
    s.phase.Drained? && |s.toWrite| > TRIM_LIMIT
  }

  lemma LeavingStep(s: Logger)
    requires Owns(s) && !s.phase.Exited?
    ensures var a := Leaving(s);
            Enabled(s, a) && Safe(s, a) && !a.Append? && var t := Next(s, a);
            t.buffers == s.buffers && t.current == s.current && Left(t) < Left(s) && !AboutToTrim(t)
            && (!AboutToTrim(s) ==> FileCounts(t.file) == FileCounts(s.file))
  {
    hide Flatten, FileCounts;
    if s.phase.Writing? && s.written < |s.toWrite| {
      FileSnoc(s.file, Block(s.toWrite[s.written].lines));
    }
  }

  /** From anywhere the thread can finish its round and leave, taking nothing more from the buffers. */
  lemma {:induction false} ThreadLeaves(s: Logger, h: History) returns (run: seq<Action>, t: Logger, k: History)
    requires Inv(s, h)
    ensures NoAppend(run) && Reaches(s, h, run, t, k) && Inv(t, k) && t.phase.Exited?
    ensures t.buffers == s.buffers && t.current == s.current
    ensures !AboutToTrim(s) ==> FileCounts(t.file) == FileCounts(s.file)
    decreases Left(s)
  {
    hide Next, Record, Enabled, Safe, Unaliased, Conserves, FileInv, Owns, FileCounts, AboutToTrim, Leaving;
    if s.phase.Exited? {
      run, t, k := [], s, h;
    } else {
      var a := Leaving(s);
      LeavingStep(s);
      StepPreserves(s, h, a);
      var rest;
      rest, t, k := ThreadLeaves(Next(s, a), Record(s, h, a));
      run := [a] + rest;
      assert run[1..] == rest;
    }
  }

  // ---- What the thread can always do, and when it leaves

  lemma {:induction false} ReachesThen(s: Logger, h: History, run: seq<Action>, t: Logger, k: History,
                                       run': seq<Action>, u: Logger, m: History)
    requires Reaches(s, h, run, t, k) && Reaches(t, k, run', u, m)
    ensures Reaches(s, h, run + run', u, m)
    decreases |run|
  {
    hide Next, Record, Enabled, Safe;
    if run == [] {
      assert run + run' == run';
    } else {
      ReachesThen(Next(s, run[0]), Record(s, h, run[0]), run[1..], t, k, run', u, m);
      assert (run + run')[1..] == run[1..] + run';
    }
  }

  lemma ReachesFirst(s: Logger, h: History, a: Action, run: seq<Action>, t: Logger, k: History)
    requires Enabled(s, a) && Safe(s, a) && Reaches(Next(s, a), Record(s, h, a), run, t, k)
    ensures Reaches(s, h, [a] + run, t, k)
  {
    hide Next, Record, Enabled, Safe;
    assert ([a] + run)[1..] == run;
  }

  /** What the thread does next in its round. */
  ghost function InRound(s: Logger): Action
    requires s.phase.Drained? || s.phase.Writing?
  {
    if s.phase.Drained? then Trim else if s.written < |s.toWrite| then WriteOne else Recycle
  }

  lemma RoundStep(s: Logger)
    requires Owns(s) && (s.phase.Drained? || s.phase.Writing?)
    ensures var a := InRound(s);
            Enabled(s, a) && Safe(s, a) && !a.Append? && !a.Stop? && var t := Next(s, a);
            t.buffers == s.buffers && t.current == s.current && Left(t) < Left(s) && !t.phase.Exited?
            && t.running == s.running
  {
    hide Flatten;
  }

  /** From anywhere in its round the thread gets back to the loop head. */
  lemma {:induction false} RoundEnds(s: Logger, h: History) returns (run: seq<Action>, t: Logger, k: History)
    requires Inv(s, h) && !s.phase.Exited?
    ensures NoAppend(run) && Reaches(s, h, run, t, k) && Inv(t, k) && t.phase.Head?
    ensures t.buffers == s.buffers && t.current == s.current && t.running == s.running
    decreases Left(s)
  {
    hide Next, Record, Enabled, Safe, Unaliased, Conserves, FileInv, Owns, InRound;
    if s.phase.Head? {
      run, t, k := [], s, h;
    } else {
      var a := InRound(s);
      RoundStep(s);
      StepPreserves(s, h, a);
      var rest;
      rest, t, k := RoundEnds(Next(s, a), Record(s, h, a));
      run := [a] + rest;
      ReachesFirst(s, h, a, rest, t, k);
    }
  }

  lemma DrainEmpties(s: Logger)
    requires Owns(s) && s.phase.Head?
    ensures Enabled(s, Drain) && Safe(s, Drain)
    ensures var t := Next(s, Drain); t.buffers == [] && Waiting(t) == [] && t.phase.Drained? && t.running == s.running
  {
    LinesOfNone();
    hide Lines;
  }

  lemma NothingHeld(t: Logger, k: History)
    requires Inv(t, k) && t.phase.Head? && Waiting(t) == []
    ensures Held(t, k) == []
  {
    LinesOfNone();
    hide Lines, Owns, Unaliased, Conserves, FileMatches, TrimsAreLarge;
    assert k.trimmed == [];
    assert Unwritten(t) == [];
  }

  lemma InvParts(s: Logger, h: History)
    requires Inv(s, h)
    ensures Owns(s) && FileMatches(s, h) && (!s.phase.Writing? ==> h.trimmed == [])
  {
  }

  lemma NoAppendBoth(run1: seq<Action>, run2: seq<Action>)
    requires NoAppend(run1) && NoAppend(run2)
    ensures NoAppend(run1 + ([Drain] + run2))
  {
  }

  lemma {:induction false} AppendsBoth(run: seq<Action>, more: seq<Action>)
    requires NoAppend(more)
    ensures Appends(run + more) == Appends(run)
    decreases |run|
  {
    if run == [] {
      assert run + more == more;
      NoAppendAdds(more);
    } else {
      AppendsBoth(run[1..], more);
      assert (run + more)[1..] == run[1..] + more;
    }
  }

  lemma SameWaiting(s: Logger, t: Logger)
    requires t.buffers == s.buffers && t.current == s.current
    ensures Waiting(t) == Waiting(s)
  {
  }

  /** As long as the thread has not left, two more rounds at most deal with every line appended so far:
      each is then in the file, or in a trim that the file mentions. */
  lemma EverythingCanBeWritten(before: seq<Action>, s: Logger, h: History)
    returns (run: seq<Action>, t: Logger, k: History)
    requires Reaches(INIT, NO_HISTORY, before, s, h) && !s.phase.Exited?
    ensures NoAppend(run) && Reaches(s, h, run, t, k) && t.running == s.running
    ensures AllLines(k.fates) == Storable(Appends(before)) && Waiting(t) == []
    ensures FileMatches(t, k) && k.trimmed == []
  {
    hide Reaches, Inv, Waiting, NoAppend, Next, Record, Enabled, Safe, Storable, AllLines, Appends;
    InitInv();
    RunPreserves(INIT, NO_HISTORY, before, s, h);
    var run1, s1, h1 := RoundEnds(s, h);
    InvParts(s1, h1);
    DrainEmpties(s1);
    StepPreserves(s1, h1, Drain);
    var s2, h2 := Next(s1, Drain), Record(s1, h1, Drain);
    var run2;
    run2, t, k := RoundEnds(s2, h2);
    SameWaiting(s2, t);
    ReachesFirst(s1, h1, Drain, run2, t, k);
    ReachesThen(s, h, run1, s1, h1, [Drain] + run2, t, k);
    run := run1 + ([Drain] + run2);
    NoAppendBoth(run1, run2);
    ReachesThen(INIT, NO_HISTORY, before, s, h, run, t, k);
    ConservationAlways(before + run, t, k);
    AppendsBoth(before, run);
    NothingHeld(t, k);
    InvParts(t, k);
    assert AllLines(k.fates) + [] == AllLines(k.fates);
  }

  lemma FlagIs(s: Logger, a: Action)
    requires Enabled(s, a) && Safe(s, a)
    ensures Next(s, a).running == (s.running && !a.Stop?)
    ensures Next(s, a).phase.Exited? ==> s.phase.Exited? || !s.running
  {
    hide Flatten, Put, Spare;
  }

  lemma {:induction false} FlagSays(s: Logger, h: History, run: seq<Action>, t: Logger, k: History)
    requires Reaches(s, h, run, t, k) && (s.phase.Exited? ==> !s.running)
    ensures t.running <==> s.running && Stop !in run
    ensures t.phase.Exited? ==> !t.running
    decreases |run|
  {
    hide Next, Record, Enabled, Safe;
    if run != [] {
      FlagIs(s, run[0]);
      FlagSays(Next(s, run[0]), Record(s, h, run[0]), run[1..], t, k);
      assert run == [run[0]] + run[1..];
    }
  }

  /** The thread leaves only after stop(). */
  lemma LeavesOnlyStopped(run: seq<Action>, t: Logger, k: History)
    requires Reaches(INIT, NO_HISTORY, run, t, k) && t.phase.Exited?
    ensures Stop in run
  {
    hide Reaches;
    FlagSays(INIT, NO_HISTORY, run, t, k);
  }

  /** Every line that fits a buffer has been written, or erased by a trim that the file mentions. */
  ghost predicate AllDealtWith(k: History) {
    AllLines(k.fates) == Storable(k.appended)
  }

  /** stop() does not drain. If no line is appended after it, then every line is sure to be dealt with
      by the time the thread has left exactly if nothing waited in the buffers at the call. */
  lemma StopIsCompleteIff(before: seq<Action>, s: Logger, h: History)
    requires Reaches(INIT, NO_HISTORY, before, s, h)
    ensures (forall run, t, k :: NoAppend(run) && Reaches(s, h, run, t, k) && t.phase.Exited? ==> AllDealtWith(k))
       <==> Waiting(s) == []
  {
    hide Reaches, Inv, Waiting, NoAppend;
    InitInv();
    RunPreserves(INIT, NO_HISTORY, before, s, h);
    if Waiting(s) == [] {
      forall run, t, k | NoAppend(run) && Reaches(s, h, run, t, k) && t.phase.Exited?
        ensures AllDealtWith(k)
      {
        RunWaitsNothing(s, h, run, t, k);
        FatesAtExit(t, k);
      }
    } else {
      var run, t, k := ThreadLeaves(s, h);
      FatesAtExit(t, k);
      SameWaiting(s, t);
    }
  }

  lemma SameAppended(s: Logger, h: History, run: seq<Action>, t: Logger, k: History)
    requires Reaches(s, h, run, t, k) && NoAppend(run)
    ensures k.appended == h.appended
  {
    hide Reaches, Appends, NoAppend;
    RunAppends(s, h, run, t, k);
    NoAppendAdds(run);
  }

  /** The same for the file itself: as long as no notice is or is about to be written, the file is sure
      to have every appended line that fits a buffer, in order, exactly if nothing waited at the call. */
  lemma StoppedFileIsCompleteIff(before: seq<Action>, s: Logger, h: History)
    requires Reaches(INIT, NO_HISTORY, before, s, h) && FileCounts(s.file) == [] && !AboutToTrim(s)
    ensures (forall run, t, k :: NoAppend(run) && Reaches(s, h, run, t, k) && t.phase.Exited? && FileCounts(t.file) == [] ==>
               BlockLines(FileBlocks(t.file)) == Storable(Appends(before)))
       <==> Waiting(s) == []
  {
    hide Reaches, Inv, Waiting, NoAppend, BlockLines, FileBlocks, FileCounts, Storable, AllLines, AboutToTrim, Appends;
    InitInv();
    RunPreserves(INIT, NO_HISTORY, before, s, h);
    RunAppends(INIT, NO_HISTORY, before, s, h);
    assert [] + Appends(before) == Appends(before);
    if Waiting(s) == [] {
      forall run, t, k | NoAppend(run) && Reaches(s, h, run, t, k) && t.phase.Exited? && FileCounts(t.file) == []
        ensures BlockLines(FileBlocks(t.file)) == Storable(Appends(before))
      {
        RunWaitsNothing(s, h, run, t, k);
        FatesAtExit(t, k);
        SameAppended(s, h, run, t, k);
      }
    } else {
      var run, t, k := ThreadLeaves(s, h);
      FatesAtExit(t, k);
      SameWaiting(s, t);
      SameAppended(s, h, run, t, k);
    }
  }

  /** One line, appended and then stopped, is lost. */
  lemma StopLosesALine()
    ensures exists t, k :: Reaches(INIT, NO_HISTORY, [Append("x"), Stop, Exit], t, k)
                        && t.phase.Exited? && t.file == [] && Storable(Appends([Append("x"), Stop, Exit])) == ["x"]
  {
    var run := [Append("x"), Stop, Exit];
    assert run[1..] == [Stop, Exit] && run[1..][1..] == [Exit] && run[1..][1..][1..] == [];
    assert Appends([Exit]) == [] && Appends([Stop, Exit]) == [];
    assert Used([]) == 0;
    var t1 := AfterAppend(INIT, "x");
    var t2 := t1.(running := false);
    var t3 := t2.(phase := Exited);
    var k := History(["x"], [], []);
    assert Reaches(t3, k, [], t3, k);
    assert Reaches(t2, k, [Exit], t3, k);
    assert Reaches(t1, k, [Stop, Exit], t3, k);
    assert Reaches(INIT, NO_HISTORY, run, t3, k);
  }
}
