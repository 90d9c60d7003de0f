/** The double-buffer protocol of server/src/log/AsyncLogger.cpp as atomic steps: any number of producers
    append under the mutex while one consumer drains, trims, writes and recycles. */
module LoggerProtocol {
  import opened LogStream

  /** kLargeBuffer: the size of one buffer. */
  const CAPACITY: nat := 4000 * 1000

  /** A drain of more buffers than this is cut down to two. */
  const TRIM_LIMIT: nat := 25

  type Line = string

  /** A buffer: which allocation it is, and what was appended to it since the last reset. */
  datatype Buf = Buf(id: nat, lines: seq<Line>)

  /** A unique_ptr to a buffer. */
  datatype Ptr = Null | Ptr(buf: Buf)

  /** One fwrite of a buffer, or one line saying how many buffers were drained at once. */
  datatype Entry = Block(lines: seq<Line>) | Notice(count: nat)

  datatype Phase = Head | Drained | Writing | Exited

  datatype Logger = Logger(
    allocations: nat,  // `new Buffer` so far
    running: bool,
    current: Ptr,
    next: Ptr,
    buffers: seq<Buf>,
    // the consumer's locals
    phase: Phase,
    buffer1: Ptr,
    buffer2: Ptr,
    toWrite: seq<Buf>,
    written: nat,
    file: seq<Entry>
  )

  const INIT := Logger(4, true, Ptr(Buf(0, [])), Ptr(Buf(1, [])), [],
                       Head, Ptr(Buf(2, [])), Ptr(Buf(3, [])), [], 0, [])

  datatype Action = Append(line: Line) | Drain | Trim | WriteOne | Recycle | Stop | Exit

  function Used(lines: seq<Line>): nat {
    |Flatten(lines)|
  }

  /** FixedBuffer::append. */
  function Put(b: Buf, line: Line): Buf {
    if Used(b.lines) + |line| < CAPACITY then b.(lines := b.lines + [line]) else b
  }

  predicate Enabled(s: Logger, a: Action) {
    match a
    case Append(_) => true
    case Drain => s.phase.Head?   // the loop test may have passed before stop()
    case Trim => s.phase.Drained?
    case WriteOne => s.phase.Writing? && s.written < |s.toWrite|
    case Recycle => s.phase.Writing? && s.written == |s.toWrite|
    case Stop => true
    case Exit => s.phase.Head? && !s.running
  }

  /** The buffers left after resize(2), from which back() is recycled. */
  function Spare(s: Logger): seq<Buf> {
    if |s.toWrite| > 2 then s.toWrite[..2] else s.toWrite
  }

  /** The step dereferences no null pointer and takes nothing from an empty vector. */
  predicate Safe(s: Logger, a: Action) {
    match a
    case Append(_) => s.current.Ptr?
    case Drain => s.current.Ptr?
    case Recycle => (if s.buffer1.Null? then 1 else 0) + (if s.buffer2.Null? then 1 else 0) <= |Spare(s)|
    case _ => true
  }

  function AfterAppend(s: Logger, line: Line): Logger
    requires s.current.Ptr?
  {
    var cur := s.current.buf;
    if Used(cur.lines) + |line| < CAPACITY then s.(current := Ptr(Put(cur, line)))
    else if s.next.Ptr? then s.(buffers := s.buffers + [cur], current := Ptr(Put(s.next.buf, line)), next := Null)
    else s.(buffers := s.buffers + [cur], current := Ptr(Put(Buf(s.allocations, []), line)), allocations := s.allocations + 1)
  }

  function AfterDrain(s: Logger): Logger
    requires s.current.Ptr?
  {
    s.(toWrite := s.buffers + [s.current.buf], buffers := s.toWrite, current := s.buffer1, buffer1 := Null,
       next := if s.next.Null? then s.buffer2 else s.next,
       buffer2 := if s.next.Null? then Null else s.buffer2,
       phase := Drained)
  }

  function AfterTrim(s: Logger): Logger {
    if |s.toWrite| > TRIM_LIMIT
    then s.(file := s.file + [Notice(|s.toWrite|)], toWrite := s.toWrite[..2], written := 0, phase := Writing)
    else s.(written := 0, phase := Writing)
  }

  /** buffer1, when moved away, takes the last spare buffer, reset; then buffer2 takes the next to last. */
  function AfterRecycle(s: Logger): Logger
    requires Safe(s, Recycle)
  {
    var spare := Spare(s);
    var n := if s.buffer1.Null? then |spare| - 1 else |spare|;
    s.(buffer1 := if s.buffer1.Null? then Ptr(Buf(spare[n].id, [])) else s.buffer1,
       buffer2 := if s.buffer2.Null? then Ptr(Buf(spare[n - 1].id, [])) else s.buffer2,
       toWrite := [], phase := Head)
  }

  function Next(s: Logger, a: Action): Logger
    requires Enabled(s, a) && Safe(s, a)
  {
    match a
    case Append(line) => AfterAppend(s, line)
    case Drain => AfterDrain(s)
    case Trim => AfterTrim(s)
    case WriteOne => s.(file := s.file + [Block(s.toWrite[s.written].lines)], written := s.written + 1)
    case Recycle => AfterRecycle(s)
    case Stop => s.(running := false)
    case Exit => s.(phase := Exited)
  }

  // ---- Ownership

  predicate Empty(p: Ptr) {
    p.Ptr? && p.buf.lines == []
  }

  /** Which pointers are null, and which buffers are empty. */
  ghost predicate Owns(s: Logger) {
    s.current.Ptr?
    && (s.next.Null? ==> s.buffers != [])
    && (s.next.Ptr? ==> Empty(s.next))
    && match s.phase
       case Head => Empty(s.buffer1) && Empty(s.buffer2) && s.toWrite == []
       case Exited => Empty(s.buffer1) && Empty(s.buffer2) && s.toWrite == []
       case _ =>
         s.buffer1.Null? && |s.toWrite| >= 1 && (s.phase.Writing? ==> s.written <= |s.toWrite|)
         && (if s.buffer2.Null? then |s.toWrite| >= 2 else Empty(s.buffer2))
  }

  lemma AppendOwns(s: Logger, line: Line)
    requires Owns(s)
    ensures Owns(AfterAppend(s, line))
  {
    hide Used, Put;
  }

  lemma DrainOwns(s: Logger)
    requires Owns(s) && s.phase.Head?
    ensures Owns(AfterDrain(s))
  {
  }

  lemma RecycleOwns(s: Logger)
    requires Owns(s) && Enabled(s, Recycle)
    ensures Safe(s, Recycle) && Owns(AfterRecycle(s))
  {
  }

  /** No step dereferences null or takes from an empty vector, and each keeps the ownership. */
  lemma StepOwns(s: Logger, a: Action)
    requires Owns(s) && Enabled(s, a)
    ensures Safe(s, a) && Owns(Next(s, a))
  {
    hide AfterAppend, AfterDrain, AfterRecycle;
    match a
    case Append(line) => AppendOwns(s, line);
    case Drain => DrainOwns(s);
    case Recycle => RecycleOwns(s);
    case _ =>
  }

  /** How often buffer i is owned by a pointer, by a vector, and in all. */
  ghost function Points(p: Ptr, i: nat): nat {
    if p.Ptr? && p.buf.id == i then 1 else 0
  }

  ghost function Count(bufs: seq<Buf>, i: nat): nat {
    if bufs == [] then 0 else Count(bufs[..|bufs| - 1], i) + Points(Ptr(bufs[|bufs| - 1]), i)
  }

  ghost function Owners(s: Logger, i: nat): nat {
    Points(s.current, i) + Points(s.next, i) + Points(s.buffer1, i) + Points(s.buffer2, i)
    + Count(s.buffers, i) + Count(s.toWrite, i)
  }

  /** No buffer has two owners. */
  ghost predicate Unaliased(s: Logger) {
    forall i: nat :: Owners(s, i) <= if i < s.allocations then 1 else 0
  }

  lemma Snoc<T>(s: seq<T>, x: T)
    ensures (s + [x])[..|s|] == s && (s + [x])[|s|] == x
  {
  }

  lemma CountSnoc(bufs: seq<Buf>, b: Buf, i: nat)
    ensures Count(bufs + [b], i) == Count(bufs, i) + Points(Ptr(b), i)
  {
    Snoc(bufs, b);
  }

  lemma CountNone(i: nat)
    ensures Count([], i) == 0
  {
  }

  lemma {:induction false} CountOfPrefix(bufs: seq<Buf>, n: nat, i: nat)
    requires n <= |bufs|
    ensures Count(bufs[..n], i) <= Count(bufs, i)
    decreases |bufs|
  {
    if n < |bufs| {
      CountOfPrefix(bufs[..|bufs| - 1], n, i);
      assert bufs[..|bufs| - 1][..n] == bufs[..n];
    } else {
      assert bufs[..n] == bufs;
    }
  }

  lemma CountOfLastTwo(bufs: seq<Buf>, i: nat)
    requires 1 <= |bufs| <= 2
    ensures Count(bufs, i) == Points(Ptr(bufs[0]), i) + if |bufs| == 2 then Points(Ptr(bufs[1]), i) else 0
  {
    CountNone(i);
    CountSnoc([], bufs[0], i);
    CountSnoc([bufs[0]], bufs[|bufs| - 1], i);
    assert [] + [bufs[0]] == [bufs[0]];
    assert bufs == if |bufs| == 1 then [bufs[0]] else [bufs[0]] + [bufs[1]];
  }

  lemma AppendOwners(s: Logger, line: Line, i: nat)
    requires Owns(s)
    ensures Owners(AfterAppend(s, line), i) <= Owners(s, i) + if i == s.allocations < AfterAppend(s, line).allocations then 1 else 0
  {
    hide Flatten, Count;
    CountSnoc(s.buffers, s.current.buf, i);
  }

  lemma DrainOwners(s: Logger, i: nat)
    requires Owns(s) && Enabled(s, Drain)
    ensures Owners(AfterDrain(s), i) <= Owners(s, i)
  {
    hide Count;
    CountSnoc(s.buffers, s.current.buf, i);
    CountNone(i);
  }

  lemma TrimOwners(s: Logger, i: nat)
    requires Enabled(s, Trim)
    ensures Owners(AfterTrim(s), i) <= Owners(s, i)
  {
    hide Count;
    if |s.toWrite| > TRIM_LIMIT {
      CountOfPrefix(s.toWrite, 2, i);
    }
  }

  lemma RecycleOwners(s: Logger, i: nat)
    requires Owns(s) && Enabled(s, Recycle) && Safe(s, Recycle)
    ensures Owners(AfterRecycle(s), i) <= Owners(s, i)
  {
    hide Count;
    CountOfPrefix(s.toWrite, |Spare(s)|, i);
    assert s.toWrite[..|Spare(s)|] == Spare(s);
    CountOfLastTwo(Spare(s), i);
    CountNone(i);
  }

  lemma StepUnaliased(s: Logger, a: Action)
    requires Owns(s) && Unaliased(s) && Enabled(s, a) && Safe(s, a)
    ensures Unaliased(Next(s, a))
  {
    hide Owns, Count;
    forall i: nat
      ensures Owners(Next(s, a), i) <= if i < Next(s, a).allocations then 1 else 0
    {
      match a
      case Append(line) => AppendOwners(s, line, i);
      case Drain => DrainOwners(s, i);
      case Trim => TrimOwners(s, i);
      case Recycle => RecycleOwners(s, i);
      case _ => assert Owners(Next(s, a), i) == Owners(s, i);
    }
  }
}
