/** The native receiver's eight tasks over one shared output file. */
module CliReceiver {
  import opened Bytes
  import opened Chunking
  import opened CliProtocol
  import opened CliTransfer

  datatype Phase =
    | Ready                                  // about to read a frame
    | Holding(index: nat, data: Octets)      // has a chunk, waits for the file lock
    | Counting(len: nat)                     // has written it, not yet counted it
    | Done                                   // saw the end marker
    | Broken                                 // the stream ended early or decoding panicked

  datatype Task = Task(rest: Octets, phase: Phase)

  datatype Session = Session(out: Octets, counter: nat, tasks: seq<Task>)

  datatype Event = Recv(r: nat) | Write(r: nat) | CountUp(r: nat)

  function Zeros(n: nat): (z: Octets)
    ensures |z| == n && forall b :: 0 <= b < n ==> z[b] == 0
  {
    seq(n, i => 0)
  }

  /** seek + write_all on a file: zero-fill a gap, overwrite, extend. */
  function WriteAt(out: Octets, off: nat, data: Octets): (r: Octets)
    ensures |r| == if off + |data| > |out| then off + |data| else |out|
    ensures forall b :: 0 <= b < |r| ==>
      r[b] == if off <= b < off + |data| then data[b - off] else if b < |out| then out[b] else 0
  {
    var base := if off <= |out| then out else out + Zeros(off - |out|);
    base[..off] + data + if off + |data| <= |base| then base[off + |data|..] else []
  }

  function Init(file: Octets): Session {
    Session(Zeros(|file|), 0, seq(STREAMS, r requires 0 <= r < STREAMS => Task(Tail(file, r), Ready)))
  }

  predicate Enabled(s: Session, e: Event) {
    && e.r < |s.tasks|
    && match e
       case Recv(r) => s.tasks[r].phase.Ready?
       case Write(r) => s.tasks[r].phase.Holding?
       case CountUp(r) => s.tasks[r].phase.Counting?
  }

  function Received(t: Task): Task {
    var (got, rest) := DecodeChunk(t.rest);
    Task(rest, if !got.Got? then Broken else if got.index == END as nat then Done else Holding(got.index, got.data))
  }

  function Apply(s: Session, e: Event): Session
    requires Enabled(s, e)
  {
    var t := s.tasks[e.r];
    match e
    case Recv(r) => s.(tasks := s.tasks[r := Received(t)])
    case Write(r) =>
      s.(out := WriteAt(s.out, Wrap(t.phase.index * CHUNK_SIZE), t.phase.data),
         tasks := s.tasks[r := t.(phase := Counting(|t.phase.data|))])
    case CountUp(r) =>
      s.(counter := Wrap(s.counter + t.phase.len), tasks := s.tasks[r := t.(phase := Ready)])
  }

  predicate Legal(s: Session, es: seq<Event>)
    decreases |es|
  {
    es == [] || (Enabled(s, es[0]) && Legal(Apply(s, es[0]), es[1..]))
  }

  function Exec(s: Session, es: seq<Event>): Session
    requires Legal(s, es)
    decreases |es|
  {
    if es == [] then s else Exec(Apply(s, es[0]), es[1..])
  }

  predicate AllDone(s: Session) {
    forall r :: 0 <= r < |s.tasks| ==> s.tasks[r].phase.Done?
  }

  // ---------------------------------------------------------------- where each task is

  /** Task r has taken every chunk of its residue below `next`. */
  ghost predicate TaskInv(file: Octets, r: nat, next: nat, t: Task) {
    var n := Count(|file|, CHUNK_SIZE);
    && next % STREAMS == r
    && match t.phase
       case Ready => t.rest == Tail(file, next)
       case Holding(i, data) =>
         i < n && next == i + STREAMS && data == Chunk(file, CHUNK_SIZE, i) && t.rest == Tail(file, next)
       case Counting(len) =>
         0 <= next - STREAMS < n && len == ChunkLen(|file|, CHUNK_SIZE, next - STREAMS) && t.rest == Tail(file, next)
       case Done => next >= n && t.rest == []
       case Broken => false
  }

  function TaskWritten(next: nat, t: Task): int { if t.phase.Holding? then next - STREAMS else next }

  function TaskCounted(next: nat, t: Task): int {
    if t.phase.Holding? || t.phase.Counting? then next - STREAMS else next
  }

  /** Per stream, the bound below which its chunks are in the file, and below which they are counted. */
  function WrittenBelow(next: seq<nat>, tasks: seq<Task>): (w: seq<int>)
    requires |next| == |tasks|
    ensures |w| == |next| && forall r :: 0 <= r < |w| ==> w[r] == TaskWritten(next[r], tasks[r])
  {
    seq(|next|, r requires 0 <= r < |next| => TaskWritten(next[r], tasks[r]))
  }

  function CountedBelow(next: seq<nat>, tasks: seq<Task>): (c: seq<int>)
    requires |next| == |tasks|
    ensures |c| == |next| && forall r :: 0 <= r < |c| ==> c[r] == TaskCounted(next[r], tasks[r])
  {
    seq(|next|, r requires 0 <= r < |next| => TaskCounted(next[r], tasks[r]))
  }

  predicate IsBelow(bounds: seq<int>, i: nat)
    requires |bounds| == STREAMS
  {
    i < bounds[i % STREAMS]
  }

  function AllBelow(n: nat, bounds: seq<int>): set<nat>
    requires |bounds| == STREAMS
  {
    set i: nat | i < n && IsBelow(bounds, i)
  }

  /** Byte for byte: the source where the chunk has been written, zero elsewhere. */
  ghost predicate Image(file: Octets, written: seq<int>, out: Octets)
    requires |written| == STREAMS
  {
    && |out| == |file|
    && forall b :: 0 <= b < |file| ==> out[b] == if IsBelow(written, b / CHUNK_SIZE) then file[b] else 0
  }

  ghost predicate Tally(file: Octets, counted: seq<int>, counter: nat)
    requires |counted| == STREAMS
  {
    var n := Count(|file|, CHUNK_SIZE);
    counter == Payload(|file|, CHUNK_SIZE, n, AllBelow(n, counted))
  }

  ghost predicate Tasks(file: Octets, next: seq<nat>, tasks: seq<Task>) {
    && |next| == |tasks| == STREAMS
    && forall r :: 0 <= r < STREAMS ==> TaskInv(file, r, next[r], tasks[r])
  }

  ghost predicate Inv(file: Octets, next: seq<nat>, s: Session) {
    && Tasks(file, next, s.tasks)
    && Image(file, WrittenBelow(next, s.tasks), s.out)
    && Tally(file, CountedBelow(next, s.tasks), s.counter)
  }

  function Next(file: Octets, next: seq<nat>, e: Event): seq<nat> {
    if e.Recv? && e.r < |next| && next[e.r] < Count(|file|, CHUNK_SIZE) then next[e.r := next[e.r] + STREAMS] else next
  }

  lemma InitInv(file: Octets)
    ensures Inv(file, Range(0, STREAMS), Init(file))
    ensures AllBelow(Count(|file|, CHUNK_SIZE), WrittenBelow(Range(0, STREAMS), Init(file).tasks)) == {}
  {
    var next, tasks := Range(0, STREAMS), Init(file).tasks;
    InitTasks(file, next, tasks);
    NothingBelow(file, WrittenBelow(next, tasks));
  }

  lemma InitTasks(file: Octets, next: seq<nat>, tasks: seq<Task>)
    requires next == Range(0, STREAMS) && tasks == Init(file).tasks
    ensures Tasks(file, next, tasks) && WrittenBelow(next, tasks) == CountedBelow(next, tasks) == next
  {
    forall r | 0 <= r < STREAMS
      ensures TaskInv(file, r, next[r], tasks[r])
      ensures TaskWritten(next[r], tasks[r]) == TaskCounted(next[r], tasks[r]) == next[r]
    {
      assert tasks[r] == Task(Tail(file, r), Ready) && next[r] == r;
      FirstTask(file, r);
    }
  }

  lemma FirstTask(file: Octets, r: nat)
    requires r < STREAMS
    ensures TaskInv(file, r, r, Task(Tail(file, r), Ready))
    ensures TaskWritten(r, Task(Tail(file, r), Ready)) == TaskCounted(r, Task(Tail(file, r), Ready)) == r
  {
    SameResidue(r);
  }

  lemma NothingBelow(file: Octets, w: seq<int>)
    requires w == Range(0, STREAMS)
    ensures AllBelow(Count(|file|, CHUNK_SIZE), w) == {}
    ensures Image(file, w, Zeros(|file|)) && Tally(file, w, 0)
  {
    forall i: nat ensures !IsBelow(w, i) {
      assert w[i % STREAMS] == i % STREAMS;
    }
    assert AllBelow(Count(|file|, CHUNK_SIZE), w) == {};
    PayloadEmpty(|file|, CHUNK_SIZE, Count(|file|, CHUNK_SIZE));
    forall b | 0 <= b < |file| ensures !IsBelow(w, b / CHUNK_SIZE) {
    }
  }

  /** What a task reads next is its next chunk, or the end marker. */
  lemma RecvNext(file: Octets, next: nat, t: Task)
    requires t == Task(Tail(file, next), Ready) && |file| + CHUNK_SIZE - 1 < TWO64
    ensures Received(t) ==
      if next < Count(|file|, CHUNK_SIZE)
      then Task(Tail(file, next + STREAMS), Holding(next, Chunk(file, CHUNK_SIZE, next)))
      else Task([], Done)
  {
    if next < Count(|file|, CHUNK_SIZE) {
      InRange(|file|, CHUNK_SIZE, next);
      ChunkRoundTrip(next, Chunk(file, CHUNK_SIZE, next), Tail(file, next + STREAMS));
    } else {
      ChunkRoundTrip(END as nat, [], []);
      assert ChunkBytes(END as nat, []) + [] == ChunkBytes(END as nat, []);
    }
  }

  /** A task after its own event, and its `next`. */
  function TaskAfter(t: Task, e: Event): Task {
    if e.Recv? then Received(t)
    else if e.Write? && t.phase.Holding? then t.(phase := Counting(|t.phase.data|))
    else t.(phase := Ready)
  }

  function NextAfter(n: nat, next: nat, e: Event): nat { if e.Recv? && next < n then next + STREAMS else next }

  lemma Shape(file: Octets, next: seq<nat>, s: Session, e: Event)
    requires Enabled(s, e) && |next| == |s.tasks|
    ensures Apply(s, e).tasks == s.tasks[e.r := TaskAfter(s.tasks[e.r], e)]
    ensures Next(file, next, e) == next[e.r := NextAfter(Count(|file|, CHUNK_SIZE), next[e.r], e)]
  {
  }

  predicate TaskEnabled(t: Task, e: Event) {
    match e
    case Recv(_) => t.phase.Ready?
    case Write(_) => t.phase.Holding?
    case CountUp(_) => t.phase.Counting?
  }

  /** One task's own event, and what it does to its bounds and remaining steps. */
  lemma StepTask(file: Octets, r: nat, next: nat, t: Task, e: Event)
    requires TaskInv(file, r, next, t) && TaskEnabled(t, e) && |file| + CHUNK_SIZE - 1 < TWO64
    ensures var next', u := NextAfter(Count(|file|, CHUNK_SIZE), next, e), TaskAfter(t, e);
      && TaskInv(file, r, next', u)
      && TaskSteps(file, next', u) + 1 == TaskSteps(file, next, t)
      && TaskWritten(next', u) == TaskWritten(next, t) + (if e.Write? then STREAMS else 0)
      && TaskCounted(next', u) == TaskCounted(next, t) + (if e.CountUp? then STREAMS else 0)
  {
    match e
    case Recv(_) => RecvTask(file, r, next, t);
    case Write(_) =>
    case CountUp(_) =>
  }

  lemma StripeUnfold(n: nat, next: nat)
    ensures |Stripe(n, next)| == if next < n then 1 + |Stripe(n, next + STREAMS)| else 0
  {
  }

  lemma RecvTask(file: Octets, r: nat, next: nat, t: Task)
    requires TaskInv(file, r, next, t) && t.phase.Ready? && |file| + CHUNK_SIZE - 1 < TWO64
    ensures var next', u := NextAfter(Count(|file|, CHUNK_SIZE), next, Recv(r)), Received(t);
      && TaskInv(file, r, next', u)
      && TaskSteps(file, next', u) + 1 == TaskSteps(file, next, t)
      && TaskWritten(next', u) == TaskWritten(next, t)
      && TaskCounted(next', u) == TaskCounted(next, t)
  {
    assert t == Task(Tail(file, next), Ready);
    RecvNext(file, next, t);
    StripeUnfold(Count(|file|, CHUNK_SIZE), next);
    if next < Count(|file|, CHUNK_SIZE) {
      TookChunk(file, r, next, Received(t));
    } else {
      assert Received(t) == Task([], Done);
    }
  }

  lemma TookChunk(file: Octets, r: nat, next: nat, u: Task)
    requires next < Count(|file|, CHUNK_SIZE) && next % STREAMS == r
    requires u == Task(Tail(file, next + STREAMS), Holding(next, Chunk(file, CHUNK_SIZE, next)))
    ensures TaskInv(file, r, next + STREAMS, u)
  {
    SameResidue(next);
  }

  /** Each event keeps every task in step. */
  lemma StepTasks(file: Octets, next: seq<nat>, s: Session, e: Event)
    requires Tasks(file, next, s.tasks) && Enabled(s, e) && |file| + CHUNK_SIZE - 1 < TWO64
    ensures Tasks(file, Next(file, next, e), Apply(s, e).tasks)
  {
    Shape(file, next, s, e);
    StepTask(file, e.r, next[e.r], s.tasks[e.r], e);
  }

  /** It moves at most one bound, by one chunk. */
  lemma StepBounds(file: Octets, next: seq<nat>, s: Session, e: Event)
    requires Tasks(file, next, s.tasks) && Enabled(s, e) && |file| + CHUNK_SIZE - 1 < TWO64
    ensures |Next(file, next, e)| == |Apply(s, e).tasks| == STREAMS
    ensures var w := WrittenBelow(next, s.tasks);
      WrittenBelow(Next(file, next, e), Apply(s, e).tasks) == if e.Write? then w[e.r := w[e.r] + STREAMS] else w
    ensures var c := CountedBelow(next, s.tasks);
      CountedBelow(Next(file, next, e), Apply(s, e).tasks) == if e.CountUp? then c[e.r := c[e.r] + STREAMS] else c
  {
    Shape(file, next, s, e);
    StepTask(file, e.r, next[e.r], s.tasks[e.r], e);
  }

  lemma BoundMoves(bounds: seq<int>, r: nat, i: nat, j: nat)
    requires |bounds| == STREAMS && r < STREAMS && i % STREAMS == r && bounds[r] == i
    ensures IsBelow(bounds[r := i + STREAMS], j) <==> IsBelow(bounds, j) || j == i
    ensures !IsBelow(bounds, i)
  {
  }

  lemma ByteOfChunk(file: Octets, i: nat, b: nat)
    requires i < Count(|file|, CHUNK_SIZE) && b < |file|
    ensures var c := Chunk(file, CHUNK_SIZE, i);
      && i * CHUNK_SIZE + |c| <= |file|
      && (i * CHUNK_SIZE <= b < i * CHUNK_SIZE + |c| <==> b / CHUNK_SIZE == i)
      && (b / CHUNK_SIZE == i ==> c[b - i * CHUNK_SIZE] == file[b])
  {
    InRange(|file|, CHUNK_SIZE, i);
  }

  lemma WriteByte(file: Octets, w: seq<int>, out: Octets, i: nat, b: nat)
    requires |w| == STREAMS && Image(file, w, out) && i < Count(|file|, CHUNK_SIZE) && w[i % STREAMS] == i && b < |file|
    ensures var out' := WriteAt(out, i * CHUNK_SIZE, Chunk(file, CHUNK_SIZE, i));
      |out'| == |file| &&
      out'[b] == if IsBelow(w[i % STREAMS := i + STREAMS], b / CHUNK_SIZE) then file[b] else 0
  {
    ByteOfChunk(file, i, b);
    BoundMoves(w, i % STREAMS, i, b / CHUNK_SIZE);
  }

  /** Writing chunk i at its offset makes exactly that chunk appear. */
  lemma WriteImage(file: Octets, w: seq<int>, out: Octets, i: nat)
    requires |w| == STREAMS && Image(file, w, out) && i < Count(|file|, CHUNK_SIZE) && w[i % STREAMS] == i
    requires |file| < TWO64
    ensures Image(file, w[i % STREAMS := i + STREAMS],
                  WriteAt(out, Wrap(i * CHUNK_SIZE), Chunk(file, CHUNK_SIZE, i)))
    ensures AllBelow(Count(|file|, CHUNK_SIZE), w[i % STREAMS := i + STREAMS])
         == AllBelow(Count(|file|, CHUNK_SIZE), w) + {i}
  {
    InRange(|file|, CHUNK_SIZE, i);
    assert Wrap(i * CHUNK_SIZE) == i * CHUNK_SIZE;
    WriteByte(file, w, out, i, i * CHUNK_SIZE);
    forall b | 0 <= b < |file|
      ensures WriteAt(out, i * CHUNK_SIZE, Chunk(file, CHUNK_SIZE, i))[b]
           == if IsBelow(w[i % STREAMS := i + STREAMS], b / CHUNK_SIZE) then file[b] else 0
    {
      WriteByte(file, w, out, i, b);
    }
    MoreBelow(Count(|file|, CHUNK_SIZE), w, i);
  }

  lemma MoreBelow(n: nat, w: seq<int>, i: nat)
    requires |w| == STREAMS && i < n && w[i % STREAMS] == i
    ensures AllBelow(n, w[i % STREAMS := i + STREAMS]) == AllBelow(n, w) + {i}
    ensures i !in AllBelow(n, w)
  {
    forall j: nat ensures IsBelow(w[i % STREAMS := i + STREAMS], j) <==> IsBelow(w, j) || j == i {
      BoundMoves(w, i % STREAMS, i, j);
    }
    BoundMoves(w, i % STREAMS, i, i);
  }

  lemma CountTally(file: Octets, c: seq<int>, counter: nat, i: nat)
    requires |c| == STREAMS && Tally(file, c, counter) && i < Count(|file|, CHUNK_SIZE) && c[i % STREAMS] == i
    requires |file| < TWO64
    ensures Tally(file, c[i % STREAMS := i + STREAMS], Wrap(counter + ChunkLen(|file|, CHUNK_SIZE, i)))
  {
    var n := Count(|file|, CHUNK_SIZE);
    MoreBelow(n, c, i);
    PayloadAdd(|file|, CHUNK_SIZE, n, AllBelow(n, c), i);
    PayloadBound(|file|, CHUNK_SIZE, n, AllBelow(n, c[i % STREAMS := i + STREAMS]));
  }

  /** The chunk that has been written appears in the image; nothing else does. */
  lemma StepImage(file: Octets, next: seq<nat>, s: Session, e: Event)
    requires Inv(file, next, s) && Enabled(s, e) && |file| + CHUNK_SIZE - 1 < TWO64
    ensures |Next(file, next, e)| == |Apply(s, e).tasks| == STREAMS
    ensures Image(file, WrittenBelow(Next(file, next, e), Apply(s, e).tasks), Apply(s, e).out)
    ensures AllBelow(Count(|file|, CHUNK_SIZE), WrittenBelow(Next(file, next, e), Apply(s, e).tasks))
         == AllBelow(Count(|file|, CHUNK_SIZE), WrittenBelow(next, s.tasks)) + WrittenBy(s, e)
  {
    StepBounds(file, next, s, e);
    if e.Write? {
      WriteStep(file, WrittenBelow(next, s.tasks), s, e.r, next[e.r], s.tasks[e.r]);
    }
  }

  lemma StepTally(file: Octets, next: seq<nat>, s: Session, e: Event)
    requires Inv(file, next, s) && Enabled(s, e) && |file| + CHUNK_SIZE - 1 < TWO64
    ensures |Next(file, next, e)| == |Apply(s, e).tasks| == STREAMS
    ensures Tally(file, CountedBelow(Next(file, next, e), Apply(s, e).tasks), Apply(s, e).counter)
  {
    StepBounds(file, next, s, e);
    if e.CountUp? {
      CountStep(file, CountedBelow(next, s.tasks), s, e.r, next[e.r], s.tasks[e.r]);
    }
  }

  lemma StepInv(file: Octets, next: seq<nat>, s: Session, e: Event)
    requires Inv(file, next, s) && Enabled(s, e) && |file| + CHUNK_SIZE - 1 < TWO64
    ensures Inv(file, Next(file, next, e), Apply(s, e))
    ensures AllBelow(Count(|file|, CHUNK_SIZE), WrittenBelow(Next(file, next, e), Apply(s, e).tasks))
         == AllBelow(Count(|file|, CHUNK_SIZE), WrittenBelow(next, s.tasks)) + WrittenBy(s, e)
  {
    StepTasks(file, next, s, e);
    StepImage(file, next, s, e);
    StepTally(file, next, s, e);
  }

  lemma HoldingFacts(file: Octets, r: nat, next: nat, t: Task)
    requires TaskInv(file, r, next, t) && t.phase.Holding?
    ensures var i := t.phase.index;
      && i < Count(|file|, CHUNK_SIZE) && i % STREAMS == r
      && TaskWritten(next, t) == i && t.phase.data == Chunk(file, CHUNK_SIZE, i)
  {
  }

  lemma CountingFacts(file: Octets, r: nat, next: nat, t: Task)
    requires TaskInv(file, r, next, t) && t.phase.Counting?
    ensures var i := TaskCounted(next, t);
      0 <= i < Count(|file|, CHUNK_SIZE) && i % STREAMS == r && t.phase.len == ChunkLen(|file|, CHUNK_SIZE, i)
  {
  }

  lemma WriteStep(file: Octets, w: seq<int>, s: Session, r: nat, next: nat, t: Task)
    requires |w| == STREAMS && Image(file, w, s.out) && Enabled(s, Write(r)) && |file| < TWO64
    requires r < STREAMS && t == s.tasks[r] && TaskInv(file, r, next, t) && w[r] == TaskWritten(next, t)
    ensures var w' := w[r := w[r] + STREAMS]; var n := Count(|file|, CHUNK_SIZE);
      && Image(file, w', Apply(s, Write(r)).out)
      && AllBelow(n, w') == AllBelow(n, w) + WrittenBy(s, Write(r))
  {
    HoldingFacts(file, r, next, t);
    WriteImage(file, w, s.out, t.phase.index);
  }

  lemma CountStep(file: Octets, c: seq<int>, s: Session, r: nat, next: nat, t: Task)
    requires |c| == STREAMS && Tally(file, c, s.counter) && Enabled(s, CountUp(r)) && |file| < TWO64
    requires r < STREAMS && t == s.tasks[r] && TaskInv(file, r, next, t) && c[r] == TaskCounted(next, t)
    ensures Tally(file, c[r := c[r] + STREAMS], Apply(s, CountUp(r)).counter)
  {
    CountingFacts(file, r, next, t);
    CountTally(file, c, s.counter, c[r]);
  }

  /** The chunk an event writes, and the chunks a run writes. */
  function WrittenBy(s: Session, e: Event): set<nat>
    requires Enabled(s, e)
  {
    if e.Write? then {s.tasks[e.r].phase.index} else {}
  }

  function WrittenIn(s: Session, es: seq<Event>): set<nat>
    requires Legal(s, es)
    decreases |es|
  {
    if es == [] then {} else WrittenBy(s, es[0]) + WrittenIn(Apply(s, es[0]), es[1..])
  }

  lemma {:induction false} RunInv(file: Octets, next: seq<nat>, s: Session, es: seq<Event>) returns (final: seq<nat>)
    requires Inv(file, next, s) && Legal(s, es) && |file| + CHUNK_SIZE - 1 < TWO64
    ensures Inv(file, final, Exec(s, es))
    ensures |es| + StepsLeft(file, final, Exec(s, es).tasks, STREAMS) == StepsLeft(file, next, s.tasks, STREAMS)
    ensures AllBelow(Count(|file|, CHUNK_SIZE), WrittenBelow(final, Exec(s, es).tasks))
         == AllBelow(Count(|file|, CHUNK_SIZE), WrittenBelow(next, s.tasks)) + WrittenIn(s, es)
    decreases |es|
  {
    final := next;
    if es != [] {
      StepInv(file, next, s, es[0]);
      StepCosts(file, next, s, es[0]);
      final := RunInv(file, Next(file, next, es[0]), Apply(s, es[0]), es[1..]);
    }
  }

  // ---------------------------------------------------------------- progress

  /** Exactly how many more steps a task will take: three a chunk and one for the marker. */
  function TaskSteps(file: Octets, next: nat, t: Task): nat {
    3 * |Stripe(Count(|file|, CHUNK_SIZE), next)|
    + match t.phase
      case Holding(_, _) => 3
      case Counting(_) => 2
      case Ready => 1
      case _ => 0
  }

  function StepsLeft(file: Octets, next: seq<nat>, tasks: seq<Task>, k: nat): nat
    requires k <= |next| == |tasks|
  {
    if k == 0 then 0 else StepsLeft(file, next, tasks, k - 1) + TaskSteps(file, next[k - 1], tasks[k - 1])
  }

  lemma {:induction false} OneTask(file: Octets, next: seq<nat>, tasks: seq<Task>, k: nat, r: nat, x: nat, t: Task)
    requires r < |next| == |tasks| && k <= |next|
    requires TaskSteps(file, x, t) + 1 == TaskSteps(file, next[r], tasks[r])
    ensures StepsLeft(file, next[r := x], tasks[r := t], k) + (if r < k then 1 else 0)
         == StepsLeft(file, next, tasks, k)
  {
    if k > 0 {
      OneTask(file, next, tasks, k - 1, r, x, t);
    }
  }

  lemma StepCosts(file: Octets, next: seq<nat>, s: Session, e: Event)
    requires Tasks(file, next, s.tasks) && Enabled(s, e) && |file| + CHUNK_SIZE - 1 < TWO64
    ensures |Next(file, next, e)| == |Apply(s, e).tasks| == STREAMS
    ensures StepsLeft(file, Next(file, next, e), Apply(s, e).tasks, STREAMS) + 1
         == StepsLeft(file, next, s.tasks, STREAMS)
  {
    Shape(file, next, s, e);
    StepTask(file, e.r, next[e.r], s.tasks[e.r], e);
    var next' := NextAfter(Count(|file|, CHUNK_SIZE), next[e.r], e);
    OneTask(file, next, s.tasks, STREAMS, e.r, next', TaskAfter(s.tasks[e.r], e));
  }

  lemma {:induction false} InitialSteps(file: Octets, k: nat)
    requires k <= STREAMS
    ensures StepsLeft(file, Range(0, STREAMS), Init(file).tasks, k) == 3 * Visits(Count(|file|, CHUNK_SIZE), k) + k
  {
    if k > 0 {
      InitialSteps(file, k - 1);
    }
  }

  lemma TaskDone(file: Octets, r: nat, next: nat, t: Task)
    requires TaskInv(file, r, next, t)
    ensures TaskSteps(file, next, t) == 0 <==> t.phase.Done?
  {
    StripeUnfold(Count(|file|, CHUNK_SIZE), next);
  }

  lemma {:induction false} NothingLeft(file: Octets, next: seq<nat>, tasks: seq<Task>, k: nat)
    requires Tasks(file, next, tasks) && k <= STREAMS
    ensures StepsLeft(file, next, tasks, k) == 0 <==> forall r :: 0 <= r < k ==> tasks[r].phase.Done?
  {
    if k > 0 {
      NothingLeft(file, next, tasks, k - 1);
      TaskDone(file, k - 1, next[k - 1], tasks[k - 1]);
    }
  }

  /**
   The native transfer, for every file (also an empty one) and every interleaving of the eight tasks:
   at each moment the output is the source on the chunks written so far and zero elsewhere, and no task
   has failed; a run ends after exactly three steps a chunk plus eight, never earlier or later; and when
   all end markers have been read the output is the source and every byte is counted, so any checksum of
   the two agrees.
   */
  lemma CliEndToEnd(file: Octets, es: seq<Event>, hash: Octets -> string)
    requires Legal(Init(file), es) && |file| + CHUNK_SIZE - 1 < TWO64
    ensures var s := Exec(Init(file), es); var n := Count(|file|, CHUNK_SIZE);
      && |s.out| == |file|
      && (forall b :: 0 <= b < |file| ==>
           s.out[b] == if b / CHUNK_SIZE in WrittenIn(Init(file), es) then file[b] else 0)
      && (forall r :: 0 <= r < |s.tasks| ==> !s.tasks[r].phase.Broken?)
      && s.counter <= |file|
      && |es| <= 3 * n + STREAMS
      && (AllDone(s) <==> |es| == 3 * n + STREAMS)
      && (AllDone(s) ==> s.out == file && s.counter == |file| && hash(s.out) == hash(file))
  {
    var next := Observe(file, es);
    var s := Exec(Init(file), es);
    ImageNow(file, WrittenBelow(next, s.tasks), s.out, WrittenIn(Init(file), es));
    var n := Count(|file|, CHUNK_SIZE);
    PayloadBound(|file|, CHUNK_SIZE, n, AllBelow(n, CountedBelow(next, s.tasks)));
    TasksNow(file, next, s);
    if AllDone(s) {
      AtTheEnd(file, next, s);
    }
  }

  lemma Observe(file: Octets, es: seq<Event>) returns (next: seq<nat>)
    requires Legal(Init(file), es) && |file| + CHUNK_SIZE - 1 < TWO64
    ensures var s := Exec(Init(file), es); var n := Count(|file|, CHUNK_SIZE);
      && Inv(file, next, s)
      && |es| + StepsLeft(file, next, s.tasks, STREAMS) == 3 * n + STREAMS
      && AllBelow(n, WrittenBelow(next, s.tasks)) == WrittenIn(Init(file), es)
  {
    var n := Count(|file|, CHUNK_SIZE);
    InitInv(file);
    next := RunInv(file, Range(0, STREAMS), Init(file), es);
    InitialSteps(file, STREAMS);
    VisitsShare(n, n / 8, STREAMS);
    assert {} + WrittenIn(Init(file), es) == WrittenIn(Init(file), es);
  }

  lemma ImageNow(file: Octets, w: seq<int>, out: Octets, written: set<nat>)
    requires |w| == STREAMS && Image(file, w, out) && written == AllBelow(Count(|file|, CHUNK_SIZE), w)
    ensures |out| == |file|
    ensures forall b :: 0 <= b < |file| ==> out[b] == if b / CHUNK_SIZE in written then file[b] else 0
  {
    forall b | 0 <= b < |file| ensures IsBelow(w, b / CHUNK_SIZE) <==> b / CHUNK_SIZE in written {
      InRange(|file|, CHUNK_SIZE, b / CHUNK_SIZE);
    }
  }

  lemma TasksNow(file: Octets, next: seq<nat>, s: Session)
    requires Inv(file, next, s)
    ensures forall r :: 0 <= r < |s.tasks| ==> !s.tasks[r].phase.Broken?
    ensures AllDone(s) <==> StepsLeft(file, next, s.tasks, STREAMS) == 0
  {
    NothingLeft(file, next, s.tasks, STREAMS);
    forall r | 0 <= r < |s.tasks| ensures !s.tasks[r].phase.Broken? {
      assert TaskInv(file, r, next[r], s.tasks[r]);
    }
  }

  lemma AtTheEnd(file: Octets, next: seq<nat>, s: Session)
    requires Inv(file, next, s) && AllDone(s)
    ensures s.out == file && s.counter == |file|
  {
    var n := Count(|file|, CHUNK_SIZE);
    var w, c := WrittenBelow(next, s.tasks), CountedBelow(next, s.tasks);
    forall i: nat | i < n ensures IsBelow(w, i) && IsBelow(c, i) {
      assert TaskInv(file, i % STREAMS, next[i % STREAMS], s.tasks[i % STREAMS]);
    }
    forall b | 0 <= b < |file| ensures s.out[b] == file[b] {
      InRange(|file|, CHUNK_SIZE, b / CHUNK_SIZE);
    }
    PayloadAll(|file|, CHUNK_SIZE, n, AllBelow(n, c));
    LastOffset(|file|, CHUNK_SIZE);
  }
}
