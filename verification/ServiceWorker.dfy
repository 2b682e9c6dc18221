/**
 The streaming-download service worker. The browser's fetch for a download may come at any point
 after its registration; chunks posted before it are buffered and flushed when it arrives.
 */
module ServiceWorker {
  import opened Bytes

  type Id = string

  datatype Condition = Open | Closed | Errored

  /** What a ReadableStream controller has been given. */
  datatype Stream = Stream(enqueued: seq<Octets>, state: Condition, closes: nat)
  {
    function Enqueue(x: Octets): Stream { if state.Open? then this.(enqueued := enqueued + [x]) else this }
    function End(): Stream { if state.Open? then this.(state := Closed, closes := closes + 1) else this }
    function Fail(): Stream { if state.Open? then this.(state := Errored) else this }
  }

  const NEW_STREAM: Stream := Stream([], Open, 0)

  datatype Entry = Entry(size: nat, controller: Option<Stream>, pending: seq<Octets>, closed: bool)

  datatype Post =
    | Register(id: Id, size: nat)
    | Chunk(id: Id, data: Octets)
    | Close(id: Id)
    | Abort(id: Id)
    | Fetch(id: Id)
    | Cancel(id: Id)

  /** The worker's table, and the last state of every entry removed from it. */
  datatype Worker = Worker(entries: map<Id, Entry>, ended: map<Id, Entry>)

  function EnqueueAll(s: Stream, xs: seq<Octets>): Stream
    decreases |xs|
  {
    if xs == [] then s else EnqueueAll(s.Enqueue(xs[0]), xs[1..])
  }

  function Fetched(e: Entry): Entry {
    var s := EnqueueAll(NEW_STREAM, e.pending);
    e.(controller := Some(if e.closed then s.End() else s), pending := [])
  }

  function Chunked(e: Entry, data: Octets): Entry {
    match e.controller
    case Some(s) => e.(controller := Some(s.Enqueue(data)))
    case None => e.(pending := e.pending + [data])
  }

  function Ended(e: Entry): Entry {
    e.(closed := true, controller := if e.controller.Some? then Some(e.controller.value.End()) else None)
  }

  function Failed(e: Entry): Entry {
    if e.controller.Some? then e.(controller := Some(e.controller.value.Fail())) else e
  }

  function Retire(w: Worker, id: Id, e: Entry): Worker {
    Worker(w.entries - {id}, w.ended[id := e])
  }

  function Step(w: Worker, p: Post): Worker {
    if p.Register? then w.(entries := w.entries[p.id := Entry(p.size, None, [], false)])
    else if p.id !in w.entries then w
    else
      var e := w.entries[p.id];
      match p
      case Chunk(id, data) => w.(entries := w.entries[id := Chunked(e, data)])
      case Close(id) =>
        if e.controller.Some? then Retire(w, id, Ended(e)) else w.(entries := w.entries[id := Ended(e)])
      case Abort(id) => Retire(w, id, Failed(e))
      case Fetch(id) =>
        if e.closed then Retire(w, id, Fetched(e)) else w.(entries := w.entries[id := Fetched(e)])
      case Cancel(id) => Retire(w, id, e)
  }

  function Run(w: Worker, ps: seq<Post>): Worker
    decreases |ps|
  {
    if ps == [] then w else Run(Step(w, ps[0]), ps[1..])
  }

  // ---------------------------------------------------------------- one download at a time

  /** What the worker knows of one download. */
  datatype Local = Local(entry: Option<Entry>, ended: Option<Entry>)

  function At(w: Worker, id: Id): Local {
    Local(if id in w.entries then Some(w.entries[id]) else None, if id in w.ended then Some(w.ended[id]) else None)
  }

  function Only(id: Id, ps: seq<Post>): seq<Post> {
    if ps == [] then [] else (if ps[0].id == id then [ps[0]] else []) + Only(id, ps[1..])
  }

  /** Two workers that agree about a download still agree after an event of that download. */
  lemma StepLocal(v: Worker, w: Worker, id: Id, p: Post)
    requires At(v, id) == At(w, id)
    ensures p.id == id ==> At(Step(v, p), id) == At(Step(w, p), id)
    ensures p.id != id ==> At(Step(v, p), id) == At(v, id)
  {
    assert id in v.entries <==> id in w.entries;
    assert id in v.ended <==> id in w.ended;
  }

  /** Downloads do not interfere: only a download's own events matter to it. */
  lemma {:induction false} RunLocal(v: Worker, w: Worker, id: Id, ps: seq<Post>)
    requires At(v, id) == At(w, id)
    ensures At(Run(v, ps), id) == At(Run(w, Only(id, ps)), id)
    decreases |ps|
  {
    if ps != [] {
      StepLocal(v, w, id, ps[0]);
      if ps[0].id == id {
        assert Only(id, ps)[1..] == Only(id, ps[1..]);
        RunLocal(Step(v, ps[0]), Step(w, ps[0]), id, ps[1..]);
      } else {
        assert Only(id, ps) == Only(id, ps[1..]);
        RunLocal(Step(v, ps[0]), w, id, ps[1..]);
      }
    }
  }

  lemma {:induction false} RunConcat(w: Worker, a: seq<Post>, b: seq<Post>)
    ensures Run(w, a + b) == Run(Run(w, a), b)
    decreases |a|
  {
    if a == [] {
      assert a + b == b;
    } else {
      assert (a + b)[1..] == a[1..] + b;
      RunConcat(Step(w, a[0]), a[1..], b);
    }
  }

  lemma RunOne(w: Worker, p: Post)
    ensures Run(w, [p]) == Step(w, p)
  {
    assert [p][1..] == [];
  }

  lemma RunTwo(w: Worker, p: Post, q: Post)
    ensures Run(w, [p, q]) == Step(Step(w, p), q)
  {
    assert [p, q][1..] == [q];
    RunOne(Step(w, p), q);
  }

  lemma {:induction false} EnqueueAllOpen(s: Stream, xs: seq<Octets>)
    requires s.state.Open?
    ensures EnqueueAll(s, xs) == s.(enqueued := s.enqueued + xs)
    decreases |xs|
  {
    if xs == [] {
      assert s.enqueued + xs == s.enqueued;
    } else {
      EnqueueAllOpen(s.Enqueue(xs[0]), xs[1..]);
      assert s.enqueued + xs == s.enqueued + [xs[0]] + xs[1..];
    }
  }

  function ChunkPosts(id: Id, data: seq<Octets>): (r: seq<Post>)
    ensures |r| == |data|
  {
    seq(|data|, k requires 0 <= k < |data| => Chunk(id, data[k]))
  }

  /** Chunks posted before the fetch wait in the entry, in order. */
  lemma {:induction false} Buffering(w: Worker, id: Id, data: seq<Octets>)
    requires id in w.entries && w.entries[id].controller.None?
    ensures var v := Run(w, ChunkPosts(id, data)); var e := w.entries[id];
      At(v, id) == At(w, id).(entry := Some(e.(pending := e.pending + data)))
    decreases |data|
  {
    var e := w.entries[id];
    if data == [] {
      assert e.pending + data == e.pending;
    } else {
      assert ChunkPosts(id, data)[1..] == ChunkPosts(id, data[1..]);
      Buffering(Step(w, Chunk(id, data[0])), id, data[1..]);
      assert e.pending + data == e.pending + [data[0]] + data[1..];
    }
  }

  /** Chunks posted after the fetch go straight to the stream, in order. */
  lemma {:induction false} Streaming(w: Worker, id: Id, data: seq<Octets>)
    requires id in w.entries && w.entries[id].controller.Some? && w.entries[id].controller.value.state.Open?
    ensures var v := Run(w, ChunkPosts(id, data)); var e := w.entries[id]; var s := e.controller.value;
      At(v, id) == At(w, id).(entry := Some(e.(controller := Some(s.(enqueued := s.enqueued + data)))))
    decreases |data|
  {
    var e := w.entries[id];
    if data == [] {
      assert e.controller.value.enqueued + data == e.controller.value.enqueued;
    } else {
      assert ChunkPosts(id, data)[1..] == ChunkPosts(id, data[1..]);
      Streaming(Step(w, Chunk(id, data[0])), id, data[1..]);
      assert e.controller.value.enqueued + data == e.controller.value.enqueued + [data[0]] + data[1..];
    }
  }

  /** The finished download: everything streamed in posting order, closed once, entry gone. */
  ghost predicate Complete(l: Local, size: nat, data: seq<Octets>) {
    && l.entry.None?
    && l.ended == Some(Entry(size, Some(Stream(data, Closed, 1)), [], true))
  }

  /** One download's own events: register, `before`, the fetch, `after`, with the close where `late` says. */
  function OwnEvents(id: Id, size: nat, before: seq<Octets>, after: seq<Octets>, late: bool): seq<Post> {
    [Register(id, size)] + ChunkPosts(id, before)
      + (if late then [Close(id), Fetch(id)] else [Fetch(id)] + ChunkPosts(id, after) + [Close(id)])
  }

  lemma OwnRun(w: Worker, id: Id, size: nat, before: seq<Octets>, after: seq<Octets>, late: bool)
    requires late ==> after == []
    ensures Complete(At(Run(w, OwnEvents(id, size, before, after, late)), id), size, before + after)
  {
    var w1 := Run(w, [Register(id, size)]);
    RunOne(w, Register(id, size));
    var w2 := Run(w1, ChunkPosts(id, before));
    Buffering(w1, id, before);
    RunConcat(w, [Register(id, size)], ChunkPosts(id, before));
    assert w2.entries[id].pending == before;
    EnqueueAllOpen(NEW_STREAM, before);
    if late {
      RunConcat(w, [Register(id, size)] + ChunkPosts(id, before), [Close(id), Fetch(id)]);
      var w3 := Step(w2, Close(id));
      RunTwo(w2, Close(id), Fetch(id));
      assert before + after == before;
    } else {
      var tail := ChunkPosts(id, after) + [Close(id)];
      assert OwnEvents(id, size, before, after, false)
          == [Register(id, size)] + ChunkPosts(id, before) + ([Fetch(id)] + tail);
      RunConcat(w, [Register(id, size)] + ChunkPosts(id, before), [Fetch(id)] + tail);
      RunConcat(w2, [Fetch(id)], tail);
      var w3 := Step(w2, Fetch(id));
      RunOne(w2, Fetch(id));
      RunConcat(w3, ChunkPosts(id, after), [Close(id)]);
      Streaming(w3, id, after);
      var w4 := Run(w3, ChunkPosts(id, after));
      RunOne(w4, Close(id));
    }
  }

  /** What the page posts about one download after registering it. */
  function Posts(id: Id, data: seq<Octets>): seq<Post> { ChunkPosts(id, data) + [Close(id)] }

  /**
   Fetch-time independence: wherever the one fetch falls among a registered download's messages, and
   whatever other downloads do in between, the outcome is the same complete stream.
   */
  lemma FetchTimeIndependence(w: Worker, id: Id, size: nat, data: seq<Octets>, k: nat, ps: seq<Post>)
    requires k <= |data| + 1
    requires Only(id, ps) == [Register(id, size)] + Posts(id, data)[..k] + [Fetch(id)] + Posts(id, data)[k..]
    ensures Complete(At(Run(w, ps), id), size, data)
  {
    RunLocal(w, w, id, ps);
    if k <= |data| {
      SplitPosts(id, size, data, k);
      OwnRun(w, id, size, data[..k], data[k..], false);
      assert data[..k] + data[k..] == data;
    } else {
      assert Posts(id, data)[..k] == Posts(id, data) && Posts(id, data)[k..] == [];
      assert Only(id, ps) == [Register(id, size)] + (ChunkPosts(id, data) + [Close(id)]) + [Fetch(id)] + [];
      assert Only(id, ps) == OwnEvents(id, size, data, [], true);
      OwnRun(w, id, size, data, [], true);
      assert data + [] == data;
    }
  }

  lemma SplitPosts(id: Id, size: nat, data: seq<Octets>, k: nat)
    requires k <= |data|
    ensures [Register(id, size)] + Posts(id, data)[..k] + [Fetch(id)] + Posts(id, data)[k..]
         == OwnEvents(id, size, data[..k], data[k..], false)
  {
    assert Posts(id, data)[..k] == ChunkPosts(id, data[..k]);
    assert Posts(id, data)[k..] == ChunkPosts(id, data[k..]) + [Close(id)];
    var r, a := [Register(id, size)], ChunkPosts(id, data[..k]);
    var f, b, c := [Fetch(id)], ChunkPosts(id, data[k..]), [Close(id)];
    assert r + a + f + (b + c) == r + a + (f + b + c);
  }

  /** A fetch that comes before the registration is refused, and then nothing is ever streamed. */
  lemma EarlyFetchLosesDownload(w: Worker, id: Id, size: nat, data: seq<Octets>, ps: seq<Post>)
    requires id !in w.entries
    requires Only(id, ps) == [Fetch(id), Register(id, size)] + Posts(id, data)
    ensures At(Run(w, ps), id) == At(w, id).(entry := Some(Entry(size, None, data, true)))
  {
    RunLocal(w, w, id, ps);
    var w2 := Step(w, Register(id, size));
    RunTwo(w, Fetch(id), Register(id, size));
    RunConcat(w, [Fetch(id), Register(id, size)], Posts(id, data));
    RunConcat(w2, ChunkPosts(id, data), [Close(id)]);
    Buffering(w2, id, data);
    var w3 := Run(w2, ChunkPosts(id, data));
    RunOne(w3, Close(id));
    assert [] + data == data;
  }

  /** An id the worker does not know: nothing but a registration makes a difference. */
  lemma UnknownIgnored(w: Worker, p: Post)
    requires p.id !in w.entries && !p.Register?
    ensures Step(w, p) == w
  {
  }

  /** A cancel removes the entry as it is. An abort fails a live stream, which is then neither closed nor added to. */
  lemma CancelAndAbort(w: Worker, id: Id)
    requires id in w.entries
    ensures At(Step(w, Cancel(id)), id) == Local(None, Some(w.entries[id]))
    ensures At(Step(w, Abort(id)), id).entry.None?
    ensures w.entries[id].controller.Some? && w.entries[id].controller.value.state.Open? ==>
      var was, l := w.entries[id].controller.value, At(Step(w, Abort(id)), id);
      l.ended.Some? && l.ended.value.controller == Some(Stream(was.enqueued, Errored, was.closes))
  {
  }

  /** A controller that is closed or errored throws, and the worker swallows that: the stream stays as it is. */
  lemma SettledStream(s: Stream, x: Octets)
    requires !s.state.Open?
    ensures s.Enqueue(x) == s && s.End() == s && s.Fail() == s
  {
  }

  /** An entry in the table is either waiting for its fetch or live: open, never closed, nothing left over. */
  predicate Usable(e: Entry) {
    e.controller.Some? ==>
      e.controller.value.state.Open? && e.controller.value.closes == 0 && e.pending == [] && !e.closed
  }

  lemma StepUsable(w: Worker, p: Post)
    requires forall id :: id in w.entries ==> Usable(w.entries[id])
    ensures forall id :: id in Step(w, p).entries ==> Usable(Step(w, p).entries[id])
  {
    if p.id in w.entries && p.Fetch? {
      EnqueueAllOpen(NEW_STREAM, w.entries[p.id].pending);
    }
  }

  /** Over every sequence of events, also repeated fetches and registrations: the table holds usable entries only. */
  lemma {:induction false} TableUsable(w: Worker, ps: seq<Post>)
    requires forall id :: id in w.entries ==> Usable(w.entries[id])
    ensures forall id :: id in Run(w, ps).entries ==> Usable(Run(w, ps).entries[id])
    decreases |ps|
  {
    if ps != [] {
      StepUsable(w, ps[0]);
      TableUsable(Step(w, ps[0]), ps[1..]);
    }
  }

  // ---------------------------------------------------------------- the event handlers

  class StreamController {
    var stream: Stream

    constructor ()
      ensures stream == NEW_STREAM
    {
      stream := NEW_STREAM;
    }
  }

  class StreamEntry {
    const size: nat
    var controller: StreamController?
    var pending: seq<Octets>
    var closed: bool

    ghost function State(): Entry
      reads this, controller
    {
      Entry(size, if controller == null then None else Some(controller.stream), pending, closed)
    }

    constructor (size: nat)
      ensures State() == Entry(size, None, [], false) && controller == null
    {
      this.size := size;
      controller, pending, closed := null, [], false;
    }

    method OnChunk(data: Octets)
      modifies this`pending, controller
      ensures State() == Chunked(old(State()), data)
    {
      if controller != null {
        controller.stream := controller.stream.Enqueue(data);
      } else {
        pending := pending + [data];
      }
    }

    /** Returns whether the entry must leave the table. */
    method OnClose() returns (remove: bool)
      modifies this`closed, controller
      ensures State() == Ended(old(State())) && remove == old(State()).controller.Some?
    {
      closed := true;
      remove := controller != null;
      if controller != null {
        controller.stream := controller.stream.End();
      }
    }

    method OnAbort()
      modifies controller
      ensures State() == Failed(old(State()))
    {
      if controller != null {
        controller.stream := controller.stream.Fail();
      }
    }

    /** The stream's start callback: flush what is buffered, and close at once if the page already has. */
    method OnFetch() returns (remove: bool)
      modifies this
      ensures State() == Fetched(old(State())) && remove == old(closed)
      ensures fresh(controller)
    {
      var c := new StreamController();
      controller := c;
      for k := 0 to |pending|
        invariant controller == c && fresh(c) && pending == old(pending) && closed == old(closed)
        invariant EnqueueAll(c.stream, pending[k..]) == EnqueueAll(NEW_STREAM, old(pending))
      {
        c.stream := c.stream.Enqueue(pending[k]);
      }
      assert pending[|pending|..] == [];
      pending := [];
      remove := closed;
      if closed {
        c.stream := c.stream.End();
      }
    }
  }

  class Handlers {
    var streams: map<Id, StreamEntry>
    ghost var ended: map<Id, Entry>

    ghost function Controllers(): set<object>
      reads this, streams.Values
    {
      set id | id in streams && streams[id].controller != null :: streams[id].controller as object
    }

    /** Entries and controllers are not shared between downloads. */
    ghost predicate Valid()
      reads this, streams.Values
    {
      forall i, j :: i in streams && j in streams && i != j ==>
        streams[i] != streams[j] && (streams[i].controller == null || streams[i].controller != streams[j].controller)
    }

    ghost function State(): Worker
      reads this, streams.Values, Controllers()
    {
      Worker(map id | id in streams :: streams[id].State(), ended)
    }

    constructor ()
      ensures Valid() && State() == Worker(map[], map[])
    {
      streams, ended := map[], map[];
    }

    /** When one entry is new or changed and the others are as before, that is all that happened to the table. */
    twostate lemma OneChanged(id: Id)
      requires id in streams && streams.Keys == old(streams).Keys + {id} && ended == old(ended)
      requires forall j :: j in streams && j != id ==> streams[j].State() == old(streams[j].State())
      ensures State() == old(State()).(entries := old(State()).entries[id := streams[id].State()])
    {
    }

    method OnRegister(id: Id, size: nat)
      requires Valid()
      modifies this
      ensures Valid() && State() == Step(old(State()), Register(id, size))
    {
      var entry := new StreamEntry(size);
      streams := streams[id := entry];
      OneChanged(id);
    }

    /** Drop an entry from the table. */
    method Delete(id: Id)
      requires Valid() && id in streams
      modifies this
      ensures Valid() && State() == Retire(old(State()), id, old(State()).entries[id])
    {
      ended := ended[id := streams[id].State()];
      streams := streams - {id};
    }

    method OnChunk(id: Id, data: Octets)
      requires Valid()
      modifies streams.Values, Controllers()
      ensures Valid() && State() == Step(old(State()), Chunk(id, data))
    {
      if id in streams {
        streams[id].OnChunk(data);
        OneChanged(id);
      }
    }

    method OnClose(id: Id)
      requires Valid()
      modifies this, streams.Values, Controllers()
      ensures Valid() && State() == Step(old(State()), Close(id))
    {
      if id in streams {
        var remove := streams[id].OnClose();
        OneChanged(id);
        if remove {
          Delete(id);
        }
      }
    }

    method OnAbort(id: Id)
      requires Valid()
      modifies this, streams.Values, Controllers()
      ensures Valid() && State() == Step(old(State()), Abort(id))
    {
      if id in streams {
        streams[id].OnAbort();
        OneChanged(id);
        Delete(id);
      }
    }

    /** Returns whether the response is the stream (otherwise 404). */
    method OnFetch(id: Id) returns (found: bool)
      requires Valid()
      modifies this, streams.Values
      ensures Valid() && State() == Step(old(State()), Fetch(id)) && found == (id in old(streams))
    {
      found := id in streams;
      if found {
        var remove := streams[id].OnFetch();
        OneChanged(id);
        if remove {
          Delete(id);
        }
      }
    }

    method OnCancel(id: Id)
      requires Valid()
      modifies this
      ensures Valid() && State() == Step(old(State()), Cancel(id))
    {
      if id in streams {
        Delete(id);
      }
    }
  }
}
