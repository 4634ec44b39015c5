/**
 Streamed tool output: the sender of internal/agent/agent.go (chunkSink), the receiver of internal/mcp/bridge.go
 (streamRecv and the stream branch of HandleInbound), and every run of the two over a channel that loses, repeats,
 reorders and forges frames.

 Sealing is ideal: a ciphertext opens only under the key and the associated data it was sealed with.
 */
module ToolStream {
  import opened Options
  import opened Bytes
  import opened Aad

  datatype Frame = Frame(q: nat, stream: seq<byte>, data: seq<byte>, fin: bool)

  datatype Cipher = Sealed(key: nat, aad: seq<byte>, plain: seq<byte>) | Junk(bytes: seq<byte>)

  function Open(key: nat, aad: seq<byte>, c: Cipher): Option<seq<byte>> {
    if c.Sealed? && c.key == key && c.aad == aad then Some(c.plain) else None
  }

  // ---------- the sender ----------

  datatype Sink = Sink(active: bool, finished: bool, q: nat, sent: seq<Frame>)

  function Emit(s: Sink, stream: seq<byte>, data: seq<byte>, fin: bool): Sink {
    s.(q := Succ32(s.q), sent := s.sent + [Frame(s.q, stream, data, fin)])
  }

  function Send(s: Sink, stream: seq<byte>, data: seq<byte>): Sink {
    if s.finished then s else Emit(s.(active := true), stream, data, false)
  }

  function Finish(s: Sink): Sink {
    if !s.active || s.finished then s else Emit(s.(finished := true), [], [], true)
  }

  // ---------- the receiver ----------

  const MAX_TRACKED: nat := 4096

  datatype Recv = Recv(next: nat, missing: set<nat>, overflow: nat, damaged: nat, finished: bool)

  /** Registers the numbers from h up to q as missing; beyond the cap they are only counted. */
  function Track(missing: set<nat>, overflow: nat, h: nat, q: nat): (set<nat>, nat)
    decreases q - h
  {
    if h >= q then (missing, overflow)
    else if |missing| >= MAX_TRACKED then (missing, overflow + (q - h))
    else Track(missing + {h}, overflow, h + 1, q)
  }

  function Observe(r: Recv, q: nat): Recv {
    if q < r.next then r.(missing := r.missing - {q})
    else
      var (missing, overflow) := Track(r.missing, r.overflow, r.next, q);
      r.(missing := missing, overflow := overflow, next := Succ32(q))
  }

  function Gaps(r: Recv): nat { |r.missing| + r.overflow + r.damaged }

  /** What a call that needs the terminator takes for a complete stream. */
  predicate Success(r: Recv) { Gaps(r) == 0 && r.finished }

  lemma {:induction false} TrackMisses(missing: set<nat>, overflow: nat, h: nat, q: nat)
    ensures var (m, o) := Track(missing, overflow, h, q);
            && missing <= m && overflow <= o
            && (forall i :: h <= i < q ==> i in m || o > 0)
    decreases q - h
  {
    if h < q && |missing| < MAX_TRACKED {
      TrackMisses(missing + {h}, overflow, h + 1, q);
    }
  }

  // ---------- runs ----------

  /** What a handler still has to do after it has observed its frame. */
  datatype Task = Damaging | Finishing(f: Frame) | Calling(f: Frame)

  /** got, tainted and calls are history: numbers of authentic frames observed, whether any other frame was observed,
      and the callbacks made. */
  datatype World = World(sink: Sink, produced: set<Cipher>, recv: Recv, busy: multiset<Task>,
                         calls: seq<Frame>, got: set<nat>, tainted: bool)

  datatype Step =
    | DoSend(key: nat, stream: seq<byte>, data: seq<byte>)
    | SendFails
    | DoFinish(key: nat)
    | FinishFails
    | SealElsewhere(c: Cipher)
    | Arrive(key: nat, q: nat, stream: seq<byte>, fin: bool, c: Cipher)
    | Work(t: Task)

  /** Sealed for something other than this call's stream. */
  ghost predicate Foreign(id: nat, c: Cipher) {
    c.Sealed? && forall q: nat, stream, fin :: q < U32 ==> c.aad != StreamChunkAAD(id, q, stream, fin)
  }

  /** Only keyed parties seal: whatever else arrives is bytes that open under no key. */
  ghost predicate Enabled(id: nat, w: World, s: Step) {
    match s
    case SealElsewhere(c) => Foreign(id, c)
    case Arrive(_, q, _, _, c) => q < U32 && (c.Sealed? ==> c in w.produced)
    case Work(t) => t in w.busy
    case _ => true
  }

  function SealFrame(id: nat, key: nat, f: Frame): Cipher {
    Sealed(key, StreamChunkAAD(id, f.q, f.stream, f.fin), f.data)
  }

  function Receive(id: nat, w: World, key: nat, q: nat, stream: seq<byte>, fin: bool, c: Cipher): World {
    var w' := w.(recv := Observe(w.recv, q));
    match Open(key, StreamChunkAAD(id, q, stream, fin), c)
    case None => w'.(busy := w.busy + multiset{Damaging}, tainted := true)
    case Some(data) =>
      var f := Frame(q, stream, data, fin);
      w'.(got := w.got + {q},
          busy := if fin then w.busy + multiset{Finishing(f)}
                  else if data != [] then w.busy + multiset{Calling(f)} else w.busy)
  }

  function Perform(w: World, t: Task): World
    requires t in w.busy
  {
    var rest := w.busy - multiset{t};
    match t
    case Damaging => w.(busy := rest, recv := w.recv.(damaged := w.recv.damaged + 1))
    case Finishing(f) =>
      w.(recv := w.recv.(finished := true), busy := if f.data != [] then rest + multiset{Calling(f)} else rest)
    case Calling(f) => w.(busy := rest, calls := w.calls + [f])
  }

  ghost function Apply(id: nat, w: World, s: Step): World {
    if !Enabled(id, w, s) then w
    else
      match s
      case DoSend(key, stream, data) =>
        if w.sink.finished then w
        else w.(sink := Send(w.sink, stream, data),
                produced := w.produced + {SealFrame(id, key, Frame(w.sink.q, stream, data, false))})
      case SendFails => if w.sink.finished then w else w.(sink := w.sink.(active := true))
      case DoFinish(key) =>
        if !w.sink.active || w.sink.finished then w
        else w.(sink := Finish(w.sink), produced := w.produced + {SealFrame(id, key, Frame(w.sink.q, [], [], true))})
      case FinishFails => if w.sink.active then w.(sink := w.sink.(finished := true)) else w
      case SealElsewhere(c) => w.(produced := w.produced + {c})
      case Arrive(key, q, stream, fin, c) => Receive(id, w, key, q, stream, fin, c)
      case Work(t) => Perform(w, t)
  }

  function Start(active: bool): World {
    World(Sink(active, false, 0, []), {}, Recv(0, {}, 0, 0, false), multiset{}, [], {}, false)
  }

  ghost function Exec(id: nat, active: bool, steps: seq<Step>): World {
    if steps == [] then Start(active) else Apply(id, Exec(id, active, steps[..|steps| - 1]), steps[|steps| - 1])
  }

  // ---------- the invariant ----------

  ghost predicate SinkOk(s: Sink) {
    && s.q == |s.sent|
    && (forall i :: 0 <= i < |s.sent| ==> s.sent[i].q == i)
    && (forall i :: 0 <= i < |s.sent| && s.sent[i].fin ==> i == |s.sent| - 1 && s.finished && s.sent[i].data == [])
  }

  ghost predicate ProducedOk(id: nat, produced: set<Cipher>, sent: seq<Frame>) {
    forall c :: c in produced ==> Foreign(id, c) || exists f :: f in sent && c.Sealed? && c == SealFrame(id, c.key, f)
  }

  /** As long as only authentic frames were observed. */
  ghost predicate RecvOk(r: Recv, got: set<nat>, n: nat) {
    && r.next <= n
    && (forall i :: 0 <= i < r.next ==> i in got || i in r.missing || r.overflow > 0)
  }

  /** Handlers hold frames of the sender. */
  ghost predicate HeldOk(busy: multiset<Task>, sent: seq<Frame>) {
    && (forall f :: Finishing(f) in busy ==> f in sent && f.fin)
    && (forall f :: Calling(f) in busy ==> f in sent)
  }

  /** The terminator has been observed. */
  ghost predicate Ending(busy: multiset<Task>, finished: bool) { finished || exists f :: Finishing(f) in busy }

  ghost predicate EndOk(ending: bool, s: Sink, next: nat, tainted: bool) {
    ending ==> s.finished && s.sent != [] && s.sent[|s.sent| - 1].fin && (!tainted ==> next == |s.sent|)
  }

  predicate TaintOk(busy: multiset<Task>, damaged: nat, tainted: bool) { tainted ==> damaged > 0 || Damaging in busy }

  ghost predicate TasksOk(busy: multiset<Task>, r: Recv, s: Sink, tainted: bool) {
    && HeldOk(busy, s.sent)
    && EndOk(Ending(busy, r.finished), s, r.next, tainted)
    && TaintOk(busy, r.damaged, tainted)
  }

  ghost predicate CallsOk(busy: multiset<Task>, calls: seq<Frame>, got: set<nat>, sent: seq<Frame>) {
    && (forall f :: f in calls ==> f in sent)
    && (forall i :: i in got ==> i < |sent|)
    && (forall i :: i in got && sent[i].data != [] ==> sent[i] in calls || Calling(sent[i]) in busy)
  }

  ghost predicate Inv(id: nat, w: World) {
    |w.sink.sent| < U32 ==>
      && SinkOk(w.sink) && ProducedOk(id, w.produced, w.sink.sent)
      && (!w.tainted ==> RecvOk(w.recv, w.got, |w.sink.sent|))
      && TasksOk(w.busy, w.recv, w.sink, w.tainted)
      && CallsOk(w.busy, w.calls, w.got, w.sink.sent)
  }

  /** A frame that opens is one the sender sealed, header and all. */
  lemma Authentic(id: nat, produced: set<Cipher>, sent: seq<Frame>, key: nat, q: nat, stream: seq<byte>, fin: bool,
                  c: Cipher)
    requires id < U64 && q < U32 && ProducedOk(id, produced, sent) && forall f :: f in sent ==> f.q < U32
    requires c.Sealed? ==> c in produced
    ensures var r := Open(key, StreamChunkAAD(id, q, stream, fin), c);
            r.Some? ==> Frame(q, stream, r.value, fin) in sent
  {
    if c.Sealed? && c.aad == StreamChunkAAD(id, q, stream, fin) {
      var f :| f in sent && c == SealFrame(id, c.key, f);
      ChunkInjective(id, q, stream, fin, id, f.q, f.stream, f.fin);
    }
  }

  /** Seals made for other calls, for requests and for responses are foreign to this stream. */
  lemma OtherCallIsForeign(id: nat, key: nat, plain: seq<byte>, id': nat, q': nat, stream': seq<byte>, fin': bool)
    requires id < U64 && id' < U64 && id' != id && q' < U32
    ensures Foreign(id, Sealed(key, StreamChunkAAD(id', q', stream', fin'), plain))
  {
    forall q: nat, stream, fin | q < U32
      ensures StreamChunkAAD(id', q', stream', fin') != StreamChunkAAD(id, q, stream, fin)
    {
      if StreamChunkAAD(id', q', stream', fin') == StreamChunkAAD(id, q, stream, fin) {
        ChunkInjective(id, q, stream, fin, id', q', stream', fin');
      }
    }
  }

  lemma RequestIsForeign(id: nat, key: nat, plain: seq<byte>, id': nat, tool: seq<byte>, dl: nat)
    ensures Foreign(id, Sealed(key, ToolReqAAD(id', tool, dl), plain))
  {
    forall q: nat, stream, fin | q < U32 ensures ToolReqAAD(id', tool, dl) != StreamChunkAAD(id, q, stream, fin) {
      KindsApart(id', tool, dl, 0, false, [], [], id, q, stream, fin);
    }
  }

  lemma ResponseIsForeign(id: nat, key: nat, plain: seq<byte>, id': nat, ok: bool, code: seq<byte>, msg: seq<byte>)
    ensures Foreign(id, Sealed(key, ToolRespAAD(id', ok, code, msg), plain))
  {
    forall q: nat, stream, fin | q < U32 ensures ToolRespAAD(id', ok, code, msg) != StreamChunkAAD(id, q, stream, fin) {
      KindsApart(0, [], 0, id', ok, code, msg, id, q, stream, fin);
    }
  }

  // ---------- every step keeps it ----------

  lemma SinkEmits(s: Sink, s': Sink, f: Frame)
    requires SinkOk(s) && !s.finished && f.q == s.q && (f.fin ==> s'.finished && f.data == [])
    requires s'.q == s.q + 1 && s'.sent == s.sent + [f]
    ensures SinkOk(s')
  {
  }

  lemma TasksEmit(busy: multiset<Task>, r: Recv, s: Sink, s': Sink, tainted: bool)
    requires TasksOk(busy, r, s, tainted) && !s.finished && forall g :: g in s.sent ==> g in s'.sent
    ensures TasksOk(busy, r, s', tainted)
  {
  }

  lemma CallsEmit(busy: multiset<Task>, calls: seq<Frame>, got: set<nat>, sent: seq<Frame>, f: Frame)
    requires CallsOk(busy, calls, got, sent)
    ensures CallsOk(busy, calls, got, sent + [f])
  {
    var sent' := sent + [f];
    assert forall i :: 0 <= i < |sent| ==> sent'[i] == sent[i];
  }

  lemma EmitKeeps(id: nat, w: World, key: nat, f: Frame, sink: Sink)
    requires Inv(id, w) && |w.sink.sent| < U32 - 1 && !w.sink.finished
    requires f.q == w.sink.q && (f.fin ==> sink.finished && f.data == [])
    requires sink.q == f.q + 1 && sink.sent == w.sink.sent + [f]
    ensures Inv(id, w.(sink := sink, produced := w.produced + {SealFrame(id, key, f)}))
  {
    var c := SealFrame(id, key, f);
    assert f in sink.sent && c == SealFrame(id, c.key, f);
    SinkEmits(w.sink, sink, f);
    TasksEmit(w.busy, w.recv, w.sink, sink, w.tainted);
    CallsEmit(w.busy, w.calls, w.got, w.sink.sent, f);
    ProducedGrows(id, w.produced, w.sink.sent, sink.sent, c);
  }

  lemma ProducedGrows(id: nat, produced: set<Cipher>, sent: seq<Frame>, sent': seq<Frame>, c: Cipher)
    requires ProducedOk(id, produced, sent) && forall g :: g in sent ==> g in sent'
    requires Foreign(id, c) || exists f :: f in sent' && c.Sealed? && c == SealFrame(id, c.key, f)
    ensures ProducedOk(id, produced + {c}, sent')
  {
  }

  lemma ArriveFailsKeeps(id: nat, w: World, q: nat)
    requires Inv(id, w) && q < U32
    ensures Inv(id, w.(recv := Observe(w.recv, q), busy := w.busy + multiset{Damaging}, tainted := true))
  {
  }

  lemma ObserveKeeps(r: Recv, got: set<nat>, n: nat, q: nat)
    requires RecvOk(r, got, n) && q < n < U32
    ensures RecvOk(Observe(r, q), got + {q}, n)
    ensures Observe(r, q).next == if q < r.next then r.next else q + 1
  {
    TrackMisses(r.missing, r.overflow, r.next, q);
  }

  lemma ArriveOpensKeeps(id: nat, w: World, f: Frame, busy: multiset<Task>)
    requires Inv(id, w) && |w.sink.sent| < U32 && f in w.sink.sent && f.q < U32
    requires busy == (if f.fin then w.busy + multiset{Finishing(f)}
                      else if f.data != [] then w.busy + multiset{Calling(f)} else w.busy)
    ensures Inv(id, w.(recv := Observe(w.recv, f.q), got := w.got + {f.q}, busy := busy))
  {
    assert w.sink.sent[f.q] == f;
    if !w.tainted {
      ObserveKeeps(w.recv, w.got, |w.sink.sent|, f.q);
    }
    ArriveTasks(w, f, busy);
    ArriveCalls(w.busy, w.calls, w.got, w.sink.sent, f, busy);
  }

  lemma ArriveTasks(w: World, f: Frame, busy: multiset<Task>)
    requires TasksOk(w.busy, w.recv, w.sink, w.tainted) && SinkOk(w.sink) && f in w.sink.sent && |w.sink.sent| < U32
    requires !w.tainted ==> RecvOk(w.recv, w.got, |w.sink.sent|)
    requires busy == (if f.fin then w.busy + multiset{Finishing(f)}
                      else if f.data != [] then w.busy + multiset{Calling(f)} else w.busy)
    ensures TasksOk(busy, Observe(w.recv, f.q), w.sink, w.tainted)
  {
    assert w.sink.sent[f.q] == f;
    if !w.tainted {
      ObserveKeeps(w.recv, w.got, |w.sink.sent|, f.q);
    }
    assert Ending(busy, w.recv.finished) ==> f.fin || Ending(w.busy, w.recv.finished);
  }

  lemma ArriveCalls(before: multiset<Task>, calls: seq<Frame>, got: set<nat>, sent: seq<Frame>, f: Frame,
                    busy: multiset<Task>)
    requires CallsOk(before, calls, got, sent) && f.q < |sent| && sent[f.q] == f && (f.fin ==> f.data == [])
    requires busy == (if f.fin then before + multiset{Finishing(f)}
                      else if f.data != [] then before + multiset{Calling(f)} else before)
    ensures CallsOk(busy, calls, got + {f.q}, sent)
  {
  }

  lemma PerformTasks(w: World, t: Task)
    requires TasksOk(w.busy, w.recv, w.sink, w.tainted) && t in w.busy
    ensures var w' := Perform(w, t); TasksOk(w'.busy, w'.recv, w'.sink, w'.tainted)
  {
    var w' := Perform(w, t);
    PerformHeld(w.busy, w.sink.sent, t, w'.busy);
    assert Ending(w'.busy, w'.recv.finished) ==> Ending(w.busy, w.recv.finished);
  }

  lemma PerformHeld(busy: multiset<Task>, sent: seq<Frame>, t: Task, busy': multiset<Task>)
    requires HeldOk(busy, sent) && t in busy
    requires busy' == busy - multiset{t} || (t.Finishing? && busy' == busy - multiset{t} + multiset{Calling(t.f)})
    ensures HeldOk(busy', sent)
  {
    forall f | Finishing(f) in busy' ensures Finishing(f) in busy {
    }
    forall f | Calling(f) in busy' ensures f in sent {
      assert Calling(f) in busy || t == Finishing(f);
    }
  }

  lemma PerformCalls(w: World, t: Task)
    requires CallsOk(w.busy, w.calls, w.got, w.sink.sent) && TasksOk(w.busy, w.recv, w.sink, w.tainted) && t in w.busy
    ensures var w' := Perform(w, t); CallsOk(w'.busy, w'.calls, w'.got, w'.sink.sent)
  {
  }

  lemma PerformKeeps(id: nat, w: World, t: Task)
    requires Inv(id, w) && t in w.busy
    ensures Inv(id, Perform(w, t))
  {
    if |w.sink.sent| < U32 {
      PerformTasks(w, t);
      PerformCalls(w, t);
    }
  }

  lemma SealKeeps(id: nat, w: World, c: Cipher)
    requires Inv(id, w) && Foreign(id, c)
    ensures Inv(id, w.(produced := w.produced + {c}))
  {
    if |w.sink.sent| < U32 {
      ProducedGrows(id, w.produced, w.sink.sent, w.sink.sent, c);
    }
  }

  lemma SendKeeps(id: nat, w: World, key: nat, f: Frame, sink: Sink)
    requires Inv(id, w) && !w.sink.finished && f.q == w.sink.q && (f.fin ==> sink.finished && f.data == [])
    requires sink.q == Succ32(f.q) && sink.sent == w.sink.sent + [f]
    ensures Inv(id, w.(sink := sink, produced := w.produced + {SealFrame(id, key, f)}))
  {
    if |w.sink.sent| < U32 - 1 {
      EmitKeeps(id, w, key, f, sink);
    }
  }

  lemma ArriveKeeps(id: nat, w: World, key: nat, q: nat, stream: seq<byte>, fin: bool, c: Cipher)
    requires id < U64 && Inv(id, w) && q < U32 && (c.Sealed? ==> c in w.produced)
    ensures Inv(id, Receive(id, w, key, q, stream, fin, c))
  {
    match Open(key, StreamChunkAAD(id, q, stream, fin), c)
    case None => ArriveFailsKeeps(id, w, q);
    case Some(data) =>
      if |w.sink.sent| < U32 {
        var f := Frame(q, stream, data, fin);
        Authentic(id, w.produced, w.sink.sent, key, q, stream, fin, c);
        ArriveOpensKeeps(id, w, f, Receive(id, w, key, q, stream, fin, c).busy);
      }
  }

  lemma FlagsKeep(id: nat, w: World, sink: Sink)
    requires Inv(id, w) && sink.sent == w.sink.sent && sink.q == w.sink.q && (w.sink.finished ==> sink.finished)
    ensures Inv(id, w.(sink := sink))
  {
  }

  lemma ApplyKeeps(id: nat, w: World, s: Step)
    requires id < U64 && Inv(id, w)
    ensures Inv(id, Apply(id, w, s))
  {
    if Enabled(id, w, s) {
      match s
      case DoSend(key, stream, data) =>
        if !w.sink.finished {
          SendKeeps(id, w, key, Frame(w.sink.q, stream, data, false), Send(w.sink, stream, data));
        }
      case SendFails =>
        if !w.sink.finished {
          FlagsKeep(id, w, w.sink.(active := true));
        }
      case DoFinish(key) =>
        if w.sink.active && !w.sink.finished {
          SendKeeps(id, w, key, Frame(w.sink.q, [], [], true), Finish(w.sink));
        }
      case FinishFails =>
        if w.sink.active {
          FlagsKeep(id, w, w.sink.(finished := true));
        }
      case SealElsewhere(c) => SealKeeps(id, w, c);
      case Arrive(key, q, stream, fin, c) => ArriveKeeps(id, w, key, q, stream, fin, c);
      case Work(t) => PerformKeeps(id, w, t);
    }
  }

  lemma {:induction false} ExecKeeps(id: nat, active: bool, steps: seq<Step>)
    requires id < U64
    ensures Inv(id, Exec(id, active, steps))
    decreases |steps|
  {
    if steps != [] {
      ExecKeeps(id, active, steps[..|steps| - 1]);
      ApplyKeeps(id, Exec(id, active, steps[..|steps| - 1]), steps[|steps| - 1]);
    }
  }

  // ---------- the theorems ----------

  /** Nothing but what the sender sealed for this call is ever handed to the callback. */
  lemma OnlyAuthentic(id: nat, active: bool, steps: seq<Step>)
    requires id < U64
    ensures var w := Exec(id, active, steps);
            |w.sink.sent| < U32 ==> forall f :: f in w.calls ==> f in w.sink.sent
  {
    ExecKeeps(id, active, steps);
  }

  /** Success means the terminator was sent, and every frame before it has been handed to the callback or is held by
      a handler on its way there, unless some handler is about to report a damaged frame. */
  lemma Complete(id: nat, active: bool, steps: seq<Step>)
    requires id < U64
    ensures var w := Exec(id, active, steps);
            |w.sink.sent| < U32 && Success(w.recv) && Damaging !in w.busy ==> Ended(w.sink) && HandedOn(w)
  {
    ExecKeeps(id, active, steps);
    SuccessMeans(id, Exec(id, active, steps));
  }

  /** The terminator has been sealed. */
  predicate Ended(s: Sink) { s.finished && s.sent != [] && s.sent[|s.sent| - 1].fin }

  /** Every data frame has been called back or is held by a handler that will. */
  ghost predicate HandedOn(w: World) {
    forall f :: f in w.sink.sent && f.data != [] ==> f in w.calls || Calling(f) in w.busy
  }

  lemma SuccessMeans(id: nat, w: World)
    ensures Inv(id, w) && |w.sink.sent| < U32 && Success(w.recv) && Damaging !in w.busy ==> Ended(w.sink) && HandedOn(w)
  {
    if Inv(id, w) && |w.sink.sent| < U32 && Success(w.recv) && Damaging !in w.busy {
      assert !w.tainted && Ending(w.busy, w.recv.finished);
      forall f | f in w.sink.sent && f.data != [] ensures f in w.calls || Calling(f) in w.busy {
        assert w.sink.sent[f.q] == f && f.q in w.got;
      }
    }
  }

  /** With no handler between its observation and its end, success means every frame was handed over. */
  lemma CompleteWhenQuiet(id: nat, active: bool, steps: seq<Step>)
    requires id < U64 && Exec(id, active, steps).busy == multiset{}
    ensures var w := Exec(id, active, steps);
            |w.sink.sent| < U32 && Success(w.recv) ==> forall f :: f in w.sink.sent && f.data != [] ==> f in w.calls
  {
    Complete(id, active, steps);
  }

  // ---------- the objects ----------

  class ChunkSink {
    const id: nat
    var q: nat
    var active: bool
    var finished: bool
    ghost var sent: seq<Frame>

    ghost function Value(): Sink
      reads this
    {
      Sink(active, finished, q, sent)
    }

    constructor (id: nat, active: bool)
      ensures this.id == id && Value() == Sink(active, false, 0, [])
    {
      this.id, this.q, this.active, this.finished, this.sent := id, 0, active, false, [];
    }

    /** The frame put on the wire, none after the end. */
    method SendData(key: nat, stream: seq<byte>, data: seq<byte>) returns (out: Option<(Frame, Cipher)>)
      modifies this
      ensures Value() == Send(old(Value()), stream, data)
      ensures out == if old(finished) then None
                     else var f := Frame(old(q), stream, data, false); Some((f, SealFrame(id, key, f)))
    {
      if finished {
        return None;
      }
      active := true;
      var f := Frame(q, stream, data, false);
      out := Some((f, SealFrame(id, key, f)));
      q, sent := Succ32(q), sent + [f];
    }

    method FinishStream(key: nat) returns (out: Option<(Frame, Cipher)>)
      modifies this
      ensures Value() == Finish(old(Value()))
      ensures out == if !old(active) || old(finished) then None
                     else var f := Frame(old(q), [], [], true); Some((f, SealFrame(id, key, f)))
    {
      if !active || finished {
        return None;
      }
      finished := true;
      var f := Frame(q, [], [], true);
      out := Some((f, SealFrame(id, key, f)));
      q, sent := Succ32(q), sent + [f];
    }
  }

  class StreamRecv {
    var next: nat
    var missing: set<nat>
    var overflow: nat
    var damaged: nat
    var finished: bool

    function Value(): Recv
      reads this
    {
      Recv(next, missing, overflow, damaged, finished)
    }

    constructor ()
      ensures Value() == Recv(0, {}, 0, 0, false)
    {
      next, missing, overflow, damaged, finished := 0, {}, 0, 0, false;
    }

    method ObserveFrame(q: nat)
      modifies this
      ensures Value() == Observe(old(Value()), q)
    {
      if q < next {
        missing := missing - {q};
        return;
      }
      var h := next;
      while h < q
        invariant next <= h <= q && next == old(next) && damaged == old(damaged) && finished == old(finished)
        invariant Track(missing, overflow, h, q) == Track(old(missing), old(overflow), old(next), q)
      {
        if |missing| >= MAX_TRACKED {
          overflow := overflow + (q - h);
          break;
        }
        missing := missing + {h};
        h := h + 1;
      }
      next := Succ32(q);
    }

    method MarkDamaged()
      modifies this
      ensures Value() == old(Value()).(damaged := old(damaged) + 1)
    {
      damaged := damaged + 1;
    }

    method MarkFinished()
      modifies this
      ensures Value() == old(Value()).(finished := true)
    {
      finished := true;
    }

    method Status() returns (gaps: nat, done: bool)
      ensures gaps == Gaps(Value()) && done == finished
      ensures gaps == 0 && done <==> Success(Value())
    {
      return |missing| + overflow + damaged, finished;
    }
  }
}
