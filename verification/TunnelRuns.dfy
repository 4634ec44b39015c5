/**
 Two tunnel endpoints over a network that loses, repeats, delays and reorders datagrams.

 The network is the set of all packets ever sent in one direction: a receiver may take any of them, at
 any time and any number of times, and never has to. An action that is not enabled changes nothing, so
 every sequence of moves is a run.
 */
module TunnelRuns {
  import opened Options
  import opened Bytes
  import opened Sets
  import opened Tunnel

  datatype Endpoint = Endpoint(s: Sender, r: Receiver)

  datatype World = World(a: Endpoint, b: Endpoint, ab: set<Packet>, ba: set<Packet>)

  const START := World(Endpoint(NEW_SENDER, NEW_RECEIVER), Endpoint(NEW_SENDER, NEW_RECEIVER), {}, {})

  datatype Action =
    | DoNumber(chunk: seq<byte>)
    | DoQueue
    | DoAbort
    | DoResend(num: nat)
    | DoReceive(p: Packet)
    | DoProcess
    | DoDeliver
    | DoDiscard
    | DoRead(size: nat)
    | DoClose

  /** What one critical section does to the sending half. */
  function ActSender(f: Flate, s: Sender, act: Action): Sender {
    match act
    case DoNumber(chunk) => if s.held.None? && 0 < |chunk| <= MAX_CHUNK then Number(s, chunk) else s
    case DoQueue => if MayQueue(s) then Queue(f, s) else s
    case DoAbort => if s.sendClosed then Abort(s) else s
    case DoReceive(p) => if p.Ack? then Acked(s, p.num) else s
    case DoClose => s.(sendClosed := true)
    case _ => s
  }

  /** What one critical section does to the receiving half. */
  function ActReceiver(f: Flate, r: Receiver, act: Action): Receiver {
    match act
    case DoReceive(p) => if p.Data? && p.body != [] then Take(r, p.num, p.body) else r
    case DoProcess => if r.phase.InHand? then Process(f, r) else r
    case DoDeliver => if r.phase.Delivering? && |r.ch| < RECV_CHAN_SIZE then Deliver(r) else r
    case DoDiscard => if r.phase.Delivering? && r.stopped then Discard(r) else r
    case DoRead(size) => ReadSome(r, size)
    case DoClose => r.(stopped := true)
    case _ => r
  }

  /** What it puts on the wire. */
  function ActEmits(f: Flate, s: Sender, act: Action): set<Packet> {
    match act
    case DoQueue => if MayQueue(s) then {HeldPacket(f, s)} else {}
    case DoResend(num) => if num in s.win then {s.win[num]} else {}
    case DoReceive(p) => if p.Data? then {Ack(p.num)} else {}
    case _ => {}
  }

  function HeldPacket(f: Flate, s: Sender): Packet
    requires s.held.Some?
  {
    Data(s.held.value.num, CompressData(f, s.held.value.chunk))
  }

  /** recvLoop reads what is left of a packet after the wire, and only between packets. */
  function Seen(e: Endpoint, act: Action, inbound: set<Packet>): Action {
    if act.DoReceive? then
      if act.p in inbound && e.r.phase.Idle? then DoReceive(Parse(Wire(act.p))) else DoReceive(Other)
    else act
  }

  function StepA(f: Flate, w: World, act: Action): World {
    var x := Seen(w.a, act, w.ba);
    w.(a := Endpoint(ActSender(f, w.a.s, x), ActReceiver(f, w.a.r, x)), ab := w.ab + ActEmits(f, w.a.s, x))
  }

  function Swap(w: World): World { World(w.b, w.a, w.ba, w.ab) }

  datatype Move = Move(byA: bool, act: Action)

  function Step(f: Flate, w: World, m: Move): World {
    if m.byA then StepA(f, w, m.act) else Swap(StepA(f, Swap(w), m.act))
  }

  function Run(f: Flate, ms: seq<Move>): World
    decreases |ms|
  {
    if ms == [] then START else Step(f, Run(f, ms[..|ms| - 1]), ms[|ms| - 1])
  }

  // ---------- the invariant for one direction: s sends, r receives, `out` carries data, `back` acks ----------

  /** The body decompresses to the chunk. */
  ghost predicate Carries(f: Flate, body: seq<byte>, chunk: seq<byte>) {
    DecompressData(f, body) == Some(chunk)
  }

  ghost predicate SenderOk(s: Sender) {
    && |s.sent| <= s.numbered == s.nextSeq
    && (s.held.Some? ==> 0 < |s.held.value.chunk| <= MAX_CHUNK)
    && (s.held.Some? && !s.sendClosed ==> s.held.value.num == |s.sent| == s.numbered - 1)
    && (s.held.None? && !s.sendClosed ==> |s.sent| == s.numbered)
    && |s.win| <= MAX_INFLIGHT
    && (forall n :: 0 <= n < |s.sent| ==> 0 < |s.sent[n]| <= MAX_CHUNK)
  }

  ghost predicate PacketOk(f: Flate, sent: seq<seq<byte>>, p: Packet) {
    Fits(p) && (p.Data? ==> p.num < |sent| && Carries(f, p.body, sent[p.num]))
  }

  ghost predicate WireOk(f: Flate, sent: seq<seq<byte>>, win: map<nat, Packet>, out: set<Packet>) {
    && (forall p :: p in out ==> PacketOk(f, sent, p))
    && (forall n :: n in win ==> win[n].Data? && win[n].num == n < |sent| && PacketOk(f, sent, win[n]))
  }

  ghost predicate ReceiverOk(f: Flate, sent: seq<seq<byte>>, phase: Phase, next: nat, buf: map<nat, seq<byte>>) {
    && next <= |sent| < U32
    && |buf| <= MAX_RECV_BUF
    && (phase.InHand? ==> phase.num < |sent| && Carries(f, phase.body, sent[phase.num]))
    && (phase.Delivering? ==> next < |sent| && phase.payload == sent[next])
    && (!phase.Delivering? ==> next !in buf)
    && (forall n :: n in buf ==> next < n < |sent| && buf[n] == sent[n])
  }

  /** What went onto the channel: chunks in increasing order, all of them until Close. */
  ghost predicate QueuedOk(sent: seq<seq<byte>>, queued: seq<nat>, chunks: seq<seq<byte>>, next: nat, stopped: bool) {
    && |chunks| == |queued|
    && (forall i :: 0 <= i < |queued| ==> queued[i] < next && queued[i] < |sent| && chunks[i] == sent[queued[i]])
    && (forall i, j :: 0 <= i < j < |queued| ==> queued[i] < queued[j])
    && (!stopped ==> |queued| == next && forall i :: 0 <= i < |queued| ==> queued[i] == i)
  }

  /** What went onto the channel has been read, is in the partial buffer, or is still there. */
  ghost predicate ReaderOk(read: seq<byte>, partial: seq<byte>, ch: seq<seq<byte>>, chunks: seq<seq<byte>>) {
    && read + partial + Concat(ch) == Concat(chunks)
    && |ch| <= RECV_CHAN_SIZE
    && (forall i :: 0 <= i < |ch| ==> |ch[i]| <= MAX_CHUNK)
  }

  /** The receiver has this chunk, or has had it. */
  predicate Got(phase: Phase, next: nat, buf: map<nat, seq<byte>>, n: nat) {
    n < next || n in buf || (phase.Delivering? && n == next) || (phase.InHand? && n == phase.num)
  }

  /** The receiver has this chunk, or has had it, or has thrown it away for want of room. */
  predicate Known(r: Receiver, n: nat) { Got(r.phase, r.next, r.buf, n) || n in r.dropped }

  ghost predicate Accounted(sent: seq<seq<byte>>, win: map<nat, Packet>, back: set<Packet>, r: Receiver) {
    && (forall p :: p in back && p.Ack? ==> Known(r, p.num))
    && (forall n :: 0 <= n < |sent| ==> n in win || Known(r, n))
  }

  ghost predicate Dir(f: Flate, s: Sender, r: Receiver, out: set<Packet>, back: set<Packet>) {
    && SenderOk(s)
    && WireOk(f, s.sent, s.win, out)
    && ReceiverOk(f, s.sent, r.phase, r.next, r.buf)
    && QueuedOk(s.sent, r.queued, r.chunks, r.next, r.stopped)
    && ReaderOk(r.read, r.partial, r.ch, r.chunks)
    && Accounted(s.sent, s.win, back, r)
  }

  // ---------- the sender's actions ----------

  lemma HeldPacketOk(f: Flate, s: Sender)
    requires Lossless(f) && SenderOk(s) && MayQueue(s) && s.numbered < U32
    ensures PacketOk(f, s.sent + [s.held.value.chunk], HeldPacket(f, s))
  {
    CompressionRoundTrip(f, s.held.value.chunk);
  }

  /** More chunks sent does no harm to what was known before. */
  lemma Grows(f: Flate, sent: seq<seq<byte>>, chunk: seq<byte>, r: Receiver)
    requires ReceiverOk(f, sent, r.phase, r.next, r.buf) && QueuedOk(sent, r.queued, r.chunks, r.next, r.stopped)
             && |sent| + 1 < U32
    ensures ReceiverOk(f, sent + [chunk], r.phase, r.next, r.buf)
            && QueuedOk(sent + [chunk], r.queued, r.chunks, r.next, r.stopped)
  {
  }

  lemma QueueKeepsWire(f: Flate, s: Sender, out: set<Packet>)
    requires Lossless(f) && SenderOk(s) && WireOk(f, s.sent, s.win, out) && MayQueue(s) && s.numbered < U32
    ensures var s' := Queue(f, s); WireOk(f, s'.sent, s'.win, out + {HeldPacket(f, s)})
  {
    HeldPacketOk(f, s);
    var s' := Queue(f, s);
    forall p | PacketOk(f, s.sent, p)
      ensures PacketOk(f, s'.sent, p)
    {
    }
  }

  lemma QueueKeeps(f: Flate, s: Sender, r: Receiver, out: set<Packet>, back: set<Packet>)
    requires Lossless(f) && Dir(f, s, r, out, back) && MayQueue(s) && s.numbered < U32
    ensures Dir(f, Queue(f, s), r, out + {HeldPacket(f, s)}, back)
  {
    QueueKeepsWire(f, s, out);
    QueueKeepsSender(f, s);
    Grows(f, s.sent, s.held.value.chunk, r);
    QueueKeepsAccount(f, s, back, r);
  }

  lemma QueueKeepsSender(f: Flate, s: Sender)
    requires SenderOk(s) && MayQueue(s) && s.numbered < U32
    ensures SenderOk(Queue(f, s))
  {
    assert |Queue(f, s).win| <= |s.win| + 1;
  }

  lemma QueueKeepsAccount(f: Flate, s: Sender, back: set<Packet>, r: Receiver)
    requires SenderOk(s) && MayQueue(s) && s.numbered < U32 && Accounted(s.sent, s.win, back, r)
    ensures var s' := Queue(f, s); Accounted(s'.sent, s'.win, back, r)
  {
  }

  lemma AckKeeps(f: Flate, s: Sender, r: Receiver, out: set<Packet>, back: set<Packet>, num: nat)
    requires Dir(f, s, r, out, back) && Known(r, num)
    ensures Dir(f, Acked(s, num), r, out, back)
  {
    AckKeepsSender(s, num);
    AckKeepsWire(f, s.sent, s.win, out, num);
    AckKeepsAccount(s.sent, s.win, back, r, num);
  }

  lemma AckKeepsSender(s: Sender, num: nat)
    requires SenderOk(s)
    ensures SenderOk(Acked(s, num))
  {
    Shrinks(s.win, num);
  }

  lemma AckKeepsWire(f: Flate, sent: seq<seq<byte>>, win: map<nat, Packet>, out: set<Packet>, num: nat)
    requires WireOk(f, sent, win, out)
    ensures WireOk(f, sent, win - {num}, out)
  {
  }

  lemma AckKeepsAccount(sent: seq<seq<byte>>, win: map<nat, Packet>, back: set<Packet>, r: Receiver, num: nat)
    requires Accounted(sent, win, back, r) && Known(r, num)
    ensures Accounted(sent, win - {num}, back, r)
  {
  }

  lemma EmitKeeps(f: Flate, s: Sender, out: set<Packet>, p: Packet)
    requires WireOk(f, s.sent, s.win, out) && PacketOk(f, s.sent, p)
    ensures WireOk(f, s.sent, s.win, out + {p})
  {
  }

  /** Numbering, giving up a chunk and closing change nothing that has been sent. */
  lemma QuietKeeps(f: Flate, s: Sender, x: Action, r: Receiver, out: set<Packet>, back: set<Packet>)
    requires Dir(f, s, r, out, back) && ActSender(f, s, x).numbered < U32
    requires x.DoNumber? || x.DoAbort? || x.DoClose?
    ensures Dir(f, ActSender(f, s, x), r, out, back)
  {
    assert SenderOk(ActSender(f, s, x));
  }

  /** An endpoint's action, seen from the direction it sends in. */
  lemma SenderKeeps(f: Flate, s: Sender, x: Action, r: Receiver, out: set<Packet>, back: set<Packet>)
    requires Lossless(f) && Dir(f, s, r, out, back) && ActSender(f, s, x).numbered < U32
    requires x.DoReceive? ==> Fits(x.p) && (x.p.Ack? ==> Known(r, x.p.num))
    ensures Dir(f, ActSender(f, s, x), r, out + ActEmits(f, s, x), back)
  {
    assert out + {} == out;
    if x.DoNumber? || x.DoAbort? || x.DoClose? {
      QuietKeeps(f, s, x, r, out, back);
    } else if x.DoQueue? && MayQueue(s) {
      QueueKeeps(f, s, r, out, back);
    } else if x.DoResend? && x.num in s.win {
      EmitKeeps(f, s, out, s.win[x.num]);
    } else if x.DoReceive? && x.p.Data? {
      EmitKeeps(f, s, out, Ack(x.p.num));
    } else if x.DoReceive? && x.p.Ack? {
      AckKeeps(f, s, r, out, back, x.p.num);
    }
  }

  // ---------- the receiver's actions ----------

  lemma TakeKeeps(f: Flate, s: Sender, r: Receiver, out: set<Packet>, back: set<Packet>, p: Packet)
    requires Dir(f, s, r, out, back) && p in out && p.Data? && r.phase.Idle?
    ensures Dir(f, s, Take(r, p.num, p.body), out, back + {Ack(p.num)})
  {
    var r' := Take(r, p.num, p.body);
    assert PacketOk(f, s.sent, p);
    assert forall n :: Got(r.phase, r.next, r.buf, n) ==> Got(r'.phase, r'.next, r'.buf, n);
  }

  lemma ProcessKeepsReceiver(f: Flate, sent: seq<seq<byte>>, r: Receiver)
    requires ReceiverOk(f, sent, r.phase, r.next, r.buf) && r.phase.InHand?
    ensures var r' := Process(f, r);
            && ReceiverOk(f, sent, r'.phase, r'.next, r'.buf)
            && forall n :: Known(r, n) ==> Known(r', n)
  {
  }

  lemma ProcessKeeps(f: Flate, s: Sender, r: Receiver, out: set<Packet>, back: set<Packet>)
    requires Dir(f, s, r, out, back) && r.phase.InHand?
    ensures Dir(f, s, Process(f, r), out, back)
  {
    ProcessKeepsReceiver(f, s.sent, r);
    ProcessKeepsRest(f, r);
    AccountMoves(s.sent, s.win, back, r, Process(f, r));
  }

  lemma ProcessKeepsRest(f: Flate, r: Receiver)
    requires r.phase.InHand?
    ensures var r' := Process(f, r);
            && (r'.queued, r'.chunks, r'.next, r'.stopped) == (r.queued, r.chunks, r.next, r.stopped)
            && (r'.read, r'.partial, r'.ch) == (r.read, r.partial, r.ch)
  {
  }

  /** What the receiver has stays accounted for as long as it loses none of it. */
  lemma AccountMoves(sent: seq<seq<byte>>, win: map<nat, Packet>, back: set<Packet>, r: Receiver, r': Receiver)
    requires Accounted(sent, win, back, r) && forall n :: Known(r, n) ==> Known(r', n)
    ensures Accounted(sent, win, back, r')
  {
  }

  lemma AdvanceShrinks(r: Receiver)
    ensures |Advance(r).buf| <= |r.buf|
  {
    SubsetSize(Advance(r).buf.Keys, r.buf.Keys);
  }

  lemma AdvanceGot(r: Receiver)
    requires r.phase.Delivering? && r.next < U32 - 1
    requires forall n :: n in r.buf ==> r.next < n
    ensures var r' := Advance(r); forall n :: Known(r, n) ==> Known(r', n)
  {
  }

  lemma AdvanceKeeps(f: Flate, sent: seq<seq<byte>>, r: Receiver)
    requires ReceiverOk(f, sent, r.phase, r.next, r.buf) && r.phase.Delivering?
    ensures var r' := Advance(r);
            && ReceiverOk(f, sent, r'.phase, r'.next, r'.buf) && r'.next == r.next + 1
  {
    AdvanceShrinks(r);
  }

  lemma DiscardKeeps(f: Flate, s: Sender, r: Receiver, out: set<Packet>, back: set<Packet>)
    requires Dir(f, s, r, out, back) && r.phase.Delivering? && r.stopped
    ensures Dir(f, s, Discard(r), out, back)
  {
    AdvanceKeeps(f, s.sent, r);
    AdvanceGot(r);
  }

  lemma EnqueueKeepsQueued(sent: seq<seq<byte>>, r: Receiver)
    requires QueuedOk(sent, r.queued, r.chunks, r.next, r.stopped) && r.phase.Delivering? && r.next < |sent|
             && r.phase.payload == sent[r.next]
    ensures QueuedOk(sent, r.queued + [r.next], r.chunks + [r.phase.payload], r.next + 1, r.stopped)
  {
  }

  lemma EnqueueKeepsReader(r: Receiver)
    requires ReaderOk(r.read, r.partial, r.ch, r.chunks) && r.phase.Delivering? && |r.ch| < RECV_CHAN_SIZE
             && |r.phase.payload| <= MAX_CHUNK
    ensures ReaderOk(r.read, r.partial, r.ch + [r.phase.payload], r.chunks + [r.phase.payload])
  {
    var p := r.phase.payload;
    ConcatSplit(r.ch, [p]);
    ConcatSplit(r.chunks, [p]);
    ConcatOne(p);
    assert r.read + r.partial + (Concat(r.ch) + p) == (r.read + r.partial + Concat(r.ch)) + p;
  }

  lemma DeliverKeeps(f: Flate, s: Sender, r: Receiver, out: set<Packet>, back: set<Packet>)
    requires Dir(f, s, r, out, back) && r.phase.Delivering? && |r.ch| < RECV_CHAN_SIZE
    ensures Dir(f, s, Deliver(r), out, back)
  {
    EnqueueKeepsReader(r);
    EnqueueKeepsQueued(s.sent, r);
    AdvanceKeeps(f, s.sent, Enqueue(r));
    AdvanceGot(Enqueue(r));
  }

  lemma ReadPartialKeeps(r: Receiver, size: nat)
    requires ReaderOk(r.read, r.partial, r.ch, r.chunks) && r.partial != []
    ensures var r' := ReadSome(r, size); ReaderOk(r'.read, r'.partial, r'.ch, r'.chunks)
  {
    var out := ReadBytes(r, size);
    Cut(r.partial, |out|);
    Assoc(r.read, out, r.partial[|out|..]);
  }

  lemma ConcatHead(xs: seq<seq<byte>>)
    requires xs != []
    ensures Concat(xs) == xs[0] + Concat(xs[1..])
  {
    assert xs == [xs[0]] + xs[1..];
    ConcatSplit([xs[0]], xs[1..]);
    ConcatOne(xs[0]);
  }

  lemma ReadChannelKeeps(r: Receiver, size: nat)
    requires ReaderOk(r.read, r.partial, r.ch, r.chunks) && r.partial == [] && r.ch != []
    ensures var r' := ReadSome(r, size); ReaderOk(r'.read, r'.partial, r'.ch, r'.chunks)
  {
    var out := ReadBytes(r, size);
    var rest := r.ch[0][|out|..];
    ConcatHead(r.ch);
    Cut(r.ch[0], |out|);
    assert rest[..Min(|rest|, PARTIAL_SIZE)] == rest;
    assert r.read + [] == r.read;
    Regroup(r.read, out, rest, Concat(r.ch[1..]));
  }

  lemma Regroup(a: seq<byte>, b: seq<byte>, c: seq<byte>, d: seq<byte>)
    ensures a + ((b + c) + d) == (a + b) + c + d
  {
  }

  lemma ReadKeeps(f: Flate, s: Sender, r: Receiver, out: set<Packet>, back: set<Packet>, size: nat)
    requires Dir(f, s, r, out, back)
    ensures Dir(f, s, ReadSome(r, size), out, back)
  {
    if r.partial != [] {
      ReadPartialKeeps(r, size);
    } else if r.ch != [] {
      ReadChannelKeeps(r, size);
    }
  }

  /** Packets other than ACKs on the way back say nothing about delivery. */
  lemma BackKeeps(f: Flate, s: Sender, r: Receiver, out: set<Packet>, back: set<Packet>, more: set<Packet>)
    requires Dir(f, s, r, out, back) && forall p :: p in more ==> !p.Ack?
    ensures Dir(f, s, r, out, back + more)
  {
  }

  /** An endpoint's action, seen from the direction it receives in; e is its sending half. */
  lemma ReceiverKeeps(f: Flate, e: Sender, x: Action, s: Sender, r: Receiver, out: set<Packet>, back: set<Packet>)
    requires Dir(f, s, r, out, back)
    requires x.DoReceive? ==> x.p.Other? || (x.p in out && r.phase.Idle?)
    requires forall n :: n in e.win ==> !e.win[n].Ack?
    ensures Dir(f, s, ActReceiver(f, r, x), out, back + ActEmits(f, e, x))
  {
    if x.DoReceive? && x.p.Data? {
      assert PacketOk(f, s.sent, x.p);
      TakeKeeps(f, s, r, out, back, x.p);
    } else {
      OutsideKeeps(f, e, x, s, r, out, back, ActEmits(f, e, x));
    }
  }

  /** Actions by which nothing is taken off the wire. */
  lemma OutsideKeeps(f: Flate, e: Sender, x: Action, s: Sender, r: Receiver, out: set<Packet>, back: set<Packet>,
                     more: set<Packet>)
    requires Dir(f, s, r, out, back) && !(x.DoReceive? && x.p.Data?) && more == ActEmits(f, e, x)
    requires forall n :: n in e.win ==> !e.win[n].Ack?
    ensures Dir(f, s, ActReceiver(f, r, x), out, back + more)
  {
    InsideKeeps(f, x, s, r, out, back);
    BackKeeps(f, s, ActReceiver(f, r, x), out, back, more);
  }

  lemma InsideKeeps(f: Flate, x: Action, s: Sender, r: Receiver, out: set<Packet>, back: set<Packet>)
    requires Dir(f, s, r, out, back) && !(x.DoReceive? && x.p.Data?)
    ensures Dir(f, s, ActReceiver(f, r, x), out, back)
  {
    match x {
      case DoProcess =>
        if r.phase.InHand? {
          ProcessKeeps(f, s, r, out, back);
        }
      case DoDeliver =>
        if r.phase.Delivering? && |r.ch| < RECV_CHAN_SIZE {
          DeliverKeeps(f, s, r, out, back);
        }
      case DoDiscard =>
        if r.phase.Delivering? && r.stopped {
          DiscardKeeps(f, s, r, out, back);
        }
      case DoRead(size) => ReadKeeps(f, s, r, out, back, size);
      case _ =>
    }
  }

  // ---------- whole runs ----------

  ghost predicate Inv(f: Flate, w: World) {
    Dir(f, w.a.s, w.b.r, w.ab, w.ba) && Dir(f, w.b.s, w.a.r, w.ba, w.ab)
  }

  /** Fewer than 2^32 packets each way. */
  predicate Small(w: World) { w.a.s.numbered < U32 && w.b.s.numbered < U32 }

  lemma SeenIs(f: Flate, w: World, act: Action)
    requires Inv(f, w)
    ensures var x := Seen(w.a, act, w.ba);
            && (act.DoReceive? && act.p in w.ba && w.a.r.phase.Idle? ==> x == act)
            && (x.DoReceive? ==> Fits(x.p) && (x.p.Other? || (x.p in w.ba && w.a.r.phase.Idle?)))
            && (x.DoReceive? && x.p.Ack? ==> Known(w.b.r, x.p.num))
  {
    if act.DoReceive? && act.p in w.ba {
      assert PacketOk(f, w.b.s.sent, act.p);
      WireRoundTrip(act.p);
    }
  }

  lemma StepAKeeps(f: Flate, w: World, act: Action)
    requires Lossless(f) && Inv(f, w) && Small(StepA(f, w, act))
    ensures Inv(f, StepA(f, w, act))
  {
    SeenIs(f, w, act);
    var x := Seen(w.a, act, w.ba);
    SenderKeeps(f, w.a.s, x, w.b.r, w.ab, w.ba);
    ReceiverKeeps(f, w.a.s, x, w.b.s, w.a.r, w.ba, w.ab);
  }

  lemma {:induction false} RunKeeps(f: Flate, ms: seq<Move>)
    requires Lossless(f) && Small(Run(f, ms))
    ensures Inv(f, Run(f, ms))
    decreases |ms|
  {
    if ms != [] {
      var w, m := Run(f, ms[..|ms| - 1]), ms[|ms| - 1];
      SmallStep(f, w, m);
      RunKeeps(f, ms[..|ms| - 1]);
      StepKeeps(f, w, m);
    }
  }

  lemma SmallStep(f: Flate, w: World, m: Move)
    ensures Small(Step(f, w, m)) ==> Small(w)
  {
  }

  lemma StepKeeps(f: Flate, w: World, m: Move)
    ensures Lossless(f) && Inv(f, w) && Small(Step(f, w, m)) ==> Inv(f, Step(f, w, m))
  {
    if Lossless(f) && Inv(f, w) && Small(Step(f, w, m)) {
      StepAKeeps(f, if m.byA then w else Swap(w), m.act);
    }
  }

  lemma ConcatPrefix(xs: seq<seq<byte>>, k: nat)
    requires k <= |xs|
    ensures Concat(xs[..k]) <= Concat(xs)
  {
    assert xs == xs[..k] + xs[k..];
    ConcatSplit(xs[..k], xs[k..]);
  }

  lemma ReadIsPrefix(sent: seq<seq<byte>>, r: Receiver)
    requires QueuedOk(sent, r.queued, r.chunks, r.next, r.stopped) && ReaderOk(r.read, r.partial, r.ch, r.chunks)
    ensures r.read <= Concat(r.chunks) && (!r.stopped ==> r.read <= Concat(sent))
  {
    assert r.read == Concat(r.chunks)[..|r.read|];
    if !r.stopped {
      assert r.chunks == sent[..|r.chunks|];
      ConcatPrefix(sent, |r.chunks|);
    }
  }

  /** Safety. Whatever the network does and however large the read buffers are, what B has read is, until B
      closes, a prefix of the bytes A's Write accepted; after that it still is a prefix of some of A's
      chunks, taken in order and without repeats. */
  lemma Safety(f: Flate, ms: seq<Move>)
    requires Lossless(f) && Small(Run(f, ms))
    ensures var s, r := Run(f, ms).a.s, Run(f, ms).b.r;
            && (!r.stopped ==> r.read <= Concat(s.sent))
            && r.read <= Concat(r.chunks)
            && |r.chunks| == |r.queued|
            && (forall i :: 0 <= i < |r.queued| ==> r.queued[i] < |s.sent| && r.chunks[i] == s.sent[r.queued[i]])
            && (forall i, j :: 0 <= i < j < |r.queued| ==> r.queued[i] < r.queued[j])
  {
    RunKeeps(f, ms);
    ReadIsPrefix(Run(f, ms).a.s.sent, Run(f, ms).b.r);
  }

  /** In every run the window, both receive queues and every datagram stay within their limits. */
  lemma Bounds(f: Flate, ms: seq<Move>)
    requires Lossless(f) && Small(Run(f, ms))
    ensures var w := Run(f, ms);
            && |w.a.s.win| <= MAX_INFLIGHT && |w.a.r.buf| <= MAX_RECV_BUF && |w.a.r.ch| <= RECV_CHAN_SIZE
            && forall p :: p in w.ab ==> |Wire(p)| <= MAX_PACKET
  {
    RunKeeps(f, ms);
    var w := Run(f, ms);
    forall p | p in w.ab
      ensures |Wire(p)| <= MAX_PACKET
    {
      assert PacketOk(f, w.a.s.sent, p);
      WireRoundTrip(p);
    }
  }

  /** No loss. As long as B has not closed and never dropped a packet for want of buffer space, every chunk
      is still in A's window or has reached B; so once the window is empty and recvLoop is between packets, B
      has everything, and the two counters agree unless a Write is between numbering and queueing. */
  lemma NoLoss(f: Flate, ms: seq<Move>)
    requires Lossless(f) && Small(Run(f, ms))
    requires !Run(f, ms).b.r.stopped && Run(f, ms).b.r.dropped == {}
    ensures var s, r := Run(f, ms).a.s, Run(f, ms).b.r;
            && (forall n :: 0 <= n < |s.sent| ==> n in s.win || Got(r.phase, r.next, r.buf, n))
            && (s.win == map[] && r.phase.Idle? ==>
                  && r.next == |s.sent|
                  && (s.held.None? && !s.sendClosed ==> r.next == s.nextSeq)
                  && r.read + r.partial + Concat(r.ch) == Concat(s.sent))
  {
    RunKeeps(f, ms);
    var w := Run(f, ms);
    if w.a.s.win == map[] && w.b.r.phase.Idle? {
      AllArrived(f, w.a.s, w.b.r, w.ab, w.ba);
    }
  }

  lemma AllArrived(f: Flate, s: Sender, r: Receiver, out: set<Packet>, back: set<Packet>)
    requires Dir(f, s, r, out, back) && !r.stopped && r.dropped == {} && s.win == map[] && r.phase.Idle?
    ensures r.next == |s.sent| && (s.held.None? && !s.sendClosed ==> r.next == s.nextSeq)
    ensures r.read + r.partial + Concat(r.ch) == Concat(s.sent)
  {
    assert r.next < |s.sent| ==> Known(r, r.next);
    assert r.chunks == s.sent;
  }

  /** In every run, full buffers or not: a chunk that has left the window has reached B or met a full buffer there. */
  lemma EveryChunkAccounted(f: Flate, ms: seq<Move>)
    requires Lossless(f) && Small(Run(f, ms))
    ensures var s, r := Run(f, ms).a.s, Run(f, ms).b.r;
            forall n :: 0 <= n < |s.sent| ==> n in s.win || Got(r.phase, r.next, r.buf, n) || n in r.dropped
  {
    RunKeeps(f, ms);
  }
}
