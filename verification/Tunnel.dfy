/**
 The reliable UDP tunnel of internal/p2p/tunnel.go, one endpoint at a time.

 An endpoint has a sending half and a receiving half. Each function below is one critical section of
 the source (a stretch of code under sendWinMu, recvMu or one channel operation), so that the steps of
 Write, Read, recvLoop, retransmitLoop and Close may interleave in any order. `sent`, `queued` and
 `read` are histories that the code does not keep.
 */
module Tunnel {
  import opened Options
  import opened Bytes
  import opened Sets

  const MAX_PACKET := 1400
  const MAX_CHUNK := MAX_PACKET - 6
  const RECV_CHAN_SIZE := 1024
  const MAX_RECV_BUF := 1024
  const MAX_INFLIGHT := 256
  const COMPRESS_THRESHOLD := 128
  const PARTIAL_SIZE := 65536

  // ---------- payload compression ----------

  /** compress/flate, seen as a pair of functions. */
  datatype Flate = Flate(deflate: seq<byte> -> seq<byte>, inflate: seq<byte> -> Option<seq<byte>>)

  ghost predicate Lossless(f: Flate) {
    forall x :: f.inflate(f.deflate(x)) == Some(x)
  }

  function CompressData(f: Flate, data: seq<byte>): (out: seq<byte>)
    ensures 1 <= |out| <= 1 + |data|
    ensures |data| >= COMPRESS_THRESHOLD ==> |out| == 1 + Min(|data|, |f.deflate(data)|)
    ensures |data| < COMPRESS_THRESHOLD ==> |out| == 1 + |data|
  {
    if |data| < COMPRESS_THRESHOLD || 1 + |f.deflate(data)| >= 1 + |data| then [0] + data
    else [1] + f.deflate(data)
  }

  function DecompressData(f: Flate, data: seq<byte>): Option<seq<byte>> {
    if data == [] then None
    else if data[0] == 0 then Some(data[1..])
    else if data[0] == 1 then f.inflate(data[1..])
    else Some(data)
  }

  lemma CompressionRoundTrip(f: Flate, data: seq<byte>)
    requires Lossless(f)
    ensures DecompressData(f, CompressData(f, data)) == Some(data)
  {
    var z := CompressData(f, data);
    assert z[1..] == data || z[1..] == f.deflate(data);
  }

  // ---------- packets ----------

  datatype Packet = Data(num: nat, body: seq<byte>) | Ack(num: nat) | Other

  /** The datagram: a type byte, the sequence number and the payload. */
  function Wire(p: Packet): seq<byte> {
    match p
    case Data(num, body) => [1] + PutBE(num, 4) + body
    case Ack(num) => [2] + PutBE(num, 4)
    case Other => [3] + PutBE(0, 4)
  }

  /** On the wire: the type, the number with its most significant byte first, the payload. */
  lemma WireBytes(a: byte, b: byte, c: byte, d: byte, body: seq<byte>, num: nat)
    requires num == ((a * 256 + b) * 256 + c) * 256 + d
    ensures Wire(Data(num, body)) == [1, a, b, c, d] + body && Wire(Ack(num)) == [2, a, b, c, d]
  {
    NumberBytes(a, b, c, d, num);
  }

  lemma NumberBytes(a: byte, b: byte, c: byte, d: byte, num: nat)
    requires num == ((a * 256 + b) * 256 + c) * 256 + d
    ensures PutBE(num, 4) == [a, b, c, d]
  {
    BigEndian(a, b, c, d);
  }

  /** What recvLoop makes of a datagram: its buffer clips it at MAX_PACKET bytes. */
  function Parse(datagram: seq<byte>): Packet {
    var p := if |datagram| > MAX_PACKET then datagram[..MAX_PACKET] else datagram;
    if |p| < 5 then Other
    else if p[0] == 1 then Data(GetBE(p[1..5]), p[5..])
    else if p[0] == 2 then Ack(GetBE(p[1..5]))
    else Other
  }

  /** A packet that survives the wire. */
  predicate Fits(p: Packet) {
    match p
    case Data(num, body) => num < U32 && 0 < |body| <= MAX_PACKET - 5
    case Ack(num) => num < U32
    case Other => true
  }

  /** Packets within the limits fit the receive buffer and come out as they went in. */
  lemma WireRoundTrip(p: Packet)
    requires Fits(p)
    ensures |Wire(p)| <= MAX_PACKET && Parse(Wire(p)) == p
  {
    var w := Wire(p);
    if !p.Other? {
      Widths();
      GetPut(p.num, 4);
      assert w[1..5] == PutBE(p.num, 4);
      assert p.Data? ==> w[5..] == p.body;
    }
  }

  // ---------- the sending half ----------

  /** A chunk that Write has numbered but not yet put into the window. */
  datatype Held = Held(num: nat, chunk: seq<byte>)

  /** `numbered` counts the numbers handed out so far; `sent` lists the chunks that entered the window. */
  datatype Sender = Sender(
    nextSeq: nat,
    numbered: nat,
    held: Option<Held>,
    win: map<nat, Packet>,
    sendClosed: bool,
    sent: seq<seq<byte>>)

  const NEW_SENDER := Sender(0, 0, None, map[], false, [])

  function Number(s: Sender, chunk: seq<byte>): Sender {
    s.(nextSeq := Succ32(s.nextSeq), numbered := s.numbered + 1, held := Some(Held(s.nextSeq, chunk)))
  }

  /** The flow-control wait of Write is over and its window is open. */
  predicate MayQueue(s: Sender) {
    s.held.Some? && |s.win| < MAX_INFLIGHT && !s.sendClosed
  }

  function Queue(f: Flate, s: Sender): Sender
    requires s.held.Some?
  {
    var h := s.held.value;
    s.(held := None,
       win := s.win[h.num := Data(h.num, CompressData(f, h.chunk))],
       sent := s.sent + [h.chunk])
  }

  function Abort(s: Sender): Sender { s.(held := None) }

  function Acked(s: Sender, num: nat): Sender { s.(win := s.win - {num}) }

  // ---------- the receiving half ----------

  datatype Phase = Idle | InHand(num: nat, body: seq<byte>) | Delivering(payload: seq<byte>)

  /** `queued` lists the sequence numbers put on the channel, `chunks` their payloads, `read` the bytes Read
      has returned, and `dropped` the numbers of acknowledged packets thrown away because recvBuf was full. */
  datatype Receiver = Receiver(
    phase: Phase,
    next: nat,
    buf: map<nat, seq<byte>>,
    ch: seq<seq<byte>>,
    partial: seq<byte>,
    stopped: bool,
    queued: seq<nat>,
    chunks: seq<seq<byte>>,
    read: seq<byte>,
    dropped: set<nat>)

  const NEW_RECEIVER := Receiver(Idle, 0, map[], [], [], false, [], [], [], {})

  /** A data packet came in and its ACK went out; the payload is still in recvLoop's hands. */
  function Take(r: Receiver, num: nat, body: seq<byte>): Receiver {
    r.(phase := InHand(num, body))
  }

  /** The recvMu section for the packet in hand, up to the first delivery. */
  function Process(f: Flate, r: Receiver): Receiver
    requires r.phase.InHand?
  {
    var num := r.phase.num;
    match DecompressData(f, r.phase.body)
    case None => r.(phase := Idle)
    case Some(payload) =>
      if num == r.next then r.(phase := Delivering(payload))
      else if num > r.next && num !in r.buf then
        if |r.buf| < MAX_RECV_BUF then r.(phase := Idle, buf := r.buf[num := payload])
        else r.(phase := Idle, dropped := r.dropped + {num})
      else r.(phase := Idle)
  }

  /** After one delivery: move on to the buffered successor, if there is one. */
  function Advance(r: Receiver): Receiver {
    var n := Succ32(r.next);
    if n in r.buf then r.(next := n, phase := Delivering(r.buf[n]), buf := r.buf - {n})
    else r.(next := n, phase := Idle)
  }

  function Enqueue(r: Receiver): Receiver
    requires r.phase.Delivering?
  {
    r.(ch := r.ch + [r.phase.payload], queued := r.queued + [r.next], chunks := r.chunks + [r.phase.payload])
  }

  /** deliverToChannel took the channel branch. */
  function Deliver(r: Receiver): Receiver
    requires r.phase.Delivering?
  {
    Advance(Enqueue(r))
  }

  /** deliverToChannel took the stopCh branch: the payload is gone and the counter moves on. */
  function Discard(r: Receiver): Receiver { Advance(r) }

  function Min(x: nat, y: nat): nat { if x < y then x else y }

  /** What a Read call draws on: the rest of the last chunk, or else the next chunk of the channel. */
  function Available(r: Receiver): seq<byte> {
    if r.partial != [] then r.partial else if r.ch != [] then r.ch[0] else []
  }

  /** One Read call with a buffer of `size` bytes that returns data. */
  function ReadBytes(r: Receiver, size: nat): (out: seq<byte>)
    ensures |out| == Min(size, |Available(r)|) && out <= Available(r)
  {
    if r.partial != [] then r.partial[..Min(size, |r.partial|)]
    else if r.ch != [] then r.ch[0][..Min(size, |r.ch[0]|)]
    else []
  }

  function ReadSome(r: Receiver, size: nat): Receiver {
    var out := ReadBytes(r, size);
    if r.partial != [] then r.(partial := r.partial[|out|..], read := r.read + out)
    else if r.ch != [] then
      var rest := r.ch[0][|out|..];
      r.(ch := r.ch[1..], partial := rest[..Min(|rest|, PARTIAL_SIZE)], read := r.read + out)
    else r
  }

  // ---------- the endpoint as the source has it ----------

  datatype WriteStatus = Done | Eof | SendFailed | Waiting

  /** The chunks Write cuts b into. */
  function Chunks(b: seq<byte>): seq<seq<byte>> {
    if b == [] then [] else [b[..Min(|b|, MAX_CHUNK)]] + Chunks(b[Min(|b|, MAX_CHUNK)..])
  }

  lemma {:induction false} ChunksConcat(b: seq<byte>)
    ensures Concat(Chunks(b)) == b
    ensures forall c :: c in Chunks(b) ==> 0 < |c| <= MAX_CHUNK
  {
    if b != [] {
      var n := Min(|b|, MAX_CHUNK);
      ChunksConcat(b[n..]);
      ConcatSplit([b[..n]], Chunks(b[n..]));
      ConcatOne(b[..n]);
    }
  }

  class UDPTunnel {
    const flate: Flate
    // sending half
    var nextSendSeq: nat
    var sendWin: map<nat, Packet>
    var sendClosed: bool
    var held: Option<Held>
    ghost var numbered: nat
    ghost var sent: seq<seq<byte>>
    // receiving half
    var phase: Phase
    var nextRecvSeq: nat
    var recvBuf: map<nat, seq<byte>>
    var recvCh: seq<seq<byte>>
    var partial: seq<byte>
    var closed: bool
    ghost var queued: seq<nat>
    ghost var chunks: seq<seq<byte>>
    ghost var read: seq<byte>
    ghost var dropped: set<nat>
    // packets handed to the socket, oldest first
    var outbox: seq<Packet>

    ghost function SendState(): Sender
      reads this
    {
      Sender(nextSendSeq, numbered, held, sendWin, sendClosed, sent)
    }

    ghost function RecvState(): Receiver
      reads this
    {
      Receiver(phase, nextRecvSeq, recvBuf, recvCh, partial, closed, queued, chunks, read, dropped)
    }

    constructor (flate: Flate)
      ensures this.flate == flate && outbox == []
      ensures SendState() == NEW_SENDER && RecvState() == NEW_RECEIVER
    {
      this.flate := flate;
      nextSendSeq, sendWin, sendClosed, held, numbered, sent := 0, map[], false, None, 0, [];
      phase, nextRecvSeq, recvBuf, recvCh, partial, closed := Idle, 0, map[], [], [], false;
      queued, chunks, read, dropped, outbox := [], [], [], {}, [];
    }

    method NumberChunk(chunk: seq<byte>)
      modifies this`nextSendSeq, this`held, this`numbered
      ensures SendState() == Number(old(SendState()), chunk)
    {
      held := Some(Held(nextSendSeq, chunk));
      nextSendSeq := Succ32(nextSendSeq);
      numbered := numbered + 1;
    }

    method QueueChunk()
      requires held.Some?
      modifies this`held, this`sendWin, this`sent, this`outbox
      ensures SendState() == Queue(flate, old(SendState()))
      ensures outbox == old(outbox) + [Data(old(held).value.num, CompressData(flate, old(held).value.chunk))]
    {
      var h := held.value;
      var pkt := Data(h.num, CompressData(flate, h.chunk));
      sendWin := sendWin[h.num := pkt];
      outbox := outbox + [pkt];
      sent := sent + [h.chunk];
      held := None;
    }

    method OnAck(num: nat)
      modifies this`sendWin
      ensures SendState() == Acked(old(SendState()), num)
    {
      sendWin := sendWin - {num};
    }

    /** The flow-control wait of Write: recvLoop handles `acks` from position j on meanwhile. */
    method AwaitRoom(acks: seq<nat>, j: nat) returns (k: nat)
      requires j <= |acks|
      modifies this`sendWin
      ensures j <= k <= |acks|
      ensures |sendWin| < MAX_INFLIGHT || sendClosed || k == |acks|
      ensures sendWin.Keys <= old(sendWin.Keys) && |sendWin| <= old(|sendWin|)
              && StillOut(old(sendWin.Keys), sendWin, acks)
    {
      k := j;
      while |sendWin| >= MAX_INFLIGHT && !sendClosed && k < |acks|
        invariant j <= k <= |acks|
        invariant sendWin.Keys <= old(sendWin.Keys) && |sendWin| <= old(|sendWin|)
                  && StillOut(old(sendWin.Keys), sendWin, acks)
        decreases |acks| - k
      {
        Shrinks(sendWin, acks[k]);
        OnAck(acks[k]);
        k := k + 1;
      }
    }

    /** One round of Write's loop: number the chunk, wait for room, put the packet into the window. */
    method SendChunk(chunk: seq<byte>, acks: seq<nat>, j: nat) returns (k: nat, status: WriteStatus)
      requires held.None? && j <= |acks|
      modifies this`nextSendSeq, this`held, this`numbered, this`sendWin, this`sent, this`outbox
      ensures k <= |acks| && (held.Some? <==> status == Waiting)
      ensures status == Done || (status == Eof && sendClosed)
              || (status == Waiting && !sendClosed && |sendWin| >= MAX_INFLIGHT && k == |acks|)
      ensures status == Done ==>
                && sent == old(sent) + [chunk]
                && outbox == old(outbox) + [Data(old(nextSendSeq), CompressData(flate, chunk))]
                && StillOut(old(sendWin.Keys) + {old(nextSendSeq)}, sendWin, acks)
      ensures status != Done ==>
                && sent == old(sent) && outbox == old(outbox)
                && StillOut(old(sendWin.Keys), sendWin, acks)
      ensures nextSendSeq == Succ32(old(nextSendSeq))
      ensures |sendWin| <= if old(|sendWin|) > MAX_INFLIGHT then old(|sendWin|) else MAX_INFLIGHT
    {
      NumberChunk(chunk);
      k := AwaitRoom(acks, j);
      if sendClosed {
        held := None;
        status := Eof;
      } else if |sendWin| >= MAX_INFLIGHT {
        status := Waiting;
      } else {
        QueueChunk();
        status := Done;
      }
    }

    /** One round, in terms of what Write has done since it started. */
    method SendNext(b: seq<byte>, n: nat, end: nat, acks: seq<nat>, j: nat, ghost start: Mark,
                    ghost all: seq<seq<byte>>)
      returns (k: nat, status: WriteStatus)
      requires held.None? && j <= |acks| && n < |b| && end == n + Min(|b| - n, MAX_CHUNK)
      requires Round(flate, start, all, b, n, sent, outbox, sendWin, acks, nextSendSeq)
      modifies this`nextSendSeq, this`held, this`numbered, this`sendWin, this`sent, this`outbox
      ensures k <= |acks| && (held.Some? <==> status == Waiting)
      ensures status == Done || (status == Eof && sendClosed)
              || (status == Waiting && !sendClosed && |sendWin| >= MAX_INFLIGHT)
      ensures status == Done ==>
                && sent == old(sent) + [b[n..end]]
                && Round(flate, start, all, b, end, sent, outbox, sendWin, acks, nextSendSeq)
      ensures status != Done ==>
                && sent == old(sent)
                && Round(flate, start, all, b, n, sent, outbox, sendWin, acks, old(nextSendSeq))
    {
      k, status := SendChunk(b[n..end], acks, j);
      if status == Done {
        RoundStep(flate, start, all, b, n, end, old(sent), old(outbox), old(sendWin), acks, old(nextSendSeq), sendWin);
      } else {
        RoundWaits(flate, start, all, b, n, sent, outbox, old(sendWin), acks, old(nextSendSeq), sendWin);
      }
    }

    /** Write's loop. */
    method SendAll(b: seq<byte>, acks: seq<nat>, fails: nat -> bool, ghost start: Mark, ghost all: seq<seq<byte>>)
      returns (n: nat, status: WriteStatus)
      requires held.None? && |sent| == |start.sent|
      requires Round(flate, start, all, b, 0, sent, outbox, sendWin, acks, nextSendSeq)
      modifies this`nextSendSeq, this`held, this`numbered, this`sendWin, this`sent, this`outbox
      ensures n <= |b| && (held.Some? <==> status == Waiting)
      ensures Returns(b, n, status, sent, sendClosed, |sendWin|)
      ensures status == SendFailed <==> !NoneFails(fails, |sent| - |start.sent|)
      ensures Remaining(sent, b, Accepted(b, n, status), all) && Wrote(flate, start, sent, outbox, sendWin, acks)
    {
      n, status := 0, Done;
      var i: nat, j: nat := 0, 0;
      while n < |b|
        invariant held.None? && j <= |acks| && n <= |b| && status == Done
        invariant Round(flate, start, all, b, n, sent, outbox, sendWin, acks, nextSendSeq)
        invariant i == |sent| - |start.sent| && NoneFails(fails, |sent| - |start.sent|)
        decreases |b| - n
      {
        var end := n + Min(|b| - n, MAX_CHUNK);
        j, status := SendNext(b, n, end, acks, j, start, all);
        if status != Done {
          return;
        }
        NoneFailsStep(fails, i, |sent| - |start.sent|);
        if fails(i) {
          return n, SendFailed;
        }
        i := i + 1;
        n := end;
      }
    }

    /** Write. `acks` are the acknowledgements that recvLoop handles while Write sits in its flow-control
        wait; when they run out with the window still full the call is `Waiting`. `fails(i)` says that the
        socket refuses the i-th chunk. The chunks that entered the window and those that remain make up the
        chunks of b, in order; a refused chunk has entered it too although the returned count leaves it out. */
    method Write(b: seq<byte>, acks: seq<nat>, fails: nat -> bool) returns (n: nat, status: WriteStatus)
      requires held.None?
      modifies this`nextSendSeq, this`held, this`numbered, this`sendWin, this`sent, this`outbox
      ensures n <= |b|
      ensures Returns(b, n, status, sent, old(closed) || sendClosed, |sendWin|)
      ensures status == SendFailed <==> !NoneFails(fails, |sent| - |old(sent)|)
      ensures old(closed) ==> status == Eof && n == 0 && sent == old(sent)
      ensures held.Some? <==> status == Waiting
      ensures Remaining(sent, b, Accepted(b, n, status), old(sent) + Chunks(b))
      ensures Wrote(flate, Mark(old(nextSendSeq), old(sent), old(outbox), old(sendWin.Keys), old(|sendWin|)),
                    sent, outbox, sendWin, acks)
    {
      n, status := 0, Eof;
      ghost var all := sent + Chunks(b);
      assert b[0..] == b && Remaining(sent, b, 0, all);
      ghost var start := Mark(nextSendSeq, sent, outbox, sendWin.Keys, |sendWin|);
      WroteNothing(flate, start, sendWin, acks);
      if closed {
        return;
      }
      n, status := SendAll(b, acks, fails, start, all);
    }

    /** recvLoop takes a data packet: the ACK goes out before anything else is looked at. */
    method TakePacket(num: nat, body: seq<byte>)
      requires phase.Idle?
      modifies this`outbox, this`phase
      ensures outbox == old(outbox) + [Ack(num)]
      ensures RecvState() == Take(old(RecvState()), num, body)
    {
      outbox := outbox + [Ack(num)];
      phase := InHand(num, body);
    }

    /** The recvMu section of recvLoop for the packet in hand, up to the first delivery. */
    method ProcessPacket()
      requires phase.InHand?
      modifies this`phase, this`recvBuf, this`dropped
      ensures RecvState() == Process(flate, old(RecvState()))
    {
      var num := phase.num;
      match DecompressData(flate, phase.body) {
        case None => phase := Idle;
        case Some(payload) =>
          if num == nextRecvSeq {
            phase := Delivering(payload);
          } else {
            phase := Idle;
            if num > nextRecvSeq && num !in recvBuf {
              if |recvBuf| < MAX_RECV_BUF {
                recvBuf := recvBuf[num := payload];
              } else {
                dropped := dropped + {num};
              }
            }
          }
      }
    }

    /** deliverToChannel and the bookkeeping after it. */
    method DeliverOne()
      requires phase.Delivering?
      modifies this`phase, this`nextRecvSeq, this`recvBuf, this`recvCh, this`queued, this`chunks
      ensures RecvState() == Deliver(old(RecvState()))
    {
      recvCh := recvCh + [phase.payload];
      queued, chunks := queued + [nextRecvSeq], chunks + [phase.payload];
      nextRecvSeq := Succ32(nextRecvSeq);
      if nextRecvSeq in recvBuf {
        phase := Delivering(recvBuf[nextRecvSeq]);
        recvBuf := recvBuf - {nextRecvSeq};
      } else {
        phase := Idle;
      }
    }

    /** The delivery loop of recvLoop, run until it ends or the channel is full. */
    method DeliverLoop()
      modifies this`phase, this`nextRecvSeq, this`recvBuf, this`recvCh, this`queued, this`chunks
      ensures RecvState() == DeliverWhile(old(RecvState()))
    {
      while phase.Delivering? && |recvCh| < RECV_CHAN_SIZE
        invariant DeliverWhile(RecvState()) == DeliverWhile(old(RecvState()))
        decreases RECV_CHAN_SIZE - |recvCh|
      {
        DeliverOne();
      }
    }

    /** Read with a buffer of `size` bytes, taking the data branch of its select. */
    method Read(size: nat) returns (out: seq<byte>)
      requires partial != [] || recvCh != []
      modifies this`partial, this`recvCh, this`read
      ensures out == ReadBytes(old(RecvState()), size) && |out| == Min(size, |Available(old(RecvState()))|)
      ensures RecvState() == ReadSome(old(RecvState()), size)
    {
      if partial != [] {
        out := partial[..Min(size, |partial|)];
        partial := partial[|out|..];
      } else {
        var data := recvCh[0];
        recvCh := recvCh[1..];
        out := data[..Min(size, |data|)];
        var rest := data[|out|..];
        partial := rest[..Min(|rest|, PARTIAL_SIZE)];
      }
      read := read + out;
    }

    method Close()
      modifies this`closed, this`sendClosed
      ensures old(closed) ==> SendState() == old(SendState()) && RecvState() == old(RecvState())
      ensures !old(closed) ==>
                && SendState() == old(SendState()).(sendClosed := true)
                && RecvState() == old(RecvState()).(stopped := true)
    {
      if !closed {
        closed := true;
        sendClosed := true;
      }
    }
  }

  /** The delivery loop of recvLoop, as far as the channel has room. */
  function DeliverWhile(r: Receiver): Receiver
    decreases RECV_CHAN_SIZE - |r.ch|
  {
    if r.phase.Delivering? && |r.ch| < RECV_CHAN_SIZE then DeliverWhile(Deliver(r)) else r
  }

  lemma Shrinks(m: map<nat, Packet>, k: nat)
    ensures |m - {k}| <= |m|
  {
    assert (m - {k}).Keys <= m.Keys;
    SubsetSize((m - {k}).Keys, m.Keys);
  }

  /** The number k after num. */
  function SeqAt(num: nat, k: nat): nat { if k == 0 then num else Succ32(SeqAt(num, k - 1)) }

  /** The data packets for these chunks, numbered from num on. */
  function Packets(f: Flate, num: nat, chunks: seq<seq<byte>>): (ps: seq<Packet>)
    ensures |ps| == |chunks|
  {
    if chunks == [] then []
    else
      var k := |chunks| - 1;
      Packets(f, num, chunks[..k]) + [Data(SeqAt(num, k), CompressData(f, chunks[k]))]
  }

  function Numbers(num: nat, k: nat): set<nat> { if k == 0 then {} else Numbers(num, k - 1) + {SeqAt(num, k - 1)} }

  /** Every one of these packets is in the window or has been acknowledged. */
  ghost predicate StillOut(nums: set<nat>, win: map<nat, Packet>, acks: seq<nat>) {
    forall n :: n in nums ==> n in win || n in acks
  }

  predicate NoneFails(fails: nat -> bool, k: int) { forall i: nat :: i < k ==> !fails(i) }

  lemma NoneFailsStep(fails: nat -> bool, k: nat, k': int)
    requires k' == k + 1
    ensures NoneFails(fails, k') <==> NoneFails(fails, k) && !fails(k)
  {
  }

  /** What there was when a call to Write began. */
  datatype Mark = Mark(num: nat, sent: seq<seq<byte>>, out: seq<Packet>, nums: set<nat>, size: nat)

  /** Since then exactly the chunks at the end of sent were numbered in order, put into the window and handed to the
      socket; whatever is no longer in the window was acknowledged, and the window has not outgrown its limit. */
  ghost predicate Wrote(f: Flate, start: Mark, sent: seq<seq<byte>>, out: seq<Packet>, win: map<nat, Packet>,
                        acks: seq<nat>) {
    && start.sent <= sent
    && out == start.out + Packets(f, start.num, sent[|start.sent|..])
    && StillOut(start.nums + Numbers(start.num, |sent| - |start.sent|), win, acks)
    && |win| <= if start.size > MAX_INFLIGHT then start.size else MAX_INFLIGHT
  }

  lemma WroteNothing(f: Flate, start: Mark, win: map<nat, Packet>, acks: seq<nat>)
    requires win.Keys == start.nums && |win| == start.size
    ensures Wrote(f, start, start.sent, start.out, win, acks)
  {
  }

  lemma WroteWaits(f: Flate, start: Mark, sent: seq<seq<byte>>, out: seq<Packet>, win: map<nat, Packet>,
                   win': map<nat, Packet>, acks: seq<nat>)
    requires StillOut(win.Keys, win', acks) && |win'| <= if |win| > MAX_INFLIGHT then |win| else MAX_INFLIGHT
    ensures Wrote(f, start, sent, out, win, acks) ==> Wrote(f, start, sent, out, win', acks)
  {
  }

  lemma WroteStep(f: Flate, start: Mark, sent: seq<seq<byte>>, out: seq<Packet>, win: map<nat, Packet>, acks: seq<nat>,
                  chunk: seq<byte>, next: nat, win': map<nat, Packet>)
    requires |start.sent| <= |sent| && next == SeqAt(start.num, |sent| - |start.sent|)
    requires StillOut(win.Keys + {next}, win', acks) && |win'| <= if |win| > MAX_INFLIGHT then |win| else MAX_INFLIGHT
    ensures Wrote(f, start, sent, out, win, acks) ==>
              Wrote(f, start, sent + [chunk], out + [Data(next, CompressData(f, chunk))], win', acks)
  {
    if Wrote(f, start, sent, out, win, acks) {
      var added := sent[|start.sent|..];
      SuffixSnoc(sent, |start.sent|, chunk);
      PacketsStep(f, start.num, added, chunk, next);
      PacketsAssoc(start.out, Packets(f, start.num, added), [Data(next, CompressData(f, chunk))]);
      NumbersStep(start.num, |added|, next, |sent + [chunk]| - |start.sent|);
    }
  }

  /** Write between two rounds: k bytes of b are behind it, and next is the number that comes next. */
  ghost predicate Round(f: Flate, start: Mark, all: seq<seq<byte>>, b: seq<byte>, k: nat, sent: seq<seq<byte>>,
                        out: seq<Packet>, win: map<nat, Packet>, acks: seq<nat>, next: nat) {
    && Remaining(sent, b, k, all)
    && Wrote(f, start, sent, out, win, acks)
    && next == SeqAt(start.num, |sent| - |start.sent|)
  }

  lemma RoundStep(f: Flate, start: Mark, all: seq<seq<byte>>, b: seq<byte>, n: nat, end: nat, sent: seq<seq<byte>>,
                  out: seq<Packet>, win: map<nat, Packet>, acks: seq<nat>, next: nat, win': map<nat, Packet>)
    requires n < |b| && end == n + Min(|b| - n, MAX_CHUNK)
    requires StillOut(win.Keys + {next}, win', acks) && |win'| <= if |win| > MAX_INFLIGHT then |win| else MAX_INFLIGHT
    ensures Round(f, start, all, b, n, sent, out, win, acks, next) ==>
              Round(f, start, all, b, end, sent + [b[n..end]], out + [Data(next, CompressData(f, b[n..end]))], win',
                    acks,
                    Succ32(next))
  {
    if Round(f, start, all, b, n, sent, out, win, acks, next) {
      ChunksStep(b, n, end, sent, sent + [b[n..end]], all);
      WroteStep(f, start, sent, out, win, acks, b[n..end], next, win');
    }
  }

  lemma RoundWaits(f: Flate, start: Mark, all: seq<seq<byte>>, b: seq<byte>, n: nat, sent: seq<seq<byte>>,
                   out: seq<Packet>, win: map<nat, Packet>, acks: seq<nat>, next: nat, win': map<nat, Packet>)
    requires StillOut(win.Keys, win', acks) && |win'| <= if |win| > MAX_INFLIGHT then |win| else MAX_INFLIGHT
    ensures Round(f, start, all, b, n, sent, out, win, acks, next) ==>
              Round(f, start, all, b, n, sent, out, win', acks, next)
  {
    WroteWaits(f, start, sent, out, win, win', acks);
  }

  lemma SuffixSnoc(xs: seq<seq<byte>>, k: nat, x: seq<byte>)
    requires k <= |xs|
    ensures (xs + [x])[k..] == xs[k..] + [x]
  {
  }

  lemma PacketsAssoc(a: seq<Packet>, b: seq<Packet>, c: seq<Packet>)
    ensures a + (b + c) == a + b + c
  {
  }

  lemma NumbersStep(num: nat, k: nat, next: nat, k': nat)
    requires next == SeqAt(num, k) && k' == k + 1
    ensures Numbers(num, k') == Numbers(num, k) + {next}
  {
  }

  lemma PacketsStep(f: Flate, num: nat, chunks: seq<seq<byte>>, chunk: seq<byte>, next: nat)
    requires next == SeqAt(num, |chunks|)
    ensures Packets(f, num, chunks + [chunk]) == Packets(f, num, chunks) + [Data(next, CompressData(f, chunk))]
  {
    assert (chunks + [chunk])[..|chunks|] == chunks;
  }

  lemma SuccMod(x: nat)
    ensures Succ32(x % U32) == (x + 1) % U32
  {
  }

  lemma {:induction false} SeqAtMeans(num: nat, k: nat)
    requires num < U32
    ensures SeqAt(num, k) == (num + k) % U32
  {
    if k > 0 {
      SeqAtMeans(num, k - 1);
      SuccMod(num + k - 1);
    }
  }

  /** The packets Write sends: one per chunk, numbered consecutively modulo 2^32, each decompressing to its chunk. */
  lemma {:induction false} PacketsMean(f: Flate, num: nat, chunks: seq<seq<byte>>, k: nat)
    requires Lossless(f) && num < U32 && k < |chunks|
    ensures var p := Packets(f, num, chunks)[k];
            p.Data? && p.num == (num + k) % U32 && DecompressData(f, p.body) == Some(chunks[k])
    decreases |chunks|
  {
    if k == |chunks| - 1 {
      SeqAtMeans(num, k);
      CompressionRoundTrip(f, chunks[k]);
    } else {
      PacketsMean(f, num, chunks[..|chunks| - 1], k);
    }
  }

  /** How many bytes of b have entered the window when Write returned n with this status. */
  function Accepted(b: seq<byte>, n: nat, status: WriteStatus): (k: nat)
    requires n <= |b|
    ensures n <= k <= |b|
  {
    if status == SendFailed then n + Min(|b| - n, MAX_CHUNK) else n
  }

  /** When Write returns what: the end of the data, a closed tunnel, a full window, or the refused chunk. */
  predicate Returns(b: seq<byte>, n: nat, status: WriteStatus, sent: seq<seq<byte>>, closed: bool, inFlight: nat)
    requires n <= |b|
  {
    match status
    case Done => n == |b|
    case Eof => closed
    case Waiting => !closed && inFlight >= MAX_INFLIGHT
    case SendFailed => n < |b| && sent != [] && sent[|sent| - 1] == b[n..Accepted(b, n, status)]
  }

  /** What entered the window and the chunks of b from k on make up all. */
  predicate Remaining(sent: seq<seq<byte>>, b: seq<byte>, k: nat, all: seq<seq<byte>>) {
    k <= |b| && sent + Chunks(b[k..]) == all
  }

  /** The next chunk moves from the remainder of b to the front. */
  lemma ChunksStep(b: seq<byte>, n: nat, end: nat, before: seq<seq<byte>>, after: seq<seq<byte>>, all: seq<seq<byte>>)
    requires n < |b| && end == n + Min(|b| - n, MAX_CHUNK) && after == before + [b[n..end]]
    ensures Remaining(before, b, n, all) ==> Remaining(after, b, end, all)
  {
    var size := Min(|b| - n, MAX_CHUNK);
    var rest := b[n..];
    assert rest[..size] == b[n..end] && rest[size..] == b[end..];
    assert Chunks(rest) == [rest[..size]] + Chunks(rest[size..]);
  }
}
