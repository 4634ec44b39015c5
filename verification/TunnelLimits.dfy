/**
 Where the tunnel's promises end: the two runs that show why Safety speaks of an endpoint that has not closed and NoLoss
 of one that never ran out of buffer space.
 */
module TunnelLimits {
  import opened Options
  import opened Bytes
  import opened Tunnel
  import opened TunnelRuns

  /** Some run ends in this world. */
  ghost predicate Reachable(f: Flate, w: World) { exists ms :: Run(f, ms) == w }

  lemma Starts(f: Flate)
    ensures Reachable(f, START)
  {
    assert Run(f, []) == START;
  }

  lemma Goes(f: Flate, w: World, byA: bool, act: Action)
    requires Reachable(f, w)
    ensures Reachable(f, Step(f, w, Move(byA, act)))
  {
    var ms :| Run(f, ms) == w;
    var ms' := ms + [Move(byA, act)];
    assert ms'[..|ms|] == ms;
    assert Run(f, ms') == Step(f, w, Move(byA, act));
  }

  function Sent(s: Sender, x: byte): Sender {
    s.(nextSeq := Succ32(s.nextSeq), numbered := s.numbered + 1,
       win := s.win[s.nextSeq := Data(s.nextSeq, [0, x])], sent := s.sent + [[x]])
  }

  function AfterSend(w: World, x: byte): World {
    w.(a := w.a.(s := Sent(w.a.s, x)), ab := w.ab + {Data(w.a.s.nextSeq, [0, x])})
  }

  /** An idle sender with an open window sends one small chunk. */
  lemma Sends(f: Flate, w: World, x: byte)
    requires Reachable(f, w) && w.a.s.held.None? && !w.a.s.sendClosed && |w.a.s.win| < MAX_INFLIGHT
    ensures Reachable(f, AfterSend(w, x))
  {
    var w1 := w.(a := w.a.(s := Number(w.a.s, [x])));
    Goes(f, w, true, DoNumber([x]));
    assert w.ab + {} == w.ab;
    assert Step(f, w, Move(true, DoNumber([x]))) == w1;
    Goes(f, w1, true, DoQueue);
    assert CompressData(f, [x]) == [0, x];
    assert Step(f, w1, Move(true, DoQueue)) == AfterSend(w, x);
  }

  function Received(r: Receiver, n: nat, x: byte): Receiver {
    if n == r.next then r.(phase := Delivering([x]))
    else if n > r.next && n !in r.buf then
      if |r.buf| < MAX_RECV_BUF then r.(buf := r.buf[n := [x]]) else r.(dropped := r.dropped + {n})
    else r
  }

  function AfterReceive(w: World, n: nat, x: byte): World {
    w.(b := w.b.(r := Received(w.b.r, n, x)), ba := w.ba + {Ack(n)})
  }

  lemma ProcessSmall(f: Flate, r: Receiver, n: nat, x: byte)
    requires r.phase.Idle?
    ensures Process(f, Take(r, n, [0, x])) == Received(r, n, x)
  {
    assert [0, x][1..] == [x];
  }

  /** An idle receiver takes a small data packet off the wire. */
  lemma Receives(f: Flate, w: World, n: nat, x: byte)
    requires Reachable(f, w) && w.b.r.phase.Idle? && Data(n, [0, x]) in w.ab && n < U32
    ensures Reachable(f, AfterReceive(w, n, x))
  {
    var p := Data(n, [0, x]);
    WireRoundTrip(p);
    var w1 := w.(b := w.b.(r := Take(w.b.r, n, [0, x])), ba := w.ba + {Ack(n)});
    Goes(f, w, false, DoReceive(p));
    assert Step(f, w, Move(false, DoReceive(p))) == w1;
    Goes(f, w1, false, DoProcess);
    ProcessSmall(f, w.b.r, n, x);
    assert w1.ba + {} == w1.ba;
    assert Step(f, w1, Move(false, DoProcess)) == AfterReceive(w, n, x);
  }

  function AfterAck(w: World, n: nat): World { w.(a := w.a.(s := Acked(w.a.s, n))) }

  lemma TakesAck(f: Flate, w: World, n: nat)
    requires Reachable(f, w) && w.a.r.phase.Idle? && Ack(n) in w.ba && n < U32
    ensures Reachable(f, AfterAck(w, n))
  {
    WireRoundTrip(Ack(n));
    Goes(f, w, true, DoReceive(Ack(n)));
    assert w.ab + {} == w.ab;
    assert Step(f, w, Move(true, DoReceive(Ack(n)))) == AfterAck(w, n);
  }

  // ---------- closing ----------

  const TORN := NEW_RECEIVER.(phase := Delivering([7]), buf := map[1 := [8]])

  /** Both chunks sent, the second one received first; the first is about to be delivered. */
  lemma Scrambled(f: Flate) returns (w: World)
    ensures Reachable(f, w)
    ensures w.a.s.sent == [[7], [8]] && w.a.s.numbered == 2 && w.b.s.numbered == 0 && w.b.r == TORN
  {
    w := TwoSent(f);
    Receives(f, w, 1, 8);
    w := AfterReceive(w, 1, 8);
    Receives(f, w, 0, 7);
    w := AfterReceive(w, 0, 7);
  }

  lemma TwoSent(f: Flate) returns (w: World)
    ensures Reachable(f, w) && w.a.s.sent == [[7], [8]] && w.a.s.numbered == 2 && w.b == START.b
    ensures w.ab == {Data(0, [0, 7]), Data(1, [0, 8])}
  {
    Starts(f);
    Sends(f, START, 7);
    var w1 := AfterSend(START, 7);
    assert w1.a.s.nextSeq == 1 && w1.a.s.sent == [[7]];
    Sends(f, w1, 8);
    w := AfterSend(w1, 8);
  }

  lemma TwoBytes()
    ensures Concat([[7], [8]]) == [7, 8]
  {
    assert [[7], [8]] == [[7]] + [[8]];
    ConcatSplit([[7]], [[8]]);
    ConcatOne([7]);
    ConcatOne([8]);
  }

  /** B does something that concerns only its receiving half. */
  lemma Inside(f: Flate, w: World, act: Action) returns (w': World)
    requires Reachable(f, w) && (act.DoClose? || act.DoDiscard? || act.DoDeliver? || act.DoRead?)
    ensures Reachable(f, w') && w'.a == w.a && w'.b.r == ActReceiver(f, w.b.r, act)
    ensures w'.b.s.numbered == w.b.s.numbered
  {
    Goes(f, w, false, act);
    w' := Step(f, w, Move(false, act));
  }

  /** B closes, drops the chunk in delivery, delivers the next one and reads. */
  lemma Skips(f: Flate)
    ensures var r := ActReceiver(f, ActReceiver(f, ActReceiver(f, ActReceiver(f, TORN, DoClose), DoDiscard), DoDeliver),
                                 DoRead(1));
            r.read == [8] && r.stopped
  {
    var r1 := TORN.(stopped := true);
    assert ActReceiver(f, TORN, DoClose) == r1;
    var r2 := Discard(r1);
    assert ActReceiver(f, r1, DoDiscard) == r2;
    assert r2.phase == Delivering([8]) && r2.ch == [] && r2.partial == [];
    var r3 := Deliver(r2);
    assert ActReceiver(f, r2, DoDeliver) == r3;
    assert r3.ch == [[8]] && [8][..1] == [8];
  }

  /** Closing while a delivery is under way can drop a chunk and still deliver the next one: the reader gets the second
      byte without the first. */
  lemma CloseBreaksPrefix(f: Flate) returns (w: World)
    ensures Reachable(f, w) && Small(w) && w.b.r.stopped && w.b.r.read == [8] && Concat(w.a.s.sent) == [7, 8]
  {
    w := Scrambled(f);
    w := Inside(f, w, DoClose);
    w := Inside(f, w, DoDiscard);
    w := Inside(f, w, DoDeliver);
    w := Inside(f, w, DoRead(1));
    Skips(f);
    TwoBytes();
  }

  // ---------- running out of buffer space ----------

  /** Chunk 0 is under way, chunks 1 to k have arrived and are acknowledged. */
  ghost predicate Stalled(w: World, k: nat) {
    && w.a.s.held.None? && !w.a.s.sendClosed && w.a.r.phase.Idle?
    && w.a.s.nextSeq == w.a.s.numbered == |w.a.s.sent| == k + 1 && w.b.s.numbered == 0
    && w.a.s.win.Keys == {0}
    && w.b.r.phase.Idle? && w.b.r.next == 0 && !w.b.r.stopped
    && |w.b.r.buf| == k && (forall n :: n in w.b.r.buf ==> n <= k)
  }

  function AfterRound(w: World, n: nat): World { AfterAck(AfterReceive(AfterSend(w, 7), n, 7), n) }

  /** One more chunk goes out, arrives behind the gap and is acknowledged. */
  lemma Round(f: Flate, w: World, k: nat)
    requires Reachable(f, w) && Stalled(w, k) && k <= MAX_RECV_BUF
    ensures Reachable(f, AfterRound(w, k + 1))
  {
    assert |w.a.s.win.Keys| == 1;
    Sends(f, w, 7);
    var w1 := AfterSend(w, 7);
    Receives(f, w1, k + 1, 7);
    TakesAck(f, AfterReceive(w1, k + 1, 7), k + 1);
  }

  lemma StillStalled(w: World, k: nat)
    requires Stalled(w, k) && k < MAX_RECV_BUF
    ensures Stalled(AfterRound(w, k + 1), k + 1)
  {
    assert AfterRound(w, k + 1).a.s.win.Keys == {0};
  }

  lemma FirstStall(f: Flate)
    ensures Reachable(f, AfterSend(START, 7)) && Stalled(AfterSend(START, 7), 0)
  {
    Starts(f);
    Sends(f, START, 7);
  }

  lemma {:induction false} Rounds(f: Flate, k: nat) returns (w: World)
    requires k <= MAX_RECV_BUF
    ensures Reachable(f, w) && Stalled(w, k)
  {
    if k == 0 {
      FirstStall(f);
      w := AfterSend(START, 7);
    } else {
      w := Rounds(f, k - 1);
      w := NextRound(f, w, k - 1);
    }
  }

  lemma NextRound(f: Flate, w: World, k: nat) returns (w': World)
    requires Reachable(f, w) && Stalled(w, k) && k < MAX_RECV_BUF
    ensures Reachable(f, w') && Stalled(w', k + 1)
  {
    Round(f, w, k);
    StillStalled(w, k);
    w' := AfterRound(w, k + 1);
  }

  /** The ACK goes out before the capacity check: with the buffer full, chunk n leaves the window and yet the receiver
      does not have it. A never sends it again, in any continuation (TunnelOrder.NeverSentAgain); only a datagram that
      is still on its way could bring it. */
  lemma FullBufferLosesData(f: Flate) returns (w: World, n: nat)
    ensures Reachable(f, w) && Small(w) && !w.b.r.stopped && n in w.b.r.dropped
    ensures n < |w.a.s.sent| && n !in w.a.s.win && !Got(w.b.r.phase, w.b.r.next, w.b.r.buf, n)
  {
    n := MAX_RECV_BUF + 1;
    w := Rounds(f, MAX_RECV_BUF);
    Round(f, w, MAX_RECV_BUF);
    w := AfterRound(w, n);
  }
}
