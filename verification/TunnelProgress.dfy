/**
 The tunnel never gets stuck: whatever the network has done so far, retransmission and reading can still bring over
 everything that was written, as long as the receiver has not closed and has thrown no acknowledged packet away.
 */
module TunnelProgress {
  import opened Options
  import opened Bytes
  import opened Tunnel
  import opened TunnelRuns

  function RunFrom(f: Flate, w: World, ms: seq<Move>): World
    decreases |ms|
  {
    if ms == [] then w else Step(f, RunFrom(f, w, ms[..|ms| - 1]), ms[|ms| - 1])
  }

  /** Some moves lead from w to w'. */
  ghost predicate Leads(f: Flate, w: World, w': World) { exists ms :: RunFrom(f, w, ms) == w' }

  lemma Moves(f: Flate, w: World, w': World, m: Move)
    requires Leads(f, w, w')
    ensures Leads(f, w, Step(f, w', m))
  {
    var ms :| RunFrom(f, w, ms) == w';
    assert (ms + [m])[..|ms + [m]| - 1] == ms;
    assert RunFrom(f, w, ms + [m]) == Step(f, w', m);
  }

  lemma {:induction false} RunJoins(f: Flate, ms: seq<Move>, more: seq<Move>)
    ensures RunFrom(f, Run(f, ms), more) == Run(f, ms + more)
    decreases |more|
  {
    if more == [] {
      assert ms + more == ms;
    } else {
      RunJoins(f, ms, more[..|more| - 1]);
      assert (ms + more)[..|ms + more| - 1] == ms + more[..|more| - 1];
    }
  }

  /** w is on the way from w0: only B's receiver and the wires have changed, and nothing has been lost. */
  ghost predicate OnWay(f: Flate, w0: World, w: World) {
    && Leads(f, w0, w) && Inv(f, w) && Small(w)
    && w.a == w0.a && w.b.s == w0.b.s && !w.b.r.stopped && w.b.r.dropped == {}
  }

  lemma StaysOnWay(f: Flate, w0: World, w: World, m: Move, w': World)
    requires Lossless(f) && OnWay(f, w0, w) && w' == Step(f, w, m)
    requires w'.a == w.a && w'.b.s == w.b.s && !w'.b.r.stopped && w'.b.r.dropped == {}
    ensures OnWay(f, w0, w')
  {
    Moves(f, w0, w, m);
    StepKeeps(f, w, m);
  }

  // ---------- single moves ----------

  function AtB(w: World, r: Receiver): World { w.(b := Endpoint(w.b.s, r)) }

  /** What B's receiver does by itself. */
  lemma Inner(f: Flate, w: World, act: Action)
    requires act.DoProcess? || act.DoDeliver? || act.DoRead?
    ensures Step(f, w, Move(false, act)) == AtB(w, ActReceiver(f, w.b.r, act))
  {
    assert w.ba + {} == w.ba;
  }

  lemma Resends(f: Flate, w: World, n: nat)
    requires n in w.a.s.win
    ensures Step(f, w, Move(true, DoResend(n))) == w.(ab := w.ab + {w.a.s.win[n]})
  {
  }

  lemma Receives(f: Flate, w: World, p: Packet)
    requires Inv(f, w) && p in w.ab && p.Data? && w.b.r.phase.Idle?
    ensures Step(f, w, Move(false, DoReceive(p))) == AtB(w, Take(w.b.r, p.num, p.body)).(ba := w.ba + {Ack(p.num)})
  {
    assert PacketOk(f, w.a.s.sent, p);
    WireRoundTrip(p);
  }

  // ---------- reading ----------

  /** Everything that was on the channel has been read. */
  predicate Drained(r: Receiver) { r.ch == [] && r.partial == [] }

  predicate SameFront(r: Receiver, r': Receiver) { r'.phase == r.phase && r'.next == r.next && r'.buf == r.buf }

  function Unread(r: Receiver): nat { |r.ch| + if r.partial != [] then 1 else 0 }

  lemma ReadsOn(r: Receiver)
    requires !Drained(r)
    ensures var r' := ReadSome(r, |Available(r)|);
            Unread(r') < Unread(r) && SameFront(r, r') && r'.stopped == r.stopped && r'.dropped == r.dropped
  {
  }

  lemma {:induction false} Drain(f: Flate, w0: World, w: World) returns (w': World)
    requires Lossless(f) && OnWay(f, w0, w)
    ensures OnWay(f, w0, w') && Drained(w'.b.r) && SameFront(w.b.r, w'.b.r)
    decreases Unread(w.b.r)
  {
    if Drained(w.b.r) {
      w' := w;
    } else {
      var act := DoRead(|Available(w.b.r)|);
      ReadsOn(w.b.r);
      Inner(f, w, act);
      var w1 := AtB(w, ReadSome(w.b.r, |Available(w.b.r)|));
      StaysOnWay(f, w0, w, Move(false, act), w1);
      w' := Drain(f, w0, w1);
    }
  }

  // ---------- the next chunk ----------

  /** The chunk that B waits for is in A's window. */
  lemma NextIsOut(f: Flate, w0: World, w: World)
    requires OnWay(f, w0, w) && w.b.r.phase.Idle? && w.b.r.next < |w.a.s.sent|
    ensures var n := w.b.r.next;
            n in w.a.s.win && w.a.s.win[n].Data? && w.a.s.win[n].num == n
              && Carries(f, w.a.s.win[n].body, w.a.s.sent[n])
  {
    var n := w.b.r.next;
    assert n in w.a.s.win || Known(w.b.r, n);
    assert PacketOk(f, w.a.s.sent, w.a.s.win[n]);
  }

  lemma Fetches(f: Flate, w0: World, w: World) returns (w': World)
    requires Lossless(f) && OnWay(f, w0, w) && w.b.r.phase.Idle? && w.b.r.next < |w.a.s.sent|
    ensures OnWay(f, w0, w') && w'.b.r.phase.Delivering? && w'.b.r.next == w.b.r.next
  {
    var n := w.b.r.next;
    NextIsOut(f, w0, w);
    var p := w.a.s.win[n];
    Resends(f, w, n);
    var w1 := w.(ab := w.ab + {p});
    StaysOnWay(f, w0, w, Move(true, DoResend(n)), w1);
    Receives(f, w1, p);
    var w2 := AtB(w1, Take(w1.b.r, p.num, p.body)).(ba := w1.ba + {Ack(p.num)});
    StaysOnWay(f, w0, w1, Move(false, DoReceive(p)), w2);
    w' := Processes(f, w0, w2);
  }

  lemma ProcessMoves(f: Flate, sent: seq<seq<byte>>, r: Receiver)
    requires ReceiverOk(f, sent, r.phase, r.next, r.buf) && r.phase.InHand?
    requires r.phase.num == r.next || |r.buf| < MAX_RECV_BUF
    ensures var r' := Process(f, r);
            && r'.next == r.next && r'.stopped == r.stopped && r'.dropped == r.dropped && !r'.phase.InHand?
            && (r.phase.num == r.next ==> r'.phase.Delivering?)
  {
    assert Carries(f, r.phase.body, sent[r.phase.num]);
  }

  /** The packet in hand is the one B waits for, or one there is room for. */
  lemma Processes(f: Flate, w0: World, w: World) returns (w': World)
    requires Lossless(f) && OnWay(f, w0, w) && w.b.r.phase.InHand?
    requires w.b.r.phase.num == w.b.r.next || |w.b.r.buf| < MAX_RECV_BUF
    ensures OnWay(f, w0, w') && w'.b.r.next == w.b.r.next && !w'.b.r.phase.InHand?
    ensures w.b.r.phase.num == w.b.r.next ==> w'.b.r.phase.Delivering?
  {
    Inner(f, w, DoProcess);
    w' := AtB(w, Process(f, w.b.r));
    ProcessMoves(f, w.a.s.sent, w.b.r);
    StaysOnWay(f, w0, w, Move(false, DoProcess), w');
  }

  lemma DeliverMoves(f: Flate, sent: seq<seq<byte>>, r: Receiver)
    requires ReceiverOk(f, sent, r.phase, r.next, r.buf) && r.phase.Delivering?
    ensures var r' := Deliver(r);
            r'.next == r.next + 1 && r'.stopped == r.stopped && r'.dropped == r.dropped && !r'.phase.InHand?
  {
  }

  lemma Hands(f: Flate, w0: World, w: World) returns (w': World)
    requires Lossless(f) && OnWay(f, w0, w) && w.b.r.phase.Delivering? && w.b.r.ch == []
    ensures OnWay(f, w0, w') && w'.b.r.next == w.b.r.next + 1 && !w'.b.r.phase.InHand?
  {
    Inner(f, w, DoDeliver);
    w' := AtB(w, Deliver(w.b.r));
    DeliverMoves(f, w.a.s.sent, w.b.r);
    StaysOnWay(f, w0, w, Move(false, DoDeliver), w');
  }

  // ---------- all of them ----------

  function Rank(p: Phase): nat { if p.InHand? then 2 else if p.Idle? then 1 else 0 }

  lemma {:induction false} BringsOver(f: Flate, w0: World, w: World) returns (w': World)
    requires Lossless(f) && OnWay(f, w0, w) && (w.b.r.phase.InHand? ==> |w.b.r.buf| < MAX_RECV_BUF)
    ensures OnWay(f, w0, w') && w'.b.r.phase.Idle? && w'.b.r.next == |w'.a.s.sent| && Drained(w'.b.r)
    decreases |w.a.s.sent| - w.b.r.next, Rank(w.b.r.phase)
  {
    w' := Drain(f, w0, w);
    InRange(f, w0, w');
    if w'.b.r.phase.Delivering? {
      w' := Hands(f, w0, w');
      w' := BringsOver(f, w0, w');
    } else if w'.b.r.phase.InHand? {
      w' := Processes(f, w0, w');
      w' := BringsOver(f, w0, w');
    } else if w'.b.r.next < |w'.a.s.sent| {
      w' := Fetches(f, w0, w');
      w' := BringsOver(f, w0, w');
    }
  }

  lemma InRange(f: Flate, w0: World, w: World)
    requires OnWay(f, w0, w)
    ensures w.b.r.next <= |w.a.s.sent| && (w.b.r.phase.Delivering? ==> w.b.r.next < |w.a.s.sent|)
  {
  }

  // ---------- and the acknowledgements ----------

  /** Everything has been read, and A's recvLoop is between packets; what is left of A's window differs. */
  ghost predicate Acking(f: Flate, w0: World, w: World) {
    && Leads(f, w0, w) && Inv(f, w) && Small(w)
    && w.a == Endpoint(w0.a.s.(win := w.a.s.win), w0.a.r) && w.a.r.phase.Idle?
    && !w.b.r.stopped && w.b.r.phase.Idle? && w.b.r.next == |w.a.s.sent| && Drained(w.b.r)
  }

  lemma StaysAcking(f: Flate, w0: World, w: World, m: Move, w': World)
    requires Lossless(f) && Leads(f, w0, w) && Inv(f, w) && Small(w) && w' == Step(f, w, m) && Small(w')
    ensures Leads(f, w0, w') && Inv(f, w')
  {
    Moves(f, w0, w, m);
    StepKeeps(f, w, m);
  }

  lemma Hears(f: Flate, w: World, n: nat)
    requires Inv(f, w) && Ack(n) in w.ba && w.a.r.phase.Idle?
    ensures Step(f, w, Move(true, DoReceive(Ack(n)))) == w.(a := Endpoint(Acked(w.a.s, n), w.a.r))
  {
    assert PacketOk(f, w.b.s.sent, Ack(n));
    WireRoundTrip(Ack(n));
    assert w.ab + {} == w.ab;
  }

  lemma InWindow(f: Flate, w: World, n: nat)
    requires Inv(f, w) && n in w.a.s.win
    ensures var p := w.a.s.win[n]; p.Data? && p.num == n < |w.a.s.sent| && DecompressData(f, p.body).Some?
  {
    assert PacketOk(f, w.a.s.sent, w.a.s.win[n]);
  }

  lemma KnownDuplicate(f: Flate, r: Receiver, p: Packet)
    requires p.Data? && p.num < r.next && r.phase.Idle? && DecompressData(f, p.body).Some?
    ensures Process(f, Take(r, p.num, p.body)) == r
  {
  }

  /** A repeats a packet that B has had; B acknowledges it and is where it was. */
  lemma Repeats(f: Flate, w0: World, w: World, n: nat) returns (w': World)
    requires Lossless(f) && Acking(f, w0, w) && n in w.a.s.win
    ensures Leads(f, w0, w') && Inv(f, w') && w'.a == w.a && w'.b == w.b && Ack(n) in w'.ba
  {
    var p := w.a.s.win[n];
    InWindow(f, w, n);
    Resends(f, w, n);
    var w1 := w.(ab := w.ab + {p});
    StaysAcking(f, w0, w, Move(true, DoResend(n)), w1);
    Receives(f, w1, p);
    var w2 := AtB(w1, Take(w1.b.r, n, p.body)).(ba := w1.ba + {Ack(n)});
    StaysAcking(f, w0, w1, Move(false, DoReceive(p)), w2);
    Inner(f, w2, DoProcess);
    KnownDuplicate(f, w.b.r, p);
    w' := AtB(w2, w.b.r);
    StaysAcking(f, w0, w2, Move(false, DoProcess), w');
  }

  lemma AcksOne(f: Flate, w0: World, w: World, n: nat) returns (w': World)
    requires Lossless(f) && Acking(f, w0, w) && n in w.a.s.win
    ensures Acking(f, w0, w') && |w'.a.s.win| < |w.a.s.win|
  {
    var w1 := Repeats(f, w0, w, n);
    Hears(f, w1, n);
    w' := w1.(a := Endpoint(Acked(w1.a.s, n), w1.a.r));
    StaysAcking(f, w0, w1, Move(true, DoReceive(Ack(n))), w');
    Fewer(w.a.s.win, n);
  }

  lemma Fewer(win: map<nat, Packet>, n: nat)
    requires n in win
    ensures |win - {n}| < |win|
  {
    assert win.Keys == (win - {n}).Keys + {n};
  }

  lemma SomeKey(win: map<nat, Packet>) returns (n: nat)
    requires |win| > 0
    ensures n in win
  {
    n :| n in win.Keys;
  }

  lemma NoKey(win: map<nat, Packet>)
    requires |win| == 0
    ensures win == map[]
  {
  }

  lemma {:induction false} AcksAll(f: Flate, w0: World, w: World) returns (w': World)
    requires Lossless(f) && Acking(f, w0, w)
    ensures Acking(f, w0, w') && w'.a.s.win == map[]
    decreases |w.a.s.win|
  {
    if |w.a.s.win| == 0 {
      w' := w;
      NoKey(w.a.s.win);
    } else {
      var n := SomeKey(w.a.s.win);
      w' := AcksOne(f, w0, w, n);
      w' := AcksAll(f, w0, w');
    }
  }

  /** From every reachable state in which B has not closed, has dropped nothing and has room in its buffer, some
      continuation of the run ends with B having read every byte that A's Write accepted; if A's recvLoop is between
      packets, it ends with A's window empty as well. */
  lemma AllCanBeRead(f: Flate, ms: seq<Move>) returns (more: seq<Move>)
    requires Lossless(f) && Small(Run(f, ms))
    requires !Run(f, ms).b.r.stopped && Run(f, ms).b.r.dropped == {} && |Run(f, ms).b.r.buf| < MAX_RECV_BUF
    ensures Run(f, ms + more).a.s.sent == Run(f, ms).a.s.sent
    ensures Run(f, ms + more).b.r.read == Concat(Run(f, ms).a.s.sent)
    ensures Run(f, ms).a.r.phase.Idle? ==> Run(f, ms + more).a.s.win == map[]
  {
    var w0 := Run(f, ms);
    RunKeeps(f, ms);
    assert RunFrom(f, w0, []) == w0;
    var w := BringsOver(f, w0, w0);
    if w0.a.r.phase.Idle? {
      w := AcksAll(f, w0, w);
    }
    more :| RunFrom(f, w0, more) == w;
    RunJoins(f, ms, more);
    ReadAll(f, w.a.s.sent, w.b.r);
  }

  lemma ReadAll(f: Flate, sent: seq<seq<byte>>, r: Receiver)
    requires QueuedOk(sent, r.queued, r.chunks, r.next, r.stopped) && ReaderOk(r.read, r.partial, r.ch, r.chunks)
    requires !r.stopped && r.next == |sent| && Drained(r)
    ensures r.read == Concat(sent)
  {
    assert r.chunks == sent;
    assert r.read + [] == r.read && Concat(r.ch) == [];
  }
}
