/**
 What outlasts the moment in a run of the tunnel: when exactly the reader's bytes stay in order once it has closed, what
 it had read before, and that nothing goes out twice once it has left the window.
 */
module TunnelOrder {
  import opened Options
  import opened Bytes
  import opened Tunnel
  import opened TunnelRuns

  // ---------- delivery and discarding ----------

  predicate MayDeliver(r: Receiver) { r.phase.Delivering? && |r.ch| < RECV_CHAN_SIZE }

  predicate MayDiscard(r: Receiver) { r.phase.Delivering? && r.stopped }

  /** Move i of the run puts a chunk on B's channel. */
  predicate Delivers(f: Flate, ms: seq<Move>, i: nat) {
    i < |ms| && !ms[i].byA && ms[i].act.DoDeliver? && MayDeliver(Run(f, ms[..i]).b.r)
  }

  /** Move i of the run throws a chunk away at B, which has closed. */
  predicate Discards(f: Flate, ms: seq<Move>, i: nat) {
    i < |ms| && !ms[i].byA && ms[i].act.DoDiscard? && MayDiscard(Run(f, ms[..i]).b.r)
  }

  lemma ReceiverMoves(f: Flate, r: Receiver, act: Action)
    ensures var r' := ActReceiver(f, r, act);
            (r'.queued, r'.next)
            == if act.DoDeliver? && MayDeliver(r) then (r.queued + [r.next], Succ32(r.next))
               else if act.DoDiscard? && MayDiscard(r) then (r.queued, Succ32(r.next))
               else (r.queued, r.next)
  {
  }

  /** The last move of a run, at B. */
  lemma LastMove(f: Flate, ms: seq<Move>)
    requires ms != []
    ensures var k := |ms| - 1;
            var r, r' := Run(f, ms[..k]).b.r, Run(f, ms).b.r;
            (r'.queued, r'.next)
            == if Delivers(f, ms, k) then (r.queued + [r.next], Succ32(r.next))
               else if Discards(f, ms, k) then (r.queued, Succ32(r.next))
               else (r.queued, r.next)
  {
    var k := |ms| - 1;
    var w := Run(f, ms[..k]);
    ReceiverMoves(f, w.b.r, Seen(w.b, ms[k].act, w.ab));
  }

  predicate InOrder(queued: seq<nat>) { forall i :: 0 <= i < |queued| ==> queued[i] == i }

  /** Some chunk was thrown away. */
  predicate Discarded(f: Flate, ms: seq<Move>)
    decreases |ms|
  {
    ms != [] && (Discarded(f, ms[..|ms| - 1]) || Discards(f, ms, |ms| - 1))
  }

  /** Some chunk was delivered after one had been thrown away. */
  predicate Skipped(f: Flate, ms: seq<Move>)
    decreases |ms|
  {
    ms != [] && (Skipped(f, ms[..|ms| - 1]) || (Discarded(f, ms[..|ms| - 1]) && Delivers(f, ms, |ms| - 1)))
  }

  lemma NextBelow(f: Flate, ms: seq<Move>)
    requires Lossless(f) && Small(Run(f, ms))
    ensures Run(f, ms).b.r.phase.Delivering? ==> Run(f, ms).b.r.next < U32 - 1
  {
    RunKeeps(f, ms);
  }

  lemma SmallBefore(f: Flate, ms: seq<Move>)
    requires ms != [] && Small(Run(f, ms))
    ensures Small(Run(f, ms[..|ms| - 1]))
  {
    SmallStep(f, Run(f, ms[..|ms| - 1]), ms[|ms| - 1]);
  }

  lemma OrderStep(queued: seq<nat>, next: nat, lost: bool)
    requires |queued| <= next && (|queued| == next <==> !lost)
    ensures InOrder(queued + [next]) <==> InOrder(queued) && !lost
  {
    var q := queued + [next];
    assert forall i :: 0 <= i < |queued| ==> q[i] == queued[i];
    assert q[|queued|] == next;
  }

  /** In every run, closed or not, the chunks on B's channel are the first ones A sent, in order and without a gap, if
      and only if no chunk was delivered after one had been thrown away. */
  lemma {:induction false} InOrderIff(f: Flate, ms: seq<Move>)
    requires Lossless(f) && Small(Run(f, ms))
    ensures var r := Run(f, ms).b.r;
            && |r.queued| <= r.next && (|r.queued| == r.next <==> !Discarded(f, ms))
            && (InOrder(r.queued) <==> !Skipped(f, ms))
    decreases |ms|
  {
    if ms != [] {
      var init := ms[..|ms| - 1];
      SmallBefore(f, ms);
      InOrderIff(f, init);
      NextBelow(f, init);
      LastMove(f, ms);
      OrderStep(Run(f, init).b.r.queued, Run(f, init).b.r.next, Discarded(f, init));
    }
  }

  /** Hence what B reads stays a prefix of what A wrote, even after B has closed, unless a chunk was skipped. */
  lemma PrefixUnlessSkipped(f: Flate, ms: seq<Move>)
    requires Lossless(f) && Small(Run(f, ms)) && !Skipped(f, ms)
    ensures Run(f, ms).b.r.read <= Concat(Run(f, ms).a.s.sent)
  {
    RunKeeps(f, ms);
    InOrderIff(f, ms);
    var sent, r := Run(f, ms).a.s.sent, Run(f, ms).b.r;
    ReadIsPrefix(sent, r);
    assert r.chunks == sent[..|r.chunks|];
    ConcatPrefix(sent, |r.chunks|);
  }

  // ---------- what was read before Close ----------

  lemma SenderGrows(f: Flate, s: Sender, act: Action)
    ensures s.sent <= ActSender(f, s, act).sent
  {
  }

  lemma ReaderGrows(f: Flate, r: Receiver, act: Action)
    ensures r.read <= ActReceiver(f, r, act).read
  {
  }

  lemma SentGrows(f: Flate, w: World, m: Move)
    ensures w.a.s.sent <= Step(f, w, m).a.s.sent && w.b.r.read <= Step(f, w, m).b.r.read
  {
    if m.byA {
      SenderGrows(f, w.a.s, Seen(w.a, m.act, w.ba));
    } else {
      ReaderGrows(f, w.b.r, Seen(w.b, m.act, w.ab));
    }
  }

  lemma {:induction false} Continues(f: Flate, ms: seq<Move>, more: seq<Move>)
    ensures Run(f, ms).a.s.sent <= Run(f, ms + more).a.s.sent && Run(f, ms).b.r.read <= Run(f, ms + more).b.r.read
    decreases |more|
  {
    if more == [] {
      assert ms + more == ms;
    } else {
      Continues(f, ms, more[..|more| - 1]);
      assert (ms + more)[..|ms + more| - 1] == ms + more[..|more| - 1];
      SentGrows(f, Run(f, ms + more[..|more| - 1]), more[|more| - 1]);
    }
  }

  /** What B had read by the time it closed is, in every continuation, the beginning of what it reads in all and the
      beginning of what A writes in all. */
  lemma ReadBeforeClose(f: Flate, ms: seq<Move>, more: seq<Move>)
    requires Lossless(f) && Small(Run(f, ms)) && !Run(f, ms).b.r.stopped
    ensures Run(f, ms).b.r.read <= Run(f, ms + more).b.r.read
    ensures Run(f, ms).b.r.read <= Concat(Run(f, ms + more).a.s.sent)
  {
    Safety(f, ms);
    Continues(f, ms, more);
    var sent, all := Run(f, ms).a.s.sent, Run(f, ms + more).a.s.sent;
    assert sent == all[..|sent|];
    ConcatPrefix(all, |sent|);
  }

  // ---------- what has left the window, and what comes after Close ----------

  /** A packet of A that carries chunk n. */
  predicate Carrying(p: Packet, n: nat) { p.Data? && p.num == n }

  lemma NotAgain(f: Flate, s: Sender, act: Action, sent: seq<seq<byte>>, out: set<Packet>, n: nat)
    requires SenderOk(s) && s.sent == sent && WireOk(f, sent, s.win, out) && n < |sent| && n !in s.win
    ensures n !in ActSender(f, s, act).win && n < |ActSender(f, s, act).sent|
    ensures forall p :: p in ActEmits(f, s, act) ==> !Carrying(p, n)
  {
  }

  /** From w to w' chunk n stays out of A's window and A sends nothing that carries it. */
  ghost predicate StaysOut(w: World, w': World, n: nat) {
    n < |w'.a.s.sent| && n !in w'.a.s.win && forall p :: p in w'.ab && Carrying(p, n) ==> p in w.ab
  }

  lemma NotAgainStep(f: Flate, w: World, m: Move, w': World, n: nat)
    requires w' == Step(f, w, m) && Inv(f, w) && n < |w.a.s.sent| && n !in w.a.s.win
    ensures StaysOut(w, w', n)
  {
    if m.byA {
      NotAgain(f, w.a.s, Seen(w.a, m.act, w.ba), w.a.s.sent, w.ab, n);
    }
  }

  /** Worlds that follow each other by these moves. */
  ghost predicate Follows(f: Flate, ws: seq<World>, ms: seq<Move>) {
    |ws| == |ms| + 1 && forall i :: 0 <= i < |ms| ==> ws[i + 1] == Step(f, ws[i], ms[i])
  }

  lemma {:induction false} StaysOutOn(f: Flate, ws: seq<World>, ms: seq<Move>, n: nat)
    requires Follows(f, ws, ms) && n < |ws[0].a.s.sent| && n !in ws[0].a.s.win
    requires AllKept(f, ws)
    ensures StaysOut(ws[0], ws[|ms|], n)
    decreases |ms|
  {
    if ms != [] {
      var k := |ms| - 1;
      var init := ws[..k + 1];
      FollowsInit(f, ws, ms, init);
      StaysOutOn(f, init, ms[..k], n);
      NotAgainStep(f, ws[k], ms[k], ws[k + 1], n);
    }
  }

  lemma FollowsInit(f: Flate, ws: seq<World>, ms: seq<Move>, init: seq<World>)
    requires Follows(f, ws, ms) && AllKept(f, ws) && ms != [] && init == ws[..|ms|]
    ensures Follows(f, init, ms[..|ms| - 1]) && AllKept(f, init) && init[0] == ws[0] && init[|ms| - 1] == ws[|ms| - 1]
    ensures ws[|ms|] == Step(f, ws[|ms| - 1], ms[|ms| - 1])
  {
    KeptInit(f, ws, |ms|);
    FollowsLess(f, ws, ms);
  }

  lemma FollowsLess(f: Flate, ws: seq<World>, ms: seq<Move>)
    requires Follows(f, ws, ms) && ms != []
    ensures Follows(f, ws[..|ms|], ms[..|ms| - 1]) && ws[|ms|] == Step(f, ws[|ms| - 1], ms[|ms| - 1])
  {
    var k := |ms| - 1;
    assert ws[k + 1] == Step(f, ws[k], ms[k]);
  }

  lemma SeqSnoc<T>(a: seq<T>, b: seq<T>)
    requires b != []
    ensures var k := |a + b| - 1; (a + b)[..k] == a + b[..|b| - 1] && (a + b)[k] == b[|b| - 1]
    ensures b[..|b| - 1] + [b[|b| - 1]] == b
  {
  }

  lemma RunSnoc(f: Flate, ms: seq<Move>, more: seq<Move>)
    requires more != []
    ensures var init := ms + more[..|more| - 1];
            Run(f, ms + more) == Step(f, Run(f, init), more[|more| - 1])
  {
    SeqSnoc(ms, more);
  }

  lemma FollowsSnoc(f: Flate, ws: seq<World>, ms: seq<Move>, m: Move, w: World)
    requires Follows(f, ws, ms) && w == Step(f, ws[|ms|], m)
    ensures Follows(f, ws + [w], ms + [m])
  {
  }

  /** The worlds of a continuation, one after the other. */
  lemma {:induction false} Trace(f: Flate, ms: seq<Move>, more: seq<Move>) returns (ws: seq<World>)
    requires Lossless(f) && Small(Run(f, ms + more))
    ensures Follows(f, ws, more) && ws[0] == Run(f, ms) && ws[|more|] == Run(f, ms + more) && AllKept(f, ws)
    decreases |more|
  {
    RunKeeps(f, ms + more);
    var last := Run(f, ms + more);
    if more == [] {
      assert ms + more == ms;
      ws := [last];
    } else {
      RunSnoc(f, ms, more);
      var init := more[..|more| - 1];
      SmallStep(f, Run(f, ms + init), more[|more| - 1]);
      ws := Trace(f, ms, init);
      ws := TraceMore(f, ws, init, more[|more| - 1], more, last);
    }
  }

  ghost predicate AllKept(f: Flate, ws: seq<World>) { forall i :: 0 <= i < |ws| ==> Inv(f, ws[i]) }

  lemma TraceMore(f: Flate, ws: seq<World>, ms: seq<Move>, m: Move, all: seq<Move>, w: World) returns (ws': seq<World>)
    requires Follows(f, ws, ms) && AllKept(f, ws) && w == Step(f, ws[|ms|], m) && Inv(f, w)
    requires all != [] && ms == all[..|all| - 1] && m == all[|all| - 1]
    ensures Follows(f, ws', all) && AllKept(f, ws') && ws'[0] == ws[0] && ws'[|all|] == w
  {
    ws' := ws + [w];
    KeptSnoc(f, ws, w);
    FollowsSnoc(f, ws, ms, m, w);
    SeqSnoc([], all);
  }

  lemma KeptSnoc(f: Flate, ws: seq<World>, w: World)
    ensures AllKept(f, ws) && Inv(f, w) ==> AllKept(f, ws + [w])
  {
  }

  lemma KeptInit(f: Flate, ws: seq<World>, k: nat)
    ensures AllKept(f, ws) && k < |ws| ==> AllKept(f, ws[..k]) && Inv(f, ws[k])
  {
  }

  /** Once a chunk has left the window, A never sends it again, in any continuation. */
  lemma NeverSentAgain(f: Flate, ms: seq<Move>, more: seq<Move>, n: nat)
    requires Lossless(f) && Small(Run(f, ms + more)) && n < |Run(f, ms).a.s.sent| && n !in Run(f, ms).a.s.win
    ensures StaysOut(Run(f, ms), Run(f, ms + more), n)
  {
    var ws := Trace(f, ms, more);
    StaysOutOn(f, ws, more, n);
  }

  /** From s to s' nothing has entered the window. */
  predicate Sealed(s: Sender, s': Sender) { s'.sendClosed && s'.sent == s.sent && s'.win.Keys <= s.win.Keys }

  lemma SealedAct(f: Flate, s: Sender, s1: Sender, act: Action)
    ensures Sealed(s, s1) ==> Sealed(s, ActSender(f, s1, act))
  {
  }

  lemma SealedStep(f: Flate, s: Sender, w: World, m: Move, w': World)
    requires w' == Step(f, w, m)
    ensures Sealed(s, w.a.s) ==> Sealed(s, w'.a.s)
  {
    if m.byA {
      SealedAct(f, s, w.a.s, Seen(w.a, m.act, w.ba));
    }
  }

  /** Nothing enters A's window after A has closed, in any continuation. */
  lemma {:induction false} ClosedSendsNoMore(f: Flate, ms: seq<Move>, more: seq<Move>)
    requires Run(f, ms).a.s.sendClosed
    ensures Sealed(Run(f, ms).a.s, Run(f, ms + more).a.s)
    decreases |more|
  {
    if more == [] {
      assert ms + more == ms;
    } else {
      var init := ms + more[..|more| - 1];
      ClosedSendsNoMore(f, ms, more[..|more| - 1]);
      RunSnoc(f, ms, more);
      SealedStep(f, Run(f, ms).a.s, Run(f, init), more[|more| - 1], Run(f, ms + more));
    }
  }
}
