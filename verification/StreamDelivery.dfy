/**
 A stream that nobody disturbs: the frames arrive one by one, in order, and each is handled before the next. Then the
 call succeeds and the callback has had every piece of data, once and in order.
 */
module StreamDelivery {
  import opened Options
  import opened Bytes
  import opened Aad
  import opened ToolStream
  import opened StreamSchedules

  datatype Piece = Piece(stream: seq<byte>, data: seq<byte>)

  function Frames(ps: seq<Piece>): (fs: seq<Frame>)
    ensures |fs| == |ps|
  {
    if ps == [] then []
    else var k := |ps| - 1; Frames(ps[..k]) + [Frame(k, ps[k].stream, ps[k].data, false)]
  }

  /** The pieces a callback is made for: those that are not empty. */
  function Spoken(ps: seq<Piece>): seq<Piece> {
    if ps == [] then []
    else var k := |ps| - 1; Spoken(ps[..k]) + if ps[k].data != [] then [ps[k]] else []
  }

  function Heard(calls: seq<Frame>): seq<Piece> {
    seq(|calls|, i requires 0 <= i < |calls| => Piece(calls[i].stream, calls[i].data))
  }

  /** All pieces so far have been sent, received and handed over. */
  predicate UpToDate(w: World, ps: seq<Piece>) {
    && w.sink == Sink(true, false, |ps|, Frames(ps)) && w.recv == Recv(|ps|, {}, 0, 0, false)
    && w.busy == multiset{} && Heard(w.calls) == Spoken(ps)
  }

  lemma Next(n: nat)
    requires n < U32 - 1
    ensures Observe(Recv(n, {}, 0, 0, false), n) == Recv(n + 1, {}, 0, 0, false)
  {
  }

  lemma Sends(id: nat, w: World, key: nat, p: Piece)
    requires !w.sink.finished && w.sink.q < U32 - 1
    ensures var f := Frame(w.sink.q, p.stream, p.data, false);
            Apply(id, w, DoSend(key, p.stream, p.data))
            == w.(sink := Sink(true, false, w.sink.q + 1, w.sink.sent + [f]),
                  produced := w.produced + {SealFrame(id, key, f)})
  {
  }

  lemma CallsBack(id: nat, w: World, f: Frame)
    requires w.busy == multiset{Calling(f)}
    ensures Apply(id, w, Work(Calling(f))) == w.(busy := multiset{}, calls := w.calls + [f])
  {
    assert multiset{Calling(f)} - multiset{Calling(f)} == multiset{};
  }

  lemma OnePiece(id: nat, key: nat, w: World, ps: seq<Piece>) returns (w': World)
    requires ps != [] && |ps| < U32 - 1 && Reached(id, true, true, w, false) && UpToDate(w, ps[..|ps| - 1])
    ensures Reached(id, true, true, w', false) && UpToDate(w', ps)
  {
    var k := |ps| - 1;
    var f := Frame(k, ps[k].stream, ps[k].data, false);
    Next(k);
    Sends(id, w, key, ps[k]);
    Goes(id, true, true, w, false, DoSend(key, ps[k].stream, ps[k].data));
    var w1 := Apply(id, w, DoSend(key, ps[k].stream, ps[k].data));
    Delivers(id, w1, key, f);
    Goes(id, true, true, w1, false, ArriveStep(id, key, f));
    w' := Apply(id, w1, ArriveStep(id, key, f));
    if f.data != [] {
      assert multiset{} + multiset{Calling(f)} == multiset{Calling(f)};
      CallsBack(id, w', f);
      Goes(id, true, true, w', false, Work(Calling(f)));
      w' := Apply(id, w', Work(Calling(f)));
      assert Heard(w.calls + [f]) == Heard(w.calls) + [ps[k]];
    }
  }

  lemma {:induction false} AllPieces(id: nat, key: nat, ps: seq<Piece>) returns (w: World)
    requires |ps| < U32 - 1
    ensures Reached(id, true, true, w, false) && UpToDate(w, ps)
    decreases |ps|
  {
    if ps == [] {
      Starts(id, true, true);
      w := Start(true);
    } else {
      w := AllPieces(id, key, ps[..|ps| - 1]);
      w := OnePiece(id, key, w, ps);
    }
  }

  /** Whatever the pieces: there is a run that keeps to the discipline, ends in success, and has called back with the
      pieces that hold data, in order. */
  lemma UndisturbedSucceeds(id: nat, key: nat, ps: seq<Piece>) returns (w: World)
    requires |ps| < U32 - 1
    ensures Reached(id, true, true, w, true) && Success(w.recv) && w.busy == multiset{}
    ensures w.sink.sent == Frames(ps) + [Frame(|ps|, [], [], true)] && Heard(w.calls) == Spoken(ps)
  {
    var g := Frame(|ps|, [], [], true);
    w := AllPieces(id, key, ps);
    Next(|ps|);
    Goes(id, true, true, w, false, DoFinish(key));
    w := Apply(id, w, DoFinish(key));
    Delivers(id, w, key, g);
    Goes(id, true, true, w, false, ArriveStep(id, key, g));
    w := Apply(id, w, ArriveStep(id, key, g));
    Ends(id, w, g);
    Goes(id, true, true, w, true, Work(Finishing(g)));
    w := Apply(id, w, Work(Finishing(g)));
  }
}
