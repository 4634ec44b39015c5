/**
 When success can be trusted at any moment: how the frames of a stream have to arrive, and why nothing less will do.

 A schedule is serial when every handler runs to its end before the next frame is taken up, as with a single read loop,
 and it ends with the terminator when nothing is taken up after the frame that ends the stream, as on one
 connection that
 keeps the order. The waiting caller may look at any moment, also in the middle of a handler.
 */
module StreamSchedules {
  import opened Options
  import opened Bytes
  import opened Aad
  import opened ToolStream

  /** The step takes up the genuine terminator. */
  predicate Terminates(id: nat, s: Step) {
    s.Arrive? && s.fin && Open(s.key, StreamChunkAAD(id, s.q, s.stream, s.fin), s.c).Some?
  }

  predicate Taken(id: nat, steps: seq<Step>)
    decreases |steps|
  {
    steps != [] && (Taken(id, steps[..|steps| - 1]) || Terminates(id, steps[|steps| - 1]))
  }

  ghost predicate Serial(id: nat, active: bool, steps: seq<Step>)
    decreases |steps|
  {
    steps == [] ||
    (var init, s := steps[..|steps| - 1], steps[|steps| - 1];
     Serial(id, active, init) && (s.Arrive? ==> Exec(id, active, init).busy == multiset{}))
  }

  predicate EndsWithTerminator(id: nat, steps: seq<Step>)
    decreases |steps|
  {
    steps == [] ||
    (var init, s := steps[..|steps| - 1], steps[|steps| - 1];
     EndsWithTerminator(id, init) && (s.Arrive? ==> !Taken(id, init)))
  }

  /** The schedules of a discipline that may ask for either. */
  ghost predicate Allowed(id: nat, active: bool, steps: seq<Step>, serial: bool, last: bool) {
    (serial ==> Serial(id, active, steps)) && (last ==> EndsWithTerminator(id, steps))
  }

  /** Success, if reported, is the truth: every data frame has been handed to the callback. */
  ghost predicate Truthful(w: World) {
    |w.sink.sent| < U32 && Success(w.recv) ==> forall f :: f in w.sink.sent && f.data != [] ==> f in w.calls
  }

  // ---------- enough ----------

  /** At most one handler, only for the terminator once that has been taken up, and none after it has finished. */
  ghost predicate Tidy(w: World, taken: bool) {
    && |w.busy| <= 1
    && (!taken ==> !w.recv.finished && forall f :: Finishing(f) !in w.busy)
    && (taken ==> (w.recv.finished ==> w.busy == multiset{}) && forall t :: t in w.busy ==> t.Finishing?)
  }

  lemma ArriveTidy(id: nat, w: World, s: Step)
    requires Tidy(w, false) && w.busy == multiset{} && s.Arrive?
    ensures Tidy(Apply(id, w, s), Terminates(id, s))
  {
  }

  lemma OnlyTask(busy: multiset<Task>, t: Task)
    requires |busy| <= 1 && t in busy
    ensures busy == multiset{t} && busy - multiset{t} == multiset{}
  {
    assert |busy - multiset{t}| == 0;
    assert busy == (busy - multiset{t}) + multiset{t};
  }

  lemma WorkTidy(id: nat, w: World, t: Task, taken: bool)
    requires Tidy(w, taken) && t in w.busy && (t.Finishing? ==> t.f.data == [])
    ensures Tidy(Perform(w, t), taken)
  {
    OnlyTask(w.busy, t);
  }

  lemma ApplyTidy(id: nat, w: World, s: Step, taken: bool)
    requires Tidy(w, taken) && Inv(id, w) && |w.sink.sent| < U32
    requires s.Arrive? ==> w.busy == multiset{} && !taken
    ensures Tidy(Apply(id, w, s), taken || Terminates(id, s))
  {
    if s.Arrive? {
      ArriveTidy(id, w, s);
    } else if s.Work? && s.t in w.busy {
      FinishingIsEmpty(id, w, s.t);
      WorkTidy(id, w, s.t, taken);
    }
  }

  lemma FinishingIsEmpty(id: nat, w: World, t: Task)
    requires Inv(id, w) && |w.sink.sent| < U32 && t in w.busy
    ensures t.Finishing? ==> t.f.data == []
  {
  }

  lemma SentGrows(id: nat, w: World, s: Step)
    ensures |w.sink.sent| <= |Apply(id, w, s).sink.sent|
  {
  }

  lemma {:induction false} ExecTidy(id: nat, active: bool, steps: seq<Step>)
    requires id < U64 && Allowed(id, active, steps, true, true) && |Exec(id, active, steps).sink.sent| < U32
    ensures Tidy(Exec(id, active, steps), Taken(id, steps))
    decreases |steps|
  {
    if steps != [] {
      var init, s := steps[..|steps| - 1], steps[|steps| - 1];
      SentGrows(id, Exec(id, active, init), s);
      ExecTidy(id, active, init);
      ExecKeeps(id, active, init);
      ApplyTidy(id, Exec(id, active, init), s, Taken(id, init));
    }
  }

  /** With one read loop, and nothing taken up after the terminator, success means complete, whenever it is read. */
  lemma OrderlyIsTruthful(id: nat, active: bool, steps: seq<Step>)
    requires id < U64 && Allowed(id, active, steps, true, true)
    ensures Truthful(Exec(id, active, steps))
  {
    var w := Exec(id, active, steps);
    if |w.sink.sent| < U32 && Success(w.recv) {
      ExecTidy(id, active, steps);
      CompleteWhenQuiet(id, active, steps);
    }
  }

  // ---------- nothing less ----------

  /** Some schedule of the discipline leads here. */
  ghost predicate Reached(id: nat, serial: bool, last: bool, w: World, taken: bool) {
    exists active, steps ::
      Allowed(id, active, steps, serial, last) && Exec(id, active, steps) == w && Taken(id, steps) == taken
  }

  lemma Starts(id: nat, serial: bool, last: bool)
    ensures Reached(id, serial, last, Start(true), false)
  {
    assert Allowed(id, true, [], serial, last) && Exec(id, true, []) == Start(true) && !Taken(id, []);
  }

  lemma Goes(id: nat, serial: bool, last: bool, w: World, taken: bool, s: Step)
    requires Reached(id, serial, last, w, taken)
    requires s.Arrive? ==> (serial ==> w.busy == multiset{}) && (last ==> !taken)
    ensures Reached(id, serial, last, Apply(id, w, s), taken || Terminates(id, s))
  {
    var active, steps :|
      Allowed(id, active, steps, serial, last) && Exec(id, active, steps) == w && Taken(id, steps) == taken;
    var more := steps + [s];
    assert more[..|more| - 1] == steps && more[|more| - 1] == s;
    assert Allowed(id, active, more, serial, last);
    assert Exec(id, active, more) == Apply(id, w, s) && Taken(id, more) == (taken || Terminates(id, s));
  }

  lemma Delivers(id: nat, w: World, key: nat, f: Frame)
    requires SealFrame(id, key, f) in w.produced && f.q < U32
    ensures Apply(id, w, Arrive(key, f.q, f.stream, f.fin, SealFrame(id, key, f)))
            == w.(recv := Observe(w.recv, f.q), got := w.got + {f.q},
                  busy := if f.fin then w.busy + multiset{Finishing(f)}
                          else if f.data != [] then w.busy + multiset{Calling(f)} else w.busy)
  {
  }

  lemma Ends(id: nat, w: World, g: Frame)
    requires Finishing(g) in w.busy && g.data == []
    ensures Apply(id, w, Work(Finishing(g)))
            == w.(recv := w.recv.(finished := true), busy := w.busy - multiset{Finishing(g)})
  {
  }

  lemma Observed()
    ensures Observe(Recv(0, {}, 0, 0, false), 0) == Recv(1, {}, 0, 0, false)
    ensures Observe(Recv(1, {}, 0, 0, false), 1) == Recv(2, {}, 0, 0, false)
    ensures Observe(Recv(0, {}, 0, 0, false), 1) == Recv(2, {0}, 0, 0, false)
    ensures Observe(Recv(2, {0}, 0, 0, true), 0) == Recv(2, {}, 0, 0, true)
  {
    assert Track({}, 0, 0, 1) == ({0}, 0);
    assert {0} - {0} == {};
  }

  /** One data frame and the terminator, both sealed, nothing received. */
  function TwoFrames(id: nat, key: nat, data: seq<byte>): World {
    var f, g := Frame(0, [], data, false), Frame(1, [], [], true);
    World(Sink(true, true, 2, [f, g]), {SealFrame(id, key, f), SealFrame(id, key, g)}, Recv(0, {}, 0, 0, false),
          multiset{}, [], {}, false)
  }

  lemma TwoFramesReached(id: nat, serial: bool, last: bool, key: nat, data: seq<byte>)
    ensures Reached(id, serial, last, TwoFrames(id, key, data), false)
  {
    Starts(id, serial, last);
    Goes(id, serial, last, Start(true), false, DoSend(key, [], data));
    FirstSeal(id, key, data);
    Goes(id, serial, last, OneFrame(id, key, data), false, DoFinish(key));
    SecondSeal(id, key, data);
  }

  function OneFrame(id: nat, key: nat, data: seq<byte>): World {
    var f := Frame(0, [], data, false);
    Start(true).(sink := Sink(true, false, 1, [f]), produced := {SealFrame(id, key, f)})
  }

  lemma FirstSeal(id: nat, key: nat, data: seq<byte>)
    ensures Apply(id, Start(true), DoSend(key, [], data)) == OneFrame(id, key, data)
  {
  }

  lemma SecondSeal(id: nat, key: nat, data: seq<byte>)
    ensures Apply(id, OneFrame(id, key, data), DoFinish(key)) == TwoFrames(id, key, data)
  {
    var f, g := Frame(0, [], data, false), Frame(1, [], [], true);
    assert [f] + [g] == [f, g];
    assert {SealFrame(id, key, f)} + {SealFrame(id, key, g)} == {SealFrame(id, key, f), SealFrame(id, key, g)};
  }

  function ArriveStep(id: nat, key: nat, f: Frame): Step {
    Arrive(key, f.q, f.stream, f.fin, SealFrame(id, key, f))
  }

  /** A call can succeed while a handler has yet to call back: with two loops, the terminator overtakes a frame that has
      been observed and not handed over. */
  lemma SuccessBeforeCallback(id: nat, key: nat, data: seq<byte>) returns (w: World, f: Frame)
    requires data != []
    ensures Reached(id, false, true, w, true)
    ensures |w.sink.sent| < U32 && Success(w.recv) && Damaging !in w.busy
    ensures f in w.sink.sent && f.data == data && f !in w.calls
  {
    f := Frame(0, [], data, false);
    var g := Frame(1, [], [], true);
    Observed();
    TwoFramesReached(id, false, true, key, data);
    w := TwoFrames(id, key, data);
    Delivers(id, w, key, f);
    Goes(id, false, true, w, false, ArriveStep(id, key, f));
    w := Apply(id, w, ArriveStep(id, key, f));
    Delivers(id, w, key, g);
    Goes(id, false, true, w, false, ArriveStep(id, key, g));
    w := Apply(id, w, ArriveStep(id, key, g));
    Ends(id, w, g);
    Goes(id, false, true, w, true, Work(Finishing(g)));
    w := Apply(id, w, Work(Finishing(g)));
  }

  /** The terminator has come and gone, the data frame is missing. */
  lemma TerminatorFirst(id: nat, key: nat, data: seq<byte>) returns (w: World)
    ensures var f, g := Frame(0, [], data, false), Frame(1, [], [], true);
            && Reached(id, true, false, w, true)
            && w == World(Sink(true, true, 2, [f, g]), {SealFrame(id, key, f), SealFrame(id, key, g)},
                          Recv(2, {0}, 0, 0, true), multiset{}, [], {1}, false)
  {
    var g := Frame(1, [], [], true);
    Observed();
    TwoFramesReached(id, true, false, key, data);
    w := TwoFrames(id, key, data);
    Delivers(id, w, key, g);
    Goes(id, true, false, w, false, ArriveStep(id, key, g));
    w := Apply(id, w, ArriveStep(id, key, g));
    Ends(id, w, g);
    Goes(id, true, false, w, true, Work(Finishing(g)));
    w := Apply(id, w, Work(Finishing(g)));
  }

  /** One loop is not enough: a late frame closes the last gap before its data is handed over. */
  lemma SuccessBeforeLateCallback(id: nat, key: nat, data: seq<byte>) returns (w: World, f: Frame)
    requires data != []
    ensures Reached(id, true, false, w, true)
    ensures |w.sink.sent| < U32 && Success(w.recv) && Damaging !in w.busy
    ensures f in w.sink.sent && f.data == data && f !in w.calls
  {
    f := Frame(0, [], data, false);
    Observed();
    w := TerminatorFirst(id, key, data);
    Delivers(id, w, key, f);
    Goes(id, true, false, w, true, ArriveStep(id, key, f));
    w := Apply(id, w, ArriveStep(id, key, f));
  }

  /** A frame that fails to open closes its own gap before it is counted as damaged: a call that looks in between
      succeeds although the frame was never received. One loop is enough for that, too. */
  lemma SuccessBeforeDamage(id: nat, key: nat, data: seq<byte>) returns (w: World, f: Frame)
    requires data != []
    ensures Reached(id, true, false, w, true)
    ensures |w.sink.sent| < U32 && Success(w.recv)
    ensures f in w.sink.sent && f.data == data && f !in w.calls && Calling(f) !in w.busy
  {
    f := Frame(0, [], data, false);
    Observed();
    w := TerminatorFirst(id, key, data);
    Fails(id, w, key);
    Goes(id, true, false, w, true, Arrive(key, 0, [], false, Junk([])));
    w := Apply(id, w, Arrive(key, 0, [], false, Junk([])));
  }

  lemma Fails(id: nat, w: World, key: nat)
    ensures Apply(id, w, Arrive(key, 0, [], false, Junk([])))
            == w.(recv := Observe(w.recv, 0), busy := w.busy + multiset{Damaging}, tainted := true)
  {
  }

  lemma Untruthful(id: nat, serial: bool, last: bool, w: World, taken: bool)
    requires Reached(id, serial, last, w, taken) && !Truthful(w)
    ensures exists active, steps :: Allowed(id, active, steps, serial, last) && !Truthful(Exec(id, active, steps))
  {
  }

  /** A looser discipline admits whatever a stricter one does. */
  lemma Looser(id: nat, serial: bool, last: bool, serial': bool, last': bool, w: World, taken: bool)
    requires Reached(id, serial, last, w, taken) && (serial' ==> serial) && (last' ==> last)
    ensures Reached(id, serial', last', w, taken)
  {
    var active, steps :|
      Allowed(id, active, steps, serial, last) && Exec(id, active, steps) == w && Taken(id, steps) == taken;
    assert Allowed(id, active, steps, serial', last');
  }

  /** Success can be trusted at every moment of every run of a discipline if and only if it asks for both: one handler
      at a time, and nothing after the terminator. */
  lemma TruthfulIff(id: nat, serial: bool, last: bool)
    requires id < U64
    ensures (forall active, steps :: Allowed(id, active, steps, serial, last) ==> Truthful(Exec(id, active, steps)))
            <==> serial && last
  {
    if serial && last {
      forall active, steps | Allowed(id, active, steps, serial, last) ensures Truthful(Exec(id, active, steps)) {
        OrderlyIsTruthful(id, active, steps);
      }
    } else if !serial {
      var w, _ := SuccessBeforeCallback(id, 0, [1]);
      Looser(id, false, true, serial, last, w, true);
      Untruthful(id, serial, last, w, true);
    } else {
      var w, _ := SuccessBeforeLateCallback(id, 0, [1]);
      Untruthful(id, serial, last, w, true);
    }
  }
}
