/**
 The anti-replay window of internal/agent/replay.go. A 64-bit word of the ring is the row of its 64 flags.
 */
module Replay {
  import opened Bytes

  const WINDOW: nat := 1024
  const WORDS: nat := 16

  // ---------- the specification: the log of accepted ids since the last reset ----------

  function Highest(log: seq<nat>): (h: nat)
    requires log != []
    ensures h in log && forall x :: x in log ==> x <= h
  {
    var last := log[|log| - 1];
    if |log| == 1 then last
    else
      var h := Highest(log[..|log| - 1]);
      assert log == log[..|log| - 1] + [last];
      if last > h then last else h
  }

  lemma HighestAfter(log: seq<nat>, id: nat)
    ensures Highest(log + [id]) == if log == [] || id > Highest(log) then id else Highest(log)
  {
    assert (log + [id])[..|log + [id]| - 1] == log;
  }

  /** An id is accepted when it is the first, above all others, or inside the window and not seen. */
  predicate Fresh(log: seq<nat>, id: nat) {
    log == [] || id > Highest(log) || (Highest(log) - id < WINDOW && id !in log)
  }

  function Extend(log: seq<nat>, id: nat): seq<nat> { if Fresh(log, id) then log + [id] else log }

  function Run(ids: seq<nat>): seq<nat>
    decreases |ids|
  {
    if ids == [] then [] else Extend(Run(ids[..|ids| - 1]), ids[|ids| - 1])
  }

  predicate NoRepeat(log: seq<nat>) { forall i, j :: 0 <= i < j < |log| ==> log[i] != log[j] }

  /** Between resets no id is accepted twice, whatever arrives in whatever order. */
  lemma {:induction false} NeverTwice(ids: seq<nat>)
    ensures NoRepeat(Run(ids))
    decreases |ids|
  {
    if ids != [] {
      NeverTwice(ids[..|ids| - 1]);
      var log, id := Run(ids[..|ids| - 1]), ids[|ids| - 1];
      assert Fresh(log, id) ==> id !in log;
    }
  }

  /** An id that arrives once, never 1024 or more behind, is accepted: the window loses no genuine call. */
  lemma {:induction false} FirstArrivalAccepted(ids: seq<nat>, k: nat)
    requires k < |ids| && ids[k] !in ids[..k]
    requires forall i :: 0 <= i < k ==> ids[i] - ids[k] < WINDOW
    ensures Fresh(Run(ids[..k]), ids[k])
  {
    RunFromIds(ids[..k]);
  }

  lemma {:induction false} RunFromIds(ids: seq<nat>)
    ensures forall x :: x in Run(ids) ==> x in ids
    decreases |ids|
  {
    if ids != [] {
      RunFromIds(ids[..|ids| - 1]);
    }
  }

  // ---------- the clearing loop's counter ----------

  /** v++ on uint64. */
  function Next(v: nat): nat { if v == U64 - 1 then 0 else v + 1 }

  function Counter(v: nat, k: nat): nat { if k == 0 then v else Next(Counter(v, k - 1)) }

  lemma {:induction false} CounterCounts(v: nat, k: nat)
    requires v + k < U64
    ensures Counter(v, k) == v + k
  {
    if k > 0 { CounterCounts(v, k - 1); }
  }

  lemma {:induction false} CounterBounded(v: nat, k: nat)
    requires v < U64
    ensures Counter(v, k) < U64
  {
    if k > 0 { CounterBounded(v, k - 1); }
  }

  /** The loop from v = highest + 1 up to id leaves its range, that is ends, exactly when id is not the largest
      uint64. */
  lemma LoopEndsIff(v: nat, id: nat)
    requires 0 < v <= id < U64
    ensures (exists k :: Counter(v, k) > id) <==> id < U64 - 1
  {
    if id < U64 - 1 {
      CounterCounts(v, id + 1 - v);
    } else {
      forall k ensures Counter(v, k) <= id {
        CounterBounded(v, k);
      }
    }
  }

  /** The calls on which accept would never return. */
  predicate Diverges(log: seq<nat>, id: nat) {
    log != [] && Highest(log) < id && id - Highest(log) < WINDOW && id == U64 - 1
  }

  // ---------- the ring ----------

  function Slot(id: nat): (r: (nat, nat))
    ensures r.0 < WORDS && r.1 < 64
  {
    var pos := id % WINDOW;
    (pos / 64, pos % 64)
  }

  /** Two ids share a slot only when they are a multiple of the window apart. */
  lemma SlotsApart(a: nat, b: nat)
    requires a < b < a + WINDOW
    ensures Slot(a) != Slot(b)
  {
    var d, e := a % WINDOW, b % WINDOW;
    assert d == 64 * (d / 64) + d % 64 && e == 64 * (e / 64) + e % 64;
    assert a == WINDOW * (a / WINDOW) + d && b == WINDOW * (b / WINDOW) + e;
  }

  class ReplayGuard {
    var started: bool
    var highest: nat
    const bits: array2<bool>
    ghost var log: seq<nat>

    predicate IsSet(id: nat)
      reads bits
      requires bits.Length0 == WORDS && bits.Length1 == 64
    {
      var (w, m) := Slot(id);
      bits[w, m]
    }

    ghost predicate Clear()
      reads bits
      requires bits.Length0 == WORDS && bits.Length1 == 64
    {
      forall w, m :: 0 <= w < WORDS && 0 <= m < 64 ==> !bits[w, m]
    }

    ghost predicate Valid()
      reads this, bits
    {
      && bits.Length0 == WORDS && bits.Length1 == 64
      && (started <==> log != [])
      && (!started ==> Clear())
      && (started ==> highest == Highest(log) < U64)
      && (started ==> forall id: nat :: id <= highest && highest - id < WINDOW ==> (IsSet(id) <==> id in log))
    }

    constructor ()
      ensures Valid() && log == [] && fresh(bits)
    {
      started, highest, log := false, 0, [];
      bits := new bool[WORDS, 64]((_, _) => false);
    }

    method Wipe()
      requires bits.Length0 == WORDS && bits.Length1 == 64
      modifies bits
      ensures Clear()
    {
      forall w, m | 0 <= w < WORDS && 0 <= m < 64 {
        bits[w, m] := false;
      }
    }

    method Reset()
      requires Valid()
      modifies this, bits
      ensures Valid() && log == []
    {
      started, highest, log := false, 0, [];
      Wipe();
    }

    method Put(id: nat, value: bool)
      requires bits.Length0 == WORDS && bits.Length1 == 64
      modifies bits
      ensures IsSet(id) == value
      ensures forall other :: Slot(other) != Slot(id) ==> IsSet(other) == old(IsSet(other))
    {
      var (w, m) := Slot(id);
      bits[w, m] := value;
    }

    /** The window moves up to id: every slot it enters is emptied, the ones it keeps are left alone. */
    method Advance(id: nat)
      requires bits.Length0 == WORDS && bits.Length1 == 64 && highest < id < U64 - 1 && id - highest < WINDOW
      modifies bits
      ensures forall v :: highest < v <= id ==> !IsSet(v)
      ensures forall v: nat :: v <= highest && id - v < WINDOW ==> IsSet(v) == old(IsSet(v))
    {
      var v := highest + 1;
      while v <= id
        invariant highest < v <= id + 1
        invariant forall u :: highest < u < v ==> !IsSet(u)
        invariant forall u: nat :: u <= highest && id - u < WINDOW ==> IsSet(u) == old(IsSet(u))
        decreases id + 1 - v
      {
        forall u: nat | u != v && (highest < u < v || (u <= highest && id - u < WINDOW)) ensures Slot(u) != Slot(v) {
          SlotsApart(u, v);
        }
        Put(v, false);
        v := Next(v);
      }
    }

    /** Marks an id of the window; the other ids of the window stand in other slots. */
    method Mark(id: nat)
      requires bits.Length0 == WORDS && bits.Length1 == 64 && id <= highest && highest - id < WINDOW
      modifies bits
      ensures forall v: nat :: v <= highest && highest - v < WINDOW ==> (IsSet(v) <==> v == id || old(IsSet(v)))
    {
      forall v: nat | v <= highest && highest - v < WINDOW && v != id ensures Slot(v) != Slot(id) {
        if v < id { SlotsApart(v, id); } else { SlotsApart(id, v); }
      }
      Put(id, true);
    }

    /** Makes room for a first id, or one above the window's top: below it, the flags tell what is in the log. */
    method Slide(id: nat)
      requires Valid() && id < U64 && (started ==> id > highest) && !Diverges(log, id)
      modifies bits
      ensures forall v: nat :: v < id && id - v < WINDOW ==> (IsSet(v) <==> v in log)
    {
      if !started {
        forall v: nat | v < id ensures !IsSet(v) {
          assert Slot(v).0 < WORDS && Slot(v).1 < 64;
        }
      } else if id - highest >= WINDOW {
        Wipe();
        forall v: nat | v < id && id - v < WINDOW ensures !IsSet(v) && v !in log {
          assert Slot(v).0 < WORDS && Slot(v).1 < 64 && v > highest;
        }
      } else {
        Advance(id);
        forall v: nat | v < id && id - v < WINDOW ensures IsSet(v) <==> v in log {
          if v > highest {
            assert !IsSet(v) && v !in log;
          } else {
            assert highest - v < WINDOW;
          }
        }
      }
    }

    method Raise(id: nat)
      requires Valid() && id < U64 && (started ==> id > highest) && !Diverges(log, id)
      modifies this, bits
      ensures Valid() && log == old(log) + [id]
    {
      Slide(id);
      started, highest := true, id;
      Mark(id);
      HighestAfter(log, id);
      log := log + [id];
      forall v: nat | v <= id && id - v < WINDOW ensures IsSet(v) <==> v in log {
        assert v in log <==> v == id || v in old(log);
      }
    }

    method Accept(id: nat) returns (ok: bool)
      requires Valid() && id < U64 && !Diverges(log, id)
      modifies this, bits
      ensures Valid()
      ensures ok == Fresh(old(log), id) && log == Extend(old(log), id)
    {
      if !started || id > highest {
        Raise(id);
        return true;
      }
      if highest - id >= WINDOW || IsSet(id) {
        return false;
      }
      Mark(id);
      HighestAfter(log, id);
      log := log + [id];
      return true;
    }
  }
}
