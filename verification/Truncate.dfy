/**
 Output truncation of internal/agent/tools: the whole-text functions of truncate.go, and the bounded writer of
 exec_bounded.go that has to give the same bytes without ever holding the whole text.
 */
module Truncate {
  import opened Bytes
  import opened Utf8

  // ---------- alignment ----------

  function Down(s: seq<byte>, i: nat): (r: nat)
    requires i < |s|
    ensures r <= i
  {
    if i == 0 || RuneStart(s[i]) then i else Down(s, i - 1)
  }

  function Up(s: seq<byte>, i: nat): (r: nat)
    requires i <= |s|
    ensures i <= r <= |s|
    decreases |s| - i
  {
    if i == |s| || RuneStart(s[i]) then i else Up(s, i + 1)
  }

  function AlignDown(s: seq<byte>, i: int): (r: nat)
    ensures r <= |s|
  {
    if i <= 0 then 0 else if i >= |s| then |s| else Down(s, i)
  }

  function AlignUp(s: seq<byte>, i: int): (r: nat)
    ensures r <= |s|
  {
    if i <= 0 then 0 else if i >= |s| then |s| else Up(s, i)
  }

  method AlignDownLoop(s: seq<byte>, at: int) returns (r: nat)
    ensures r == AlignDown(s, at)
  {
    var i := at;
    if i <= 0 {
      return 0;
    }
    if i >= |s| {
      return |s|;
    }
    while i > 0 && !RuneStart(s[i])
      invariant 0 <= i < |s| && Down(s, i) == Down(s, at)
    {
      i := i - 1;
    }
    return i;
  }

  method AlignUpLoop(s: seq<byte>, at: int) returns (r: nat)
    ensures r == AlignUp(s, at)
  {
    var i := at;
    if i <= 0 {
      return 0;
    }
    if i >= |s| {
      return |s|;
    }
    while i < |s| && !RuneStart(s[i])
      invariant 0 <= i <= |s| && Up(s, i) == Up(s, at)
    {
      i := i + 1;
    }
    return i;
  }

  /** A place where text may be cut. */
  predicate Boundary(s: seq<byte>, i: nat) { i == 0 || i >= |s| || RuneStart(s[i]) }

  /** The largest boundary not above i. */
  lemma {:induction false} AlignDownMeans(s: seq<byte>, i: int)
    ensures Boundary(s, AlignDown(s, i)) && (i >= 0 ==> AlignDown(s, i) <= i)
    ensures forall j: nat :: j <= i && j <= |s| && Boundary(s, j) ==> j <= AlignDown(s, i)
    decreases i
  {
    if 0 < i < |s| && !RuneStart(s[i]) {
      AlignDownMeans(s, i - 1);
    }
  }

  /** The smallest boundary not below i. */
  lemma {:induction false} AlignUpMeans(s: seq<byte>, i: int)
    ensures Boundary(s, AlignUp(s, i)) && (i <= |s| ==> AlignUp(s, i) >= i)
    ensures forall j: nat :: i <= j <= |s| && Boundary(s, j) ==> AlignUp(s, i) <= j
    decreases |s| - i
  {
    if 0 < i < |s| && !RuneStart(s[i]) {
      AlignUpMeans(s, i + 1);
    }
  }

  // ---------- the marker ----------

  const RESERVE: nat := 96

  function Decimal(n: nat): (s: seq<byte>)
    ensures s != []
  {
    if n < 10 then [48 + n] else Decimal(n / 10) + [48 + n % 10]
  }

  /** The text around the number of bytes left out. */
  datatype Wording = Wording(before: seq<byte>, after: seq<byte>)

  function Marker(w: Wording, elided: nat): seq<byte> { w.before + Decimal(elided) + w.after }

  // ---------- the whole-text functions ----------

  function TruncateHead(s: seq<byte>, max: int): seq<byte> {
    if |s| <= max then s else s[..AlignDown(s, max)]
  }

  function TruncateMiddle(w: Wording, s: seq<byte>, max: int): (seq<byte>, bool) {
    if |s| <= max then (s, false)
    else if max <= RESERVE then (TruncateHead(s, max), true)
    else
      var (head, tail) := Cuts(s, max - RESERVE);
      (Elide(w, s, head, tail), true)
  }

  /** s without the bytes from head up to tail, and a note of how many they were. */
  function Elide(w: Wording, s: seq<byte>, head: nat, tail: nat): seq<byte>
    requires head <= tail <= |s|
  {
    s[..head] + Marker(w, tail - head) + s[tail..]
  }

  /** Where the front ends and the back begins, when both together may take this many bytes. */
  function Cuts(s: seq<byte>, budget: nat): (r: (nat, nat))
    requires budget < |s|
    ensures r.0 <= r.1 <= |s| && r.0 + (|s| - r.1) <= budget
  {
    (AlignDown(s, budget / 2), AlignUp(s, |s| - (budget - budget / 2)))
  }

  /** Only what stands before and at the cut decides where it goes. */
  lemma {:induction false} DownPrefix(s: seq<byte>, t: seq<byte>, i: nat)
    requires i < |s| && s <= t
    ensures Down(t, i) == Down(s, i)
  {
    if i > 0 { DownPrefix(s, t, i - 1); }
  }

  lemma {:induction false} UpSuffix(s: seq<byte>, t: seq<byte>, i: nat)
    requires |t| <= |s| && t == s[|s| - |t|..] && i <= |t|
    ensures Up(s, |s| - |t| + i) == |s| - |t| + Up(t, i)
    decreases |t| - i
  {
    if i < |t| {
      assert t[i] == s[|s| - |t| + i];
      UpSuffix(s, t, i + 1);
    }
  }

  // ---------- the bounded writer ----------

  /** The front: the first max + 4 bytes, or everything. */
  predicate HeadOk(max: int, head: seq<byte>, whole: seq<byte>)
    requires max >= 1
  {
    head == whole[..if |whole| <= max + 4 then |whole| else max + 4]
  }

  /** The back: a suffix of at least the last max bytes, or everything, and of fewer than 2 * max. */
  predicate TailOk(max: int, tail: seq<byte>, whole: seq<byte>) {
    && |tail| <= |whole| && tail == whole[|whole| - |tail|..]
    && (|tail| < max ==> |tail| == |whole|) && |tail| < 2 * max
  }

  lemma HeadGrows(max: int, head: seq<byte>, whole: seq<byte>, p: seq<byte>, n: nat)
    requires max >= 1 && HeadOk(max, head, whole) && n <= |p|
    requires n == (if max + 4 - |head| > |p| then |p| else max + 4 - |head|)
    ensures HeadOk(max, head + p[..n], whole + p)
  {
    var whole' := whole + p;
    assert head + p[..n] == whole'[..|head| + n];
  }

  lemma TailReplaced(max: int, whole: seq<byte>, p: seq<byte>)
    requires 1 <= max <= |p|
    ensures TailOk(max, p[|p| - max..], whole + p)
  {
  }

  lemma TailGrows(max: int, tail: seq<byte>, whole: seq<byte>, p: seq<byte>)
    requires max >= 1 && TailOk(max, tail, whole) && |p| < max
    ensures |tail + p| < 3 * max
    ensures |tail + p| < 2 * max ==> TailOk(max, tail + p, whole + p)
    ensures |tail + p| >= 2 * max ==> TailOk(max, (tail + p)[|tail + p| - max..], whole + p)
  {
    var w, t := whole + p, tail + p;
    assert t == w[|w| - |t|..];
  }

  // ---------- what a write needs while it is under way ----------

  function NextTail(max: int, tail: seq<byte>, p: seq<byte>): seq<byte>
    requires max >= 1
  {
    if |p| >= max then p[|p| - max..]
    else if |tail| + |p| >= 2 * max then (tail + p)[|tail| + |p| - max..]
    else tail + p
  }

  /** The most bytes the tail buffer holds during a write. */
  function Peak(max: int, tail: seq<byte>, p: seq<byte>): int { if |p| >= max then max else |tail| + |p| }

  function TailAfter(max: int, ps: seq<seq<byte>>): seq<byte>
    requires max >= 1
  {
    if ps == [] then [] else NextTail(max, TailAfter(max, ps[..|ps| - 1]), ps[|ps| - 1])
  }

  lemma {:induction false} TailStaysSmall(max: int, ps: seq<seq<byte>>)
    requires max >= 1
    ensures |TailAfter(max, ps)| < 2 * max
    decreases |ps|
  {
    if ps != [] { TailStaysSmall(max, ps[..|ps| - 1]); }
  }

  function Blank(n: nat): (s: seq<byte>)
    ensures |s| == n
  {
    seq(n, _ => 0)
  }

  /** The two writes that fill the tail to the brim. */
  function Brim(max: int): (ps: seq<seq<byte>>)
    requires max >= 1
  {
    [Blank(max), Blank(max - 1)]
  }

  lemma BrimTail(max: int)
    requires max >= 1
    ensures |TailAfter(max, Brim(max))| == 2 * max - 1
  {
    var ps: seq<seq<byte>>, one: seq<seq<byte>> := Brim(max), [Blank(max)];
    assert ps[..1] == one && one[..0] == [];
    assert TailAfter(max, one) == NextTail(max, [], Blank(max));
  }

  /** Over all sequences of writes the tail buffer peaks at exactly 3 * max - 2 bytes. */
  lemma PeakExact(max: int, ps: seq<seq<byte>>, p: seq<byte>)
    requires max >= 1
    ensures Peak(max, TailAfter(max, ps), p) <= 3 * max - 2
    ensures Peak(max, TailAfter(max, Brim(max)), Blank(max - 1)) == 3 * max - 2
  {
    TailStaysSmall(max, ps);
    BrimTail(max);
  }

  /** So more than 2 * max bytes are held during some write if and only if max is at least 3, and during a given
      write if and only if it is shorter than max and does not fit. */
  lemma PeakExceedsIff(max: int)
    requires max >= 1
    ensures (exists ps, p: seq<byte> :: Peak(max, TailAfter(max, ps), p) > 2 * max) <==> max >= 3
    ensures forall tail: seq<byte>, p: seq<byte> ::
              Peak(max, tail, p) > 2 * max <==> |p| < max && |tail| + |p| > 2 * max
  {
    if max >= 3 {
      PeakExact(max, Brim(max), Blank(max - 1));
    } else {
      forall ps, p: seq<byte> ensures Peak(max, TailAfter(max, ps), p) <= 2 * max {
        PeakExact(max, ps, p);
      }
    }
  }

  /** Cutting the kept front is cutting the whole text. */
  lemma HeadCut(head: seq<byte>, whole: seq<byte>, i: nat)
    requires i < |head| && head <= whole
    ensures AlignDown(head, i) == AlignDown(whole, i) && head[..AlignDown(head, i)] == whole[..AlignDown(whole, i)]
  {
    DownPrefix(head, whole, i);
  }

  lemma TailCut(t: seq<byte>, whole: seq<byte>, n: nat)
    requires n <= |t| < |whole| && t == whole[|whole| - |t|..]
    ensures AlignUp(whole, |whole| - n) == |whole| - |t| + Up(t, |t| - n)
    ensures whole[|whole| - |t| + Up(t, |t| - n)..] == t[Up(t, |t| - n)..]
  {
    UpSuffix(whole, t, |t| - n);
  }

  lemma WindowOf(max: int, tail: seq<byte>, whole: seq<byte>)
    requires max >= 1 && TailOk(max, tail, whole)
    ensures |tail| <= max ==> |tail| == if |whole| <= max then |whole| else max
    ensures |tail| > max ==> tail[|tail| - max..] == whole[|whole| - max..]
  {
    if |tail| > max {
      SuffixOfSuffix(whole, |whole| - |tail|, |tail| - max);
    }
  }

  lemma SuffixOfSuffix(s: seq<byte>, i: nat, j: nat)
    requires i + j <= |s|
    ensures s[i..][j..] == s[i + j..]
  {
  }

  lemma ElideFrom(w: Wording, s: seq<byte>, head: nat, tail: nat, front: seq<byte>, back: seq<byte>)
    requires head <= tail <= |s| && front == s[..head] && back == s[tail..]
    ensures front + Marker(w, tail - head) + back == Elide(w, s, head, tail)
  {
  }

  /** The loop of result: the first rune start among the last n bytes. */
  method TailOffset(t: seq<byte>, n: nat) returns (off: nat)
    requires n <= |t|
    ensures off == Up(t, |t| - n)
  {
    off := |t| - n;
    while off < |t| && !RuneStart(t[off])
      invariant off <= |t| && Up(t, off) == Up(t, |t| - n)
    {
      off := off + 1;
    }
  }

  /** FRONT, marker and back, from the two kept pieces and the length alone. */
  method Assemble(w: Wording, head: seq<byte>, t: seq<byte>, total: nat, max: nat, ghost whole: seq<byte>)
    returns (out: seq<byte>)
    requires max > RESERVE && total == |whole| > max
    requires max < |head| && head <= whole && |t| == max && t == whole[total - max..]
    ensures out == TruncateMiddle(w, whole, max).0
  {
    var budget := max - RESERVE;
    var headN := budget / 2;
    var tailN := budget - headN;
    var headIdx := AlignDownLoop(head, headN);
    var off := TailOffset(t, tailN);
    var tailIdx := total - (|t| - off);
    out := head[..headIdx] + Marker(w, tailIdx - headIdx) + t[off..];
    PiecesCut(head, t, whole, budget, headN, tailN, tailIdx);
    MiddleIs(w, whole, max, budget, headIdx, tailIdx);
    ElideFrom(w, whole, headIdx, tailIdx, head[..headIdx], t[off..]);
  }

  lemma MiddleIs(w: Wording, s: seq<byte>, max: int, budget: nat, head: nat, tail: nat)
    requires RESERVE < max < |s| && budget == max - RESERVE && head <= tail <= |s| && Cuts(s, budget) == (head, tail)
    ensures TruncateMiddle(w, s, max).0 == Elide(w, s, head, tail)
  {
  }

  lemma PiecesCut(head: seq<byte>, t: seq<byte>, whole: seq<byte>, budget: nat, headN: nat, tailN: nat, tailIdx: nat)
    requires budget < |whole| && headN == budget / 2 && tailN == budget - headN && headN < |head| && head <= whole
    requires tailN <= |t| < |whole| && t == whole[|whole| - |t|..] && tailIdx == |whole| - (|t| - Up(t, |t| - tailN))
    ensures Cuts(whole, budget) == (AlignDown(head, headN), tailIdx) && tailIdx <= |whole|
    ensures head[..AlignDown(head, headN)] == whole[..AlignDown(head, headN)]
    ensures t[Up(t, |t| - tailN)..] == whole[tailIdx..]
  {
    HeadCut(head, whole, headN);
    TailCut(t, whole, tailN);
  }

  method GrowHead(max: int, head: seq<byte>, p: seq<byte>, ghost whole: seq<byte>) returns (h: seq<byte>)
    requires max >= 1 && HeadOk(max, head, whole)
    ensures HeadOk(max, h, whole + p)
  {
    var room := max + 4 - |head|;
    if room <= 0 {
      HeadGrows(max, head, whole, p, 0);
      assert head + p[..0] == head;
      return head;
    }
    var n := if room > |p| then |p| else room;
    HeadGrows(max, head, whole, p, n);
    return head + p[..n];
  }

  method GrowTail(max: int, tail: seq<byte>, p: seq<byte>, ghost whole: seq<byte>) returns (t: seq<byte>)
    requires max >= 1 && TailOk(max, tail, whole)
    ensures TailOk(max, t, whole + p) && t == NextTail(max, tail, p)
  {
    if |p| >= max {
      TailReplaced(max, whole, p);
      return p[|p| - max..];
    }
    TailGrows(max, tail, whole, p);
    t := tail + p;
    if |t| >= 2 * max {
      t := t[|t| - max..];
    }
  }

  class BoundedStream {
    const w: Wording
    const max: int
    var head: seq<byte>
    var tail: seq<byte>
    var total: nat
    ghost var whole: seq<byte>

    ghost predicate Valid()
      reads this
    {
      max >= 1 && total == |whole| && HeadOk(max, head, whole) && TailOk(max, tail, whole)
    }

    constructor (w: Wording, max: int)
      ensures Valid() && whole == [] && this.w == w && this.max == if max < 1 then 1 else max
    {
      this.w := w;
      this.max := if max < 1 then 1 else max;
      head, tail, total, whole := [], [], 0, [];
    }

    /** Memory: at most max + 4 bytes in front and, between writes, fewer than 2 * max behind. */
    method Write(p: seq<byte>) returns (n: nat)
      requires Valid()
      modifies this
      ensures Valid() && whole == old(whole) + p && n == |p|
      ensures |head| <= max + 4 && |tail| < 2 * max && tail == NextTail(max, old(tail), p)
    {
      total := total + |p|;
      head := GrowHead(max, head, p, whole);
      tail := GrowTail(max, tail, p, whole);
      whole := whole + p;
      return |p|;
    }

    function TailWindow(): (t: seq<byte>)
      reads this
      requires Valid()
      ensures |t| == (if total <= max then total else max) && t == whole[total - |t|..]
    {
      WindowOf(max, tail, whole);
      if |tail| > max then tail[|tail| - max..] else tail
    }

    /** The bytes, the flag and the elided count are those of truncating everything that was ever written. */
    method Result() returns (out: seq<byte>, truncated: bool)
      requires Valid()
      ensures (out, truncated) == TruncateMiddle(w, whole, max)
    {
      if total <= max {
        assert whole[..total] == whole;
        return head, false;
      }
      if max <= RESERVE {
        HeadCut(head, whole, max);
        return TruncateHead(head, max), true;
      }
      var t := TailWindow();
      out := Assemble(w, head, t, total, max, whole);
      return out, true;
    }
  }
}
