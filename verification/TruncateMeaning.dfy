/**
 What truncation promises: it stays within its budget, it tells the truth about what it left out, it keeps both ends,
 and it never cuts a character.
 */
module TruncateMeaning {
  import opened Bytes
  import opened Utf8
  import opened Truncate

  // ---------- the marker's length ----------

  /** The text of the program, in three pieces after the number. */
  const FRONT := "\n...[中间 "
  const ADVICE := "字节已省略；需要完整输出请调高"
  const LIMIT := " max_output_bytes]...\n"

  function Chinese(): Wording { Wording(Encode(FRONT), Encode(" " + ADVICE + LIMIT)) }

  lemma FrontLength()
    ensures |Encode(FRONT)| == 12
  {
    var a, b, c := "\n...[", "中间", " ";
    EncodeLength(a, 0, 0x80, 1);
    EncodeLength(b, 0x800, 0x10000, 3);
    EncodeLength(c, 0, 0x80, 1);
    assert FRONT == a + (b + c);
    EncodeJoin(b, c);
    EncodeJoin(a, b + c);
  }

  lemma AdviceLength()
    ensures |Encode(ADVICE)| == 45
  {
    assert |ADVICE| == 15;
    EncodeLength(ADVICE, 0x800, 0x10000, 3);
  }

  lemma LimitLength()
    ensures |Encode(LIMIT)| == 22
  {
    assert |LIMIT| == 22;
    EncodeLength(LIMIT, 0, 0x80, 1);
  }

  lemma AfterLength()
    ensures |Encode(" " + ADVICE + LIMIT)| == 68
  {
    AdviceLength();
    LimitLength();
    EncodeJoin(" ", ADVICE);
    EncodeJoin(" " + ADVICE, LIMIT);
    EncodeLength(" ", 0, 0x80, 1);
  }

  /** The wording takes 80 of the 96 reserved bytes, and is text. */
  ghost predicate FitsReserve(w: Wording) {
    |w.before| + |w.after| == 80 && WellFormed(w.before) && WellFormed(w.after)
  }

  lemma ChineseFitsReserve()
    ensures FitsReserve(Chinese())
  {
    FrontLength();
    AfterLength();
    EncodeWellFormed(FRONT);
    EncodeWellFormed(" " + ADVICE + LIMIT);
  }

  function Pow10(k: nat): (p: nat)
    ensures p > 0
  {
    if k == 0 then 1 else 10 * Pow10(k - 1)
  }

  /** n has at most k digits exactly when it is below 10^k. */
  lemma {:induction false} DecimalLength(n: nat, k: nat)
    requires k > 0
    ensures |Decimal(n)| <= k <==> n < Pow10(k)
    decreases k
  {
    if n >= 10 {
      if k == 1 {
        assert Pow10(1) == 10;
      } else {
        DecimalLength(n / 10, k - 1);
      }
    }
  }

  /** What a reader makes of a string of ASCII digits. */
  function Value(digits: seq<byte>): int
    decreases |digits|
  {
    if digits == [] then 0 else Value(digits[..|digits| - 1]) * 10 + digits[|digits| - 1] - 48
  }

  predicate IsNumeral(digits: seq<byte>) {
    && digits != [] && (forall i :: 0 <= i < |digits| ==> 48 <= digits[i] <= 57)
    && (digits[0] == 48 ==> |digits| == 1)
  }

  /** %d writes the number itself, in digits and without leading zeros. */
  lemma {:induction false} DecimalValue(n: nat)
    ensures Value(Decimal(n)) == n && IsNumeral(Decimal(n)) && (n > 0 ==> Decimal(n)[0] != 48)
  {
    if n >= 10 {
      DecimalValue(n / 10);
      ValueSnoc(Decimal(n / 10), 48 + n % 10);
    } else {
      ValueSnoc([], 48 + n);
      assert [] + [48 + n] == [48 + n];
    }
  }

  lemma ValueSnoc(digits: seq<byte>, c: byte)
    ensures Value(digits + [c]) == Value(digits) * 10 + c - 48
  {
    assert (digits + [c])[..|digits|] == digits;
  }

  lemma {:induction false} AsciiWellFormed(s: seq<byte>)
    requires forall i :: 0 <= i < |s| ==> s[i] < 0x80
    ensures WellFormed(s)
  {
    if s != [] { AsciiWellFormed(s[1..]); }
  }

  // ---------- what the truncated text is ----------

  /** What is kept, and what the marker says is missing, add up to the whole. */
  lemma ElideLength(w: Wording, s: seq<byte>, head: nat, tail: nat)
    requires FitsReserve(w) && head <= tail <= |s|
    ensures |Elide(w, s, head, tail)| == |s| - (tail - head) + 80 + |Decimal(tail - head)|
    ensures s == s[..head] + s[head..tail] + s[tail..]
  {
  }

  /** Text that is cut in the middle shows as much of both ends as fits half the budget each without cutting a
      character, and between them the wording around the number of bytes that are missing. */
  lemma MiddleTells(w: Wording, s: seq<byte>, max: int) returns (front: seq<byte>, digits: seq<byte>, back: seq<byte>)
    requires RESERVE < max < |s|
    ensures TruncateMiddle(w, s, max) == (front + (w.before + digits + w.after) + back, true)
    ensures IsNumeral(digits) && |front| + Value(digits) + |back| == |s|
    ensures front <= s && |back| <= |s| && back == s[|s| - |back|..]
    ensures var half, other := (max - RESERVE) / 2, (max - RESERVE) - (max - RESERVE) / 2;
            && LongestFront(s, half, |front|) && LongestBack(s, other, |back|)
  {
    var (h, t) := Cuts(s, max - RESERVE);
    front, digits, back := s[..h], Decimal(t - h), s[t..];
    DecimalValue(t - h);
    AlignDownMeans(s, (max - RESERVE) / 2);
    AlignUpMeans(s, |s| - ((max - RESERVE) - (max - RESERVE) / 2));
  }

  /** n is the length of the longest front within the limit that may be cut off. */
  ghost predicate LongestFront(s: seq<byte>, limit: nat, n: nat) {
    n <= limit && Boundary(s, n) && forall j: nat :: j <= limit && j <= |s| && Boundary(s, j) ==> j <= n
  }

  ghost predicate LongestBack(s: seq<byte>, limit: nat, n: nat) {
    && n <= limit && n <= |s| && Boundary(s, |s| - n)
    && forall j: nat :: |s| - limit <= j <= |s| && Boundary(s, j) ==> |s| - n <= j
  }

  /** A text that fits is left alone; with no room for the marker only the longest front is kept. */
  lemma WholeOrFront(w: Wording, s: seq<byte>, max: nat)
    ensures |s| <= max ==> TruncateMiddle(w, s, max) == (s, false)
    ensures max < |s| && max <= RESERVE ==>
              && TruncateMiddle(w, s, max).1 && TruncateMiddle(w, s, max).0 <= s
              && LongestFront(s, max, |TruncateMiddle(w, s, max).0|)
  {
    AlignDownMeans(s, max);
  }

  /** The output stays within max as long as the number of bytes left out has at most 16 digits. */
  lemma MiddleFits(w: Wording, s: seq<byte>, max: int)
    requires FitsReserve(w) && max >= 0
    requires RESERVE < max < |s| ==> var (h, t) := Cuts(s, max - RESERVE); h <= t && t - h < Pow10(16)
    ensures |TruncateMiddle(w, s, max).0| <= max
  {
    if RESERVE < max < |s| {
      var (h, t) := Cuts(s, max - RESERVE);
      ElideFits(w, s, h, t, max);
    } else {
      HeadFits(s, max);
    }
  }

  lemma ElideFits(w: Wording, s: seq<byte>, h: nat, t: nat, max: int)
    requires FitsReserve(w) && h <= t <= |s| && h + (|s| - t) <= max - RESERVE && t - h < Pow10(16)
    ensures |Elide(w, s, h, t)| <= max
  {
    ElideLength(w, s, h, t);
    DecimalLength(t - h, 16);
  }

  lemma HeadFits(s: seq<byte>, max: nat)
    ensures |TruncateHead(s, max)| <= max
  {
    AlignDownMeans(s, max);
  }

  /** On plain ASCII the bound is exact: the output is longer than max exactly when 10^16 bytes or more are left out. */
  lemma AsciiExceedsIff(w: Wording, s: seq<byte>, max: int)
    requires FitsReserve(w) && RESERVE < max < |s| && forall i :: 0 <= i < |s| ==> s[i] < 0x80
    ensures |TruncateMiddle(w, s, max).0| > max <==> |s| - (max - RESERVE) >= Pow10(16)
  {
    var (h, t) := Cuts(s, max - RESERVE);
    assert t - h == |s| - (max - RESERVE);
    ElideLength(w, s, h, t);
    DecimalLength(t - h, 16);
  }

  // ---------- characters ----------

  lemma CutDown(s: seq<byte>, i: int)
    requires WellFormed(s)
    ensures WellFormed(s[..AlignDown(s, i)])
  {
    AlignDownMeans(s, i);
    CutAtRuneStart(s, AlignDown(s, i));
  }

  lemma CutUp(s: seq<byte>, i: int)
    requires WellFormed(s)
    ensures WellFormed(s[AlignUp(s, i)..])
  {
    AlignUpMeans(s, i);
    CutAtRuneStart(s, AlignUp(s, i));
    if AlignUp(s, i) == 0 {
      assert s[0..] == s;
    }
  }

  lemma MarkerWellFormed(w: Wording, elided: nat)
    requires FitsReserve(w)
    ensures WellFormed(Marker(w, elided))
  {
    DecimalValue(elided);
    AsciiWellFormed(Decimal(elided));
    JoinWellFormed(w.before, Decimal(elided));
    JoinWellFormed(w.before + Decimal(elided), w.after);
  }

  lemma ElideWellFormed(w: Wording, s: seq<byte>, head: nat, tail: nat)
    requires FitsReserve(w) && head <= tail <= |s| && WellFormed(s[..head]) && WellFormed(s[tail..])
    ensures WellFormed(Elide(w, s, head, tail))
  {
    MarkerWellFormed(w, tail - head);
    JoinWellFormed(s[..head], Marker(w, tail - head));
    JoinWellFormed(s[..head] + Marker(w, tail - head), s[tail..]);
  }

  lemma CutsWellFormed(s: seq<byte>, budget: nat)
    requires WellFormed(s) && budget < |s|
    ensures var (h, t) := Cuts(s, budget); WellFormed(s[..h]) && WellFormed(s[t..])
  {
    CutDown(s, budget / 2);
    CutUp(s, |s| - (budget - budget / 2));
  }

  /** Well-formed text stays well-formed, whatever the budget. */
  lemma MiddleWellFormed(w: Wording, s: seq<byte>, max: int)
    requires FitsReserve(w) && WellFormed(s)
    ensures WellFormed(TruncateMiddle(w, s, max).0)
  {
    if RESERVE < max < |s| {
      var (h, t) := Cuts(s, max - RESERVE);
      CutsWellFormed(s, max - RESERVE);
      ElideWellFormed(w, s, h, t);
    } else if max < |s| {
      CutDown(s, max);
    }
  }
}
