/**
 UTF-8 as internal/agent/tools sees it: the byte scanner of oemtext.go and the rune starts of truncate.go.
 */
module Utf8 {
  import opened Bytes

  /** utf8.RuneStart: anything but a continuation byte. */
  predicate RuneStart(b: byte) { b < 0x80 || b >= 0xC0 }

  /** Length of the sequence a byte opens, 0 when it opens none. */
  function Need(c: byte): (n: nat)
    ensures n <= 4
  {
    if c < 0x80 then 1
    else if 0xC2 <= c <= 0xDF then 2
    else if 0xE0 <= c <= 0xEF then 3
    else if 0xF0 <= c <= 0xF4 then 4
    else 0
  }

  /** A complete sequence stands at the front of b. */
  predicate RuneAhead(b: seq<byte>) {
    b != [] && 0 < Need(b[0]) <= |b| && forall j :: 1 <= j < Need(b[0]) ==> !RuneStart(b[j])
  }

  /** Length of the complete, legal prefix, and whether nothing illegal follows it. */
  function Scan(b: seq<byte>): (r: (nat, bool))
    ensures r.0 <= |b|
    decreases |b|
  {
    if b == [] then (0, true)
    else if RuneAhead(b) then var (n, ok) := Scan(b[Need(b[0])..]); (Need(b[0]) + n, ok)
    else (0, 0 < Need(b[0]) && Need(b[0]) > |b|)
  }

  predicate WellFormed(b: seq<byte>) { Scan(b) == (|b|, true) }

  /** The inner loop: are the need - 1 bytes after i continuation bytes? */
  method Continues(b: seq<byte>, i: nat, need: nat) returns (ok: bool)
    requires i + need <= |b|
    ensures ok == forall j :: i + 1 <= j < i + need ==> !RuneStart(b[j])
  {
    var j := 1;
    while j < need
      invariant forall k :: i + 1 <= k < i + j && k < i + need ==> !RuneStart(b[k])
    {
      if RuneStart(b[i + j]) {
        return false;
      }
      j := j + 1;
    }
    return true;
  }

  lemma ScanFrom(b: seq<byte>, i: nat)
    requires i < |b| && Need(b[i]) > 0
    ensures i + Need(b[i]) > |b| ==> Scan(b[i..]) == (0, true)
    ensures i + Need(b[i]) <= |b| ==>
              var n := Need(b[i]);
              Scan(b[i..]) == if forall j :: i + 1 <= j < i + n ==> !RuneStart(b[j])
                              then (n + Scan(b[i + n..]).0, Scan(b[i + n..]).1) else (0, false)
  {
    var rest := b[i..];
    var n := Need(b[i]);
    if i + n <= |b| {
      assert rest[n..] == b[i + n..];
      assert forall j :: i + 1 <= j < i + n ==> b[j] == rest[j - i];
      assert forall j :: 1 <= j < n ==> rest[j] == b[i + j];
    }
  }

  method ScanUTF8(b: seq<byte>) returns (complete: nat, ok: bool)
    ensures (complete, ok) == Scan(b)
  {
    var i := 0;
    while i < |b|
      invariant i <= |b|
      invariant Scan(b) == (i + Scan(b[i..]).0, Scan(b[i..]).1)
    {
      var need := Need(b[i]);
      if need == 0 {
        return i, false;
      }
      ScanFrom(b, i);
      if i + need > |b| {
        return i, true;
      }
      var whole := Continues(b, i, need);
      if !whole {
        return i, false;
      }
      i := i + need;
    }
    return i, true;
  }

  // ---------- splitting and joining ----------

  /** The scanner goes through a well-formed prefix and then sees only what follows. */
  lemma {:induction false} ScanAfter(a: seq<byte>, b: seq<byte>)
    requires WellFormed(a)
    ensures Scan(a + b) == (|a| + Scan(b).0, Scan(b).1)
    decreases |a|
  {
    if a == [] {
      assert a + b == b;
    } else {
      var n := Need(a[0]);
      assert RuneAhead(a) && WellFormed(a[n..]);
      assert (a + b)[n..] == a[n..] + b;
      ScanAfter(a[n..], b);
    }
  }

  lemma JoinWellFormed(a: seq<byte>, b: seq<byte>)
    requires WellFormed(a) && WellFormed(b)
    ensures WellFormed(a + b)
  {
    ScanAfter(a, b);
  }

  lemma FrontSplits(b: seq<byte>, n: nat, k: nat)
    requires RuneAhead(b) && n == Need(b[0]) && n + k <= |b| && WellFormed(b[n..][..k])
    ensures WellFormed(b[..n + k])
  {
    var p := b[..n + k];
    assert RuneAhead(p) && p[n..] == b[n..][..k];
  }

  /** What the scanner calls complete is well-formed, and what it leaves of an accepted text is a short remnant. */
  lemma {:induction false} ScanSplits(b: seq<byte>)
    ensures WellFormed(b[..Scan(b).0])
    ensures Scan(b).1 ==> |b| - Scan(b).0 <= 3
    decreases |b|
  {
    if RuneAhead(b) {
      var n := Need(b[0]);
      var k := Scan(b[n..]).0;
      ScanSplits(b[n..]);
      FrontSplits(b, n, k);
    }
  }

  /** A prefix of an accepted text is accepted. */
  lemma {:induction false} PrefixAccepted(a: seq<byte>, b: seq<byte>)
    requires Scan(a + b).1
    ensures Scan(a).1
    decreases |a|
  {
    if a != [] {
      assert (a + b)[0] == a[0];
      if RuneAhead(a) {
        var n := Need(a[0]);
        assert RuneAhead(a + b) && (a + b)[n..] == a[n..] + b;
        PrefixAccepted(a[n..], b);
      } else {
        ShorterRune(a, b);
      }
    }
  }

  lemma ShorterRune(a: seq<byte>, b: seq<byte>)
    requires a != []
    ensures RuneAhead(a + b) && Need(a[0]) <= |a| ==> RuneAhead(a)
  {
    assert forall j :: 0 <= j < |a| ==> (a + b)[j] == a[j];
  }

  predicate Continuation(c: byte) { 0x80 <= c <= 0xBF }

  /** Why the scanner stops: at a byte that cannot begin a sequence, at one that is not followed by as many continuation
      bytes as it calls for, or, and only that is no fault, because the text ends too soon. */
  lemma {:induction false} ScanStops(b: seq<byte>)
    ensures var (n, ok) := Scan(b);
            n < |b| ==>
              if 0xC2 <= b[n] <= 0xDF then if |b| < n + 2 then ok else !ok && !Continuation(b[n + 1])
              else if 0xE0 <= b[n] <= 0xEF then
                if |b| < n + 3 then ok else !ok && !(Continuation(b[n + 1]) && Continuation(b[n + 2]))
              else if 0xF0 <= b[n] <= 0xF4 then
                if |b| < n + 4 then ok
                else !ok && !(Continuation(b[n + 1]) && Continuation(b[n + 2]) && Continuation(b[n + 3]))
              else !ok && b[n] >= 0x80
    ensures Scan(b).0 == |b| ==> Scan(b).1
    decreases |b|
  {
    if RuneAhead(b) { ScanStops(b[Need(b[0])..]); }
  }

  lemma FirstRune(s: seq<byte>)
    requires s != []
    ensures RuneAhead(s) ==> RuneStart(s[0]) && (WellFormed(s) <==> WellFormed(s[Need(s[0])..]))
    ensures !RuneAhead(s) ==> !WellFormed(s)
  {
  }

  lemma CutInside(s: seq<byte>, i: nat)
    requires RuneAhead(s) && 0 < i < Need(s[0])
    ensures i < |s| && !RuneStart(s[i]) && !WellFormed(s[..i])
  {
    assert !RuneAhead(s[..i]);
    FirstRune(s[..i]);
  }

  lemma CutBeyond(s: seq<byte>, i: nat)
    requires RuneAhead(s) && Need(s[0]) <= i <= |s|
    ensures var n, rest := Need(s[0]), s[Need(s[0])..];
            && (WellFormed(s[..i]) <==> WellFormed(rest[..i - n]))
            && s[i..] == rest[i - n..] && (i < |s| ==> s[i] == rest[i - n])
  {
    var n, p := Need(s[0]), s[..i];
    assert RuneAhead(p);
    FirstRune(p);
    assert p[n..] == s[n..][..i - n];
  }

  /** In well-formed text the rune starts are exactly the places where it may be cut. */
  lemma {:induction false} CutAtRuneStart(s: seq<byte>, i: nat)
    requires WellFormed(s) && i <= |s|
    ensures i == |s| || RuneStart(s[i]) <==> WellFormed(s[..i])
    ensures WellFormed(s[..i]) ==> WellFormed(s[i..])
    decreases |s|
  {
    if s != [] {
      FirstRune(s);
    }
    if i == 0 {
      assert s[0..] == s && s[..0] == [];
    } else if i < Need(s[0]) {
      CutInside(s, i);
    } else {
      CutBeyond(s, i);
      CutAtRuneStart(s[Need(s[0])..], i - Need(s[0]));
    }
  }

  // ---------- encoding ----------

  function EncodeRune(c: char): (b: seq<byte>)
    ensures WellFormed(b)
  {
    var x := c as int;
    if x < 0x80 then One(x)
    else if x < 0x800 then Two(x)
    else if x < 0x10000 then Three(x)
    else Four(x)
  }

  function One(x: int): (b: seq<byte>) requires 0 <= x < 0x80 ensures |b| == 1 && WellFormed(b) { [x] }

  function Two(x: int): (b: seq<byte>)
    requires 0x80 <= x < 0x800
    ensures |b| == 2 && WellFormed(b)
  {
    [0xC0 + x / 64, 0x80 + x % 64]
  }

  function Three(x: int): (b: seq<byte>)
    requires 0x800 <= x < 0x10000
    ensures |b| == 3 && WellFormed(b)
  {
    [0xE0 + x / 4096, 0x80 + x / 64 % 64, 0x80 + x % 64]
  }

  function Four(x: int): (b: seq<byte>)
    requires 0x10000 <= x < 0x110000
    ensures |b| == 4 && WellFormed(b)
  {
    [0xF0 + x / 262144, 0x80 + x / 4096 % 64, 0x80 + x / 64 % 64, 0x80 + x % 64]
  }

  function Runes(s: string): seq<seq<byte>> { seq(|s|, i requires 0 <= i < |s| => EncodeRune(s[i])) }

  function Encode(s: string): (b: seq<byte>) { Concat(Runes(s)) }

  lemma EncodeJoin(a: string, b: string)
    ensures Encode(a + b) == Encode(a) + Encode(b)
  {
    assert Runes(a + b) == Runes(a) + Runes(b);
    ConcatSplit(Runes(a), Runes(b));
  }

  lemma {:induction false} ConcatWellFormed(xs: seq<seq<byte>>)
    requires forall i :: 0 <= i < |xs| ==> WellFormed(xs[i])
    ensures WellFormed(Concat(xs))
  {
    if xs != [] {
      ConcatWellFormed(xs[..|xs| - 1]);
      JoinWellFormed(Concat(xs[..|xs| - 1]), xs[|xs| - 1]);
    }
  }

  lemma EncodeWellFormed(s: string)
    ensures WellFormed(Encode(s))
  {
    ConcatWellFormed(Runes(s));
  }

  lemma OneMore(width: nat, k: nat)
    requires k > 0
    ensures width * k == width * (k - 1) + width
  {
  }

  lemma {:induction false} ConcatLength(xs: seq<seq<byte>>, width: nat)
    requires forall i :: 0 <= i < |xs| ==> |xs[i]| == width
    ensures |Concat(xs)| == width * |xs|
  {
    if xs != [] {
      ConcatLength(xs[..|xs| - 1], width);
      OneMore(width, |xs|);
    }
  }

  lemma EncodeLength(s: string, lo: int, hi: int, width: nat)
    requires (lo, hi, width) == (0, 0x80, 1) || (lo, hi, width) == (0x800, 0x10000, 3)
    requires forall i :: 0 <= i < |s| ==> lo <= s[i] as int < hi
    ensures |Encode(s)| == width * |s|
  {
    ConcatLength(Runes(s), width);
  }
}
