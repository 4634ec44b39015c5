/** Bytes and the big-endian integers of Go's encoding/binary package. */
module Bytes {

  type byte = x: int | 0 <= x < 256

  const U16 := 0x1_0000
  const U32 := 0x1_0000_0000
  const U64 := 0x1_0000_0000_0000_0000

  /** n++ on uint32. */
  function Succ32(n: nat): nat { if n == U32 - 1 then 0 else n + 1 }

  /** The `width` low-order bytes of n, most significant first; higher bytes are cut off as Go's casts do. */
  function PutBE(n: nat, width: nat): (bs: seq<byte>)
    ensures |bs| == width
    decreases width
  {
    if width == 0 then [] else PutBE(n / 256, width - 1) + [n % 256]
  }

  function GetBE(bs: seq<byte>): (n: nat)
    decreases |bs|
  {
    if bs == [] then 0 else GetBE(bs[..|bs| - 1]) * 256 + bs[|bs| - 1]
  }

  function Pow256(width: nat): (p: nat)
    ensures p > 0
  {
    if width == 0 then 1 else 256 * Pow256(width - 1)
  }

  lemma {:induction false} GetPut(n: nat, width: nat)
    requires n < Pow256(width)
    ensures GetBE(PutBE(n, width)) == n
    decreases width
  {
    if width > 0 {
      GetPut(n / 256, width - 1);
      assert PutBE(n, width)[..width - 1] == PutBE(n / 256, width - 1);
    }
  }

  lemma {:induction false} GetBelow(bs: seq<byte>)
    ensures GetBE(bs) < Pow256(|bs|)
    decreases |bs|
  {
    if bs != [] {
      GetBelow(bs[..|bs| - 1]);
    }
  }

  lemma {:induction false} PutGet(bs: seq<byte>)
    ensures PutBE(GetBE(bs), |bs|) == bs
    decreases |bs|
  {
    if bs != [] {
      var init, last := bs[..|bs| - 1], bs[|bs| - 1];
      PutGet(init);
      PutSnoc(GetBE(init), last, |init|);
      assert bs == init + [last];
    }
  }

  lemma Widths()
    ensures Pow256(2) == U16 && Pow256(4) == U32 && Pow256(8) == U64
  {
    assert Pow256(3) == 0x100_0000;
    assert Pow256(5) == 0x100_0000_0000;
    assert Pow256(7) == 0x100_0000_0000_0000;
  }

  /** Network order: the most significant byte comes first. */
  lemma BigEndian(a: byte, b: byte, c: byte, d: byte)
    ensures PutBE(a * 256 + b, 2) == [a, b] && PutBE(((a * 256 + b) * 256 + c) * 256 + d, 4) == [a, b, c, d]
  {
    PutOne(a);
    PutSnoc(a, b, 1);
    PutSnoc(a * 256 + b, c, 2);
    PutSnoc((a * 256 + b) * 256 + c, d, 3);
  }

  lemma PutOne(b: byte)
    ensures PutBE(b, 1) == [b]
  {
    assert PutBE(b / 256, 0) == [];
  }

  lemma PutSnoc(n: nat, b: byte, width: nat)
    ensures PutBE(n * 256 + b, width + 1) == PutBE(n, width) + [b]
  {
  }

  /** Two encodings of the same width agree only when the numbers do. */
  lemma PutInjective(m: nat, n: nat, width: nat)
    requires m < Pow256(width) && n < Pow256(width)
    requires PutBE(m, width) == PutBE(n, width)
    ensures m == n
  {
    GetPut(m, width);
    GetPut(n, width);
  }

  lemma Cut(s: seq<byte>, n: nat)
    requires n <= |s|
    ensures s[..n] + s[n..] == s
  {
  }

  lemma Assoc(a: seq<byte>, b: seq<byte>, c: seq<byte>)
    ensures a + (b + c) == a + b + c
  {
  }

  /** The bytes of a list of byte strings, in order. */
  function Concat(xs: seq<seq<byte>>): (bs: seq<byte>)
  {
    if xs == [] then [] else Concat(xs[..|xs| - 1]) + xs[|xs| - 1]
  }

  lemma ConcatOne(x: seq<byte>)
    ensures Concat([x]) == x
  {
    assert [x][..0] == [];
  }

  lemma {:induction false} ConcatSplit(xs: seq<seq<byte>>, ys: seq<seq<byte>>)
    ensures Concat(xs + ys) == Concat(xs) + Concat(ys)
    decreases |ys|
  {
    if ys == [] {
      assert xs + ys == xs;
    } else {
      var zs := ys[..|ys| - 1];
      ConcatSplit(xs, zs);
      assert (xs + ys)[..|xs + ys| - 1] == xs + zs;
      assert Concat(xs + ys) == Concat(xs + zs) + ys[|ys| - 1];
      Assoc(Concat(xs), Concat(zs), ys[|ys| - 1]);
    }
  }
}
