/**
 Double-byte code pages, as internal/agent/tools/oemtext_windows.go uses them, and what the decoding writer makes of
 text in one: it comes out as UTF-8, however the command's output is cut into writes.

 The table of the code page is the system's; a page here is which bytes open a two-byte character and what each
 character is in UTF-8. MultiByteToWideChar goes through its input one character at a time.
 */
module CodePages {
  import opened Options
  import opened Bytes
  import opened Utf8
  import opened OemText

  datatype Page = Page(lead: byte -> bool, text: seq<byte> -> Option<seq<byte>>)

  /** ASCII is itself, and the first half of a character, if UTF-8 could begin with it, is not a character. */
  ghost predicate Sane(p: Page) {
    forall c: byte ::
      (c < 0x80 ==> !p.lead(c) && p.text([c]) == Some([c])) && (p.lead(c) && Need(c) > 0 ==> p.text([c]) == None)
  }

  /** The last byte opens a character that has not arrived yet. */
  predicate Dangling(p: Page, b: seq<byte>) { |b| == 1 && p.lead(b[0]) }

  /** Length of the first character. */
  function Width(p: Page, b: seq<byte>): (w: nat)
    requires b != []
    ensures 1 <= w <= |b|
  {
    if p.lead(b[0]) && |b| > 1 then 2 else 1
  }

  /** How many bytes are whole characters. */
  function SplitAt(p: Page, b: seq<byte>): (n: nat)
    ensures n <= |b|
  {
    if b == [] || Dangling(p, b) then 0 else Width(p, b) + SplitAt(p, b[Width(p, b)..])
  }

  /** consoleTranscode: all characters, or nothing. */
  function Transcode(p: Page, b: seq<byte>): Option<seq<byte>> {
    if b == [] then Some([])
    else
      var first, rest := p.text(b[..Width(p, b)]), Transcode(p, b[Width(p, b)..]);
      if first.Some? && rest.Some? then Some(first.value + rest.value) else None
  }

  function CodecOf(p: Page): Codec {
    Codec(b => Transcode(p, b), b => (b[..SplitAt(p, b)], b[SplitAt(p, b)..]))
  }

  /** The scan of splitTrailingPartial. */
  method SplitTrailingPartial(p: Page, b: seq<byte>) returns (head: seq<byte>, tail: seq<byte>)
    ensures (head, tail) == CodecOf(p).split(b)
    ensures head + tail == b && (tail == [] || Dangling(p, tail))
  {
    var i := 0;
    while i < |b|
      invariant i <= |b| && i + SplitAt(p, b[i..]) == SplitAt(p, b)
      decreases |b| - i
    {
      SplitFrom(p, b, i);
      if p.lead(b[i]) {
        if i + 1 >= |b| {
          return b[..i], b[i..];
        }
        i := i + 2;
      } else {
        i := i + 1;
      }
    }
    assert b[..|b|] == b && b[|b|..] == [];
    return b, [];
  }

  lemma {:induction false} SplitRest(p: Page, b: seq<byte>)
    ensures SplitAt(p, b) < |b| ==> Dangling(p, b[SplitAt(p, b)..])
  {
    if b != [] && !Dangling(p, b) {
      var w := Width(p, b);
      SplitRest(p, b[w..]);
      assert b[SplitAt(p, b)..] == b[w..][SplitAt(p, b[w..])..];
    }
  }

  lemma SplitFrom(p: Page, b: seq<byte>, i: nat)
    requires i < |b|
    ensures SplitAt(p, b[i..])
            == if !p.lead(b[i]) then 1 + SplitAt(p, b[i + 1..])
               else if i + 1 >= |b| then 0 else 2 + SplitAt(p, b[i + 2..])
  {
    assert |b| - i > 1 ==> b[i..][2..] == b[i + 2..];
    assert b[i..][1..] == b[i + 1..];
  }

  // ---------- text in the code page ----------

  /** Every character, but for a last one that is cut in half, has a conversion. */
  predicate Converts(p: Page, b: seq<byte>) {
    b == [] || Dangling(p, b) || (p.text(b[..Width(p, b)]).Some? && Converts(p, b[Width(p, b)..]))
  }

  /** No character outside ASCII is where UTF-8 could begin. */
  predicate Legacy(p: Page, b: seq<byte>) {
    b == [] || Dangling(p, b) || ((b[0] < 0x80 || Scan(b) == (0, false)) && Legacy(p, b[Width(p, b)..]))
  }

  predicate Ok(p: Page, b: seq<byte>) { Converts(p, b) && Legacy(p, b) }

  /** The text in UTF-8; half a character at the end stays as it is, unless the page has something for it. */
  function Shown(p: Page, b: seq<byte>): seq<byte>
    requires Converts(p, b)
  {
    if b == [] then []
    else if Dangling(p, b) then if p.text(b).Some? then p.text(b).value else b
    else p.text(b[..Width(p, b)]).value + Shown(p, b[Width(p, b)..])
  }

  /** How much of the text is half a character at the end: one byte or none. */
  function Left(p: Page, b: seq<byte>): nat { |b| - SplitAt(p, b) }

  /** Without half a character at the end that is the conversion of the whole. */
  lemma {:induction false} ShownIsTranscode(p: Page, b: seq<byte>)
    requires Sane(p) && Converts(p, b)
    ensures SplitAt(p, b) == |b| ==> Transcode(p, b).Some?
    ensures Transcode(p, b).Some? ==> Transcode(p, b).value == Shown(p, b)
  {
    if b != [] && !Dangling(p, b) {
      ShownIsTranscode(p, b[Width(p, b)..]);
    } else if Dangling(p, b) {
      assert b == [b[0]] && b[..1] == b;
    }
  }

  lemma FirstSame(p: Page, y: seq<byte>, z: seq<byte>)
    requires y != [] && !Dangling(p, y)
    ensures !Dangling(p, y + z) && Width(p, y + z) == Width(p, y)
    ensures (y + z)[..Width(p, y)] == y[..Width(p, y)] && (y + z)[Width(p, y)..] == y[Width(p, y)..] + z
  {
  }

  /** The whole characters at the front are converted, and the rest stays to be. */
  lemma {:induction false} HeadShown(p: Page, y: seq<byte>, z: seq<byte>)
    requires Ok(p, y + z)
    ensures var h := SplitAt(p, y);
            && Ok(p, y[h..] + z) && Transcode(p, y[..h]).Some?
            && Shown(p, y + z) == Transcode(p, y[..h]).value + Shown(p, y[h..] + z)
            && Left(p, y + z) == Left(p, y[h..] + z)
    decreases |y|
  {
    var h := SplitAt(p, y);
    if h == 0 {
      assert y[0..] == y && y[..0] == [];
    } else {
      var w := Width(p, y);
      FirstSame(p, y, z);
      HeadShown(p, y[w..], z);
      HeadCut(p, y, w, h);
    }
  }

  lemma HeadCut(p: Page, y: seq<byte>, w: nat, h: nat)
    requires y != [] && w == Width(p, y) <= h <= |y|
    ensures Width(p, y[..h]) == w && y[..h][..w] == y[..w] && y[..h][w..] == y[w..][..h - w]
            && y[h..] == y[w..][h - w..]
  {
  }

  /** What the UTF-8 scanner calls complete at the front is ASCII. */
  lemma {:induction false} AsciiShown(p: Page, y: seq<byte>, z: seq<byte>)
    requires Sane(p) && Ok(p, y + z)
    ensures var k := Scan(y).0;
            && Ok(p, y[k..] + z) && Shown(p, y + z) == y[..k] + Shown(p, y[k..] + z)
            && Left(p, y + z) == Left(p, y[k..] + z)
    decreases |y|
  {
    var k := Scan(y).0;
    if k == 0 {
      assert y[0..] == y && y[..0] == [];
    } else {
      AsciiAhead(p, y, z);
      FirstSame(p, y, z);
      AsciiShown(p, y[1..], z);
      assert y[..k] == [y[0]] + y[1..][..k - 1] && y[k..] == y[1..][k - 1..] && y[..1] == [y[0]];
    }
  }

  lemma AsciiAhead(p: Page, y: seq<byte>, z: seq<byte>)
    requires Sane(p) && Ok(p, y + z) && Scan(y).0 > 0
    ensures y[0] < 0x80 && !p.lead(y[0]) && p.text([y[0]]) == Some([y[0]]) && Need(y[0]) == 1
    ensures Scan(y).0 == 1 + Scan(y[1..]).0
  {
    var g := y + z;
    assert RuneAhead(g) by { assert forall j :: 0 <= j < |y| ==> g[j] == y[j]; }
    assert g[0] == y[0];
  }

  // ---------- the writer on such text ----------

  /** What is pending and what is yet to come: UTF-8 text u, then code page text g. */
  predicate Owes(p: Page, d: Decoder, z: seq<byte>, u: seq<byte>, g: seq<byte>) {
    && !d.passthrough && d.pending + z == u + g && WellFormed(u) && Ok(p, g)
    && (d.pending != [] ==> if d.pendingUTF8 then Scan(d.pending) == (0, true) else u == [] && Dangling(p, d.pending))
  }

  /** The output for it. */
  function Due(p: Page, u: seq<byte>, g: seq<byte>): seq<byte>
    requires Ok(p, g)
  {
    u + Shown(p, g)
  }

  /** What an accepted buffer leaves behind, and how it scans. */
  lemma AcceptedIs(d: Decoder, buf: seq<byte>, n: nat)
    requires Scan(buf) == (n, true)
    ensures var (d', more) := Accepted(d, buf);
            && more == buf[..n] && d'.pending == buf[n..] && d'.passthrough == d.passthrough
            && (d'.pending != [] ==> d'.pendingUTF8 && Scan(d'.pending) == (0, true))
            && WellFormed(buf[..n]) && buf[..n] + buf[n..] == buf
  {
    ScanSplits(buf);
    Cut(buf, n);
    ScanAfter(buf[..n], buf[n..]);
    assert n == |buf| ==> buf[..n] == buf && buf[n..] == [];
  }

  lemma RestWellFormed(a: seq<byte>, b: seq<byte>)
    requires WellFormed(a) && WellFormed(a + b)
    ensures WellFormed(b)
  {
    ScanAfter(a, b);
  }

  /** The buffer ends inside the UTF-8 text. */
  lemma StepInside(p: Page, d: Decoder, buf: seq<byte>, v: seq<byte>, z: seq<byte>, g: seq<byte>)
    returns (u': seq<byte>)
    requires !d.passthrough && WellFormed(buf + v) && Ok(p, g) && z == v + g
    ensures Scan(buf).1
    ensures var (d', more) := Accepted(d, buf); Owes(p, d', z, u', g) && more + u' == buf + v
  {
    PrefixAccepted(buf, v);
    var n := Scan(buf).0;
    AcceptedIs(d, buf, n);
    Assoc(buf[..n], buf[n..], v);
    u' := buf[n..] + v;
    RestWellFormed(buf[..n], u');
    Assoc(buf[n..], v, g);
  }

  /** The buffer ends inside the code page text. */
  lemma StepBeyond(p: Page, d: Decoder, u: seq<byte>, y: seq<byte>, z: seq<byte>) returns (g': seq<byte>)
    requires Sane(p) && !d.passthrough && WellFormed(u) && Ok(p, y + z)
    ensures var (d', more) := if Scan(u + y).1 then Accepted(d, u + y) else Foreign(CodecOf(p), d, u + y);
            && Owes(p, d', z, [], g') && more + Shown(p, g') == u + Shown(p, y + z)
            && Left(p, g') == Left(p, y + z)
  {
    ScanAfter(u, y);
    if Scan(y).1 {
      g' := LooksUnfinished(p, d, u, y, z);
    } else {
      g' := LooksForeign(p, d, u, y, z);
    }
  }

  lemma LooksUnfinished(p: Page, d: Decoder, u: seq<byte>, y: seq<byte>, z: seq<byte>) returns (g': seq<byte>)
    requires Sane(p) && !d.passthrough && Scan(u + y) == (|u| + Scan(y).0, true) && Ok(p, y + z)
    ensures var (d', more) := Accepted(d, u + y);
            && Owes(p, d', z, [], g') && more + Shown(p, g') == u + Shown(p, y + z)
            && Left(p, g') == Left(p, y + z)
  {
    var k := Scan(y).0;
    AsciiShown(p, y, z);
    g' := y[k..] + z;
    Assoc(u, y[..k], Shown(p, g'));
    SplitsAt(u, y, k);
    AcceptedIs(d, u + y, |u| + k);
  }

  lemma ForeignIs(c: Codec, d: Decoder, u: seq<byte>, y: seq<byte>, k: nat)
    requires k <= |y| && Scan(u + y).0 == |u| + k
    ensures Foreign(c, d, u + y) == (Converted(c, d, y[k..]).0, u + y[..k] + Converted(c, d, y[k..]).1)
  {
    SplitsAt(u, y, k);
  }

  lemma LooksForeign(p: Page, d: Decoder, u: seq<byte>, y: seq<byte>, z: seq<byte>) returns (g': seq<byte>)
    requires Sane(p) && !d.passthrough && Scan(u + y).0 == |u| + Scan(y).0 && Ok(p, y + z)
    ensures var (d', more) := Foreign(CodecOf(p), d, u + y);
            && Owes(p, d', z, [], g') && more + Shown(p, g') == u + Shown(p, y + z)
            && Left(p, g') == Left(p, y + z)
  {
    var k := Scan(y).0;
    AsciiShown(p, y, z);
    Assoc(u, y[..k], Shown(p, y[k..] + z));
    ForeignIs(CodecOf(p), d, u, y, k);
    g' := ConvertBeyond(p, d, y[k..], z);
    Assoc(u + y[..k], Converted(CodecOf(p), d, y[k..]).1, Shown(p, g'));
  }

  lemma SplitsAt(u: seq<byte>, y: seq<byte>, k: nat)
    requires k <= |y|
    ensures (u + y)[..|u| + k] == u + y[..k] && (u + y)[|u| + k..] == y[k..]
  {
  }

  lemma ConvertBeyond(p: Page, d: Decoder, y: seq<byte>, z: seq<byte>) returns (g': seq<byte>)
    requires Sane(p) && !d.passthrough && Ok(p, y + z)
    ensures var (d', out) := Converted(CodecOf(p), d, y);
            && Owes(p, d', z, [], g') && out + Shown(p, g') == Shown(p, y + z)
            && Left(p, g') == Left(p, y + z)
  {
    var h := SplitAt(p, y);
    HeadShown(p, y, z);
    SplitRest(p, y);
    g' := y[h..] + z;
  }

  lemma StepOwes(p: Page, d: Decoder, chunk: seq<byte>, z: seq<byte>, u: seq<byte>, g: seq<byte>)
    returns (u': seq<byte>, g': seq<byte>)
    requires Sane(p) && Owes(p, d, chunk + z, u, g)
    ensures var (d', more) := Step(CodecOf(p), d, chunk);
            Owes(p, d', z, u', g') && more + Due(p, u', g') == Due(p, u, g) && Left(p, g') == Left(p, g)
  {
    var buf := d.pending + chunk;
    Assoc(d.pending, chunk, z);
    if chunk == [] {
      assert chunk + z == z;
      u', g' := u, g;
    } else if |buf| <= |u| {
      var v := u[|buf|..];
      Overlap(buf, z, u, g);
      u' := StepInside(p, d, buf, v, z, g);
      g' := g;
      Assoc(Accepted(d, buf).1, u', Shown(p, g));
    } else {
      var y := buf[|u|..];
      Overlap(u, g, buf, z);
      g' := StepBeyond(p, d, u, y, z);
      u' := [];
    }
  }

  /** Two ways to cut the same bytes. */
  lemma Overlap(a: seq<byte>, b: seq<byte>, c: seq<byte>, e: seq<byte>)
    requires a + b == c + e && |a| <= |c|
    ensures c == a + c[|a|..] && b == c[|a|..] + e
  {
    assert a == (a + b)[..|a|] && c == (c + e)[..|c|];
    assert b == (a + b)[|a|..];
  }

  lemma {:induction false} RunOwes(p: Page, chunks: seq<seq<byte>>, z: seq<byte>, u: seq<byte>, g: seq<byte>)
    returns (u': seq<byte>, g': seq<byte>)
    requires Sane(p) && Concat(chunks) + z == u + g && WellFormed(u) && Ok(p, g)
    ensures var (d, out) := Run(CodecOf(p), chunks);
            Owes(p, d, z, u', g') && out + Due(p, u', g') == Due(p, u, g) && Left(p, g') == Left(p, g)
    decreases |chunks|
  {
    if chunks == [] {
      u', g' := u, g;
    } else {
      var init, chunk := chunks[..|chunks| - 1], chunks[|chunks| - 1];
      Assoc(Concat(init), chunk, z);
      u', g' := RunOwes(p, init, chunk + z, u, g);
      var (d, out) := Run(CodecOf(p), init);
      var (d', more) := Step(CodecOf(p), d, chunk);
      u', g' := StepOwes(p, d, chunk, z, u', g');
      Assoc(out, more, Due(p, u', g'));
    }
  }

  /** What is held back at the end is half a character. */
  lemma HeldBack(p: Page, d: Decoder, u: seq<byte>, g: seq<byte>)
    requires Owes(p, d, [], u, g) && d.pending != []
    ensures u == [] && g == d.pending && Dangling(p, g) && (d.pendingUTF8 ==> Need(g[0]) > 0)
  {
    assert d.pending + [] == d.pending;
    ScanAfter(u, g);
  }

  lemma FlushHalf(p: Page, d: Decoder)
    requires Sane(p) && !d.passthrough && Dangling(p, d.pending) && (d.pendingUTF8 ==> Need(d.pending[0]) > 0)
    ensures Flush(CodecOf(p), d) == Shown(p, d.pending)
  {
    var b := d.pending;
    assert b == [b[0]] && b[..1] == b && Transcode(p, b[1..]) == Some([]);
  }

  lemma FlushDue(p: Page, d: Decoder, u: seq<byte>, g: seq<byte>)
    requires Sane(p) && Owes(p, d, [], u, g)
    ensures Flush(CodecOf(p), d) == Due(p, u, g) && (Left(p, g) == 0 ==> d.pending == [])
  {
    if d.pending != [] {
      HeldBack(p, d, u, g);
      FlushHalf(p, d);
    } else {
      assert u == [] && g == [];
    }
  }

  /** Output that is UTF-8 up to a point and in the code page from there on comes out as UTF-8 throughout, whatever
      the writes: the first part as it is, the second converted. */
  lemma LegacyConverted(p: Page, chunks: seq<seq<byte>>, u: seq<byte>, g: seq<byte>)
    requires Sane(p) && Concat(chunks) == u + g && WellFormed(u) && Converts(p, g) && Legacy(p, g)
    ensures Output(CodecOf(p), chunks) == u + Shown(p, g)
    ensures Left(p, g) == 0 ==>
              && Transcode(p, g) == Some(Shown(p, g))
              && Run(CodecOf(p), chunks).0.pending == [] && !Run(CodecOf(p), chunks).0.passthrough
  {
    assert Concat(chunks) + [] == u + g;
    var u', g' := RunOwes(p, chunks, [], u, g);
    FlushDue(p, Run(CodecOf(p), chunks).0, u', g');
    ShownIsTranscode(p, g);
  }

  /** The encoding may change back: after code page text that ended with a write, what follows is decoded as if it were
      a stream of its own. */
  lemma EachInItsOwn(p: Page, init: seq<seq<byte>>, u: seq<byte>, g: seq<byte>, rest: seq<seq<byte>>, u': seq<byte>,
                     g': seq<byte>)
    requires Sane(p) && Concat(init) == u + g && WellFormed(u) && Ok(p, g) && Left(p, g) == 0
    requires Concat(rest) == u' + g' && WellFormed(u') && Ok(p, g')
    ensures Output(CodecOf(p), init + rest) == u + Shown(p, g) + (u' + Shown(p, g'))
  {
    LegacyConverted(p, init, u, g);
    LegacyConverted(p, rest, u', g');
    StartsAfresh(CodecOf(p), init, rest);
  }
}
