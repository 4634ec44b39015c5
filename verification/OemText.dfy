/**
 The decoding writer of internal/agent/tools/oemtext.go, in front of the bounded stream, as exec.go uses them.

 The code page conversion and the search for a trailing half character are system calls; they are parameters here.
 */
module OemText {
  import opened Options
  import opened Bytes
  import opened Utf8
  import opened Truncate

  datatype Codec = Codec(transcode: seq<byte> -> Option<seq<byte>>, split: seq<byte> -> (seq<byte>, seq<byte>))

  datatype Decoder = Decoder(pending: seq<byte>, pendingUTF8: bool, passthrough: bool)

  const IDLE := Decoder([], false, false)
  const MAX_PENDING: nat := 4

  // ---------- one write and the flush, on values ----------

  /** The new state and the bytes passed on. */
  function Step(c: Codec, d: Decoder, p: seq<byte>): (Decoder, seq<byte>) {
    if p == [] then (d, [])
    else
      var buf := d.pending + p;
      if d.passthrough then (d.(pending := []), buf)
      else if Scan(buf).1 then Accepted(d, buf)
      else Foreign(c, d, buf)
  }

  function Accepted(d: Decoder, buf: seq<byte>): (Decoder, seq<byte>) {
    var n := Scan(buf).0;
    if 0 < |buf| - n <= MAX_PENDING then (d.(pending := buf[n..], pendingUTF8 := true), buf[..n])
    else (d.(pending := []), buf)
  }

  function Foreign(c: Codec, d: Decoder, buf: seq<byte>): (Decoder, seq<byte>) {
    var n := Scan(buf).0;
    var (d', out) := Converted(c, d, buf[n..]);
    (d', buf[..n] + out)
  }

  /** Bytes that begin with something illegal. */
  function Converted(c: Codec, d: Decoder, rest: seq<byte>): (Decoder, seq<byte>) {
    var (head, tail) := c.split(rest);
    if head == [] then (d.(pending := tail, pendingUTF8 := false), [])
    else match c.transcode(head)
      case None => (d.(pending := [], passthrough := true), rest)
      case Some(text) => (d.(pending := tail, pendingUTF8 := false), text)
  }

  function Flush(c: Codec, d: Decoder): seq<byte> {
    if d.pending != [] && !d.pendingUTF8 && !d.passthrough && c.transcode(d.pending).Some?
    then c.transcode(d.pending).value
    else d.pending
  }

  function Run(c: Codec, chunks: seq<seq<byte>>): (Decoder, seq<byte>) {
    if chunks == [] then (IDLE, [])
    else
      var (d, out) := Run(c, chunks[..|chunks| - 1]);
      var (d', more) := Step(c, d, chunks[|chunks| - 1]);
      (d', out + more)
  }

  function Output(c: Codec, chunks: seq<seq<byte>>): seq<byte> {
    Run(c, chunks).1 + Flush(c, Run(c, chunks).0)
  }

  // ---------- accepted text ----------

  /** While the text is UTF-8: what went out is whole characters, what is held back is the start of one. */
  predicate Clean(d: Decoder, input: seq<byte>, out: seq<byte>) {
    && out + d.pending == input && WellFormed(out)
    && !d.passthrough && (d.pending != [] ==> d.pendingUTF8)
  }

  lemma AcceptedClean(d: Decoder, out: seq<byte>, buf: seq<byte>)
    requires WellFormed(out) && !d.passthrough && Scan(buf).1
    ensures var (d', more) := Accepted(d, buf); Clean(d', out + buf, out + more)
  {
    var (d', more) := Accepted(d, buf);
    AcceptedSplits(d, buf);
    JoinWellFormed(out, more);
    Assoc(out, more, d'.pending);
  }

  lemma AcceptedSplits(d: Decoder, buf: seq<byte>)
    requires Scan(buf).1
    ensures var (d', more) := Accepted(d, buf);
            && more + d'.pending == buf && WellFormed(more)
            && d'.passthrough == d.passthrough && (d'.pending != [] ==> d'.pendingUTF8)
  {
    ScanSplits(buf);
    AcceptedAdds(d, buf);
  }

  lemma AcceptedAdds(d: Decoder, buf: seq<byte>)
    ensures var (d', more) := Accepted(d, buf); more + d'.pending == buf && (more == buf || more == buf[..Scan(buf).0])
  {
    Cut(buf, Scan(buf).0);
  }

  lemma StepClean(c: Codec, d: Decoder, input: seq<byte>, out: seq<byte>, p: seq<byte>)
    requires Clean(d, input, out) && Scan(input + p).1
    ensures var (d', more) := Step(c, d, p); Clean(d', input + p, out + more)
  {
    if p == [] {
      assert input + p == input && out + [] == out;
    } else {
      var buf := d.pending + p;
      assert input + p == out + buf;
      ScanAfter(out, buf);
      AcceptedClean(d, out, buf);
    }
  }

  lemma {:induction false} RunClean(c: Codec, chunks: seq<seq<byte>>)
    requires Scan(Concat(chunks)).1
    ensures Clean(Run(c, chunks).0, Concat(chunks), Run(c, chunks).1)
    decreases |chunks|
  {
    if chunks != [] {
      var init, p := chunks[..|chunks| - 1], chunks[|chunks| - 1];
      PrefixAccepted(Concat(init), p);
      RunClean(c, init);
      var (d, out) := Run(c, init);
      StepClean(c, d, Concat(init), out, p);
    }
  }

  /** Accepted text passes unchanged, however it is cut into writes and whatever the code page conversion would do. */
  lemma AcceptedUnchanged(c: Codec, chunks: seq<seq<byte>>)
    requires Scan(Concat(chunks)).1
    ensures Output(c, chunks) == Concat(chunks)
  {
    RunClean(c, chunks);
  }

  // ---------- no code page ----------

  /** Conversion always fails, as on every system but Windows, and splitting loses nothing. */
  ghost predicate NoCodePage(c: Codec) {
    && (forall b :: c.transcode(b) == None)
    && (forall b :: c.split(b).0 + c.split(b).1 == b)
  }

  lemma StepPasses(c: Codec, d: Decoder, input: seq<byte>, out: seq<byte>, p: seq<byte>)
    requires NoCodePage(c) && out + d.pending == input
    ensures var (d', more) := Step(c, d, p); out + more + d'.pending == input + p
  {
    if p == [] {
      assert input + p == input && out + [] == out;
    } else {
      var buf := d.pending + p;
      var (d', more) := Step(c, d, p);
      if !d.passthrough && Scan(buf).1 {
        AcceptedSplits(d, buf);
      } else if !d.passthrough {
        ForeignPasses(c, d, buf);
      }
      assert more + d'.pending == buf;
      Assoc(out, d.pending, p);
      Assoc(out, more, d'.pending);
    }
  }

  lemma ForeignPasses(c: Codec, d: Decoder, buf: seq<byte>)
    requires NoCodePage(c)
    ensures var (d', more) := Foreign(c, d, buf); more + d'.pending == buf
  {
    var n := Scan(buf).0;
    ConvertedPasses(c, d, buf[n..]);
    var (d', out) := Converted(c, d, buf[n..]);
    Assoc(buf[..n], out, d'.pending);
    Cut(buf, n);
  }

  lemma ConvertedPasses(c: Codec, d: Decoder, rest: seq<byte>)
    requires NoCodePage(c)
    ensures var (d', out) := Converted(c, d, rest); out + d'.pending == rest
  {
    assert c.split(rest).0 + c.split(rest).1 == rest;
  }

  lemma {:induction false} RunPasses(c: Codec, chunks: seq<seq<byte>>)
    requires NoCodePage(c)
    ensures Run(c, chunks).1 + Run(c, chunks).0.pending == Concat(chunks)
    decreases |chunks|
  {
    if chunks != [] {
      var init, p := chunks[..|chunks| - 1], chunks[|chunks| - 1];
      RunPasses(c, init);
      var (d, out) := Run(c, init);
      StepPasses(c, d, Concat(init), out, p);
    }
  }

  /** Any bytes at all pass unchanged when there is no code page to convert from. */
  lemma NoCodePageUnchanged(c: Codec, chunks: seq<seq<byte>>)
    requires NoCodePage(c)
    ensures Output(c, chunks) == Concat(chunks)
  {
    RunPasses(c, chunks);
  }

  // ---------- between two texts ----------

  /** The flag of an empty remnant does not matter. */
  predicate Alike(d: Decoder, e: Decoder) {
    d.pending == e.pending && d.passthrough == e.passthrough && (d.pending != [] ==> d.pendingUTF8 == e.pendingUTF8)
  }

  lemma StepAlike(c: Codec, d: Decoder, e: Decoder, p: seq<byte>)
    requires Alike(d, e)
    ensures var (d', out), (e', out') := Step(c, d, p), Step(c, e, p); Alike(d', e') && out == out'
  {
  }

  lemma {:induction false} RunAfresh(c: Codec, init: seq<seq<byte>>, rest: seq<seq<byte>>)
    requires Alike(Run(c, init).0, IDLE)
    ensures Alike(Run(c, init + rest).0, Run(c, rest).0)
    ensures Run(c, init + rest).1 == Run(c, init).1 + Run(c, rest).1
    decreases |rest|
  {
    if rest == [] {
      assert init + rest == init;
    } else {
      var k := |rest| - 1;
      RunAfresh(c, init, rest[..k]);
      assert (init + rest)[..|init + rest| - 1] == init + rest[..k];
      StepAlike(c, Run(c, init + rest[..k]).0, Run(c, rest[..k]).0, rest[k]);
      Assoc(Run(c, init).1, Run(c, rest[..k]).1, Step(c, Run(c, rest[..k]).0, rest[k]).1);
    }
  }

  /** When nothing is held back and the decoder has not given up, what follows is decoded on its own. */
  lemma StartsAfresh(c: Codec, init: seq<seq<byte>>, rest: seq<seq<byte>>)
    requires Run(c, init).0.pending == [] && !Run(c, init).0.passthrough
    ensures Output(c, init + rest) == Output(c, init) + Output(c, rest)
  {
    RunAfresh(c, init, rest);
    Assoc(Run(c, init).1, Run(c, rest).1, Flush(c, Run(c, rest).0));
  }

  // ---------- binary data ----------

  /** The decoder has given up: everything so far has come out as it went in. */
  predicate GaveUp(d: Decoder, input: seq<byte>, out: seq<byte>) { d.passthrough && d.pending == [] && out == input }

  lemma GivesUp(c: Codec, d: Decoder, input: seq<byte>, out: seq<byte>, p: seq<byte>)
    requires Clean(d, input, out) && p != [] && !Scan(input + p).1
    requires var head := c.split((input + p)[Scan(input + p).0..]).0; head != [] && c.transcode(head) == None
    ensures var (d', more) := Step(c, d, p); GaveUp(d', input + p, out + more)
  {
    var buf := d.pending + p;
    Assoc(out, d.pending, p);
    ScanAfter(out, buf);
    var n := Scan(buf).0;
    assert (out + buf)[|out| + n..] == buf[n..];
    Cut(buf, n);
  }

  lemma {:induction false} StaysGivenUp(c: Codec, init: seq<seq<byte>>, rest: seq<seq<byte>>)
    requires var (d, out) := Run(c, init); GaveUp(d, Concat(init), out)
    ensures var (d, out) := Run(c, init + rest); GaveUp(d, Concat(init + rest), out)
    decreases |rest|
  {
    if rest == [] {
      assert init + rest == init;
    } else {
      var k := |rest| - 1;
      StaysGivenUp(c, init, rest[..k]);
      assert (init + rest)[..|init + rest| - 1] == init + rest[..k];
    }
  }

  /** Bytes that are neither UTF-8 nor text of the code page pass unchanged, and so does everything after them. */
  lemma BinaryUnchanged(c: Codec, init: seq<seq<byte>>, p: seq<byte>, rest: seq<seq<byte>>)
    requires Scan(Concat(init)).1 && !Scan(Concat(init) + p).1
    requires var s := Concat(init) + p;
             var head := c.split(s[Scan(s).0..]).0;
             head != [] && c.transcode(head) == None
    ensures Output(c, init + [p] + rest) == Concat(init + [p] + rest)
  {
    RunClean(c, init);
    assert p == [] ==> Concat(init) + p == Concat(init);
    GivesUp(c, Run(c, init).0, Concat(init), Run(c, init).1, p);
    assert (init + [p])[..|init + [p]| - 1] == init;
    StaysGivenUp(c, init + [p], rest);
  }

  // ---------- the writer ----------

  class DecodingWriter {
    const dst: BoundedStream
    const c: Codec
    var pending: seq<byte>
    var pendingUTF8: bool
    var passthrough: bool

    function Value(): Decoder
      reads this
    {
      Decoder(pending, pendingUTF8, passthrough)
    }

    constructor (dst: BoundedStream, c: Codec)
      ensures this.dst == dst && this.c == c && Value() == IDLE
    {
      this.dst, this.c := dst, c;
      pending, pendingUTF8, passthrough := [], false, false;
    }

    method KeepPending(b: seq<byte>, isUTF8: bool)
      modifies this
      ensures Value() == Decoder(b, isUTF8, old(passthrough))
    {
      pending, pendingUTF8 := b, isUTF8;
    }

    method WriteAccepted(buf: seq<byte>, complete: nat)
      requires dst.Valid() && Scan(buf) == (complete, true) && buf != [] && pending == []
      modifies this, dst
      ensures dst.Valid()
      ensures Value() == Accepted(old(Value()), buf).0
      ensures dst.whole == old(dst.whole) + Accepted(old(Value()), buf).1
    {
      var n := complete;
      if 0 < |buf| - n <= MAX_PENDING {
        KeepPending(buf[n..], true);
      } else {
        n := |buf|;
        assert buf[..n] == buf;
      }
      if n != 0 {
        var _ := dst.Write(buf[..n]);
      }
    }

    method WriteForeign(buf: seq<byte>, complete: nat)
      requires dst.Valid() && Scan(buf) == (complete, false) && pending == []
      modifies this, dst
      ensures dst.Valid()
      ensures Value() == Foreign(c, old(Value()), buf).0
      ensures dst.whole == old(dst.whole) + Foreign(c, old(Value()), buf).1
    {
      ghost var before := dst.whole;
      if complete > 0 {
        var _ := dst.Write(buf[..complete]);
      }
      assert dst.whole == before + buf[..complete];
      Assoc(before, buf[..complete], Converted(c, Value(), buf[complete..]).1);
      Convert(buf[complete..]);
    }

    method Convert(rest: seq<byte>)
      requires dst.Valid() && pending == []
      modifies this, dst
      ensures dst.Valid()
      ensures Value() == Converted(c, old(Value()), rest).0
      ensures dst.whole == old(dst.whole) + Converted(c, old(Value()), rest).1
    {
      var (head, tail) := c.split(rest);
      if |head| == 0 {
        KeepPending(tail, false);
        return;
      }
      var text := c.transcode(head);
      if text.None? {
        passthrough := true;
        var _ := dst.Write(rest);
        return;
      }
      KeepPending(tail, false);
      var _ := dst.Write(text.value);
    }

    method Write(p: seq<byte>) returns (n: nat)
      requires dst.Valid()
      modifies this, dst
      ensures dst.Valid() && n == |p|
      ensures Value() == Step(c, old(Value()), p).0
      ensures dst.whole == old(dst.whole) + Step(c, old(Value()), p).1
    {
      n := |p|;
      if n == 0 {
        return;
      }
      var buf := pending + p;
      pending := [];
      if passthrough {
        var _ := dst.Write(buf);
        return;
      }
      var complete, ok := ScanUTF8(buf);
      if ok {
        WriteAccepted(buf, complete);
      } else {
        WriteForeign(buf, complete);
      }
    }

    method FlushAll()
      requires dst.Valid()
      modifies this, dst
      ensures dst.Valid() && dst.whole == old(dst.whole) + Flush(c, old(Value()))
    {
      if |pending| == 0 {
        return;
      }
      var b := pending;
      pending := [];
      if !pendingUTF8 && !passthrough {
        var text := c.transcode(b);
        if text.Some? {
          var _ := dst.Write(text.value);
          return;
        }
      }
      var _ := dst.Write(b);
    }
  }

  /** The output side of exec: every chunk the command writes, then the flush, then the bounded result. */
  method Collect(w: Wording, c: Codec, chunks: seq<seq<byte>>, max: int) returns (out: seq<byte>, truncated: bool)
    ensures (out, truncated) == TruncateMiddle(w, Output(c, chunks), if max < 1 then 1 else max)
    ensures Scan(Concat(chunks)).1 || NoCodePage(c) ==>
              (out, truncated) == TruncateMiddle(w, Concat(chunks), if max < 1 then 1 else max)
  {
    var buf := new BoundedStream(w, max);
    var dec := new DecodingWriter(buf, c);
    var i := 0;
    assert chunks[..0] == [];
    while i < |chunks|
      invariant i <= |chunks| && buf.Valid() && dec.dst == buf && dec.c == c
      invariant (dec.Value(), buf.whole) == Run(c, chunks[..i])
    {
      assert chunks[..i + 1][..i] == chunks[..i];
      var _ := dec.Write(chunks[i]);
      i := i + 1;
    }
    assert chunks[..i] == chunks;
    dec.FlushAll();
    if Scan(Concat(chunks)).1 {
      AcceptedUnchanged(c, chunks);
    } else if NoCodePage(c) {
      NoCodePageUnchanged(c, chunks);
    }
    out, truncated := buf.Result();
  }
}
