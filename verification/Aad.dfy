/**
 The associated data of internal/proto/aad.go: a tag and the plaintext header fields, strings behind their length.
 */
module Aad {
  import opened Bytes

  /** A string behind its length, which is cut to 32 bits. */
  function Str(s: seq<byte>): (bs: seq<byte>)
    ensures |bs| == 4 + |s|
  {
    PutBE(|s|, 4) + s
  }

  function Flag(b: bool): (bs: seq<byte>)
    ensures |bs| == 1
  {
    [if b then 1 else 0]
  }

  const REQ_TAG: seq<byte> := [114, 101, 113]
  const RESP_TAG: seq<byte> := [114, 101, 115, 112]
  const CHUNK_TAG: seq<byte> := [99, 104, 117, 110, 107]

  function ToolReqAAD(id: nat, tool: seq<byte>, deadlineMs: nat): seq<byte> {
    Str(REQ_TAG) + PutBE(id, 8) + Str(tool) + PutBE(deadlineMs, 4)
  }

  function ToolRespAAD(id: nat, ok: bool, code: seq<byte>, msg: seq<byte>): seq<byte> {
    Str(RESP_TAG) + PutBE(id, 8) + Flag(ok) + Str(code) + Str(msg)
  }

  function StreamChunkAAD(id: nat, seq_: nat, stream: seq<byte>, fin: bool): seq<byte> {
    Str(CHUNK_TAG) + PutBE(id, 8) + PutBE(seq_, 4) + Str(stream) + Flag(fin)
  }

  // ---------- injectivity ----------

  /** Equal concatenations with equally long fronts agree in front and behind. */
  lemma SplitAt(a: seq<byte>, b: seq<byte>, x: seq<byte>, y: seq<byte>)
    requires a + b == x + y && |a| == |x|
    ensures a == x && b == y
  {
    assert (a + b)[..|a|] == a && (x + y)[..|x|] == x;
    assert (a + b)[|a|..] == b && (x + y)[|x|..] == y;
  }

  lemma PutSame(m: nat, n: nat, width: nat)
    requires (width == 4 && m < U32 && n < U32) || (width == 8 && m < U64 && n < U64)
    requires PutBE(m, width) == PutBE(n, width)
    ensures m == n
  {
    Widths();
    PutInjective(m, n, width);
  }

  /** A stream frame's header can be read off its associated data: no two headers share it. */
  lemma ChunkInjective(id: nat, q: nat, stream: seq<byte>, fin: bool, id': nat, q': nat, stream': seq<byte>, fin': bool)
    requires id < U64 && id' < U64 && q < U32 && q' < U32
    requires StreamChunkAAD(id, q, stream, fin) == StreamChunkAAD(id', q', stream', fin')
    ensures (id, q, stream, fin) == (id', q', stream', fin')
  {
    var a, a' := Str(CHUNK_TAG) + PutBE(id, 8) + PutBE(q, 4) + Str(stream),
      Str(CHUNK_TAG) + PutBE(id', 8) + PutBE(q', 4) + Str(stream');
    assert |a + Flag(fin)| == |a' + Flag(fin')|;
    SplitAt(a, Flag(fin), a', Flag(fin'));
    SplitAt(Str(CHUNK_TAG) + PutBE(id, 8) + PutBE(q, 4), Str(stream), Str(CHUNK_TAG) + PutBE(id', 8) + PutBE(q', 4),
            Str(stream'));
    SplitAt(PutBE(|stream|, 4), stream, PutBE(|stream'|, 4), stream');
    SplitAt(Str(CHUNK_TAG) + PutBE(id, 8), PutBE(q, 4), Str(CHUNK_TAG) + PutBE(id', 8), PutBE(q', 4));
    SplitAt(Str(CHUNK_TAG), PutBE(id, 8), Str(CHUNK_TAG), PutBE(id', 8));
    PutSame(id, id', 8);
    PutSame(q, q', 4);
  }

  lemma ReqInjective(id: nat, tool: seq<byte>, dl: nat, id': nat, tool': seq<byte>, dl': nat)
    requires id < U64 && id' < U64 && dl < U32 && dl' < U32
    requires ToolReqAAD(id, tool, dl) == ToolReqAAD(id', tool', dl')
    ensures (id, tool, dl) == (id', tool', dl')
  {
    var a, a' := Str(REQ_TAG) + PutBE(id, 8), Str(REQ_TAG) + PutBE(id', 8);
    assert |a + Str(tool) + PutBE(dl, 4)| == |a' + Str(tool') + PutBE(dl', 4)|;
    SplitAt(a + Str(tool), PutBE(dl, 4), a' + Str(tool'), PutBE(dl', 4));
    SplitAt(a, Str(tool), a', Str(tool'));
    SplitAt(PutBE(|tool|, 4), tool, PutBE(|tool'|, 4), tool');
    SplitAt(Str(REQ_TAG), PutBE(id, 8), Str(REQ_TAG), PutBE(id', 8));
    PutSame(id, id', 8);
    PutSame(dl, dl', 4);
  }

  lemma Regroup(a: seq<byte>, b: seq<byte>, c: seq<byte>, d: seq<byte>)
    ensures a + (b + c) + d == a + (b + (c + d)) && a + b + c + d == a + (b + c + d) && a + b + c == a + (b + c)
  {
  }

  /** With two strings the first one's length has to be told apart, so it must fit its 32-bit prefix. */
  lemma RespInjective(id: nat, ok: bool, code: seq<byte>, msg: seq<byte>, id': nat, ok': bool, code': seq<byte>,
                      msg': seq<byte>)
    requires id < U64 && id' < U64 && |code| < U32 && |code'| < U32
    requires ToolRespAAD(id, ok, code, msg) == ToolRespAAD(id', ok', code', msg')
    ensures (id, ok, code, msg) == (id', ok', code', msg')
  {
    var a, a' := Str(RESP_TAG) + PutBE(id, 8) + Flag(ok), Str(RESP_TAG) + PutBE(id', 8) + Flag(ok');
    var n, n' := PutBE(|code|, 4), PutBE(|code'|, 4);
    Regroup(a, n, code, Str(msg));
    Regroup(a', n', code', Str(msg'));
    SplitAt(a, n + (code + Str(msg)), a', n' + (code' + Str(msg')));
    SplitAt(n, code + Str(msg), n', code' + Str(msg'));
    PutSame(|code|, |code'|, 4);
    SplitAt(code, Str(msg), code', Str(msg'));
    RespTail(msg, msg');
    SplitAt(Str(RESP_TAG) + PutBE(id, 8), Flag(ok), Str(RESP_TAG) + PutBE(id', 8), Flag(ok'));
    SplitAt(Str(RESP_TAG), PutBE(id, 8), Str(RESP_TAG), PutBE(id', 8));
    PutSame(id, id', 8);
  }

  /** A string behind its length can be read off the front, whatever follows: no two strings and remainders share the
      bytes, as long as the length fits its prefix. */
  lemma StrPrefixFree(s: seq<byte>, rest: seq<byte>, s': seq<byte>, rest': seq<byte>)
    requires |s| < U32 && |s'| < U32 && Str(s) + rest == Str(s') + rest'
    ensures s == s' && rest == rest'
  {
    Regroup(PutBE(|s|, 4), s, rest, []);
    Regroup(PutBE(|s'|, 4), s', rest', []);
    SplitAt(PutBE(|s|, 4), s + rest, PutBE(|s'|, 4), s' + rest');
    PutSame(|s|, |s'|, 4);
    SplitAt(s, rest, s', rest');
  }

  // ---------- where the length prefix of an error code stops telling lengths apart ----------

  function Zeros(n: nat): (z: seq<byte>)
    ensures |z| == n && forall i :: 0 <= i < n ==> z[i] == 0
  {
    seq(n, _ => 0)
  }

  lemma {:induction false} PutZero(width: nat)
    ensures PutBE(0, width) == Zeros(width)
  {
    if width > 0 { PutZero(width - 1); }
  }

  lemma PutCut()
    ensures PutBE(U32, 4) == Zeros(4) && PutBE(0, 4) == Zeros(4)
  {
    PutZero(4);
    assert PutBE(0x1_0000_00, 3) == PutBE(0x1_0000, 2) + [0];
    assert PutBE(0x1_0000, 2) == PutBE(0x100, 1) + [0];
    assert PutBE(0x100, 1) == PutBE(1, 0) + [0];
  }

  lemma AllZero(a: seq<byte>, b: seq<byte>)
    requires |a| == |b| && (forall i :: 0 <= i < |a| ==> a[i] == 0) && forall i :: 0 <= i < |b| ==> b[i] == 0
    ensures a == b
  {
  }

  /** An empty code with a message of 2^32 zeros, and a code of 2^32 zeros with an empty message. */
  lemma RespAmbiguous(id: nat, ok: bool)
    ensures ToolRespAAD(id, ok, [], Zeros(U32)) == ToolRespAAD(id, ok, Zeros(U32), [])
  {
    PutCut();
    var a, z := Str(RESP_TAG) + PutBE(id, 8) + Flag(ok), Zeros(U32);
    AllZero(Str([]) + Str(z), Str(z) + Str([]));
    Regroup(a, Str([]), Str(z), []);
    Regroup(a, Str(z), Str([]), []);
  }

  ghost predicate RespClash(id: nat, ok: bool, code: seq<byte>, msg: seq<byte>, code': seq<byte>, msg': seq<byte>) {
    ToolRespAAD(id, ok, code, msg) == ToolRespAAD(id, ok, code', msg') && (code, msg) != (code', msg')
  }

  /** Responses with error codes shorter than a limit are told apart if and only if the limit is at most 2^32. */
  lemma RespInjectiveIff(id: nat, ok: bool, limit: nat)
    requires id < U64
    ensures (forall code, msg, code', msg' ::
               |code| < limit && |code'| < limit ==> !RespClash(id, ok, code, msg, code', msg')) <==> limit <= U32
  {
    if limit <= U32 {
      forall code, msg, code', msg' | |code| < limit && |code'| < limit
        ensures !RespClash(id, ok, code, msg, code', msg') {
        if RespClash(id, ok, code, msg, code', msg') {
          RespInjective(id, ok, code, msg, id, ok, code', msg');
        }
      }
    } else {
      RespAmbiguous(id, ok);
      assert RespClash(id, ok, [], Zeros(U32), Zeros(U32), []);
    }
  }

  lemma RespTail(msg: seq<byte>, msg': seq<byte>)
    requires Str(msg) == Str(msg')
    ensures msg == msg'
  {
    SplitAt(PutBE(|msg|, 4), msg, PutBE(|msg'|, 4), msg');
  }

  /** Data that begins with one tag never equals data that begins with another. */
  lemma TagsApart(t: seq<byte>, rest: seq<byte>, t': seq<byte>, rest': seq<byte>)
    requires |t| < U32 && |t'| < U32 && t != t'
    ensures Str(t) + rest != Str(t') + rest'
  {
    if Str(t) + rest == Str(t') + rest' {
      StrPrefixFree(t, rest, t', rest');
    }
  }

  lemma ReqStarts(id: nat, tool: seq<byte>, dl: nat) returns (rest: seq<byte>)
    ensures ToolReqAAD(id, tool, dl) == Str(REQ_TAG) + rest
  {
    rest := PutBE(id, 8) + Str(tool) + PutBE(dl, 4);
    Regroup(Str(REQ_TAG), PutBE(id, 8), Str(tool), PutBE(dl, 4));
  }

  lemma RespStarts(id: nat, ok: bool, code: seq<byte>, msg: seq<byte>) returns (rest: seq<byte>)
    ensures ToolRespAAD(id, ok, code, msg) == Str(RESP_TAG) + rest
  {
    rest := PutBE(id, 8) + Flag(ok) + (Str(code) + Str(msg));
    Regroup(Str(RESP_TAG), PutBE(id, 8), Flag(ok), Str(code) + Str(msg));
    Regroup(Str(RESP_TAG) + PutBE(id, 8) + Flag(ok), Str(code), Str(msg), []);
  }

  lemma ChunkStarts(id: nat, q: nat, stream: seq<byte>, fin: bool) returns (rest: seq<byte>)
    ensures StreamChunkAAD(id, q, stream, fin) == Str(CHUNK_TAG) + rest
  {
    rest := PutBE(id, 8) + PutBE(q, 4) + (Str(stream) + Flag(fin));
    Regroup(Str(CHUNK_TAG), PutBE(id, 8), PutBE(q, 4), Str(stream) + Flag(fin));
    Regroup(Str(CHUNK_TAG) + PutBE(id, 8) + PutBE(q, 4), Str(stream), Flag(fin), []);
  }

  /** A request, a response and a stream frame never share their associated data. */
  lemma KindsApart(id: nat, tool: seq<byte>, dl: nat, id': nat, ok: bool, code: seq<byte>, msg: seq<byte>,
                   id'': nat, q: nat, stream: seq<byte>, fin: bool)
    ensures ToolReqAAD(id, tool, dl) != ToolRespAAD(id', ok, code, msg)
    ensures ToolReqAAD(id, tool, dl) != StreamChunkAAD(id'', q, stream, fin)
    ensures ToolRespAAD(id', ok, code, msg) != StreamChunkAAD(id'', q, stream, fin)
  {
    var r := ReqStarts(id, tool, dl);
    var p := RespStarts(id', ok, code, msg);
    var c := ChunkStarts(id'', q, stream, fin);
    TagsApart(REQ_TAG, r, RESP_TAG, p);
    TagsApart(REQ_TAG, r, CHUNK_TAG, c);
    TagsApart(RESP_TAG, p, CHUNK_TAG, c);
  }

  // ---------- the builder ----------

  class Builder {
    var buf: seq<byte>

    constructor (tag: seq<byte>)
      ensures buf == Str(tag)
    {
      new;
      buf := [];
      AddString(tag);
    }

    method AddString(s: seq<byte>)
      modifies this
      ensures buf == old(buf) + Str(s)
    {
      buf := buf + PutBE(|s|, 4);
      buf := buf + s;
    }

    method AddUint(v: nat, width: nat)
      modifies this
      ensures buf == old(buf) + PutBE(v, width)
    {
      buf := buf + PutBE(v, width);
    }

    method AddBool(v: bool)
      modifies this
      ensures buf == old(buf) + Flag(v)
    {
      var n := 0;
      if v {
        n := 1;
      }
      buf := buf + [n];
    }
  }

  method BuildStreamChunkAAD(id: nat, q: nat, stream: seq<byte>, fin: bool) returns (aad: seq<byte>)
    ensures aad == StreamChunkAAD(id, q, stream, fin)
  {
    var b := new Builder(CHUNK_TAG);
    b.AddUint(id, 8);
    b.AddUint(q, 4);
    b.AddString(stream);
    b.AddBool(fin);
    aad := b.buf;
  }
}
