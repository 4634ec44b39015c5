/**
 The loops of internal/p2p/stun.go, over byte buffers, against the functions of module Stun.
 */
module StunCodec {
  import opened Options
  import opened Bytes
  import opened Stun

  /** copy(buf[off:], src). */
  method Put(buf: array<byte>, off: nat, src: seq<byte>)
    requires off + |src| <= buf.Length
    modifies buf
    ensures buf[..off + |src|] == old(buf[..off]) + src
    ensures forall k :: off + |src| <= k < buf.Length ==> buf[k] == old(buf[k])
  {
    var i := 0;
    while i < |src|
      invariant i <= |src| && buf[..off + i] == old(buf[..off]) + src[..i]
      invariant forall k :: off + i <= k < buf.Length ==> buf[k] == old(buf[k])
    {
      buf[off + i] := src[i];
      assert buf[..off + i + 1] == buf[..off + i] + [src[i]];
      i := i + 1;
    }
    assert src[..i] == src;
  }

  predicate ZeroFrom(buf: array<byte>, off: nat)
    reads buf
  {
    forall k :: off <= k < buf.Length ==> buf[k] == 0
  }

  /** Fields that are left alone in a zeroed buffer read as zeros. */
  lemma Skip(buf: array<byte>, off: nat, n: nat)
    requires off + n <= buf.Length && ZeroFrom(buf, off)
    ensures buf[..off + n] == buf[..off] + Zeros(n)
  {
  }

  lemma Chain(front: seq<byte>, a: Attr, n: nat)
    requires n == (if |a.value| < a.length then |a.value| else a.length)
    ensures front + PutBE(a.typ, 2) + PutBE(a.length, 2) + a.value[..n] + Zeros(a.length - n) + Zeros(Pad(a.length))
            == front + AttrBytes(a)
  {
    assert Fit(a.value, a.length) == a.value[..n] + Zeros(a.length - n);
  }

  method WriteAttr(buf: array<byte>, off: nat, a: Attr) returns (next: nat)
    requires off + Size(a) <= buf.Length && ZeroFrom(buf, off)
    modifies buf
    ensures next == off + Size(a) && buf[..next] == old(buf[..off]) + AttrBytes(a) && ZeroFrom(buf, next)
  {
    Put(buf, off, PutBE(a.typ, 2));
    Put(buf, off + 2, PutBE(a.length, 2));
    var n := if |a.value| < a.length then |a.value| else a.length;
    Put(buf, off + 4, a.value[..n]);
    Skip(buf, off + 4 + n, a.length - n);
    next := off + 4 + a.length;
    var pad := Pad(a.length);
    Skip(buf, next, pad);
    next := next + pad;
    Chain(old(buf[..off]), a, n);
  }

  method TotalLength(m: Message) returns (n: nat)
    ensures n == HEADER_SIZE + BodySize(m.attrs)
  {
    n := HEADER_SIZE;
    var i := 0;
    while i < |m.attrs|
      invariant i <= |m.attrs| && n + BodySize(m.attrs[i..]) == HEADER_SIZE + BodySize(m.attrs)
    {
      assert m.attrs[i..][1..] == m.attrs[i + 1..];
      n := n + 4 + m.attrs[i].length;
      var pad := Pad(m.attrs[i].length);
      if pad > 0 {
        n := n + pad;
      }
      i := i + 1;
    }
  }

  method WriteHeader(buf: array<byte>, m: Message, size: nat)
    requires |m.tid| == 12 && buf.Length >= HEADER_SIZE
    modifies buf
    ensures buf[..HEADER_SIZE] == Header(m, size)
    ensures forall k :: HEADER_SIZE <= k < buf.Length ==> buf[k] == old(buf[k])
  {
    Put(buf, 0, PutBE(m.typ, 2));
    Put(buf, 2, PutBE(size, 2));
    Put(buf, 4, PutBE(m.magic, 4));
    Put(buf, 8, m.tid);
  }

  method WriteBody(buf: array<byte>, attrs: seq<Attr>)
    requires buf.Length == HEADER_SIZE + BodySize(attrs) && ZeroFrom(buf, HEADER_SIZE)
    modifies buf
    ensures buf[..] == old(buf[..HEADER_SIZE]) + Body(attrs)
  {
    ghost var front := buf[..HEADER_SIZE];
    var offset: nat := HEADER_SIZE;
    var i := 0;
    while i < |attrs|
      invariant i <= |attrs| && offset + BodySize(attrs[i..]) == buf.Length && ZeroFrom(buf, offset)
      invariant buf[..offset] + Body(attrs[i..]) == front + Body(attrs)
    {
      assert attrs[i..][1..] == attrs[i + 1..];
      ghost var done, rest := buf[..offset], Body(attrs[i + 1..]);
      offset := WriteAttr(buf, offset, attrs[i]);
      Assoc(done, AttrBytes(attrs[i]), rest);
      i := i + 1;
    }
    assert buf[..] == buf[..offset];
  }

  method Pack(m: Message) returns (buf: array<byte>)
    requires |m.tid| == 12
    ensures fresh(buf) && buf[..] == Packed(m)
  {
    var total := TotalLength(m);
    buf := new byte[total](_ => 0);
    WriteHeader(buf, m, total - HEADER_SIZE);
    WriteBody(buf, m.attrs);
  }

  lemma AttrsAssoc(before: seq<Attr>, a: Attr, after: seq<Attr>)
    ensures before + ([a] + after) == before + [a] + after
  {
  }

  /** One attribute further. */
  lemma ParseTurn(data: seq<byte>, off: nat, end: nat, a: Attr, next: nat, before: seq<Attr>)
    requires off + 4 <= end <= |data| && a.length == GetBE(data[off + 2..off + 4]) && off + 4 + a.length <= end
    requires a.typ == GetBE(data[off..off + 2]) && a.value == data[off + 4..off + 4 + a.length]
    requires next == off + 4 + a.length + Pad(a.length)
    ensures before + ParseAttrs(data, off, end) == before + [a] + ParseAttrs(data, next, end)
  {
    ParseOne(data, off, end, a, next);
    AttrsAssoc(before, a, ParseAttrs(data, next, end));
  }

  method ReadAttrs(data: seq<byte>, expected: nat) returns (attrs: seq<Attr>)
    requires expected <= |data|
    ensures attrs == ParseAttrs(data, HEADER_SIZE, expected)
  {
    attrs := [];
    var offset: nat := HEADER_SIZE;
    while offset < expected
      invariant ParseAttrs(data, HEADER_SIZE, expected) == attrs + ParseAttrs(data, offset, expected)
      decreases expected - offset
    {
      if offset + 4 > expected {
        break;
      }
      var attrType, attrLen := GetBE(data[offset..offset + 2]), GetBE(data[offset + 2..offset + 4]);
      var attrEnd := offset + 4 + attrLen;
      if attrEnd > expected {
        break;
      }
      var a := Attr(attrType, attrLen, data[offset + 4..attrEnd]);
      var next := attrEnd + Pad(attrLen);
      ParseTurn(data, offset, expected, a, next, attrs);
      attrs := attrs + [a];
      offset := next;
    }
  }

  method UnpackSTUN(data: seq<byte>) returns (r: Option<Message>)
    ensures r == Unpacked(data)
  {
    if |data| < HEADER_SIZE {
      return None;
    }
    var typ, length, magic := GetBE(data[..2]), GetBE(data[2..4]), GetBE(data[4..8]);
    if magic != COOKIE {
      return None;
    }
    var expected := HEADER_SIZE + length;
    if |data| < expected {
      return None;
    }
    var attrs := ReadAttrs(data, expected);
    return Some(Message(typ, length, magic, data[8..20], attrs));
  }

  /** The first address attribute, looked for from the front. */
  method GetMappedAddress(m: Message) returns (r: Outcome)
    requires |m.tid| == 12
    ensures r == GetMapped(m)
  {
    var i := 0;
    while i < |m.attrs|
      invariant i <= |m.attrs| && FirstMapped(m.attrs, m.magic, m.tid) == FirstMapped(m.attrs[i..], m.magic, m.tid)
    {
      var a := m.attrs[i];
      assert m.attrs[i..][0] == a && m.attrs[i..][1..] == m.attrs[i + 1..];
      if a.typ == XOR_MAPPED_ADDR || a.typ == MAPPED_ADDR {
        return ParseMapped(a.value, m.magic, m.tid, a.typ == XOR_MAPPED_ADDR);
      }
      i := i + 1;
    }
    return NotFound;
  }
}
