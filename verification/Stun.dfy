/**
 The STUN codec of internal/p2p/stun.go and the reply of internal/p2p/stun_server.go
 (sections 6, 15, 15.1 and 15.2 of RFC 5389).
 */
module Stun {
  import opened Options
  import opened Bytes

  const COOKIE: nat := 0x2112A442
  const HEADER_SIZE: nat := 20
  const BINDING_REQUEST: nat := 0x0001
  const BINDING_RESPONSE: nat := 0x0101
  const MAPPED_ADDR: nat := 0x0001
  const XOR_MAPPED_ADDR: nat := 0x0020
  const SOFTWARE: nat := 0x8022

  datatype Attr = Attr(typ: nat, length: nat, value: seq<byte>)

  datatype Message = Message(typ: nat, length: nat, magic: nat, tid: seq<byte>, attrs: seq<Attr>)

  function Zeros(n: nat): (z: seq<byte>)
    ensures |z| == n
  {
    seq(n, _ => 0)
  }

  /** Bytes up to the next multiple of four. */
  function Pad(length: nat): (p: nat)
    ensures p < 4 && (length + p) % 4 == 0
  {
    (4 - length % 4) % 4
  }

  /** What copy leaves in a zeroed field of this length. */
  function Fit(value: seq<byte>, length: nat): (r: seq<byte>)
    ensures |r| == length
  {
    if |value| >= length then value[..length] else value + Zeros(length - |value|)
  }

  function Size(a: Attr): nat { 4 + a.length + Pad(a.length) }

  function AttrBytes(a: Attr): (bs: seq<byte>)
    ensures |bs| == Size(a)
  {
    PutBE(a.typ, 2) + PutBE(a.length, 2) + Fit(a.value, a.length) + Zeros(Pad(a.length))
  }

  function BodySize(attrs: seq<Attr>): nat { if attrs == [] then 0 else Size(attrs[0]) + BodySize(attrs[1..]) }

  function Body(attrs: seq<Attr>): (bs: seq<byte>)
    ensures |bs| == BodySize(attrs)
  {
    if attrs == [] then [] else AttrBytes(attrs[0]) + Body(attrs[1..])
  }

  function Header(m: Message, size: nat): (bs: seq<byte>)
    requires |m.tid| == 12
    ensures |bs| == HEADER_SIZE
  {
    PutBE(m.typ, 2) + PutBE(size, 2) + PutBE(m.magic, 4) + m.tid
  }

  function Packed(m: Message): seq<byte>
    requires |m.tid| == 12
  {
    Header(m, BodySize(m.attrs)) + Body(m.attrs)
  }

  // ---------- reading ----------

  /** The attributes from an offset up to the end of the body; the first one that does not fit ends the list. */
  function ParseAttrs(data: seq<byte>, off: nat, end: nat): (attrs: seq<Attr>)
    requires end <= |data|
    decreases end - off
  {
    if off + 4 > end then []
    else
      var n := GetBE(data[off + 2..off + 4]);
      if off + 4 + n > end then []
      else
        var a := Attr(GetBE(data[off..off + 2]), n, data[off + 4..off + 4 + n]);
        [a] + ParseAttrs(data, off + 4 + n + Pad(n), end)
  }

  function Unpacked(data: seq<byte>): Option<Message> {
    if |data| < HEADER_SIZE || GetBE(data[4..8]) != COOKIE then None
    else
      var length := GetBE(data[2..4]);
      if |data| < HEADER_SIZE + length then None
      else Some(Message(GetBE(data[..2]), length, COOKIE, data[8..20],
                        ParseAttrs(data, HEADER_SIZE, HEADER_SIZE + length)))
  }

  // ---------- the round trip ----------

  predicate AttrOk(a: Attr) { a.typ < U16 && a.length == |a.value| < U16 }

  predicate MessageOk(m: Message) {
    && m.typ < U16 && m.magic == COOKIE && |m.tid| == 12
    && forall i :: 0 <= i < |m.attrs| ==> AttrOk(m.attrs[i])
  }

  lemma Get2(n: nat)
    requires n < U16
    ensures GetBE(PutBE(n, 2)) == n
  {
    Widths();
    GetPut(n, 2);
  }

  lemma AttrFields(a: Attr, front: seq<byte>, rest: seq<byte>)
    requires AttrOk(a)
    ensures var data, off := front + AttrBytes(a) + rest, |front|;
            && GetBE(data[off..off + 2]) == a.typ && GetBE(data[off + 2..off + 4]) == a.length
            && data[off + 4..off + 4 + a.length] == a.value
  {
    var data, off := front + AttrBytes(a) + rest, |front|;
    assert data[off..off + 2] == PutBE(a.typ, 2) && data[off + 2..off + 4] == PutBE(a.length, 2);
    Get2(a.typ);
    Get2(a.length);
  }

  lemma ParseFirst(data: seq<byte>, front: seq<byte>, a: Attr, rest: seq<byte>, end: nat)
    requires data == front + AttrBytes(a) + rest && AttrOk(a) && |front| + Size(a) <= end <= |data|
    ensures ParseAttrs(data, |front|, end) == [a] + ParseAttrs(data, |front + AttrBytes(a)|, end)
  {
    AttrFields(a, front, rest);
    ParseOne(data, |front|, end, a, |front + AttrBytes(a)|);
  }

  lemma ParseOne(data: seq<byte>, off: nat, end: nat, a: Attr, next: nat)
    requires off + 4 <= end <= |data| && a.length == GetBE(data[off + 2..off + 4]) && off + 4 + a.length <= end
    requires a.typ == GetBE(data[off..off + 2]) && a.value == data[off + 4..off + 4 + a.length]
    requires next == off + 4 + a.length + Pad(a.length)
    ensures ParseAttrs(data, off, end) == [a] + ParseAttrs(data, next, end)
  {
  }

  lemma {:induction false} BodyRoundTrip(data: seq<byte>, front: seq<byte>, attrs: seq<Attr>)
    requires data == front + Body(attrs) && forall i :: 0 <= i < |attrs| ==> AttrOk(attrs[i])
    ensures ParseAttrs(data, |front|, |data|) == attrs
    decreases |attrs|
  {
    if attrs != [] {
      var a, rest := attrs[0], Body(attrs[1..]);
      Assoc(front, AttrBytes(a), rest);
      BodyRoundTrip(data, front + AttrBytes(a), attrs[1..]);
      ParseFirst(data, front, a, rest, |data|);
      FirstAndRest(attrs);
    }
  }

  lemma FirstAndRest(attrs: seq<Attr>)
    requires attrs != []
    ensures attrs == [attrs[0]] + attrs[1..]
  {
  }

  lemma HeaderFields(m: Message, size: nat, body: seq<byte>)
    requires MessageOk(m)
    ensures var data := Header(m, size) + body;
            && GetBE(data[..2]) == m.typ && GetBE(data[4..8]) == COOKIE && data[8..20] == m.tid
            && data[HEADER_SIZE..] == body && data[2..4] == PutBE(size, 2)
  {
    var data := Header(m, size) + body;
    assert data[..2] == PutBE(m.typ, 2) && data[2..4] == PutBE(size, 2) && data[4..8] == PutBE(m.magic, 4);
    Get2(m.typ);
    Widths();
    GetPut(COOKIE, 4);
  }

  function Low16(n: nat): (r: nat)
    ensures r < U16 && if n < U16 then r == n else r <= n - U16
  {
    if n < U16 then n else Low16(n - U16)
  }

  lemma Period(n: nat)
    requires n >= U16
    ensures PutBE(n, 2) == PutBE(n - U16, 2)
  {
    assert (n - U16) / 256 == n / 256 - 256 && (n - U16) % 256 == n % 256;
    assert (n / 256 - 256) % 256 == n / 256 % 256;
    assert PutBE(n / 256, 1) == [n / 256 % 256] && PutBE(n / 256 - 256, 1) == [n / 256 % 256];
  }

  /** The 16 low-order bits are what the length field holds. */
  lemma {:induction false} CutTo16(n: nat)
    ensures GetBE(PutBE(n, 2)) == Low16(n)
  {
    if n < U16 {
      Get2(n);
    } else {
      Period(n);
      CutTo16(n - U16);
    }
  }

  /** A body of this size cannot hold attributes that need more, the padding of the last one aside. */
  lemma {:induction false} ParsedFits(data: seq<byte>, off: nat, end: nat)
    requires off < end + 4 && end <= |data|
    ensures BodySize(ParseAttrs(data, off, end)) < end - off + 4
    decreases end - off
  {
    if off + 4 <= end {
      var n := GetBE(data[off + 2..off + 4]);
      var next := off + 4 + n + Pad(n);
      if off + 4 + n <= end {
        ParsedFits(data, next, end);
        assert ParseAttrs(data, off, end)[1..] == ParseAttrs(data, next, end);
      }
    }
  }

  /** What a reader makes of a packed message: as much of the body as the cut length admits. */
  lemma UnpackPacked(m: Message)
    requires MessageOk(m)
    ensures var n, data := Low16(BodySize(m.attrs)), Packed(m);
            Unpacked(data) == Some(Message(m.typ, n, COOKIE, m.tid, ParseAttrs(data, HEADER_SIZE, HEADER_SIZE + n)))
  {
    HeaderFields(m, BodySize(m.attrs), Body(m.attrs));
    CutTo16(BodySize(m.attrs));
  }

  /** Unpacking a packed message gives it back, with its length filled in, exactly when the padded attributes fit the
      16-bit length field; otherwise attributes are lost. */
  lemma RoundTripIff(m: Message)
    requires MessageOk(m)
    ensures BodySize(m.attrs) < U16 ==> Unpacked(Packed(m)) == Some(m.(length := BodySize(m.attrs)))
    ensures BodySize(m.attrs) >= U16 ==> Unpacked(Packed(m)).Some? && Unpacked(Packed(m)).value.attrs != m.attrs
  {
    UnpackPacked(m);
    if BodySize(m.attrs) < U16 {
      BodyRoundTrip(Packed(m), Header(m, BodySize(m.attrs)), m.attrs);
    } else {
      ParsedFits(Packed(m), HEADER_SIZE, HEADER_SIZE + Low16(BodySize(m.attrs)));
    }
  }

  // ---------- exclusive or ----------

  /** The low-order `width` bits of a ^ b. */
  function Xor(a: nat, b: nat, width: nat): (r: nat) {
    if width == 0 then 0 else 2 * Xor(a / 2, b / 2, width - 1) + (if a % 2 == b % 2 then 0 else 1)
  }

  function Pow2(width: nat): nat { if width == 0 then 1 else 2 * Pow2(width - 1) }

  lemma {:induction false} XorTwice(a: nat, b: nat, width: nat)
    requires a < Pow2(width)
    ensures Xor(a, b, width) < Pow2(width) && Xor(Xor(a, b, width), b, width) == a
  {
    if width > 0 {
      XorTwice(a / 2, b / 2, width - 1);
      var x := Xor(a, b, width);
      assert x / 2 == Xor(a / 2, b / 2, width - 1) && (x % 2 == b % 2 <==> a % 2 == 0);
    }
  }

  function Bit(n: nat, i: nat): nat { if i == 0 then n % 2 else Bit(n / 2, i - 1) }

  /** Bit by bit: set where exactly one of the two is. */
  lemma {:induction false} XorBit(a: nat, b: nat, width: nat, i: nat)
    requires i < width
    ensures Bit(Xor(a, b, width), i) == if Bit(a, i) == Bit(b, i) then 0 else 1
  {
    var x := Xor(a, b, width);
    assert x / 2 == Xor(a / 2, b / 2, width - 1) && x % 2 == if a % 2 == b % 2 then 0 else 1;
    if i > 0 { XorBit(a / 2, b / 2, width - 1, i - 1); }
  }

  lemma Powers()
    ensures Pow2(8) == 256 && Pow2(16) == U16 && Pow2(32) == U32
  {
    assert Pow2(12) == 0x1000 && Pow2(20) == 0x10_0000 && Pow2(24) == 0x100_0000 && Pow2(28) == 0x1000_0000;
  }

  function XorByte(a: byte, b: byte): (r: byte) {
    Powers();
    XorTwice(a, b, 8);
    Xor(a, b, 8)
  }

  /** Byte by byte, over the bytes of s. */
  function XorBytes(s: seq<byte>, key: seq<byte>): (r: seq<byte>)
    requires |s| <= |key|
    ensures |r| == |s|
  {
    seq(|s|, i requires 0 <= i < |s| => XorByte(s[i], key[i]))
  }

  lemma XorBytesTwice(s: seq<byte>, key: seq<byte>)
    requires |s| <= |key|
    ensures XorBytes(XorBytes(s, key), key) == s
  {
    Powers();
    forall i | 0 <= i < |s| ensures XorBytes(XorBytes(s, key), key)[i] == s[i] {
      XorTwice(s[i], key[i], 8);
    }
  }

  // ---------- addresses ----------

  /** An IP address is four or sixteen bytes. */
  type IP = s: seq<byte> | |s| == 4 || |s| == 16 witness [0, 0, 0, 0]

  const MAPPED_PREFIX: seq<byte> := Zeros(10) + [0xFF, 0xFF]

  /** net.IP.To4. */
  function To4(ip: IP): Option<seq<byte>> {
    if |ip| == 4 then Some(ip) else if ip[..12] == MAPPED_PREFIX then Some(ip[12..]) else None
  }

  function XorValue(ip: IP, port: nat, magic: nat, tid: seq<byte>): (v: seq<byte>)
    requires port < U16 && magic < U32 && |tid| == 12
    ensures |v| <= 20
  {
    var xport := PutBE(Xor(port, magic / U16, 16), 2);
    match To4(ip)
    case Some(v4) => PutBE(1, 2) + xport + PutBE(Xor(GetBE(v4), magic, 32), 4)
    case None => PutBE(2, 2) + xport + XorBytes(ip, PutBE(magic, 4) + tid)
  }

  datatype Mapped = Mapped(family: nat, port: nat, ip: seq<byte>)

  /** OutOfRange is a slice expression past the end of its operand. */
  datatype Outcome = Ok(addr: Mapped) | Invalid | NotFound | OutOfRange

  function ParseMapped(data: seq<byte>, magic: nat, tid: seq<byte>, xor: bool): Outcome
    requires |tid| == 12
  {
    if |data| < 8 then Invalid
    else
      var family, raw := GetBE(data[..2]), GetBE(data[2..4]);
      var port := if xor then Xor(raw, magic / U16, 16) else raw;
      if family == 1 then
        var ip := GetBE(data[4..8]);
        Ok(Mapped(family, port, PutBE(if xor then Xor(ip, magic, 32) else ip, 4)))
      else if family == 2 then
        if |data| < 20 then OutOfRange
        else Ok(Mapped(family, port, if xor then XorBytes(data[4..20], PutBE(magic, 4) + tid) else data[4..20]))
      else Ok(Mapped(family, port, []))
  }

  /** The first address attribute decides. */
  function GetMapped(m: Message): Outcome
    requires |m.tid| == 12
  {
    FirstMapped(m.attrs, m.magic, m.tid)
  }

  function FirstMapped(attrs: seq<Attr>, magic: nat, tid: seq<byte>): Outcome
    requires |tid| == 12
  {
    if attrs == [] then NotFound
    else if attrs[0].typ == XOR_MAPPED_ADDR || attrs[0].typ == MAPPED_ADDR then
      ParseMapped(attrs[0].value, magic, tid, attrs[0].typ == XOR_MAPPED_ADDR)
    else FirstMapped(attrs[1..], magic, tid)
  }

  lemma PortBack(port: nat, magic: nat)
    requires port < U16
    ensures Xor(GetBE(PutBE(Xor(port, magic / U16, 16), 2)), magic / U16, 16) == port
  {
    Powers();
    XorTwice(port, magic / U16, 16);
    Get2(Xor(port, magic / U16, 16));
  }

  lemma V4Back(v4: seq<byte>, magic: nat)
    requires |v4| == 4
    ensures PutBE(Xor(GetBE(PutBE(Xor(GetBE(v4), magic, 32), 4)), magic, 32), 4) == v4
  {
    Powers();
    Widths();
    GetBelow(v4);
    XorTwice(GetBE(v4), magic, 32);
    GetPut(Xor(GetBE(v4), magic, 32), 4);
    PutGet(v4);
  }

  /** What the client reads is the address the server saw, IPv4-mapped addresses in their four-byte form. */
  lemma AddressRoundTrip(ip: IP, port: nat, magic: nat, tid: seq<byte>)
    requires port < U16 && magic < U32 && |tid| == 12
    ensures ParseMapped(XorValue(ip, port, magic, tid), magic, tid, true)
            == Ok(match To4(ip) case Some(v4) => Mapped(1, port, v4) case None => Mapped(2, port, ip))
  {
    var xport := PutBE(Xor(port, magic / U16, 16), 2);
    PortBack(port, magic);
    match To4(ip)
    case Some(v4) => V4RoundTrip(v4, port, magic, tid, xport);
    case None => V6RoundTrip(ip, port, magic, tid, xport);
  }

  /** A binding request on the wire. */
  lemma RequestBytes(tid: seq<byte>)
    requires |tid| == 12
    ensures Packed(Message(BINDING_REQUEST, 0, COOKIE, tid, [])) == [0, 1, 0, 0, 0x21, 0x12, 0xA4, 0x42] + tid
  {
    BigEndian(0, 1, 0, 0);
    BigEndian(0, 0, 0, 0);
    BigEndian(0x21, 0x12, 0xA4, 0x42);
  }

  /** A plain MAPPED-ADDRESS carries the address as it is; the client takes it as it is, whatever the cookie. */
  lemma PlainRoundTrip(ip: IP, port: nat, magic: nat, tid: seq<byte>)
    requires port < U16 && |tid| == 12
    ensures var family := if |ip| == 4 then 1 else 2;
            ParseMapped(PutBE(family, 2) + PutBE(port, 2) + ip, magic, tid, false) == Ok(Mapped(family, port, ip))
  {
    var family := if |ip| == 4 then 1 else 2;
    Fields(PutBE(family, 2), PutBE(port, 2), ip);
    Get2(family);
    Get2(port);
    if |ip| == 4 { PutGet(ip); }
  }

  /** Two bytes, two bytes and the rest. */
  lemma Fields(a: seq<byte>, b: seq<byte>, c: seq<byte>)
    requires |a| == 2 && |b| == 2
    ensures var v := a + b + c; v[..2] == a && v[2..4] == b && v[4..] == c && v[4..4 + |c|] == c
  {
  }

  lemma V4RoundTrip(v4: seq<byte>, port: nat, magic: nat, tid: seq<byte>, xport: seq<byte>)
    requires |v4| == 4 && |tid| == 12 && |xport| == 2 && Xor(GetBE(xport), magic / U16, 16) == port
    ensures ParseMapped(PutBE(1, 2) + xport + PutBE(Xor(GetBE(v4), magic, 32), 4), magic, tid, true)
            == Ok(Mapped(1, port, v4))
  {
    Fields(PutBE(1, 2), xport, PutBE(Xor(GetBE(v4), magic, 32), 4));
    Get2(1);
    V4Back(v4, magic);
  }

  lemma V6RoundTrip(ip: seq<byte>, port: nat, magic: nat, tid: seq<byte>, xport: seq<byte>)
    requires |ip| == 16 && |tid| == 12 && |xport| == 2 && Xor(GetBE(xport), magic / U16, 16) == port
    ensures ParseMapped(PutBE(2, 2) + xport + XorBytes(ip, PutBE(magic, 4) + tid), magic, tid, true)
            == Ok(Mapped(2, port, ip))
  {
    Fields(PutBE(2, 2), xport, XorBytes(ip, PutBE(magic, 4) + tid));
    Get2(2);
    XorBytesTwice(ip, PutBE(magic, 4) + tid);
  }

  /** The server's answer to a binding request. */
  function Response(tid: seq<byte>, ip: IP, port: nat, software: seq<byte>): Message
    requires |tid| == 12 && port < U16
  {
    var v := XorValue(ip, port, COOKIE, tid);
    Message(BINDING_RESPONSE, 0, COOKIE, tid, [Attr(XOR_MAPPED_ADDR, |v|, v), Attr(SOFTWARE, |software|, software)])
  }

  lemma ResponseFits(tid: seq<byte>, ip: IP, port: nat, software: seq<byte>)
    requires |tid| == 12 && port < U16 && |software| < 60000
    ensures var m := Response(tid, ip, port, software); MessageOk(m) && BodySize(m.attrs) < U16
  {
    var m := Response(tid, ip, port, software);
    assert m.attrs[1..] == [m.attrs[1]] && m.attrs[1..][1..] == [];
    assert BodySize(m.attrs) == Size(m.attrs[0]) + BodySize(m.attrs[1..]);
    assert BodySize(m.attrs[1..]) == Size(m.attrs[1]) + BodySize([]);
  }

  /** From the server's socket to the client's view of itself, over the wire; the server's own text has 22 bytes. */
  lemma ReflexiveAddress(tid: seq<byte>, ip: IP, port: nat, software: seq<byte>)
    requires |tid| == 12 && port < U16 && |software| < 60000
    ensures var r := Unpacked(Packed(Response(tid, ip, port, software)));
            && r.Some? && r.value.typ == BINDING_RESPONSE && r.value.tid == tid
            && GetMapped(r.value) == Ok(match To4(ip) case Some(v4) => Mapped(1, port, v4) case None => Mapped(2,
               port, ip))
  {
    var m := Response(tid, ip, port, software);
    ResponseFits(tid, ip, port, software);
    RoundTripIff(m);
    AddressRoundTrip(ip, port, COOKIE, tid);
    assert m.attrs[0] == Attr(XOR_MAPPED_ADDR, |XorValue(ip, port, COOKIE, tid)|, XorValue(ip, port, COOKIE, tid));
  }

  /** Reading an address slices past the end exactly when the first address attribute claims IPv6 with 8 to 19 bytes. */
  lemma {:induction false} SlicesPastEndIff(attrs: seq<Attr>, magic: nat, tid: seq<byte>)
    requires |tid| == 12
    ensures FirstMapped(attrs, magic, tid) == OutOfRange <==> FirstIsShort(attrs)
    decreases |attrs|
  {
    if attrs != [] && attrs[0].typ != XOR_MAPPED_ADDR && attrs[0].typ != MAPPED_ADDR {
      SlicesPastEndIff(attrs[1..], magic, tid);
      assert forall k :: 0 <= k < |attrs| - 1 ==> attrs[1..][k] == attrs[k + 1];
      assert forall k :: 0 <= k < |attrs| - 1 ==> (FirstIs(attrs[1..], k) <==> FirstIs(attrs, k + 1));
    }
  }

  /** Claims an IPv6 address and is too short for one. */
  predicate ShortIPv6(value: seq<byte>) { 8 <= |value| < 20 && GetBE(value[..2]) == 2 }

  predicate IsAddress(a: Attr) { a.typ == XOR_MAPPED_ADDR || a.typ == MAPPED_ADDR }

  /** The first address attribute claims IPv6 with 8 to 19 bytes. */
  ghost predicate FirstIsShort(attrs: seq<Attr>) {
    exists k :: 0 <= k < |attrs| && FirstIs(attrs, k) && ShortIPv6(attrs[k].value)
  }

  predicate FirstIs(attrs: seq<Attr>, k: nat) {
    k < |attrs| && IsAddress(attrs[k]) && forall j :: 0 <= j < k ==> !IsAddress(attrs[j])
  }
}
