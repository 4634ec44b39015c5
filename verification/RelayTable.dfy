/**
 The relay table of internal/p2p/stun_server.go: at most two peer addresses per session, and a quota of
 entries per creator address. The datagram header that names the session is at the end.
 */
module RelayTable {
  import opened Options
  import opened Bytes
  import P = DataPlane

  datatype Entry = Entry(creatorIP: string, slots: seq<P.Slot>)

  predicate SameAddr(a: P.Slot, b: P.Slot) { a.ip == b.ip && a.port == b.port }

  /** At most two peers, at different addresses. */
  predicate SlotsApart(slots: seq<P.Slot>) {
    |slots| <= 2 && (|slots| == 2 ==> !SameAddr(slots[0], slots[1]))
  }

  /** Admitting a packet keeps the peers apart; the sender ends up in the entry unless it is a stranger to a full
      one. */
  lemma AdmitApart(slots: seq<P.Slot>, s: P.Slot)
    requires SlotsApart(slots)
    ensures var after := P.Admit(slots, s);
            && SlotsApart(after)
            && (P.Find(after, s.ip, s.port) == |after| ==>
                  after == slots && |slots| == 2 && slots[0].ip != s.ip && slots[1].ip != s.ip)
  {
    var after := P.Admit(slots, s);
    FindMeans(slots, s);
    FindMeans(after, s);
    FindIPMeans(slots, s.ip);
  }

  /** Where the payload of s goes: to the other peer of a full entry that has s. */
  function Target(slots: seq<P.Slot>, s: P.Slot): Option<P.Slot> {
    var i := P.Find(slots, s.ip, s.port);
    if |slots| == 2 && i < 2 then Some(slots[1 - i]) else None
  }

  /** A packet from one IP displaces nobody at another; only a full entry gives up a slot, and only to its own IP. */
  lemma AdmitKeepsPeer(slots: seq<P.Slot>, s: P.Slot, p: P.Slot)
    requires SlotsApart(slots) && p in slots
    ensures (p.ip != s.ip || |slots| < 2 ==> p in P.Admit(slots, s))
  {
    FindIPMeans(slots, s.ip);
    var i := P.FindIP(slots, s.ip);
    if |slots| == 2 && i < 2 {
      assert slots[i := s][1 - i] == slots[1 - i];
    }
  }

  /** Two senders at different addresses fill the entry, and each is the other's target from then on. */
  lemma TwoPeersMeet(a: P.Slot, b: P.Slot)
    requires !SameAddr(a, b)
    ensures var slots := P.Admit(P.Admit([], a), b);
            && slots == [a, b] && P.Admit(slots, a) == slots && P.Admit(slots, b) == slots
            && Target(slots, a) == Some(b) && Target(slots, b) == Some(a)
  {
    assert P.Admit([], a) == [a];
    FindMeans([a], b);
    FindMeans([a, b], a);
    FindMeans([a, b], b);
  }

  /** A peer of a full entry that comes back from another port is followed there and still reaches the other. */
  lemma PortIsFollowed(p: P.Slot, q: P.Slot, s: P.Slot)
    requires s.ip == p.ip != q.ip && s.port != p.port
    ensures P.Admit([p, q], s) == [s, q] && P.Admit([q, p], s) == [q, s]
    ensures Target([s, q], s) == Some(q) == Target([q, s], s) && Target([s, q], q) == Some(s) == Target([q, s], q)
  {
    FindMeans([p, q], s);
    FindMeans([q, p], s);
    FindIPMeans([p, q], s.ip);
    FindIPMeans([q, p], s.ip);
    FindMeans([s, q], s);
    FindMeans([s, q], q);
    FindMeans([q, s], s);
    FindMeans([q, s], q);
  }

  lemma FindMeans(slots: seq<P.Slot>, s: P.Slot)
    requires |slots| <= 2
    ensures var i := P.Find(slots, s.ip, s.port);
            && (i < |slots| ==> SameAddr(slots[i], s))
            && (forall j :: 0 <= j < i && j < |slots| ==> !SameAddr(slots[j], s))
  {
    if |slots| == 2 {
      assert slots[1..][0] == slots[1] && slots[1..][1..] == [];
    }
  }

  lemma FindIPMeans(slots: seq<P.Slot>, ip: string)
    requires |slots| <= 2
    ensures var i := P.FindIP(slots, ip);
            && (i < |slots| ==> slots[i].ip == ip)
            && (forall j :: 0 <= j < i && j < |slots| ==> slots[j].ip != ip)
  {
    if |slots| == 2 {
      assert slots[1..][0] == slots[1] && slots[1..][1..] == [];
    }
  }

  function CreatedBy(table: map<string, Entry>, ip: string): set<string> {
    set sid | sid in table && table[sid].creatorIP == ip
  }

  ghost predicate QuotaOk(table: map<string, Entry>, counts: map<string, nat>, ip: string) {
    && (ip in counts ==> counts[ip] == |CreatedBy(table, ip)| && counts[ip] > 0)
    && (ip !in counts ==> CreatedBy(table, ip) == {})
  }

  class Relay {
    const maxTotal: nat
    const maxPerIP: nat
    var relaySessions: map<string, Entry>
    var countPerIP: map<string, nat>

    ghost predicate Valid()
      reads this
    {
      && (forall ip :: QuotaOk(relaySessions, countPerIP, ip))
      && (forall sid :: sid in relaySessions ==> SlotsApart(relaySessions[sid].slots))
    }

    constructor (maxTotal: nat, maxPerIP: nat)
      ensures Valid() && relaySessions == map[] && this.maxTotal == maxTotal && this.maxPerIP == maxPerIP
    {
      this.maxTotal, this.maxPerIP := maxTotal, maxPerIP;
      relaySessions, countPerIP := map[], map[];
      new;
      forall ip
        ensures QuotaOk(relaySessions, countPerIP, ip)
      {
        assert CreatedBy(relaySessions, ip) == {};
      }
    }

    /** The first half of handleRelayPacket inside relayMu: the entry of the session, made if the quotas allow. */
    method OpenEntry(sid: string, ip: string) returns (ok: bool)
      requires Valid()
      modifies this
      ensures Valid()
      ensures ok <==>
              || sid in old(relaySessions)
              || (|old(relaySessions)| < maxTotal && |CreatedBy(old(relaySessions), ip)| < maxPerIP)
      ensures relaySessions
              == if !ok || sid in old(relaySessions) then old(relaySessions)
                 else old(relaySessions)[sid := Entry(ip, [])]
    {
      assert QuotaOk(relaySessions, countPerIP, ip);
      ok := true;
      if sid !in relaySessions {
        var n := if ip in countPerIP then countPerIP[ip] else 0;
        if |relaySessions| >= maxTotal || n >= maxPerIP {
          return false;
        }
        ghost var table, counts := relaySessions, countPerIP;
        relaySessions := relaySessions[sid := Entry(ip, [])];
        countPerIP := countPerIP[ip := n + 1];
        forall a
          ensures QuotaOk(relaySessions, countPerIP, a)
        {
          OpenQuota(table, counts, sid, ip, a);
        }
      }
    }

    /** The second half: find or register the sender and name the other peer, to whom the payload goes. */
    method Register(sid: string, s: P.Slot) returns (target: Option<P.Slot>)
      requires Valid() && sid in relaySessions
      modifies this`relaySessions
      ensures Valid()
      ensures relaySessions
              == old(relaySessions)[sid := old(relaySessions)[sid].(slots := P.Admit(old(relaySessions)[sid].slots, s))]
      ensures target == Target(relaySessions[sid].slots, s)
      ensures target.Some? ==> target.value in relaySessions[sid].slots && !SameAddr(target.value, s)
    {
      var e := relaySessions[sid];
      var slots := e.slots;
      AdmitApart(slots, s);
      var i := P.Find(slots, s.ip, s.port);
      if i == |slots| {
        if |slots| >= 2 {
          i := P.FindIP(slots, s.ip);
          if i < |slots| {
            slots := slots[i := s];
          }
        } else {
          slots := slots + [s];
        }
      }
      ghost var table := relaySessions;
      relaySessions := relaySessions[sid := e.(slots := slots)];
      assert forall ip :: CreatedBy(relaySessions, ip) == CreatedBy(table, ip);
      assert forall ip :: QuotaOk(table, countPerIP, ip) ==> QuotaOk(relaySessions, countPerIP, ip);
      FindMeans(slots, s);
      target := if |slots| == 2 && i < 2 then Some(slots[1 - i]) else None;
    }

    /** InvalidateRelaySession and deleteRelaySessionLocked */
    method Invalidate(sid: string)
      requires Valid()
      modifies this
      ensures Valid() && relaySessions == old(relaySessions) - {sid}
    {
      if sid in relaySessions {
        var ip := relaySessions[sid].creatorIP;
        assert QuotaOk(relaySessions, countPerIP, ip) && sid in CreatedBy(relaySessions, ip);
        ghost var table, counts := relaySessions, countPerIP;
        relaySessions := relaySessions - {sid};
        countPerIP := if countPerIP[ip] <= 1 then countPerIP - {ip} else countPerIP[ip := countPerIP[ip] - 1];
        forall a
          ensures QuotaOk(relaySessions, countPerIP, a)
        {
          DropQuota(table, counts, sid, a);
        }
      }
    }
  }

  lemma OpenQuota(table: map<string, Entry>, counts: map<string, nat>, sid: string, ip: string, a: string)
    requires sid !in table && QuotaOk(table, counts, a)
    ensures QuotaOk(table[sid := Entry(ip, [])], counts[ip := (if ip in counts then counts[ip] else 0) + 1], a)
  {
    var table' := table[sid := Entry(ip, [])];
    assert CreatedBy(table', a) == if a == ip then CreatedBy(table, a) + {sid} else CreatedBy(table, a);
  }

  lemma DropQuota(table: map<string, Entry>, counts: map<string, nat>, sid: string, a: string)
    requires sid in table && QuotaOk(table, counts, a) && table[sid].creatorIP in counts
    ensures var ip := table[sid].creatorIP;
            QuotaOk(table - {sid}, if counts[ip] <= 1 then counts - {ip} else counts[ip := counts[ip] - 1], a)
  {
    var ip := table[sid].creatorIP;
    assert CreatedBy(table - {sid}, a) == if a == ip then CreatedBy(table, a) - {sid} else CreatedBy(table, a);
    assert a == ip ==> sid in CreatedBy(table, a);
  }

  // ---------- the relay header ----------

  const RELAY_MARKER: byte := 0xFF
  const MAX_SESSION_ID := 64

  /** Marker, one length byte (cut to eight bits), the session ID. */
  function MakeHeader(sid: seq<byte>): seq<byte> { [RELAY_MARKER, (|sid| % 256) as byte] + sid }

  function ParseHeader(data: seq<byte>): Option<(seq<byte>, seq<byte>)> {
    if |data| < 2 || data[0] != RELAY_MARKER then None
    else
      var n := data[1];
      if n == 0 || n > MAX_SESSION_ID || |data| < 2 + n then None
      else Some((data[2..2 + n], data[2 + n..]))
  }

  /** The server takes back exactly what the tunnel put in front, for the session IDs the relay accepts and no
      others. */
  lemma HeaderRoundTrip(sid: seq<byte>, payload: seq<byte>)
    ensures ParseHeader(MakeHeader(sid) + payload) == Some((sid, payload)) <==> 0 < |sid| <= MAX_SESSION_ID
  {
    var data := MakeHeader(sid) + payload;
    if 0 < |sid| <= MAX_SESSION_ID {
      assert data[2..2 + |sid|] == sid && data[2 + |sid|..] == payload;
    } else if ParseHeader(data).Some? {
      assert |ParseHeader(data).value.0| == data[1] <= MAX_SESSION_ID;
    }
  }
}
