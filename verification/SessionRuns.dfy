/**
 Runs of the session table: any sequence of its operations at non-decreasing times.

 A create, reuse or join whose connection ID is already known to a session, and a create whose session ID
 or quota is taken, change nothing; every list of events is therefore a run with fresh connection IDs.
 */
module SessionRuns {
  import opened SessionSpec
  import opened SessionInvariant
  import opened Sets

  datatype Op =
    | OpCreate(id: string, code: string, c: Conn, ttl: Time, clientID: string, ip: string, maxPerIP: int,
               maxTotal: int, ready: bool)
    | OpReuse(clientID: string, c: Conn)
    | OpMarkReady(id: string, shareID: string)
    | OpJoin(code: string, c: Conn)
    | OpRollback(id: string, helpID: string)
    | OpActivate(id: string, shareID: string, helpID: string)
    | OpClose(id: string)
    | OpDisconnect(conn: string)
    | OpDebounce(id: string)
    | OpClean(id: string)
    | OpUpdateAddr(conn: string, addrs: set<string>)

  datatype Event = Event(op: Op, now: Time)

  function Created(op: Op, now: Time): Session
    requires op.OpCreate?
  {
    NewSession(op.id, op.code, op.c, now + op.ttl, op.clientID, op.ip, op.ip != "" && op.maxPerIP > 0, op.ready)
  }

  function Apply(cfg: Settings, m: Manager, op: Op, now: Time): Manager {
    match op
    case OpCreate(id, _, c, _, _, ip, maxPerIP, maxTotal, _) =>
      if id !in m.sessions && Fresh(m, c.id) && MayCreate(m, ip, maxPerIP, maxTotal) then Create(m, Created(op, now))
         else m
    case OpReuse(clientID, c) => if Fresh(m, c.id) then Reuse(cfg, m, clientID, c, now) else m
    case OpMarkReady(id, shareID) => MarkReady(m, id, shareID)
    case OpJoin(code, c) => if Fresh(m, c.id) then Join(m, code, c, now) else m
    case OpRollback(id, helpID) => Rollback(m, id, helpID)
    case OpActivate(id, shareID, helpID) => Activate(m, id, shareID, helpID)
    case OpClose(id) => Delete(m, id)
    case OpDisconnect(conn) => Disconnect(cfg, m, conn, now)
    case OpDebounce(id) => Debounce(m, id)
    case OpClean(id) => CleanOne(m, id, now)
    case OpUpdateAddr(conn, addrs) => UpdateAddr(m, conn, addrs)
  }

  const EMPTY := Manager(map[], map[], map[], map[], map[])

  predicate Ordered(es: seq<Event>) { forall i, j :: 0 <= i < j < |es| ==> es[i].now <= es[j].now }

  function Run(cfg: Settings, m: Manager, es: seq<Event>): Manager
    decreases |es|
  {
    if es == [] then m else var e := es[|es| - 1]; Apply(cfg, Run(cfg, m, es[..|es| - 1]), e.op, e.now)
  }

  lemma CreatingKeeps(cfg: Settings, m: Manager, op: Op, now: Time)
    requires Inv(m) && op.OpCreate?
    ensures Inv(Apply(cfg, m, op, now))
  {
    if op.id !in m.sessions && Fresh(m, op.c.id) {
      assert LocalOk(Created(op, now));
      CreateKeeps(m, Created(op, now));
    }
  }

  lemma LeavingKeeps(cfg: Settings, m: Manager, op: Op, now: Time)
    requires Inv(m) && (op.OpRollback? || op.OpClose? || op.OpDisconnect? || op.OpDebounce? || op.OpClean?)
    ensures Inv(Apply(cfg, m, op, now))
  {
    match op {
      case OpRollback(id, helpID) => RollbackKeeps(m, id, helpID);
      case OpClose(id) => DeleteKeeps(m, id);
      case OpDisconnect(conn) => DisconnectKeeps(cfg, m, conn, now);
      case OpDebounce(id) => DebounceKeeps(m, id);
      case OpClean(id) => CleanOneKeeps(m, id, now);
    }
  }

  lemma ApplyKeeps(cfg: Settings, m: Manager, op: Op, now: Time)
    requires Inv(m)
    ensures Inv(Apply(cfg, m, op, now))
  {
    match op {
      case OpMarkReady(id, shareID) => MarkReadyKeeps(m, id, shareID);
      case OpActivate(id, shareID, helpID) => ActivateKeeps(m, id, shareID, helpID);
      case OpUpdateAddr(conn, addrs) => UpdateAddrKeeps(m, conn, addrs);
      case OpReuse(clientID, c) => if Fresh(m, c.id) { ReuseKeeps(cfg, m, clientID, c, now); }
      case OpJoin(code, c) => if Fresh(m, c.id) { JoinKeeps(m, code, c, now); }
      case _ =>
        if op.OpCreate? {
          CreatingKeeps(cfg, m, op, now);
        } else {
          LeavingKeeps(cfg, m, op, now);
        }
    }
  }

  /** The four indexes and the per-IP quotas are consistent after every run from the empty table. */
  lemma {:induction false} IndexesAgree(cfg: Settings, es: seq<Event>)
    ensures Inv(Run(cfg, EMPTY, es))
    decreases |es|
  {
    if es != [] {
      IndexesAgree(cfg, es[..|es| - 1]);
      var e := es[|es| - 1];
      ApplyKeeps(cfg, Run(cfg, EMPTY, es[..|es| - 1]), e.op, e.now);
    } else {
      forall ip
        ensures CountOk(EMPTY.sessions, EMPTY.perIP, ip)
      {
        assert CountedAt(EMPTY.sessions, ip) == {};
      }
    }
  }

  // ---------- the quotas over runs ----------

  /** Every registration is checked against the same limits. */
  predicate FixedLimits(es: seq<Event>, maxPerIP: int, maxTotal: int) {
    forall i :: 0 <= i < |es| && es[i].op.OpCreate? ==> es[i].op.maxPerIP == maxPerIP && es[i].op.maxTotal == maxTotal
  }

  /** A limit of zero or less means that none is enforced, and then no session is counted. */
  function Cap(maxPerIP: int): nat { if maxPerIP > 0 then maxPerIP else 0 }

  ghost predicate WithinQuota(sessions: map<string, Session>, maxPerIP: int, maxTotal: int) {
    |sessions| <= maxTotal && forall ip :: |CountedAt(sessions, ip)| <= Cap(maxPerIP)
  }

  /** The session is not new, and not charged to another address. */
  predicate NotNew(before: map<string, Session>, after: map<string, Session>, id: string) {
    id in after ==>
      && id in before && after[id].counted == before[id].counted && after[id].creatorIP == before[id].creatorIP
  }

  ghost predicate NoneNew(before: map<string, Session>, after: map<string, Session>) {
    forall id :: id in after ==> NotNew(before, after, id)
  }

  lemma ReuseNotNew(cfg: Settings, m: Manager, clientID: string, c: Conn, now: Time, id: string)
    ensures NotNew(m.sessions, Reuse(cfg, m, clientID, c, now).sessions, id)
  {
  }

  lemma JoinNotNew(m: Manager, code: string, h: Conn, now: Time, id: string)
    ensures NotNew(m.sessions, Join(m, code, h, now).sessions, id)
  {
  }

  lemma DisconnectNotNew(cfg: Settings, m: Manager, c: string, now: Time, id: string)
    ensures NotNew(m.sessions, Disconnect(cfg, m, c, now).sessions, id)
  {
  }

  lemma FlagsNotNew(m: Manager, id: string, shareID: string, helpID: string, sid: string)
    ensures NotNew(m.sessions, MarkReady(m, id, shareID).sessions, sid)
    ensures NotNew(m.sessions, Activate(m, id, shareID, helpID).sessions, sid)
  {
    if id in m.sessions {
      ChangedNotNew(m.sessions, id, m.sessions[id].(shareReady := true), sid);
      ChangedNotNew(m.sessions, id, m.sessions[id].(dataPlaneReady := true), sid);
    }
  }

  lemma ChangedNotNew(sessions: map<string, Session>, id: string, s: Session, sid: string)
    requires id in sessions && s.counted == sessions[id].counted && s.creatorIP == sessions[id].creatorIP
    ensures NotNew(sessions, sessions[id := s], sid)
  {
  }

  lemma UpdateNotNew(m: Manager, c: string, addrs: set<string>, sid: string)
    ensures NotNew(m.sessions, UpdateAddr(m, c, addrs).sessions, sid)
  {
  }

  lemma RollbackNotNew(m: Manager, id: string, helpID: string, sid: string)
    ensures NotNew(m.sessions, Rollback(m, id, helpID).sessions, sid)
    ensures NotNew(m.sessions, Debounce(m, id).sessions, sid)
  {
  }

  lemma RemovalNotNew(m: Manager, id: string, now: Time, sid: string)
    ensures NotNew(m.sessions, Delete(m, id).sessions, sid)
    ensures NotNew(m.sessions, CleanOne(m, id, now).sessions, sid)
  {
  }

  lemma OthersNotNew(cfg: Settings, m: Manager, op: Op, now: Time, sid: string)
    requires !op.OpCreate?
    ensures NotNew(m.sessions, Apply(cfg, m, op, now).sessions, sid)
  {
    match op {
      case OpReuse(clientID, c) => ReuseNotNew(cfg, m, clientID, c, now, sid);
      case OpMarkReady(id, shareID) => FlagsNotNew(m, id, shareID, "", sid);
      case OpJoin(code, c) => JoinNotNew(m, code, c, now, sid);
      case OpRollback(id, helpID) => RollbackNotNew(m, id, helpID, sid);
      case OpActivate(id, shareID, helpID) => FlagsNotNew(m, id, shareID, helpID, sid);
      case OpClose(id) => RemovalNotNew(m, id, now, sid);
      case OpDisconnect(conn) => DisconnectNotNew(cfg, m, conn, now, sid);
      case OpDebounce(id) => RollbackNotNew(m, id, "", sid);
      case OpClean(id) => RemovalNotNew(m, id, now, sid);
      case OpUpdateAddr(conn, addrs) => UpdateNotNew(m, conn, addrs, sid);
    }
  }

  lemma FewerStayWithin(before: map<string, Session>, after: map<string, Session>, maxPerIP: int, maxTotal: int)
    requires WithinQuota(before, maxPerIP, maxTotal) && NoneNew(before, after)
    ensures WithinQuota(after, maxPerIP, maxTotal)
  {
    assert forall id :: id in after ==> NotNew(before, after, id);
    SubsetSize(after.Keys, before.Keys);
    forall ip ensures |CountedAt(after, ip)| <= Cap(maxPerIP) {
      SubsetSize(CountedAt(after, ip), CountedAt(before, ip));
    }
  }

  lemma CreatingStaysWithin(m: Manager, s: Session, maxPerIP: int, maxTotal: int)
    requires Inv(m) && WithinQuota(m.sessions, maxPerIP, maxTotal) && s.id !in m.sessions && s.share.Some?
    requires MayCreate(m, s.creatorIP, maxPerIP, maxTotal) && s.counted == (s.creatorIP != "" && maxPerIP > 0)
    ensures WithinQuota(Create(m, s).sessions, maxPerIP, maxTotal)
  {
    var ss := m.sessions[s.id := s];
    forall ip ensures |CountedAt(ss, ip)| <= Cap(maxPerIP) {
      if s.counted && ip == s.creatorIP {
        QuotaRespected(m, s, maxPerIP, maxTotal);
      } else {
        OtherCounts(m.sessions, s, ip);
      }
    }
  }

  lemma OtherCounts(sessions: map<string, Session>, s: Session, ip: string)
    requires s.id !in sessions && !(s.counted && ip == s.creatorIP)
    ensures CountedAt(sessions[s.id := s], ip) == CountedAt(sessions, ip)
  {
  }

  lemma StepStaysWithin(cfg: Settings, m: Manager, e: Event, maxPerIP: int, maxTotal: int)
    requires Inv(m) && WithinQuota(m.sessions, maxPerIP, maxTotal) && FixedLimits([e], maxPerIP, maxTotal)
    ensures WithinQuota(Apply(cfg, m, e.op, e.now).sessions, maxPerIP, maxTotal)
  {
    var op, m' := e.op, Apply(cfg, m, e.op, e.now);
    if op.OpCreate? {
      assert [e][0] == e;
      if op.id !in m.sessions && Fresh(m, op.c.id) && MayCreate(m, op.ip, op.maxPerIP, op.maxTotal) {
        CreatingStaysWithin(m, Created(op, e.now), maxPerIP, maxTotal);
      }
    } else {
      forall id | id in m'.sessions ensures NotNew(m.sessions, m'.sessions, id) {
        OthersNotNew(cfg, m, op, e.now, id);
      }
      FewerStayWithin(m.sessions, m'.sessions, maxPerIP, maxTotal);
    }
  }

  /** Under fixed limits, after every run no address holds more live counted sessions than its limit, and the table no
      more than the total. */
  lemma {:induction false} QuotaOverRuns(cfg: Settings, es: seq<Event>, maxPerIP: int, maxTotal: nat)
    requires FixedLimits(es, maxPerIP, maxTotal)
    ensures WithinQuota(Run(cfg, EMPTY, es).sessions, maxPerIP, maxTotal)
    decreases |es|
  {
    if es == [] {
      forall ip ensures CountedAt(EMPTY.sessions, ip) == {} {
      }
    } else {
      var init, e := es[..|es| - 1], es[|es| - 1];
      QuotaOverRuns(cfg, init, maxPerIP, maxTotal);
      IndexesAgree(cfg, init);
      StepStaysWithin(cfg, Run(cfg, EMPTY, init), e, maxPerIP, maxTotal);
    }
  }
}
