/** How long a session lives: expiry never moves back, and an in-use session outlives a departure. */
module SessionLifetime {
  import opened Options
  import opened SessionSpec
  import opened SessionInvariant
  import opened SessionRuns

  /** What one operation may do to the life of a session. */
  ghost predicate Spared(m: Manager, m': Manager, op: Op, now: Time, sid: string)
    requires sid in m.sessions
  {
    var s := m.sessions[sid];
    if sid in m'.sessions then m'.sessions[sid].expiresAt >= s.expiresAt && m'.sessions[sid].code == s.code
    else op == OpClose(sid) || (op == OpClean(sid) && now > s.expiresAt && (s.share.None? || s.help.None?))
  }

  /** The session is still there, with its code, and expires no earlier. */
  predicate Lives(before: map<string, Session>, after: map<string, Session>, sid: string)
    requires sid in before
  {
    sid in after && after[sid].expiresAt >= before[sid].expiresAt && after[sid].code == before[sid].code
  }

  /** A change of one session that spares its expiry and code. */
  lemma ChangeSpares(sessions: map<string, Session>, id: string, s: Session, sid: string)
    requires sid in sessions && id in sessions && s.expiresAt >= sessions[id].expiresAt && s.code == sessions[id].code
    ensures Lives(sessions, sessions[id := s], sid)
  {
  }

  lemma ReuseSpares(cfg: Settings, m: Manager, clientID: string, c: Conn, now: Time, sid: string)
    requires sid in m.sessions
    ensures Lives(m.sessions, Reuse(cfg, m, clientID, c, now).sessions, sid)
  {
    if Decide(cfg, m, clientID, c, now) != NoSession {
      var id := m.byClient[clientID];
      var charged := Charge(cfg, m.sessions[id], c, now);
      ChangeSpares(m.sessions, id, charged, sid);
      ChangeSpares(m.sessions, id, Rebound(charged, c), sid);
    }
  }

  lemma JoinSpares(m: Manager, code: string, h: Conn, now: Time, sid: string)
    requires sid in m.sessions
    ensures Lives(m.sessions, Join(m, code, h, now).sessions, sid)
  {
    var o := JoinCheck(m, code, now);
    if o.Joined? {
      ChangeSpares(m.sessions, o.id, WithHelp(m.sessions[o.id], h), sid);
    }
  }

  lemma DisconnectSpares(cfg: Settings, m: Manager, c: string, now: Time, sid: string)
    requires sid in m.sessions
    ensures Lives(m.sessions, Disconnect(cfg, m, c, now).sessions, sid)
  {
    if c in m.byConn && m.byConn[c] in m.sessions {
      ChangeSpares(m.sessions, m.byConn[c], Departed(cfg, m.sessions[m.byConn[c]], c, now), sid);
    }
  }

  lemma FlagsSpare(m: Manager, id: string, shareID: string, helpID: string, sid: string)
    requires sid in m.sessions
    ensures Lives(m.sessions, MarkReady(m, id, shareID).sessions, sid)
    ensures Lives(m.sessions, Activate(m, id, shareID, helpID).sessions, sid)
  {
    if id in m.sessions {
      ChangeSpares(m.sessions, id, m.sessions[id].(shareReady := true), sid);
      ChangeSpares(m.sessions, id, m.sessions[id].(dataPlaneReady := true), sid);
    }
  }

  lemma HelpGoneSpares(m: Manager, id: string, helpID: string, sid: string)
    requires sid in m.sessions
    ensures Lives(m.sessions, Rollback(m, id, helpID).sessions, sid)
    ensures Lives(m.sessions, Debounce(m, id).sessions, sid)
  {
    if id in m.sessions {
      ChangeSpares(m.sessions, id, m.sessions[id].(help := None, dataPlaneReady := false), sid);
      ChangeSpares(m.sessions, id, m.sessions[id].(help := None, pendingHelp := ""), sid);
    }
  }

  lemma UpdateSpares(m: Manager, c: string, addrs: set<string>, sid: string)
    requires sid in m.sessions
    ensures Lives(m.sessions, UpdateAddr(m, c, addrs).sessions, sid)
  {
    if c in m.byConn && m.byConn[c] in m.sessions {
      var id := m.byConn[c];
      ChangeSpares(m.sessions, id, m.sessions[id].(shareAddrs := addrs), sid);
      ChangeSpares(m.sessions, id, m.sessions[id].(helpAddrs := addrs), sid);
    }
  }

  lemma RemovalSpares(m: Manager, id: string, now: Time, sid: string)
    requires sid in m.sessions
    ensures Delete(m, id).sessions == if id in m.sessions then m.sessions - {id} else m.sessions
    ensures Lives(m.sessions, CleanOne(m, id, now).sessions, sid)
            || (id == sid && now > m.sessions[id].expiresAt
                && (m.sessions[id].share.None? || m.sessions[id].help.None?))
  {
  }

  /** Step by step: ExpiresAt never decreases, and a session goes away only by an explicit close or by a
      cleanup that finds it expired with a side missing. */
  lemma Lifetime(cfg: Settings, m: Manager, op: Op, now: Time, sid: string)
    requires sid in m.sessions
    ensures Spared(m, Apply(cfg, m, op, now), op, now, sid)
  {
    if op.OpCreate? || op.OpReuse? || op.OpJoin? || op.OpDisconnect? || op.OpUpdateAddr? {
      BindingSpares(cfg, m, op, now, sid);
    } else {
      FlaggingSpares(cfg, m, op, now, sid);
    }
  }

  lemma BindingSpares(cfg: Settings, m: Manager, op: Op, now: Time, sid: string)
    requires sid in m.sessions && (op.OpCreate? || op.OpReuse? || op.OpJoin? || op.OpDisconnect? || op.OpUpdateAddr?)
    ensures Spared(m, Apply(cfg, m, op, now), op, now, sid)
  {
    match op {
      case OpCreate(_, _, _, _, _, _, _, _, _) =>
      case OpReuse(clientID, c) => ReuseSpares(cfg, m, clientID, c, now, sid);
      case OpJoin(code, c) => JoinSpares(m, code, c, now, sid);
      case OpDisconnect(conn) => DisconnectSpares(cfg, m, conn, now, sid);
      case OpUpdateAddr(conn, addrs) => UpdateSpares(m, conn, addrs, sid);
    }
  }

  lemma FlaggingSpares(cfg: Settings, m: Manager, op: Op, now: Time, sid: string)
    requires sid in m.sessions
    requires op.OpMarkReady? || op.OpRollback? || op.OpActivate? || op.OpClose? || op.OpDebounce? || op.OpClean?
    ensures Spared(m, Apply(cfg, m, op, now), op, now, sid)
  {
    match op {
      case OpMarkReady(id, shareID) => FlagsSpare(m, id, shareID, "", sid);
      case OpRollback(id, helpID) => HelpGoneSpares(m, id, helpID, sid);
      case OpActivate(id, shareID, helpID) => FlagsSpare(m, id, shareID, helpID, sid);
      case OpClose(id) => RemovalSpares(m, id, now, sid);
      case OpDebounce(id) => HelpGoneSpares(m, id, "", sid);
      case OpClean(id) => RemovalSpares(m, id, now, sid);
    }
  }

  ghost predicate Quiet(es: seq<Event>, sid: string, until: Time) {
    forall i :: 0 <= i < |es| ==> es[i].now <= until && es[i].op != OpClose(sid)
  }

  /** A session survives every run that ends before it expires. */
  lemma {:induction false} Survives(cfg: Settings, m: Manager, es: seq<Event>, sid: string, until: Time)
    requires sid in m.sessions && m.sessions[sid].expiresAt >= until && Quiet(es, sid, until)
    ensures var m' := Run(cfg, m, es);
            && sid in m'.sessions && m'.sessions[sid].code == m.sessions[sid].code
            && m'.sessions[sid].expiresAt >= m.sessions[sid].expiresAt
    decreases |es|
  {
    if es != [] {
      var e, init := es[|es| - 1], es[..|es| - 1];
      Survives(cfg, m, init, sid, until);
      Lifetime(cfg, Run(cfg, m, init), e.op, e.now, sid);
    }
  }

  // ---------- the code ----------

  lemma RemovalKeepsCode(m: Manager, id: string, code: string, sid: string)
    requires RoutesTo(m.byCode, code, sid) && id != sid
    ensures RoutesTo(Delete(m, id).byCode, code, sid)
  {
  }

  /** The code of a live session stays mapped while nobody else registers it. */
  lemma CodeStays(cfg: Settings, m: Manager, op: Op, now: Time, sid: string)
    requires sid in m.sessions && now <= m.sessions[sid].expiresAt && op != OpClose(sid)
    requires var code := m.sessions[sid].code; RoutesTo(m.byCode, code, sid) && (op.OpCreate? ==> op.code != code)
    ensures RoutesTo(Apply(cfg, m, op, now).byCode, m.sessions[sid].code, sid)
  {
    if (op.OpClose? || op.OpClean?) && op.id != sid {
      RemovalKeepsCode(m, op.id, m.sessions[sid].code, sid);
    }
  }

  ghost predicate CodeReserved(es: seq<Event>, code: string) {
    forall i :: 0 <= i < |es| && es[i].op.OpCreate? ==> es[i].op.code != code
  }

  lemma {:induction false} CodeSurvives(cfg: Settings, m: Manager, es: seq<Event>, sid: string, until: Time)
    requires sid in m.sessions && m.sessions[sid].expiresAt >= until && Quiet(es, sid, until)
    requires RoutesTo(m.byCode, m.sessions[sid].code, sid) && CodeReserved(es, m.sessions[sid].code)
    ensures RoutesTo(Run(cfg, m, es).byCode, m.sessions[sid].code, sid)
    decreases |es|
  {
    if es != [] {
      var e, init := es[|es| - 1], es[..|es| - 1];
      Survives(cfg, m, init, sid, until);
      CodeSurvives(cfg, m, init, sid, until);
      CodeStays(cfg, Run(cfg, m, init), e.op, e.now, sid);
    }
  }

  // ---------- departures ----------

  ghost predicate InUse(m: Manager, c: string) {
    && c in m.byConn && m.byConn[c] in m.sessions
    && m.sessions[m.byConn[c]].share.Some? && m.sessions[m.byConn[c]].help.Some?
  }

  lemma DepartureExtends(cfg: Settings, s: Session, c: string, now: Time)
    requires cfg.grace > 0 && s.share.Some? && s.help.Some?
    ensures Departed(cfg, s, c, now).expiresAt >= now + cfg.grace && Departed(cfg, s, c, now).code == s.code
  {
  }

  /** Reconnect grace. After either side leaves an in-use session at time d, every run without an explicit close
      keeps the session in the table until d + grace, with an expiry no earlier than that. */
  lemma GraceHolds(cfg: Settings, m: Manager, c: string, d: Time, es: seq<Event>)
    requires Inv(m) && cfg.grace > 0 && InUse(m, c) && Quiet(es, m.byConn[c], d + cfg.grace)
    ensures var sid, m' := m.byConn[c], Run(cfg, Disconnect(cfg, m, c, d), es);
            sid in m'.sessions && m'.sessions[sid].expiresAt >= d + cfg.grace
  {
    RoutedIsBound(m, c);
    DepartureExtends(cfg, m.sessions[m.byConn[c]], c, d);
    Survives(cfg, Disconnect(cfg, m, c, d), es, m.byConn[c], d + cfg.grace);
  }

  /** And as long as its code belongs to no other session, the code leads to it throughout, even when a cleanup
      had already taken the code away before the departure. */
  lemma CodeGraceHolds(cfg: Settings, m: Manager, c: string, d: Time, es: seq<Event>)
    requires Inv(m) && cfg.grace > 0 && InUse(m, c) && Quiet(es, m.byConn[c], d + cfg.grace)
    requires forall id :: id in m.sessions && m.sessions[id].code == m.sessions[m.byConn[c]].code ==> id == m.byConn[c]
    requires CodeReserved(es, m.sessions[m.byConn[c]].code)
    ensures var sid, m' := m.byConn[c], Run(cfg, Disconnect(cfg, m, c, d), es);
            RoutesTo(m'.byCode, m.sessions[sid].code, sid)
  {
    var s := m.sessions[m.byConn[c]];
    RoutedIsBound(m, c);
    DepartureExtends(cfg, s, c, d);
    assert s.id == m.byConn[c];
    assert RoutesTo(Recoded(cfg, m.byCode, s), s.code, s.id);
    CodeSurvives(cfg, Disconnect(cfg, m, c, d), es, m.byConn[c], d + cfg.grace);
  }
}
