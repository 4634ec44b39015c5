/** The indexes and per-IP quotas of the session table stay consistent under every operation. */
module SessionInvariant {
  import opened Options
  import opened SessionSpec

  // ---------- the invariant, index by index ----------

  /** Inside one session. The data plane is ready only while both sides are bound and connected. */
  predicate LocalOk(s: Session) {
    && (s.dataPlaneReady ==> s.share.Some? && s.help.Some? && s.pendingHelp == "")
    && (s.share.Some? ==> s.share.value.id != "")
    && (s.help.Some? ==> s.help.value.id != "" && (s.pendingHelp == "" || s.pendingHelp == s.help.value.id))
    && (s.share.Some? && s.help.Some? ==> s.share.value.id != s.help.value.id)
    && (s.pendingHelp != "" ==> s.timer)
    && (s.counted ==> s.creatorIP != "")
  }

  ghost predicate SessionsOk(sessions: map<string, Session>) {
    forall id :: id in sessions ==> sessions[id].id == id && LocalOk(sessions[id])
  }

  ghost predicate CodesOk(sessions: map<string, Session>, byCode: map<string, string>) {
    forall c :: c in byCode ==> byCode[c] in sessions && sessions[byCode[c]].code == c
  }

  ghost predicate ClientsOk(sessions: map<string, Session>, byClient: map<string, string>) {
    forall c :: c in byClient ==> c != "" && byClient[c] in sessions && sessions[byClient[c]].clientID == c
  }

  predicate RoutesTo(byConn: map<string, string>, c: string, id: string) { c in byConn && byConn[c] == id }

  /** The connected share and help are routed to the session, a help inside the debounce nowhere. */
  predicate RoutedOk(s: Session, id: string, byConn: map<string, string>) {
    && (s.share.Some? ==> RoutesTo(byConn, s.share.value.id, id))
    && (s.help.Some? && s.pendingHelp == "" ==> RoutesTo(byConn, s.help.value.id, id))
    && (s.help.Some? && s.pendingHelp != "" ==> s.help.value.id !in byConn)
  }

  /** byConn maps exactly the connected share and help of each session. */
  ghost predicate ConnsOk(sessions: map<string, Session>, byConn: map<string, string>) {
    && (forall c :: c in byConn ==> byConn[c] in sessions && Bound(sessions[byConn[c]], c))
    && (forall id :: id in sessions ==> RoutedOk(sessions[id], id, byConn))
  }

  function CountedAt(sessions: map<string, Session>, ip: string): set<string> {
    set id | id in sessions && sessions[id].counted && sessions[id].creatorIP == ip
  }

  ghost predicate CountOk(sessions: map<string, Session>, perIP: map<string, nat>, ip: string) {
    && (ip in perIP ==> perIP[ip] == |CountedAt(sessions, ip)| && perIP[ip] > 0)
    && (ip !in perIP ==> CountedAt(sessions, ip) == {})
  }

  /** Each count is the number of live sessions that were charged to the address. */
  ghost predicate CountsOk(sessions: map<string, Session>, perIP: map<string, nat>) {
    forall ip :: CountOk(sessions, perIP, ip)
  }

  ghost predicate Inv(m: Manager) {
    && SessionsOk(m.sessions) && CodesOk(m.sessions, m.byCode) && ClientsOk(m.sessions, m.byClient)
    && ConnsOk(m.sessions, m.byConn) && CountsOk(m.sessions, m.perIP)
  }

  // ---------- updating one session in place ----------

  /** s' is s with another state of its two connections. */
  predicate SameKeys(s: Session, s': Session) {
    s'.id == s.id && s'.code == s.code && s'.clientID == s.clientID && s'.counted == s.counted
      && s'.creatorIP == s.creatorIP
  }

  lemma UpdateKeepsKeys(m: Manager, id: string, s': Session)
    requires id in m.sessions && SameKeys(m.sessions[id], s') && LocalOk(s')
    requires SessionsOk(m.sessions) && CodesOk(m.sessions, m.byCode) && ClientsOk(m.sessions, m.byClient)
    ensures var ss := m.sessions[id := s']; SessionsOk(ss) && CodesOk(ss, m.byCode) && ClientsOk(ss, m.byClient)
  {
  }

  lemma UpdateKeepsCounts(m: Manager, id: string, s': Session)
    requires id in m.sessions && SameKeys(m.sessions[id], s')
    requires CountsOk(m.sessions, m.perIP)
    ensures CountsOk(m.sessions[id := s'], m.perIP)
  {
    var ss := m.sessions[id := s'];
    forall ip
      ensures CountOk(ss, m.perIP, ip)
    {
      assert CountOk(m.sessions, m.perIP, ip);
      assert CountedAt(ss, ip) == CountedAt(m.sessions, ip);
    }
  }

  /** The routes of session id change to those of s' and no others. */
  ghost predicate Rerouted(byConn: map<string, string>, byConn': map<string, string>, id: string, s': Session) {
    && RoutedOk(s', id, byConn')
    && (forall c :: RoutesTo(byConn', c, id) ==> Bound(s', c))
    && (forall c :: c in byConn && byConn[c] != id ==> RoutesTo(byConn', c, byConn[c]))
    && (forall c :: c in byConn' && byConn'[c] != id ==> RoutesTo(byConn, c, byConn'[c]))
  }

  /** No other session has one of the connections of s' inside its debounce. */
  ghost predicate NotPendingElsewhere(m: Manager, id: string, s': Session) {
    forall i :: i in m.sessions && i != id && m.sessions[i].help.Some? && m.sessions[i].pendingHelp != "" ==>
      !Bound(s', m.sessions[i].help.value.id)
  }

  lemma UpdateKeepsConns(m: Manager, id: string, s': Session, byConn': map<string, string>)
    requires id in m.sessions && ConnsOk(m.sessions, m.byConn)
    requires Rerouted(m.byConn, byConn', id, s') && NotPendingElsewhere(m, id, s')
    ensures ConnsOk(m.sessions[id := s'], byConn')
  {
    var ss := m.sessions[id := s'];
    forall c | c in byConn'
      ensures byConn'[c] in ss && Bound(ss[byConn'[c]], c)
    {
      assert byConn'[c] != id ==> RoutesTo(m.byConn, c, byConn'[c]);
      assert RoutesTo(byConn', c, byConn'[c]);
    }
    forall i | i in ss
      ensures RoutedOk(ss[i], i, byConn')
    {
      assert i != id ==> RoutedOk(m.sessions[i], i, m.byConn);
      assert forall c :: c in byConn' ==> RoutesTo(byConn', c, byConn'[c]);
    }
  }

  /** Replacing session id by s' and byConn by byConn' keeps the whole invariant. */
  lemma UpdateKeeps(m: Manager, id: string, s': Session, byConn': map<string, string>)
    requires Inv(m) && id in m.sessions && SameKeys(m.sessions[id], s') && LocalOk(s')
    requires Rerouted(m.byConn, byConn', id, s') && NotPendingElsewhere(m, id, s')
    ensures Inv(m.(sessions := m.sessions[id := s'], byConn := byConn'))
  {
    UpdateKeepsKeys(m, id, s');
    UpdateKeepsCounts(m, id, s');
    UpdateKeepsConns(m, id, s', byConn');
  }

  lemma OldConnsNotPending(m: Manager, id: string, s': Session)
    requires ConnsOk(m.sessions, m.byConn) && id in m.sessions
    requires forall c :: Bound(s', c) ==> Bound(m.sessions[id], c)
    ensures NotPendingElsewhere(m, id, s')
  {
    forall i | i in m.sessions && i != id && m.sessions[i].help.Some? && m.sessions[i].pendingHelp != ""
      ensures !Bound(s', m.sessions[i].help.value.id)
    {
      assert RoutedOk(m.sessions[i], i, m.byConn) && RoutedOk(m.sessions[id], id, m.byConn);
    }
  }

  /** The same when the connections stay as they are. */
  lemma UpdateKeepsBound(m: Manager, id: string, s': Session)
    requires Inv(m) && id in m.sessions && SameKeys(m.sessions[id], s') && LocalOk(s')
    requires s'.share == m.sessions[id].share && s'.help == m.sessions[id].help
             && s'.pendingHelp == m.sessions[id].pendingHelp
    ensures Inv(m.(sessions := m.sessions[id := s']))
  {
    assert RoutedOk(m.sessions[id], id, m.byConn);
    OldConnsNotPending(m, id, s');
    assert Rerouted(m.byConn, m.byConn, id, s');
    UpdateKeeps(m, id, s', m.byConn);
  }

  // ---------- operation by operation ----------

  lemma RoutedIsBound(m: Manager, c: string)
    requires ConnsOk(m.sessions, m.byConn)
    ensures c in m.byConn ==> m.byConn[c] in m.sessions && Bound(m.sessions[m.byConn[c]], c)
  {
  }

  lemma CreateKeepsCount(m: Manager, s: Session, ip: string)
    requires CountOk(m.sessions, m.perIP, ip) && s.id !in m.sessions && s.share.Some?
    ensures CountOk(m.sessions[s.id := s], Create(m, s).perIP, ip)
  {
    var ss := m.sessions[s.id := s];
    if s.counted && s.creatorIP == ip {
      assert CountedAt(ss, ip) == CountedAt(m.sessions, ip) + {s.id};
      assert s.id !in CountedAt(m.sessions, ip);
    } else {
      assert CountedAt(ss, ip) == CountedAt(m.sessions, ip);
    }
  }

  lemma CreateKeepsCounts(m: Manager, s: Session)
    requires CountsOk(m.sessions, m.perIP) && s.id !in m.sessions && s.share.Some?
    ensures CountsOk(m.sessions[s.id := s], Create(m, s).perIP)
  {
    var ss, perIP := m.sessions[s.id := s], Create(m, s).perIP;
    forall ip
      ensures CountOk(ss, perIP, ip)
    {
      CreateKeepsCount(m, s, ip);
    }
  }

  lemma CreateKeepsConns(m: Manager, s: Session)
    requires ConnsOk(m.sessions, m.byConn) && s.id !in m.sessions && s.share.Some? && s.help.None?
    requires Fresh(m, s.share.value.id)
    ensures ConnsOk(m.sessions[s.id := s], m.byConn[s.share.value.id := s.id])
  {
    var ss, cs := m.sessions[s.id := s], m.byConn[s.share.value.id := s.id];
    forall i | i in ss
      ensures RoutedOk(ss[i], i, cs)
    {
      assert i != s.id ==> RoutedOk(m.sessions[i], i, m.byConn) && !Mentions(m.sessions[i], s.share.value.id);
    }
  }

  lemma CreateKeeps(m: Manager, s: Session)
    requires Inv(m) && s.id !in m.sessions && LocalOk(s) && s.share.Some? && s.help.None?
    requires Fresh(m, s.share.value.id)
    ensures Inv(Create(m, s))
  {
    CreateKeepsKeys(m, s);
    CreateKeepsCounts(m, s);
    CreateKeepsConns(m, s);
  }

  lemma CreateKeepsKeys(m: Manager, s: Session)
    requires SessionsOk(m.sessions) && CodesOk(m.sessions, m.byCode) && ClientsOk(m.sessions, m.byClient)
    requires s.id !in m.sessions && LocalOk(s) && s.share.Some?
    ensures var m' := Create(m, s);
            SessionsOk(m'.sessions) && CodesOk(m'.sessions, m'.byCode) && ClientsOk(m'.sessions, m'.byClient)
  {
  }

  lemma FreshNotPending(m: Manager, id: string, s': Session, c: string)
    requires ConnsOk(m.sessions, m.byConn) && id in m.sessions && Fresh(m, c)
    requires forall d :: Bound(s', d) ==> d == c || Bound(m.sessions[id], d)
    ensures NotPendingElsewhere(m, id, s')
  {
    forall i | i in m.sessions && i != id && m.sessions[i].help.Some? && m.sessions[i].pendingHelp != ""
      ensures !Bound(s', m.sessions[i].help.value.id)
    {
      assert RoutedOk(m.sessions[i], i, m.byConn) && RoutedOk(m.sessions[id], id, m.byConn);
      assert !Mentions(m.sessions[i], c);
    }
  }

  lemma ReuseRoutes(m: Manager, id: string, s': Session, c: Conn)
    requires ConnsOk(m.sessions, m.byConn) && id in m.sessions && c.id !in m.byConn
    requires s'.share == Some(c) && s'.help == None
    ensures var s := m.sessions[id]; Rerouted(m.byConn, Unbind(Unbind(m.byConn, s.share), s.help)[c.id := id], id, s')
  {
    var s := m.sessions[id];
    assert RoutedOk(s, id, m.byConn);
    var cs := Unbind(Unbind(m.byConn, s.share), s.help)[c.id := id];
    forall d | RoutesTo(cs, d, id)
      ensures Bound(s', d)
    {
      RoutedIsBound(m, d);
    }
  }

  lemma ReuseKeeps(cfg: Settings, m: Manager, clientID: string, c: Conn, now: Time)
    requires Inv(m) && Fresh(m, c.id)
    ensures Inv(Reuse(cfg, m, clientID, c, now))
  {
    var d := Decide(cfg, m, clientID, c, now);
    if d != NoSession {
      var id := m.byClient[clientID];
      var s := m.sessions[id];
      var charged := Charge(cfg, s, c, now);
      ChargeOk(cfg, s, c, now);
      if d == Conflict {
        UpdateKeepsBound(m, id, charged);
      } else {
        ReboundKeeps(m, id, Rebound(charged, c), c);
      }
    }
  }

  lemma ChargeOk(cfg: Settings, s: Session, c: Conn, now: Time)
    requires LocalOk(s) && c.id != ""
    ensures var t := Charge(cfg, s, c, now);
            && SameKeys(s, t) && LocalOk(t) && t.share == s.share && t.help == s.help && t.pendingHelp == s.pendingHelp
            && SameKeys(s, Rebound(t, c)) && LocalOk(Rebound(t, c))
  {
  }

  lemma ReboundKeeps(m: Manager, id: string, s': Session, c: Conn)
    requires Inv(m) && Fresh(m, c.id) && id in m.sessions
    requires SameKeys(m.sessions[id], s') && LocalOk(s') && s'.share == Some(c) && s'.help == None
    ensures var s := m.sessions[id];
            Inv(m.(sessions := m.sessions[id := s'], byConn := Unbind(Unbind(m.byConn, s.share), s.help)[c.id := id]))
  {
    var s := m.sessions[id];
    ReuseRoutes(m, id, s', c);
    FreshNotPending(m, id, s', c.id);
    UpdateKeeps(m, id, s', Unbind(Unbind(m.byConn, s.share), s.help)[c.id := id]);
  }

  lemma MarkReadyKeeps(m: Manager, id: string, shareID: string)
    requires Inv(m)
    ensures Inv(MarkReady(m, id, shareID))
  {
    if id in m.sessions {
      UpdateKeepsBound(m, id, m.sessions[id].(shareReady := true));
    }
  }

  lemma JoinRoutes(m: Manager, id: string, s': Session, h: Conn)
    requires ConnsOk(m.sessions, m.byConn) && id in m.sessions && Fresh(m, h.id)
    requires var s := m.sessions[id]; LocalOk(s) && s'.share == s.share && s'.help == Some(h) && s'.pendingHelp == ""
    requires var s := m.sessions[id]; s.help.Some? ==> s.pendingHelp != ""
    ensures Rerouted(m.byConn, Unbind(m.byConn, m.sessions[id].help)[h.id := id], id, s')
  {
    var s := m.sessions[id];
    assert RoutedOk(s, id, m.byConn) && !Mentions(s, h.id);
    var cs := Unbind(m.byConn, s.help)[h.id := id];
    forall d | RoutesTo(cs, d, id)
      ensures Bound(s', d)
    {
      RoutedIsBound(m, d);
    }
  }

  lemma JoinKeeps(m: Manager, code: string, h: Conn, now: Time)
    requires Inv(m) && Fresh(m, h.id)
    ensures Inv(Join(m, code, h, now))
  {
    var o := JoinCheck(m, code, now);
    if o.Joined? {
      var s := m.sessions[o.id];
      assert LocalOk(s) && !Mentions(s, h.id);
      JoinRoutes(m, o.id, WithHelp(s, h), h);
      FreshNotPending(m, o.id, WithHelp(s, h), h.id);
      UpdateKeeps(m, o.id, WithHelp(s, h), Unbind(m.byConn, s.help)[h.id := o.id]);
    }
  }

  /** Taking one connection out of a session. */
  lemma LeaveKeeps(m: Manager, id: string, s': Session, c: string)
    requires Inv(m) && id in m.sessions && SameKeys(m.sessions[id], s') && LocalOk(s')
    requires forall d :: Bound(s', d) <==> Bound(m.sessions[id], d) && d != c
    requires s'.help.Some? && s'.pendingHelp != "" ==> s'.help.value.id == c || s'.help.value.id !in m.byConn
    requires c in m.byConn ==> m.byConn[c] == id
    ensures Inv(m.(sessions := m.sessions[id := s'], byConn := m.byConn - {c}))
  {
    assert RoutedOk(m.sessions[id], id, m.byConn);
    OldConnsNotPending(m, id, s');
    var cs := m.byConn - {c};
    assert s'.share.Some? ==> Bound(s', s'.share.value.id);
    assert s'.help.Some? && s'.pendingHelp == "" ==> Bound(s', s'.help.value.id);
    forall d | RoutesTo(cs, d, id)
      ensures Bound(s', d)
    {
      RoutedIsBound(m, d);
    }
    UpdateKeeps(m, id, s', cs);
  }

  lemma RollbackKeeps(m: Manager, id: string, helpID: string)
    requires Inv(m)
    ensures Inv(Rollback(m, id, helpID))
  {
    if id in m.sessions && m.sessions[id].help.Some? && m.sessions[id].help.value.id == helpID {
      assert RoutedOk(m.sessions[id], id, m.byConn);
      LeaveKeeps(m, id, m.sessions[id].(help := None, dataPlaneReady := false), helpID);
    }
  }

  lemma ActivateKeeps(m: Manager, id: string, shareID: string, helpID: string)
    requires Inv(m)
    ensures Inv(Activate(m, id, shareID, helpID))
  {
    if MayActivate(m, id, shareID, helpID) {
      UpdateKeepsBound(m, id, m.sessions[id].(dataPlaneReady := true));
    }
  }

  lemma DeleteKeepsCount(m: Manager, id: string, ip: string)
    requires CountOk(m.sessions, m.perIP, ip) && id in m.sessions && LocalOk(m.sessions[id])
    ensures CountOk(m.sessions - {id}, Delete(m, id).perIP, ip)
  {
    CountedDrop(m.sessions, id, ip);
    var s := m.sessions[id];
    if s.counted {
      DecrementCounts(m.perIP, s.creatorIP, ip, |CountedAt(m.sessions, ip)|);
    }
  }

  lemma CountedDrop(sessions: map<string, Session>, id: string, ip: string)
    requires id in sessions
    ensures var here := sessions[id].counted && sessions[id].creatorIP == ip;
            |CountedAt(sessions - {id}, ip)| == |CountedAt(sessions, ip)| - if here then 1 else 0
  {
    assert CountedAt(sessions - {id}, ip) == CountedAt(sessions, ip) - {id};
    assert sessions[id].counted && sessions[id].creatorIP == ip ==> id in CountedAt(sessions, ip);
  }

  /** The count of an address, absent when it is zero. */
  predicate Counts(perIP: map<string, nat>, ip: string, n: nat) {
    if ip in perIP then perIP[ip] == n && n > 0 else n == 0
  }

  lemma DecrementCounts(perIP: map<string, nat>, gone: string, ip: string, n: nat)
    requires Counts(perIP, ip, n) && gone != "" && (gone == ip ==> n > 0)
    ensures Counts(Decrement(perIP, gone), ip, if gone == ip then n - 1 else n)
  {
  }

  lemma DeleteKeepsCounts(m: Manager, id: string)
    requires CountsOk(m.sessions, m.perIP) && id in m.sessions && LocalOk(m.sessions[id])
    ensures CountsOk(m.sessions - {id}, Delete(m, id).perIP)
  {
    var ss, perIP := m.sessions - {id}, Delete(m, id).perIP;
    forall ip
      ensures CountOk(ss, perIP, ip)
    {
      DeleteKeepsCount(m, id, ip);
    }
  }

  /** Deleting a session drops exactly the routes that lead to it. */
  lemma DeleteRoutes(m: Manager, id: string, c: string)
    requires ConnsOk(m.sessions, m.byConn) && id in m.sessions
    ensures var cs := Delete(m, id).byConn;
            && (c in cs <==> c in m.byConn && m.byConn[c] != id)
            && (c in cs ==> cs[c] == m.byConn[c])
  {
    assert RoutedOk(m.sessions[id], id, m.byConn);
    RoutedIsBound(m, c);
  }

  lemma DeleteKeepsConns(m: Manager, id: string)
    requires ConnsOk(m.sessions, m.byConn) && id in m.sessions
    ensures ConnsOk(m.sessions - {id}, Delete(m, id).byConn)
  {
    var ss, cs := m.sessions - {id}, Delete(m, id).byConn;
    forall c
      ensures (c in cs <==> c in m.byConn && m.byConn[c] != id) && (c in cs ==> cs[c] == m.byConn[c])
    {
      DeleteRoutes(m, id, c);
    }
    forall i | i in ss
      ensures RoutedOk(ss[i], i, cs)
    {
      assert RoutedOk(m.sessions[i], i, m.byConn);
    }
  }

  lemma DeleteKeepsKeys(m: Manager, id: string)
    requires SessionsOk(m.sessions) && CodesOk(m.sessions, m.byCode) && ClientsOk(m.sessions, m.byClient)
             && id in m.sessions
    ensures var m' := Delete(m, id);
            SessionsOk(m'.sessions) && CodesOk(m'.sessions, m'.byCode) && ClientsOk(m'.sessions, m'.byClient)
  {
  }

  lemma DeleteKeeps(m: Manager, id: string)
    requires Inv(m)
    ensures Inv(Delete(m, id))
  {
    if id in m.sessions {
      DeleteKeepsKeys(m, id);
      DeleteKeepsConns(m, id);
      DeleteKeepsCounts(m, id);
    }
  }

  /** Restoring the code of a live session. */
  lemma RecodeKeeps(cfg: Settings, m: Manager, s: Session)
    requires Inv(m) && s.id in m.sessions && m.sessions[s.id].code == s.code
    ensures Inv(m.(byCode := Recoded(cfg, m.byCode, s)))
  {
  }

  /** What the session's index entries and pending mark see of a departure. */
  ghost predicate Left(s: Session, s': Session, c: string) {
    && SameKeys(s, s') && LocalOk(s')
    && (forall d :: Bound(s', d) <==> Bound(s, d) && d != c)
    && (s'.help.Some? && s'.pendingHelp != "" ==> s'.help.value.id == c || (s.help == s'.help && s.pendingHelp != ""))
  }

  lemma HelpLeftOk(s: Session, c: string)
    requires LocalOk(s) && Bound(s, c) && s.help.Some? && s.help.value.id == c
    ensures Left(s, HelpLeft(s), c)
  {
  }

  lemma ShareLeftOk(s: Session, c: string)
    requires LocalOk(s) && Bound(s, c) && !(s.help.Some? && s.help.value.id == c)
    ensures Left(s, ShareLeft(s), c)
  {
  }

  lemma LaterLeft(s: Session, t: Session, s': Session, c: string)
    requires t == s.(expiresAt := t.expiresAt)
    ensures Left(t, s', c) ==> Left(s, s', c)
    ensures LocalOk(s) ==> LocalOk(t)
    ensures Bound(s, c) ==> Bound(t, c)
  {
    assert forall d :: Bound(t, d) <==> Bound(s, d);
  }

  lemma DepartedOk(cfg: Settings, s: Session, c: string, now: Time)
    requires LocalOk(s) && Bound(s, c)
    ensures Left(s, Departed(cfg, s, c, now), c)
  {
    var t := if s.share.Some? && s.help.Some? then Extended(cfg, s, now) else s;
    LaterLeft(s, t, Departed(cfg, s, c, now), c);
    if s.help.Some? && s.help.value.id == c {
      HelpLeftOk(t, c);
    } else {
      ShareLeftOk(t, c);
    }
  }

  lemma DisconnectKeeps(cfg: Settings, m: Manager, c: string, now: Time)
    requires Inv(m)
    ensures Inv(Disconnect(cfg, m, c, now))
  {
    if c in m.byConn {
      RoutedIsBound(m, c);
      var id := m.byConn[c];
      var s := m.sessions[id];
      assert RoutedOk(s, id, m.byConn) && LocalOk(s) && s.id == id;
      var s' := Departed(cfg, s, c, now);
      DepartedOk(cfg, s, c, now);
      LeaveKeeps(m, id, s', c);
      RecodeKeeps(cfg, m.(sessions := m.sessions[id := s'], byConn := m.byConn - {c}), s);
    }
  }

  lemma DebounceKeeps(m: Manager, id: string)
    requires Inv(m)
    ensures Inv(Debounce(m, id))
  {
    if id in m.sessions && m.sessions[id].help.Some? && m.sessions[id].help.value.id == m.sessions[id].pendingHelp {
      var s := m.sessions[id];
      assert RoutedOk(s, id, m.byConn) && LocalOk(s);
      LeaveKeeps(m, id, s.(help := None, pendingHelp := ""), s.pendingHelp);
      assert m.byConn - {s.pendingHelp} == m.byConn;
    }
  }

  lemma CleanOneKeeps(m: Manager, id: string, now: Time)
    requires Inv(m)
    ensures Inv(CleanOne(m, id, now))
  {
    if id in m.sessions {
      DeleteKeeps(m, id);
    }
  }

  lemma UpdateAddrKeeps(m: Manager, c: string, addrs: set<string>)
    requires Inv(m)
    ensures Inv(UpdateAddr(m, c, addrs))
  {
    if c in m.byConn && m.byConn[c] in m.sessions {
      var s := m.sessions[m.byConn[c]];
      UpdateKeepsBound(m, m.byConn[c], s.(shareAddrs := addrs));
      UpdateKeepsBound(m, m.byConn[c], s.(helpAddrs := addrs));
    }
  }

  // ---------- what the invariant gives ----------

  /** FindPeer never crosses sessions: the peer is the other side of the one session the connection is bound
      to, and a connected peer finds the way back. */
  lemma FindPeerStaysInside(m: Manager, c: string)
    requires Inv(m)
    ensures var p := FindPeer(m, c);
            && (p.Some? ==> c in m.byConn && Mentions(m.sessions[m.byConn[c]], p.value.id) && p.value.id != c)
            && (p.Some? && p.value.id in m.byConn ==>
                  m.byConn[p.value.id] == m.byConn[c] && FindPeer(m, p.value.id).Some?
                    && FindPeer(m, p.value.id).value.id == c)
  {
    if c in m.byConn {
      var id := m.byConn[c];
      assert RoutedOk(m.sessions[id], id, m.byConn) && LocalOk(m.sessions[id]);
    }
  }

  /** FindPeer finds: a bound share gets the session's help, if any, and a connected help its share. */
  lemma FindPeerFinds(m: Manager, id: string)
    requires Inv(m) && id in m.sessions
    ensures var s := m.sessions[id];
            && (s.share.Some? ==> FindPeer(m, s.share.value.id) == s.help)
            && (s.help.Some? && s.pendingHelp == "" ==> FindPeer(m, s.help.value.id) == s.share)
  {
    assert RoutedOk(m.sessions[id], id, m.byConn) && LocalOk(m.sessions[id]);
  }

  /** No address holds more live counted sessions than the limit its registrations were checked against. */
  lemma QuotaRespected(m: Manager, s: Session, maxPerIP: int, maxTotal: int)
    requires Inv(m) && s.id !in m.sessions && s.share.Some? && s.counted && maxPerIP > 0 && s.creatorIP != ""
    requires MayCreate(m, s.creatorIP, maxPerIP, maxTotal)
    ensures var m' := Create(m, s); |CountedAt(m'.sessions, s.creatorIP)| <= maxPerIP && |m'.sessions| <= maxTotal
  {
    assert CountOk(m.sessions, m.perIP, s.creatorIP);
    CreateKeepsCount(m, s, s.creatorIP);
  }
}
