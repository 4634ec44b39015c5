/**
 What the session table of internal/relay/session.go is for: a helper with the right code is paired with the
 side that shares, and the two are routed to each other and to nobody else.
 */
module SessionPairing {
  import opened Options
  import opened SessionSpec
  import opened SessionInvariant

  /** Only the entry of this session differs. */
  ghost predicate OthersSame(m: Manager, m': Manager, id: string) {
    m'.sessions.Keys == m.sessions.Keys && forall i :: i in m.sessions && i != id ==> m'.sessions[i] == m.sessions[i]
  }

  /** A registration is let in exactly while there is room: the address is charged for the sessions it really has. */
  lemma MayCreateIff(m: Manager, ip: string, maxPerIP: int, maxTotal: int)
    requires Inv(m)
    ensures MayCreate(m, ip, maxPerIP, maxTotal) <==>
            |m.sessions| < maxTotal && (ip == "" || maxPerIP <= 0 || |CountedAt(m.sessions, ip)| < maxPerIP)
  {
    assert CountOk(m.sessions, m.perIP, ip);
  }

  /** A code that has been given out lets a helper in until it expires, once the sharing side is ready. */
  lemma CreatedCanBeJoined(m: Manager, s: Session, now: Time)
    requires s.share.Some? && s.help.None? && s.pendingHelp == ""
    ensures var m' := Create(m, s);
            JoinCheck(m', s.code, now)
            == (if now > s.expiresAt then CodeExpired else if s.shareReady then Joined(s.id, s.share.value.id) else
            NotFound)
    ensures var m' := MarkReady(Create(m, s), s.id, s.share.value.id);
            now <= s.expiresAt ==> JoinCheck(m', s.code, now) == Joined(s.id, s.share.value.id)
  {
  }

  lemma JoinedShape(m: Manager, code: string, h: Conn, now: Time)
    requires Inv(m) && JoinCheck(m, code, now).Joined?
    ensures var o := JoinCheck(m, code, now);
            && o.id in m.sessions && LocalOk(m.sessions[o.id]) && RoutedOk(m.sessions[o.id], o.id, m.byConn)
            && m.sessions[o.id].code == code && m.sessions[o.id].share.Some? && m.sessions[o.id].shareReady
            && m.sessions[o.id].share.value.id == o.shareID
            && (m.sessions[o.id].help.Some? ==> m.sessions[o.id].help.value.id !in m.byConn)
            && Join(m, code, h, now).sessions == m.sessions[o.id := WithHelp(m.sessions[o.id], h)]
            && Join(m, code, h, now).byConn == Unbind(m.byConn, m.sessions[o.id].help)[h.id := o.id]
  {
  }

  /** A join that is let in can be activated; then the session is active, its two sides are each other's peers, and
      no other session has changed. */
  lemma PairingWorks(m: Manager, code: string, h: Conn, now: Time)
    requires Inv(m) && Fresh(m, h.id) && JoinCheck(m, code, now).Joined?
    ensures var o := JoinCheck(m, code, now);
            var joined := Join(m, code, h, now);
            var active := Activate(joined, o.id, o.shareID, h.id);
            && MayActivate(joined, o.id, o.shareID, h.id) && !IsActive(joined, o.id)
            && IsActive(active, o.id) && OthersSame(m, active, o.id)
            && FindPeer(active, o.shareID) == Some(h) && FindPeer(active, h.id) == m.sessions[o.id].share
  {
    var o := JoinCheck(m, code, now);
    JoinedShape(m, code, h, now);
    var joined := Join(m, code, h, now);
    assert MayActivate(joined, o.id, o.shareID, h.id);
    JoinKeeps(m, code, h, now);
    ActivateKeeps(joined, o.id, o.shareID, h.id);
    FindPeerFinds(Activate(joined, o.id, o.shareID, h.id), o.id);
  }

  /** A rolled-back join leaves the routes as they were and the session without a help, open to the next one. */
  lemma RollbackUndoesJoin(m: Manager, code: string, h: Conn, now: Time)
    requires Inv(m) && Fresh(m, h.id) && JoinCheck(m, code, now).Joined?
    ensures var o := JoinCheck(m, code, now);
            var m' := Rollback(Join(m, code, h, now), o.id, h.id);
            && m'.byConn == m.byConn && m'.byCode == m.byCode && OthersSame(m, m', o.id)
            && PairedAs(m'.sessions[o.id], m.sessions[o.id].share, None)
            && JoinCheck(m', code, now) == o && FindPeer(m', o.shareID) == None
  {
    var o := JoinCheck(m, code, now);
    JoinedShape(m, code, h, now);
    assert Unbind(m.byConn, m.sessions[o.id].help) == m.byConn;
    assert m.byConn[h.id := o.id] - {h.id} == m.byConn;
  }

  predicate PairedAs(s: Session, share: Option<Conn>, help: Option<Conn>) { s.share == share && s.help == help }

  lemma ReusedShape(cfg: Settings, m: Manager, clientID: string, c: Conn, now: Time)
    requires Inv(m) && Decide(cfg, m, clientID, c, now) == Reused
    ensures clientID in m.byClient && m.byClient[clientID] in m.sessions
    ensures var id := m.byClient[clientID];
            var s := m.sessions[id];
            var m' := Reuse(cfg, m, clientID, c, now);
            && m'.sessions == m.sessions[id := Rebound(Charge(cfg, s, c, now), c)]
            && m'.byConn == Unbind(Unbind(m.byConn, s.share), s.help)[c.id := id] && m'.byCode == m.byCode
            && s.id == id && now <= s.expiresAt
  {
  }

  /** A session's routes, once its sides have been unbound, are those of the newcomer. */
  lemma UnboundRoutes(m: Manager, id: string, c: string, d: string)
    requires Inv(m) && id in m.sessions
    ensures RoutesTo(Unbind(Unbind(m.byConn, m.sessions[id].share), m.sessions[id].help)[c := id], d, id) <==> d == c
  {
    if d in m.byConn { assert Bound(m.sessions[m.byConn[d]], d); }
  }

  /** After a takeover the newcomer alone is bound: the displaced share and its help are routed nowhere, and nobody
      can join before the newcomer is ready. */
  lemma TakeoverBinds(cfg: Settings, m: Manager, clientID: string, c: Conn, now: Time)
    requires Inv(m) && Fresh(m, c.id) && Decide(cfg, m, clientID, c, now) == Reused
    ensures var id := m.byClient[clientID];
            var m' := Reuse(cfg, m, clientID, c, now);
            && OthersSame(m, m', id) && PairedAs(m'.sessions[id], Some(c), None) && !IsActive(m', id)
            && m'.sessions[id].code == m.sessions[id].code && m'.sessions[id].expiresAt == m.sessions[id].expiresAt
            && (forall d :: RoutesTo(m'.byConn, d, id) <==> d == c.id)
            && (LeadsTo(m, m.sessions[id].code, id) ==>
                  && JoinCheck(m', m.sessions[id].code, now) == NotFound
                  && JoinCheck(MarkReady(m', id, c.id), m.sessions[id].code, now) == Joined(id, c.id))
  {
    ReusedShape(cfg, m, clientID, c, now);
    forall d
      ensures RoutesTo(Reuse(cfg, m, clientID, c, now).byConn, d, m.byClient[clientID]) <==> d == c.id
    {
      UnboundRoutes(m, m.byClient[clientID], c.id, d);
    }
  }

  predicate LeadsTo(m: Manager, code: string, id: string) { code in m.byCode && m.byCode[code] == id }

  /** A help that drops is unrouted and the session goes down at once, but the code lets it, or another, in again
      without waiting for the debounce, for as long as the grace lasts at least. */
  lemma HelpMayRejoin(cfg: Settings, m: Manager, id: string, now: Time, later: Time)
    requires Inv(m) && IsActive(m, id)
    requires later <= m.sessions[id].expiresAt || (cfg.grace > 0 && later <= now + cfg.grace)
    requires LeadsTo(m, m.sessions[id].code, id) || (m.sessions[id].code !in m.byCode && cfg.grace > 0)
    ensures var s := m.sessions[id];
            var m' := Disconnect(cfg, m, s.help.value.id, now);
            && !IsActive(m', id) && FindPeer(m', s.help.value.id) == None
            && JoinCheck(m', s.code, later) == Joined(id, s.share.value.id)
  {
    assert LocalOk(m.sessions[id]) && RoutedOk(m.sessions[id], id, m.byConn);
  }

  /** A share that drops leaves its help bound and without a peer; nobody can join until a share is back. */
  lemma ShareLeaves(cfg: Settings, m: Manager, id: string, now: Time, later: Time)
    requires Inv(m) && id in m.sessions && m.sessions[id].share.Some?
    ensures var s := m.sessions[id];
            var m' := Disconnect(cfg, m, s.share.value.id, now);
            && !IsActive(m', id) && FindPeer(m', s.share.value.id) == None && PairedAs(m'.sessions[id], None, s.help)
            && (s.help.Some? ==> FindPeer(m', s.help.value.id) == None)
            && !(JoinCheck(m', s.code, later).Joined? && JoinCheck(m', s.code, later).id == id)
  {
    assert LocalOk(m.sessions[id]) && RoutedOk(m.sessions[id], id, m.byConn);
  }

  /** The debounce lets go of the help that left, and of no other. */
  lemma DebounceClears(m: Manager, id: string)
    requires Inv(m) && id in m.sessions
    ensures var s, m' := m.sessions[id], Debounce(m, id);
            && OthersSame(m, m', id) && m'.byConn == m.byConn && m'.byCode == m.byCode
            && PairedAs(m'.sessions[id], s.share, if s.pendingHelp != "" then None else s.help)
            && m'.sessions[id].pendingHelp == if s.help.Some? then "" else s.pendingHelp
  {
    assert LocalOk(m.sessions[id]);
  }

  /** A share that reconnects under its client ID while its session lives gets it back, unless another share is
      there. */
  lemma ShareMayReturn(cfg: Settings, m: Manager, id: string, c: Conn, now: Time)
    requires Inv(m) && Fresh(m, c.id) && id in m.sessions && m.sessions[id].clientID != ""
    requires m.sessions[id].clientID in m.byClient && m.byClient[m.sessions[id].clientID] == id
    requires m.sessions[id].share.None? && now <= m.sessions[id].expiresAt
    ensures var m' := Reuse(cfg, m, m.sessions[id].clientID, c, now);
            && Decide(cfg, m, m.sessions[id].clientID, c, now) == Reused
            && PairedAs(m'.sessions[id], Some(c), None) && RoutesTo(m'.byConn, c.id, id)
            && m'.sessions[id].expiresAt == m.sessions[id].expiresAt
  {
  }

  /** Until then its session can be found under the client ID it registered. */
  lemma CreatedIsFound(cfg: Settings, m: Manager, s: Session, now: Time, c: Conn, later: Time)
    requires Inv(m) && s.id !in m.sessions && s.share.Some? && s.help.None? && s.clientID != ""
    requires later <= s.expiresAt
    ensures var m' := Disconnect(cfg, Create(m, s), s.share.value.id, now);
            && s.id in m'.sessions && m'.sessions[s.id].share.None?
            && Decide(cfg, m', s.clientID, c, later) == Reused && m'.byClient[s.clientID] == s.id
  {
  }

  /** A session that is closed is forgotten altogether: no code, client or connection leads to it. */
  lemma ClosedIsForgotten(m: Manager, id: string)
    requires Inv(m)
    ensures var m' := Delete(m, id);
            && m'.sessions == m.sessions - {id}
            && (forall code :: !LeadsTo(m', code, id)) && (forall c :: !RoutesTo(m'.byConn, c, id))
            && (forall k :: !(k in m'.byClient && m'.byClient[k] == id))
            && (id in m.sessions ==> forall c :: Mentions(m.sessions[id], c) ==> FindPeer(m', c).None?)
  {
    DeleteKeeps(m, id);
    var m' := Delete(m, id);
    forall c | c in m'.byConn
      ensures m'.byConn[c] != id && (id in m.sessions ==> !Mentions(m.sessions[id], c))
    {
      ForgottenConn(m, id, c);
    }
  }

  lemma ForgottenConn(m: Manager, id: string, c: string)
    requires Inv(m) && c in Delete(m, id).byConn
    ensures Delete(m, id).byConn[c] != id && (id in m.sessions ==> !Mentions(m.sessions[id], c))
  {
    if id in m.sessions {
      assert RoutedOk(m.sessions[id], id, m.byConn);
    }
  }

  /** Cleanup, session by session: before its time nothing happens; after it the code is withdrawn from a session
      in use,
      and any other is closed. */
  lemma CleanupMeans(m: Manager, id: string, now: Time)
    requires Inv(m) && id in m.sessions
    ensures var s, m' := m.sessions[id], CleanOne(m, id, now);
            if now <= s.expiresAt then m' == m
            else if s.share.Some? && s.help.Some? then
              && m'.sessions == m.sessions && m'.byConn == m.byConn && m'.perIP == m.perIP
              && (forall code :: !LeadsTo(m', code, id))
              && (forall code, i :: i != id ==> (LeadsTo(m', code, i) <==> LeadsTo(m, code, i)))
            else id !in m'.sessions
  {
  }
}
