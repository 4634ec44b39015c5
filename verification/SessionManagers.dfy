/**
 SessionManager of internal/relay/session.go: four maps of shared session objects under one mutex. Every
 method is the code's own sequence of updates, proved to have exactly the effect that SessionSpec describes,
 and to keep the invariant of SessionInvariant.
 */
module SessionManagers {
  import opened Options
  import opened SessionSpec
  import opened SessionInvariant

  /** A session object. Its fields are kept together in one record; maps share references to it. */
  class TunnelSession {
    var v: Session

    constructor (v: Session)
      ensures this.v == v
    {
      this.v := v;
    }
  }

  function Ids(c: Option<Conn>): set<string> { if c.Some? then {c.value.id} else {} }

  /** An index without the key, if it leads to this session. */
  function Without(index: map<string, string>, k: string, id: string): map<string, string> {
    if k in index && index[k] == id then index - {k} else index
  }

  /** No index refers to this session. */
  ghost predicate Nameless(m: Manager, id: string) {
    id !in m.byCode.Values && id !in m.byClient.Values && id !in m.byConn.Values
  }

  lemma Unnamed(m: Manager, id: string)
    requires Inv(m) && id !in m.sessions
    ensures Nameless(m, id)
  {
  }

  lemma {:induction false} RecentShorter(times: seq<Time>, now: Time, window: Time)
    ensures |Recent(times, now, window)| <= |times|
    decreases |times|
  {
    if times != [] { RecentShorter(times[..|times| - 1], now, window); }
  }

  class SessionManager {
    const cfg: Settings
    var sessions: map<string, TunnelSession>
    var byCode: map<string, TunnelSession>
    var byClientID: map<string, TunnelSession>
    var byConnID: map<string, TunnelSession>
    var countPerIP: map<string, nat>

    /** The table as a value, and every session object made so far. */
    ghost var view: Manager
    ghost var all: set<TunnelSession>

    /** The index holds, under each key, the session object whose ID the view has there. */
    ghost predicate Mirrors(index: map<string, TunnelSession>, names: map<string, string>)
      reads this
    {
      index.Keys == names.Keys && forall k :: k in index ==> names[k] in sessions && index[k] == sessions[names[k]]
    }

    ghost predicate Linked()
      reads this, all
    {
      && sessions.Keys == view.sessions.Keys && countPerIP == view.perIP
      && (forall id :: id in sessions ==>
                         sessions[id] in all && sessions[id].v == view.sessions[id] && view.sessions[id].id == id)
      && Mirrors(byCode, view.byCode) && Mirrors(byClientID, view.byClient) && Mirrors(byConnID, view.byConn)
    }

    /** The session is in the table. */
    ghost predicate Live(s: TunnelSession)
      reads this, s
    {
      s.v.id in sessions && sessions[s.v.id] == s
    }

    ghost predicate Valid()
      reads this, all
    {
      Linked() && Inv(view)
    }

    constructor (cfg: Settings)
      ensures Valid() && this.cfg == cfg && view == Manager(map[], map[], map[], map[], map[])
    {
      this.cfg := cfg;
      sessions, byCode, byClientID, byConnID, countPerIP := map[], map[], map[], map[], map[];
      view, all := Manager(map[], map[], map[], map[], map[]), {};
      new;
      forall ip
        ensures CountOk(view.sessions, view.perIP, ip)
      {
        assert CountedAt(view.sessions, ip) == {};
      }
    }

    /** Writing fields of one session object changes that session everywhere it is indexed, and no other. */
    method Write(s: TunnelSession, v: Session)
      requires Linked() && s in all && Live(s) && v.id == s.v.id
      modifies s, this`view
      ensures Linked() && s.v == v && view == old(view).(sessions := old(view).sessions[v.id := v])
    {
      s.v := v;
      view := view.(sessions := view.sessions[v.id := v]);
    }

    /** Writing a session's fields and its routes: the connections in `gone` are deleted from byConnID, then the
        connection in `come`, if any, is entered. */
    method Reroute(s: TunnelSession, v: Session, gone: set<string>, come: Option<string>)
      requires Linked() && s in all && Live(s) && v.id == s.v.id
      modifies s, this`byConnID, this`view
      ensures Linked()
      ensures view == old(view).(sessions := old(view).sessions[v.id := v],
                                 byConn := if come.None? then old(view).byConn - gone
                                           else (old(view).byConn - gone)[come.value := v.id])
    {
      byConnID := byConnID - gone;
      if come.Some? {
        byConnID := byConnID[come.value := s];
      }
      view := view.(byConn := if come.Some? then (view.byConn - gone)[come.value := v.id] else view.byConn - gone);
      Write(s, v);
    }

    method MarkShareReady(id: string, shareID: string) returns (ok: bool)
      requires Valid()
      modifies all, this`view
      ensures Valid() && view == MarkReady(old(view), id, shareID)
      ensures ok <==>
              id in sessions && old(view).sessions[id].share.Some? && old(view).sessions[id].share.value.id == shareID
    {
      MarkReadyKeeps(view, id, shareID);
      ok := false;
      if id in sessions {
        var s := sessions[id];
        if s.v.share.Some? && s.v.share.value.id == shareID {
          Write(s, s.v.(shareReady := true));
          ok := true;
        }
      }
    }
  
    // ---------- registering ----------

    /** The limits of createSession. */
    method HasRoom(ip: string, maxPerIP: int, maxTotal: int) returns (ok: bool)
      requires Linked()
      ensures ok <==> MayCreate(view, ip, maxPerIP, maxTotal)
    {
      assert |sessions.Keys| == |view.sessions.Keys|;
      if |sessions| >= maxTotal {
        return false;
      }
      if ip != "" && maxPerIP > 0 {
        var perIP := if ip in countPerIP then countPerIP[ip] else 0;
        if perIP >= maxPerIP {
          return false;
        }
      }
      ok := true;
    }

    /** A new session object enters the table. */
    method Enter(v: Session) returns (s: TunnelSession)
      requires Linked() && v.id !in sessions
      modifies this`sessions, this`view, this`all
      ensures fresh(s) && all == old(all) + {s} && s.v == v && Live(s)
      ensures Linked() && view == old(view).(sessions := old(view).sessions[v.id := v])
    {
      s := new TunnelSession(v);
      all := all + {s};
      sessions := sessions[v.id := s];
      view := view.(sessions := view.sessions[v.id := v]);
    }

    method SetCode(k: string, s: TunnelSession)
      requires Linked() && s in all && Live(s)
      modifies this`byCode, this`view
      ensures Linked() && view == old(view).(byCode := old(view).byCode[k := s.v.id])
    {
      byCode := byCode[k := s];
      view := view.(byCode := view.byCode[k := s.v.id]);
    }

    method SetClientID(k: string, s: TunnelSession)
      requires Linked() && s in all && Live(s)
      modifies this`byClientID, this`view
      ensures Linked() && view == old(view).(byClient := old(view).byClient[k := s.v.id])
    {
      byClientID := byClientID[k := s];
      view := view.(byClient := view.byClient[k := s.v.id]);
    }

    method SetConn(k: string, s: TunnelSession)
      requires Linked() && s in all && Live(s)
      modifies this`byConnID, this`view
      ensures Linked() && view == old(view).(byConn := old(view).byConn[k := s.v.id])
    {
      byConnID := byConnID[k := s];
      view := view.(byConn := view.byConn[k := s.v.id]);
    }

    /** The session becomes known under its code, its client ID and its share's connection. */
    method Index(s: TunnelSession)
      requires Linked() && s in all && Live(s) && s.v.share.Some?
      modifies this`byCode, this`byClientID, this`byConnID, this`view
      ensures Linked()
      ensures view == old(view).(byCode := old(view).byCode[s.v.code := s.v.id],
                                 byClient := if s.v.clientID == "" then old(view).byClient
                                             else old(view).byClient[s.v.clientID := s.v.id],
                                 byConn := old(view).byConn[s.v.share.value.id := s.v.id])
    {
      SetCode(s.v.code, s);
      if s.v.clientID != "" {
        SetClientID(s.v.clientID, s);
      }
      SetConn(s.v.share.value.id, s);
    }

    method IncrementCount(ip: string)
      requires Linked()
      modifies this`countPerIP, this`view
      ensures Linked() && view == old(view).(perIP := old(view).perIP[ip := CountFor(old(view), ip) + 1])
    {
      countPerIP := countPerIP[ip := (if ip in countPerIP then countPerIP[ip] else 0) + 1];
      view := view.(perIP := countPerIP);
    }

    method Register(v: Session)
      requires Linked() && v.id !in sessions && v.share.Some?
      modifies this
      ensures Linked() && view == Create(old(view), v) && fresh(all - old(all))
    {
      EnterIndexed(v);
      if v.counted {
        IncrementCount(v.creatorIP);
      }
    }

    method EnterIndexed(v: Session)
      requires Linked() && v.id !in sessions && v.share.Some?
      modifies this`sessions, this`byCode, this`byClientID, this`byConnID, this`view, this`all
      ensures Linked() && view == Create(old(view), v).(perIP := old(view).perIP) && fresh(all - old(all))
    {
      var s := Enter(v);
      Index(s);
    }

    /** createSession; the ID is what the generator produced after the collision loop. */
    method CreateSession(id: string, code: string, share: Conn, ttl: Time, clientID: string, ip: string,
                         maxPerIP: int, maxTotal: int, shareReady: bool, now: Time) returns (ok: bool)
      requires Valid() && id !in sessions && Fresh(view, share.id)
      modifies this
      ensures Valid() && fresh(all - old(all))
      ensures ok <==> MayCreate(old(view), ip, maxPerIP, maxTotal)
      ensures var counted := ip != "" && maxPerIP > 0;
              var v := NewSession(id, code, share, now + ttl, clientID, ip, counted, shareReady);
              ok ==> view == Create(old(view), v)
      ensures !ok ==> view == old(view)
    {
      ok := HasRoom(ip, maxPerIP, maxTotal);
      if ok {
        var v := NewSession(id, code, share, now + ttl, clientID, ip, ip != "" && maxPerIP > 0, shareReady);
        CreateKeeps(view, v);
        Register(v);
      }
    }

    /** recordLiveReplace: filter the timestamps, append the new one, keep the last four. */
    method RecordLiveReplace(times: seq<Time>, now: Time) returns (kept: seq<Time>)
      ensures kept == RecordReplace(times, now, cfg.window)
    {
      kept := [];
      for i := 0 to |times|
        invariant kept == Recent(times[..i], now, cfg.window)
      {
        assert times[..i + 1][..i] == times[..i];
        if times[i] + cfg.window > now {
          kept := kept + [times[i]];
        }
      }
      assert times[..|times|] == times;
      kept := kept + [now];
      if |kept| > MAX_REPLACES + 1 {
        kept := kept[|kept| - (MAX_REPLACES + 1)..];
      }
    }

    /** The conflict rules of ReuseSessionByClientID for a session whose share may still be online. */
    method ChargeTakeover(s: Session, c: Conn, now: Time) returns (v: Session, refused: bool)
      ensures v == Charge(cfg, s, c, now)
      ensures refused <==> s.share.Some? && s.share.value.id != c.id
                           && (now < s.conflictUntil || |RecordReplace(s.liveReplaces, now, cfg.window)| > MAX_REPLACES)
      ensures refused ==> v == s.(liveReplaces := v.liveReplaces, conflictUntil := now + cfg.cooldown)
      ensures refused ==> (v == s <==> now < s.conflictUntil == now + cfg.cooldown)
    {
      RecentShorter(s.liveReplaces, now, cfg.window);
      v, refused := s, false;
      if v.share.Some? && v.share.value.id != c.id {
        if now < v.conflictUntil {
          v := v.(conflictUntil := now + cfg.cooldown);
          refused := true;
        } else {
          var live := RecordLiveReplace(v.liveReplaces, now);
          if |live| > MAX_REPLACES {
            v := v.(liveReplaces := [], conflictUntil := now + cfg.cooldown);
            refused := true;
          } else {
            v := v.(liveReplaces := live);
          }
        }
      }
    }

    method ReuseSessionByClientID(clientID: string, c: Conn, now: Time) returns (r: Takeover)
      requires Valid() && Fresh(view, c.id)
      modifies this`byConnID, this`view, all
      ensures Valid() && r == Decide(cfg, old(view), clientID, c, now)
      ensures view == Reuse(cfg, old(view), clientID, c, now)
    {
      ReuseKeeps(cfg, view, clientID, c, now);
      if clientID == "" || clientID !in byClientID {
        return NoSession;
      }
      var s := byClientID[clientID];
      if now > s.v.expiresAt {
        return NoSession;
      }
      var v, refused := ChargeTakeover(s.v, c, now);
      if refused {
        Write(s, v);
        return Conflict;
      }
      var gone := Ids(v.share) + Ids(v.help);
      GrantIs(cfg, view, clientID, c, now, v, gone);
      Reroute(s, v.(share := Some(c), help := None, pendingHelp := "", timer := false, shareAddrs := {},
                    helpAddrs := {},
                    shareReady := false, dataPlaneReady := false), gone, Some(c.id));
      r := Reused;
    }

    lemma GrantIs(cfg: Settings, m: Manager, clientID: string, c: Conn, now: Time, v: Session, gone: set<string>)
      requires Inv(m) && Decide(cfg, m, clientID, c, now) == Reused
      requires v == Charge(cfg, m.sessions[m.byClient[clientID]], c, now)
      requires gone == Ids(v.share) + Ids(v.help)
      ensures var id := m.byClient[clientID];
              && v.id == id
              && Reuse(cfg, m, clientID, c, now)
                 == m.(sessions := m.sessions[id := Rebound(v, c)], byConn := (m.byConn - gone)[c.id := id])
    {
      UnbindBoth(m.byConn, v.share, v.help);
    }

    lemma UnbindBoth(byConn: map<string, string>, a: Option<Conn>, b: Option<Conn>)
      ensures Unbind(Unbind(byConn, a), b) == byConn - (Ids(a) + Ids(b)) && Unbind(byConn, a) == byConn - Ids(a)
    {
    }

    // ---------- joining ----------

    method JoinSession(code: string, h: Conn, now: Time) returns (r: JoinOutcome)
      requires Valid() && Fresh(view, h.id)
      modifies this`byConnID, this`view, all
      ensures Valid() && r == JoinCheck(old(view), code, now)
      ensures view == Join(old(view), code, h, now)
    {
      JoinKeeps(view, code, h, now);
      if code !in byCode {
        return CodeInvalid;
      }
      var s := byCode[code];
      if now > s.v.expiresAt {
        return CodeExpired;
      }
      if s.v.help.Some? && s.v.pendingHelp == "" {
        return HasHelper;
      }
      if s.v.share.None? || !s.v.shareReady {
        return NotFound;
      }
      var v := s.v;
      if v.timer {
        v := v.(timer := false, pendingHelp := "");
      }
      UnbindBoth(view.byConn, v.help, None);
      Reroute(s, v.(help := Some(h), helpAddrs := {}, dataPlaneReady := false), Ids(v.help), Some(h.id));
      r := Joined(v.id, v.share.value.id);
    }

    method RollbackJoin(id: string, helpID: string)
      requires Valid()
      modifies this`byConnID, this`view, all
      ensures Valid() && view == Rollback(old(view), id, helpID)
    {
      RollbackKeeps(view, id, helpID);
      if id in sessions {
        var s := sessions[id];
        if s.v.help.Some? && s.v.help.value.id == helpID {
          Reroute(s, s.v.(help := None, dataPlaneReady := false), {helpID}, None);
        }
      }
    }

    method ActivateDataPlane(id: string, shareID: string, helpID: string) returns (ok: bool)
      requires Valid()
      modifies all, this`view
      ensures Valid() && ok == MayActivate(old(view), id, shareID, helpID)
      ensures view == Activate(old(view), id, shareID, helpID)
    {
      ActivateKeeps(view, id, shareID, helpID);
      ok := false;
      if id in sessions {
        var s := sessions[id];
        var share, help := s.v.share, s.v.help;
        if share.Some? && help.Some? && share.value.id == shareID && help.value.id == helpID && s.v.pendingHelp == "" {
          Write(s, s.v.(dataPlaneReady := true));
          ok := true;
        }
      }
    }

    method IsActiveDataSource(id: string, ip: string) returns (ok: bool)
      requires Valid()
      ensures ok == IsActiveSource(view, id, ip)
    {
      ok := false;
      if id in sessions {
        var v := sessions[id].v;
        ok := v.share.Some? && v.shareReady && v.help.Some? && v.pendingHelp == "" && v.dataPlaneReady
              && (ip in v.shareAddrs || ip in v.helpAddrs || v.share.value.addr == ip || v.help.value.addr == ip);
      }
    }

    // ---------- leaving ----------

    /** The second half of graceAfterInUseLocked: put the code back if nobody has taken it. */
    method RestoreCode(s: TunnelSession)
      requires Linked() && s in all && Live(s)
      modifies this`byCode, this`view
      ensures Linked() && view == old(view).(byCode := Recoded(cfg, old(view).byCode, s.v))
    {
      if cfg.grace > 0 && s.v.code !in byCode {
        SetCode(s.v.code, s);
      }
    }

    method Depart(s: Session, c: string, now: Time) returns (v: Session)
      requires Bound(s, c)
      ensures v == Departed(cfg, s, c, now)
    {
      v := s;
      if v.share.Some? && v.help.Some? && cfg.grace > 0 && now + cfg.grace > v.expiresAt {
        v := v.(expiresAt := now + cfg.grace);
      }
      if v.help.Some? && v.help.value.id == c {
        v := v.(dataPlaneReady := false, pendingHelp := c, timer := true);
      } else {
        v := v.(dataPlaneReady := false, shareReady := false, share := None, liveReplaces := [], conflictUntil := 0);
      }
    }

    method DisconnectClient(c: string, now: Time) returns (found: bool)
      requires Valid()
      modifies this`byCode, this`byConnID, this`view, all
      ensures Valid() && view == Disconnect(cfg, old(view), c, now)
      ensures found <==> c in old(view).byConn
    {
      DisconnectKeeps(cfg, view, c, now);
      RoutedIsBound(view, c);
      found := c in byConnID;
      if !found {
        return;
      }
      var s := byConnID[c];
      if s.v.share.Some? && s.v.help.Some? {
        RestoreCode(s);
      }
      var v := Depart(s.v, c, now);
      Reroute(s, v, {c}, None);
    }

    /** The debounce callback. It holds a reference to its session, which may have left the table by now. */
    method DebounceFired(s: TunnelSession)
      requires Valid() && s in all
      modifies s, this`view
      ensures Valid()
      ensures old(Live(s)) ==> view == Debounce(old(view), old(s.v).id)
      ensures !old(Live(s)) ==> view == old(view)
    {
      DebounceKeeps(view, s.v.id);
      if s.v.help.Some? && s.v.help.value.id == s.v.pendingHelp {
        if s.v.id in sessions && sessions[s.v.id] == s {
          Write(s, s.v.(help := None, pendingHelp := ""));
        } else {
          WriteDead(s, s.v.(help := None, pendingHelp := ""));
        }
      }
    }

    /** Writing a session that has left the table is not seen by anyone. */
    method WriteDead(s: TunnelSession, v: Session)
      requires Linked() && s in all && !Live(s) && v.id == s.v.id
      modifies s
      ensures Linked() && view == old(view)
    {
      s.v := v;
    }
  
    method UpdatePeerAddr(c: string, addrs: set<string>)
      requires Valid()
      modifies this`view, all
      ensures Valid() && view == UpdateAddr(old(view), c, addrs)
    {
      UpdateAddrKeeps(view, c, addrs);
      if c in byConnID {
        var s := byConnID[c];
        if s.v.share.Some? && s.v.share.value.id == c {
          Write(s, s.v.(shareAddrs := addrs));
        } else if s.v.help.Some? && s.v.help.value.id == c {
          Write(s, s.v.(helpAddrs := addrs));
        }
      }
    }

    method FindPeerOf(c: string) returns (p: Option<Conn>)
      requires Valid()
      ensures p == FindPeer(view, c)
    {
      if c !in byConnID {
        return None;
      }
      var v := byConnID[c].v;
      if v.share.Some? && v.share.value.id == c {
        return v.help;
      }
      if v.help.Some? && v.help.value.id == c {
        return v.share;
      }
      p := None;
    }

    // ---------- removing ----------

    /** delete(index, k) if the entry is this session. */
    method DropCode(k: string, s: TunnelSession)
      requires Linked() && s in all && Live(s)
      modifies this`byCode, this`view
      ensures Linked()
      ensures view == old(view).(byCode := Without(old(view).byCode, k, s.v.id))
    {
      if k in byCode && byCode[k] == s {
        byCode := byCode - {k};
        view := view.(byCode := view.byCode - {k});
      }
    }

    method DropClientID(k: string, s: TunnelSession)
      requires Linked() && s in all && Live(s)
      modifies this`byClientID, this`view
      ensures Linked()
      ensures view == old(view).(byClient := Without(old(view).byClient, k, s.v.id))
    {
      if k in byClientID && byClientID[k] == s {
        byClientID := byClientID - {k};
        view := view.(byClient := view.byClient - {k});
      }
    }

    method DropConnID(c: Option<Conn>, s: TunnelSession)
      requires Linked() && s in all && Live(s)
      modifies this`byConnID, this`view
      ensures Linked() && view == old(view).(byConn := DropConn(old(view).byConn, c, s.v.id))
    {
      if c.Some? && c.value.id in byConnID && byConnID[c.value.id] == s {
        byConnID := byConnID - {c.value.id};
        view := view.(byConn := view.byConn - {c.value.id});
      }
    }

    method DecrementCount(ip: string)
      requires Linked()
      modifies this`countPerIP, this`view
      ensures Linked() && view == old(view).(perIP := Decrement(old(view).perIP, ip))
    {
      if ip != "" && ip in countPerIP {
        if countPerIP[ip] <= 1 {
          countPerIP := countPerIP - {ip};
        } else {
          countPerIP := countPerIP[ip := countPerIP[ip] - 1];
        }
        view := view.(perIP := countPerIP);
      }
    }

    /** deleteSessionLocked */
    method DeleteSession(s: TunnelSession)
      requires Valid() && s in all && Live(s)
      modifies this
      ensures Valid() && view == Delete(old(view), s.v.id) && all == old(all)
    {
      ghost var before := view;
      var id := s.v.id;
      DeleteKeeps(before, id);
      Unlink(s);
      Unnamed(Delete(before, id), id);
      Leave(id);
    }

    /** Every reference to the session leaves the indexes, and its count goes down. */
    method Unlink(s: TunnelSession)
      requires Linked() && s in all && Live(s)
      modifies this`byConnID, this`byCode, this`byClientID, this`countPerIP, this`view
      ensures Linked() && view == Delete(old(view), s.v.id).(sessions := old(view).sessions)
    {
      var v := s.v;
      DropConnID(v.share, s);
      DropConnID(v.help, s);
      DropCode(v.code, s);
      if v.clientID != "" {
        DropClientID(v.clientID, s);
      }
      if v.counted {
        DecrementCount(v.creatorIP);
      }
    }

    /** The session leaves the table, after every reference to it has left the indexes. */
    method Leave(id: string)
      requires Linked() && Nameless(view, id)
      modifies this`sessions, this`view
      ensures Linked() && view == old(view).(sessions := old(view).sessions - {id})
    {
      sessions := sessions - {id};
      view := view.(sessions := view.sessions - {id});
    }
  
    method CloseSession(id: string)
      requires Valid()
      modifies this
      ensures Valid() && view == Delete(old(view), id)
    {
      if id in sessions {
        DeleteSession(sessions[id]);
      }
    }

    /** One round of the CleanupExpired loop. */
    method CleanSession(id: string, now: Time) returns (deleted: bool)
      requires Valid()
      modifies this
      ensures Valid() && view == CleanOne(old(view), id, now)
      ensures deleted <==> id in old(view).sessions && id !in view.sessions
    {
      CleanOneKeeps(view, id, now);
      deleted := false;
      if id !in sessions {
        return;
      }
      var s := sessions[id];
      if now > s.v.expiresAt {
        if s.v.share.Some? && s.v.help.Some? {
          DropCode(s.v.code, s);
        } else {
          DeleteSession(s);
          deleted := true;
        }
      }
    }

    /** CleanupExpired; `order` is the order in which the map iteration happens to visit the keys. */
    method CleanupExpired(order: seq<string>, now: Time) returns (expired: seq<string>)
      requires Valid() && forall id :: id in sessions ==> id in order
      modifies this
      ensures Valid() && view == CleanAll(old(view), order, now)
      ensures forall id :: id in expired <==> id in old(view).sessions && Doomed(old(view).sessions[id], now)
    {
      expired := [];
      ghost var before := view;
      for i := 0 to |order|
        invariant Valid() && view == CleanAll(before, order[..i], now)
        invariant forall id :: id in expired <==> id in before.sessions && id !in view.sessions
      {
        assert order[..i + 1][..i] == order[..i];
        CleanAllEffect(before, order[..i], now);
        CleanAllEffect(before, order[..i + 1], now);
        var deleted := CleanSession(order[i], now);
        if deleted {
          expired := expired + [order[i]];
        }
      }
      assert order[..|order|] == order;
      CleanAllEffect(before, order, now);
    }
  }

  /** Expired, with a side missing. */
  predicate Doomed(s: Session, now: Time) { now > s.expiresAt && (s.share.None? || s.help.None?) }

  /** CleanupExpired, visiting the sessions in the given order. */
  function CleanAll(m: Manager, order: seq<string>, now: Time): Manager {
    if order == [] then m else CleanOne(CleanAll(m, order[..|order| - 1], now), order[|order| - 1], now)
  }

  /** Whatever the order, a visit removes exactly the doomed sessions and leaves the others as they are. */
  lemma {:induction false} CleanAllEffect(m: Manager, order: seq<string>, now: Time)
    ensures var m' := CleanAll(m, order, now);
            && (forall id :: id in m'.sessions <==> id in m.sessions && !(id in order && Doomed(m.sessions[id], now)))
            && (forall id :: id in m'.sessions ==> m'.sessions[id] == m.sessions[id])
    decreases |order|
  {
    if order != [] {
      var init, last := order[..|order| - 1], order[|order| - 1];
      CleanAllEffect(m, init, now);
      assert forall id :: id in order <==> id in init || id == last;
      CleanOneEffect(CleanAll(m, init, now), last, now);
    }
  }

  lemma CleanOneEffect(m: Manager, id: string, now: Time)
    ensures var m' := CleanOne(m, id, now);
            m'.sessions == if id in m.sessions && Doomed(m.sessions[id], now) then m.sessions - {id} else m.sessions
  {
  }
}
