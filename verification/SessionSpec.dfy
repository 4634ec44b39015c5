/**
 The session table of internal/relay/session.go as a value, and what each method of SessionManager does to
 it under sm.mu.

 Times are readings of one clock that never runs backwards. Connections and sessions are named by their
 IDs. The length of the conflict window, its cooldown and the reconnect grace are parameters of the table.
 */
module SessionSpec {
  import opened Options

  type Time = nat

  /** A client connection; `addr` is the source address the relay itself observed. */
  datatype Conn = Conn(id: string, addr: string)

  datatype Session = Session(
    id: string,
    code: string,
    share: Option<Conn>,
    help: Option<Conn>,
    expiresAt: Time,
    clientID: string,
    creatorIP: string,
    counted: bool,
    shareAddrs: set<string>,
    helpAddrs: set<string>,
    shareReady: bool,
    dataPlaneReady: bool,
    timer: bool,
    pendingHelp: string,
    liveReplaces: seq<Time>,
    conflictUntil: Time)

  datatype Settings = Settings(window: Time, cooldown: Time, grace: int)

  datatype Manager = Manager(
    sessions: map<string, Session>,
    byCode: map<string, string>,
    byClient: map<string, string>,
    byConn: map<string, string>,
    perIP: map<string, nat>)

  const MAX_REPLACES := 3

  function Put(m: Manager, s: Session): Manager { m.(sessions := m.sessions[s.id := s]) }

  /** c is the session's share, or its help and not inside the disconnect debounce. */
  predicate Bound(s: Session, c: string) {
    (s.share.Some? && s.share.value.id == c) || (s.help.Some? && s.pendingHelp == "" && s.help.value.id == c)
  }

  /** c appears in the session at all. */
  predicate Mentions(s: Session, c: string) {
    (s.share.Some? && s.share.value.id == c) || (s.help.Some? && s.help.value.id == c)
  }

  /** A connection ID that no session knows. */
  predicate Fresh(m: Manager, c: string) {
    c != "" && c !in m.byConn && forall id :: id in m.sessions ==> !Mentions(m.sessions[id], c)
  }

  // ---------- creating and taking over ----------

  function CountFor(m: Manager, ip: string): nat { if ip in m.perIP then m.perIP[ip] else 0 }

  predicate MayCreate(m: Manager, ip: string, maxPerIP: int, maxTotal: int) {
    |m.sessions| < maxTotal && (ip != "" && maxPerIP > 0 ==> CountFor(m, ip) < maxPerIP)
  }

  function NewSession(id: string, code: string, share: Conn, expiresAt: Time, clientID: string, ip: string,
                      counted: bool, shareReady: bool): Session {
    Session(id, code, Some(share), None, expiresAt, clientID, ip, counted, {}, {}, shareReady, false, false, "", [], 0)
  }

  function Create(m: Manager, s: Session): Manager
    requires s.share.Some?
  {
    Manager(
      m.sessions[s.id := s],
      m.byCode[s.code := s.id],
      if s.clientID != "" then m.byClient[s.clientID := s.id] else m.byClient,
      m.byConn[s.share.value.id := s.id],
      if s.counted then m.perIP[s.creatorIP := CountFor(m, s.creatorIP) + 1] else m.perIP)
  }

  /** The timestamps after the cutoff, in order. */
  function Recent(times: seq<Time>, now: Time, window: Time): seq<Time> {
    if times == [] then []
    else
      var rest := Recent(times[..|times| - 1], now, window);
      if times[|times| - 1] + window > now then rest + [times[|times| - 1]] else rest
  }

  function RecordReplace(times: seq<Time>, now: Time, window: Time): seq<Time> {
    var kept := Recent(times, now, window) + [now];
    if |kept| > MAX_REPLACES + 1 then kept[|kept| - (MAX_REPLACES + 1)..] else kept
  }

  datatype Takeover = NoSession | Conflict | Reused

  function Decide(cfg: Settings, m: Manager, clientID: string, c: Conn, now: Time): Takeover {
    if clientID == "" || clientID !in m.byClient || m.byClient[clientID] !in m.sessions then NoSession
    else
      var s := m.sessions[m.byClient[clientID]];
      if now > s.expiresAt then NoSession
      else if s.share.Some? && s.share.value.id != c.id then
        if now < s.conflictUntil then Conflict
        else if |RecordReplace(s.liveReplaces, now, cfg.window)| > MAX_REPLACES then Conflict
        else Reused
      else Reused
  }

  /** What a refused or successful takeover leaves in the session's conflict record. */
  function Charge(cfg: Settings, s: Session, c: Conn, now: Time): Session {
    if s.share.Some? && s.share.value.id != c.id then
      var live := RecordReplace(s.liveReplaces, now, cfg.window);
      if now < s.conflictUntil then s.(conflictUntil := now + cfg.cooldown)
      else if |live| > MAX_REPLACES then s.(liveReplaces := [], conflictUntil := now + cfg.cooldown)
      else s.(liveReplaces := live)
    else s
  }

  function Unbind(byConn: map<string, string>, c: Option<Conn>): map<string, string> {
    if c.Some? then byConn - {c.value.id} else byConn
  }

  function Rebound(s: Session, c: Conn): Session {
    s.(share := Some(c), help := None, pendingHelp := "", timer := false,
       shareAddrs := {}, helpAddrs := {}, shareReady := false, dataPlaneReady := false)
  }

  function Reuse(cfg: Settings, m: Manager, clientID: string, c: Conn, now: Time): Manager {
    var d := Decide(cfg, m, clientID, c, now);
    if d == NoSession then m
    else
      var s := m.sessions[m.byClient[clientID]];
      var charged := Charge(cfg, s, c, now);
      if d == Conflict then m.(sessions := m.sessions[m.byClient[clientID] := charged])
      else
        m.(sessions := m.sessions[m.byClient[clientID] := Rebound(charged, c)],
           byConn := Unbind(Unbind(m.byConn, s.share), s.help)[c.id := s.id])
  }

  function MarkReady(m: Manager, id: string, shareID: string): Manager {
    if id in m.sessions && m.sessions[id].share.Some? && m.sessions[id].share.value.id == shareID then
      m.(sessions := m.sessions[id := m.sessions[id].(shareReady := true)])
    else m
  }

  // ---------- joining ----------

  datatype JoinOutcome = Joined(id: string, shareID: string) | CodeInvalid | CodeExpired | NotFound | HasHelper

  function JoinCheck(m: Manager, code: string, now: Time): JoinOutcome {
    if code !in m.byCode || m.byCode[code] !in m.sessions then CodeInvalid
    else
      var s := m.sessions[m.byCode[code]];
      if now > s.expiresAt then CodeExpired
      else if s.help.Some? && s.pendingHelp == "" then HasHelper
      else if s.share.None? || !s.shareReady then NotFound
      else Joined(m.byCode[code], s.share.value.id)
  }

  function WithHelp(s: Session, h: Conn): Session {
    s.(help := Some(h), helpAddrs := {}, dataPlaneReady := false,
       timer := false, pendingHelp := if s.timer then "" else s.pendingHelp)
  }

  function Join(m: Manager, code: string, h: Conn, now: Time): Manager {
    var o := JoinCheck(m, code, now);
    if o.Joined? then
      var s := m.sessions[o.id];
      m.(sessions := m.sessions[o.id := WithHelp(s, h)], byConn := Unbind(m.byConn, s.help)[h.id := o.id])
    else m
  }

  function Rollback(m: Manager, id: string, helpID: string): Manager {
    if id in m.sessions && m.sessions[id].help.Some? && m.sessions[id].help.value.id == helpID then
      m.(sessions := m.sessions[id := m.sessions[id].(help := None, dataPlaneReady := false)],
         byConn := m.byConn - {helpID})
    else m
  }

  predicate MayActivate(m: Manager, id: string, shareID: string, helpID: string) {
    && id in m.sessions
    && m.sessions[id].share.Some? && m.sessions[id].share.value.id == shareID
    && m.sessions[id].help.Some? && m.sessions[id].help.value.id == helpID
    && m.sessions[id].pendingHelp == ""
  }

  function Activate(m: Manager, id: string, shareID: string, helpID: string): Manager {
    if MayActivate(m, id, shareID, helpID) then
      m.(sessions := m.sessions[id := m.sessions[id].(dataPlaneReady := true)])
    else m
  }

  predicate IsActive(m: Manager, id: string) {
    && id in m.sessions
    && m.sessions[id].share.Some? && m.sessions[id].shareReady
    && m.sessions[id].help.Some? && m.sessions[id].pendingHelp == ""
    && m.sessions[id].dataPlaneReady
  }

  predicate KnowsIP(s: Session, ip: string) {
    || ip in s.shareAddrs || ip in s.helpAddrs
    || (s.share.Some? && s.share.value.addr == ip) || (s.help.Some? && s.help.value.addr == ip)
  }

  predicate IsActiveSource(m: Manager, id: string, ip: string) { IsActive(m, id) && KnowsIP(m.sessions[id], ip) }

  // ---------- leaving ----------

  function Delete(m: Manager, id: string): Manager {
    if id !in m.sessions then m
    else
      var s := m.sessions[id];
      Manager(
        m.sessions - {id},
        if s.code in m.byCode && m.byCode[s.code] == id then m.byCode - {s.code} else m.byCode,
        if s.clientID in m.byClient && m.byClient[s.clientID] == id && s.clientID != "" then m.byClient - {s.clientID}
           else m.byClient,
        DropConn(DropConn(m.byConn, s.share, id), s.help, id),
        if s.counted then Decrement(m.perIP, s.creatorIP) else m.perIP)
  }

  function DropConn(byConn: map<string, string>, c: Option<Conn>, id: string): map<string, string> {
    if c.Some? && c.value.id in byConn && byConn[c.value.id] == id then byConn - {c.value.id} else byConn
  }

  function Decrement(perIP: map<string, nat>, ip: string): map<string, nat> {
    if ip == "" || ip !in perIP then perIP
    else if perIP[ip] <= 1 then perIP - {ip}
    else perIP[ip := perIP[ip] - 1]
  }

  /** The expiry of an in-use session that one side has just left. */
  function Extended(cfg: Settings, s: Session, now: Time): Session {
    if cfg.grace > 0 && now + cfg.grace > s.expiresAt then s.(expiresAt := now + cfg.grace) else s
  }

  function Recoded(cfg: Settings, byCode: map<string, string>, s: Session): map<string, string> {
    if cfg.grace > 0 && s.code !in byCode then byCode[s.code := s.id] else byCode
  }

  function HelpLeft(s: Session): Session {
    s.(dataPlaneReady := false, pendingHelp := if s.help.Some? then s.help.value.id else "", timer := true)
  }

  function ShareLeft(s: Session): Session {
    s.(dataPlaneReady := false, shareReady := false, share := None, liveReplaces := [], conflictUntil := 0)
  }

  /** The session after its connection c dropped; a session with both sides bound gets the grace period. */
  function Departed(cfg: Settings, s: Session, c: string, now: Time): Session {
    var t := if s.share.Some? && s.help.Some? then Extended(cfg, s, now) else s;
    if s.help.Some? && s.help.value.id == c then HelpLeft(t) else ShareLeft(t)
  }

  function Disconnect(cfg: Settings, m: Manager, c: string, now: Time): Manager {
    if c !in m.byConn || m.byConn[c] !in m.sessions || !Mentions(m.sessions[m.byConn[c]], c) then m
    else
      var id := m.byConn[c];
      var s := m.sessions[id];
      m.(sessions := m.sessions[id := Departed(cfg, s, c, now)],
         byCode := if s.share.Some? && s.help.Some? then Recoded(cfg, m.byCode, s) else m.byCode,
         byConn := m.byConn - {c})
  }

  /** The debounce timer of a session fires. */
  function Debounce(m: Manager, id: string): Manager {
    if id in m.sessions && m.sessions[id].help.Some? && m.sessions[id].help.value.id == m.sessions[id].pendingHelp then
      m.(sessions := m.sessions[id := m.sessions[id].(help := None, pendingHelp := "")])
    else m
  }

  /** One round of the CleanupExpired loop. */
  function CleanOne(m: Manager, id: string, now: Time): Manager {
    if id in m.sessions && now > m.sessions[id].expiresAt then
      var s := m.sessions[id];
      if s.share.Some? && s.help.Some? then
        m.(byCode := if s.code in m.byCode && m.byCode[s.code] == id then m.byCode - {s.code} else m.byCode)
      else Delete(m, id)
    else m
  }

  function UpdateAddr(m: Manager, c: string, addrs: set<string>): Manager {
    if c !in m.byConn || m.byConn[c] !in m.sessions then m
    else
      var id := m.byConn[c];
      var s := m.sessions[id];
      if s.share.Some? && s.share.value.id == c then m.(sessions := m.sessions[id := s.(shareAddrs := addrs)])
      else if s.help.Some? && s.help.value.id == c then m.(sessions := m.sessions[id := s.(helpAddrs := addrs)])
      else m
  }

  function FindPeer(m: Manager, c: string): Option<Conn> {
    if c !in m.byConn || m.byConn[c] !in m.sessions then None
    else
      var s := m.sessions[m.byConn[c]];
      if s.share.Some? && s.share.value.id == c then s.help
      else if s.help.Some? && s.help.value.id == c then s.share
      else None
  }
}
