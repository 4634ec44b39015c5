/**
 Who may take a slot of the UDP relay. internal/relay/session.go accepts a source address for an active session
 when it is one the session knows; here that is stated over whole runs, from the connections' own addresses
 and from what they reported, without the address fields of the session table.
 */
module SourceAdmission {
  import opened Options
  import opened SessionSpec
  import opened SessionInvariant
  import opened DataPlane
  import R = SessionRuns

  // ---------- what the two sides reported ----------

  predicate IsReport(step: Step, c: string) { step.Control? && step.op.OpUpdateAddr? && step.op.conn == c }

  /** In this run connection c has reported the address ip. */
  ghost predicate Reported(steps: seq<Step>, c: string, ip: string) {
    exists i :: 0 <= i < |steps| && IsReport(steps[i], c) && ip in steps[i].op.addrs
  }

  /** The addresses of c's last report, after one more step: a connection the table does not route has none. */
  function After(m: Manager, step: Step, c: string, before: set<string>): set<string> {
    if c !in m.byConn then {} else if IsReport(step, c) then step.op.addrs else before
  }

  /** The addresses of the last report that c made since it was bound. */
  function Latest(cfg: Settings, steps: seq<Step>, c: string): set<string>
    decreases |steps|
  {
    if steps == [] then {}
    else
      var k := |steps| - 1;
      After(Run(cfg, steps[..k]).m, steps[k], c, Latest(cfg, steps[..k], c))
  }

  lemma ReportedLater(steps: seq<Step>, k: nat, c: string, ip: string)
    requires k <= |steps| && Reported(steps[..k], c, ip)
    ensures Reported(steps, c, ip)
  {
    var i :| 0 <= i < k && IsReport(steps[..k][i], c) && ip in steps[..k][i].op.addrs;
    assert steps[..k][i] == steps[i];
  }

  lemma {:induction false} LatestReported(cfg: Settings, steps: seq<Step>, c: string, ip: string)
    ensures ip in Latest(cfg, steps, c) ==> Reported(steps, c, ip)
    decreases |steps|
  {
    if ip in Latest(cfg, steps, c) {
      var k := |steps| - 1;
      if !IsReport(steps[k], c) {
        LatestReported(cfg, steps[..k], c, ip);
        ReportedLater(steps, k, c, ip);
      }
    }
  }

  // ---------- the address fields of a session are these reports ----------

  predicate SideOk(c: Option<Conn>, addrs: set<string>, latest: string -> set<string>) {
    c.Some? ==> addrs == latest(c.value.id)
  }

  function Connected(s: Session): Option<Conn> { if s.pendingHelp == "" then s.help else None }

  predicate SidesOk(s: Session, latest: string -> set<string>) {
    SideOk(s.share, s.shareAddrs, latest) && SideOk(Connected(s), s.helpAddrs, latest)
  }

  ghost predicate AddrsOk(m: Manager, latest: string -> set<string>) {
    forall sid :: sid in m.sessions ==> SidesOk(m.sessions[sid], latest)
  }

  /** A side of a session after a step without a report: a new connection and no addresses, or as it was. */
  predicate SideKept(byConn: map<string, string>, c: Option<Conn>, addrs: set<string>, c': Option<Conn>,
                     addrs': set<string>) {
    c'.Some? ==> (c'.value.id !in byConn && addrs' == {}) || (c' == c && addrs' == addrs && c'.value.id in byConn)
  }

  predicate Kept(m: Manager, m': Manager, sid: string) {
    sid in m'.sessions ==>
      var s' := m'.sessions[sid];
      if sid in m.sessions then
        var s := m.sessions[sid];
        && SideKept(m.byConn, s.share, s.shareAddrs, s'.share, s'.shareAddrs)
        && SideKept(m.byConn, Connected(s), s.helpAddrs, Connected(s'), s'.helpAddrs)
      else
        && SideKept(m.byConn, None, {}, s'.share, s'.shareAddrs)
        && SideKept(m.byConn, None, {}, Connected(s'), s'.helpAddrs)
  }

  lemma Routed(m: Manager, sid: string)
    requires Inv(m) && sid in m.sessions
    ensures var s := m.sessions[sid];
            && LocalOk(s)
            && (s.share.Some? ==> RoutesTo(m.byConn, s.share.value.id, sid))
            && (Connected(s).Some? ==> RoutesTo(m.byConn, Connected(s).value.id, sid))
  {
    assert RoutedOk(m.sessions[sid], sid, m.byConn);
  }

  lemma RoutedNamed(m: Manager, c: string)
    requires Inv(m) && c in m.byConn
    ensures c != ""
  {
    Routed(m, m.byConn[c]);
  }

  lemma SameKept(m: Manager, sid: string)
    requires Inv(m)
    ensures Kept(m, m, sid)
  {
    if sid in m.sessions { Routed(m, sid); }
  }

  lemma CreateKept(m: Manager, s: Session, sid: string)
    requires Kept(m, m, sid) && s.share.Some? && s.help.None? && s.shareAddrs == {} && s.share.value.id !in m.byConn
    ensures Kept(m, Create(m, s), sid)
  {
  }

  lemma ReuseKept(cfg: Settings, m: Manager, clientID: string, c: Conn, now: Time, sid: string)
    requires Kept(m, m, sid) && c.id !in m.byConn
    ensures Kept(m, Reuse(cfg, m, clientID, c, now), sid)
  {
  }

  lemma ReadyKept(m: Manager, id: string, shareID: string, sid: string)
    requires Kept(m, m, sid)
    ensures Kept(m, MarkReady(m, id, shareID), sid)
  {
  }

  lemma ActivateKept(m: Manager, id: string, shareID: string, helpID: string, sid: string)
    requires Kept(m, m, sid)
    ensures Kept(m, Activate(m, id, shareID, helpID), sid)
  {
  }

  lemma RollbackKept(m: Manager, id: string, helpID: string, sid: string)
    requires Kept(m, m, sid)
    ensures Kept(m, Rollback(m, id, helpID), sid)
  {
  }

  lemma JoinKept(m: Manager, code: string, h: Conn, now: Time, sid: string)
    requires Kept(m, m, sid) && h.id !in m.byConn
    ensures Kept(m, Join(m, code, h, now), sid)
  {
  }

  lemma LeaveKept(cfg: Settings, m: Manager, c: string, now: Time, sid: string)
    requires Kept(m, m, sid) && c != ""
    ensures Kept(m, Disconnect(cfg, m, c, now), sid)
  {
  }

  lemma RemovalKept(m: Manager, id: string, now: Time, sid: string)
    requires Kept(m, m, sid)
    ensures Kept(m, Delete(m, id), sid) && Kept(m, CleanOne(m, id, now), sid)
  {
  }

  lemma DebounceKept(m: Manager, id: string, sid: string)
    requires Kept(m, m, sid)
    ensures Kept(m, Debounce(m, id), sid)
  {
  }

  lemma ControlKept(cfg: Settings, m: Manager, op: R.Op, now: Time, sid: string)
    requires Inv(m) && IsControl(op) && !op.OpUpdateAddr?
    ensures Kept(m, R.Apply(cfg, m, op, now), sid)
  {
    SameKept(m, sid);
    match op {
      case OpReuse(clientID, c) => if Fresh(m, c.id) { ReuseKept(cfg, m, clientID, c, now, sid); }
      case OpDisconnect(conn) => if conn in m.byConn { RoutedNamed(m, conn); LeaveKept(cfg, m, conn, now, sid); }
      case OpDebounce(id) => DebounceKept(m, id, sid);
      case OpCreate(id, _, c, _, _, ip, maxPerIP, maxTotal, _) =>
        if id !in m.sessions && Fresh(m, c.id) && MayCreate(m, ip, maxPerIP, maxTotal) {
          CreateKept(m, R.Created(op, now), sid);
        }
      case OpMarkReady(id, shareID) => ReadyKept(m, id, shareID, sid);
      case OpClose(id) => RemovalKept(m, id, now, sid);
      case OpClean(id) => RemovalKept(m, id, now, sid);
    }
  }

  lemma StepKept(cfg: Settings, w: World, step: Step, sid: string)
    requires Inv(w.m) && !(step.Control? && step.op.OpUpdateAddr?)
    ensures Kept(w.m, Next(cfg, w, step).m, sid)
  {
    SameKept(w.m, sid);
    match step {
      case Control(op, now) => if IsControl(op) { ControlKept(cfg, w.m, op, now, sid); }
      case JoinStart(h, code, now) => if Fresh(w.m, h.id) { JoinKept(w.m, code, h, now, sid); }
      case JoinActivate(c) => if c in w.joins { ActivateKept(w.m, w.joins[c].sid, w.joins[c].shareID, c, sid); }
      case JoinRollback(c) => if c in w.joins { RollbackKept(w.m, w.joins[c].sid, c, sid); }
      case _ =>
    }
  }

  /** The latest reports, one step on. */
  ghost predicate Advanced(m: Manager, step: Step, l: string -> set<string>, l': string -> set<string>) {
    forall c :: l'(c) == After(m, step, c, l(c))
  }

  lemma KeptKeeps(m: Manager, m': Manager, step: Step, l: string -> set<string>, l': string -> set<string>)
    requires AddrsOk(m, l) && Advanced(m, step, l, l') && forall c :: !IsReport(step, c)
    requires forall sid :: Kept(m, m', sid)
    ensures AddrsOk(m', l')
  {
    forall sid | sid in m'.sessions
      ensures SidesOk(m'.sessions[sid], l')
    {
      assert Kept(m, m', sid);
      assert sid in m.sessions ==> SidesOk(m.sessions[sid], l);
    }
  }

  /** What a report by c does to the session it is routed to. */
  function Updated(s: Session, c: string, addrs: set<string>): Session {
    if s.share.Some? && s.share.value.id == c then s.(shareAddrs := addrs)
    else if s.help.Some? && s.help.value.id == c then s.(helpAddrs := addrs)
    else s
  }

  lemma UpdateAt(m: Manager, sid: string, c: string, addrs: set<string>)
    requires sid in m.sessions
    ensures sid in UpdateAddr(m, c, addrs).sessions
    ensures UpdateAddr(m, c, addrs).sessions[sid]
            == if RoutesTo(m.byConn, c, sid) then Updated(m.sessions[sid], c, addrs) else m.sessions[sid]
  {
  }

  /** The reports of a routed side, one report by c later. */
  predicate SideMoves(o: Option<Conn>, c: string, addrs: set<string>, l: string -> set<string>,
                      l': string -> set<string>)
  {
    o.Some? ==> l'(o.value.id) == if o.value.id == c then addrs else l(o.value.id)
  }

  lemma UpdatedSides(s: Session, c: string, addrs: set<string>, l: string -> set<string>, l': string -> set<string>)
    requires SidesOk(s, l) && LocalOk(s)
    requires SideMoves(s.share, c, addrs, l, l') && SideMoves(Connected(s), c, addrs, l, l')
    ensures SidesOk(Updated(s, c, addrs), l')
  {
  }

  lemma ReportSides(m: Manager, sid: string, step: Step, l: string -> set<string>, l': string -> set<string>)
    requires Inv(m) && sid in m.sessions && SidesOk(m.sessions[sid], l) && Advanced(m, step, l, l')
    requires step.Control? && step.op.OpUpdateAddr?
    ensures SidesOk(UpdateAddr(m, step.op.conn, step.op.addrs).sessions[sid], l')
  {
    var s, c, addrs := m.sessions[sid], step.op.conn, step.op.addrs;
    Routed(m, sid);
    assert SideMoves(s.share, c, addrs, l, l') && SideMoves(Connected(s), c, addrs, l, l');
    UpdateAt(m, sid, c, addrs);
    UpdatedSides(s, c, addrs, l, l');
  }

  lemma ReportKeeps(m: Manager, step: Step, l: string -> set<string>, l': string -> set<string>)
    requires Inv(m) && AddrsOk(m, l) && Advanced(m, step, l, l') && step.Control? && step.op.OpUpdateAddr?
    ensures AddrsOk(UpdateAddr(m, step.op.conn, step.op.addrs), l')
  {
    forall sid | sid in m.sessions
      ensures SidesOk(UpdateAddr(m, step.op.conn, step.op.addrs).sessions[sid], l')
    {
      ReportSides(m, sid, step, l, l');
    }
  }

  lemma StepKeeps(cfg: Settings, w: World, step: Step, l: string -> set<string>, l': string -> set<string>)
    requires Inv(w.m) && AddrsOk(w.m, l) && Advanced(w.m, step, l, l')
    ensures AddrsOk(Next(cfg, w, step).m, l')
  {
    if step.Control? && step.op.OpUpdateAddr? {
      ReportKeeps(w.m, step, l, l');
    } else {
      forall sid
        ensures Kept(w.m, Next(cfg, w, step).m, sid)
      {
        StepKept(cfg, w, step, sid);
      }
      KeptKeeps(w.m, Next(cfg, w, step).m, step, l, l');
    }
  }

  lemma {:induction false} RunAddrs(cfg: Settings, steps: seq<Step>)
    ensures AddrsOk(Run(cfg, steps).m, c => Latest(cfg, steps, c))
    decreases |steps|
  {
    if steps != [] {
      var k := |steps| - 1;
      RunAddrs(cfg, steps[..k]);
      RunKeeps(cfg, steps[..k]);
      StepKeeps(cfg, Run(cfg, steps[..k]), steps[k], c => Latest(cfg, steps[..k], c), c => Latest(cfg, steps, c));
    }
  }

  /** In every run an active session accepts exactly the addresses the relay observed for its two connections and
      the addresses in the last report of each. */
  lemma AcceptedIff(cfg: Settings, steps: seq<Step>, sid: string, ip: string)
    requires IsActive(Run(cfg, steps).m, sid)
    ensures var s := Run(cfg, steps).m.sessions[sid];
            IsActiveSource(Run(cfg, steps).m, sid, ip) <==>
            || ip == s.share.value.addr || ip in Latest(cfg, steps, s.share.value.id)
            || ip == s.help.value.addr || ip in Latest(cfg, steps, s.help.value.id)
  {
    RunAddrs(cfg, steps);
    assert SidesOk(Run(cfg, steps).m.sessions[sid], c => Latest(cfg, steps, c));
  }

  // ---------- no third address takes a slot ----------

  /** ip is the observed address of this connection, or it reported it. */
  ghost predicate Vouched(steps: seq<Step>, c: Option<Conn>, ip: string) {
    c.Some? && (c.value.addr == ip || Reported(steps, c.value.id, ip))
  }

  /** ip belongs to one of the two connections under whose pairing the slot was admitted. */
  ghost predicate Entitled(steps: seq<Step>, s: Slot) {
    Vouched(steps, s.admitted.share, s.ip) || Vouched(steps, s.admitted.help, s.ip)
  }

  lemma EntitledLater(steps: seq<Step>, k: nat, s: Slot)
    requires k <= |steps|
    ensures Entitled(steps[..k], s) ==> Entitled(steps, s)
  {
    forall c: Conn | Vouched(steps[..k], Some(c), s.ip)
      ensures Vouched(steps, Some(c), s.ip)
    {
      if c.addr != s.ip { ReportedLater(steps, k, c.id, s.ip); }
    }
  }

  lemma CheckedEntitled(cfg: Settings, steps: seq<Step>, sid: string, ip: string, port: nat)
    requires IsActiveSource(Run(cfg, steps).m, sid, ip)
    ensures Entitled(steps, Slot(ip, port, PairingOf(Run(cfg, steps).m.sessions[sid])))
  {
    var s := Run(cfg, steps).m.sessions[sid];
    AcceptedIff(cfg, steps, sid, ip);
    LatestReported(cfg, steps, s.share.value.id, ip);
    LatestReported(cfg, steps, s.help.value.id, ip);
  }

  ghost predicate AllEntitled(steps: seq<Step>, w: World) {
    && (forall sid, i :: sid in w.relay && 0 <= i < |w.relay[sid]| ==> Entitled(steps, w.relay[sid][i]))
    && (w.holder.Some? ==> Entitled(steps, w.holder.value.slot))
  }

  lemma AdmitFrom(slots: seq<Slot>, s: Slot, i: nat)
    requires i < |Admit(slots, s)|
    ensures Admit(slots, s)[i] == s || Admit(slots, s)[i] in slots
  {
  }

  lemma EntriesEntitled(steps: seq<Step>, w: World, w': World)
    requires AllEntitled(steps, w)
    requires w'.relay.Keys <= w.relay.Keys && forall sid :: sid in w'.relay ==> w'.relay[sid] == w.relay[sid]
    requires w'.holder.Some? ==> w'.holder == w.holder || Entitled(steps, w'.holder.value.slot)
    ensures AllEntitled(steps, w')
  {
  }

  lemma CommitEntitled(cfg: Settings, steps: seq<Step>, w: World)
    requires AllEntitled(steps, w) && w.holder.Some?
    ensures AllEntitled(steps, Next(cfg, w, PacketCommit))
  {
    var a := w.holder.value;
    var slots := if a.sid in w.relay then w.relay[a.sid] else [];
    forall i: nat | i < |Admit(slots, a.slot)|
      ensures Entitled(steps, Admit(slots, a.slot)[i])
    {
      AdmitFrom(slots, a.slot, i);
    }
  }

  lemma StepEntitled(cfg: Settings, steps: seq<Step>, step: Step)
    requires AllEntitled(steps, Run(cfg, steps))
    ensures AllEntitled(steps, Next(cfg, Run(cfg, steps), step))
  {
    var w := Run(cfg, steps);
    if step.PacketCommit? && w.holder.Some? {
      CommitEntitled(cfg, steps, w);
    } else {
      if step.PacketCheck? && w.holder.None? && IsActiveSource(w.m, step.sid, step.ip) {
        CheckedEntitled(cfg, steps, step.sid, step.ip, step.port);
      }
      EntriesEntitled(steps, w, Next(cfg, w, step));
    }
  }

  lemma AllEntitledLater(steps: seq<Step>, k: nat, w: World)
    requires k <= |steps| && AllEntitled(steps[..k], w)
    ensures AllEntitled(steps, w)
  {
    forall s: Slot
      ensures Entitled(steps[..k], s) ==> Entitled(steps, s)
    {
      EntitledLater(steps, k, s);
    }
  }

  lemma {:induction false} RunEntitled(cfg: Settings, steps: seq<Step>)
    ensures AllEntitled(steps, Run(cfg, steps))
    decreases |steps|
  {
    if steps != [] {
      var k := |steps| - 1;
      RunEntitled(cfg, steps[..k]);
      StepEntitled(cfg, steps[..k], steps[k]);
      AllEntitledLater(steps, k, Run(cfg, steps));
    }
  }

  /** In every interleaving, whoever sits in the relay entry of an active session or is about to is at an address
      that the relay observed for one of the two connections now paired, or that one of these two reported. */
  lemma NoStranger(cfg: Settings, steps: seq<Step>, sid: string)
    requires IsActive(Run(cfg, steps).m, sid)
    ensures var w := Run(cfg, steps);
            var s := w.m.sessions[sid];
            && (sid in w.relay ==> forall i :: 0 <= i < |w.relay[sid]| ==>
                  Vouched(steps, s.share, w.relay[sid][i].ip) || Vouched(steps, s.help, w.relay[sid][i].ip))
            && (OnSid(w.holder, sid) ==>
                  Vouched(steps, s.share, w.holder.value.slot.ip) || Vouched(steps, s.help, w.holder.value.slot.ip))
  {
    RunEntitled(cfg, steps);
    SlotsBelongToPairing(cfg, steps, sid);
    RunKeeps(cfg, steps);
  }

  // ---------- the two sides do get in ----------

  function Slots(w: World, sid: string): seq<Slot> { if sid in w.relay then w.relay[sid] else [] }

  /** A packet from an address that the session accepts is admitted. */
  lemma PacketEnters(cfg: Settings, w: World, sid: string, ip: string, port: nat)
    requires w.holder.None? && IsActiveSource(w.m, sid, ip)
    ensures var w' := Next(cfg, Next(cfg, w, PacketCheck(sid, ip, port)), PacketCommit);
            w' == w.(relay := w.relay[sid := Admit(Slots(w, sid), Slot(ip, port, PairingOf(w.m.sessions[sid])))])
  {
  }

  /** One packet from each side of an active session fills its relay entry with exactly these two addresses. */
  lemma BothSidesEnter(cfg: Settings, w: World, sid: string, p: nat, q: nat)
    requires IsActive(w.m, sid) && w.holder.None? && sid !in w.relay
    requires var s := w.m.sessions[sid]; (s.share.value.addr, p) != (s.help.value.addr, q)
    ensures var s := w.m.sessions[sid];
            var a, b := Slot(s.share.value.addr, p, PairingOf(s)), Slot(s.help.value.addr, q, PairingOf(s));
            var w1 := Next(cfg, Next(cfg, w, PacketCheck(sid, a.ip, p)), PacketCommit);
            var w2 := Next(cfg, Next(cfg, w1, PacketCheck(sid, b.ip, q)), PacketCommit);
            w2 == w.(relay := w.relay[sid := [a, b]])
  {
    var s := w.m.sessions[sid];
    var a, b := Slot(s.share.value.addr, p, PairingOf(s)), Slot(s.help.value.addr, q, PairingOf(s));
    PacketEnters(cfg, w, sid, a.ip, p);
    assert Admit([], a) == [a];
    var w1 := w.(relay := w.relay[sid := [a]]);
    PacketEnters(cfg, w1, sid, b.ip, q);
    assert Find([a], b.ip, q) == 1 && Admit([a], b) == [a, b];
    assert w.relay[sid := [a]][sid := [a, b]] == w.relay[sid := [a, b]];
  }
}
