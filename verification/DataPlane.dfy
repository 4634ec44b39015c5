/**
 The UDP data plane next to the session table: relayMu and sm.mu are two locks, and the handlers of
 internal/relay/server.go and internal/p2p/stun_server.go interleave one critical section at a time.

 handleJoin is JoinStart, JoinInvalidate, JoinActivate and, when that fails, JoinRollback. Registration,
 disconnects and cleanup are a Control step followed, at any later time, by an Invalidate; Invalidate may
 in fact happen at any time, which also covers the relay's own expiry. handleRelayPacket takes relayMu in
 PacketCheck, where it asks the session table, and writes its slot and lets go in PacketCommit; sm.mu is free
 in between.
 */
module DataPlane {
  import opened Options
  import opened SessionSpec
  import opened SessionInvariant
  import opened SessionRuns

  datatype Pairing = Pairing(share: Option<Conn>, help: Option<Conn>)

  /** A peer address in a relay entry, with the pairing it was admitted under. */
  datatype Slot = Slot(ip: string, port: nat, admitted: Pairing)

  datatype Admission = Admission(sid: string, slot: Slot)

  datatype Stage = Entered | Invalidated | Failed

  datatype Joiner = Joiner(stage: Stage, sid: string, shareID: string)

  /** `holder` is the packet handler inside relayMu that has passed its check, `joins` the handleJoin calls under
      way. */
  datatype World = World(m: Manager, relay: map<string, seq<Slot>>, holder: Option<Admission>, joins: map<string,
                         Joiner>)

  const START := World(EMPTY, map[], None, map[])

  datatype Step =
    | Control(op: Op, now: Time)
    | JoinStart(conn: Conn, code: string, now: Time)
    | JoinInvalidate(c: string)
    | JoinActivate(c: string)
    | JoinRollback(c: string)
    | Invalidate(sid: string)
    | PacketCheck(sid: string, ip: string, port: nat)
    | PacketCommit
    | PacketDrop

  function PairingOf(s: Session): Pairing { Pairing(s.share, s.help) }

  // ---------- the relay table ----------

  /** The slot of exactly this address, or |slots|. */
  function Find(slots: seq<Slot>, ip: string, port: nat): (i: nat)
    ensures i <= |slots|
  {
    if slots == [] then 0
    else if slots[0].ip == ip && slots[0].port == port then 0
    else 1 + Find(slots[1..], ip, port)
  }

  /** The first slot of this IP, or |slots|. */
  function FindIP(slots: seq<Slot>, ip: string): (i: nat)
    ensures i <= |slots|
  {
    if slots == [] then 0 else if slots[0].ip == ip then 0 else 1 + FindIP(slots[1..], ip)
  }

  /** Find or register the sender: a full entry only follows an IP it knows to a new port. */
  function Admit(slots: seq<Slot>, s: Slot): seq<Slot> {
    if Find(slots, s.ip, s.port) < |slots| then slots
    else if |slots| < 2 then slots + [s]
    else if FindIP(slots, s.ip) < |slots| then slots[FindIP(slots, s.ip) := s]
    else slots
  }

  // ---------- steps ----------

  predicate OnSid(holder: Option<Admission>, sid: string) { holder.Some? && holder.value.sid == sid }

  predicate IsControl(op: Op) { !op.OpJoin? && !op.OpActivate? && !op.OpRollback? }

  function Next(cfg: Settings, w: World, step: Step): World {
    match step
    case Control(op, now) => if IsControl(op) then w.(m := Apply(cfg, w.m, op, now)) else w
    case JoinStart(c, code, now) =>
      var o := JoinCheck(w.m, code, now);
      if c.id !in w.joins && Fresh(w.m, c.id) && o.Joined? then
        w.(m := Join(w.m, code, c, now), joins := w.joins[c.id := Joiner(Entered, o.id, o.shareID)])
      else w
    case JoinInvalidate(c) =>
      if c in w.joins && w.joins[c].stage == Entered && w.holder.None? then
        w.(relay := w.relay - {w.joins[c].sid}, joins := w.joins[c := w.joins[c].(stage := Invalidated)])
      else w
    case JoinActivate(c) =>
      if c in w.joins && w.joins[c].stage == Invalidated then
        if Activates(w, c) then w.(m := Activate(w.m, w.joins[c].sid, w.joins[c].shareID, c), joins := w.joins - {c})
        else w.(joins := w.joins[c := w.joins[c].(stage := Failed)])
      else w
    case JoinRollback(c) =>
      if c in w.joins && w.joins[c].stage == Failed then
        w.(m := Rollback(w.m, w.joins[c].sid, c), joins := w.joins - {c})
      else w
    case Invalidate(sid) => if w.holder.None? then w.(relay := w.relay - {sid}) else w
    case PacketCheck(sid, ip, port) =>
      if w.holder.None? && IsActiveSource(w.m, sid, ip) then
        w.(holder := Some(Admission(sid, Slot(ip, port, PairingOf(w.m.sessions[sid])))))
      else w
    case PacketCommit =>
      if w.holder.Some? then
        var a := w.holder.value;
        w.(relay := w.relay[a.sid := Admit(if a.sid in w.relay then w.relay[a.sid] else [], a.slot)], holder := None)
      else w
    case PacketDrop => w.(holder := None)
  }

  /** ActivateDataPlane would succeed for the join of connection c. */
  predicate Activates(w: World, c: string)
    requires c in w.joins
  {
    w.joins[c].stage == Invalidated && MayActivate(w.m, w.joins[c].sid, w.joins[c].shareID, c)
  }

  function Run(cfg: Settings, steps: seq<Step>): World
    decreases |steps|
  {
    if steps == [] then START else Next(cfg, Run(cfg, steps[..|steps| - 1]), steps[|steps| - 1])
  }

  // ---------- the invariant ----------

  predicate Ready(m: Manager, sid: string) { sid in m.sessions && m.sessions[sid].dataPlaneReady }

  predicate HelpIs(m: Manager, sid: string, c: string) {
    sid in m.sessions && m.sessions[sid].help.Some? && m.sessions[sid].help.value.id == c
  }

  predicate ShareIs(m: Manager, sid: string, c: string) {
    sid in m.sessions && m.sessions[sid].share.Some? && m.sessions[sid].share.value.id == c
  }

  ghost predicate ReadyOk(m: Manager) {
    forall sid :: Ready(m, sid) ==> m.sessions[sid].shareReady
  }

  /** A join under way whose help is still in place keeps the data plane down, and once it has invalidated the
      relay entry no packet can bring one back. */
  predicate JoinerOk(m: Manager, relay: map<string, seq<Slot>>, holder: Option<Admission>, c: string, j: Joiner) {
    HelpIs(m, j.sid, c) ==>
      && !Ready(m, j.sid)
      && (ShareIs(m, j.sid, j.shareID) ==> m.sessions[j.sid].shareReady)
      && (j.stage == Invalidated ==> j.sid !in relay && !OnSid(holder, j.sid))
  }

  ghost predicate JoinersOk(w: World) {
    forall c :: c in w.joins ==> JoinerOk(w.m, w.relay, w.holder, c, w.joins[c])
  }

  predicate SlotOk(m: Manager, sid: string, s: Slot) { Ready(m, sid) ==> s.admitted == PairingOf(m.sessions[sid]) }

  predicate SlotsOk(m: Manager, sid: string, slots: seq<Slot>) {
    |slots| <= 2 && forall i :: 0 <= i < |slots| ==> SlotOk(m, sid, slots[i])
  }

  ghost predicate RelayOk(m: Manager, relay: map<string, seq<Slot>>) {
    forall sid :: sid in relay ==> SlotsOk(m, sid, relay[sid])
  }

  ghost predicate PlaneInv(w: World) {
    && Inv(w.m) && ReadyOk(w.m) && JoinersOk(w) && RelayOk(w.m, w.relay)
    && (w.holder.Some? ==> SlotOk(w.m, w.holder.value.sid, w.holder.value.slot))
  }

  // ---------- changes of the session table ----------

  /** No operation but ActivateDataPlane raises the data plane; while it stays up, the pairing stays. */
  predicate KeepsDown(m: Manager, m': Manager, sid: string) {
    Ready(m', sid) ==>
      && Ready(m, sid) && PairingOf(m'.sessions[sid]) == PairingOf(m.sessions[sid])
      && (m.sessions[sid].shareReady ==> m'.sessions[sid].shareReady)
  }

  /** While a help stays in place, the share beside it stays, and stays announced. */
  predicate KeepsHelp(m: Manager, m': Manager, sid: string, c: string) {
    HelpIs(m', sid, c) ==>
      && HelpIs(m, sid, c)
      && (m'.sessions[sid].share.Some? ==>
            && m'.sessions[sid].share == m.sessions[sid].share
            && (m.sessions[sid].shareReady ==> m'.sessions[sid].shareReady))
  }

  lemma ReuseControls(cfg: Settings, m: Manager, clientID: string, c: Conn, now: Time, sid: string, h: string)
    ensures var m' := Reuse(cfg, m, clientID, c, now); KeepsDown(m, m', sid) && KeepsHelp(m, m', sid, h)
  {
  }

  lemma DisconnectControls(cfg: Settings, m: Manager, c: string, now: Time, sid: string, h: string)
    ensures var m' := Disconnect(cfg, m, c, now); KeepsDown(m, m', sid) && KeepsHelp(m, m', sid, h)
  {
  }

  lemma DebounceControls(m: Manager, id: string, sid: string, h: string)
    requires Inv(m)
    ensures var m' := Debounce(m, id); KeepsDown(m, m', sid) && KeepsHelp(m, m', sid, h)
  {
    assert id in m.sessions ==> LocalOk(m.sessions[id]);
  }

  lemma CreateControls(m: Manager, s: Session, sid: string, h: string)
    requires s.share.Some? && s.help.None? && !s.dataPlaneReady && s.id !in m.sessions
    ensures var m' := Create(m, s); KeepsDown(m, m', sid) && KeepsHelp(m, m', sid, h)
  {
  }

  lemma ReadyControls(m: Manager, id: string, shareID: string, sid: string, h: string)
    ensures var m' := MarkReady(m, id, shareID); KeepsDown(m, m', sid) && KeepsHelp(m, m', sid, h)
  {
  }

  lemma RemovalControls(m: Manager, id: string, now: Time, sid: string, h: string)
    ensures var m' := Delete(m, id); KeepsDown(m, m', sid) && KeepsHelp(m, m', sid, h)
    ensures var m' := CleanOne(m, id, now); KeepsDown(m, m', sid) && KeepsHelp(m, m', sid, h)
  {
  }

  lemma UpdateControls(m: Manager, c: string, addrs: set<string>, sid: string, h: string)
    ensures var m' := UpdateAddr(m, c, addrs); KeepsDown(m, m', sid) && KeepsHelp(m, m', sid, h)
  {
  }

  lemma ControlKeepsDown(cfg: Settings, m: Manager, op: Op, now: Time, sid: string, h: string)
    requires Inv(m) && IsControl(op)
    ensures var m' := Apply(cfg, m, op, now); KeepsDown(m, m', sid) && KeepsHelp(m, m', sid, h)
  {
    match op {
      case OpReuse(clientID, c) => ReuseControls(cfg, m, clientID, c, now, sid, h);
      case OpDisconnect(conn) => DisconnectControls(cfg, m, conn, now, sid, h);
      case OpDebounce(id) => DebounceControls(m, id, sid, h);
      case OpCreate(id, _, c, _, _, ip, maxPerIP, maxTotal, _) =>
        if id !in m.sessions && Fresh(m, c.id) && MayCreate(m, ip, maxPerIP, maxTotal) {
          CreateControls(m, Created(op, now), sid, h);
        }
      case OpMarkReady(id, shareID) => ReadyControls(m, id, shareID, sid, h);
      case OpClose(id) => RemovalControls(m, id, now, sid, h);
      case OpClean(id) => RemovalControls(m, id, now, sid, h);
      case OpUpdateAddr(conn, addrs) => UpdateControls(m, conn, addrs, sid, h);
    }
  }

  /** A change of the table that only takes data planes down keeps the invariant. */
  lemma TableKeeps(w: World, m': Manager)
    requires PlaneInv(w) && Inv(m')
    requires forall sid :: KeepsDown(w.m, m', sid)
    requires forall c :: c in w.joins ==> KeepsHelp(w.m, m', w.joins[c].sid, c)
    ensures PlaneInv(w.(m := m'))
  {
    forall c | c in w.joins
      ensures JoinerOk(m', w.relay, w.holder, c, w.joins[c])
    {
      assert KeepsHelp(w.m, m', w.joins[c].sid, c) && KeepsDown(w.m, m', w.joins[c].sid);
      assert JoinerOk(w.m, w.relay, w.holder, c, w.joins[c]);
    }
    forall sid | sid in w.relay
      ensures SlotsOk(m', sid, w.relay[sid])
    {
      assert KeepsDown(w.m, m', sid) && SlotsOk(w.m, sid, w.relay[sid]);
    }
    forall sid | Ready(m', sid)
      ensures m'.sessions[sid].shareReady
    {
      assert KeepsDown(w.m, m', sid);
    }
    assert w.holder.Some? ==> KeepsDown(w.m, m', w.holder.value.sid);
  }

  lemma ControlKeeps(cfg: Settings, w: World, op: Op, now: Time)
    requires PlaneInv(w) && IsControl(op)
    ensures PlaneInv(w.(m := Apply(cfg, w.m, op, now)))
  {
    var m' := Apply(cfg, w.m, op, now);
    ApplyKeeps(cfg, w.m, op, now);
    forall sid
      ensures KeepsDown(w.m, m', sid)
    {
      ControlKeepsDown(cfg, w.m, op, now, sid, "");
    }
    forall c | c in w.joins
      ensures KeepsHelp(w.m, m', w.joins[c].sid, c)
    {
      ControlKeepsDown(cfg, w.m, op, now, w.joins[c].sid, c);
    }
    TableKeeps(w, m');
  }

  // ---------- joining ----------

  lemma JoinTakesDown(m: Manager, code: string, h: Conn, now: Time, sid: string)
    requires JoinCheck(m, code, now).Joined?
    ensures var m', id := Join(m, code, h, now), JoinCheck(m, code, now).id;
            && KeepsDown(m, m', sid) && (sid != id ==> forall c :: HelpIs(m', sid, c) ==> HelpIs(m, sid, c))
            && (forall c :: HelpIs(m', id, c) ==> c == h.id) && !Ready(m', id)
  {
  }

  lemma JoinKeepsOthers(m: Manager, code: string, h: Conn, now: Time, sid: string, c: string)
    requires JoinCheck(m, code, now).Joined? && c != h.id
    ensures KeepsHelp(m, Join(m, code, h, now), sid, c)
  {
  }

  lemma JoinStartKeeps(cfg: Settings, w: World, h: Conn, code: string, now: Time)
    requires PlaneInv(w)
    ensures PlaneInv(Next(cfg, w, JoinStart(h, code, now)))
  {
    var o := JoinCheck(w.m, code, now);
    if h.id !in w.joins && Fresh(w.m, h.id) && o.Joined? {
      var m' := Join(w.m, code, h, now);
      JoinKeeps(w.m, code, h, now);
      forall sid
        ensures KeepsDown(w.m, m', sid)
      {
        JoinTakesDown(w.m, code, h, now, sid);
      }
      forall c | c in w.joins
        ensures KeepsHelp(w.m, m', w.joins[c].sid, c)
      {
        JoinKeepsOthers(w.m, code, h, now, w.joins[c].sid, c);
      }
      TableKeeps(w, m');
      JoinTakesDown(w.m, code, h, now, o.id);
      assert JoinerOk(m', w.relay, w.holder, h.id, Joiner(Entered, o.id, o.shareID));
    }
  }

  lemma DropEntryKeeps(w: World, sid: string)
    requires PlaneInv(w)
    ensures PlaneInv(w.(relay := w.relay - {sid}))
  {
    forall c | c in w.joins
      ensures JoinerOk(w.m, w.relay - {sid}, w.holder, c, w.joins[c])
    {
      assert JoinerOk(w.m, w.relay, w.holder, c, w.joins[c]);
    }
  }

  lemma JoinInvalidateKeeps(cfg: Settings, w: World, c: string)
    requires PlaneInv(w)
    ensures PlaneInv(Next(cfg, w, JoinInvalidate(c)))
  {
    if c in w.joins && w.joins[c].stage == Entered && w.holder.None? {
      DropEntryKeeps(w, w.joins[c].sid);
      assert JoinerOk(w.m, w.relay, w.holder, c, w.joins[c]);
    }
  }

  lemma ActivateRaises(w: World, c: string, sid: string)
    requires PlaneInv(w) && c in w.joins && Activates(w, c)
    ensures var j := w.joins[c];
            var m' := Activate(w.m, j.sid, j.shareID, c);
            && (sid != j.sid ==> KeepsDown(w.m, m', sid))
            && (forall h :: HelpIs(m', sid, h) <==> HelpIs(w.m, sid, h))
            && (forall h :: ShareIs(m', sid, h) <==> ShareIs(w.m, sid, h))
            && (sid in w.m.sessions ==>
                  sid in m'.sessions && m'.sessions[sid].shareReady == w.m.sessions[sid].shareReady)
            && (sid in m'.sessions ==>
                  sid in w.m.sessions && PairingOf(m'.sessions[sid]) == PairingOf(w.m.sessions[sid]))
  {
  }

  /** The heart of the matter: by the time an activation succeeds, the session's relay entry is gone. */
  lemma ActivationIsClean(w: World, c: string)
    requires PlaneInv(w) && c in w.joins && Activates(w, c)
    ensures var j := w.joins[c];
            j.sid !in w.relay && !OnSid(w.holder, j.sid) && !Ready(w.m, j.sid) && w.m.sessions[j.sid].shareReady
  {
    assert JoinerOk(w.m, w.relay, w.holder, c, w.joins[c]);
  }

  lemma ActivateKeepsJoiners(w: World, c: string)
    requires PlaneInv(w) && c in w.joins && Activates(w, c)
    ensures var j := w.joins[c];
            JoinersOk(w.(m := Activate(w.m, j.sid, j.shareID, c), joins := w.joins - {c}))
  {
    var j := w.joins[c];
    var m' := Activate(w.m, j.sid, j.shareID, c);
    forall d | d in w.joins && d != c
      ensures JoinerOk(m', w.relay, w.holder, d, w.joins[d])
    {
      assert JoinerOk(w.m, w.relay, w.holder, d, w.joins[d]);
      ActivateRaises(w, c, w.joins[d].sid);
    }
  }

  lemma ActivateKeepsRelay(w: World, c: string)
    requires PlaneInv(w) && c in w.joins && Activates(w, c)
    ensures var m' := Activate(w.m, w.joins[c].sid, w.joins[c].shareID, c);
            && RelayOk(m', w.relay)
            && (w.holder.Some? ==> SlotOk(m', w.holder.value.sid, w.holder.value.slot))
  {
    ActivationIsClean(w, c);
    var m' := Activate(w.m, w.joins[c].sid, w.joins[c].shareID, c);
    forall sid | sid in w.relay
      ensures SlotsOk(m', sid, w.relay[sid])
    {
      ActivateRaises(w, c, sid);
      assert SlotsOk(w.m, sid, w.relay[sid]);
    }
    if w.holder.Some? {
      ActivateRaises(w, c, w.holder.value.sid);
    }
  }

  lemma JoinActivateKeeps(cfg: Settings, w: World, c: string)
    requires PlaneInv(w)
    ensures PlaneInv(Next(cfg, w, JoinActivate(c)))
  {
    if c in w.joins && w.joins[c].stage == Invalidated {
      assert JoinerOk(w.m, w.relay, w.holder, c, w.joins[c]);
      if Activates(w, c) {
        var j := w.joins[c];
        var m' := Activate(w.m, j.sid, j.shareID, c);
        ActivateKeeps(w.m, j.sid, j.shareID, c);
        ActivateKeepsJoiners(w, c);
        ActivateKeepsRelay(w, c);
        forall sid | Ready(m', sid)
          ensures m'.sessions[sid].shareReady
        {
          ActivateRaises(w, c, sid);
          ActivationIsClean(w, c);
        }
      }
    }
  }

  lemma JoinRollbackKeeps(cfg: Settings, w: World, c: string)
    requires PlaneInv(w)
    ensures PlaneInv(Next(cfg, w, JoinRollback(c)))
  {
    if c in w.joins && w.joins[c].stage == Failed {
      var m' := Rollback(w.m, w.joins[c].sid, c);
      RollbackKeeps(w.m, w.joins[c].sid, c);
      TableKeeps(w, m');
      assert forall d :: d in w.joins - {c} ==> JoinerOk(m', w.relay, w.holder, d, w.joins[d]);
    }
  }

  // ---------- packets ----------

  lemma CheckKeeps(cfg: Settings, w: World, sid: string, ip: string, port: nat)
    requires PlaneInv(w)
    ensures PlaneInv(Next(cfg, w, PacketCheck(sid, ip, port)))
  {
    if w.holder.None? && IsActiveSource(w.m, sid, ip) {
      var holder := Some(Admission(sid, Slot(ip, port, PairingOf(w.m.sessions[sid]))));
      forall c | c in w.joins
        ensures JoinerOk(w.m, w.relay, holder, c, w.joins[c])
      {
        assert JoinerOk(w.m, w.relay, w.holder, c, w.joins[c]);
      }
    }
  }

  lemma CommitKeeps(cfg: Settings, w: World)
    requires PlaneInv(w) && w.holder.Some?
    ensures PlaneInv(Next(cfg, w, PacketCommit))
  {
    var a := w.holder.value;
    var slots := if a.sid in w.relay then w.relay[a.sid] else [];
    assert SlotsOk(w.m, a.sid, slots) && SlotsOk(w.m, a.sid, Admit(slots, a.slot));
    forall c | c in w.joins
      ensures JoinerOk(w.m, w.relay[a.sid := Admit(slots, a.slot)], None, c, w.joins[c])
    {
      assert JoinerOk(w.m, w.relay, w.holder, c, w.joins[c]);
    }
  }

  lemma DropPacketKeeps(w: World)
    requires PlaneInv(w)
    ensures PlaneInv(w.(holder := None))
  {
    forall c | c in w.joins
      ensures JoinerOk(w.m, w.relay, None, c, w.joins[c])
    {
      assert JoinerOk(w.m, w.relay, w.holder, c, w.joins[c]);
    }
  }

  // ---------- whole runs ----------

  lemma NextKeeps(cfg: Settings, w: World, step: Step)
    requires PlaneInv(w)
    ensures PlaneInv(Next(cfg, w, step))
  {
    match step {
      case Control(op, now) => if IsControl(op) { ControlKeeps(cfg, w, op, now); }
      case JoinStart(h, code, now) => JoinStartKeeps(cfg, w, h, code, now);
      case JoinInvalidate(c) => JoinInvalidateKeeps(cfg, w, c);
      case JoinActivate(c) => JoinActivateKeeps(cfg, w, c);
      case JoinRollback(c) => JoinRollbackKeeps(cfg, w, c);
      case Invalidate(sid) => DropEntryKeeps(w, sid);
      case PacketCheck(sid, ip, port) => CheckKeeps(cfg, w, sid, ip, port);
      case PacketCommit => if w.holder.Some? { CommitKeeps(cfg, w); }
      case PacketDrop => DropPacketKeeps(w);
    }
  }

  lemma {:induction false} RunKeeps(cfg: Settings, steps: seq<Step>)
    ensures PlaneInv(Run(cfg, steps))
    decreases |steps|
  {
    if steps == [] {
      IndexesAgree(cfg, []);
    } else {
      RunKeeps(cfg, steps[..|steps| - 1]);
      NextKeeps(cfg, Run(cfg, steps[..|steps| - 1]), steps[|steps| - 1]);
    }
  }

  /** In every interleaving, an ActivateDataPlane that succeeds finds no relay entry for its session, no packet
      handler about to write one, and a session that was not active before and is active afterwards. */
  lemma ActivationFindsNoEntry(cfg: Settings, steps: seq<Step>, c: string)
    requires var w := Run(cfg, steps); c in w.joins && Activates(w, c)
    ensures var w := Run(cfg, steps);
            var w' := Next(cfg, w, JoinActivate(c));
            && w.joins[c].sid !in w'.relay && !OnSid(w'.holder, w.joins[c].sid)
            && !IsActive(w.m, w.joins[c].sid) && IsActive(w'.m, w.joins[c].sid)
  {
    RunKeeps(cfg, steps);
    ActivationIsClean(Run(cfg, steps), c);
  }

  /** In every interleaving, dataPlaneReady alone means that the session is active, and every peer slot of an
      active session was admitted under the pairing that is active now. */
  lemma SlotsBelongToPairing(cfg: Settings, steps: seq<Step>, sid: string)
    ensures var w := Run(cfg, steps);
            && (Ready(w.m, sid) <==> IsActive(w.m, sid))
            && (sid in w.relay ==> |w.relay[sid]| <= 2)
            && (Ready(w.m, sid) && sid in w.relay ==>
                  forall i :: 0 <= i < |w.relay[sid]| ==> w.relay[sid][i].admitted == PairingOf(w.m.sessions[sid]))
  {
    RunKeeps(cfg, steps);
    var w := Run(cfg, steps);
    assert sid in w.m.sessions ==> LocalOk(w.m.sessions[sid]);
    assert sid in w.relay ==> SlotsOk(w.m, sid, w.relay[sid]);
    assert sid in w.relay && Ready(w.m, sid) ==>
        forall i :: 0 <= i < |w.relay[sid]| ==> SlotOk(w.m, sid, w.relay[sid][i]);
  }
}
