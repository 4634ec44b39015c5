/** Two processes with one client ID cannot keep displacing each other. */
module TakeoverStorm {
  import opened Options
  import opened Sets
  import opened SessionSpec
  import opened SessionInvariant
  import opened SessionRuns

  // ---------- the sliding window ----------

  predicate Sorted(ts: seq<Time>) { forall i, j :: 0 <= i <= j < |ts| ==> ts[i] <= ts[j] }

  /** On sorted timestamps, Recent cuts off a prefix of those that have left the window. */
  lemma {:induction false} RecentIsSuffix(ts: seq<Time>, now: Time, window: Time) returns (k: nat)
    requires Sorted(ts)
    ensures k <= |ts| && Recent(ts, now, window) == ts[k..]
    ensures forall i :: 0 <= i < k ==> ts[i] + window <= now
    decreases |ts|
  {
    if ts == [] {
      k := 0;
    } else {
      var init, last := ts[..|ts| - 1], ts[|ts| - 1];
      k := RecentIsSuffix(init, now, window);
      if last + window > now {
        assert ts[k..] == init[k..] + [last];
      } else {
        assert forall i :: 0 <= i < |ts| ==> ts[i] <= last;
        assert k < |init| ==> init[k] in Recent(init, now, window);
        k := |ts|;
        RecentEmpty(init, now, window);
      }
    }
  }

  lemma {:induction false} RecentEmpty(ts: seq<Time>, now: Time, window: Time)
    requires forall i :: 0 <= i < |ts| ==> ts[i] + window <= now
    ensures Recent(ts, now, window) == []
    decreases |ts|
  {
    if ts != [] {
      RecentEmpty(ts[..|ts| - 1], now, window);
    }
  }

  // ---------- displacements of an online share ----------

  /** The event takes session sid away from a share that is still online. */
  predicate Displaces(cfg: Settings, m: Manager, e: Event, sid: string) {
    && e.op.OpReuse? && Fresh(m, e.op.c.id)
    && Decide(cfg, m, e.op.clientID, e.op.c, e.now) == Reused && m.byClient[e.op.clientID] == sid
    && m.sessions[sid].share.Some? && m.sessions[sid].share.value.id != e.op.c.id
  }

  /** The online share of session sid leaves by itself. */
  predicate Departs(m: Manager, e: Event, sid: string) {
    && e.op.OpDisconnect? && sid in m.sessions && RoutesTo(m.byConn, e.op.conn, sid)
    && m.sessions[sid].share.Some? && m.sessions[sid].share.value.id == e.op.conn
  }

  /** The times at which session sid was taken from an online share since the online share last left by itself. */
  function Displacements(cfg: Settings, es: seq<Event>, sid: string): seq<Time>
    decreases |es|
  {
    if es == [] then []
    else
      var init, e := es[..|es| - 1], es[|es| - 1];
      NextLog(cfg, Run(cfg, EMPTY, init), e, sid, Displacements(cfg, init, sid))
  }

  /** live is the tail of log that still counts; whatever dropped out is too old for any takeover to come. */
  ghost predicate Tracked(cfg: Settings, live: seq<Time>, until: Time, log: seq<Time>, last: Time) {
    && Sorted(log) && (forall i :: 0 <= i < |log| ==> log[i] <= last)
    && TailOf(live, log) && |live| <= MAX_REPLACES
    && Aged(cfg.window, log, |log| - |live|, last, until)
    && until <= last + cfg.cooldown
    && Spaced(cfg.window, log)
  }

  predicate TailOf(live: seq<Time>, log: seq<Time>) { |live| <= |log| && live == log[|log| - |live|..] }

  predicate Aged(window: Time, log: seq<Time>, n: int, last: Time, until: Time) {
    forall i :: 0 <= i < n && i < |log| ==> log[i] + window <= last || log[i] + window <= until
  }

  /** Of any four displacements in a row, the first and the last are a full window apart. */
  predicate Spaced(window: Time, log: seq<Time>) {
    forall i :: 0 <= i && i + MAX_REPLACES < |log| ==> log[i] + window <= log[i + MAX_REPLACES]
  }

  lemma TimePasses(cfg: Settings, live: seq<Time>, until: Time, log: seq<Time>, last: Time, now: Time)
    requires Tracked(cfg, live, until, log, last) && last <= now
    ensures Tracked(cfg, live, until, log, now)
  {
  }

  lemma DisplacementTracked(cfg: Settings, live: seq<Time>, until: Time, log: seq<Time>, now: Time)
    requires Tracked(cfg, live, until, log, now) && now >= until
    requires |RecordReplace(live, now, cfg.window)| <= MAX_REPLACES
    ensures Tracked(cfg, RecordReplace(live, now, cfg.window), until, log + [now], now)
  {
    var k := RecentIsSuffix(live, now, cfg.window);
    var live', log' := live[k..] + [now], log + [now];
    assert RecordReplace(live, now, cfg.window) == live';
    SuffixGrows(log, live, k, now);
    AgedGrows(cfg.window, log, live, k, now, until, log', |log'| - |live'|);
    SpacedGrows(cfg.window, log, now, log', |log'| - |live'|);
    SortedGrows(log, now);
  }

  lemma SortedGrows(log: seq<Time>, now: Time)
    requires Sorted(log) && forall i :: 0 <= i < |log| ==> log[i] <= now
    ensures Sorted(log + [now]) && forall i :: 0 <= i < |log + [now]| ==> (log + [now])[i] <= now
  {
  }

  lemma SuffixGrows(log: seq<Time>, live: seq<Time>, k: nat, now: Time)
    requires k <= |live| && TailOf(live, log)
    ensures TailOf(live[k..] + [now], log + [now])
  {
  }

  lemma AgedGrows(window: Time, log: seq<Time>, live: seq<Time>, k: nat, now: Time, until: Time, log': seq<Time>,
                  n: int)
    requires TailOf(live, log) && Aged(window, log, |log| - |live|, now, until) && until <= now && log' == log + [now]
    requires k <= |live| && n == |log| - (|live| - k) && forall i :: 0 <= i < k ==> live[i] + window <= now
    ensures Aged(window, log', n, now, until) && Aged(window, log', n, now, now)
  {
    forall i | 0 <= i < n ensures log'[i] + window <= now {
      assert log'[i] == log[i];
      assert i >= |log| - |live| ==> log[i] == live[i - (|log| - |live|)];
    }
  }

  lemma SpacedGrows(window: Time, log: seq<Time>, now: Time, log': seq<Time>, n: int)
    requires Spaced(window, log) && log' == log + [now] && n >= |log'| - MAX_REPLACES && Aged(window, log', n, now, now)
    ensures Spaced(window, log')
  {
    assert forall i :: 0 <= i < |log| ==> log'[i] == log[i];
  }

  lemma ConflictTracked(cfg: Settings, live: seq<Time>, until: Time, log: seq<Time>, now: Time)
    requires Tracked(cfg, live, until, log, now) && cfg.cooldown >= cfg.window
    ensures Tracked(cfg, [], now + cfg.cooldown, log, now)
    ensures Tracked(cfg, live, now + cfg.cooldown, log, now)
  {
  }

  // ---------- over runs ----------

  predicate SameRecord(s: Session, s': Session) {
    s'.liveReplaces == s.liveReplaces && s'.conflictUntil == s.conflictUntil
  }

  /** A drop that is not the departure of this session's share leaves the conflict record alone. */
  lemma DisconnectLeavesRecord(cfg: Settings, m: Manager, c: string, now: Time, sid: string)
    requires Inv(m) && sid in m.sessions
    requires m.sessions[sid].share.Some? && RoutesTo(m.byConn, c, sid) ==> m.sessions[sid].share.value.id != c
    ensures var m' := Disconnect(cfg, m, c, now); sid in m'.sessions && SameRecord(m.sessions[sid], m'.sessions[sid])
  {
    RoutedIsBound(m, c);
  }

  lemma JoinLeavesRecord(m: Manager, code: string, h: Conn, now: Time, sid: string)
    requires sid in m.sessions
    ensures var m' := Join(m, code, h, now); sid in m'.sessions && SameRecord(m.sessions[sid], m'.sessions[sid])
  {
  }

  /** Only takeovers and the departure of the share touch the conflict record. */
  lemma OthersLeaveRecord(cfg: Settings, m: Manager, e: Event, sid: string)
    requires Inv(m) && sid in m.sessions && !e.op.OpReuse? && !Departs(m, e, sid)
    ensures var m' := Apply(cfg, m, e.op, e.now); sid in m'.sessions ==> SameRecord(m.sessions[sid], m'.sessions[sid])
  {
    if e.op.OpDisconnect? {
      DisconnectLeavesRecord(cfg, m, e.op.conn, e.now, sid);
    } else if e.op.OpCreate? || e.op.OpJoin? || e.op.OpUpdateAddr? {
      BindingLeavesRecord(cfg, m, e.op, e.now, sid);
    } else {
      FlaggingLeavesRecord(cfg, m, e.op, e.now, sid);
    }
  }

  lemma BindingLeavesRecord(cfg: Settings, m: Manager, op: Op, now: Time, sid: string)
    requires sid in m.sessions && (op.OpCreate? || op.OpJoin? || op.OpUpdateAddr?)
    ensures RecordKept(m.sessions, Apply(cfg, m, op, now).sessions, sid)
  {
    match op {
      case OpCreate(_, _, _, _, _, _, _, _, _) =>
      case OpJoin(code, h) => JoinLeavesRecord(m, code, h, now, sid);
      case OpUpdateAddr(conn, addrs) => UpdateLeavesRecord(m, conn, addrs, sid);
    }
  }

  lemma FlaggingLeavesRecord(cfg: Settings, m: Manager, op: Op, now: Time, sid: string)
    requires sid in m.sessions
    requires op.OpMarkReady? || op.OpRollback? || op.OpActivate? || op.OpClose? || op.OpDebounce? || op.OpClean?
    ensures RecordKept(m.sessions, Apply(cfg, m, op, now).sessions, sid)
  {
    match op {
      case OpMarkReady(id, shareID) => FlagsLeaveRecord(m, id, shareID, "", sid);
      case OpRollback(id, helpID) => HelpGoneLeavesRecord(m, id, helpID, sid);
      case OpActivate(id, shareID, helpID) => FlagsLeaveRecord(m, id, shareID, helpID, sid);
      case OpClose(id) => RemovalLeavesRecord(m, id, now, sid);
      case OpDebounce(id) => HelpGoneLeavesRecord(m, id, "", sid);
      case OpClean(id) => RemovalLeavesRecord(m, id, now, sid);
    }
  }

  /** The session is gone, or has the same conflict record. */
  predicate RecordKept(before: map<string, Session>, after: map<string, Session>, sid: string)
    requires sid in before
  {
    sid in after ==> SameRecord(before[sid], after[sid])
  }

  lemma ChangeLeavesRecord(sessions: map<string, Session>, id: string, s: Session, sid: string)
    requires sid in sessions && id in sessions && SameRecord(sessions[id], s)
    ensures RecordKept(sessions, sessions[id := s], sid)
  {
  }

  lemma FlagsLeaveRecord(m: Manager, id: string, shareID: string, helpID: string, sid: string)
    requires sid in m.sessions
    ensures RecordKept(m.sessions, MarkReady(m, id, shareID).sessions, sid)
    ensures RecordKept(m.sessions, Activate(m, id, shareID, helpID).sessions, sid)
  {
    if id in m.sessions {
      ChangeLeavesRecord(m.sessions, id, m.sessions[id].(shareReady := true), sid);
      ChangeLeavesRecord(m.sessions, id, m.sessions[id].(dataPlaneReady := true), sid);
    }
  }

  lemma HelpGoneLeavesRecord(m: Manager, id: string, helpID: string, sid: string)
    requires sid in m.sessions
    ensures RecordKept(m.sessions, Rollback(m, id, helpID).sessions, sid)
    ensures RecordKept(m.sessions, Debounce(m, id).sessions, sid)
  {
    if id in m.sessions {
      ChangeLeavesRecord(m.sessions, id, m.sessions[id].(help := None, dataPlaneReady := false), sid);
      ChangeLeavesRecord(m.sessions, id, m.sessions[id].(help := None, pendingHelp := ""), sid);
    }
  }

  lemma UpdateLeavesRecord(m: Manager, c: string, addrs: set<string>, sid: string)
    requires sid in m.sessions
    ensures RecordKept(m.sessions, UpdateAddr(m, c, addrs).sessions, sid)
  {
    if c in m.byConn && m.byConn[c] in m.sessions {
      var id := m.byConn[c];
      ChangeLeavesRecord(m.sessions, id, m.sessions[id].(shareAddrs := addrs), sid);
      ChangeLeavesRecord(m.sessions, id, m.sessions[id].(helpAddrs := addrs), sid);
    }
  }

  lemma RemovalLeavesRecord(m: Manager, id: string, now: Time, sid: string)
    requires sid in m.sessions
    ensures RecordKept(m.sessions, Delete(m, id).sessions, sid)
    ensures RecordKept(m.sessions, CleanOne(m, id, now).sessions, sid)
  {
  }

  lemma ReuseElsewhere(cfg: Settings, m: Manager, clientID: string, c: Conn, now: Time, sid: string)
    requires sid in m.sessions && (Decide(cfg, m, clientID, c, now) == NoSession || m.byClient[clientID] != sid)
    ensures var m' := Reuse(cfg, m, clientID, c, now); sid in m'.sessions && m'.sessions[sid] == m.sessions[sid]
  {
  }

  lemma ReuseHere(cfg: Settings, m: Manager, clientID: string, c: Conn, now: Time)
    requires Decide(cfg, m, clientID, c, now) != NoSession
    ensures var sid := m.byClient[clientID];
            var m' := Reuse(cfg, m, clientID, c, now);
            sid in m'.sessions && SameRecord(Charge(cfg, m.sessions[sid], c, now), m'.sessions[sid])
  {
  }

  lemma ChargeTracked(cfg: Settings, s: Session, c: Conn, now: Time, log: seq<Time>)
    requires Tracked(cfg, s.liveReplaces, s.conflictUntil, log, now) && cfg.cooldown >= cfg.window
    ensures var s' := Charge(cfg, s, c, now);
            var taken := s.share.Some? && s.share.value.id != c.id && now >= s.conflictUntil
                         && |RecordReplace(s.liveReplaces, now, cfg.window)| <= MAX_REPLACES;
            Tracked(cfg, s'.liveReplaces, s'.conflictUntil, if taken then log + [now] else log, now)
  {
    ConflictTracked(cfg, s.liveReplaces, s.conflictUntil, log, now);
    if now >= s.conflictUntil && |RecordReplace(s.liveReplaces, now, cfg.window)| <= MAX_REPLACES {
      DisplacementTracked(cfg, s.liveReplaces, s.conflictUntil, log, now);
    }
  }

  lemma ReuseTracked(cfg: Settings, m: Manager, e: Event, sid: string, log: seq<Time>)
    requires sid in m.sessions && e.op.OpReuse? && cfg.cooldown >= cfg.window
    requires Tracked(cfg, m.sessions[sid].liveReplaces, m.sessions[sid].conflictUntil, log, e.now)
    ensures sid in Apply(cfg, m, e.op, e.now).sessions
    ensures var s' := Apply(cfg, m, e.op, e.now).sessions[sid];
            Tracked(cfg, s'.liveReplaces, s'.conflictUntil, if Displaces(cfg, m, e, sid) then log + [e.now] else log,
                    e.now)
  {
    if Fresh(m, e.op.c.id) {
      if Decide(cfg, m, e.op.clientID, e.op.c, e.now) == NoSession || m.byClient[e.op.clientID] != sid {
        ReuseElsewhere(cfg, m, e.op.clientID, e.op.c, e.now, sid);
      } else {
        ReuseHere(cfg, m, e.op.clientID, e.op.c, e.now);
        ChargeTracked(cfg, m.sessions[sid], e.op.c, e.now, log);
      }
    }
  }

  /** The record of session sid, if there is one, is the recent tail of this history. */
  ghost predicate TrackedIn(cfg: Settings, m: Manager, sid: string, log: seq<Time>, now: Time) {
    && (sid in m.sessions ==> Tracked(cfg, m.sessions[sid].liveReplaces, m.sessions[sid].conflictUntil, log, now))
    && Spaced(cfg.window, log)
  }

  function NextLog(cfg: Settings, m: Manager, e: Event, sid: string, log: seq<Time>): seq<Time> {
    if sid !in m.sessions || Departs(m, e, sid) then []
    else if Displaces(cfg, m, e, sid) then log + [e.now]
    else log
  }

  lemma StepTracked(cfg: Settings, m: Manager, e: Event, sid: string, log: seq<Time>)
    requires Inv(m) && cfg.cooldown >= cfg.window && TrackedIn(cfg, m, sid, log, e.now)
    ensures TrackedIn(cfg, Apply(cfg, m, e.op, e.now), sid, NextLog(cfg, m, e, sid, log), e.now)
  {
    if sid !in m.sessions {
      NewcomersAreClean(cfg, m, e.op, e.now, sid);
    } else if Departs(m, e, sid) {
      DepartureClears(cfg, m, e.op.conn, e.now, sid);
    } else if e.op.OpReuse? {
      ReuseTracked(cfg, m, e, sid, log);
    } else {
      OthersLeaveRecord(cfg, m, e, sid);
    }
  }

  lemma TrackedLater(cfg: Settings, m: Manager, sid: string, log: seq<Time>, last: Time, now: Time)
    requires last <= now
    ensures TrackedIn(cfg, m, sid, log, last) ==> TrackedIn(cfg, m, sid, log, now)
  {
    if sid in m.sessions && TrackedIn(cfg, m, sid, log, last) {
      TimePasses(cfg, m.sessions[sid].liveReplaces, m.sessions[sid].conflictUntil, log, last, now);
    }
  }

  lemma {:induction false} RunTracked(cfg: Settings, es: seq<Event>, sid: string, now: Time)
    requires Ordered(es) && cfg.cooldown >= cfg.window && (es != [] ==> es[|es| - 1].now <= now)
    ensures TrackedIn(cfg, Run(cfg, EMPTY, es), sid, Displacements(cfg, es, sid), now)
    decreases |es|
  {
    if es != [] {
      var init, e := es[..|es| - 1], es[|es| - 1];
      IndexesAgree(cfg, init);
      RunTracked(cfg, init, sid, e.now);
      StepTracked(cfg, Run(cfg, EMPTY, init), e, sid, Displacements(cfg, init, sid));
      TrackedLater(cfg, Run(cfg, EMPTY, es), sid, Displacements(cfg, es, sid), e.now, now);
    }
  }

  lemma DepartureClears(cfg: Settings, m: Manager, c: string, now: Time, sid: string)
    requires Inv(m) && sid in m.sessions && RoutesTo(m.byConn, c, sid)
    requires m.sessions[sid].share.Some? && m.sessions[sid].share.value.id == c
    ensures var m' := Disconnect(cfg, m, c, now);
            sid in m'.sessions && m'.sessions[sid].liveReplaces == [] && m'.sessions[sid].conflictUntil == 0
  {
    assert LocalOk(m.sessions[sid]);
  }

  predicate Removes(op: Op) { op.OpRollback? || op.OpClose? || op.OpDebounce? || op.OpClean? }

  lemma NewcomersAreClean(cfg: Settings, m: Manager, op: Op, now: Time, sid: string)
    requires Inv(m) && sid !in m.sessions
    ensures var m' := Apply(cfg, m, op, now);
            sid in m'.sessions ==> m'.sessions[sid].liveReplaces == [] && m'.sessions[sid].conflictUntil == 0
  {
    if op.OpReuse? || op.OpJoin? {
      BindingAddsNone(cfg, m, op, now, sid);
    } else if Removes(op) || op.OpDisconnect? {
      RemovalAddsNone(cfg, m, op, now, sid);
    }
  }

  lemma BindingAddsNone(cfg: Settings, m: Manager, op: Op, now: Time, sid: string)
    requires Inv(m) && sid !in m.sessions && (op.OpReuse? || op.OpJoin?)
    ensures sid !in Apply(cfg, m, op, now).sessions
  {
  }

  lemma RemovalAddsNone(cfg: Settings, m: Manager, op: Op, now: Time, sid: string)
    requires Inv(m) && sid !in m.sessions && (Removes(op) || op.OpDisconnect?)
    ensures sid !in Apply(cfg, m, op, now).sessions
  {
  }

  /** The displacements in the half-open stretch of this length. */
  function InWindow(log: seq<Time>, from: Time, window: Time): set<nat> {
    set i: nat | i < |log| && from <= log[i] < from + window
  }

  lemma FewInWindow(log: seq<Time>, from: Time, window: Time)
    requires Sorted(log) && Spaced(window, log)
    ensures |InWindow(log, from, window)| <= MAX_REPLACES
  {
    var lo := 0;
    while lo < |log| && log[lo] < from
      invariant 0 <= lo <= |log| && forall i :: 0 <= i < lo ==> log[i] < from
    {
      lo := lo + 1;
    }
    var hits := InWindow(log, from, window);
    forall i | i in hits
      ensures i in {lo, lo + 1, lo + 2}
    {
      assert lo <= i;
      assert lo + MAX_REPLACES < |log| ==> log[lo] + window <= log[lo + MAX_REPLACES];
    }
    SubsetSize(hits, {lo, lo + 1, lo + 2});
  }

  /** The storm bound. With a cooldown at least as long as the window, between true departures of the online
      share any half-open stretch of time as long as the window sees at most three displacements. */
  lemma StormBound(cfg: Settings, es: seq<Event>, sid: string, from: Time)
    requires Ordered(es) && cfg.cooldown >= cfg.window
    ensures |InWindow(Displacements(cfg, es, sid), from, cfg.window)| <= MAX_REPLACES
  {
    var log := Displacements(cfg, es, sid);
    RunTracked(cfg, es, sid, if es == [] then 0 else es[|es| - 1].now);
    DisplacementsSorted(cfg, es, sid);
    FewInWindow(log, from, cfg.window);
  }

  lemma {:induction false} DisplacementsSorted(cfg: Settings, es: seq<Event>, sid: string)
    requires Ordered(es)
    ensures var log := Displacements(cfg, es, sid);
            Sorted(log) && (forall i :: 0 <= i < |log| ==> es != [] && log[i] <= es[|es| - 1].now)
    decreases |es|
  {
    if es != [] {
      DisplacementsSorted(cfg, es[..|es| - 1], sid);
    }
  }

  // ---------- the displaced share ----------

  predicate Binds(op: Op, c: string) { (op.OpCreate? || op.OpReuse? || op.OpJoin?) && op.c.id == c }

  lemma StaysUnrouted(cfg: Settings, m: Manager, op: Op, now: Time, c: string)
    requires Inv(m) && c !in m.byConn && !Binds(op, c)
    ensures c !in Apply(cfg, m, op, now).byConn
  {
    if op.OpReuse? || op.OpJoin? {
      BindingLeavesUnrouted(cfg, m, op, now, c);
    } else if Removes(op) || op.OpDisconnect? {
      RemovalLeavesUnrouted(cfg, m, op, now, c);
    }
  }

  lemma BindingLeavesUnrouted(cfg: Settings, m: Manager, op: Op, now: Time, c: string)
    requires Inv(m) && c !in m.byConn && (op.OpReuse? || op.OpJoin?) && op.c.id != c
    ensures c !in Apply(cfg, m, op, now).byConn
  {
  }

  lemma RemovalLeavesUnrouted(cfg: Settings, m: Manager, op: Op, now: Time, c: string)
    requires Inv(m) && c !in m.byConn && (Removes(op) || op.OpDisconnect?)
    ensures c !in Apply(cfg, m, op, now).byConn
  {
  }

  lemma {:induction false} RunUnrouted(cfg: Settings, m: Manager, es: seq<Event>, c: string)
    requires Inv(m) && c !in m.byConn && forall i :: 0 <= i < |es| ==> !Binds(es[i].op, c)
    ensures Inv(Run(cfg, m, es)) && c !in Run(cfg, m, es).byConn
    decreases |es|
  {
    if es != [] {
      var init, e := es[..|es| - 1], es[|es| - 1];
      RunUnrouted(cfg, m, init, c);
      ApplyKeeps(cfg, Run(cfg, m, init), e.op, e.now);
      StaysUnrouted(cfg, Run(cfg, m, init), e.op, e.now, c);
    }
  }

  /** Once displaced, a share can do nothing to the table any more: however much later its connection drops, the
      disconnect changes nothing. */
  lemma DisplacedIsForgotten(cfg: Settings, m: Manager, e: Event, sid: string, es: seq<Event>, now: Time)
    requires Inv(m) && Displaces(cfg, m, e, sid)
    requires var gone := m.sessions[sid].share.value.id; forall i :: 0 <= i < |es| ==> !Binds(es[i].op, gone)
    ensures var m', gone := Run(cfg, Apply(cfg, m, e.op, e.now), es), m.sessions[sid].share.value.id;
            Disconnect(cfg, m', gone, now) == m'
  {
    var gone := m.sessions[sid].share.value.id;
    ApplyKeeps(cfg, m, e.op, e.now);
    assert gone !in Apply(cfg, m, e.op, e.now).byConn;
    RunUnrouted(cfg, Apply(cfg, m, e.op, e.now), es, gone);
  }
}
