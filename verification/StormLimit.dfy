/** The storm bound needs a cooldown as long as the window: with a shorter one, a refused storm goes on too early. */
module StormLimit {
  import opened Options
  import opened Sets
  import opened SessionSpec
  import opened SessionInvariant
  import opened SessionRuns
  import opened TakeoverStorm

  /** One share after the other, all with the same client ID. */
  function Rival(i: nat): Conn { Conn(seq(i + 1, _ => 'r'), "") }

  /** The table with one session, held by rival i. */
  function Held(cfg: Settings, i: nat, live: seq<Time>, until: Time): Manager {
    var s := NewSession("s", "code", Rival(i), cfg.cooldown, "client", "", false, false);
    Manager(map["s" := s.(liveReplaces := live, conflictUntil := until)], map["code" := "s"], map["client" := "s"],
            map[Rival(i).id := "s"], map[])
  }

  /** Some run with its last event at time t ends with this table and this history of displacements. */
  ghost predicate Reached(cfg: Settings, m: Manager, log: seq<Time>, t: Time) {
    exists es :: ReachedBy(cfg, es, m, log, t)
  }

  ghost predicate ReachedBy(cfg: Settings, es: seq<Event>, m: Manager, log: seq<Time>, t: Time) {
    && Ordered(es) && (forall i :: 0 <= i < |es| ==> es[i].now <= t)
    && Run(cfg, EMPTY, es) == m && Displacements(cfg, es, "s") == log
  }

  lemma Goes(cfg: Settings, m: Manager, log: seq<Time>, t: Time, e: Event)
    requires Reached(cfg, m, log, t) && t <= e.now
    ensures Reached(cfg, Apply(cfg, m, e.op, e.now), NextLog(cfg, m, e, "s", log), e.now)
  {
    var es :| ReachedBy(cfg, es, m, log, t);
    OneMore(cfg, es, m, log, t, e);
  }

  lemma OneMore(cfg: Settings, es: seq<Event>, m: Manager, log: seq<Time>, t: Time, e: Event)
    requires ReachedBy(cfg, es, m, log, t) && t <= e.now
    ensures ReachedBy(cfg, es + [e], Apply(cfg, m, e.op, e.now), NextLog(cfg, m, e, "s", log), e.now)
  {
    var more := es + [e];
    assert more[..|more| - 1] == es && more[|more| - 1] == e;
  }

  lemma Opens(cfg: Settings)
    ensures Reached(cfg, Held(cfg, 0, [], 0), [], 0)
  {
    assert ReachedBy(cfg, [], EMPTY, [], 0);
    var e := Event(OpCreate("s", "code", Rival(0), cfg.cooldown, "client", "", 0, 1, false), 0);
    Goes(cfg, EMPTY, [], 0, e);
    assert Apply(cfg, EMPTY, e.op, 0) == Held(cfg, 0, [], 0);
  }

  lemma NextIsFresh(cfg: Settings, i: nat, live: seq<Time>, until: Time)
    ensures Fresh(Held(cfg, i, live, until), Rival(i + 1).id)
  {
    assert |Rival(i + 1).id| == i + 2 && |Rival(i).id| == i + 1;
  }

  /** The next rival asks at time t. */
  function Attempt(i: nat, t: Time): Event { Event(OpReuse("client", Rival(i + 1)), t) }

  /** Rival i' takes the session at time t. */
  predicate Winning(cfg: Settings, i: nat, i': nat, live: seq<Time>, live': seq<Time>, until: Time, t: Time) {
    && i' == i + 1 && live' == RecordReplace(live, t, cfg.window) && |live'| <= MAX_REPLACES
    && until <= t <= cfg.cooldown
  }

  lemma WinTable(cfg: Settings, i: nat, i': nat, live: seq<Time>, live': seq<Time>, until: Time, t: Time)
    requires Winning(cfg, i, i', live, live', until, t)
    ensures var m, e := Held(cfg, i, live, until), Attempt(i, t);
            && Apply(cfg, m, e.op, t) == Held(cfg, i', live', until)
            && Displaces(cfg, m, e, "s") && !Departs(m, e, "s")
  {
    NextIsFresh(cfg, i, live, until);
  }

  lemma Wins(cfg: Settings, i: nat, i': nat, live: seq<Time>, live': seq<Time>, until: Time, log: seq<Time>,
             log': seq<Time>, last: Time, t: Time)
    requires Reached(cfg, Held(cfg, i, live, until), log, last) && last <= t
    requires Winning(cfg, i, i', live, live', until, t) && log' == log + [t]
    ensures Reached(cfg, Held(cfg, i', live', until), log', t)
  {
    WinTable(cfg, i, i', live, live', until, t);
    Goes(cfg, Held(cfg, i, live, until), log, last, Attempt(i, t));
  }

  lemma LossTable(cfg: Settings, i: nat, live: seq<Time>, until: Time, until': Time, t: Time)
    requires until <= t <= cfg.cooldown && until' == t + cfg.cooldown
    requires |RecordReplace(live, t, cfg.window)| > MAX_REPLACES
    ensures var m, e := Held(cfg, i, live, until), Attempt(i, t);
            && Apply(cfg, m, e.op, t) == Held(cfg, i, [], until')
            && !Displaces(cfg, m, e, "s") && !Departs(m, e, "s")
  {
    NextIsFresh(cfg, i, live, until);
  }

  lemma Loses(cfg: Settings, i: nat, live: seq<Time>, until: Time, until': Time, log: seq<Time>, last: Time, t: Time)
    requires Reached(cfg, Held(cfg, i, live, until), log, last) && last <= t
    requires until <= t <= cfg.cooldown && until' == t + cfg.cooldown
    requires |RecordReplace(live, t, cfg.window)| > MAX_REPLACES
    ensures Reached(cfg, Held(cfg, i, [], until'), log, t)
  {
    LossTable(cfg, i, live, until, until', t);
    Goes(cfg, Held(cfg, i, live, until), log, last, Attempt(i, t));
  }

  lemma Records(window: Time, t: Time)
    requires window > 0
    ensures RecordReplace([], t, window) == [t]
    ensures RecordReplace([0], 0, window) == [0, 0]
    ensures RecordReplace([0, 0], 0, window) == [0, 0, 0]
    ensures RecordReplace([0, 0, 0], 0, window) == [0, 0, 0, 0]
  {
    assert [0][..0] == [] && [0, 0][..1] == [0] && [0, 0, 0][..2] == [0, 0];
    assert Recent([0], 0, window) == [0] && Recent([0, 0], 0, window) == [0, 0];
  }

  /** Three displacements at once. */
  lemma ThreeWins(cfg: Settings)
    requires cfg.window > 0
    ensures Reached(cfg, Held(cfg, 3, [0, 0, 0], 0), [0, 0, 0], 0)
  {
    Records(cfg.window, 0);
    Opens(cfg);
    Wins(cfg, 0, 1, [], [0], 0, [], [0], 0, 0);
    Wins(cfg, 1, 2, [0], [0, 0], 0, [0], [0, 0], 0, 0);
    Wins(cfg, 2, 3, [0, 0], [0, 0, 0], 0, [0, 0], [0, 0, 0], 0, 0);
  }

  /** Then a refusal, and a fourth displacement as soon as the cooldown is over. */
  lemma EarlyReturn(cfg: Settings)
    requires cfg.cooldown < cfg.window
    ensures Reached(cfg, Held(cfg, 4, [cfg.cooldown], cfg.cooldown), [0, 0, 0] + [cfg.cooldown], cfg.cooldown)
  {
    ThreeWins(cfg);
    Refusal(cfg);
    Records(cfg.window, cfg.cooldown);
    Wins(cfg, 3, 4, [], [cfg.cooldown], cfg.cooldown, [0, 0, 0], [0, 0, 0] + [cfg.cooldown], 0, cfg.cooldown);
  }

  lemma Refusal(cfg: Settings)
    requires cfg.window > 0 && Reached(cfg, Held(cfg, 3, [0, 0, 0], 0), [0, 0, 0], 0)
    ensures Reached(cfg, Held(cfg, 3, [], cfg.cooldown), [0, 0, 0], 0)
  {
    Records(cfg.window, 0);
    Loses(cfg, 3, [0, 0, 0], 0, cfg.cooldown, [0, 0, 0], 0, 0);
  }

  lemma FourInWindow(cooldown: Time, window: Time)
    requires cooldown < window
    ensures |InWindow([0, 0, 0] + [cooldown], 0, window)| > MAX_REPLACES
  {
    var four: set<nat> := {0, 1, 2, 3};
    SubsetSize(four, InWindow([0, 0, 0] + [cooldown], 0, window));
  }

  lemma TooMany(cfg: Settings) returns (es: seq<Event>)
    requires cfg.cooldown < cfg.window
    ensures Ordered(es) && !Calm(cfg, es, "s", 0)
  {
    EarlyReturn(cfg);
    FourInWindow(cfg.cooldown, cfg.window);
    es :| ReachedBy(cfg, es, Held(cfg, 4, [cfg.cooldown], cfg.cooldown), [0, 0, 0] + [cfg.cooldown], cfg.cooldown);
  }

  /** The bound for one run, one session and one stretch of time. */
  ghost predicate Calm(cfg: Settings, es: seq<Event>, sid: string, from: Time) {
    |InWindow(Displacements(cfg, es, sid), from, cfg.window)| <= MAX_REPLACES
  }

  /** The storm bound holds in every run if and only if the cooldown is at least as long as the window. */
  lemma StormBoundIff(cfg: Settings)
    ensures (forall es, sid, from :: Ordered(es) ==> Calm(cfg, es, sid, from)) <==> cfg.cooldown >= cfg.window
  {
    if cfg.cooldown >= cfg.window {
      forall es, sid, from | Ordered(es) ensures Calm(cfg, es, sid, from) {
        StormBound(cfg, es, sid, from);
      }
    } else {
      var es := TooMany(cfg);
      assert Ordered(es) && !Calm(cfg, es, "s", 0);
    }
  }
}
