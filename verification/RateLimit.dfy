/**
 The token buckets of internal/ratelimit/ratelimit.go, with real-valued tokens and times in seconds.

 A limiter is the list of its buckets, most recently used first. A full table gives a newcomer the bucket
 at the back: as it is while that bucket is active, as a new one once it has been idle for idleExpiry.
 */
module RateLimit {

  datatype Config = Config(rate: real, burst: real, maxKeys: int, idleExpiry: real)

  datatype Account = Account(key: string, tokens: real, lastRefill: real, lastSeen: real)

  // ---------- one bucket ----------

  /** What a bucket is topped up by in this time. */
  function Gain(cfg: Config, elapsed: real): real { elapsed * cfg.rate }

  function Refill(cfg: Config, tokens: real, elapsed: real): real {
    if elapsed > 0.0 then Capped(cfg.burst, tokens + Gain(cfg, elapsed)) else tokens
  }

  function Capped(burst: real, tokens: real): real { if tokens > burst then burst else tokens }

  /** What the bucket would hold at `now`. */
  function Avail(cfg: Config, b: Account, now: real): real { Refill(cfg, b.tokens, now - b.lastRefill) }

  /** The tail of AllowN: refill, then take n tokens if they are there. */
  function Spend(cfg: Config, b: Account, n: real, now: real): (Account, bool) {
    var t := Avail(cfg, b, now);
    var b' := b.(lastSeen := now, tokens := t, lastRefill := if now - b.lastRefill > 0.0 then now else b.lastRefill);
    if t < n then (b', false) else (b'.(tokens := t - n), true)
  }

  lemma GainIs(cfg: Config, elapsed: real)
    ensures Gain(cfg, elapsed) == cfg.rate * elapsed
  {
  }

  function Least(x: real, y: real): real { if x < y then x else y }

  /** The bucket is large enough, and what it held and has been topped up by since is. */
  predicate Enough(cfg: Config, b: Account, n: real, now: real) {
    n <= cfg.burst && n <= b.tokens + Earned(cfg, b, now)
  }

  /** `rate` tokens for every second since the last refill. */
  function Earned(cfg: Config, b: Account, now: real): real { cfg.rate * (now - b.lastRefill) }

  lemma EarnedIs(cfg: Config, b: Account, now: real)
    ensures Earned(cfg, b, now) == Gain(cfg, now - b.lastRefill)
    ensures now - b.lastRefill == 0.0 ==> Earned(cfg, b, now) == 0.0
  {
    GainIs(cfg, now - b.lastRefill);
    ZeroTimes(cfg.rate, now - b.lastRefill);
  }

  /** A call is granted exactly when the bucket is large enough and what it held, together with `rate` for every second
      since, is; either way it now holds that, up to burst, less what was granted. */
  lemma SpendMeans(cfg: Config, b: Account, n: real, now: real)
    requires now >= b.lastRefill && b.tokens <= cfg.burst
    ensures var (b', ok) := Spend(cfg, b, n, now);
            && (ok <==> Enough(cfg, b, n, now))
            && b'.tokens == Least(cfg.burst, b.tokens + Earned(cfg, b, now)) - (if ok then n else 0.0)
            && b'.lastRefill == b'.lastSeen == now && b'.key == b.key
  {
    EarnedIs(cfg, b, now);
    SpendWith(cfg, b, n, now, Earned(cfg, b, now));
  }

  lemma ZeroTimes(r: real, x: real)
    ensures x == 0.0 ==> r * x == 0.0
  {
  }

  /** The same, with what was gained under a name. */
  lemma SpendWith(cfg: Config, b: Account, n: real, now: real, g: real)
    requires now >= b.lastRefill && b.tokens <= cfg.burst
    requires g == Gain(cfg, now - b.lastRefill) && (now - b.lastRefill == 0.0 ==> g == 0.0)
    ensures var (b', ok) := Spend(cfg, b, n, now);
            && (ok <==> n <= cfg.burst && n <= b.tokens + g)
            && b'.tokens == Least(cfg.burst, b.tokens + g) - (if ok then n else 0.0)
            && b'.lastRefill == b'.lastSeen == now && b'.key == b.key
  {
  }

  /** With time passed, a bucket that is not over its capacity keeps its tokens if and only if the rate is not negative,
      and is left exactly as it was if and only if the rate is zero or it was full. */
  lemma DrainsIff(cfg: Config, b: Account, now: real)
    requires now > b.lastRefill && b.tokens <= cfg.burst
    ensures Avail(cfg, b, now) >= b.tokens <==> cfg.rate >= 0.0
    ensures Avail(cfg, b, now) == b.tokens <==> cfg.rate == 0.0 || (cfg.rate > 0.0 && b.tokens == cfg.burst)
  {
    GainSign(cfg, now - b.lastRefill);
  }

  lemma GainSign(cfg: Config, elapsed: real)
    requires elapsed > 0.0
    ensures (Gain(cfg, elapsed) >= 0.0 <==> cfg.rate >= 0.0) && (Gain(cfg, elapsed) == 0.0 <==> cfg.rate == 0.0)
  {
    ProductSign(elapsed, cfg.rate);
  }

  lemma ProductSign(x: real, r: real)
    requires x > 0.0
    ensures (x * r >= 0.0 <==> r >= 0.0) && (x * r == 0.0 <==> r == 0.0)
  {
  }

  /** A full bucket of one token that drains by one a second refuses it a second later. */
  lemma NegativeRateRefuses()
    ensures var cfg := Config(-1.0, 1.0, 1, 0.0);
            !Spend(cfg, Account("", 1.0, 0.0, 0.0), 1.0, 1.0).1 && Spend(cfg, Account("", 1.0, 0.0, 0.0), 1.0, 0.0).1
  {
  }

  // ---------- the table ----------

  /** Position of the bucket of this key, or the length. */
  function IndexOf(lru: seq<Account>, key: string): (i: nat)
    ensures i <= |lru|
    ensures i < |lru| ==> lru[i].key == key
  {
    if lru == [] then 0 else if lru[0].key == key then 0 else 1 + IndexOf(lru[1..], key)
  }

  datatype Choice = Refused | Chosen(b: Account, rest: seq<Account>)

  /** The bucket that serves this key, and the others in their order. */
  function Choose(cfg: Config, lru: seq<Account>, key: string, now: real): Choice {
    var i := IndexOf(lru, key);
    if i < |lru| then Chosen(lru[i], lru[..i] + lru[i + 1..])
    else if |lru| < cfg.maxKeys then Chosen(Account(key, cfg.burst, now, now), lru)
    else if lru == [] then Refused
    else
      var back := lru[|lru| - 1];
      Chosen(if now - back.lastSeen < cfg.idleExpiry then back.(key := key) else Account(key, cfg.burst, now, now),
             lru[..|lru| - 1])
  }

  function AllowN(cfg: Config, lru: seq<Account>, key: string, n: real, now: real): (seq<Account>, bool) {
    match Choose(cfg, lru, key, now)
    case Refused => (lru, false)
    case Chosen(b, rest) => var (b', ok) := Spend(cfg, b, n, now); ([b'] + rest, ok)
  }

  /** A call that finds a bucket spends from it, once it stands in front. */
  lemma AllowFrom(cfg: Config, lru: seq<Account>, key: string, n: real, now: real, front: seq<Account>)
    requires var c := Choose(cfg, lru, key, now); c.Chosen? && front == [c.b] + c.rest
    ensures AllowN(cfg, lru, key, n, now)
            == ([Spend(cfg, front[0], n, now).0] + front[1..], Spend(cfg, front[0], n, now).1)
  {
    var c := Choose(cfg, lru, key, now);
    assert front[1..] == c.rest;
  }

  /** What each key gets: a known key draws on its own bucket; a newcomer on a full one while there is room or the
      bucket at the back is idle, and otherwise on what is left in that one. */
  lemma AllowMeans(cfg: Config, lru: seq<Account>, key: string, n: real, now: real)
    requires forall i :: 0 <= i < |lru| ==> lru[i].tokens <= cfg.burst && lru[i].lastRefill <= now
    ensures var ok := AllowN(cfg, lru, key, n, now).1;
            var i, k := IndexOf(lru, key), |lru| - 1;
            if i < |lru| then ok <==> Enough(cfg, lru[i], n, now)
            else if |lru| < cfg.maxKeys then ok <==> n <= cfg.burst
            else if lru == [] then !ok
            else if now - lru[k].lastSeen >= cfg.idleExpiry then ok <==> n <= cfg.burst
            else ok <==> Enough(cfg, lru[k], n, now)
  {
    var c := Choose(cfg, lru, key, now);
    NewHolds(cfg, key, n, now);
    if c.Chosen? {
      Grants(cfg, c.b, n, now);
      if lru != [] { Renamed(cfg, lru[|lru| - 1], key, n, now); }
    }
  }

  lemma Grants(cfg: Config, b: Account, n: real, now: real)
    requires now >= b.lastRefill && b.tokens <= cfg.burst
    ensures Spend(cfg, b, n, now).1 <==> Enough(cfg, b, n, now)
  {
    SpendMeans(cfg, b, n, now);
  }

  lemma NewHolds(cfg: Config, key: string, n: real, now: real)
    ensures Enough(cfg, Account(key, cfg.burst, now, now), n, now) <==> n <= cfg.burst
  {
    EarnedIs(cfg, Account(key, cfg.burst, now, now), now);
  }

  lemma Renamed(cfg: Config, b: Account, key: string, n: real, now: real)
    ensures Enough(cfg, b.(key := key), n, now) <==> Enough(cfg, b, n, now)
  {
  }

  // ---------- what every call keeps ----------

  /** Tokens stay within [0, burst] and a bucket is refilled whenever it is seen. */
  predicate AccountOk(cfg: Config, b: Account, now: real) {
    0.0 <= b.tokens <= cfg.burst && b.lastRefill == b.lastSeen <= now
  }

  predicate TableOk(cfg: Config, lru: seq<Account>, now: real) {
    && |lru| <= (if cfg.maxKeys < 0 then 0 else cfg.maxKeys)
    && (forall i :: 0 <= i < |lru| ==> AccountOk(cfg, lru[i], now))
    && (forall i, j :: 0 <= i < j < |lru| ==> lru[i].key != lru[j].key)
    && (forall i, j :: 0 <= i < j < |lru| ==> lru[i].lastSeen >= lru[j].lastSeen)
  }

  lemma {:induction false} IndexOfMeans(lru: seq<Account>, key: string)
    ensures forall j :: 0 <= j < |lru| && j < IndexOf(lru, key) ==> lru[j].key != key
    decreases |lru|
  {
    if lru != [] && lru[0].key != key {
      IndexOfMeans(lru[1..], key);
      assert forall j :: 1 <= j < |lru| ==> lru[j] == lru[1..][j - 1];
    }
  }

  lemma ScaleUp(x: real, r: real)
    requires x >= 0.0 && r >= 0.0
    ensures x * r >= 0.0
  {
  }

  lemma Distributes(x: real, y: real, z: real, r: real)
    requires z == x + y
    ensures z * r == x * r + y * r
  {
  }

  lemma GainPositive(cfg: Config, elapsed: real)
    requires cfg.rate >= 0.0 && elapsed >= 0.0
    ensures Gain(cfg, elapsed) >= 0.0
  {
    ScaleUp(elapsed, cfg.rate);
  }

  lemma GainAdds(cfg: Config, a: real, b: real, c: real)
    requires c == a + b
    ensures Gain(cfg, c) == Gain(cfg, a) + Gain(cfg, b)
  {
    Distributes(a, b, c, cfg.rate);
  }

  lemma AvailRange(cfg: Config, b: Account, now: real)
    requires cfg.rate >= 0.0 && AccountOk(cfg, b, now)
    ensures b.tokens <= Avail(cfg, b, now) <= cfg.burst
  {
    GainPositive(cfg, now - b.lastRefill);
  }

  lemma SpendKeeps(cfg: Config, b: Account, n: real, now: real)
    requires cfg.rate >= 0.0 && AccountOk(cfg, b, now) && n >= 0.0
    ensures var (b', ok) := Spend(cfg, b, n, now);
            && AccountOk(cfg, b', now) && b'.lastSeen == now && b'.key == b.key
            && Avail(cfg, b', now) == Avail(cfg, b, now) - (if ok then n else 0.0)
            && (ok <==> Avail(cfg, b, now) >= n)
  {
    AvailRange(cfg, b, now);
  }

  lemma HitKeeps(cfg: Config, lru: seq<Account>, i: nat, now: real)
    requires TableOk(cfg, lru, now) && i < |lru|
    ensures var rest := lru[..i] + lru[i + 1..];
            TableOk(cfg, rest, now) && forall j :: 0 <= j < |rest| ==> rest[j].key != lru[i].key
  {
    var rest := lru[..i] + lru[i + 1..];
    assert forall j :: 0 <= j < |rest| ==> rest[j] == lru[if j < i then j else j + 1];
  }

  lemma BackKeeps(cfg: Config, lru: seq<Account>, key: string, now: real)
    requires TableOk(cfg, lru, now) && lru != [] && forall j :: 0 <= j < |lru| ==> lru[j].key != key
    ensures var rest := lru[..|lru| - 1]; TableOk(cfg, rest, now) && forall j :: 0 <= j < |rest| ==> rest[j].key != key
  {
    var rest := lru[..|lru| - 1];
    assert forall j :: 0 <= j < |rest| ==> rest[j] == lru[j];
  }

  lemma ChooseKeeps(cfg: Config, lru: seq<Account>, key: string, now: real)
    requires TableOk(cfg, lru, now) && cfg.burst >= 0.0
    ensures var c := Choose(cfg, lru, key, now);
            c.Chosen? ==>
              && AccountOk(cfg, c.b, now) && c.b.key == key && TableOk(cfg, c.rest, now) && |c.rest| < cfg.maxKeys
              && (forall i :: 0 <= i < |c.rest| ==> c.rest[i].key != key)
  {
    IndexOfMeans(lru, key);
    var i := IndexOf(lru, key);
    if i < |lru| {
      HitKeeps(cfg, lru, i, now);
    } else if |lru| >= cfg.maxKeys && lru != [] {
      BackKeeps(cfg, lru, key, now);
    }
  }

  /** The map and the LRU list never exceed maxKeys buckets, one per key, ordered by last use, with tokens between
      zero and burst. */
  lemma AllowKeeps(cfg: Config, lru: seq<Account>, key: string, n: real, now: real)
    requires TableOk(cfg, lru, now) && cfg.burst >= 0.0 && cfg.rate >= 0.0 && n >= 0.0
    ensures TableOk(cfg, AllowN(cfg, lru, key, n, now).0, now)
  {
    ChooseKeeps(cfg, lru, key, now);
    var c := Choose(cfg, lru, key, now);
    if c.Chosen? {
      SpendKeeps(cfg, c.b, n, now);
    }
  }

  /** An active bucket is taken over only when no bucket is idle. */
  lemma IdleGoFirst(cfg: Config, lru: seq<Account>, key: string, now: real)
    requires TableOk(cfg, lru, now) && lru != [] && now - lru[|lru| - 1].lastSeen < cfg.idleExpiry
    ensures forall i :: 0 <= i < |lru| ==> now - lru[i].lastSeen < cfg.idleExpiry
  {
    assert forall i :: 0 <= i < |lru| - 1 ==> lru[i].lastSeen >= lru[|lru| - 1].lastSeen;
  }

  // ---------- the potential: what could still be granted at once ----------

  /** k * g by repeated addition. */
  function Times(k: nat, g: real): real { if k == 0 then 0.0 else g + Times(k - 1, g) }

  lemma {:induction false} TimesMeans(k: nat, g: real)
    ensures Times(k, g) == k as real * g
  {
    if k > 0 {
      TimesMeans(k - 1, g);
      assert k as real * g == g + (k - 1) as real * g;
    }
  }

  lemma {:induction false} TimesAdd(k: nat, g: real, h: real)
    ensures Times(k, g + h) == Times(k, g) + Times(k, h)
  {
    if k > 0 { TimesAdd(k - 1, g, h); }
  }

  lemma {:induction false} TimesGrows(j: nat, k: nat, g: real)
    requires j <= k && g >= 0.0
    ensures 0.0 <= Times(j, g) <= Times(k, g)
    decreases k
  {
    if j < k {
      TimesGrows(j, k - 1, g);
    } else if j > 0 {
      TimesGrows(j - 1, k - 1, g);
    }
  }

  function Sum(xs: seq<real>): real { if xs == [] then 0.0 else xs[0] + Sum(xs[1..]) }

  /** What each bucket would hold at `now`. */
  function Avails(cfg: Config, lru: seq<Account>, now: real): (xs: seq<real>)
    ensures |xs| == |lru|
  {
    seq(|lru|, i requires 0 <= i < |lru| => Avail(cfg, lru[i], now))
  }

  function Spare(cfg: Config, n: nat): real { if n < cfg.maxKeys then Times(cfg.maxKeys - n, cfg.burst) else 0.0 }

  function Potential(cfg: Config, lru: seq<Account>, now: real): real { Sum(Avails(cfg, lru, now)) + Spare(cfg, |lru|) }

  lemma {:induction false} SumSplit(a: seq<real>, b: seq<real>)
    ensures Sum(a + b) == Sum(a) + Sum(b)
    decreases |a|
  {
    if a == [] {
      assert a + b == b;
    } else {
      SumSplit(a[1..], b);
      assert (a + b)[1..] == a[1..] + b;
    }
  }

  lemma SumOne(x: real, rest: seq<real>)
    ensures Sum([x] + rest) == x + Sum(rest)
  {
    assert ([x] + rest)[1..] == rest;
  }

  lemma {:induction false} SumGrows(xs: seq<real>, ys: seq<real>, gain: real)
    requires |xs| == |ys| && forall i :: 0 <= i < |xs| ==> ys[i] <= xs[i] + gain
    ensures Sum(ys) <= Sum(xs) + Times(|xs|, gain)
    decreases |xs|
  {
    if xs != [] { SumGrows(xs[1..], ys[1..], gain); }
  }

  lemma {:induction false} SumPositive(xs: seq<real>)
    requires forall i :: 0 <= i < |xs| ==> xs[i] >= 0.0
    ensures Sum(xs) >= 0.0
    decreases |xs|
  {
    if xs != [] { SumPositive(xs[1..]); }
  }

  lemma AvailGrows(cfg: Config, b: Account, last: real, now: real)
    requires AccountOk(cfg, b, last) && last <= now && cfg.rate >= 0.0
    ensures Avail(cfg, b, now) <= Avail(cfg, b, last) + Gain(cfg, now - last)
  {
    GainPositive(cfg, now - last);
    GainPositive(cfg, last - b.lastRefill);
    GainAdds(cfg, last - b.lastRefill, now - last, now - b.lastRefill);
    CapGrows(cfg.burst, b.tokens, Gain(cfg, last - b.lastRefill), Gain(cfg, now - last));
  }

  lemma CapGrows(burst: real, tokens: real, g: real, h: real)
    requires g >= 0.0 && h >= 0.0 && tokens <= burst
    ensures tokens <= Capped(burst, tokens + g)
    ensures Capped(burst, tokens + (g + h)) <= Capped(burst, tokens + g) + h
    ensures Capped(burst, tokens + h) <= tokens + h
  {
  }

  lemma PotentialGrows(cfg: Config, lru: seq<Account>, last: real, now: real)
    requires TableOk(cfg, lru, last) && last <= now && cfg.rate >= 0.0 && cfg.maxKeys >= 0
    ensures Potential(cfg, lru, now) <= Potential(cfg, lru, last) + Times(cfg.maxKeys, Gain(cfg, now - last))
  {
    var gain := Gain(cfg, now - last);
    var xs, ys := Avails(cfg, lru, last), Avails(cfg, lru, now);
    forall i | 0 <= i < |xs| ensures ys[i] <= xs[i] + gain {
      AvailGrows(cfg, lru[i], last, now);
    }
    SumGrows(xs, ys, gain);
    GainPositive(cfg, now - last);
    TimesGrows(|lru|, cfg.maxKeys, gain);
  }

  /** A bucket would be full again by the time it may be thrown away. */
  predicate RefillsInTime(cfg: Config) { cfg.rate * cfg.idleExpiry >= cfg.burst }

  /** A bucket that has been idle long enough would be full again anyway. */
  lemma IdleIsFull(cfg: Config, b: Account, now: real)
    requires AccountOk(cfg, b, now) && now - b.lastSeen >= cfg.idleExpiry >= 0.0
    requires cfg.rate >= 0.0 && RefillsInTime(cfg)
    ensures Avail(cfg, b, now) == cfg.burst
  {
    var d := now - b.lastRefill;
    GainIs(cfg, cfg.idleExpiry);
    GainPositive(cfg, d - cfg.idleExpiry);
    GainAdds(cfg, d - cfg.idleExpiry, cfg.idleExpiry, d);
  }

  lemma HitConserves(cfg: Config, lru: seq<Account>, i: nat, now: real)
    requires i < |lru|
    ensures Potential(cfg, [lru[i]] + (lru[..i] + lru[i + 1..]), now) == Potential(cfg, lru, now)
  {
    var xs := Avails(cfg, lru, now);
    assert Avails(cfg, [lru[i]] + (lru[..i] + lru[i + 1..]), now) == [xs[i]] + (xs[..i] + xs[i + 1..]);
    SumMoves(xs, i);
  }

  lemma SumMoves(xs: seq<real>, i: nat)
    requires i < |xs|
    ensures Sum([xs[i]] + (xs[..i] + xs[i + 1..])) == Sum(xs)
  {
    SumAround(xs[..i], xs[i], xs[i + 1..]);
    Rejoin(xs, i);
  }

  lemma Rejoin<T>(xs: seq<T>, i: nat)
    requires i < |xs|
    ensures xs[..i] + ([xs[i]] + xs[i + 1..]) == xs
  {
  }

  lemma SumAround(a: seq<real>, x: real, b: seq<real>)
    ensures Sum([x] + (a + b)) == Sum(a + ([x] + b))
  {
    SumOne(x, a + b);
    SumOne(x, b);
    SumSplit(a, b);
    SumSplit(a, [x] + b);
  }

  lemma TakeoverConserves(cfg: Config, lru: seq<Account>, b: Account, now: real)
    requires lru != [] && Avail(cfg, b, now) == Avail(cfg, lru[|lru| - 1], now)
    ensures Potential(cfg, [b] + lru[..|lru| - 1], now) == Potential(cfg, lru, now)
  {
    var xs, k := Avails(cfg, lru, now), |lru| - 1;
    assert Avails(cfg, [b] + lru[..k], now) == [xs[k]] + (xs[..k] + xs[k + 1..]);
    SumMoves(xs, k);
  }

  lemma NewcomerConserves(cfg: Config, lru: seq<Account>, b: Account, now: real)
    requires |lru| < cfg.maxKeys && Avail(cfg, b, now) == cfg.burst
    ensures Potential(cfg, [b] + lru, now) == Potential(cfg, lru, now)
  {
    var xs := Avails(cfg, lru, now);
    assert Avails(cfg, [b] + lru, now) == [cfg.burst] + xs;
    SumOne(cfg.burst, xs);
    assert Times(cfg.maxKeys - |lru|, cfg.burst) == cfg.burst + Times(cfg.maxKeys - (1 + |lru|), cfg.burst);
  }

  lemma NewIsFull(cfg: Config, key: string, now: real)
    ensures Avail(cfg, Account(key, cfg.burst, now, now), now) == cfg.burst
  {
  }

  /** Choosing a bucket, by hit, creation or takeover, neither makes nor loses tokens. */
  lemma ChooseConserves(cfg: Config, lru: seq<Account>, key: string, now: real)
    requires TableOk(cfg, lru, now) && cfg.rate >= 0.0 && cfg.idleExpiry >= 0.0 && RefillsInTime(cfg)
    ensures var c := Choose(cfg, lru, key, now);
            c.Chosen? ==> Potential(cfg, [c.b] + c.rest, now) == Potential(cfg, lru, now)
  {
    var c := Choose(cfg, lru, key, now);
    var i := IndexOf(lru, key);
    NewIsFull(cfg, key, now);
    if i < |lru| {
      HitConserves(cfg, lru, i, now);
    } else if |lru| < cfg.maxKeys {
      NewcomerConserves(cfg, lru, c.b, now);
    } else if lru != [] {
      var back := lru[|lru| - 1];
      if now - back.lastSeen >= cfg.idleExpiry {
        IdleIsFull(cfg, back, now);
      }
      TakeoverConserves(cfg, lru, c.b, now);
    }
  }

  lemma SpendDraws(cfg: Config, b: Account, rest: seq<Account>, n: real, now: real)
    requires cfg.rate >= 0.0 && AccountOk(cfg, b, now) && n >= 0.0
    ensures var (b', ok) := Spend(cfg, b, n, now);
            Potential(cfg, [b'] + rest, now) == Potential(cfg, [b] + rest, now) - (if ok then n else 0.0)
  {
    var (b', ok) := Spend(cfg, b, n, now);
    SpendKeeps(cfg, b, n, now);
    FrontCounts(cfg, b, rest, now);
    FrontCounts(cfg, b', rest, now);
  }

  lemma FrontCounts(cfg: Config, b: Account, rest: seq<Account>, now: real)
    ensures Potential(cfg, [b] + rest, now) == Avail(cfg, b, now) + Sum(Avails(cfg, rest, now)) + Spare(cfg, 1 + |rest|)
  {
    var xs := Avails(cfg, rest, now);
    assert Avails(cfg, [b] + rest, now) == [Avail(cfg, b, now)] + xs;
    SumOne(Avail(cfg, b, now), xs);
  }

  predicate Sound(cfg: Config) {
    cfg.rate >= 0.0 && cfg.burst >= 0.0 && cfg.maxKeys >= 0 && cfg.idleExpiry >= 0.0
  }

  /** A call draws exactly what it grants. */
  lemma AllowDraws(cfg: Config, lru: seq<Account>, key: string, n: real, now: real)
    requires Sound(cfg) && RefillsInTime(cfg) && TableOk(cfg, lru, now) && n >= 0.0
    ensures var (lru', ok) := AllowN(cfg, lru, key, n, now);
            Potential(cfg, lru', now) == Potential(cfg, lru, now) - (if ok then n else 0.0)
  {
    ChooseKeeps(cfg, lru, key, now);
    ChooseConserves(cfg, lru, key, now);
    var c := Choose(cfg, lru, key, now);
    if c.Chosen? {
      SpendDraws(cfg, c.b, c.rest, n, now);
    }
  }

  // ---------- runs ----------

  datatype Call = Call(key: string, n: real, now: real)

  predicate Ordered(cs: seq<Call>) {
    && (forall i :: 0 <= i < |cs| ==> cs[i].n >= 0.0)
    && (forall i, j :: 0 <= i < j < |cs| ==> cs[i].now <= cs[j].now)
  }

  function Table(cfg: Config, cs: seq<Call>): seq<Account>
    decreases |cs|
  {
    if cs == [] then [] else var c := cs[|cs| - 1]; AllowN(cfg, Table(cfg, cs[..|cs| - 1]), c.key, c.n, c.now).0
  }

  /** All tokens granted, to whichever keys. */
  function Granted(cfg: Config, cs: seq<Call>): real
    decreases |cs|
  {
    if cs == [] then 0.0
    else
      var init, c := cs[..|cs| - 1], cs[|cs| - 1];
      Granted(cfg, init) + if AllowN(cfg, Table(cfg, init), c.key, c.n, c.now).1 then c.n else 0.0
  }

  function Elapsed(cs: seq<Call>): real { if cs == [] then 0.0 else cs[|cs| - 1].now - cs[0].now }

  /** The most one bucket may grant in this time. */
  function Quota(cfg: Config, elapsed: real): real { cfg.burst + Gain(cfg, elapsed) }

  predicate Within(cfg: Config, cs: seq<Call>)
    requires cfg.maxKeys >= 0
  {
    Granted(cfg, cs) <= Limit(cfg, Elapsed(cs))
  }

  /** What maxKeys independent buckets may grant in this time. */
  function Limit(cfg: Config, elapsed: real): real { cfg.maxKeys as real * (cfg.burst + cfg.rate * elapsed) }

  lemma WithinMeans(cfg: Config, cs: seq<Call>)
    requires cfg.maxKeys >= 0
    ensures Within(cfg, cs) <==> Granted(cfg, cs) <= Times(cfg.maxKeys, Quota(cfg, Elapsed(cs)))
  {
    QuotaMeans(cfg, Elapsed(cs));
  }

  lemma QuotaMeans(cfg: Config, elapsed: real)
    requires cfg.maxKeys >= 0
    ensures Times(cfg.maxKeys, Quota(cfg, elapsed)) == Limit(cfg, elapsed)
  {
    SameQuota(cfg, elapsed);
    TimesMeans(cfg.maxKeys, cfg.burst + cfg.rate * elapsed);
  }

  lemma SameQuota(cfg: Config, elapsed: real)
    ensures Quota(cfg, elapsed) == cfg.burst + cfg.rate * elapsed
  {
    GainIs(cfg, elapsed);
  }

  /** Grants so far and what is left, against what maxKeys buckets may hand out from `start` to `now`. */
  predicate Balanced(cfg: Config, granted: real, lru: seq<Account>, start: real, now: real)
    requires cfg.maxKeys >= 0
  {
    granted + Potential(cfg, lru, now) <= Times(cfg.maxKeys, cfg.burst) + Times(cfg.maxKeys, Gain(cfg, now - start))
  }

  lemma StartsBalanced(cfg: Config, now: real)
    requires Sound(cfg)
    ensures Balanced(cfg, 0.0, [], now, now) && TableOk(cfg, [], now)
  {
    TimesGrows(cfg.maxKeys, cfg.maxKeys, 0.0);
    assert Gain(cfg, now - now) == 0.0;
    assert Potential(cfg, [], now) == Times(cfg.maxKeys, cfg.burst);
  }

  lemma TimePasses(cfg: Config, granted: real, lru: seq<Account>, start: real, last: real, now: real)
    requires Sound(cfg) && last <= now && TableOk(cfg, lru, last) && Balanced(cfg, granted, lru, start, last)
    ensures Balanced(cfg, granted, lru, start, now) && TableOk(cfg, lru, now)
  {
    PotentialGrows(cfg, lru, last, now);
    TimesAdd(cfg.maxKeys, Gain(cfg, last - start), Gain(cfg, now - last));
    GainAdds(cfg, last - start, now - last, now - start);
  }

  lemma {:induction false} Conserved(cfg: Config, cs: seq<Call>)
    requires Sound(cfg) && RefillsInTime(cfg) && Ordered(cs) && cs != []
    ensures TableOk(cfg, Table(cfg, cs), cs[|cs| - 1].now)
    ensures Balanced(cfg, Granted(cfg, cs), Table(cfg, cs), cs[0].now, cs[|cs| - 1].now)
    decreases |cs|
  {
    var init, c := cs[..|cs| - 1], cs[|cs| - 1];
    if init == [] {
      StartsBalanced(cfg, c.now);
    } else {
      Conserved(cfg, init);
      TimePasses(cfg, Granted(cfg, init), Table(cfg, init), cs[0].now, init[|init| - 1].now, c.now);
    }
    CallAdds(cfg, init, c, cs);
  }

  lemma CallAdds(cfg: Config, init: seq<Call>, c: Call, cs: seq<Call>)
    requires cs == init + [c] && Sound(cfg) && RefillsInTime(cfg) && c.n >= 0.0
    requires TableOk(cfg, Table(cfg, init), c.now)
    ensures TableOk(cfg, Table(cfg, cs), c.now)
    ensures Granted(cfg, cs) + Potential(cfg, Table(cfg, cs), c.now)
            == Granted(cfg, init) + Potential(cfg, Table(cfg, init), c.now)
  {
    assert cs[..|cs| - 1] == init;
    AllowDraws(cfg, Table(cfg, init), c.key, c.n, c.now);
    AllowKeeps(cfg, Table(cfg, init), c.key, c.n, c.now);
  }

  lemma PotentialNotNegative(cfg: Config, lru: seq<Account>, now: real)
    requires Sound(cfg) && TableOk(cfg, lru, now)
    ensures Potential(cfg, lru, now) >= 0.0
  {
    var xs := Avails(cfg, lru, now);
    forall i | 0 <= i < |xs| ensures xs[i] >= 0.0 {
      AvailRange(cfg, lru[i], now);
    }
    SumPositive(xs);
    TimesGrows(0, cfg.maxKeys - |lru|, cfg.burst);
  }

  /** Key churn buys nothing: however many keys the calls use, everything granted together stays within what maxKeys
      independent buckets would grant in the same time. */
  lemma GrantBound(cfg: Config, cs: seq<Call>)
    requires Sound(cfg) && cfg.rate * cfg.idleExpiry >= cfg.burst && Ordered(cs)
    ensures Granted(cfg, cs) <= Limit(cfg, Elapsed(cs))
  {
    WithinMeans(cfg, cs);
    if cs == [] {
      TimesGrows(0, cfg.maxKeys, Quota(cfg, Elapsed(cs)));
    } else {
      Conserved(cfg, cs);
      Settles(cfg, cs, cs[0].now, cs[|cs| - 1].now, Elapsed(cs));
    }
  }

  lemma Settles(cfg: Config, cs: seq<Call>, start: real, now: real, elapsed: real)
    requires Sound(cfg) && TableOk(cfg, Table(cfg, cs), now) && elapsed == now - start
    requires Balanced(cfg, Granted(cfg, cs), Table(cfg, cs), start, now)
    ensures Granted(cfg, cs) <= Times(cfg.maxKeys, Quota(cfg, elapsed))
  {
    Settle(cfg, Granted(cfg, cs), Table(cfg, cs), start, now, elapsed);
  }

  lemma Settle(cfg: Config, granted: real, lru: seq<Account>, start: real, now: real, elapsed: real)
    requires Sound(cfg) && TableOk(cfg, lru, now) && elapsed == now - start && Balanced(cfg, granted, lru, start, now)
    ensures granted <= Times(cfg.maxKeys, Quota(cfg, elapsed))
  {
    PotentialNotNegative(cfg, lru, now);
    TimesAdd(cfg.maxKeys, cfg.burst, Gain(cfg, elapsed));
  }

  lemma GrantWithin(cfg: Config, cs: seq<Call>)
    requires Sound(cfg) && RefillsInTime(cfg) && Ordered(cs)
    ensures Within(cfg, cs)
  {
    GrantBound(cfg, cs);
  }

  // ---------- the condition is exact ----------

  function Key(i: nat): string { seq(i, _ => 'k') }

  /** maxKeys newcomers at time 0, then as many again at idleExpiry, each asking for a whole burst. */
  function ChurnCall(cfg: Config, i: nat): Call {
    Call(Key(i), cfg.burst, if i < cfg.maxKeys then 0.0 else cfg.idleExpiry)
  }

  predicate IsChurn(cfg: Config, cs: seq<Call>) { forall i :: 0 <= i < |cs| ==> cs[i] == ChurnCall(cfg, i) }

  /** The first m calls of the churn lead to this table and grant this much. */
  ghost predicate Churned(cfg: Config, m: nat, lru: seq<Account>, granted: real) {
    exists cs :: ChurnedBy(cfg, cs, m, lru, granted)
  }

  ghost predicate ChurnedBy(cfg: Config, cs: seq<Call>, m: nat, lru: seq<Account>, granted: real) {
    |cs| == m && IsChurn(cfg, cs) && Table(cfg, cs) == lru && Granted(cfg, cs) == granted
  }

  predicate ChurnTable(cfg: Config, m: nat, lru: seq<Account>) {
    && |lru| == (if m < cfg.maxKeys then m else cfg.maxKeys)
    && (forall i :: 0 <= i < |lru| ==> |lru[i].key| < m)
    && (forall i :: 0 <= i < |lru| && i >= m - cfg.maxKeys ==> lru[i].lastSeen == 0.0)
  }

  lemma ChurnStep(cfg: Config, m: nat, lru: seq<Account>, c: Call)
    requires Sound(cfg) && m < 2 * cfg.maxKeys && ChurnTable(cfg, m, lru) && c == ChurnCall(cfg, m)
    ensures var r := AllowN(cfg, lru, c.key, c.n, c.now); ChurnTable(cfg, m + 1, r.0) && r.1
  {
    assert IndexOf(lru, Key(m)) == |lru|;
  }

  lemma ChurnGoes(cfg: Config, m: nat, lru: seq<Account>, before: real, granted: real) returns (lru': seq<Account>)
    requires Sound(cfg) && 0 < m <= 2 * cfg.maxKeys && granted == before + cfg.burst
    requires ChurnTable(cfg, m - 1, lru) && Churned(cfg, m - 1, lru, before)
    ensures ChurnTable(cfg, m, lru') && Churned(cfg, m, lru', granted)
  {
    var c := ChurnCall(cfg, m - 1);
    var cs :| ChurnedBy(cfg, cs, m - 1, lru, before);
    ChurnStep(cfg, m - 1, lru, c);
    lru' := AllowN(cfg, lru, c.key, c.n, c.now).0;
    ChurnMore(cfg, cs, m, lru, before, lru', granted);
  }

  lemma ChurnMore(cfg: Config, cs: seq<Call>, m: nat, lru: seq<Account>, before: real, lru': seq<Account>,
                  granted: real)
    requires m > 0 && ChurnedBy(cfg, cs, m - 1, lru, before) && granted == before + cfg.burst
    requires var c := ChurnCall(cfg, m - 1); AllowN(cfg, lru, c.key, c.n, c.now) == (lru', true)
    ensures ChurnedBy(cfg, cs + [ChurnCall(cfg, m - 1)], m, lru', granted)
  {
    OneMore(cfg, cs, ChurnCall(cfg, m - 1));
  }

  /** Every call of the churn is granted in full. */
  lemma {:induction false} ChurnRun(cfg: Config, m: nat) returns (lru: seq<Account>)
    requires Sound(cfg) && m <= 2 * cfg.maxKeys
    ensures ChurnTable(cfg, m, lru) && Churned(cfg, m, lru, Times(m, cfg.burst))
  {
    if m == 0 {
      lru := [];
      assert ChurnedBy(cfg, [], m, [], Times(m, cfg.burst));
    } else {
      lru := ChurnRun(cfg, m - 1);
      lru := ChurnGoes(cfg, m, lru, Times(m - 1, cfg.burst), Times(m, cfg.burst));
    }
  }

  lemma OneMore(cfg: Config, cs: seq<Call>, c: Call)
    ensures Table(cfg, cs + [c]) == AllowN(cfg, Table(cfg, cs), c.key, c.n, c.now).0
    ensures Granted(cfg, cs + [c])
            == Granted(cfg, cs) + if AllowN(cfg, Table(cfg, cs), c.key, c.n, c.now).1 then c.n else 0.0
  {
    assert (cs + [c])[..|cs + [c]| - 1] == cs;
  }

  lemma {:induction false} TimesLess(k: nat, g: real, h: real)
    requires g < h && k > 0
    ensures Times(k, g) < Times(k, h)
  {
    if k > 1 { TimesLess(k - 1, g, h); }
  }

  lemma {:induction false} TimesTwice(j: nat, k: nat, g: real)
    ensures Times(j + k, g) == Times(j, g) + Times(k, g)
  {
    if j > 0 { TimesTwice(j - 1, k, g); }
  }

  lemma ChurnBreaksBound(cfg: Config) returns (cs: seq<Call>)
    requires Sound(cfg) && cfg.maxKeys > 0 && !RefillsInTime(cfg)
    ensures Ordered(cs) && !Within(cfg, cs)
  {
    var k := cfg.maxKeys;
    var lru := ChurnRun(cfg, 2 * k);
    cs :| ChurnedBy(cfg, cs, 2 * k, lru, Times(2 * k, cfg.burst));
    ChurnTimes(cfg, cs);
    TwoBursts(cfg, k);
    WithinMeans(cfg, cs);
  }

  lemma ChurnTimes(cfg: Config, cs: seq<Call>)
    requires Sound(cfg) && cfg.maxKeys > 0 && |cs| == 2 * cfg.maxKeys && IsChurn(cfg, cs)
    ensures Ordered(cs) && Elapsed(cs) == cfg.idleExpiry
  {
    assert cs[0] == ChurnCall(cfg, 0) && cs[|cs| - 1] == ChurnCall(cfg, |cs| - 1);
  }

  lemma TwoBursts(cfg: Config, k: nat)
    requires k > 0 && !RefillsInTime(cfg)
    ensures Times(k, Quota(cfg, cfg.idleExpiry)) < Times(2 * k, cfg.burst)
  {
    GainIs(cfg, cfg.idleExpiry);
    TimesTwice(k, k, cfg.burst);
    TimesAdd(k, cfg.burst, cfg.burst);
    TimesLess(k, Quota(cfg, cfg.idleExpiry), cfg.burst + cfg.burst);
  }

  /** The bound holds over every run. */
  ghost predicate AlwaysWithin(cfg: Config)
    requires cfg.maxKeys >= 0
  {
    forall cs :: Ordered(cs) ==> Within(cfg, cs)
  }

  lemma AllWithin(cfg: Config)
    requires Sound(cfg) && RefillsInTime(cfg)
    ensures AlwaysWithin(cfg)
  {
    forall cs | Ordered(cs) ensures Within(cfg, cs) {
      GrantWithin(cfg, cs);
    }
  }

  lemma SomeBeyond(cfg: Config)
    requires Sound(cfg) && cfg.maxKeys > 0 && !RefillsInTime(cfg)
    ensures !AlwaysWithin(cfg)
  {
    var cs := ChurnBreaksBound(cfg);
    assert Ordered(cs) && !Within(cfg, cs);
  }

  /** The bound holds over every run exactly when a bucket refills completely before it may be thrown away. */
  lemma BoundIffRefillsInTime(cfg: Config)
    requires Sound(cfg) && cfg.maxKeys > 0
    ensures AlwaysWithin(cfg) <==> cfg.rate * cfg.idleExpiry >= cfg.burst
  {
    if RefillsInTime(cfg) {
      AllWithin(cfg);
    } else {
      SomeBeyond(cfg);
    }
  }
}
