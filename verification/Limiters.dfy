/**
 The limiter objects of internal/ratelimit/ratelimit.go, refining the operations on values of module RateLimit.
 */
module Limiters {
  import opened RateLimit

  /** A single bucket with no keys. */
  class Bucket {
    const cfg: Config
    var tokens: real
    var last: real

    function Value(): Account
      reads this
    {
      Account("", tokens, last, last)
    }

    constructor (rate: real, burst: real, now: real)
      ensures Value() == Account("", burst, now, now) && cfg == Config(rate, burst, 1, 0.0)
    {
      cfg := Config(rate, burst, 1, 0.0);
      tokens, last := burst, now;
    }

    method AllowN(n: real, now: real) returns (ok: bool)
      modifies this
      ensures now >= old(last) && old(tokens) <= cfg.burst ==>
                (ok <==> Enough(cfg, old(Value()), n, now))
      ensures ok == RateLimit.Spend(cfg, old(Value()), n, now).1
      ensures tokens == RateLimit.Spend(cfg, old(Value()), n, now).0.tokens
      ensures last == RateLimit.Spend(cfg, old(Value()), n, now).0.lastRefill
    {
      if now >= last && tokens <= cfg.burst {
        SpendMeans(cfg, Value(), n, now);
      }
      var elapsed := now - last;
      if elapsed > 0.0 {
        tokens := tokens + Gain(cfg, elapsed);
        if tokens > cfg.burst {
          tokens := cfg.burst;
        }
        last := now;
      }
      if tokens >= n {
        tokens := tokens - n;
        return true;
      }
      return false;
    }
  }

  class KeyedBucket {
    var key: string
    var tokens: real
    var lastRefill: real
    var lastSeen: real

    function Value(): Account
      reads this
    {
      Account(key, tokens, lastRefill, lastSeen)
    }

    constructor (key: string, tokens: real, now: real)
      ensures Value() == Account(key, tokens, now, now)
    {
      this.key, this.tokens, this.lastRefill, this.lastSeen := key, tokens, now, now;
    }

    method Rename(key: string)
      modifies this
      ensures Value() == old(Value()).(key := key)
    {
      this.key := key;
    }

    method Spend(cfg: Config, n: real, now: real) returns (ok: bool)
      modifies this
      ensures (Value(), ok) == RateLimit.Spend(cfg, old(Value()), n, now)
      ensures now >= old(lastRefill) && old(tokens) <= cfg.burst ==>
                (ok <==> Enough(cfg, old(Value()), n, now))
    {
      if now >= lastRefill && tokens <= cfg.burst {
        SpendMeans(cfg, Value(), n, now);
      }
      lastSeen := now;
      var elapsed := now - lastRefill;
      if elapsed > 0.0 {
        tokens := tokens + Gain(cfg, elapsed);
        if tokens > cfg.burst {
          tokens := cfg.burst;
        }
        lastRefill := now;
      }
      if tokens < n {
        return false;
      }
      tokens := tokens - n;
      return true;
    }
  }

  // ---------- the map and the list ----------

  /** Every listed bucket is in the map under its own key. */
  ghost predicate Mapped(buckets: map<string, KeyedBucket>, lru: seq<KeyedBucket>, view: seq<Account>) {
    && |lru| == |view|
    && forall i :: 0 <= i < |lru| ==> view[i].key in buckets && buckets[view[i].key] == lru[i]
  }

  /** Every bucket of the map is listed. */
  ghost predicate Listed(keys: set<string>, view: seq<Account>) {
    forall k :: k in keys ==> IndexOf(view, k) < |view|
  }

  ghost predicate Distinct<T>(s: seq<T>) { forall i, j :: 0 <= i < j < |s| ==> s[i] != s[j] }

  ghost predicate Indexed(buckets: map<string, KeyedBucket>, lru: seq<KeyedBucket>, view: seq<Account>) {
    Mapped(buckets, lru, view) && Listed(buckets.Keys, view) && Distinct(lru)
  }

  lemma {:induction false} FindsKey(view: seq<Account>, i: nat)
    requires i < |view|
    ensures IndexOf(view, view[i].key) <= i
    decreases |view|
  {
    if i > 0 {
      FindsKey(view[1..], i - 1);
    }
  }

  lemma IndexedFind(buckets: map<string, KeyedBucket>, lru: seq<KeyedBucket>, view: seq<Account>, key: string)
    requires Indexed(buckets, lru, view)
    ensures key in buckets <==> IndexOf(view, key) < |view|
    ensures key in buckets ==> lru[IndexOf(view, key)] == buckets[key]
  {
  }

  lemma {:induction false} IndexedSize(buckets: map<string, KeyedBucket>, lru: seq<KeyedBucket>, view: seq<Account>)
    requires Indexed(buckets, lru, view)
    ensures |buckets| == |lru|
    decreases |lru|
  {
    if lru == [] {
      assert buckets == map[];
    } else {
      IndexedDrop(buckets, lru, view);
      var n := |lru| - 1;
      IndexedSize(buckets - {view[n].key}, lru[..n], view[..n]);
      DropOne(buckets, view[n].key);
    }
  }

  lemma DropOne(buckets: map<string, KeyedBucket>, key: string)
    requires key in buckets
    ensures |buckets| == |buckets - {key}| + 1
  {
    assert buckets.Keys == (buckets - {key}).Keys + {key};
  }

  lemma ListedDrop(keys: set<string>, view: seq<Account>)
    requires Listed(keys, view) && view != []
    ensures Listed(keys - {view[|view| - 1].key}, view[..|view| - 1])
  {
    var n := |view| - 1;
    var rest := keys - {view[n].key};
    forall k | k in rest ensures IndexOf(view[..n], k) < n {
      FindsKey(view[..n], IndexOf(view, k));
    }
  }

  lemma IndexedDrop(buckets: map<string, KeyedBucket>, lru: seq<KeyedBucket>, view: seq<Account>)
    requires Indexed(buckets, lru, view) && lru != []
    ensures Indexed(buckets - {view[|view| - 1].key}, lru[..|lru| - 1], view[..|view| - 1])
    ensures lru[|lru| - 1] !in lru[..|lru| - 1]
  {
    ListedDrop(buckets.Keys, view);
    assert (buckets - {view[|view| - 1].key}).Keys == buckets.Keys - {view[|view| - 1].key};
  }

  lemma ListedAdd(keys: set<string>, view: seq<Account>, a: Account)
    requires Listed(keys, view)
    ensures Listed(keys + {a.key}, [a] + view)
  {
    var view', keys' := [a] + view, keys + {a.key};
    assert view'[1..] == view;
    forall k | k in keys' ensures IndexOf(view', k) < |view'| {
    }
  }

  lemma IndexedAdd(buckets: map<string, KeyedBucket>, lru: seq<KeyedBucket>, view: seq<Account>, b: KeyedBucket,
                   a: Account)
    requires Indexed(buckets, lru, view) && a.key !in buckets && b !in lru
    ensures Indexed(buckets[a.key := b], [b] + lru, [a] + view)
  {
    ListedAdd(buckets.Keys, view, a);
    assert buckets[a.key := b].Keys == buckets.Keys + {a.key};
    DistinctAdd(lru, b);
    MappedAdd(buckets, lru, view, b, a);
  }

  lemma DistinctAdd<T>(s: seq<T>, x: T)
    requires Distinct(s) && x !in s
    ensures Distinct([x] + s)
  {
  }

  lemma MappedAdd(buckets: map<string, KeyedBucket>, lru: seq<KeyedBucket>, view: seq<Account>, b: KeyedBucket,
                  a: Account)
    requires Mapped(buckets, lru, view) && a.key !in buckets
    ensures Mapped(buckets[a.key := b], [b] + lru, [a] + view)
  {
  }

  function Promote<T>(s: seq<T>, i: nat): (r: seq<T>)
    requires i < |s|
    ensures |r| == |s|
  {
    [s[i]] + (s[..i] + s[i + 1..])
  }

  /** Where the element at position j of the promoted list stood before. */
  function Origin(i: nat, j: nat): nat { if j == 0 then i else if j <= i then j - 1 else j }

  lemma PromoteAt<T>(s: seq<T>, i: nat, j: nat)
    requires i < |s| && j < |s|
    ensures Promote(s, i)[j] == s[Origin(i, j)]
  {
  }

  lemma PromoteListed(keys: set<string>, view: seq<Account>, i: nat)
    requires i < |view| && Listed(keys, view)
    ensures Listed(keys, Promote(view, i))
  {
    var view' := Promote(view, i);
    forall k | k in keys ensures IndexOf(view', k) < |view'| {
      var p := IndexOf(view, k);
      var q := if p == i then 0 else if p < i then p + 1 else p;
      PromoteAt(view, i, q);
      FindsKey(view', q);
    }
  }

  lemma PromoteDistinct<T>(s: seq<T>, i: nat)
    requires i < |s| && Distinct(s)
    ensures Distinct(Promote(s, i))
  {
    var s' := Promote(s, i);
    forall j, k | 0 <= j < k < |s'| ensures s'[j] != s'[k] {
      PromoteAt(s, i, j);
      PromoteAt(s, i, k);
    }
  }

  lemma IndexedMove(buckets: map<string, KeyedBucket>, lru: seq<KeyedBucket>, view: seq<Account>, i: nat)
    requires Indexed(buckets, lru, view) && i < |lru|
    ensures Indexed(buckets, Promote(lru, i), Promote(view, i))
  {
    PromoteListed(buckets.Keys, view, i);
    PromoteDistinct(lru, i);
    var view', lru' := Promote(view, i), Promote(lru, i);
    forall j | 0 <= j < |lru'| ensures view'[j].key in buckets && buckets[view'[j].key] == lru'[j] {
      PromoteAt(view, i, j);
      PromoteAt(lru, i, j);
    }
  }

  ghost predicate Shows(lru: seq<KeyedBucket>, view: seq<Account>)
    reads lru
  {
    |lru| == |view| && forall i :: 0 <= i < |lru| ==> lru[i].Value() == view[i]
  }

  lemma ShowsAdd(lru: seq<KeyedBucket>, view: seq<Account>, b: KeyedBucket, a: Account)
    requires Shows(lru, view) && b.Value() == a
    ensures Shows([b] + lru, [a] + view)
  {
  }

  lemma PromoteShows(lru: seq<KeyedBucket>, view: seq<Account>, i: nat)
    requires Shows(lru, view) && i < |lru|
    ensures Shows(Promote(lru, i), Promote(view, i))
  {
    forall j | 0 <= j < |lru| ensures Promote(lru, i)[j].Value() == Promote(view, i)[j] {
      PromoteAt(lru, i, j);
      PromoteAt(view, i, j);
    }
  }

  lemma IndexedRefresh(buckets: map<string, KeyedBucket>, lru: seq<KeyedBucket>, view: seq<Account>, a: Account)
    requires Indexed(buckets, lru, view) && lru != [] && a.key == view[0].key
    ensures Indexed(buckets, lru, [a] + view[1..])
  {
    var view' := [a] + view[1..];
    forall k | k in buckets.Keys ensures IndexOf(view', k) < |view'| {
      assert view'[IndexOf(view, k)].key == k;
      FindsKey(view', IndexOf(view, k));
    }
  }

  class KeyedLimiter {
    const cfg: Config
    var buckets: map<string, KeyedBucket>
    var lru: seq<KeyedBucket>
    ghost var view: seq<Account>

    ghost predicate Valid()
      reads this, lru
    {
      Indexed(buckets, lru, view) && Shows(lru, view)
    }

    constructor (cfg: Config)
      ensures Valid() && view == [] && this.cfg == cfg && lru == []
    {
      this.cfg := cfg;
      buckets, lru, view := map[], [], [];
    }

    /** list.Element lookup: where a bucket stands in the list. */
    method Position(b: KeyedBucket) returns (i: nat)
      requires b in lru
      ensures i < |lru| && lru[i] == b && b !in lru[..i]
    {
      i := 0;
      while lru[i] != b
        invariant i < |lru| && b !in lru[..i]
        decreases |lru| - i
      {
        i := i + 1;
      }
    }

    method MoveToFront(key: string)
      requires Valid() && key in buckets
      modifies this
      ensures Valid() && IndexOf(old(view), key) < |old(view)| && view == Promote(old(view), IndexOf(old(view), key))
      ensures forall b :: b in lru ==> b in old(lru)
    {
      IndexedFind(buckets, lru, view, key);
      var i := Position(buckets[key]);
      IndexedMove(buckets, lru, view, i);
      PromoteShows(lru, view, i);
      lru, view := Promote(lru, i), Promote(view, i);
    }

    method PushFront(b: KeyedBucket)
      requires Valid() && b !in lru && b.key !in buckets
      modifies this
      ensures Valid() && lru == [b] + old(lru) && view == [b.Value()] + old(view)
    {
      ghost var a := b.Value();
      IndexedAdd(buckets, lru, view, b, a);
      ShowsAdd(lru, view, b, a);
      lru, view, buckets := [b] + lru, [a] + view, buckets[b.key := b];
    }

    method RemoveBack()
      requires Valid() && lru != []
      modifies this
      ensures Valid() && lru == old(lru)[..|old(lru)| - 1] && view == old(view)[..|old(view)| - 1]
      ensures buckets == old(buckets) - {old(lru[|lru| - 1].key)} && old(lru)[|old(lru)| - 1] !in lru
    {
      IndexedDrop(buckets, lru, view);
      buckets := buckets - {lru[|lru| - 1].key};
      lru, view := lru[..|lru| - 1], view[..|view| - 1];
    }

    /** A full table: the bucket at the back serves the newcomer, as it is or, when idle, not at all. */
    method TakeOver(key: string, now: real) returns (taken: bool)
      requires Valid() && lru != [] && key !in buckets
      modifies this, lru[|lru| - 1]
      ensures Valid() && forall b :: b in lru ==> b in old(lru)
      ensures taken == (now - old(view)[|old(view)| - 1].lastSeen < cfg.idleExpiry)
      ensures taken ==> view == [old(view)[|old(view)| - 1].(key := key)] + old(view)[..|old(view)| - 1]
      ensures !taken ==> view == old(view)[..|old(view)| - 1] && key !in buckets
    {
      var back := lru[|lru| - 1];
      RemoveBack();
      taken := now - back.lastSeen < cfg.idleExpiry;
      if taken {
        back.Rename(key);
        PushFront(back);
      }
    }

    /** A new bucket, full, at the front. */
    method Create(key: string, now: real)
      requires Valid() && key !in buckets
      modifies this
      ensures Valid() && view == [Account(key, cfg.burst, now, now)] + old(view)
      ensures forall b :: b in lru && b !in old(lru) ==> fresh(b)
    {
      var b := new KeyedBucket(key, cfg.burst, now);
      PushFront(b);
    }

    /** The bucket that will serve this key, at the front of the list. */
    method Select(key: string, now: real) returns (found: bool)
      requires Valid()
      modifies this, lru
      ensures found == Choose(cfg, old(view), key, now).Chosen?
      ensures view == (match Choose(cfg, old(view), key, now) case Refused => old(view) case Chosen(b,
              rest) => [b] + rest)
      ensures Valid() && (found ==> lru != [])
      ensures forall b :: b in lru && b !in old(lru) ==> fresh(b)
    {
      IndexedFind(buckets, lru, view, key);
      IndexedSize(buckets, lru, view);
      if key in buckets {
        MoveToFront(key);
        return true;
      }
      if |buckets| >= cfg.maxKeys {
        if lru == [] {
          return false;
        }
        var taken := TakeOver(key, now);
        if taken {
          return true;
        }
      }
      Create(key, now);
      return true;
    }

    method SpendFront(n: real, now: real) returns (ok: bool)
      requires Valid() && lru != []
      modifies this`view, lru[0]
      ensures Valid()
      ensures view == [RateLimit.Spend(cfg, old(view)[0], n, now).0] + old(view)[1..]
      ensures ok == RateLimit.Spend(cfg, old(view)[0], n, now).1
    {
      IndexedRefresh(buckets, lru, view, RateLimit.Spend(cfg, view[0], n, now).0);
      ok := lru[0].Spend(cfg, n, now);
      view := [RateLimit.Spend(cfg, view[0], n, now).0] + view[1..];
    }

    method AllowN(key: string, n: real, now: real) returns (ok: bool)
      requires Valid()
      modifies this, lru
      ensures Valid() && (view, ok) == RateLimit.AllowN(cfg, old(view), key, n, now)
      ensures forall b :: b in lru && b !in old(lru) ==> fresh(b)
    {
      var found := Select(key, now);
      if !found {
        return false;
      }
      assert lru[0] in lru;
      AllowFrom(cfg, old(view), key, n, now, view);
      ok := SpendFront(n, now);
    }
  }
}
