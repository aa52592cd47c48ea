/** A token bucket per client token, kept in a shared store and refilled only when it is read. */
module TokenBuckets {

  datatype Config = Config(capacity: int, refillRate: real, namespace: string) {
    function Key(token: string): string { namespace + ":" + token }
  }

  datatype Bucket = Bucket(tokens: real, ts: real)

  type Store = map<string, Bucket>

  datatype Request = Request(token: string, now: real)

  /** A bucket that was never written counts as an empty one from time zero. */
  function Stored(store: Store, key: string): Bucket {
    if key in store then store[key] else Bucket(0.0, 0.0)
  }

  /** What is refilled between two times. */
  function Gained(c: Config, from: real, to: real): real { (to - from) * c.refillRate }

  lemma {:induction false} GainedAdds(c: Config, a: real, b: real, d: real)
    ensures Gained(c, a, b) + Gained(c, b, d) == Gained(c, a, d)
  {
    assert (b - a) * c.refillRate + (d - b) * c.refillRate == ((b - a) + (d - b)) * c.refillRate;
  }

  /** The tokens of a bucket at time `now`, never more than its capacity. */
  function Level(c: Config, b: Bucket, now: real): (l: real)
    ensures l <= c.capacity as real && l <= b.tokens + Gained(c, b.ts, now)
  {
    var refilled := b.tokens + Gained(c, b.ts, now);
    if c.capacity as real <= refilled then c.capacity as real else refilled
  }

  predicate Admits(c: Config, store: Store, r: Request) { Level(c, Stored(store, c.Key(r.token)), r.now) >= 1.0 }

  function Served(c: Config, store: Store, r: Request): Store {
    if Admits(c, store, r) then
      store[c.Key(r.token) := Bucket(Level(c, Stored(store, c.Key(r.token)), r.now) - 1.0, r.now)]
    else store
  }

  class RateLimiter {
    const config: Config
    var store: Store

    constructor (config: Config)
      ensures this.config == config && store == map[]
    {
      this.config, store := config, map[];
    }

    method Allow(token: string, now: real) returns (ok: bool)
      modifies this
      ensures ok == Admits(config, old(store), Request(token, now))
      ensures store == Served(config, old(store), Request(token, now))
    {
      var key := config.Key(token);
      var tokens, last := 0.0, 0.0;
      if key in store {
        tokens, last := store[key].tokens, store[key].ts;
      }
      tokens := tokens + (now - last) * config.refillRate;
      if config.capacity as real <= tokens {
        tokens := config.capacity as real;
      }
      if tokens < 1.0 {
        return false;
      }
      tokens := tokens - 1.0;
      store := store[key := Bucket(tokens, now)];
      return true;
    }

    /** Removes the buckets of this namespace and no others. */
    method Clear()
      modifies this
      ensures forall token :: config.Key(token) !in store
      ensures forall key :: key in store <==> key in old(store) && !(config.namespace + ":" <= key)
      ensures forall key | key in store :: store[key] == old(store)[key]
    {
      var prefix := config.namespace + ":";
      assert forall token :: prefix <= config.Key(token);
      store := map key | key in store && !(prefix <= key) :: store[key];
    }

    /** Serves requests one after the other. */
    method ServeAll(requests: seq<Request>) returns (decisions: seq<bool>)
      modifies this
      ensures |decisions| == |requests|
      ensures forall k | 0 <= k < |requests| :: decisions[k] == Accepted(config, old(store), requests, k)
      ensures store == After(config, old(store), requests, |requests|)
    {
      hide Admits, Served;
      decisions := [];
      for i := 0 to |requests|
        invariant |decisions| == i && store == After(config, old(store), requests, i)
        invariant forall k | 0 <= k < i :: decisions[k] == Accepted(config, old(store), requests, k)
      {
        var ok := Allow(requests[i].token, requests[i].now);
        decisions := decisions + [ok];
      }
    }
  }

  // ---------------------------------------------------------------- whole runs

  /** The store after the first `n` requests. */
  function After(c: Config, store: Store, rs: seq<Request>, n: nat): Store
    requires n <= |rs|
  {
    if n == 0 then store else Served(c, After(c, store, rs, n - 1), rs[n - 1])
  }

  predicate Accepted(c: Config, store: Store, rs: seq<Request>, k: nat)
    requires k < |rs|
  {
    Admits(c, After(c, store, rs, k), rs[k])
  }

  /** How many of the requests `i..n` were accepted for a token. */
  function AcceptedFor(c: Config, store: Store, rs: seq<Request>, token: string, i: nat, n: nat): nat
    requires i <= n <= |rs|
    decreases n - i
  {
    if i == n then 0
    else AcceptedFor(c, store, rs, token, i, n - 1) + if rs[n - 1].token == token && Accepted(c, store, rs, n - 1) then
        1 else 0
  }

  /** The accepted requests `i..n` for a token. */
  function AcceptedSet(c: Config, store: Store, rs: seq<Request>, token: string, i: nat, n: nat): set<nat>
    requires i <= n <= |rs|
  {
    set k: nat | i <= k < n && rs[k].token == token && Accepted(c, store, rs, k)
  }

  lemma {:induction false} AcceptedForCounts(c: Config, store: Store, rs: seq<Request>, token: string, i: nat, n: nat)
    requires i <= n <= |rs|
    ensures AcceptedFor(c, store, rs, token, i, n) == |AcceptedSet(c, store, rs, token, i, n)|
    decreases n
  {
    hide Accepted;
    if i < n {
      AcceptedForCounts(c, store, rs, token, i, n - 1);
      LastAccepted(c, store, rs, token, i, n);
      hide AcceptedSet;
    } else {
      assert AcceptedSet(c, store, rs, token, i, n) == {};
    }
  }

  lemma {:induction false} LastAccepted(c: Config, store: Store, rs: seq<Request>, token: string, i: nat, n: nat)
    requires i < n <= |rs|
    ensures |AcceptedSet(c, store, rs, token, i, n)|
         == |AcceptedSet(c, store, rs, token, i, n - 1)|
            + if rs[n - 1].token == token && Accepted(c, store, rs, n - 1) then 1 else 0
  {
    hide Accepted;
    var all, before := AcceptedSet(c, store, rs, token, i, n), AcceptedSet(c, store, rs, token, i, n - 1);
    if rs[n - 1].token == token && Accepted(c, store, rs, n - 1) {
      assert all == before + {n - 1};
    } else {
      assert all == before;
    }
  }

  /** A token that was never served has what was refilled since time zero, up to the capacity. */
  lemma {:induction false} NewToken(c: Config, store: Store, r: Request)
    requires c.namespace + ":" + r.token !in store
    ensures Admits(c, store, r) <==> 1 <= c.capacity && 1.0 <= r.now * c.refillRate
    ensures Admits(c, store, r) ==>
              var gained, max, key := r.now * c.refillRate, c.capacity as real, c.namespace + ":" + r.token;
              Served(c, store, r) == store[key := Bucket((if max <= gained then max else gained) - 1.0, r.now)]
  {
    assert Gained(c, 0.0, r.now) == r.now * c.refillRate;
    assert c.Key(r.token) == c.namespace + ":" + r.token;
    hide Gained;
  }

  lemma {:induction false} KeysDiffer(c: Config, a: string, b: string)
    requires a != b
    ensures c.Key(a) != c.Key(b)
  {
    assert c.Key(a)[|c.namespace| + 1..] == a;
    assert c.Key(b)[|c.namespace| + 1..] == b;
  }

  /** Serving another token leaves a bucket alone. */
  lemma {:induction false} OthersUntouched(c: Config, store: Store, r: Request, token: string)
    requires r.token != token
    ensures Stored(Served(c, store, r), c.Key(token)) == Stored(store, c.Key(token))
  {
    KeysDiffer(c, r.token, token);
  }

  lemma {:induction false} ServedBalance(c: Config, store: Store, r: Request)
    ensures var b, a := Stored(store, c.Key(r.token)), Stored(Served(c, store, r), c.Key(r.token));
            if Admits(c, store, r)
            then
                a.ts == r.now && 0.0 <= a.tokens <= c.capacity as real - 1.0
                && a.tokens <= b.tokens + Gained(c, b.ts, r.now) - 1.0
            else a == b
  {
    hide Gained;
  }

  /** From an acceptance at request `i` on, what is in the bucket pays for every acceptance since. */
  lemma {:induction false} Balance(c: Config, store: Store, rs: seq<Request>, i: nat, n: nat)
    requires i < n <= |rs| && Accepted(c, store, rs, i)
    ensures var b := Stored(After(c, store, rs, n), c.Key(rs[i].token));
            b.tokens <= c.capacity as real - AcceptedFor(c, store, rs, rs[i].token, i, n) as real
                + Gained(c, rs[i].now, b.ts)
    decreases n
  {
    var token, last, r := rs[i].token, After(c, store, rs, n - 1), rs[n - 1];
    ServedBalance(c, last, r);
    if n == i + 1 {
      hide Served, Admits, Level;
      assert AcceptedFor(c, store, rs, token, i, i) == 0;
      assert Gained(c, r.now, r.now) == 0.0;
    } else {
      hide Served, Admits, Gained, Level;
      Balance(c, store, rs, i, n - 1);
      if r.token != token {
        OthersUntouched(c, last, r, token);
      } else {
        GainedAdds(c, rs[i].now, Stored(last, c.Key(token)).ts, r.now);
      }
    }
  }

  /** Over any run, on any clock and with other tokens served in between, the requests accepted for a token between two
      acceptances number at most the capacity plus what was refilled in that time. */
  lemma {:induction false} AcceptanceBound(c: Config, store: Store, rs: seq<Request>, i: nat, j: nat)
    requires i <= j < |rs| && rs[i].token == rs[j].token
    requires Accepted(c, store, rs, i) && Accepted(c, store, rs, j)
    ensures AcceptedFor(c, store, rs, rs[i].token, i, j + 1) as real
         <= c.capacity as real + Gained(c, rs[i].now, rs[j].now)
  {
    hide Served, Admits, Gained, Level, AcceptedFor;
    Balance(c, store, rs, i, j + 1);
    ServedBalance(c, After(c, store, rs, j), rs[j]);
  }

  ghost predicate InRange(c: Config, store: Store) {
    forall key | key in store :: 0.0 <= store[key].tokens <= c.capacity as real - 1.0
  }

  /** What is stored is never negative and leaves room for the token just taken. */
  lemma {:induction false} StaysInRange(c: Config, store: Store, rs: seq<Request>, n: nat)
    requires n <= |rs| && InRange(c, store)
    ensures InRange(c, After(c, store, rs, n))
  {
    if n > 0 {
      StaysInRange(c, store, rs, n - 1);
    }
  }

  /** A bucket in range admits its token again once one token was refilled. */
  lemma {:induction false} Recovers(c: Config, store: Store, r: Request)
    requires c.capacity >= 1 && InRange(c, store)
    requires Gained(c, Stored(store, c.Key(r.token)).ts, r.now) >= 1.0
    ensures Admits(c, store, r)
  {
    hide Gained;
    assert Stored(store, c.Key(r.token)).tokens >= 0.0;
  }

  // ---------------------------------------------------------------- the eager bucket

  /** A bucket that stores its refill on every request, also on a rejected one. */
  function ServedEagerly(c: Config, store: Store, r: Request): Store {
    var level := Level(c, Stored(store, c.Key(r.token)), r.now);
    store[c.Key(r.token) := Bucket(if level >= 1.0 then level - 1.0 else level, r.now)]
  }

  function AfterEagerly(c: Config, store: Store, rs: seq<Request>, n: nat): Store
    requires n <= |rs|
  {
    if n == 0 then store else ServedEagerly(c, AfterEagerly(c, store, rs, n - 1), rs[n - 1])
  }

  /** Two buckets that hold the same at every time, before the capacity caps them. */
  ghost predicate SameFlow(c: Config, a: Bucket, b: Bucket) {
    a.tokens - a.ts * c.refillRate == b.tokens - b.ts * c.refillRate
  }

  lemma {:induction false} SameLevel(c: Config, a: Bucket, b: Bucket, now: real)
    requires SameFlow(c, a, b)
    ensures Level(c, a, now) == Level(c, b, now)
  {
    assert a.tokens + (now - a.ts) * c.refillRate == (a.tokens - a.ts * c.refillRate) + now * c.refillRate;
    assert b.tokens + (now - b.ts) * c.refillRate == (b.tokens - b.ts * c.refillRate) + now * c.refillRate;
  }

  ghost predicate SameFlows(c: Config, lazy: Store, eager: Store) {
    forall token :: SameFlow(c, Stored(lazy, c.Key(token)), Stored(eager, c.Key(token)))
  }

  lemma {:induction false} RefillKeepsFlow(c: Config, b: Bucket, now: real)
    requires 1 <= c.capacity && Level(c, b, now) < 1.0
    ensures SameFlow(c, b, Bucket(Level(c, b, now), now))
  {
    assert Level(c, b, now) == b.tokens + (now - b.ts) * c.refillRate;
    assert (now - b.ts) * c.refillRate == now * c.refillRate - b.ts * c.refillRate;
  }

  lemma {:induction false} ServingKeepsFlows(c: Config, lazy: Store, eager: Store, r: Request)
    requires 1 <= c.capacity && SameFlows(c, lazy, eager)
    ensures SameFlows(c, Served(c, lazy, r), ServedEagerly(c, eager, r))
  {
    var a, b := Stored(lazy, c.Key(r.token)), Stored(eager, c.Key(r.token));
    SameLevel(c, a, b, r.now);
    forall token
      ensures SameFlow(c, Stored(Served(c, lazy, r), c.Key(token)), Stored(ServedEagerly(c, eager, r), c.Key(token)))
    {
      if token != r.token {
        KeysDiffer(c, token, r.token);
      } else if Level(c, b, r.now) < 1.0 {
        RefillKeepsFlow(c, b, r.now);
      }
    }
  }

  lemma {:induction false} FlowsStaySame(c: Config, store: Store, rs: seq<Request>, n: nat)
    requires n <= |rs| && 1 <= c.capacity
    ensures SameFlows(c, After(c, store, rs, n), AfterEagerly(c, store, rs, n))
  {
    if n > 0 {
      FlowsStaySame(c, store, rs, n - 1);
      ServingKeepsFlows(c, After(c, store, rs, n - 1), AfterEagerly(c, store, rs, n - 1), rs[n - 1]);
    }
  }

  /** Writing nothing on a rejection makes no difference: every request is decided as by the eager bucket. */
  lemma {:induction false} LazyIsEager(c: Config, store: Store, rs: seq<Request>, k: nat)
    requires k < |rs|
    ensures Accepted(c, store, rs, k) <==> Admits(c, AfterEagerly(c, store, rs, k), rs[k])
  {
    if c.capacity >= 1 {
      FlowsStaySame(c, store, rs, k);
      SameLevel(c, Stored(After(c, store, rs, k), c.Key(rs[k].token)),
          Stored(AfterEagerly(c, store, rs, k), c.Key(rs[k].token)), rs[k].now);
    }
  }
}
