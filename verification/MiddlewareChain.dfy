/** Rate limit, idempotency and identity checks in front of a handler, and what they keep over whole runs. */
module Middlewares {

  const MAX_RATE_LIMIT := 300
  const TTL_SECONDS := 24 * 60 * 60

  datatype Request = Request(rid: string, action: string, identity: string, namespace: string, verb: string) {
    function Key(): string { namespace + ":" + action + ":" + rid }
  }

  datatype Entry = Entry(identity: string, expiry: int)

  type Entries = map<string, Entry>

  function Upper(c: char): char {
    if 'a' <= c <= 'z' then c - 32 as char else c
  }

  predicate IsGet(verb: string) {
    |verb| == 3 && Upper(verb[0]) == 'G' && Upper(verb[1]) == 'E' && Upper(verb[2]) == 'T'
  }

  function ClampedLimit(limit: int): nat {
    if limit < 1 then 1 else if limit < MAX_RATE_LIMIT then limit else MAX_RATE_LIMIT
  }

  // ---------------------------------------------------------------- the idempotency store

  function Cleaned(entries: Entries, now: int): Entries {
    map key | key in entries && now < entries[key].expiry :: entries[key]
  }

  /** The key is reserved at time `now`. */
  predicate Holds(entries: Entries, key: string, now: int) { key in entries && now < entries[key].expiry }

  /** The entries after a check at `now`, after a cleanup at `swept`. */
  function Checked(entries: Entries, key: string, value: string, swept: int, now: int): Entries {
    var kept := Cleaned(entries, swept);
    if Holds(kept, key, now) then kept else kept[key := Entry(value, now + TTL_SECONDS)]
  }

  class IdempotencyStore {
    var entries: Entries

    constructor ()
      ensures entries == map[]
    {
      entries := map[];
    }

    method Clear()
      modifies this
      ensures entries == map[]
    {
      entries := map[];
    }

    /** Drops exactly the reservations that are over. */
    method Cleanup(now: int)
      modifies this
      ensures entries == Cleaned(old(entries), now)
    {
      var expired := set key | key in entries && entries[key].expiry <= now;
      entries := entries - expired;
    }

    /** Reserves the key, unless it is reserved: then only a GET may pass. The clock is read twice. */
    method CheckAndSet(key: string, value: string, verb: string, swept: int, now: int) returns (allowed: bool)
      modifies this
      ensures allowed <==> IsGet(verb) || !Holds(Cleaned(old(entries), swept), key, now)
      ensures entries == Checked(old(entries), key, value, swept, now)
    {
      Cleanup(swept);
      if key in entries {
        if entries[key].expiry <= now {
          ghost var before := entries;
          entries := entries - {key};
          assert entries[key := Entry(value, now + TTL_SECONDS)] == before[key := Entry(value, now + TTL_SECONDS)];
        } else {
          return IsGet(verb);
        }
      }
      entries := entries[key := Entry(value, now + TTL_SECONDS)];
      return true;
    }
  }

  // ---------------------------------------------------------------- the chain

  datatype Outcome = RateLimited | Duplicate | BadIdentity | Handled

  datatype Layer = RateLimit | Idempotency | Auth

  const FULL_TRACE := [RateLimit, Idempotency, Auth]

  datatype Event = Event(request: Request, swept: int, now: int)

  datatype State = State(count: nat, entries: Entries)

  predicate Passes(s: State, limit: nat) { s.count < limit }

  function OutcomeOf(s: State, limit: nat, e: Event): Outcome {
    if !Passes(s, limit) then RateLimited
    else if !IsGet(e.request.verb) && Holds(Cleaned(s.entries, e.swept), e.request.Key(), e.now) then Duplicate
    else if e.request.identity != "cli" then BadIdentity
    else Handled
  }

  function Next(s: State, limit: nat, e: Event): State {
    if !Passes(s, limit) then s
    else State(s.count + 1, Checked(s.entries, e.request.Key(), e.request.identity, e.swept, e.now))
  }

  class RateLimitMiddleware {
    const limit: nat
    var count: nat

    constructor (limit: int)
      ensures this.limit == ClampedLimit(limit) && 1 <= this.limit <= MAX_RATE_LIMIT && count == 0
      ensures this.limit == limit || (limit < 1 && this.limit == 1) || (300 < limit && this.limit == 300)
    {
      this.limit, this.count := ClampedLimit(limit), 0;
    }

    method Admit() returns (ok: bool)
      modifies this
      ensures ok == (old(count) < limit)
      ensures count == if ok then old(count) + 1 else old(count)
    {
      if limit <= count {
        return false;
      }
      count := count + 1;
      return true;
    }
  }

  /** The key of the request is reserved, and the request is no GET. */
  ghost predicate Repeats(entries: Entries, e: Event) {
    !IsGet(e.request.verb) && e.request.Key() in entries
        && e.swept < entries[e.request.Key()].expiry && e.now < entries[e.request.Key()].expiry
  }

  class MiddlewareChain {
    const rate: RateLimitMiddleware
    const store: IdempotencyStore

    constructor (limit: int)
      ensures fresh(rate) && fresh(store) && rate.limit == ClampedLimit(limit) && rate.count == 0
      ensures store.entries == map[]
    {
      rate := new RateLimitMiddleware(limit);
      store := new IdempotencyStore();
    }

    function Now(): State
      reads rate, store
    {
      State(rate.count, store.entries)
    }

    /** Takes a request through the layers; the handler runs behind the last one. */
    method Execute(e: Event) returns (outcome: Outcome, trace: seq<Layer>)
      modifies rate, store
      ensures outcome == OutcomeOf(old(Now()), rate.limit, e) && Now() == Next(old(Now()), rate.limit, e)
      ensures trace <= FULL_TRACE && trace != []
      ensures outcome == Handled ==> trace == FULL_TRACE
      ensures |trace| == match outcome case RateLimited => 1 case Duplicate => 2 case _ => 3
      ensures outcome == RateLimited <==> rate.limit <= old(rate.count)
      ensures outcome == Duplicate <==> old(rate.count) < rate.limit && Repeats(old(store.entries), e)
      ensures outcome == BadIdentity <==>
                old(rate.count) < rate.limit && !Repeats(old(store.entries), e) && e.request.identity != "cli"
      ensures outcome == Handled ==> e.request.identity == "cli"
    {
      trace := [RateLimit];
      var admitted := rate.Admit();
      if !admitted {
        return RateLimited, trace;
      }
      trace := trace + [Idempotency];
      var allowed := store.CheckAndSet(e.request.Key(), e.request.identity, e.request.verb, e.swept, e.now);
      if !allowed {
        return Duplicate, trace;
      }
      trace := trace + [Auth];
      if e.request.identity != "cli" {
        return BadIdentity, trace;
      }
      return Handled, trace;
    }

    method ExecuteAll(events: seq<Event>) returns (outcomes: seq<Outcome>)
      modifies rate, store
      ensures |outcomes| == |events|
      ensures forall k | 0 <= k < |events| :: outcomes[k] == OutcomeAt(old(Now()), rate.limit, events, k)
      ensures Now() == After(old(Now()), rate.limit, events, |events|)
      ensures forall k | 0 <= k < |events| && outcomes[k] == Handled :: events[k].request.identity == "cli"
    {
      hide OutcomeOf, Next;
      outcomes := [];
      for i := 0 to |events|
        invariant |outcomes| == i && Now() == After(old(Now()), rate.limit, events, i)
        invariant forall k | 0 <= k < i :: outcomes[k] == OutcomeAt(old(Now()), rate.limit, events, k)
        invariant forall k | 0 <= k < i && outcomes[k] == Handled :: events[k].request.identity == "cli"
      {
        var outcome, trace := Execute(events[i]);
        outcomes := outcomes + [outcome];
      }
    }
  }

  // ---------------------------------------------------------------- whole runs

  function After(s: State, limit: nat, es: seq<Event>, n: nat): State
    requires n <= |es|
  {
    if n == 0 then s else Next(After(s, limit, es, n - 1), limit, es[n - 1])
  }

  function OutcomeAt(s: State, limit: nat, es: seq<Event>, k: nat): Outcome
    requires k < |es|
  {
    OutcomeOf(After(s, limit, es, k), limit, es[k])
  }

  const START := State(0, map[])

  function TimesHandled(limit: nat, es: seq<Event>, n: nat): nat
    requires n <= |es|
  {
    if n == 0 then 0 else TimesHandled(limit, es, n - 1) + if OutcomeAt(START, limit, es, n - 1) == Handled then 1
        else 0
  }

  lemma {:induction false} TimesHandledIs(limit: nat, es: seq<Event>, n: nat)
    requires n <= |es|
    ensures TimesHandled(limit, es, n) == |set k: nat | k < n && OutcomeAt(START, limit, es, k) == Handled|
  {
    hide OutcomeAt;
    var all := set k: nat | k < n && OutcomeAt(START, limit, es, k) == Handled;
    if n > 0 {
      TimesHandledIs(limit, es, n - 1);
      var before := set k: nat | k < n - 1 && OutcomeAt(START, limit, es, k) == Handled;
      assert all == before + if OutcomeAt(START, limit, es, n - 1) == Handled then {n - 1} else {};
    } else {
      assert all == {};
    }
  }

  /** The handler never runs more often than requests were admitted, and those never outnumber the limit. */
  lemma {:induction false} HandledWithinLimit(limit: nat, es: seq<Event>, n: nat)
    requires n <= |es|
    ensures TimesHandled(limit, es, n) <= After(START, limit, es, n).count <= limit
  {
    if n > 0 {
      HandledWithinLimit(limit, es, n - 1);
    }
  }

  /** The clock never goes back, neither between events nor between the two readings of one event. */
  ghost predicate Clocked(es: seq<Event>) {
    && (forall k | 0 <= k < |es| :: es[k].swept <= es[k].now)
    && (forall j, k | 0 <= j < k < |es| :: es[j].now <= es[k].swept)
  }

  predicate Admitted(limit: nat, es: seq<Event>, k: nat)
    requires k < |es|
  {
    Passes(After(START, limit, es, k), limit)
  }

  /** Event `k` reserved its key: it was admitted, and the key was not reserved at the time. */
  ghost predicate Reserves(limit: nat, es: seq<Event>, k: nat)
    requires k < |es|
    decreases k, 1
  {
    Admitted(limit, es, k) && !Live(limit, es, k, es[k].request.Key(), es[k].now)
  }

  /** One of the first `n` events reserved the key less than a day before `now`. */
  ghost predicate Live(limit: nat, es: seq<Event>, n: nat, key: string, now: int)
    requires n <= |es|
    decreases n, 0
  {
    exists j: nat :: j < n && es[j].request.Key() == key && now < es[j].now + 24 * 60 * 60 && Reserves(limit, es, j)
  }

  lemma {:induction false} LiveStep(limit: nat, es: seq<Event>, n: nat, key: string, now: int)
    requires 0 < n <= |es|
    ensures Live(limit, es, n, key, now) <==>
              || Live(limit, es, n - 1, key, now)
              || (es[n - 1].request.Key() == key && now < es[n - 1].now + TTL_SECONDS && Reserves(limit, es, n - 1))
  {
    hide Admitted;
    if Live(limit, es, n, key, now) {
      var j: nat :| j < n && es[j].request.Key() == key && now < es[j].now + TTL_SECONDS && Reserves(limit, es, j);
      assert j < n - 1 || j == n - 1;
    }
  }

  lemma {:induction false} CheckedHolds(entries: Entries, key: string, value: string, swept: int, now: int,
                                        other: string, later: int)
    requires swept <= now <= later
    ensures Holds(Checked(entries, key, value, swept, now), other, later) <==>
              || Holds(entries, other, later)
              || (other == key && later < now + TTL_SECONDS && !Holds(entries, key, now))
  {
  }

  /** The store holds exactly the reservations of the history that are not over. */
  lemma {:induction false} StoreRefinesHistory(limit: nat, es: seq<Event>, n: nat, key: string, now: int)
    requires n <= |es| && Clocked(es) && (n > 0 ==> es[n - 1].now <= now)
    ensures Holds(After(START, limit, es, n).entries, key, now) <==> Live(limit, es, n, key, now)
    decreases n
  {
    if n > 0 {
      var e, s := es[n - 1], After(START, limit, es, n - 1);
      assert n > 1 ==> es[n - 2].now <= e.swept;
      StoreRefinesHistory(limit, es, n - 1, key, now);
      StoreRefinesHistory(limit, es, n - 1, e.request.Key(), e.now);
      LiveStep(limit, es, n, key, now);
      CheckedHolds(s.entries, e.request.Key(), e.request.identity, e.swept, e.now, key, now);
      hide Holds, Checked, Live;
    }
  }

  lemma {:induction false} CleanedHolds(entries: Entries, key: string, swept: int, now: int)
    requires swept <= now
    ensures Holds(Cleaned(entries, swept), key, now) <==> Holds(entries, key, now)
  {
  }

  /** An admitted request is turned away as a duplicate exactly if it is no GET and its key was reserved less than a day
      ago. */
  lemma {:induction false} DuplicateExactly(limit: nat, es: seq<Event>, k: nat)
    requires k < |es| && Clocked(es)
    ensures OutcomeAt(START, limit, es, k) == Duplicate <==>
              && Admitted(limit, es, k) && !IsGet(es[k].request.verb)
              && Live(limit, es, k, es[k].request.Key(), es[k].now)
  {
    hide Holds, Cleaned, Live, IsGet;
    assert k > 0 ==> es[k - 1].now <= es[k].swept;
    StoreRefinesHistory(limit, es, k, es[k].request.Key(), es[k].now);
    CleanedHolds(After(START, limit, es, k).entries, es[k].request.Key(), es[k].swept, es[k].now);
  }

  lemma {:induction false} ReservedIsLive(limit: nat, es: seq<Event>, i: nat, n: nat, now: int)
    requires i < n <= |es| && Reserves(limit, es, i)
    ensures now < es[i].now + TTL_SECONDS ==> Live(limit, es, n, es[i].request.Key(), now)
  {
    hide Reserves;
  }

  /** The handler never runs twice within a day for the same key, GET requests apart. */
  lemma {:induction false} HandledADayApart(limit: nat, es: seq<Event>, i: nat, j: nat)
    requires i < j < |es| && Clocked(es) && es[i].request.Key() == es[j].request.Key()
    requires !IsGet(es[i].request.verb) && !IsGet(es[j].request.verb)
    requires OutcomeAt(START, limit, es, i) == Handled && OutcomeAt(START, limit, es, j) == Handled
    ensures es[i].now + 24 * 60 * 60 <= es[j].now
  {
    hide Holds, Cleaned, IsGet, After;
    DuplicateExactly(limit, es, i);
    DuplicateExactly(limit, es, j);
    assert Reserves(limit, es, i);
    ReservedIsLive(limit, es, i, j, es[j].now);
  }

  /** A reservation made by a GET, or by a request whose identity is then refused, also blocks later requests. */
  lemma {:induction false} ReservationsBlock(limit: nat, es: seq<Event>, i: nat, j: nat)
    requires i < j < |es| && Clocked(es) && es[i].request.Key() == es[j].request.Key()
    requires Reserves(limit, es, i) && Admitted(limit, es, j)
    requires !IsGet(es[j].request.verb) && es[j].now < es[i].now + 24 * 60 * 60
    ensures OutcomeAt(START, limit, es, j) == Duplicate
  {
    hide Admitted, Reserves, IsGet;
    ReservedIsLive(limit, es, i, j, es[j].now);
    DuplicateExactly(limit, es, j);
  }

  /** What becomes of every admitted request: it is a duplicate, or else the identity decides, and only `cli` is
      handled. */
  lemma {:induction false} IdentityDecides(limit: nat, es: seq<Event>, k: nat)
    requires k < |es| && Clocked(es)
    ensures var o, again := OutcomeAt(START, limit, es, k),
                            !IsGet(es[k].request.verb) && Live(limit, es, k, es[k].request.Key(), es[k].now);
            && (o == Handled <==> Admitted(limit, es, k) && !again && es[k].request.identity == "cli")
            && (o == BadIdentity <==> Admitted(limit, es, k) && !again && es[k].request.identity != "cli")
  {
    DuplicateExactly(limit, es, k);
    hide After, IsGet, Live;
  }

  // ---------------------------------------------------------------- what is compared

  /** Exactly the word get, in any case, is a GET. */
  lemma {:induction false} GetExactly(verb: string)
    ensures IsGet(verb) <==>
              && |verb| == 3 && (verb[0] == 'g' || verb[0] == 'G') && (verb[1] == 'e' || verb[1] == 'E')
              && (verb[2] == 't' || verb[2] == 'T')
  {
  }

  predicate Plain(s: string) { forall i | 0 <= i < |s| :: s[i] != ':' }

  function ColonAt(s: string): nat { if s == "" || s[0] == ':' then 0 else 1 + ColonAt(s[1..]) }

  lemma {:induction false} ColonBehind(a: string, x: string)
    requires Plain(a)
    ensures ColonAt(a + ":" + x) == |a|
  {
    if a != "" {
      assert (a + ":" + x)[1..] == a[1..] + ":" + x;
      ColonBehind(a[1..], x);
    }
  }

  lemma {:induction false} FirstPartTells(a: string, b: string, x: string, y: string)
    requires Plain(a) && Plain(b) && a + ":" + x == b + ":" + y
    ensures a == b && x == y
  {
    var s := a + ":" + x;
    ColonBehind(a, x);
    ColonBehind(b, y);
    assert s[..|a|] == a && s[..|b|] == b;
    assert s[|a| + 1..] == x && s[|b| + 1..] == y;
  }

  /** Two requests compete for a key exactly if namespace, action and request id agree, when the first two hold no
      colon. */
  lemma {:induction false} KeyTells(a: Request, b: Request)
    requires Plain(a.namespace) && Plain(a.action) && Plain(b.namespace) && Plain(b.action)
    ensures a.Key() == b.Key() <==> a.namespace == b.namespace && a.action == b.action && a.rid == b.rid
  {
    hide Plain;
    if a.Key() == b.Key() {
      assert a.Key() == a.namespace + ":" + (a.action + ":" + a.rid);
      assert b.Key() == b.namespace + ":" + (b.action + ":" + b.rid);
      FirstPartTells(a.namespace, b.namespace, a.action + ":" + a.rid, b.action + ":" + b.rid);
      FirstPartTells(a.action, b.action, a.rid, b.rid);
    }
  }
}
