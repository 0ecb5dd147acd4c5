/** The lossy cache: strings, counters and expiry against the clock. */
module KeyValues {
  import opened Options

  type Time = int

  datatype Kv = Kv(strings: map<string, string>, hashes: map<string, map<string, int>>, expiry: map<string, Time>)

  function Expired(kv: Kv, now: Time): set<string> { set k | k in kv.expiry && kv.expiry[k] <= now }

  function Purged(kv: Kv, now: Time): Kv {
    var dead := Expired(kv, now);
    Kv(kv.strings - dead, kv.hashes - dead, kv.expiry - dead)
  }

  predicate Has(kv: Kv, key: string) { key in kv.strings || key in kv.hashes }

  function Setnx(kv: Kv, key: string, value: string, now: Time): (Kv, bool) {
    var live := Purged(kv, now);
    if Has(live, key) then (live, false) else (live.(strings := live.strings[key := value]), true)
  }

  function Get(kv: Kv, key: string, now: Time): Option<string> {
    var live := Purged(kv, now);
    if key in live.strings then Some(live.strings[key]) else None
  }

  function Field(h: map<string, int>, f: string): int { if f in h then h[f] else 0 }

  function AddAll(h: map<string, int>, increments: map<string, int>): map<string, int> {
    map f | f in h.Keys + increments.Keys :: Field(h, f) + Field(increments, f)
  }

  function Hincrby(kv: Kv, key: string, increments: map<string, int>, now: Time): (Kv, map<string, int>) {
    var live := Purged(kv, now);
    var h := AddAll(if key in live.hashes then live.hashes[key] else map[], increments);
    (live.(hashes := live.hashes[key := h]), h)
  }

  function Expire(kv: Kv, key: string, ttl: nat, now: Time): Kv {
    if Has(kv, key) then kv.(expiry := kv.expiry[key := now + ttl]) else kv
  }

  // ---- the same key by key

  /** The key's deadline has not come. */
  ghost predicate Alive(kv: Kv, key: string, now: Time) { key in kv.expiry ==> now < kv.expiry[key] }

  /** Key `k` holds what it held, or nothing once its deadline came. */
  ghost predicate KeptOrGone(kv: Kv, kv': Kv, k: string, now: Time) {
    (k in kv'.strings <==> k in kv.strings && Alive(kv, k, now)) &&
    (k in kv'.hashes <==> k in kv.hashes && Alive(kv, k, now)) &&
    (k in kv'.expiry <==> k in kv.expiry && Alive(kv, k, now)) &&
    (k in kv'.strings ==> kv'.strings[k] == kv.strings[k]) &&
    (k in kv'.hashes ==> kv'.hashes[k] == kv.hashes[k]) && (k in kv'.expiry ==> kv'.expiry[k] == kv.expiry[k])
  }

  /** What a field of the hash under the key holds, nothing counting as zero. */
  ghost function FieldOf(kv: Kv, key: string, now: Time, f: string): int {
    if key in kv.hashes && Alive(kv, key, now) && f in kv.hashes[key] then kv.hashes[key][f] else 0
  }

  /** Every named field of the hash has its increment added, the other fields and keys are as they were. */
  ghost predicate Added(kv: Kv, kv': Kv, key: string, increments: map<string, int>, now: Time, h: map<string, int>) {
    key in kv'.hashes && kv'.hashes[key] == h &&
    (forall f :: f in h <==>
      f in increments || (key in kv.hashes && Alive(kv, key, now) && f in kv.hashes[key])) &&
    (forall f :: f in h ==>
      h[f] == FieldOf(kv, key, now, f) + if f in increments then increments[f] else 0) &&
    forall k :: k != key ==> KeptOrGone(kv, kv', k, now)
  }

  lemma PurgedKeeps(kv: Kv, now: Time, k: string)
    ensures KeptOrGone(kv, Purged(kv, now), k, now)
  {
  }

  lemma HincrbyAdds(kv: Kv, key: string, increments: map<string, int>, now: Time)
    ensures Added(kv, Hincrby(kv, key, increments, now).0, key, increments, now, Hincrby(kv, key, increments, now).1)
  {
    forall k ensures KeptOrGone(kv, Purged(kv, now), k, now) { PurgedKeeps(kv, now, k); }
  }

  class KeyValue {
    var strings: map<string, string>
    var hashes: map<string, map<string, int>>
    var expiry: map<string, Time>

    ghost function View(): Kv
      reads this
    {
      Kv(strings, hashes, expiry)
    }

    constructor ()
      ensures View() == Kv(map[], map[], map[])
    {
      strings, hashes, expiry := map[], map[], map[];
    }

    method PurgeExpired(now: Time)
      modifies this
      ensures View() == Purged(old(View()), now)
      ensures forall k :: KeptOrGone(old(View()), View(), k, now)
    {
      forall k ensures KeptOrGone(View(), Purged(View(), now), k, now) { PurgedKeeps(View(), now, k); }
      var dead: set<string> := {};
      var rest := expiry.Keys;
      while rest != {}
        invariant rest <= expiry.Keys && forall k :: k in dead <==> k in expiry && k !in rest && expiry[k] <= now
        decreases |rest|
      {
        var k :| k in rest;
        if expiry[k] <= now { dead := dead + {k}; }
        rest := rest - {k};
      }
      assert dead == Expired(View(), now);
      strings, hashes, expiry := strings - dead, hashes - dead, expiry - dead;
    }

    /** Sets the key only if it is not there. */
    method TrySet(key: string, value: string, now: Time) returns (ok: bool)
      modifies this
      ensures (View(), ok) == Setnx(old(View()), key, value, now)
      ensures ok <==> !((key in old(strings) || key in old(hashes)) && Alive(old(View()), key, now))
      ensures ok ==> key in strings && strings[key] == value
      ensures forall k :: !ok || k != key ==> KeptOrGone(old(View()), View(), k, now)
    {
      PurgeExpired(now);
      if key in strings || key in hashes { return false; }
      strings := strings[key := value];
      ok := true;
    }

    method Lookup(key: string, now: Time) returns (value: Option<string>)
      modifies this
      ensures View() == Purged(old(View()), now) && value == Get(old(View()), key, now)
      ensures value == if key in old(strings) && Alive(old(View()), key, now) then Some(old(strings)[key]) else None
    {
      PurgeExpired(now);
      value := if key in strings then Some(strings[key]) else None;
    }

    /** Adds to every named field, missing ones from zero, and returns the whole hash. */
    method Increment(key: string, increments: map<string, int>, now: Time) returns (h: map<string, int>)
      modifies this
      ensures (View(), h) == Hincrby(old(View()), key, increments, now)
      ensures Added(old(View()), View(), key, increments, now, h)
    {
      HincrbyAdds(View(), key, increments, now);
      PurgeExpired(now);
      h := AddEach(if key in hashes then hashes[key] else map[], increments);
      hashes := hashes[key := h];
    }

    method SetExpiry(key: string, ttl: nat, now: Time)
      modifies this`expiry
      ensures View() == Expire(old(View()), key, ttl, now)
      ensures expiry == if key in strings || key in hashes then old(expiry)[key := now + ttl] else old(expiry)
    {
      if key in strings || key in hashes { expiry := expiry[key := now + ttl]; }
    }

    /** A failover loses every key. */
    method Flush()
      modifies this
      ensures View() == Kv(map[], map[], map[])
    {
      strings, hashes, expiry := map[], map[], map[];
    }
  }

  /** `h` is `start` with the increments outside `rest` added. */
  ghost predicate PartlyAdded(start: map<string, int>, increments: map<string, int>, rest: set<string>, h: map<string,
                              int>) {
    (forall f :: f in h <==> f in start || (f in increments && f !in rest)) &&
    forall f :: f in h ==> h[f] == Field(start, f) + if f in rest then 0 else Field(increments, f)
  }

  method AddEach(start: map<string, int>, increments: map<string, int>) returns (h: map<string, int>)
    ensures h == AddAll(start, increments)
  {
    h := start;
    var rest := increments.Keys;
    while rest != {}
      invariant rest <= increments.Keys && PartlyAdded(start, increments, rest, h)
      decreases |rest|
    {
      var f :| f in rest;
      AddNext(start, increments, rest, h, f);
      h := h[f := Field(h, f) + increments[f]];
      rest := rest - {f};
    }
    AllAdded(start, increments, h);
  }

  lemma AllAdded(start: map<string, int>, increments: map<string, int>, h: map<string, int>)
    requires PartlyAdded(start, increments, {}, h)
    ensures h == AddAll(start, increments)
  {
    var sum := AddAll(start, increments);
    assert forall f :: f in h <==> f in sum;
    assert forall f :: f in h ==> h[f] == sum[f];
  }

  lemma AddNext(start: map<string, int>, increments: map<string, int>, rest: set<string>, h: map<string, int>,
                f: string)
    requires f in rest && f in increments && PartlyAdded(start, increments, rest, h)
    ensures PartlyAdded(start, increments, rest - {f}, h[f := Field(h, f) + increments[f]])
  {
  }

  /** A key without an expiry answers every later lookup, and no later set replaces it. */
  lemma SetOnce(kv: Kv, key: string, value: string, other: string, now: Time, later: Time)
    requires Setnx(kv, key, value, now).1 && key !in kv.expiry
    ensures var kv' := Setnx(kv, key, value, now).0;
      Get(kv', key, later) == Some(value) && !Setnx(kv', key, other, later).1
  {
  }

  // ---- the fan-in counter

  const DONE := "done"

  /** One increment of the counter, and the expiry set after it. */
  function Bump(kv: Kv, key: string, ttl: nat, at: Time): (Kv, int) {
    var (kv', h) := Hincrby(kv, key, map[DONE := 1], at);
    (Expire(kv', key, ttl, at), Field(h, DONE))
  }

  /** The store and the last count after the first `n` increments. */
  function Bumps(kv: Kv, key: string, ttl: nat, times: seq<Time>, n: nat): (Kv, int)
    requires n <= |times|
  {
    if n == 0 then (kv, 0) else Bump(Bumps(kv, key, ttl, times, n - 1).0, key, ttl, times[n - 1])
  }

  /** How many of the first `n` increments, counted back from the last, follow each other within the expiry. */
  function Streak(times: seq<Time>, ttl: nat, n: nat): nat
    requires n <= |times|
  {
    if n == 0 then 0
    else if n == 1 || times[n - 1] >= times[n - 2] + ttl then 1
    else Streak(times, ttl, n - 1) + 1
  }

  /** The counter holds exactly the increments since the last gap of an expiry or more. */
  lemma {:induction false} CounterHoldsStreak(kv: Kv, key: string, ttl: nat, times: seq<Time>, n: nat)
    requires 0 < n <= |times| && !Has(kv, key) && key !in kv.expiry
    ensures var (kv', count) := Bumps(kv, key, ttl, times, n);
      count == Streak(times, ttl, n) && key !in kv'.strings && key in kv'.hashes &&
        Field(kv'.hashes[key], DONE) == count &&
      key in kv'.expiry && kv'.expiry[key] == times[n - 1] + ttl
  {
    if n > 1 { CounterHoldsStreak(kv, key, ttl, times, n - 1); }
    else { assert Bumps(kv, key, ttl, times, 0) == (kv, 0); }
  }

  lemma {:induction false} StreakBound(times: seq<Time>, ttl: nat, n: nat)
    requires n <= |times|
    ensures Streak(times, ttl, n) <= n
    ensures Streak(times, ttl, n) == n <==> forall i :: 1 <= i < n ==> times[i] < times[i - 1] + ttl
  {
    if n > 1 { StreakBound(times, ttl, n - 1); }
  }

  /** So the last of `n` increments counts to `n` exactly when no two in a row were an expiry apart. */
  lemma CounterCompletes(kv: Kv, key: string, ttl: nat, times: seq<Time>, n: nat)
    requires 0 < n <= |times| && !Has(kv, key) && key !in kv.expiry
    ensures Bumps(kv, key, ttl, times, n).1 == n <==> forall i :: 1 <= i < n ==> times[i] < times[i - 1] + ttl
  {
    CounterHoldsStreak(kv, key, ttl, times, n);
    StreakBound(times, ttl, n);
  }
}
