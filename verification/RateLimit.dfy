/** The per-key token bucket. The clock counts nanoseconds, tokens are reals: float rounding is not
    modelled, the truncation of the wait to whole nanoseconds is. */
module RateLimit {

  const SECOND := 1000000000

  /** rate is in tokens a second. */
  datatype Config = Config(rate: real, burst: real, maxKeys: int, sweepEvery: int)

  function Configured(perMinute: int, burst: int, maxKeys: int, sweepEvery: int): Config {
    Config(perMinute as real / 60.0, burst as real, maxKeys, sweepEvery)
  }

  datatype Bucket = Bucket(tokens: real, last: int)

  type Buckets = map<string, Bucket>

  datatype State = State(buckets: Buckets, lastSweep: int)

  datatype Answer = Answer(ok: bool, wait: int)

  /** victim is the key a random map iteration would pick if a bucket had to be evicted. */
  datatype Call = Call(key: string, now: int, victim: string)

  /** Tokens earned in d nanoseconds. */
  function Gain(c: Config, d: int): real { d as real / 1000000000.0 * c.rate }

  lemma GainAdds(c: Config, a: int, b: int)
    ensures Gain(c, a + b) == Gain(c, a) + Gain(c, b)
  {
  }

  lemma GainGrows(c: Config, a: int, b: int)
    requires c.rate > 0.0 && a <= b
    ensures Gain(c, a) <= Gain(c, b)
    ensures 0 <= a ==> 0.0 <= Gain(c, a)
  {
  }

  /** A limiter configured with n calls a minute earns n tokens in a minute. */
  lemma EarnsPerMinute(n: int, burst: int, maxKeys: int, sweepEvery: int)
    ensures Gain(Configured(n, burst, maxKeys, sweepEvery), 60 * SECOND) == n as real
  {
  }

  function Min(a: real, b: real): real { if a < b then a else b }

  function Refill(c: Config, b: Bucket, now: int): Bucket {
    if now > b.last then Bucket(Min(c.burst, b.tokens + Gain(c, now - b.last)), now) else b
  }

  function FullBucket(c: Config, now: int): Bucket { Bucket(c.burst, now) }

  /** Nanoseconds until a token is there, as a real and as the truncated duration returned. */
  function ExactWait(c: Config, tokens: real): real
    requires c.rate > 0.0
  {
    (1.0 - tokens) / c.rate * 1000000000.0
  }

  function Take(c: Config, b: Bucket): (Bucket, Answer)
    requires c.rate > 0.0
  {
    if b.tokens < 1.0 then (b, Answer(false, ExactWait(c, b.tokens).Floor))
    else (b.(tokens := b.tokens - 1.0), Answer(true, 0))
  }

  predicate Refilled(c: Config, b: Bucket, now: int) {
    b.tokens + Gain(c, now - b.last) >= c.burst
  }

  function Swept(c: Config, bs: Buckets, now: int): Buckets {
    map k | k in bs && !Refilled(c, bs[k], now) :: bs[k]
  }

  predicate SweepDue(c: Config, s: State, now: int) { now - s.lastSweep >= c.sweepEvery }

  function Timed(c: Config, s: State, now: int): State {
    if SweepDue(c, s, now) then State(Swept(c, s.buckets, now), now) else s
  }

  predicate Crowded(c: Config, s: State, key: string) { key !in s.buckets && |s.buckets| >= c.maxKeys }

  /** Is a live bucket about to be thrown away? */
  predicate Evicts(c: Config, s: State, call: Call) {
    var t := Timed(c, s, call.now);
    Crowded(c, t, call.key) && |Swept(c, t.buckets, call.now)| >= c.maxKeys
  }

  /** The victim is one of the buckets held, if any are. */
  predicate Legal(c: Config, s: State, call: Call) {
    Evicts(c, s, call) ==>
      var left := Swept(c, Timed(c, s, call.now).buckets, call.now);
      left == map[] || call.victim in left
  }

  /** The state with room for call.key. */
  function Roomy(c: Config, s: State, call: Call): State {
    var t := Timed(c, s, call.now);
    if !Crowded(c, t, call.key) then t
    else
      var left := Swept(c, t.buckets, call.now);
      State(if |left| >= c.maxKeys then left - {call.victim} else left, call.now)
  }

  function Held(c: Config, bs: Buckets, key: string, now: int): Bucket {
    if key in bs then Refill(c, bs[key], now) else FullBucket(c, now)
  }

  function Step(c: Config, s: State, call: Call): (State, Answer)
    requires c.rate > 0.0
  {
    var t := Roomy(c, s, call);
    var (b, answer) := Take(c, Held(c, t.buckets, call.key, call.now));
    (t.(buckets := t.buckets[call.key := b]), answer)
  }

  // ---- The limiter as the source writes it ------------------------------------------------------

  class Limiter {
    const cfg: Config
    var buckets: Buckets
    var lastSweep: int

    ghost function Now(): State
      reads this
    {
      State(buckets, lastSweep)
    }

    constructor (cfg: Config, now: int)
      ensures this.cfg == cfg && Now() == State(map[], now)
    {
      this.cfg := cfg;
      buckets, lastSweep := map[], now;
    }

    method Sweep(now: int)
      modifies this
      ensures Now() == State(Swept(cfg, old(buckets), now), now)
    {
      lastSweep := now;
      var keys := buckets.Keys;
      while keys != {}
        invariant keys <= old(buckets).Keys && lastSweep == now
        invariant forall k :: k in buckets <==> k in old(buckets) && (k in keys || !Refilled(cfg, old(buckets)[k], now))
        invariant forall k :: k in buckets ==> buckets[k] == old(buckets)[k]
        decreases |keys|
      {
        var k :| k in keys;
        keys := keys - {k};
        if Refilled(cfg, buckets[k], now) { buckets := buckets - {k}; }
      }
    }

    method EvictOne() returns (ghost victim: string)
      modifies this`buckets
      ensures old(buckets) == map[] || victim in old(buckets)
      ensures buckets == old(buckets) - {victim}
    {
      victim := "";
      if buckets.Keys != {} {
        var k :| k in buckets.Keys;
        victim := k;
        buckets := buckets - {k};
      }
    }

    method Allow(key: string, now: int) returns (ok: bool, wait: int, ghost victim: string)
      requires cfg.rate > 0.0
      modifies this
      ensures Legal(cfg, old(Now()), Call(key, now, victim))
      ensures (Now(), Answer(ok, wait)) == Step(cfg, old(Now()), Call(key, now, victim))
    {
      victim := "";
      if now - lastSweep >= cfg.sweepEvery { Sweep(now); }
      var b;
      if key !in buckets {
        if |buckets| >= cfg.maxKeys {
          Sweep(now);
          if |buckets| >= cfg.maxKeys { victim := EvictOne(); }
        }
        b := Bucket(cfg.burst, now);
      } else {
        b := buckets[key];
        if now > b.last { b := Bucket(Min(cfg.burst, b.tokens + Gain(cfg, now - b.last)), now); }
      }
      if b.tokens < 1.0 {
        buckets := buckets[key := b];
        return false, ((1.0 - b.tokens) / cfg.rate * 1000000000.0).Floor, victim;
      }
      b := b.(tokens := b.tokens - 1.0);
      buckets := buckets[key := b];
      return true, 0, victim;
    }
  }

  // ---- Runs --------------------------------------------------------------------------------------

  /** Calls whose clock starts at from and never goes back. */
  ghost predicate Ordered(from: int, calls: seq<Call>) {
    forall i :: 0 <= i < |calls| ==> from <= calls[i].now && (i > 0 ==> calls[i - 1].now <= calls[i].now)
  }

  ghost function Clock(from: int, calls: seq<Call>): int { if calls == [] then from else calls[|calls| - 1].now }

  ghost function Run(c: Config, s: State, calls: seq<Call>): State
    requires c.rate > 0.0
    decreases |calls|
  {
    if calls == [] then s else Step(c, Run(c, s, calls[..|calls| - 1]), calls[|calls| - 1]).0
  }

  ghost predicate LegalRun(c: Config, s: State, calls: seq<Call>)
    requires c.rate > 0.0
    decreases |calls|
  {
    calls != [] ==>
      LegalRun(c, s, calls[..|calls| - 1]) && Legal(c, Run(c, s, calls[..|calls| - 1]), calls[|calls| - 1])
  }

  function Low(c: Config): real { Min(c.burst, 0.0) }

  ghost predicate BucketInv(c: Config, b: Bucket, now: int) {
    Low(c) <= b.tokens <= c.burst && b.last <= now
  }

  ghost predicate Inv(c: Config, s: State, now: int) {
    forall k :: k in s.buckets ==> BucketInv(c, s.buckets[k], now)
  }

  lemma HeldInv(c: Config, bs: Buckets, key: string, now: int)
    requires c.rate > 0.0 && (key in bs ==> BucketInv(c, bs[key], now))
    ensures BucketInv(c, Held(c, bs, key, now), now) && Held(c, bs, key, now).last == now
    ensures BucketInv(c, Take(c, Held(c, bs, key, now)).0, now)
  {
    if key in bs { GainGrows(c, 0, now - bs[key].last); }
  }

  lemma StepInv(c: Config, s: State, call: Call, from: int)
    requires c.rate > 0.0 && Inv(c, s, from) && from <= call.now
    ensures Inv(c, Step(c, s, call).0, call.now)
  {
    HeldInv(c, Roomy(c, s, call).buckets, call.key, call.now);
  }

  lemma {:induction false} RunInv(c: Config, s: State, calls: seq<Call>, from: int)
    requires c.rate > 0.0 && Inv(c, s, from) && Ordered(from, calls)
    ensures Inv(c, Run(c, s, calls), Clock(from, calls))
  {
    if calls == [] {
    } else {
      RunInv(c, s, calls[..|calls| - 1], from);
      StepInv(c, Run(c, s, calls[..|calls| - 1]), calls[|calls| - 1], Clock(from, calls[..|calls| - 1]));
    }
  }

  /** Over any run the table holds at most max(1, maxKeys) buckets. */
  lemma {:induction false} TableIsBounded(c: Config, start: int, calls: seq<Call>)
    requires c.rate > 0.0 && LegalRun(c, State(map[], start), calls)
    ensures |Run(c, State(map[], start), calls).buckets| <= if c.maxKeys < 1 then 1 else c.maxKeys
  {
    if calls == [] {
    } else {
      var front, call := calls[..|calls| - 1], calls[|calls| - 1];
      TableIsBounded(c, start, front);
      RoomIsMade(c, Run(c, State(map[], start), front), call);
    }
  }

  lemma Fewer<V>(a: map<string, V>, b: map<string, V>)
    requires a.Keys <= b.Keys
    ensures |a| <= |b|
  {
    var rest := b.Keys - a.Keys;
    assert b.Keys == a.Keys + rest;
  }

  lemma EvictionMakesRoom(c: Config, s: State, call: Call)
    requires Legal(c, s, call) && Evicts(c, s, call) && |s.buckets| <= if c.maxKeys < 1 then 1 else c.maxKeys
    ensures |Roomy(c, s, call).buckets| < if c.maxKeys < 1 then 1 else c.maxKeys
  {
    var t := Timed(c, s, call.now);
    var left := Swept(c, t.buckets, call.now);
    Fewer(t.buckets, s.buckets);
    Fewer(left, t.buckets);
    if left != map[] { assert (left - {call.victim}).Keys == left.Keys - {call.victim}; }
  }

  lemma RoomIsMade(c: Config, s: State, call: Call)
    requires c.rate > 0.0 && Legal(c, s, call) && |s.buckets| <= if c.maxKeys < 1 then 1 else c.maxKeys
    ensures |Step(c, s, call).0.buckets| <= if c.maxKeys < 1 then 1 else c.maxKeys
  {
    var r := Roomy(c, s, call);
    if Evicts(c, s, call) {
      EvictionMakesRoom(c, s, call);
    } else {
      Fewer(r.buckets, s.buckets);
    }
    assert Step(c, s, call).0.buckets.Keys == r.buckets.Keys + {call.key};
  }

  // ---- Forgetting a full bucket is not observable -------------------------------------------------

  /** Does this call throw key's bucket away before it has refilled? */
  predicate Loses(c: Config, s: State, call: Call, key: string) {
    Evicts(c, s, call) && call.victim == key && key in Swept(c, Timed(c, s, call.now).buckets, call.now)
  }

  /** Refilling in two goes is refilling in one. */
  lemma RefillComposes(c: Config, b: Bucket, mid: int, now: int)
    requires c.rate > 0.0 && BucketInv(c, b, mid) && mid <= now
    ensures Refill(c, Refill(c, b, mid), now) == Refill(c, b, now)
  {
    GainAdds(c, mid - b.last, now - mid);
    GainGrows(c, 0, now - mid);
  }

  lemma HeldComposes(c: Config, bs: Buckets, key: string, mid: int, now: int)
    requires c.rate > 0.0 && (key in bs ==> BucketInv(c, bs[key], mid)) && mid <= now
    ensures Refill(c, Held(c, bs, key, mid), now) == Held(c, bs, key, now)
  {
    if key in bs { RefillComposes(c, bs[key], mid, now); } else { GainGrows(c, 0, now - mid); }
  }

  /** Making room changes what no key holds, except the one evicted. */
  lemma RoomKeepsHeld(c: Config, s: State, call: Call, key: string)
    requires c.rate > 0.0 && Inv(c, s, call.now)
    ensures !Loses(c, s, call, key) ==>
            Held(c, Roomy(c, s, call).buckets, key, call.now) == Held(c, s.buckets, key, call.now)
    ensures Loses(c, s, call, key) ==> Held(c, Roomy(c, s, call).buckets, key, call.now) == FullBucket(c, call.now)
  {
    if key in s.buckets && Refilled(c, s.buckets[key], call.now) {
      var b := s.buckets[key];
      assert Gain(c, 0) == 0.0;
      assert Refill(c, b, call.now) == FullBucket(c, call.now);
    }
  }

  ghost predicate NeverLoses(c: Config, s: State, calls: seq<Call>, key: string)
    requires c.rate > 0.0
    decreases |calls|
  {
    calls != [] ==>
      var front := calls[..|calls| - 1];
      NeverLoses(c, s, front, key) && !Loses(c, Run(c, s, front), calls[|calls| - 1], key)
  }

  /** A limiter that never sweeps and never evicts. */
  ghost function Unswept(c: Config, calls: seq<Call>): Buckets
    requires c.rate > 0.0
  {
    if calls == [] then map[]
    else
      var bs, call := Unswept(c, calls[..|calls| - 1]), calls[|calls| - 1];
      bs[call.key := Take(c, Held(c, bs, call.key, call.now)).0]
  }

  lemma {:induction false} UnsweptInv(c: Config, start: int, calls: seq<Call>)
    requires c.rate > 0.0 && Ordered(start, calls)
    ensures forall k :: k in Unswept(c, calls) ==> BucketInv(c, Unswept(c, calls)[k], Clock(start, calls))
  {
    if calls == [] {
    } else {
      var front, call := calls[..|calls| - 1], calls[|calls| - 1];
      UnsweptInv(c, start, front);
      HeldInv(c, Unswept(c, front), call.key, call.now);
    }
  }

  /** As long as key is not evicted, it holds at every moment what it would hold had nothing ever
      been swept. */
  lemma {:induction false} HoldsTheSame(c: Config, start: int, calls: seq<Call>, key: string, t: int)
    requires c.rate > 0.0 && Ordered(start, calls) && NeverLoses(c, State(map[], start), calls, key) &&
             Clock(start, calls) <= t
    ensures Held(c, Run(c, State(map[], start), calls).buckets, key, t) == Held(c, Unswept(c, calls), key, t)
  {
    if calls == [] {
    } else {
      var front, call := calls[..|calls| - 1], calls[|calls| - 1];
      var s, u := Run(c, State(map[], start), front), Unswept(c, front);
      RunInv(c, State(map[], start), front, start);
      RunInv(c, State(map[], start), calls, start);
      UnsweptInv(c, start, front);
      UnsweptInv(c, start, calls);
      HoldsTheSame(c, start, front, key, call.now);
      RoomKeepsHeld(c, s, call, key);
      HeldInv(c, s.buckets, key, call.now);
      SameAfterStep(c, s, u, call, key);
      HeldComposes(c, Run(c, State(map[], start), calls).buckets, key, call.now, t);
      HeldComposes(c, Unswept(c, calls), key, call.now, t);
    }
  }

  lemma SameAfterStep(c: Config, s: State, u: Buckets, call: Call, key: string)
    requires c.rate > 0.0
    requires var r := Roomy(c, s, call); Held(c, r.buckets, key, call.now) == Held(c, u, key, call.now)
    ensures Held(c, Step(c, s, call).0.buckets, key, call.now) ==
            Held(c, u[call.key := Take(c, Held(c, u, call.key, call.now)).0], key, call.now)
  {
  }

  /** With no eviction of its key, every call is answered, waits included, as by a limiter that
      forgets nothing. */
  lemma AnswersLikeUnswept(c: Config, start: int, calls: seq<Call>, call: Call)
    requires c.rate > 0.0 && Ordered(start, calls + [call])
    requires NeverLoses(c, State(map[], start), calls, call.key)
    ensures Step(c, Run(c, State(map[], start), calls), call).1 ==
            Take(c, Held(c, Unswept(c, calls), call.key, call.now)).1
  {
    var s := Run(c, State(map[], start), calls);
    assert (calls + [call])[|calls|] == call && forall i :: 0 <= i < |calls| ==> (calls + [call])[i] == calls[i];
    assert Clock(start, calls) <= call.now;
    HoldsTheSame(c, start, calls, call.key, call.now);
    RunInv(c, State(map[], start), calls, start);
    RoomKeepsHeld(c, s, call, call.key);
  }

  // ---- How much a key can get ----------------------------------------------------------------------

  /** One line of key's account: did this call take a token for it, did it evict it, what key holds
      afterwards, and how long after the call before did it come? */
  datatype Entry = Entry(accepted: bool, evicted: bool, held: real, elapsed: int)

  ghost function Account(c: Config, s: State, from: int, calls: seq<Call>, key: string): (log: seq<Entry>)
    requires c.rate > 0.0
    ensures |log| == |calls|
    decreases |calls|
  {
    if calls == [] then []
    else
      var front, call := calls[..|calls| - 1], calls[|calls| - 1];
      var q := Run(c, s, front);
      var (after, answer) := Step(c, q, call);
      Account(c, s, from, front, key) +
        [Entry(call.key == key && answer.ok, Loses(c, q, call, key), Held(c, after.buckets, key, call.now).tokens,
               call.now - Clock(from, front))]
  }

  ghost function Accepted(log: seq<Entry>): nat {
    if log == [] then 0 else Accepted(log[..|log| - 1]) + if log[|log| - 1].accepted then 1 else 0
  }

  ghost function Evicted(log: seq<Entry>): nat {
    if log == [] then 0 else Evicted(log[..|log| - 1]) + if log[|log| - 1].evicted then 1 else 0
  }

  ghost function Elapsed(log: seq<Entry>): int {
    if log == [] then 0 else Elapsed(log[..|log| - 1]) + log[|log| - 1].elapsed
  }

  ghost function Balance(opening: real, log: seq<Entry>): real { if log == [] then opening else log[|log| - 1].held }

  /** Each line pays for what it takes: time adds what it earned, an eviction at most a burst. */
  ghost predicate Pays(c: Config, opening: real, e: Entry) {
    e.held + (if e.accepted then 1.0 else 0.0) <= opening + Gain(c, e.elapsed) + if e.evicted then c.burst else 0.0
  }

  ghost predicate Audited(c: Config, opening: real, log: seq<Entry>)
    decreases |log|
  {
    log != [] ==>
      Audited(c, opening, log[..|log| - 1]) && Pays(c, Balance(opening, log[..|log| - 1]), log[|log| - 1])
  }

  lemma {:induction false} AuditedSum(c: Config, opening: real, log: seq<Entry>)
    requires Audited(c, opening, log)
    ensures Balance(opening, log) + Accepted(log) as real <= opening + Gain(c, Elapsed(log)) +
            c.burst * Evicted(log) as real
  {
    if log == [] {
      assert Gain(c, 0) == 0.0;
    } else {
      var front, e := log[..|log| - 1], log[|log| - 1];
      AuditedSum(c, opening, front);
      GainAdds(c, Elapsed(front), e.elapsed);
      assert c.burst * (Evicted(front) + 1) as real == c.burst * Evicted(front) as real + c.burst;
    }
  }

  /** At most a burst, what the rate yields in the time, and a burst for each eviction. */
  ghost predicate WithinAllowance(c: Config, log: seq<Entry>) {
    Accepted(log) as real <= c.burst + Gain(c, Elapsed(log)) + c.burst * Evicted(log) as real
  }

  lemma AuditedBound(c: Config, opening: real, log: seq<Entry>)
    requires Audited(c, opening, log) && opening <= c.burst && Balance(opening, log) >= 0.0
    ensures WithinAllowance(c, log)
  {
    AuditedSum(c, opening, log);
  }

  lemma HeldGrows(c: Config, bs: Buckets, key: string, t: int, now: int)
    requires c.rate > 0.0 && (key in bs ==> BucketInv(c, bs[key], t)) && t <= now
    ensures Held(c, bs, key, now).tokens <= Held(c, bs, key, t).tokens + Gain(c, now - t)
  {
    HeldComposes(c, bs, key, t, now);
    GainGrows(c, 0, now - t);
  }

  lemma StepPays(c: Config, s: State, from: int, call: Call, key: string)
    requires c.rate > 0.0 && c.burst >= 0.0 && Inv(c, s, from) && from <= call.now
    ensures Pays(c, Held(c, s.buckets, key, from).tokens,
              Entry(call.key == key && Step(c, s, call).1.ok, Loses(c, s, call, key),
                    Held(c, Step(c, s, call).0.buckets, key, call.now).tokens, call.now - from))
  {
    HeldGrows(c, s.buckets, key, from, call.now);
    HeldInv(c, s.buckets, key, from);
    GainGrows(c, 0, call.now - from);
    RoomKeepsHeld(c, s, call, key);
    HeldInv(c, Roomy(c, s, call).buckets, key, call.now);
  }

  lemma {:induction false} AccountIsAudited(c: Config, s: State, from: int, calls: seq<Call>, key: string)
    requires c.rate > 0.0 && c.burst >= 0.0 && Inv(c, s, from) && Ordered(from, calls)
    ensures var opening, log := Held(c, s.buckets, key, from).tokens, Account(c, s, from, calls, key);
            Audited(c, opening, log) && Balance(opening, log) ==
              Held(c, Run(c, s, calls).buckets, key, Clock(from, calls)).tokens
  {
    hide Gain;
    if calls == [] {
    } else {
      var front, log := calls[..|calls| - 1], Account(c, s, from, calls, key);
      AccountIsAudited(c, s, from, front, key);
      RunInv(c, s, front, from);
      StepPays(c, Run(c, s, front), Clock(from, front), calls[|calls| - 1], key);
      assert log[..|log| - 1] == Account(c, s, from, front, key);
    }
  }

  lemma {:induction false} ElapsedIsWindow(c: Config, s: State, from: int, calls: seq<Call>, key: string)
    requires c.rate > 0.0
    ensures Elapsed(Account(c, s, from, calls, key)) == Clock(from, calls) - from
  {
    if calls == [] {
    } else {
      var front, log := calls[..|calls| - 1], Account(c, s, from, calls, key);
      ElapsedIsWindow(c, s, from, front, key);
      assert log[..|log| - 1] == Account(c, s, from, front, key);
    }
  }

  lemma RefusedWithoutBurst(c: Config, s: State, from: int, call: Call)
    requires c.rate > 0.0 && c.burst < 1.0 && Inv(c, s, from) && from <= call.now
    ensures !Step(c, s, call).1.ok
  {
    HeldInv(c, Roomy(c, s, call).buckets, call.key, call.now);
  }

  lemma {:induction false} NothingWithoutBurst(c: Config, s: State, from: int, calls: seq<Call>, key: string)
    requires c.rate > 0.0 && c.burst < 1.0 && Inv(c, s, from) && Ordered(from, calls)
    ensures Accepted(Account(c, s, from, calls, key)) == 0
  {
    if calls == [] {
    } else {
      var front, log := calls[..|calls| - 1], Account(c, s, from, calls, key);
      NothingWithoutBurst(c, s, from, front, key);
      RunInv(c, s, front, from);
      RefusedWithoutBurst(c, Run(c, s, front), Clock(from, front), calls[|calls| - 1]);
      assert log[..|log| - 1] == Account(c, s, from, front, key);
    }
  }

  lemma HeldIsInRange(c: Config, s: State, key: string, now: int)
    requires c.rate > 0.0 && c.burst >= 0.0 && Inv(c, s, now)
    ensures 0.0 <= Held(c, s.buckets, key, now).tokens <= c.burst
  {
    HeldInv(c, s.buckets, key, now);
  }

  /** In a window of D nanoseconds anywhere in a run, the calls accepted for one key number at most
      burst + rate * D + burst * (times it was evicted in the window); none with a burst below 1. */
  lemma WindowIsBounded(c: Config, start: int, before: seq<Call>, window: seq<Call>, from: int, key: string)
    requires c.rate > 0.0 && Ordered(start, before) && Clock(start, before) <= from && Ordered(from, window)
    ensures var log := Account(c, Run(c, State(map[], start), before), from, window, key);
            Elapsed(log) == Clock(from, window) - from &&
            if c.burst < 1.0 then Accepted(log) == 0 else WithinAllowance(c, log)
  {
    hide Gain, WithinAllowance;
    var s := Run(c, State(map[], start), before);
    RunInv(c, State(map[], start), before, start);
    ElapsedIsWindow(c, s, from, window, key);
    if c.burst < 1.0 {
      NothingWithoutBurst(c, s, from, window, key);
    } else {
      AccountIsAudited(c, s, from, window, key);
      RunInv(c, s, window, from);
      HeldIsInRange(c, s, key, from);
      HeldIsInRange(c, Run(c, s, window), key, Clock(from, window));
      AuditedBound(c, Held(c, s.buckets, key, from).tokens, Account(c, s, from, window, key));
    }
  }

  // ---- What a key must get ---------------------------------------------------------------------------

  /** What key has at now, from what it held at from: time adds Gain, up to a burst. */
  ghost function Available(c: Config, s: State, key: string, from: int, now: int): real {
    Min(c.burst, Held(c, s.buckets, key, from).tokens + Gain(c, now - from))
  }

  lemma HeldIsAvailable(c: Config, s: State, key: string, from: int, now: int)
    requires c.rate > 0.0 && Inv(c, s, from) && from <= now
    ensures Held(c, s.buckets, key, now).tokens == Available(c, s, key, from, now)
  {
    HeldComposes(c, s.buckets, key, from, now);
    HeldInv(c, s.buckets, key, from);
    assert Gain(c, 0) == 0.0;
  }

  /** The balance, with equality: a call is accepted exactly when its key has a whole token, it then
      takes exactly one, and a key that is neither calling nor evicted keeps what it has. */
  lemma StepBalances(c: Config, s: State, from: int, call: Call, key: string)
    requires c.rate > 0.0 && Inv(c, s, from) && from <= call.now && !Loses(c, s, call, key)
    ensures var (after, answer) := Step(c, s, call);
            var has := Available(c, s, key, from, call.now);
            (call.key == key ==> (answer.ok <==> has >= 1.0) && (answer.ok ==> answer.wait == 0)) &&
            Held(c, after.buckets, key, call.now).tokens == has - if call.key == key && has >= 1.0 then 1.0 else 0.0
  {
    hide Gain;
    HeldIsAvailable(c, s, key, from, call.now);
    HeldInv(c, s.buckets, key, from);
    InvLater(c, s, from, call.now);
    RoomKeepsHeld(c, s, call, key);
    HeldInv(c, Roomy(c, s, call).buckets, key, call.now);
  }

  lemma InvLater(c: Config, s: State, from: int, now: int)
    requires Inv(c, s, from) && from <= now
    ensures Inv(c, s, now)
  {
  }

  lemma {:induction false} RunOn(c: Config, s: State, a: seq<Call>, b: seq<Call>)
    requires c.rate > 0.0
    ensures Run(c, s, a + b) == Run(c, Run(c, s, a), b)
    decreases |b|
  {
    if b == [] {
      assert a + b == a;
    } else {
      assert (a + b)[..|a + b| - 1] == a + b[..|b| - 1];
      RunOn(c, s, a, b[..|b| - 1]);
    }
  }

  /** How many of these calls are key's and accepted. */
  ghost function Taken(c: Config, s: State, calls: seq<Call>, key: string): nat
    requires c.rate > 0.0
    decreases |calls|
  {
    if calls == [] then 0
    else
      var front, call := calls[..|calls| - 1], calls[|calls| - 1];
      Taken(c, s, front, key) + if call.key == key && Step(c, Run(c, s, front), call).1.ok then 1 else 0
  }

  lemma {:induction false} TakenIsAccepted(c: Config, s: State, from: int, calls: seq<Call>, key: string)
    requires c.rate > 0.0
    ensures Accepted(Account(c, s, from, calls, key)) == Taken(c, s, calls, key)
  {
    hide Step, Run, Loses, Held;
    if calls == [] {
    } else {
      var log := Account(c, s, from, calls, key);
      TakenIsAccepted(c, s, from, calls[..|calls| - 1], key);
      assert log[..|log| - 1] == Account(c, s, from, calls[..|calls| - 1], key);
    }
  }

  /** From t0 on, when key holds a burst, these calls and the time take everything it lacks at t: it was
      never full in between, and never evicted. */
  ghost predicate Spends(c: Config, s: State, t0: int, window: seq<Call>, key: string, t: int)
    requires c.rate > 0.0
  {
    Ordered(t0, window) && Clock(t0, window) <= t && NeverLoses(c, s, window, key) &&
    Held(c, s.buckets, key, t0).tokens == c.burst &&
    Held(c, Run(c, s, window).buckets, key, t).tokens ==
      c.burst + Gain(c, t - t0) - Taken(c, s, window, key) as real
  }

  lemma FullSpends(c: Config, s: State, key: string, t: int)
    requires c.rate > 0.0 && Held(c, s.buckets, key, t).tokens == c.burst
    ensures Spends(c, s, t, [], key, t)
  {
    assert Gain(c, 0) == 0.0;
  }

  /** What one call and the time since do to the balance, when no cap is reached. */
  lemma StepSpends(c: Config, s: State, from: int, call: Call, key: string, t: int)
    requires c.rate > 0.0 && Inv(c, s, from) && from <= call.now <= t && !Loses(c, s, call, key)
    ensures var (after, answer) := Step(c, s, call);
            var held := Held(c, after.buckets, key, t).tokens;
            held == c.burst ||
            held == Held(c, s.buckets, key, call.now).tokens + Gain(c, t - call.now) -
                    if call.key == key && answer.ok then 1.0 else 0.0
  {
    hide Gain, Held, Step, Loses;
    StepInv(c, s, call, from);
    StepBalances(c, s, from, call, key);
    HeldIsAvailable(c, s, key, from, call.now);
    HeldIsAvailable(c, Step(c, s, call).0, key, call.now, t);
  }

  lemma SpendsOn(c: Config, s: State, t0: int, window: seq<Call>, call: Call, key: string, t: int)
    requires c.rate > 0.0 && Inv(c, s, t0) && Spends(c, s, t0, window, key, call.now) && call.now <= t
    requires !Loses(c, Run(c, s, window), call, key)
    requires Held(c, Run(c, s, window + [call]).buckets, key, t).tokens != c.burst
    ensures Spends(c, s, t0, window + [call], key, t)
  {
    hide Gain, Held, Step, Loses, Inv;
    assert (window + [call])[..|window|] == window;
    RunInv(c, s, window, t0);
    StepSpends(c, Run(c, s, window), Clock(t0, window), call, key, t);
    GainAdds(c, call.now - t0, t - call.now);
  }

  /** Every moment of a run has such a beginning. */
  lemma {:induction false} SomeBeginning(c: Config, start: int, calls: seq<Call>, key: string, t: int)
    returns (before: seq<Call>, window: seq<Call>, t0: int)
    requires c.rate > 0.0 && Ordered(start, calls) && Clock(start, calls) <= t
    ensures calls == before + window && Ordered(start, before) && Clock(start, before) <= t0 <= t
    ensures Spends(c, Run(c, State(map[], start), before), t0, window, key, t)
    decreases |calls|
  {
    hide Spends, Gain, Held, Step, Loses, Inv;
    var s0 := State(map[], start);
    if Held(c, Run(c, s0, calls).buckets, key, t).tokens == c.burst {
      FullSpends(c, Run(c, s0, calls), key, t);
      before, window, t0 := calls, [], t;
    } else if calls == [] {
      FreshIsFull(c, start, key, t);
    } else {
      var front, call := calls[..|calls| - 1], calls[|calls| - 1];
      if Loses(c, Run(c, s0, front), call, key) {
        LostIsFull(c, start, front, call, key, t);
      } else {
        var w;
        before, w, t0 := SomeBeginning(c, start, front, key, call.now);
        window := w + [call];
        assert calls == front + [call] == before + window;
        RunOn(c, s0, before, w);
        RunOn(c, s0, before, window);
        BeginningInv(c, start, before, t0);
        SpendsOn(c, Run(c, s0, before), t0, w, call, key, t);
      }
    }
  }

  lemma BeginningInv(c: Config, start: int, before: seq<Call>, t0: int)
    requires c.rate > 0.0 && Ordered(start, before) && Clock(start, before) <= t0
    ensures Inv(c, Run(c, State(map[], start), before), t0)
  {
    RunInv(c, State(map[], start), before, start);
  }

  lemma FreshIsFull(c: Config, start: int, key: string, t: int)
    requires c.rate > 0.0
    ensures Held(c, Run(c, State(map[], start), []).buckets, key, t).tokens == c.burst
  {
  }

  lemma LostIsFull(c: Config, start: int, front: seq<Call>, call: Call, key: string, t: int)
    requires c.rate > 0.0 && Ordered(start, front) && Clock(start, front) <= call.now <= t
    requires Loses(c, Run(c, State(map[], start), front), call, key)
    ensures Held(c, Step(c, Run(c, State(map[], start), front), call).0.buckets, key, t).tokens == c.burst
  {
    assert call.key != key && key !in Step(c, Run(c, State(map[], start), front), call).0.buckets;
  }

  /** The converse of WindowIsBounded: whenever a call is refused, some window ending with it, in which
      its key was not evicted, has had its whole allowance: accepted + 1 > burst + rate * length. */
  lemma RefusedHadItsShare(c: Config, start: int, calls: seq<Call>, call: Call)
    returns (before: seq<Call>, window: seq<Call>, t0: int)
    requires c.rate > 0.0 && Ordered(start, calls) && Clock(start, calls) <= call.now
    requires !Step(c, Run(c, State(map[], start), calls), call).1.ok
    ensures calls == before + window && Clock(start, before) <= t0 <= call.now && Ordered(t0, window)
    ensures var s := Run(c, State(map[], start), before);
            NeverLoses(c, s, window, call.key) &&
            Taken(c, s, window, call.key) as real + 1.0 > c.burst + Gain(c, call.now - t0)
  {
    hide Gain, Held, Step, Loses, Run;
    var s0 := State(map[], start);
    before, window, t0 := SomeBeginning(c, start, calls, call.key, call.now);
    RunOn(c, s0, before, window);
    var s := Run(c, s0, calls);
    RunInv(c, s0, calls, start);
    CallerIsNotLost(c, s, call);
    StepBalances(c, s, Clock(start, calls), call, call.key);
    HeldIsAvailable(c, s, call.key, Clock(start, calls), call.now);
  }

  lemma CallerIsNotLost(c: Config, s: State, call: Call)
    ensures !Loses(c, s, call, call.key)
  {
  }

  /** A bucket is evicted only to make room for another key, when maxKeys buckets that have not
      refilled are held. */
  lemma EvictionNeedsFullTable(c: Config, s: State, call: Call, key: string)
    requires Loses(c, s, call, key)
    ensures call.key !in s.buckets || Refilled(c, s.buckets[call.key], call.now)
    ensures |set k | k in s.buckets && !Refilled(c, s.buckets[k], call.now)| >= c.maxKeys
  {
    var left := Swept(c, Timed(c, s, call.now).buckets, call.now);
    assert left.Keys == set k | k in s.buckets && !Refilled(c, s.buckets[k], call.now);
  }

  function Repeat(call: Call, n: nat): seq<Call> { seq(n, _ => call) }

  /** A key with a full bucket gets floor(burst) calls at one instant, and no more. */
  lemma {:induction false} BurstAtOnce(c: Config, s: State, call: Call, n: nat)
    requires c.rate > 0.0 && c.burst >= 0.0 && Inv(c, s, call.now)
    requires Held(c, s.buckets, call.key, call.now).tokens == c.burst
    ensures var q := Run(c, s, Repeat(call, n));
            (Step(c, q, call).1.ok <==> n < c.burst.Floor) &&
            Inv(c, q, call.now) && Held(c, q.buckets, call.key, call.now).tokens == Left(c.burst, n)
  {
    hide Gain, Held, Step, Loses, Left, Inv;
    var q := Run(c, s, Repeat(call, n));
    LeftAfterOne(c.burst, n);
    if n == 0 {
      assert Repeat(call, 0) == [];
    } else {
      var p := Run(c, s, Repeat(call, n - 1));
      BurstAtOnce(c, s, call, n - 1);
      LeftAfterOne(c.burst, n - 1);
      assert Repeat(call, n)[..n - 1] == Repeat(call, n - 1);
      StepInv(c, p, call, call.now);
      OneMore(c, p, call);
    }
    OneMore(c, q, call);
  }

  /** What n calls leave of a burst: they take a token each as long as there is a whole one. */
  function Left(burst: real, n: nat): real
    requires burst >= 0.0
  {
    burst - (if n < burst.Floor then n else burst.Floor) as real
  }

  lemma LeftAfterOne(burst: real, n: nat)
    requires burst >= 0.0
    ensures Left(burst, 0) == burst && (Left(burst, n) >= 1.0 <==> n < burst.Floor)
    ensures Left(burst, n + 1) == Left(burst, n) - if n < burst.Floor then 1.0 else 0.0
  {
    var k := burst.Floor;
    if n < k {
      assert (n + 1) as real == n as real + 1.0 && (n + 1) as real <= k as real;
    }
  }

  lemma OneMore(c: Config, s: State, call: Call)
    requires c.rate > 0.0 && Inv(c, s, call.now)
    ensures var has := Held(c, s.buckets, call.key, call.now).tokens;
            (Step(c, s, call).1.ok <==> has >= 1.0) &&
            Held(c, Step(c, s, call).0.buckets, call.key, call.now).tokens == has - if has >= 1.0 then 1.0 else 0.0
  {
    hide Gain, Held, Step, Loses;
    CallerIsNotLost(c, s, call);
    StepBalances(c, s, call.now, call, call.key);
    HeldIsAvailable(c, s, call.key, call.now, call.now);
  }

  // ---- The wait that is returned ---------------------------------------------------------------------

  /** Calls for other keys leave what key holds alone. */
  lemma {:induction false} OthersKeepHeld(c: Config, s: State, from: int, calls: seq<Call>, key: string, t: int)
    requires c.rate > 0.0 && Inv(c, s, from) && Ordered(from, calls) && Clock(from, calls) <= t
    requires NeverLoses(c, s, calls, key) && forall i :: 0 <= i < |calls| ==> calls[i].key != key
    ensures Held(c, Run(c, s, calls).buckets, key, t) == Held(c, s.buckets, key, t)
  {
    if calls == [] {
    } else {
      var front, call := calls[..|calls| - 1], calls[|calls| - 1];
      var q := Run(c, s, front);
      RunInv(c, s, front, from);
      RunInv(c, s, calls, from);
      OthersKeepHeld(c, s, from, front, key, call.now);
      RoomKeepsHeld(c, q, call, key);
      HeldComposes(c, Run(c, s, calls).buckets, key, call.now, t);
      HeldComposes(c, s.buckets, key, call.now, t);
    }
  }

  /** A bucket short of a token at now has one at t exactly when the exact wait has passed. */
  lemma TokenArrives(c: Config, b: Bucket, t: int)
    requires c.rate > 0.0 && c.burst >= 1.0 && b.tokens < 1.0 && b.last <= t
    ensures Refill(c, b, t).tokens >= 1.0 <==> (t - b.last) as real >= ExactWait(c, b.tokens)
    ensures ExactWait(c, b.tokens) > 0.0
  {
    var d, r, n := (t - b.last) as real, c.rate, 1.0 - b.tokens;
    assert r > 0.0 && Gain(c, t - b.last) == d / 1000000000.0 * r;
    Scale(d, n, r);
    assert Gain(c, 0) == 0.0;
  }

  lemma Scale(d: real, n: real, r: real)
    requires r > 0.0 && n > 0.0
    ensures d / 1000000000.0 * r >= n <==> d >= n / r * 1000000000.0
    ensures n / r * 1000000000.0 > 0.0
  {
    var x := n / r;
    assert x * r == n && x > 0.0;
    var e := d / 1000000000.0;
    assert e >= x <==> e * r >= x * r;
  }

  /** The wait is right to the nanosecond: after a refusal at now, and as long as only other keys
      call and this one is not evicted, the key is refused until now + wait, accepted from
      now + wait + 1 on, and accepted at now + wait itself just when the exact wait is whole. */
  lemma WaitIsExact(c: Config, s: State, from: int, refused: Call, others: seq<Call>, again: Call)
    requires c.rate > 0.0 && c.burst >= 1.0 && Inv(c, s, from) && from <= refused.now
    requires !Step(c, s, refused).1.ok && again.key == refused.key
    requires var q := Step(c, s, refused).0;
             Ordered(refused.now, others) && Clock(refused.now, others) <= again.now &&
               NeverLoses(c, q, others, refused.key)
    requires forall i :: 0 <= i < |others| ==> others[i].key != refused.key
    ensures var q, wait := Step(c, s, refused).0, Step(c, s, refused).1.wait;
            var exact := ExactWait(c, q.buckets[refused.key].tokens);
            var ok := Step(c, Run(c, q, others), again).1.ok;
            0 <= wait && wait == exact.Floor &&
            (ok <==> (again.now - refused.now) as real >= exact) &&
            (again.now < refused.now + wait ==> !ok) && (again.now > refused.now + wait ==> ok) &&
            (again.now == refused.now + wait ==> (ok <==> exact == wait as real))
  {
    var q, key := Step(c, s, refused).0, refused.key;
    StepInv(c, s, refused, from);
    HeldInv(c, Roomy(c, s, refused).buckets, key, refused.now);
    RunInv(c, q, others, refused.now);
    OthersKeepHeld(c, q, refused.now, others, key, again.now);
    RoomKeepsHeld(c, Run(c, q, others), again, key);
    TokenArrives(c, q.buckets[key], again.now);
  }

  /** Retry-After: whole seconds, rounded up, at least 1. */
  function RetryAfter(wait: nat): (secs: nat)
    ensures secs >= 1 && secs * SECOND >= wait
    ensures secs > 1 ==> (secs - 1) * SECOND < wait
  {
    var up := (wait + SECOND - 1) / SECOND;
    if up < 1 then 1 else up
  }

  /** Waiting for Retry-After is enough, except when the truncated wait is itself a positive whole
      number of seconds and something was cut off. */
  lemma RetryAfterSuffices(c: Config, tokens: real)
    requires c.rate > 0.0 && tokens < 1.0
    ensures var exact := ExactWait(c, tokens); var wait := exact.Floor;
            0 <= wait && ((RetryAfter(wait) * SECOND) as real >= exact <==>
              exact == wait as real || wait % SECOND != 0 || wait == 0)
  {
    Scale(0.0, 1.0 - tokens, c.rate);
    var wait := ExactWait(c, tokens).Floor;
    assert wait % SECOND == 0 && wait > 0 ==> RetryAfter(wait) * SECOND == wait;
    assert wait % SECOND != 0 ==> RetryAfter(wait) * SECOND > wait;
  }

  /** So a client that comes back when Retry-After says is served, if its key was not evicted and
      nobody else used it, except in that case. */
  lemma ComingBackWorksIff(c: Config, s: State, from: int, refused: Call, others: seq<Call>, again: Call)
    requires c.rate > 0.0 && c.burst >= 1.0 && Inv(c, s, from) && from <= refused.now
    requires !Step(c, s, refused).1.ok && again.key == refused.key && Step(c, s, refused).1.wait >= 0
    requires again.now == refused.now + RetryAfter(Step(c, s, refused).1.wait) * SECOND
    requires var q := Step(c, s, refused).0;
             Ordered(refused.now, others) && Clock(refused.now, others) <= again.now &&
               NeverLoses(c, q, others, refused.key)
    requires forall i :: 0 <= i < |others| ==> others[i].key != refused.key
    ensures var q, wait := Step(c, s, refused).0, Step(c, s, refused).1.wait;
            Step(c, Run(c, q, others), again).1.ok <==>
              wait == 0 || wait % SECOND != 0 || ExactWait(c, q.buckets[refused.key].tokens) == wait as real
  {
    hide Gain, Step, ExactWait, RetryAfter;
    WaitIsExact(c, s, from, refused, others, again);
    RefusedShort(c, s, refused);
    RetryAfterSuffices(c, Step(c, s, refused).0.buckets[refused.key].tokens);
  }

  lemma RefusedShort(c: Config, s: State, call: Call)
    requires c.rate > 0.0 && !Step(c, s, call).1.ok
    ensures var q := Step(c, s, call).0; call.key in q.buckets && q.buckets[call.key].tokens < 1.0
  {
    hide Gain;
  }

  /** The exception happens: at 7 a minute with burst 1, a key refused 571428571 ns after its only
      accepted call is told to come back in 8 seconds and is refused again when it does. */
  lemma RetryAfterCanBeEarly()
    ensures var c := Configured(7, 1, 10, 60 * SECOND);
            var one := Step(c, State(map[], 0), Call("k", 0, ""));
            var two := Step(c, one.0, Call("k", 571428571, ""));
            one.1.ok && !two.1.ok && two.1.wait == 8 * SECOND && RetryAfter(two.1.wait) == 8 &&
            !Step(c, two.0, Call("k", 571428571 + 8 * SECOND, "")).1.ok
  {
    var c := Configured(7, 1, 10, 60 * SECOND);
    var s0 := State(map[], 0);
    assert Timed(c, s0, 0) == s0;
    var one := Step(c, s0, Call("k", 0, ""));
    assert one.0.buckets == map["k" := Bucket(0.0, 0)];
    var two := Step(c, one.0, Call("k", 571428571, ""));
    assert two.0.buckets == map["k" := Bucket(Gain(c, 571428571), 571428571)];
  }
}
