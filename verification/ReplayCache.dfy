/** The bounded cache of one-time ids, and its use to spend a passkey challenge. Times are
    nanoseconds. */
module ReplayCache {

  const SECOND := 1000000000
  const DEFAULT_SIZE := 10000

  type Entries = map<string, int>

  /** One call of Use, at the instant now. */
  datatype Request = Request(id: string, expires: int, now: int)

  predicate Live(es: Entries, id: string, now: int) { id in es && now < es[id] }

  function LiveIds(es: Entries, now: int): set<string> { set id | id in es && now < es[id] }

  function Swept(es: Entries, now: int): Entries { map id | id in es && now < es[id] :: es[id] }

  /** The entries after one request, and its answer. */
  function Step(max: nat, es: Entries, r: Request): (Entries, bool) {
    if Live(es, r.id, r.now) then (es, false)
    else
      var kept := if |es| >= max then Swept(es, r.now) else es;
      if |kept| >= max then (kept, false) else (kept[r.id := r.expires], true)
  }

  class Cache {
    const max: nat
    var entries: Entries

    ghost predicate Valid()
      reads this
    {
      0 < max && |entries| <= max
    }

    constructor (size: int)
      ensures Valid() && entries == map[] && max == if size <= 0 then 10000 else size
    {
      max := if size <= 0 then DEFAULT_SIZE else size;
      entries := map[];
    }

    /** Refused exactly when the id is live or max live ids are held. */
    method Use(id: string, expires: int, now: int) returns (ok: bool)
      requires Valid()
      modifies this
      ensures Valid()
      ensures !ok <==> Live(old(entries), id, now) || |LiveIds(old(entries), now)| >= max
      ensures (entries, ok) == Step(max, old(entries), Request(id, expires, now))
    {
      SweptIsLive(entries, now);
      if id in entries && now < entries[id] { return false; }
      if |entries| >= max {
        var keys := entries.Keys;
        while keys != {}
          invariant keys <= old(entries).Keys
          invariant forall k :: k in entries <==> k in old(entries) && (k in keys || now < old(entries)[k])
          invariant forall k :: k in entries ==> entries[k] == old(entries)[k]
          decreases |keys|
        {
          var k :| k in keys;
          keys := keys - {k};
          if entries[k] <= now { entries := entries - {k}; }
        }
        assert entries == Swept(old(entries), now);
        if |entries| >= max { return false; }
      }
      assert (entries[id := expires]).Keys == entries.Keys + {id};
      entries := entries[id := expires];
      return true;
    }
  }

  lemma SweptIsLive(es: Entries, now: int)
    ensures |Swept(es, now)| == |LiveIds(es, now)| <= |es|
  {
    assert Swept(es, now).Keys == LiveIds(es, now);
    assert es.Keys == LiveIds(es, now) + (es.Keys - LiveIds(es, now));
  }

  // ---- Runs, against a memory that never forgets ---------------------------------------------------

  ghost predicate Ordered(rs: seq<Request>) {
    forall i :: 0 < i < |rs| ==> rs[i - 1].now <= rs[i].now
  }

  ghost function Run(max: nat, rs: seq<Request>): Entries {
    if rs == [] then map[] else Step(max, Run(max, rs[..|rs| - 1]), rs[|rs| - 1]).0
  }

  /** The answer to the last request of a run. */
  ghost predicate Accepts(max: nat, rs: seq<Request>)
    requires rs != []
  {
    Step(max, Run(max, rs[..|rs| - 1]), rs[|rs| - 1]).1
  }

  /** Every id ever accepted, with the expiry it was last accepted with. */
  ghost function Memory(max: nat, rs: seq<Request>): Entries {
    if rs == [] then map[]
    else
      var m, r := Memory(max, rs[..|rs| - 1]), rs[|rs| - 1];
      if !Live(m, r.id, r.now) && |LiveIds(m, r.now)| < max then m[r.id := r.expires] else m
  }

  /** The cache remembers what the memory does, except for ids that have expired. */
  ghost predicate Agree(es: Entries, m: Entries, now: int) {
    (forall id :: id in es ==> id in m && m[id] == es[id]) && (forall id :: id in m && id !in es ==> m[id] <= now)
  }

  lemma StepAgrees(max: nat, es: Entries, m: Entries, before: int, r: Request)
    requires 0 < max && Agree(es, m, before) && before <= r.now
    ensures LiveIds(es, r.now) == LiveIds(m, r.now)
    ensures Step(max, es, r).1 <==> !Live(m, r.id, r.now) && |LiveIds(m, r.now)| < max
    ensures Agree(Step(max, es, r).0, if Step(max, es, r).1 then m[r.id := r.expires] else m, r.now)
  {
    assert LiveIds(es, r.now) == LiveIds(m, r.now);
    SweptIsLive(es, r.now);
  }

  lemma {:induction false} RunAgrees(max: nat, rs: seq<Request>)
    requires 0 < max && Ordered(rs)
    ensures rs != [] ==> Agree(Run(max, rs), Memory(max, rs), rs[|rs| - 1].now)
    ensures rs == [] ==> Run(max, rs) == Memory(max, rs) == map[]
  {
    if rs == [] {
    } else {
      var front, r := rs[..|rs| - 1], rs[|rs| - 1];
      RunAgrees(max, front);
      StepAgrees(max, Run(max, front), Memory(max, front), if front == [] then r.now else front[|front| - 1].now, r);
    }
  }

  /** Over any run on a clock that never goes back, the bounded cache answers as one that remembers
      every id for ever and limits only the number of live ones. */
  lemma AnswersLikeMemory(max: nat, rs: seq<Request>)
    requires 0 < max && rs != [] && Ordered(rs)
    ensures var m, r := Memory(max, rs[..|rs| - 1]), rs[|rs| - 1];
            Accepts(max, rs) <==> !Live(m, r.id, r.now) && |LiveIds(m, r.now)| < max
  {
    var front, r := rs[..|rs| - 1], rs[|rs| - 1];
    RunAgrees(max, front);
    StepAgrees(max, Run(max, front), Memory(max, front), if front == [] then r.now else front[|front| - 1].now, r);
  }

  lemma StepFits(max: nat, es: Entries, r: Request)
    requires |es| <= max
    ensures |Step(max, es, r).0| <= max
  {
    SweptIsLive(es, r.now);
    var kept := if |es| >= max then Swept(es, r.now) else es;
    assert kept[r.id := r.expires].Keys == kept.Keys + {r.id};
  }

  lemma {:induction false} SizeIsBounded(max: nat, rs: seq<Request>)
    ensures |Run(max, rs)| <= max
  {
    if rs == [] {
    } else {
      SizeIsBounded(max, rs[..|rs| - 1]);
      StepFits(max, Run(max, rs[..|rs| - 1]), rs[|rs| - 1]);
    }
  }

  /** After rs[i] was accepted, the memory holds its id until it has expired. */
  lemma {:induction false} RememberedUntilExpiry(max: nat, rs: seq<Request>, i: nat)
    requires 0 < max && Ordered(rs) && i < |rs| && Accepts(max, rs[..i + 1])
    ensures var m, r := Memory(max, rs), rs[i];
            r.id in m && (m[r.id] == r.expires || rs[|rs| - 1].now >= r.expires)
    decreases |rs|
  {
    var front := rs[..|rs| - 1];
    AnswersLikeMemory(max, rs);
    if i == |rs| - 1 {
      assert rs[..i + 1] == rs;
    } else {
      assert front[..i + 1] == rs[..i + 1];
      RememberedUntilExpiry(max, front, i);
    }
  }

  /** An accepted id is not accepted again before its expiry, whatever happens in between. */
  lemma AcceptedOnceWhileLive(max: nat, rs: seq<Request>, i: nat, j: nat)
    requires 0 < max && Ordered(rs) && i < j < |rs| && rs[i].id == rs[j].id
    requires Accepts(max, rs[..i + 1]) && Accepts(max, rs[..j + 1])
    ensures rs[j].now >= rs[i].expires
  {
    var upto, r := rs[..j], rs[j];
    assert rs[..j + 1][..j] == upto;
    AnswersLikeMemory(max, rs[..j + 1]);
    assert upto[..i + 1] == rs[..i + 1];
    RememberedUntilExpiry(max, upto, i);
  }

  // ---- Passkey challenges ---------------------------------------------------------------------------

  /** A request presenting a sealed flow: its challenge, the flow's expiry in Unix seconds, the
      instant the flow was opened and the instant the challenge was spent. */
  datatype Attempt = Attempt(challenge: string, exp: int, openedAt: int, usedAt: int)

  /** Open refuses a flow once the clock's whole seconds reach exp. */
  predicate Opens(a: Attempt) { a.openedAt / SECOND < a.exp }

  function Spend(a: Attempt): Request { Request("passkey:" + a.challenge, a.exp * SECOND, a.usedAt) }

  lemma OpensBeforeExpiry(a: Attempt)
    ensures Opens(a) <==> a.openedAt < Spend(a).expires == a.exp * 1000000000
  {
  }

  /** The two expiry checks meet exactly: when one instant serves both, a challenge is accepted at
      most once, for good, among any other uses of the cache. */
  lemma ChallengeIsSpentOnce(max: nat, rs: seq<Request>, i: nat, j: nat, first: Attempt, again: Attempt)
    requires 0 < max && Ordered(rs) && i < j < |rs| && rs[i] == Spend(first) && rs[j] == Spend(again)
    requires first.challenge == again.challenge && first.exp == again.exp
    requires Accepts(max, rs[..i + 1]) && Opens(again) && again.openedAt == again.usedAt
    ensures !Accepts(max, rs[..j + 1])
  {
    if Accepts(max, rs[..j + 1]) { AcceptedOnceWhileLive(max, rs, i, j); }
  }

  lemma {:induction false} OnlyRequestedIsRemembered(max: nat, rs: seq<Request>, id: string)
    requires id in Memory(max, rs)
    ensures exists k :: 0 <= k < |rs| && rs[k].id == id
  {
    var front := rs[..|rs| - 1];
    if id in Memory(max, front) {
      OnlyRequestedIsRemembered(max, front, id);
      var k :| 0 <= k < |front| && front[k].id == id;
      assert rs[k].id == id;
    } else {
      assert rs[|rs| - 1].id == id;
    }
  }

  lemma SameIdSameChallenge(a: Attempt, b: Attempt)
    ensures Spend(a).id == Spend(b).id <==> a.challenge == b.challenge
  {
    assert Spend(a).id[8..] == a.challenge && Spend(b).id[8..] == b.challenge;
  }

  /** Challenges do not stand in each other's way: one that has not been presented before is accepted,
      whatever others have been, unless max live ids are held. */
  lemma NewChallengeIsAccepted(max: nat, others: seq<Attempt>, a: Attempt)
    requires 0 < max && (forall k :: 0 <= k < |others| ==> others[k].challenge != a.challenge)
    requires var rs := seq(|others|, k requires 0 <= k < |others| => Spend(others[k])); Ordered(rs + [Spend(a)])
    ensures var rs := seq(|others|, k requires 0 <= k < |others| => Spend(others[k]));
            Accepts(max, rs + [Spend(a)]) <==> |LiveIds(Memory(max, rs), a.usedAt)| < max
  {
    var rs := seq(|others|, k requires 0 <= k < |others| => Spend(others[k]));
    assert (rs + [Spend(a)])[..|rs|] == rs;
    AnswersLikeMemory(max, rs + [Spend(a)]);
    forall k | 0 <= k < |rs| ensures rs[k].id != Spend(a).id { SameIdSameChallenge(others[k], a); }
    if Spend(a).id in Memory(max, rs) { OnlyRequestedIsRemembered(max, rs, Spend(a).id); }
  }

  /** The clock is read twice, though. Exactly when an attempt opened in time is spent only after
      the expiry can a spent challenge pass again, given room in the cache. */
  lemma SpentAgainIff(max: nat, rs: seq<Request>, i: nat, j: nat, first: Attempt, again: Attempt)
    requires 0 < max && Ordered(rs) && i < j < |rs| && rs[i] == Spend(first) && rs[j] == Spend(again)
    requires first.challenge == again.challenge && first.exp == again.exp && Accepts(max, rs[..i + 1])
    requires forall k :: i < k < j && rs[k].id == rs[i].id ==> rs[k].expires == rs[i].expires
    requires |LiveIds(Memory(max, rs[..j]), rs[j].now)| < max
    ensures Accepts(max, rs[..j + 1]) <==> again.usedAt >= again.exp * SECOND
  {
    assert rs[..j + 1][..j] == rs[..j] && rs[..j][..i + 1] == rs[..i + 1];
    AnswersLikeMemory(max, rs[..j + 1]);
    if again.usedAt < again.exp * SECOND && Accepts(max, rs[..j + 1]) { AcceptedOnceWhileLive(max, rs, i, j); }
    KeptExactly(max, rs[..j], i);
  }

  lemma {:induction false} KeptExactly(max: nat, rs: seq<Request>, i: nat)
    requires 0 < max && Ordered(rs) && i < |rs| && Accepts(max, rs[..i + 1])
    requires forall k :: i < k < |rs| && rs[k].id == rs[i].id ==> rs[k].expires == rs[i].expires
    ensures rs[i].id in Memory(max, rs) && Memory(max, rs)[rs[i].id] == rs[i].expires
    decreases |rs|
  {
    AnswersLikeMemory(max, rs);
    if i == |rs| - 1 {
      assert rs[..i + 1] == rs;
    } else {
      var front := rs[..|rs| - 1];
      assert front[..i + 1] == rs[..i + 1];
      KeptExactly(max, front, i);
    }
  }

  /** Two attempts of one challenge, both opened a nanosecond before the expiry and spent at it, are
      both accepted. */
  lemma SpentTwice()
    ensures var a := Attempt("c", 600, 600 * SECOND - 1, 600 * SECOND);
            Opens(a) && a.openedAt <= a.usedAt && Accepts(10, [Spend(a)]) && Accepts(10, [Spend(a), Spend(a)])
  {
    var a := Attempt("c", 600, 600 * SECOND - 1, 600 * SECOND);
    var r := Spend(a);
    assert [r][..0] == [] && [r, r][..1] == [r];
    assert Run(10, [r]) == map[r.id := r.expires];
  }
}
