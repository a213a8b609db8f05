/** The in-process event bus: publishers hold the read lock for a whole fan-out, subscribing and
    detaching take the write lock, and closing a subscription detaches it before closing its
    channel. Steps interleave freely between any number of goroutines. */
module EventBus {
  import opened Tenancy

  const DEFAULT_BUFFER := 64

  datatype Event = Event(name: string, org: string, payload: string)

  /** org "" takes every org; no name set takes every name, an empty one takes none. */
  datatype Filter = Filter(org: string, names: Option<set<string>>)

  predicate Matches(f: Filter, ev: Event) {
    (f.org == "" || f.org == ev.org) && (f.names.Some? ==> ev.name in f.names.value)
  }

  type Sid = nat
  type Pid = nat

  /** How far the body guarded by the subscription's sync.Once has come. */
  datatype Once = NotRun | Detaching | Signalling | Closing | Ran

  /** A subscription. Channels carry publish ids; the log gives their events. enqueued and dropped
      are history: what entered the channel, in order, and what found it full. */
  datatype Sub = Sub(
    filter: Filter, cap: nat, buf: seq<Pid>, once: Once, signalled: bool, chClosed: bool,
    received: seq<Pid>, enqueued: seq<Pid>, dropped: set<Pid>)

  function NewSub(filter: Filter, buffer: int): Sub {
    Sub(filter, if buffer <= 0 then DEFAULT_BUFFER else buffer, [], NotRun, false, false, [], [], {})
  }

  /** The non-blocking send of publish p. */
  function Offer(k: Sub, p: Pid, ev: Event): Sub {
    if !Matches(k.filter, ev) then k
    else if |k.buf| < k.cap then k.(buf := k.buf + [p], enqueued := k.enqueued + [p])
    else k.(dropped := k.dropped + {p})
  }

  /** One call of Publish: its event, and who was subscribed when it took the lock. */
  datatype Publication = Publication(ev: Event, audience: set<Sid>)

  /** active maps each running Publish to the subscribers it has yet to visit; panicked records a
      send on a closed channel or a second close of one. */
  datatype Bus = Bus(
    registered: set<Sid>, subs: map<Sid, Sub>, log: map<Pid, Publication>, active: map<Pid, set<Sid>>, panicked: bool)

  const EMPTY := Bus({}, map[], map[], map[], false)

  datatype Act =
    | Subscribe(s: Sid, filter: Filter, buffer: int)
    | Begin(p: Pid, ev: Event)
    | Send(p: Pid, s: Sid)
    | End(p: Pid)
    | CallClose(s: Sid)
    | Detach(s: Sid)
    | Signal(s: Sid)
    | CloseChan(s: Sid)
    | Receive(s: Sid)

  /** Only Subscribe and Detach wait: for every running Publish to release the read lock. */
  predicate Enabled(b: Bus, a: Act) {
    match a
    case Subscribe(s, _, _) => s !in b.subs && b.active == map[]
    case Begin(p, _) => p !in b.log
    case Send(p, s) => p in b.active && p in b.log && s in b.active[p] && s in b.subs
    case End(p) => p in b.active && b.active[p] == {}
    case CallClose(s) => s in b.subs
    case Detach(s) => s in b.subs && b.subs[s].once == Detaching && b.active == map[]
    case Signal(s) => s in b.subs && b.subs[s].once == Signalling
    case CloseChan(s) => s in b.subs && b.subs[s].once == Closing
    case Receive(s) => s in b.subs && b.subs[s].buf != []
  }

  function Set(b: Bus, s: Sid, k: Sub): Bus { b.(subs := b.subs[s := k]) }

  function Next(b: Bus, a: Act): Bus {
    if !Enabled(b, a) then b
    else
      match a
      case Subscribe(s, filter, buffer) => Set(b, s, NewSub(filter, buffer)).(registered := b.registered + {s})
      case Begin(p, ev) => b.(log := b.log[p := Publication(ev, b.registered)], active := b.active[p := b.registered])
      case Send(p, s) =>
        var k, ev := b.subs[s], b.log[p].ev;
        var q := Set(b, s, Offer(k, p, ev)).(active := b.active[p := b.active[p] - {s}]);
        if Matches(k.filter, ev) && k.chClosed then q.(panicked := true) else q
      case End(p) => b.(active := b.active - {p})
      case CallClose(s) => if b.subs[s].once.NotRun? then Set(b, s, b.subs[s].(once := Detaching)) else b
      case Detach(s) => Set(b, s, b.subs[s].(once := Signalling)).(registered := b.registered - {s})
      case Signal(s) =>
        var k := b.subs[s];
        Set(b, s, k.(once := Closing, signalled := true)).(panicked := b.panicked || k.signalled)
      case CloseChan(s) =>
        var k := b.subs[s];
        Set(b, s, k.(once := Ran, chClosed := true)).(panicked := b.panicked || k.chClosed)
      case Receive(s) =>
        var k := b.subs[s];
        Set(b, s, k.(buf := k.buf[1..], received := k.received + [k.buf[0]]))
  }

  ghost function Run(b: Bus, acts: seq<Act>): Bus {
    if acts == [] then b else Next(Run(b, acts[..|acts| - 1]), acts[|acts| - 1])
  }

  // ---- Invariants ---------------------------------------------------------------------------

  /** p was published while s was subscribed, and passes its filter. */
  ghost predicate Due(b: Bus, s: Sid, p: Pid)
    requires s in b.subs
  {
    p in b.log && s in b.log[p].audience &&
    var f, ev := b.subs[s].filter, b.log[p].ev;
    f.org in {"", ev.org} && (f.names == None || ev.name in f.names.value)
  }

  /** The running Publish p has yet to reach s. */
  ghost predicate Pending(b: Bus, s: Sid, p: Pid)
    requires s in b.subs
  {
    Due(b, s, p) && p in b.active && s in b.active[p]
  }

  ghost function One(c: bool): nat { if c then 1 else 0 }

  /** Every publication due to s is in exactly one place: read, buffered, dropped or pending. */
  ghost predicate Conserved(b: Bus, s: Sid, p: Pid)
    requires s in b.subs
  {
    var k := b.subs[s];
    multiset(k.received)[p] + multiset(k.buf)[p] + One(p in k.dropped) + One(Pending(b, s, p)) == One(Due(b, s, p))
  }

  /** Where the once-guarded body is decides what is closed and whether s is still registered. */
  ghost predicate Lifecycle(b: Bus, s: Sid)
    requires s in b.subs
  {
    var k := b.subs[s];
    0 < k.cap && |k.buf| <= k.cap && k.received + k.buf == k.enqueued &&
    (s in b.registered <==> k.once.NotRun? || k.once.Detaching?) &&
    (k.signalled <==> k.once.Closing? || k.once.Ran?) && (k.chClosed <==> k.once.Ran?)
  }

  ghost predicate Locked(b: Bus) {
    b.registered <= b.subs.Keys && b.active.Keys <= b.log.Keys &&
    (forall p :: p in b.log ==> b.log[p].audience <= b.subs.Keys) &&
    (forall p :: p in b.active ==> b.active[p] <= b.registered && b.active[p] <= b.log[p].audience)
  }

  ghost predicate Inv(b: Bus) {
    !b.panicked && Locked(b) &&
    (forall s :: s in b.subs ==> Lifecycle(b, s)) &&
    (forall s, p :: s in b.subs ==> Conserved(b, s, p))
  }

  lemma NextLifecycle(b: Bus, a: Act, s: Sid)
    requires Inv(b) && s in Next(b, a).subs
    ensures Lifecycle(Next(b, a), s)
  {
    hide Conserved, Locked, Matches;
    if s in b.subs && Enabled(b, a) {
      var k := b.subs[s];
      assert Lifecycle(b, s);
      if a.Send? && a.s == s { assert k.received + (k.buf + [a.p]) == (k.received + k.buf) + [a.p]; }
      if a.Receive? && a.s == s { assert (k.received + [k.buf[0]]) + k.buf[1..] == k.received + k.buf; }
    }
  }

  lemma NextLocked(b: Bus, a: Act)
    requires Inv(b)
    ensures Locked(Next(b, a)) && !Next(b, a).panicked
  {
    if Enabled(b, a) {
      match a
      case Send(p, s) => assert Lifecycle(b, s);
      case Signal(s) => assert Lifecycle(b, s);
      case CloseChan(s) => assert Lifecycle(b, s);
      case _ =>
    }
  }

  lemma SendConserves(b: Bus, a: Act, s: Sid, p: Pid)
    requires Inv(b) && a.Send? && Enabled(b, a) && s in b.subs
    ensures Conserved(Next(b, a), s, p)
  {
    assert Conserved(b, s, p);
  }

  lemma ReceiveConserves(b: Bus, a: Act, s: Sid, p: Pid)
    requires Inv(b) && a.Receive? && Enabled(b, a) && s in b.subs
    ensures Conserved(Next(b, a), s, p)
  {
    assert Conserved(b, s, p);
    if a.s == s {
      var k := b.subs[s];
      assert k.buf == [k.buf[0]] + k.buf[1..];
    }
  }

  lemma NextConserves(b: Bus, a: Act, s: Sid, p: Pid)
    requires Inv(b) && s in Next(b, a).subs
    ensures Conserved(Next(b, a), s, p)
  {
    if s in b.subs { assert Conserved(b, s, p); }
    if Enabled(b, a) {
      if a.Send? { SendConserves(b, a, s, p); }
      else if a.Receive? { ReceiveConserves(b, a, s, p); }
    }
  }

  lemma NextInv(b: Bus, a: Act)
    requires Inv(b)
    ensures Inv(Next(b, a))
  {
    NextLocked(b, a);
    forall s | s in Next(b, a).subs ensures Lifecycle(Next(b, a), s) { NextLifecycle(b, a, s); }
    forall s, p | s in Next(b, a).subs ensures Conserved(Next(b, a), s, p) { NextConserves(b, a, s, p); }
  }

  lemma {:induction false} RunInv(acts: seq<Act>)
    ensures Inv(Run(EMPTY, acts))
  {
    if acts == [] {
    } else {
      RunInv(acts[..|acts| - 1]);
      NextInv(Run(EMPTY, acts[..|acts| - 1]), acts[|acts| - 1]);
    }
  }

  // ---- What callers can rely on -------------------------------------------------------------------

  /** No interleaving of Publish, Subscribe and any number of Close calls sends on a closed channel
      or closes one twice. */
  lemma NeverPanics(acts: seq<Act>)
    ensures !Run(EMPTY, acts).panicked
  {
    RunInv(acts);
  }

  /** Conservation: per subscriber, each matching event published while it was subscribed was read,
      is buffered, was dropped, or is about to be offered, exactly one of these and once; nothing
      else ever reaches it. */
  lemma EveryEventIsAccountedFor(acts: seq<Act>, s: Sid, p: Pid)
    requires s in Run(EMPTY, acts).subs
    ensures Conserved(Run(EMPTY, acts), s, p)
  {
    RunInv(acts);
  }

  /** Once no Publish is running, due = received + buffered + dropped as multisets. */
  lemma QuietBusBalances(acts: seq<Act>, s: Sid)
    requires var b := Run(EMPTY, acts); s in b.subs && b.active == map[]
    ensures var b := Run(EMPTY, acts); var k := b.subs[s];
            multiset(k.received) + multiset(k.buf) + multiset(k.dropped) == multiset(set p | p in b.log && Due(b, s, p))
  {
    var b := Run(EMPTY, acts);
    var k := b.subs[s];
    var due := set p | p in b.log && Due(b, s, p);
    forall p ensures multiset(k.received)[p] + multiset(k.buf)[p] + multiset(k.dropped)[p] == multiset(due)[p] {
      EveryEventIsAccountedFor(acts, s, p);
    }
    assert forall p :: (multiset(k.received) + multiset(k.buf) + multiset(k.dropped))[p] == multiset(due)[p];
  }

  /** What a subscriber reads is a prefix of what entered its channel, closed or not. */
  lemma ReadsAPrefix(acts: seq<Act>, s: Sid)
    requires s in Run(EMPTY, acts).subs
    ensures var k := Run(EMPTY, acts).subs[s]; k.received <= k.enqueued && k.enqueued == k.received + k.buf
  {
    RunInv(acts);
    var b := Run(EMPTY, acts);
    assert Lifecycle(b, s);
  }

  /** Publish never blocks: whatever else has happened, a running Publish can take its next step at
      once, by itself, and each one leaves it with less to do. */
  lemma PublishNeverBlocks(acts: seq<Act>, p: Pid)
    requires p in Run(EMPTY, acts).active
    ensures var b := Run(EMPTY, acts);
            Enabled(b, End(p)) ||
            exists s :: Enabled(b, Send(p, s)) && p in Next(b, Send(p, s)).active &&
              Next(b, Send(p, s)).active[p] < b.active[p]
  {
    RunInv(acts);
    var b := Run(EMPTY, acts);
    if b.active[p] != {} {
      var s :| s in b.active[p];
      assert Enabled(b, Send(p, s)) && s !in Next(b, Send(p, s)).active[p];
    }
  }

  /** A publication about to start is pending for exactly the subscribers that are not detached and
      whose filter it passes. */
  lemma PublishReachesSubscribed(acts: seq<Act>, p: Pid, ev: Event, s: Sid)
    requires var b := Run(EMPTY, acts); p !in b.log && s in b.subs
    ensures var b := Run(EMPTY, acts);
            var q, f := Next(b, Begin(p, ev)), b.subs[s].filter;
            q.subs == b.subs &&
            (Pending(q, s, p) <==>
              b.subs[s].once in {NotRun, Detaching} && f.org in {"", ev.org} &&
              (f.names == None || ev.name in f.names.value))
  {
    RunInv(acts);
    assert Lifecycle(Run(EMPTY, acts), s);
  }

  /** An event is dropped only because the channel is full, and entering it goes behind what is there;
      a fan-out changes nobody else. */
  lemma SendEntersOrDrops(b: Bus, p: Pid, s: Sid, other: Sid)
    requires Inv(b) && Enabled(b, Send(p, s)) && Pending(b, s, p) && other in b.subs
    ensures var q := Next(b, Send(p, s));
            var k, now := b.subs[s], q.subs[s];
            (if |k.buf| < k.cap then now.buf == k.buf + [p] && now.enqueued == k.enqueued + [p] &&
              now.dropped == k.dropped
             else now.buf == k.buf && now.enqueued == k.enqueued && now.dropped == k.dropped + {p}) &&
            now.received == k.received && (other != s ==> q.subs[other] == b.subs[other])
  {
  }

  lemma ClosedTakesNothing(b: Bus, a: Act, s: Sid)
    requires Locked(b) && s in b.subs && Lifecycle(b, s) && b.subs[s].chClosed
    ensures var q := Next(b, a); s in q.subs && q.subs[s].chClosed && q.subs[s].enqueued == b.subs[s].enqueued
  {
    hide Matches, NewSub;
  }

  /** A closed subscription is out of every running and later Publish, for good. */
  lemma {:induction false} ClosedStaysClosed(b: Bus, acts: seq<Act>, s: Sid)
    requires Inv(b) && s in b.subs && b.subs[s].chClosed
    ensures var q := Run(b, acts);
            Inv(q) && s in q.subs && q.subs[s].chClosed && q.subs[s].enqueued == b.subs[s].enqueued
  {
    hide Next, Locked, Lifecycle, Conserved;
    if acts == [] {
    } else {
      var front, a := acts[..|acts| - 1], acts[|acts| - 1];
      ClosedStaysClosed(b, front, s);
      ClosedTakesNothing(Run(b, front), a, s);
      NextInv(Run(b, front), a);
    }
  }

  // ---- One Publish on its own ----------------------------------------------------------------------

  function Sends(p: Pid, order: seq<Sid>): seq<Act> {
    if order == [] then [] else Sends(p, order[..|order| - 1]) + [Send(p, order[|order| - 1])]
  }

  function Members(order: seq<Sid>): (r: set<Sid>)
    ensures forall s :: s in r <==> s in order
  {
    if order == [] then {} else
      assert order == order[..|order| - 1] + [order[|order| - 1]];
      Members(order[..|order| - 1]) + {order[|order| - 1]}
  }

  /** b, with publish p under way and the subscribers in visited already offered it. */
  ghost predicate HalfWay(b: Bus, q: Bus, p: Pid, ev: Event, visited: set<Sid>) {
    q.subs.Keys == b.subs.Keys && p in q.log && q.log[p].ev == ev && p in q.active &&
      q.active[p] == b.registered - visited &&
    forall s :: s in b.subs ==> q.subs[s] == if s in visited then Offer(b.subs[s], p, ev) else b.subs[s]
  }

  lemma SendOffersOne(b: Bus, q: Bus, p: Pid, ev: Event, visited: set<Sid>, s: Sid)
    requires HalfWay(b, q, p, ev, visited) && s in b.registered && b.registered <= b.subs.Keys && s !in visited
    ensures HalfWay(b, Next(q, Send(p, s)), p, ev, visited + {s})
  {
  }

  lemma {:induction false} SendsOffer(b: Bus, p: Pid, ev: Event, order: seq<Sid>)
    requires b.registered <= b.subs.Keys && p !in b.log && Distinct(order) && Members(order) <= b.registered
    ensures HalfWay(b, Run(Next(b, Begin(p, ev)), Sends(p, order)), p, ev, Members(order))
    decreases |order|
  {
    hide HalfWay;
    if order == [] {
      SendsBegin(b, p, ev);
    } else {
      var front, last := order[..|order| - 1], order[|order| - 1];
      SendsOffer(b, p, ev, front);
      assert last in order;
      SendOffersOne(b, Run(Next(b, Begin(p, ev)), Sends(p, front)), p, ev, Members(front), last);
      assert Sends(p, order)[..|Sends(p, order)| - 1] == Sends(p, front);
    }
  }

  lemma SendsBegin(b: Bus, p: Pid, ev: Event)
    requires p !in b.log
    ensures HalfWay(b, Next(b, Begin(p, ev)), p, ev, {})
  {
  }

  /** Run without interruption, in whatever order it visits the subscribers, one Publish offers the
      event once to each of them and changes nothing else: what Registry.Publish below does. */
  lemma PublishAlone(b: Bus, p: Pid, ev: Event, order: seq<Sid>)
    requires b.registered <= b.subs.Keys && p !in b.log && Distinct(order) && Members(order) == b.registered
    ensures var q := Next(Run(Next(b, Begin(p, ev)), Sends(p, order)), End(p));
            q.subs.Keys == b.subs.Keys && p !in q.active &&
            forall s :: s in b.subs ==> q.subs[s] == if s in b.registered then Offer(b.subs[s], p, ev) else b.subs[s]
  {
    SendsOffer(b, p, ev, order);
  }

  // ---- Publish as the source writes it ------------------------------------------------------------

  /** The bus object between calls: Publish and the others run to completion one at a time. */
  class Registry {
    var subs: map<Sid, Sub>
    var registered: set<Sid>

    ghost predicate Valid()
      reads this
    {
      registered <= subs.Keys
    }

    /** Every registered subscriber is offered the event exactly once, in no particular order. */
    method Publish(p: Pid, ev: Event)
      requires Valid()
      modifies this`subs
      ensures Valid() && subs.Keys == old(subs.Keys)
      ensures forall s :: s in subs ==> subs[s] == if s in registered then Offer(old(subs)[s], p, ev) else old(subs)[s]
    {
      var todo := registered;
      while todo != {}
        invariant todo <= registered && Valid() && subs.Keys == old(subs.Keys)
        invariant forall s :: s in subs ==>
          subs[s] == if s in registered && s !in todo then Offer(old(subs)[s], p, ev) else old(subs)[s]
        decreases |todo|
      {
        var s :| s in todo;
        todo := todo - {s};
        var k := subs[s];
        if !Matches(k.filter, ev) { continue; }
        if |k.buf| < k.cap {
          subs := subs[s := k.(buf := k.buf + [p], enqueued := k.enqueued + [p])];
        } else {
          subs := subs[s := k.(dropped := k.dropped + {p})];
        }
      }
    }

    method Subscribe(s: Sid, filter: Filter, buffer: int)
      requires Valid() && s !in subs
      modifies this
      ensures Valid() && registered == old(registered) + {s}
      ensures subs == old(subs)[s := NewSub(filter, buffer)]
      ensures subs[s] == Sub(filter, if buffer > 0 then buffer else 64, [], NotRun, false, false, [], [], {})
    {
      var cap := buffer;
      if cap <= 0 { cap := DEFAULT_BUFFER; }
      subs := subs[s := Sub(filter, cap, [], NotRun, false, false, [], [], {})];
      registered := registered + {s};
    }
  }
}
