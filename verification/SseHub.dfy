/** The realtime hub: a ring of recent bus messages, live delivery to connected clients, and
    replay on reconnect, as interleaved steps at the granularity of the hub's locks. */
module SseHub {

  const RING_SIZE := 256

  /** org "" and target "" is a platform-wide message; a target makes it one user's. */
  datatype Msg = Msg(id: nat, data: string, org: string, target: string)

  datatype Client = Client(user: string, orgs: set<string>)

  /** The audience test shared by live delivery and replay. */
  predicate Deliverable(c: Client, m: Msg) {
    if m.target != "" then c.user == m.target else m.org == "" || m.org in c.orgs
  }

  // ---- The ring -----------------------------------------------------------------------

  function Pushed(ring: seq<Msg>, m: Msg): seq<Msg> {
    if |ring| < RING_SIZE then ring + [m] else ring[1..] + [m]
  }

  /** The last RING_SIZE messages of the log. */
  function Latest(log: seq<Msg>): seq<Msg> {
    if |log| <= RING_SIZE then log else log[|log| - RING_SIZE..]
  }

  /** Pushing keeps the ring the tail of everything recorded. */
  lemma PushedIsLatest(log: seq<Msg>, m: Msg)
    ensures Pushed(Latest(log), m) == Latest(log + [m])
  {
  }

  function Since(ring: seq<Msg>, last: nat, c: Client): (out: seq<Msg>)
    ensures forall m :: m in out <==> m in ring && m.id > last && Deliverable(c, m)
  {
    if ring == [] then []
    else
      var m := ring[|ring| - 1];
      Since(ring[..|ring| - 1], last, c) + if m.id > last && Deliverable(c, m) then [m] else []
  }

  class Ring {
    var buf: array<Msg>
    var len: nat

    ghost predicate Valid()
      reads this
    {
      len <= buf.Length == RING_SIZE
    }

    ghost function Contents(): seq<Msg>
      reads this, buf
      requires Valid()
    {
      buf[..len]
    }

    constructor ()
      ensures Valid() && fresh(buf) && Contents() == []
    {
      var b := new Msg[RING_SIZE](_ => Msg(0, "", "", ""));
      buf, len := b, 0;
    }

    /** record: append while there is room, else shift everything down by one. */
    method Record(m: Msg)
      requires Valid()
      modifies this`len, buf
      ensures Valid() && buf == old(buf)
      ensures Contents() == Pushed(old(Contents()), m)
    {
      if len < buf.Length {
        buf[len] := m;
        len := len + 1;
        return;
      }
      ghost var was := buf[..];
      for i := 0 to buf.Length - 1
        invariant len == buf.Length
        invariant forall k :: 0 <= k < i ==> buf[k] == was[k + 1]
        invariant forall k :: i <= k < buf.Length ==> buf[k] == was[k]
      {
        buf[i] := buf[i + 1];
      }
      buf[buf.Length - 1] := m;
      assert buf[..] == was[1..] + [m];
    }

    method ReplaySince(last: nat, c: Client) returns (out: seq<Msg>)
      requires Valid()
      ensures out == Since(Contents(), last, c)
    {
      out := [];
      for i := 0 to len
        invariant out == Since(buf[..i], last, c)
      {
        assert buf[..i + 1][..i] == buf[..i];
        if buf[i].id > last && Deliverable(c, buf[i]) {
          out := out + [buf[i]];
        }
      }
    }
  }

  // ---- The hub as a state machine ---------------------------------------------------------

  type Cid = nat

  /** Where the pump goroutine is: dispatch assigns an id, records under ringMu, then fans out
      under the read lock, one client at a time. */
  datatype Pump =
    | Idle
    | Assigned(msg: Msg)
    | Recorded(msg: Msg)
    | Fanning(msg: Msg, todo: set<Cid>)

  /** One connection. replay is what the ring gave it, received what it read from its channel;
      dropped, since and replayedAt are history: what found the channel full, the first message of
      the log whose fan-out had not begun when the client was added, and how long the log was when
      it was replayed. */
  datatype Conn = Conn(
    client: Client, cap: nat, chan: seq<Msg>, live: bool, last: nat,
    replay: seq<Msg>, received: seq<Msg>, dropped: set<Msg>, since: nat, replayedAt: nat)

  /** log is every message ever recorded. sends are the user-targeted messages in flight. */
  datatype Hub = Hub(seqNo: nat, ring: seq<Msg>, log: seq<Msg>, pump: Pump, conns: map<Cid, Conn>, sends: set<Msg>)

  const EMPTY := Hub(0, [], [], Idle, map[], {})

  datatype Act =
    | Assign(data: string, org: string)
    | RecordMsg
    | StartFan
    | Offer(c: Cid)
    | EndFan
    | Add(c: Cid, client: Client, cap: nat)
    | Replay(c: Cid, from: nat)
    | GoLive(c: Cid)
    | Receive(c: Cid)
    | Remove(c: Cid)
    | SendAssign(user: string, data: string)
    | SendOffer(c: Cid, m: Msg)

  /** A non-blocking send on a client's channel. */
  function TrySend(k: Conn, m: Msg): Conn {
    if |k.chan| < k.cap then k.(chan := k.chan + [m]) else k.(dropped := k.dropped + {m})
  }

  /** Add and Remove take the write lock, so they wait while a fan-out holds the read lock. A
      client replays (or goes live without Last-Event-ID) after it was added, then reads. */
  predicate Enabled(h: Hub, a: Act) {
    match a
    case Assign(_, _) => h.pump.Idle?
    case RecordMsg => h.pump.Assigned?
    case StartFan => h.pump.Recorded?
    case Offer(c) => h.pump.Fanning? && c in h.pump.todo && c in h.conns
    case EndFan => h.pump.Fanning? && h.pump.todo == {}
    case Add(c, _, _) => !h.pump.Fanning? && c !in h.conns
    case Replay(c, _) => c in h.conns && !h.conns[c].live
    case GoLive(c) => c in h.conns && !h.conns[c].live
    case Receive(c) => c in h.conns && h.conns[c].live && h.conns[c].chan != []
    case Remove(c) => !h.pump.Fanning? && c in h.conns
    case SendAssign(user, _) => user != ""
    case SendOffer(c, m) => c in h.conns && m in h.sends && h.conns[c].client.user == m.target
  }

  function Next(h: Hub, a: Act): Hub {
    if !Enabled(h, a) then h
    else
      match a
      case Assign(data, org) => h.(seqNo := h.seqNo + 1, pump := Assigned(Msg(h.seqNo + 1, data, org, "")))
      case RecordMsg => h.(ring := Pushed(h.ring, h.pump.msg), log := h.log + [h.pump.msg],
        pump := Recorded(h.pump.msg))
      case StartFan => h.(pump := Fanning(h.pump.msg, h.conns.Keys))
      case Offer(c) =>
        var k := h.conns[c];
        h.(pump := Fanning(h.pump.msg, h.pump.todo - {c}),
           conns := h.conns[c := if Deliverable(k.client, h.pump.msg) then TrySend(k, h.pump.msg) else k])
      case EndFan => h.(pump := Idle)
      case Add(c, client, cap) => 
        var since := if h.pump.Recorded? && h.log != [] then |h.log| - 1 else |h.log|;
        h.(conns := h.conns[c := Conn(client, cap, [], false, 0, [], [], {}, since, |h.log|)])
      case Replay(c, from) =>
        var k := h.conns[c];
        h.(conns := h.conns[c := k.(live := true, last := from, replay := Since(h.ring, from, k.client),
          replayedAt := |h.log|)])
      case GoLive(c) => h.(conns := h.conns[c := h.conns[c].(live := true, last := h.seqNo, replayedAt := |h.log|)])
      case Receive(c) =>
        var k := h.conns[c];
        h.(conns := h.conns[c := k.(chan := k.chan[1..], received := k.received + [k.chan[0]])])
      case Remove(c) => h.(conns := h.conns - {c})
      case SendAssign(user, data) => h.(seqNo := h.seqNo + 1, sends := h.sends + {Msg(h.seqNo + 1, data, "", user)})
      case SendOffer(c, m) => h.(conns := h.conns[c := TrySend(h.conns[c], m)])
  }

  ghost function Run(h: Hub, acts: seq<Act>): Hub {
    if acts == [] then h else Next(Run(h, acts[..|acts| - 1]), acts[|acts| - 1])
  }

  // ---- Invariants ---------------------------------------------------------------------------

  /** Everything a client's channel has taken so far. */
  function Taken(k: Conn): seq<Msg> { k.received + k.chan }

  /** Ids grow along the log, and nothing targeted is recorded. */
  ghost predicate Ordered(log: seq<Msg>) {
    (forall i, j :: 0 <= i < j < |log| ==> log[i].id < log[j].id) &&
    (forall m :: m in log ==> m.target == "")
  }

  ghost predicate Below(log: seq<Msg>, bound: nat) {
    forall m :: m in log ==> m.id <= bound
  }

  ghost predicate LogInv(h: Hub) {
    h.ring == Latest(h.log) && Ordered(h.log) && Below(h.log, h.seqNo) &&
    (h.pump.Assigned? ==> Ordered(h.log + [h.pump.msg]) && h.pump.msg.id <= h.seqNo) &&
    (h.pump.Recorded? || h.pump.Fanning? ==> |h.log| > 0 && h.log[|h.log| - 1] == h.pump.msg) &&
    (h.pump.Fanning? ==> h.pump.todo <= h.conns.Keys) &&
    (forall m :: m in h.sends ==> m.target != "")
  }

  lemma NextLogInv(h: Hub, a: Act)
    requires LogInv(h)
    ensures LogInv(Next(h, a)) && h.log <= Next(h, a).log
  {
    hide Latest, Pushed, TrySend, Since, Deliverable;
    if a.RecordMsg? && Enabled(h, a) {
      PushedIsLatest(h.log, h.pump.msg);
    }
  }

  /** The pump still has to offer m to c. */
  ghost predicate Pending(h: Hub, c: Cid, m: Msg) {
    (h.pump.Recorded? && h.pump.msg == m) || (h.pump.Fanning? && h.pump.msg == m && c in h.pump.todo)
  }

  /** m was offered to the client's channel: taken by it, or dropped because it was full. */
  ghost predicate Offered(k: Conn, m: Msg) {
    m in k.received || m in k.chan || m in k.dropped
  }

  /** Everything recorded since the client was added and meant for it has been offered to it or
      is about to be. */
  ghost predicate Covered(h: Hub, c: Cid, k: Conn) {
    forall j :: k.since <= j < |h.log| && Deliverable(k.client, h.log[j]) ==>
      Offered(k, h.log[j]) || Pending(h, c, h.log[j])
  }

  /** The replay is what the ring held when it was taken, and only for this client. */
  ghost predicate Replayed(h: Hub, k: Conn) {
    k.replayedAt <= |h.log| && (!k.live ==> k.replay == [] && k.received == []) &&
    (forall m :: m in k.replay ==> m.target == "") &&
    (k.live ==> forall m :: m in k.replay <==>
      m in Latest(h.log[..k.replayedAt]) && m.id > k.last && Deliverable(k.client, m))
  }

  /** Nothing outside its audience is ever put on a client's channel. */
  ghost predicate InAudience(k: Conn) {
    forall m :: Offered(k, m) ==> Deliverable(k.client, m)
  }

  /** Nothing recorded before since is offered, now or by the fan-out to come. */
  ghost predicate NothingOlder(h: Hub, c: Cid, k: Conn) {
    (forall j :: 0 <= j < k.since && j < |h.log| ==> !Offered(k, h.log[j])) &&
    (h.pump.Recorded? || (h.pump.Fanning? && c in h.pump.todo) ==> k.since < |h.log|)
  }

  ghost predicate ConnInv(h: Hub, c: Cid, k: Conn) {
    k.since <= k.replayedAt && Covered(h, c, k) && Replayed(h, k) && InAudience(k) && NothingOlder(h, c, k)
  }

  ghost predicate Inv(h: Hub) {
    LogInv(h) && forall c :: c in h.conns ==> ConnInv(h, c, h.conns[c])
  }

  lemma OfferKeeps(k: Conn, m: Msg)
    requires InAudience(k) && Deliverable(k.client, m)
    ensures InAudience(TrySend(k, m)) &&
            TrySend(k, m) == k.(chan := TrySend(k, m).chan, dropped := TrySend(k, m).dropped)
    ensures forall x :: Offered(TrySend(k, m), x) <==> Offered(k, x) || x == m
  {
  }

  lemma ReceiveKeeps(k: Conn)
    requires k.chan != []
    ensures var q := k.(chan := k.chan[1..], received := k.received + [k.chan[0]]);
            forall x :: Offered(k, x) <==> Offered(q, x)
  {
    forall x ensures x in k.chan <==> x == k.chan[0] || x in k.chan[1..] {
      assert k.chan == [k.chan[0]] + k.chan[1..];
    }
  }

  lemma RecordKeeps(h: Hub, c: Cid)
    requires LogInv(h) && h.pump.Assigned? && c in h.conns && ConnInv(h, c, h.conns[c])
    ensures ConnInv(Next(h, RecordMsg), c, h.conns[c])
  {
    hide Latest, Pushed, Deliverable;
    var q, k := Next(h, RecordMsg), h.conns[c];
    assert q.log[..k.replayedAt] == h.log[..k.replayedAt];
    forall j | k.since <= j < |q.log| && Deliverable(k.client, q.log[j])
      ensures Offered(k, q.log[j]) || Pending(q, c, q.log[j])
    {
      if j < |h.log| { assert q.log[j] == h.log[j]; }
    }
  }

  lemma FanKeeps(h: Hub, a: Act, c: Cid)
    requires LogInv(h) && Enabled(h, a) && (a.StartFan? || a.Offer? || a.EndFan?) && c in h.conns &&
             ConnInv(h, c, h.conns[c])
    ensures ConnInv(Next(h, a), c, Next(h, a).conns[c])
  {
    hide Latest, Pushed, Deliverable, TrySend, InAudience;
    var k, q := h.conns[c], Next(h, a);
    if a.Offer? && a.c == c && Deliverable(k.client, h.pump.msg) { OfferKeeps(k, h.pump.msg); }
    forall j | k.since <= j < |h.log| && Deliverable(k.client, h.log[j])
      ensures Offered(q.conns[c], h.log[j]) || Pending(q, c, h.log[j])
    {
      assert Offered(k, h.log[j]) || Pending(h, c, h.log[j]);
    }
  }

  lemma ClientKeeps(h: Hub, a: Act, c: Cid)
    requires LogInv(h) && Enabled(h, a) && (a.SendOffer? || a.Receive?) && c in h.conns && ConnInv(h, c, h.conns[c])
    ensures ConnInv(Next(h, a), c, Next(h, a).conns[c])
  {
    hide Latest, Pushed;
    var k, q := h.conns[c], Next(h, a).conns[c];
    if a.SendOffer? && a.c == c { OfferKeeps(k, a.m); }
    if a.Receive? && a.c == c { ReceiveKeeps(k); }
    forall j | k.since <= j < |h.log| && Deliverable(k.client, h.log[j])
      ensures Offered(q, h.log[j]) || Pending(Next(h, a), c, h.log[j])
    {
      assert Offered(k, h.log[j]) || Pending(h, c, h.log[j]);
    }
  }

  lemma LatestAreKnown(log: seq<Msg>, bound: nat)
    requires Below(log, bound) && Ordered(log)
    ensures forall m :: m in Latest(log) ==> m.id <= bound && m.target == ""
  {
    assert forall m :: m in Latest(log) ==> m in log;
  }

  lemma ReplayKeeps(h: Hub, a: Act, c: Cid)
    requires LogInv(h) && Enabled(h, a) && (a.Replay? || a.GoLive?) && c in h.conns && ConnInv(h, c, h.conns[c])
    ensures ConnInv(Next(h, a), c, Next(h, a).conns[c])
  {
    hide Latest, Pushed, TrySend, Deliverable, Ordered, Below;
    assert h.log[..|h.log|] == h.log;
    LatestAreKnown(h.log, h.seqNo);
    var k, q := h.conns[c], Next(h, a).conns[c];
    forall j | k.since <= j < |h.log| && Deliverable(k.client, h.log[j])
      ensures Offered(q, h.log[j]) || Pending(Next(h, a), c, h.log[j])
    {
      assert Offered(k, h.log[j]) || Pending(h, c, h.log[j]);
    }
  }

  lemma OtherKeeps(h: Hub, a: Act, c: Cid)
    requires LogInv(h) && Enabled(h, a) && (a.Assign? || a.Add? || a.Remove? || a.SendAssign?) && c in Next(h, a).conns
    requires c in h.conns ==> ConnInv(h, c, h.conns[c])
    ensures ConnInv(Next(h, a), c, Next(h, a).conns[c])
  {
    hide Latest, Pushed, Deliverable, TrySend, Since;
  }

  lemma NextConnInv(h: Hub, a: Act, c: Cid)
    requires LogInv(h) && c in Next(h, a).conns
    requires c in h.conns ==> ConnInv(h, c, h.conns[c])
    ensures ConnInv(Next(h, a), c, Next(h, a).conns[c])
  {
    hide ConnInv, LogInv, Latest, Pushed, Deliverable, TrySend, Since;
    if Enabled(h, a) {
      match a
      case RecordMsg => RecordKeeps(h, c);
      case StartFan => FanKeeps(h, a, c);
      case Offer(_) => FanKeeps(h, a, c);
      case EndFan => FanKeeps(h, a, c);
      case SendOffer(_, _) => ClientKeeps(h, a, c);
      case Receive(_) => ClientKeeps(h, a, c);
      case Replay(_, _) => ReplayKeeps(h, a, c);
      case GoLive(_) => ReplayKeeps(h, a, c);
      case _ => OtherKeeps(h, a, c);
    }
  }

  lemma NextInv(h: Hub, a: Act)
    requires Inv(h)
    ensures Inv(Next(h, a))
  {
    hide ConnInv, LogInv, Next;
    NextLogInv(h, a);
    forall c | c in Next(h, a).conns ensures ConnInv(Next(h, a), c, Next(h, a).conns[c]) {
      NextConnInv(h, a, c);
    }
  }

  lemma {:induction false} RunInv(acts: seq<Act>)
    ensures Inv(Run(EMPTY, acts))
  {
    if acts == [] {
    } else {
      RunInv(acts[..|acts| - 1]);
      NextInv(Run(EMPTY, acts[..|acts| - 1]), acts[|acts| - 1]);
    }
  }

  // ---- What a client can rely on ------------------------------------------------------------------

  /** In every interleaving the ring holds the last RING_SIZE recorded messages, oldest first, with
      strictly increasing ids, and none of them is user-targeted. */
  lemma RingIsRecentLog(acts: seq<Act>)
    ensures var h := Run(EMPTY, acts);
            |h.ring| == (if |h.log| < 256 then |h.log| else 256) && h.ring == h.log[|h.log| - |h.ring|..] &&
            (forall i, j :: 0 <= i < j < |h.ring| ==> h.ring[i].id < h.ring[j].id) &&
            (forall m :: m in h.ring ==> m.target == "")
  {
    RunInv(acts);
  }

  /** No gap between replay and live delivery: in every interleaving, a message for a client that
      asked to resume after k.last, still in the ring when it was replayed or recorded at any time
      since, has been replayed, has been taken by its channel, found the channel full, or is the
      one message the pump is about to offer it. */
  lemma NoGap(acts: seq<Act>, c: Cid, j: nat)
    requires var h := Run(EMPTY, acts);
             c in h.conns && h.conns[c].live && j < |h.log| && h.log[j].id > h.conns[c].last &&
             (h.log[j].org == "" || h.log[j].org in h.conns[c].client.orgs) && j + 256 >= h.conns[c].replayedAt
    ensures var h := Run(EMPTY, acts);
            h.log[j] in h.conns[c].replay || Offered(h.conns[c], h.log[j]) || Pending(h, c, h.log[j])
  {
    RunInv(acts);
    var h := Run(EMPTY, acts);
    var k, m := h.conns[c], h.log[j];
    assert ConnInv(h, c, k);
    assert m in h.log && m.target == "";
    if j < k.replayedAt {
      var seen := h.log[..k.replayedAt];
      assert seen[j] == m;
      if |seen| > RING_SIZE { assert Latest(seen)[j - (|seen| - RING_SIZE)] == m; }
      assert m in Latest(seen);
    }
  }

  /** A message can reach a client twice, by replay and by channel. Past its fan-out, and unless it
      was dropped, it does so exactly when it was recorded, or waiting for its fan-out, while the
      client was already added and not yet replayed, is newer than what the client asked to resume
      after, was still in the ring at replay, and is meant for the client. */
  lemma SeenTwiceIff(acts: seq<Act>, c: Cid, j: nat)
    requires var h := Run(EMPTY, acts);
             c in h.conns && h.conns[c].live && j < |h.log| && !Pending(h, c, h.log[j]) &&
               h.log[j] !in h.conns[c].dropped
    ensures var h := Run(EMPTY, acts); var k, m := h.conns[c], h.log[j];
            m in k.replay && m in Taken(k) <==>
              k.since <= j < k.replayedAt <= j + RING_SIZE && m.id > k.last && Deliverable(k.client, m)
  {
    hide Deliverable, Run;
    RunInv(acts);
    var h := Run(EMPTY, acts);
    assert ConnInv(h, c, h.conns[c]);
    InLatestIff(h.log, h.conns[c].replayedAt, j);
  }

  lemma InLatestIff(log: seq<Msg>, n: nat, j: nat)
    requires Ordered(log) && n <= |log| && j < |log|
    ensures log[j] in Latest(log[..n]) <==> j < n <= j + RING_SIZE
  {
    var seen := log[..n];
    if j < n {
      assert seen[j] == log[j];
      if n > RING_SIZE && n <= j + RING_SIZE { assert Latest(seen)[j - (n - RING_SIZE)] == log[j]; }
    }
    if log[j] in Latest(seen) {
      var i :| 0 <= i < |Latest(seen)| && Latest(seen)[i] == log[j];
      var at := if n <= RING_SIZE then i else i + (n - RING_SIZE);
      assert log[at].id == log[j].id;
    }
  }

  lemma RunSnoc(acts: seq<Act>, a: Act)
    ensures Run(EMPTY, acts + [a]) == Next(Run(EMPTY, acts), a)
  {
    assert (acts + [a])[..|acts|] == acts;
  }

  lemma RunOn(acts: seq<Act>, a: Act, h: Hub, q: Hub)
    requires Run(EMPTY, acts) == h && Next(h, a) == q
    ensures Run(EMPTY, acts + [a]) == q
  {
    RunSnoc(acts, a);
  }

  /** It happens: a message fanned out between add and replay. */
  lemma SeenTwice() returns (acts: seq<Act>)
    ensures var h := Run(EMPTY, acts);
            1 in h.conns && |h.log| == 1 && h.log[0] in h.conns[1].replay && h.log[0] in h.conns[1].received
  {
    hide Run;
    var m, k := Msg(1, "d", "", ""), Conn(Client("u", {}), 1, [], false, 0, [], [], {}, 0, 0);
    EmptyRun();
    var h1 := EMPTY.(conns := map[1 := k]);
    RunOn([], Add(1, k.client, 1), EMPTY, h1);
    var h3 := Fanned(m, k, h1, [] + [Add(1, k.client, 1)]);
    acts := [] + [Add(1, k.client, 1)] + [Assign("d", "")] + [RecordMsg] + [StartFan] + [Offer(1)] + [EndFan];
    acts := Reread(m, k.(chan := [m]), h3, acts);
  }

  lemma EmptyRun()
    ensures Run(EMPTY, []) == EMPTY
  {
  }

  /** A message goes out to the one client there is. */
  lemma Fanned(m: Msg, k: Conn, h: Hub, acts: seq<Act>) returns (q: Hub)
    requires m == Msg(1, "d", "", "") && k == Conn(Client("u", {}), 1, [], false, 0, [], [], {}, 0, 0)
    requires h == EMPTY.(conns := map[1 := k]) && Run(EMPTY, acts) == h
    ensures q == Hub(1, [m], [m], Idle, map[1 := k.(chan := [m])], {})
    ensures Run(EMPTY, acts + [Assign("d", "")] + [RecordMsg] + [StartFan] + [Offer(1)] + [EndFan]) == q
  {
    hide Run;
    var h1 := h.(seqNo := 1, pump := Assigned(m));
    RunOn(acts, Assign("d", ""), h, h1);
    var h2 := h1.(ring := [m], log := [m], pump := Recorded(m));
    RunOn(acts + [Assign("d", "")], RecordMsg, h1, h2);
    var h3 := h2.(pump := Fanning(m, {1}));
    assert map[1 := k].Keys == {1};
    RunOn(acts + [Assign("d", "")] + [RecordMsg], StartFan, h2, h3);
    var h4 := h3.(pump := Fanning(m, {}), conns := map[1 := k.(chan := [m])]);
    assert map[1 := k][1 := k.(chan := [m])] == map[1 := k.(chan := [m])] && {1} - {1} == {};
    RunOn(acts + [Assign("d", "")] + [RecordMsg] + [StartFan], Offer(1), h3, h4);
    q := h4.(pump := Idle);
    RunOn(acts + [Assign("d", "")] + [RecordMsg] + [StartFan] + [Offer(1)], EndFan, h4, q);
  }

  /** The client resumes from the start and reads its channel. */
  lemma Reread(m: Msg, k: Conn, h: Hub, acts: seq<Act>) returns (all: seq<Act>)
    requires m == Msg(1, "d", "", "") && k == Conn(Client("u", {}), 1, [m], false, 0, [], [], {}, 0, 0)
    requires h == Hub(1, [m], [m], Idle, map[1 := k], {}) && Run(EMPTY, acts) == h
    ensures var q := Run(EMPTY, all); 1 in q.conns && q.log == [m] && m in q.conns[1].replay && m in q.conns[1].received
  {
    hide Run;
    assert Since([m], 0, k.client) == [m] by { assert [m][..0] == []; }
    var k1 := k.(live := true, last := 0, replay := [m], replayedAt := 1);
    var h1 := h.(conns := map[1 := k1]);
    assert map[1 := k][1 := k1] == map[1 := k1];
    RunOn(acts, Replay(1, 0), h, h1);
    var h2 := h1.(conns := map[1 := k1.(chan := [], received := [m])]);
    assert map[1 := k1][1 := k1.(chan := [], received := [m])] == h2.conns && [m][1..] == [];
    RunOn(acts + [Replay(1, 0)], Receive(1), h1, h2);
    all := acts + [Replay(1, 0)] + [Receive(1)];
  }

  /** A client's channel only drops what found it full. */
  lemma DropsOnlyWhenFull(h: Hub, a: Act, c: Cid, m: Msg)
    requires c in h.conns && c in Next(h, a).conns
    requires m in Next(h, a).conns[c].dropped && m !in h.conns[c].dropped
    ensures |h.conns[c].chan| >= h.conns[c].cap && Next(h, a).conns[c].chan == h.conns[c].chan
  {
  }

  /** Nobody but the client itself and the two ways of sending changes its channel, and a send puts
      what it sends behind everything there, for that client alone. */
  lemma ChannelsChangeOnlySo(h: Hub, a: Act, c: Cid)
    requires c in h.conns && c in Next(h, a).conns
    ensures var was, now := h.conns[c], Next(h, a).conns[c];
            now.client == was.client && now.cap == was.cap && now.since == was.since &&
            (now.chan == was.chan ||
             (a == Receive(c) && [was.chan[0]] + now.chan == was.chan &&
               now.received == was.received + [was.chan[0]]) ||
             (a == Offer(c) && h.pump.Fanning? && now.chan == was.chan + [h.pump.msg] && |now.chan| <= was.cap) ||
             (a.SendOffer? && a.c == c && now.chan == was.chan + [a.m] && |now.chan| <= was.cap &&
              a.m in h.sends && a.m.target == was.client.user)) &&
            (now.received != was.received ==> a == Receive(c)) && (now.replay != was.replay ==> a.Replay? && a.c == c)
  {
    hide Since, Latest, Pushed, Deliverable;
  }

  /** A user-targeted message in flight is put on every channel of its user that has room. */
  lemma TargetedIsSent(h: Hub, c: Cid, m: Msg)
    requires c in h.conns && m in h.sends && m.target == h.conns[c].client.user && |h.conns[c].chan| < h.conns[c].cap
    ensures Next(h, SendOffer(c, m)).conns[c].chan == h.conns[c].chan + [m]
  {
  }

  /** Delivery never blocks: a fan-out under way can always offer to the next client by itself, and
      each step leaves it with less to do. */
  lemma FanOutNeverBlocks(acts: seq<Act>)
    requires Run(EMPTY, acts).pump.Fanning?
    ensures var h := Run(EMPTY, acts);
            Enabled(h, EndFan) ||
            exists c :: Enabled(h, Offer(c)) && Next(h, Offer(c)).pump.Fanning? &&
              Next(h, Offer(c)).pump.todo < h.pump.todo
  {
    hide Deliverable, TrySend;
    RunInv(acts);
    var h := Run(EMPTY, acts);
    if h.pump.todo != {} {
      var c :| c in h.pump.todo;
      assert Enabled(h, Offer(c)) && c !in Next(h, Offer(c)).pump.todo;
    }
  }

  // ---- What is replayed and recorded ----------------------------------------------------------------

  predicate Ascending(q: seq<Msg>) { forall i, j :: 0 <= i < j < |q| ==> q[i].id < q[j].id }

  lemma {:induction false} SinceAscends(ring: seq<Msg>, last: nat, c: Client)
    requires Ascending(ring)
    ensures Ascending(Since(ring, last, c))
  {
    if ring == [] {
      assert Since(ring, last, c) == [];
    } else {
      var front, kept := ring[..|ring| - 1], Since(ring[..|ring| - 1], last, c);
      SinceAscends(front, last, c);
      forall k | 0 <= k < |kept| ensures kept[k].id < ring[|ring| - 1].id {
        assert kept[k] in kept && kept[k] in front;
        var i :| 0 <= i < |front| && front[i] == kept[k];
        assert ring[i] == kept[k];
      }
    }
  }

  /** A client that resumes after an id gets, oldest first and each once, the messages of the ring
      after it that are for everybody or for one of its organisations. */
  lemma ReplayGives(acts: seq<Act>, c: Cid, from: nat)
    requires var h := Run(EMPTY, acts); c in h.conns && !h.conns[c].live
    ensures var h := Run(EMPTY, acts);
            var out := Next(h, Replay(c, from)).conns[c].replay;
            Ascending(out) &&
            (forall m :: m in out <==>
              m in h.ring && m.id > from && (m.org == "" || m.org in h.conns[c].client.orgs))
  {
    hide Run, ConnInv;
    RunInv(acts);
    var h := Run(EMPTY, acts);
    RingIsRecentLog(acts);
    SinceAscends(h.ring, from, h.conns[c].client);
    assert Next(h, Replay(c, from)).conns[c].replay == Since(h.ring, from, h.conns[c].client);
  }

  datatype Text = Text(data: string, org: string)

  function Texts(log: seq<Msg>): seq<Text> { seq(|log|, i requires 0 <= i < |log| => Text(log[i].data, log[i].org)) }

  /** What the pump was handed, in order, while it was idle. */
  ghost function HandedIn(acts: seq<Act>): seq<Text> {
    if acts == [] then []
    else
      var front, a := acts[..|acts| - 1], acts[|acts| - 1];
      HandedIn(front) + if a.Assign? && Run(EMPTY, front).pump.Idle? then [Text(a.data, a.org)] else []
  }

  /** Everything handed to the pump is recorded as it was, once and in order; only the last may be
      still to come. */
  lemma {:induction false} LogIsHandedIn(acts: seq<Act>)
    ensures var h := Run(EMPTY, acts);
            HandedIn(acts) == Texts(h.log) + if h.pump.Assigned? then [Text(h.pump.msg.data, h.pump.msg.org)] else []
  {
    if acts == [] {
    } else {
      var front, a := acts[..|acts| - 1], acts[|acts| - 1];
      LogIsHandedIn(front);
      StepHandsIn(Run(EMPTY, front), a);
    }
  }

  lemma StepHandsIn(h: Hub, a: Act)
    ensures var q := Next(h, a);
            Texts(q.log) + (if q.pump.Assigned? then [Text(q.pump.msg.data, q.pump.msg.org)] else []) ==
            Texts(h.log) + (if h.pump.Assigned? then [Text(h.pump.msg.data, h.pump.msg.org)] else []) +
            if a.Assign? && h.pump.Idle? then [Text(a.data, a.org)] else []
  {
    hide Since, Latest, Pushed, Deliverable, TrySend;
    if a.RecordMsg? && Enabled(h, a) {
      assert Texts(h.log + [h.pump.msg]) == Texts(h.log) + [Text(h.pump.msg.data, h.pump.msg.org)];
    }
  }

  /** Nothing a client ever reads is outside its audience, and no user-targeted message is ever
      replayed. */
  lemma OnlyOwnAudience(acts: seq<Act>, c: Cid, m: Msg)
    requires c in Run(EMPTY, acts).conns
    requires m in Run(EMPTY, acts).conns[c].replay || m in Run(EMPTY, acts).conns[c].received
    ensures var client := Run(EMPTY, acts).conns[c].client;
            if m.target == "" then m.org == "" || m.org in client.orgs else m.target == client.user
    ensures m in Run(EMPTY, acts).conns[c].replay ==> m.target == ""
  {
    RunInv(acts);
    var h := Run(EMPTY, acts);
    assert ConnInv(h, c, h.conns[c]);
    assert m in h.conns[c].received ==> Offered(h.conns[c], m);
  }

  // ---- Order ------------------------------------------------------------------------------------------

  /** The bus messages among q. */
  function BusOnly(q: seq<Msg>): seq<Msg> {
    if q == [] then []
    else BusOnly(q[..|q| - 1]) + if q[|q| - 1].target == "" then [q[|q| - 1]] else []
  }

  lemma {:induction false} BusOnlyAppend(q: seq<Msg>, m: Msg)
    ensures BusOnly(q + [m]) == BusOnly(q) + if m.target == "" then [m] else []
  {
    assert (q + [m])[..|q|] == q;
  }

  /** The bus messages a channel has taken are in increasing id order, all below the message the
      pump still owes the client. */
  ghost predicate TakenInOrder(h: Hub, c: Cid, k: Conn) {
    var bus := BusOnly(k.received + k.chan);
    Ordered(bus) && (forall m :: m in bus ==> m in h.log) &&
    (h.log != [] && Pending(h, c, h.log[|h.log| - 1]) ==> Ordered(bus + [h.log[|h.log| - 1]]))
  }

  lemma BusIsBus(q: seq<Msg>)
    ensures forall m :: m in BusOnly(q) ==> m.target == ""
  {
  }

  lemma OrderedAppend(q: seq<Msg>, m: Msg)
    requires Ordered(q) && m.target == "" && forall x :: x in q ==> x.id < m.id
    ensures Ordered(q + [m])
  {
  }

  /** Offering m to a channel appends at most m to what it has taken. */
  lemma TookAtMost(k: Conn, m: Msg)
    ensures var q := TrySend(k, m);
            BusOnly(q.received + q.chan) == BusOnly(k.received + k.chan) ||
            (m.target == "" && BusOnly(q.received + q.chan) == BusOnly(k.received + k.chan) + [m])
  {
    BusOnlyAppend(k.received + k.chan, m);
    assert k.received + (k.chan + [m]) == (k.received + k.chan) + [m];
  }

  lemma RecordInOrder(h: Hub, c: Cid)
    requires Inv(h) && h.pump.Assigned? && c in h.conns && TakenInOrder(h, c, h.conns[c])
    ensures TakenInOrder(Next(h, RecordMsg), c, h.conns[c])
  {
    var q, bus := Next(h, RecordMsg), BusOnly(h.conns[c].received + h.conns[c].chan);
    assert q.log == h.log + [h.pump.msg];
    BusIsBus(h.conns[c].received + h.conns[c].chan);
    forall m | m in bus ensures m.id < h.pump.msg.id && m in q.log {
      var i :| 0 <= i < |h.log| && h.log[i] == m;
      assert q.log[i] == m && q.log[|h.log|] == h.pump.msg;
    }
    OrderedAppend(bus, h.pump.msg);
  }

  lemma OfferInOrder(h: Hub, a: Act, c: Cid)
    requires Inv(h) && Enabled(h, a) && (a.Offer? || a.SendOffer?) && c in h.conns && TakenInOrder(h, c, h.conns[c])
    ensures TakenInOrder(Next(h, a), c, Next(h, a).conns[c])
  {
    hide Latest, Deliverable, TrySend, Covered, Replayed, InAudience, NothingOlder, BusOnly, Below;
    if a.c == c {
      TookAtMost(h.conns[c], if a.Offer? then h.pump.msg else a.m);
      if a.Offer? { assert Pending(h, c, h.pump.msg); }
    }
  }

  lemma NewClientInOrder(h: Hub, a: Act)
    requires Inv(h) && a.Add? && Enabled(h, a)
    ensures TakenInOrder(Next(h, a), a.c, Next(h, a).conns[a.c])
  {
    var k := Next(h, a).conns[a.c];
    assert k.received + k.chan == [];
    if h.log != [] {
      var m := h.log[|h.log| - 1];
      assert m in h.log && m.target == "";
      OrderedAppend([], m);
    }
  }

  /** A step that neither records nor touches what the client has taken. */
  lemma QuietInOrder(h: Hub, q: Hub, c: Cid)
    requires c in h.conns && c in q.conns && TakenInOrder(h, c, h.conns[c]) && q.log == h.log
    requires q.conns[c].received + q.conns[c].chan == h.conns[c].received + h.conns[c].chan
    requires forall m :: Pending(q, c, m) ==> Pending(h, c, m)
    ensures TakenInOrder(q, c, q.conns[c])
  {
  }

  lemma QuietStep(h: Hub, a: Act, c: Cid)
    requires Enabled(h, a) && c in h.conns && c in Next(h, a).conns && !a.RecordMsg? && !a.Offer? && !a.SendOffer?
    ensures var k, q := h.conns[c], Next(h, a);
            q.log == h.log && q.conns[c].received + q.conns[c].chan == k.received + k.chan &&
            forall m :: Pending(q, c, m) ==> Pending(h, c, m)
  {
    hide Since, Latest, Pushed, TrySend, Deliverable;
    var k := h.conns[c];
    if a.Receive? && a.c == c {
      assert (k.received + [k.chan[0]]) + k.chan[1..] == k.received + k.chan;
    }
  }

  lemma NextTakenInOrder(h: Hub, a: Act, c: Cid)
    requires Inv(h) && c in Next(h, a).conns
    requires c in h.conns ==> TakenInOrder(h, c, h.conns[c])
    ensures TakenInOrder(Next(h, a), c, Next(h, a).conns[c])
  {
    hide TakenInOrder, Inv, Since, Latest, Pushed, TrySend, Deliverable;
    if Enabled(h, a) {
      if c !in h.conns {
        assert a.Add? && a.c == c;
        NewClientInOrder(h, a);
      } else if a.RecordMsg? {
        RecordInOrder(h, c);
      } else if a.Offer? || a.SendOffer? {
        OfferInOrder(h, a, c);
      } else {
        QuietStep(h, a, c);
        QuietInOrder(h, Next(h, a), c);
      }
    }
  }

  /** In every interleaving, each client reads the bus messages of its channel in the order they were
      recorded, each at most once. */
  lemma {:induction false} ReadsInOrder(acts: seq<Act>, c: Cid)
    requires c in Run(EMPTY, acts).conns
    ensures TakenInOrder(Run(EMPTY, acts), c, Run(EMPTY, acts).conns[c])
  {
    if acts == [] {
    } else {
      var front := acts[..|acts| - 1];
      RunInv(front);
      if c in Run(EMPTY, front).conns { ReadsInOrder(front, c); }
      NextTakenInOrder(Run(EMPTY, front), acts[|acts| - 1], c);
    }
  }
}
