/** The job queue: workers with possibly stale lists claim jobs by a conditional update, run the
    handler and record the outcome. Times are milliseconds. */
module JobPool {
  import opened Tenancy

  const RETRY_DELAY := 30000
  const LIST_LIMIT := 25

  datatype Status = Queued | Running | Succeeded | Dead

  type Jid = nat
  type Wid = nat

  datatype Job = Job(status: Status, attempts: nat, maxAttempts: int, runAt: int, lockedBy: Option<Wid>)

  type Jobs = map<Jid, Job>

  predicate Claimable(jobs: Jobs, id: Jid, now: int) {
    id in jobs && jobs[id].status.Queued? && jobs[id].runAt <= now
  }

  function Claimed(jobs: Jobs, id: Jid, owner: Wid): Jobs
    requires id in jobs
  {
    jobs[id := jobs[id].(status := Running, lockedBy := Some(owner))]
  }

  /** Recording the outcome of one handler run, as the claimed row decides it. */
  function Settled(jobs: Jobs, id: Jid, claimed: Job, ok: bool, now: int): Jobs {
    if id !in jobs then jobs
    else
      var j := jobs[id].(lockedBy := None);
      jobs[id :=
        if ok then j.(status := Succeeded)
        else if claimed.attempts + 1 < claimed.maxAttempts then
          j.(status := Queued, attempts := claimed.attempts + 1, runAt := now + RETRY_DELAY)
        else j.(status := Dead)]
  }

  class JobStore {
    var jobs: Jobs

    /** One conditional UPDATE ... RETURNING. */
    method Claim(id: Jid, owner: Wid, now: int) returns (claimed: Option<Job>)
      modifies this
      ensures claimed.Some? <==> Claimable(old(jobs), id, now)
      ensures jobs == if claimed.Some? then Claimed(old(jobs), id, owner) else old(jobs)
      ensures claimed.Some? ==> claimed.value == jobs[id]
    {
      if id !in jobs || jobs[id].status != Queued || jobs[id].runAt > now { return None; }
      jobs := jobs[id := jobs[id].(status := Running, lockedBy := Some(owner))];
      return Some(jobs[id]);
    }

    method Complete(id: Jid)
      modifies this
      ensures jobs == if id in old(jobs) then old(jobs)[id := old(jobs)[id].(status := Succeeded, lockedBy := None)]
              else old(jobs)
    {
      if id in jobs { jobs := jobs[id := jobs[id].(status := Succeeded, lockedBy := None)]; }
    }

    method Fail(id: Jid, status: Status, runAt: int, attempts: nat)
      modifies this
      ensures jobs == if id in old(jobs)
        then old(jobs)[id := old(jobs)[id].(status := status, runAt := runAt, attempts := attempts, lockedBy := None)]
        else old(jobs)
    {
      if id in jobs {
        jobs := jobs[id := jobs[id].(status := status, runAt := runAt, attempts := attempts, lockedBy := None)];
      }
    }

    method MarkDead(id: Jid)
      modifies this
      ensures jobs == if id in old(jobs) then old(jobs)[id := old(jobs)[id].(status := Dead, lockedBy := None)]
              else old(jobs)
    {
      if id in jobs { jobs := jobs[id := jobs[id].(status := Dead, lockedBy := None)]; }
    }

    /** One turn of the worker loop over a listed job, with no other worker in between: claimed at
        now, the handler answering ok at later. */
    method Work(id: Jid, owner: Wid, now: int, ok: bool, later: int) returns (ran: bool)
      modifies this
      ensures ran <==> Claimable(old(jobs), id, now)
      ensures jobs == if ran
        then Settled(Claimed(old(jobs), id, owner), id, Claimed(old(jobs), id, owner)[id], ok, later)
        else old(jobs)
    {
      var got := Claim(id, owner, now);
      if got.None? { return false; }
      if !ok {
        var next := got.value.attempts + 1;
        if next < got.value.maxAttempts {
          Fail(id, Queued, later + RETRY_DELAY, next);
        } else {
          MarkDead(id);
        }
        return true;
      }
      Complete(id);
      return true;
    }
  }

  // ---- The pool as a state machine ------------------------------------------------------------

  /** list is what a worker has yet to try; the snapshot of a running job is the claimed row. */
  datatype Worker = Scanning(list: seq<Jid>) | Handling(id: Jid, job: Job, rest: seq<Jid>)

  /** runs counts handler runs; lost holds the jobs left running with no worker: their outcome was
      never recorded because the store call failed or the process died, or the claim was committed
      while its caller got an error. Both are history. */
  datatype Pool = Pool(now: int, jobs: Jobs, workers: map<Wid, Worker>, runs: map<Jid, nat>, lost: set<Jid>)

  const EMPTY := Pool(0, map[], map[], map[], {})

  datatype Act =
    | Enqueue(id: Jid, runAt: int, maxAttempts: int)
    | Tick(to: int)
    | Spawn(w: Wid)
    | List(w: Wid, ids: seq<Jid>)
    | TryClaim(w: Wid)
    | SkipClaim(w: Wid)
    | LoseClaim(w: Wid)
    | Settle(w: Wid, ok: bool, stored: bool)
    | Crash(w: Wid)

  predicate ScanningMore(p: Pool, w: Wid) { w in p.workers && p.workers[w].Scanning? && p.workers[w].list != [] }

  predicate Busy(p: Pool, w: Wid) { w in p.workers && p.workers[w].Handling? }

  predicate Enabled(p: Pool, a: Act) {
    match a
    case Enqueue(id, _, _) => id !in p.jobs
    case Tick(to) => p.now <= to
    case Spawn(w) => w !in p.workers
    case List(w, ids) =>
      w in p.workers && p.workers[w] == Scanning([]) && |ids| <= LIST_LIMIT && forall id :: id in ids ==>
        Claimable(p.jobs, id, p.now)
    case TryClaim(w) => ScanningMore(p, w)
    case SkipClaim(w) => ScanningMore(p, w)
    case LoseClaim(w) => ScanningMore(p, w) && Claimable(p.jobs, p.workers[w].list[0], p.now)
    case Settle(w, _, _) => Busy(p, w)
    case Crash(w) => w in p.workers
  }

  function Set(p: Pool, w: Wid, k: Worker): Pool { p.(workers := p.workers[w := k]) }

  function Count(runs: map<Jid, nat>, id: Jid): nat { if id in runs then runs[id] else 0 }

  function Next(p: Pool, a: Act): Pool {
    if !Enabled(p, a) then p
    else
      match a
      case Enqueue(id, runAt, maxAttempts) =>
        p.(jobs := p.jobs[id := Job(Queued, 0, maxAttempts, runAt, None)], runs := p.runs[id := 0])
      case Tick(to) => p.(now := to)
      case Spawn(w) => Set(p, w, Scanning([]))
      case List(w, ids) => Set(p, w, Scanning(ids))
      case TryClaim(w) =>
        var id, rest := p.workers[w].list[0], p.workers[w].list[1..];
        if Claimable(p.jobs, id, p.now) then
          var jobs := Claimed(p.jobs, id, w);
          Set(p, w, Handling(id, jobs[id], rest)).(jobs := jobs, runs := p.runs[id := Count(p.runs, id) + 1])
        else Set(p, w, Scanning(rest))
      case SkipClaim(w) => Set(p, w, Scanning(p.workers[w].list[1..]))
      case LoseClaim(w) =>
        var id := p.workers[w].list[0];
        Set(p, w, Scanning(p.workers[w].list[1..])).(jobs := Claimed(p.jobs, id, w), lost := p.lost + {id})
      case Settle(w, ok, stored) =>
        var k := p.workers[w];
        var q := Set(p, w, Scanning(k.rest));
        if stored then q.(jobs := Settled(p.jobs, k.id, k.job, ok, p.now)) else q.(lost := p.lost + {k.id})
      case Crash(w) =>
        p.(workers := p.workers - {w}, lost := if Busy(p, w) then p.lost + {p.workers[w].id} else p.lost)
  }

  ghost function Run(p: Pool, acts: seq<Act>): Pool
    decreases |acts|
  {
    if acts == [] then p else Next(Run(p, acts[..|acts| - 1]), acts[|acts| - 1])
  }

  // ---- Invariants ---------------------------------------------------------------------------

  function Limit(j: Job): nat { if j.maxAttempts < 1 then 1 else j.maxAttempts }

  predicate Holds(p: Pool, w: Wid, id: Jid) { Busy(p, w) && p.workers[w].id == id }

  /** The worker's snapshot is the row, and the row names the worker. */
  ghost predicate WorkerInv(p: Pool, w: Wid)
    requires w in p.workers
  {
    var k := p.workers[w];
    k.Handling? ==>
      k.id in p.jobs && k.id !in p.lost && p.jobs[k.id] == k.job && k.job.status.Running? && k.job.lockedBy == Some(w)
  }

  /** Runs are attempts plus the one under way or final (a lost job may not have got that far); a job
      that can still run has runs left. */
  ghost predicate JobInv(p: Pool, id: Jid)
    requires id in p.jobs
  {
    var j := p.jobs[id];
    id in p.runs && j.attempts <= p.runs[id] <= j.attempts + 1 && j.attempts < Limit(j) &&
    (id !in p.lost ==> p.runs[id] == j.attempts + (if j.status.Queued? then 0 else 1)) &&
    (j.status.Dead? ==> p.runs[id] == Limit(j)) &&
    (j.status.Running? <==> j.lockedBy.Some?) &&
    (j.status.Running? && id !in p.lost ==> Holds(p, j.lockedBy.value, id)) &&
    (id in p.lost ==> j.status.Running?)
  }

  ghost predicate Inv(p: Pool) {
    p.runs.Keys == p.jobs.Keys && p.lost <= p.jobs.Keys &&
    (forall w :: w in p.workers ==> WorkerInv(p, w)) &&
    (forall id :: id in p.jobs ==> JobInv(p, id))
  }

  lemma NextWorkerInv(p: Pool, a: Act, w: Wid)
    requires Inv(p) && w in Next(p, a).workers
    ensures WorkerInv(Next(p, a), w)
  {
    if w in p.workers { assert WorkerInv(p, w); }
    if Enabled(p, a) {
      if a.Settle? || a.Crash? { assert WorkerInv(p, a.w); }
    }
  }

  lemma SettleJobInv(p: Pool, a: Act, id: Jid)
    requires Inv(p) && (a.Settle? || a.Crash?) && Enabled(p, a) && id in p.jobs
    ensures JobInv(Next(p, a), id)
  {
    assert JobInv(p, id) && WorkerInv(p, a.w);
  }

  lemma ClaimJobInv(p: Pool, w: Wid, id: Jid)
    requires Inv(p) && ScanningMore(p, w) && id in p.jobs
    ensures JobInv(Next(p, TryClaim(w)), id)
  {
    assert JobInv(p, id);
  }

  lemma NextJobInv(p: Pool, a: Act, id: Jid)
    requires Inv(p) && id in Next(p, a).jobs
    ensures JobInv(Next(p, a), id)
  {
    if id in p.jobs { assert JobInv(p, id); }
    if Enabled(p, a) {
      match a
      case Settle(_, _, _) => SettleJobInv(p, a, id);
      case Crash(_) => SettleJobInv(p, a, id);
      case TryClaim(w) => ClaimJobInv(p, w, id);
      case _ =>
    }
  }

  lemma NextInv(p: Pool, a: Act)
    requires Inv(p)
    ensures Inv(Next(p, a))
  {
    if Enabled(p, a) && (a.Settle? || a.Crash?) { assert WorkerInv(p, a.w); }
    forall w | w in Next(p, a).workers ensures WorkerInv(Next(p, a), w) { NextWorkerInv(p, a, w); }
    forall id | id in Next(p, a).jobs ensures JobInv(Next(p, a), id) { NextJobInv(p, a, id); }
  }

  lemma {:induction false} RunInv(p: Pool, acts: seq<Act>)
    requires Inv(p)
    ensures Inv(Run(p, acts))
  {
    if acts == [] {
    } else {
      RunInv(p, acts[..|acts| - 1]);
      NextInv(Run(p, acts[..|acts| - 1]), acts[|acts| - 1]);
    }
  }

  // ---- What the queue promises ----------------------------------------------------------------------

  /** In every interleaving a running job is held by exactly one worker, or by none for good because
      its outcome was lost; a job in any other state is held by nobody. */
  lemma OneWorkerPerJob(acts: seq<Act>, id: Jid)
    requires id in Run(EMPTY, acts).jobs
    ensures var p := Run(EMPTY, acts);
            (forall w, v :: Holds(p, w, id) && Holds(p, v, id) ==> w == v) &&
            (p.jobs[id].status.Running? <==> id in p.lost || exists w :: Holds(p, w, id)) &&
            !(id in p.lost && exists w :: Holds(p, w, id))
  {
    RunInv(EMPTY, acts);
    var p := Run(EMPTY, acts);
    assert JobInv(p, id);
    forall w: Wid | Holds(p, w, id)
      ensures p.jobs[id].lockedBy == Some(w) && id !in p.lost && p.jobs[id].status.Running?
    {
      assert WorkerInv(p, w);
    }
  }

  /** The handler runs at most max(1, maxAttempts) times per job, exactly that often before the job
      is dead, and less often while it may still be claimed. */
  lemma RunsAreBounded(acts: seq<Act>, id: Jid)
    requires id in Run(EMPTY, acts).jobs
    ensures var p := Run(EMPTY, acts); var j := p.jobs[id];
            id in p.runs && p.runs[id] <= Limit(j) && (j.status.Dead? ==> p.runs[id] == Limit(j)) &&
            (j.status.Queued? ==> p.runs[id] < Limit(j))
  {
    RunInv(EMPTY, acts);
    assert JobInv(Run(EMPTY, acts), id);
  }

  /** Is the job succeeded, dead or lost? */
  ghost predicate Finished(p: Pool, id: Jid)
    requires id in p.jobs
  {
    p.jobs[id].status.Succeeded? || p.jobs[id].status.Dead? || id in p.lost
  }

  lemma StepKeepsFinished(p: Pool, a: Act, id: Jid)
    requires id in p.jobs && JobInv(p, id) && Finished(p, id)
    requires forall w :: w in p.workers ==> WorkerInv(p, w)
    ensures var q := Next(p, a);
            id in q.jobs && q.jobs[id] == p.jobs[id] && id in q.runs && q.runs[id] == p.runs[id] && p.lost <= q.lost
  {
    if Enabled(p, a) && a.Settle? { assert WorkerInv(p, a.w); }
  }

  /** A job that succeeded, died or lost its outcome is never claimed again and never changes. */
  lemma {:induction false} FinishedIsFinal(p: Pool, acts: seq<Act>, id: Jid)
    requires Inv(p) && id in p.jobs && Finished(p, id)
    ensures var q := Run(p, acts);
            id in q.jobs && q.jobs[id] == p.jobs[id] && id in q.runs && q.runs[id] == p.runs[id] && p.lost <= q.lost
  {
    hide JobInv, WorkerInv, Next;
    assert JobInv(p, id);
    if acts == [] {
      RunsKnown(p, id);
    } else {
      var front, a := acts[..|acts| - 1], acts[|acts| - 1];
      FinishedIsFinal(p, front, id);
      RunInv(p, front);
      StepKeepsFinished(Run(p, front), a, id);
    }
  }

  lemma RunsKnown(p: Pool, id: Jid)
    requires id in p.jobs && JobInv(p, id)
    ensures id in p.runs
  {
  }

  /** A queued job stays as it is until its time has come, whatever the workers hold in their lists. */
  lemma {:induction false} QueuedUntilDue(p: Pool, acts: seq<Act>, id: Jid)
    requires Inv(p) && id in p.jobs && p.jobs[id].status.Queued?
    ensures var q := Run(p, acts);
            id in q.jobs && p.now <= q.now && (q.jobs[id] == p.jobs[id] || q.now >= p.jobs[id].runAt)
  {
    if acts == [] {
    } else {
      var front, a := acts[..|acts| - 1], acts[|acts| - 1];
      QueuedUntilDue(p, front, id);
      RunInv(p, front);
      var q := Run(p, front);
      assert JobInv(q, id);
      if Enabled(q, a) && a.Settle? { assert WorkerInv(q, a.w); }
    }
  }

  /** After a failed run with attempts left, the job is back in the queue and is not claimed within
      the next 30 seconds. */
  lemma RetryWaits(p: Pool, w: Wid, acts: seq<Act>)
    requires Inv(p) && Busy(p, w) && p.workers[w].job.attempts + 1 < p.workers[w].job.maxAttempts
    ensures var id, mid := p.workers[w].id, Next(p, Settle(w, false, true));
            var q := Run(mid, acts);
            id in q.jobs && id in mid.jobs && mid.jobs[id].status.Queued? &&
              mid.jobs[id].attempts == p.workers[w].job.attempts + 1 &&
            (q.jobs[id] != mid.jobs[id] ==> q.now >= p.now + RETRY_DELAY)
  {
    assert WorkerInv(p, w);
    NextInv(p, Settle(w, false, true));
    QueuedUntilDue(Next(p, Settle(w, false, true)), acts, p.workers[w].id);
  }

  // ---- What each step does to a job ------------------------------------------------------------------

  /** A job is succeeded for good once a run of its handler is recorded as successful, however many
      attempts it had left. */
  lemma SuccessIsFinal(p: Pool, w: Wid, acts: seq<Act>)
    requires Inv(p) && Busy(p, w)
    ensures var id, mid := p.workers[w].id, Next(p, Settle(w, true, true));
            var q := Run(mid, acts);
            id in p.jobs && mid.jobs == p.jobs[id := p.jobs[id].(status := Succeeded, lockedBy := None)] &&
            mid.workers == p.workers[w := Scanning(p.workers[w].rest)] &&
            id in p.runs && id in q.runs && q.runs[id] == p.runs[id] && id in q.jobs && q.jobs[id] == mid.jobs[id]
  {
    assert WorkerInv(p, w);
    assert JobInv(p, p.workers[w].id);
    NextInv(p, Settle(w, true, true));
    FinishedIsFinal(Next(p, Settle(w, true, true)), acts, p.workers[w].id);
  }

  /** It is dead for good once a run fails and that was its last attempt. */
  lemma LastFailureIsFinal(p: Pool, w: Wid, acts: seq<Act>)
    requires Inv(p) && Busy(p, w)
    requires p.workers[w].id in p.jobs ==>
      p.jobs[p.workers[w].id].attempts + 1 >= p.jobs[p.workers[w].id].maxAttempts
    ensures var id, mid := p.workers[w].id, Next(p, Settle(w, false, true));
            var q := Run(mid, acts);
            id in p.jobs && mid.jobs == p.jobs[id := p.jobs[id].(status := Dead, lockedBy := None)] &&
            mid.workers == p.workers[w := Scanning(p.workers[w].rest)] &&
            id in p.runs && id in q.runs && q.runs[id] == p.runs[id] && id in q.jobs && q.jobs[id] == mid.jobs[id]
  {
    assert WorkerInv(p, w);
    assert JobInv(p, p.workers[w].id);
    NextInv(p, Settle(w, false, true));
    FinishedIsFinal(Next(p, Settle(w, false, true)), acts, p.workers[w].id);
  }

  /** A failed run with attempts left costs one attempt and 30 seconds, and changes nothing else. */
  lemma FailureIsRetried(p: Pool, w: Wid)
    requires Inv(p) && Busy(p, w) && p.workers[w].id in p.jobs
    requires p.jobs[p.workers[w].id].attempts + 1 < p.jobs[p.workers[w].id].maxAttempts
    ensures var id, q := p.workers[w].id, Next(p, Settle(w, false, true));
            q.jobs == p.jobs[id := Job(Queued, p.jobs[id].attempts + 1, p.jobs[id].maxAttempts, p.now + 30000, None)] &&
            q.workers == p.workers[w := Scanning(p.workers[w].rest)]
  {
    assert WorkerInv(p, w);
  }

  /** A worker gets the job at the head of its list iff it is queued and due, and runs it once more. */
  lemma DueIsClaimed(p: Pool, w: Wid)
    requires Inv(p) && ScanningMore(p, w)
    ensures var id, q := p.workers[w].list[0], Next(p, TryClaim(w));
            if id in p.jobs && p.jobs[id].status == Queued && p.jobs[id].runAt <= p.now then
              q.jobs == p.jobs[id := p.jobs[id].(status := Running, lockedBy := Some(w))] &&
              q.workers == p.workers[w := Handling(id, q.jobs[id], p.workers[w].list[1..])] &&
              id in p.runs && q.runs == p.runs[id := p.runs[id] + 1]
            else
              q == p.(workers := p.workers[w := Scanning(p.workers[w].list[1..])])
  {
    var id := p.workers[w].list[0];
    if id in p.jobs { assert JobInv(p, id); }
  }

  /** A job changes status only so: it is claimed when due, or the worker that holds it records the
      outcome of the run; nothing else changes any of its fields. */
  lemma ChangesOnlySo(p: Pool, a: Act, id: Jid)
    requires Inv(p) && id in p.jobs
    ensures id in Next(p, a).jobs
    ensures var j, k := p.jobs[id], Next(p, a).jobs[id];
            j == k ||
            (j.status == Queued && j.runAt <= p.now && (a.TryClaim? || a.LoseClaim?) &&
              k == j.(status := Running, lockedBy := Some(a.w)) && ScanningMore(p, a.w) &&
                p.workers[a.w].list[0] == id) ||
            (j.status == Running && a.Settle? && a.stored && Holds(p, a.w, id) &&
              (k.status == Succeeded <==> a.ok) &&
              (k.status == Dead <==> !a.ok && j.attempts + 1 >= j.maxAttempts) &&
              (k.status == Queued <==> !a.ok && j.attempts + 1 < j.maxAttempts))
  {
    if Enabled(p, a) && a.Settle? { assert WorkerInv(p, a.w); }
  }

  // ---- Termination: every run of the handler spends fuel --------------------------------------------

  ghost function Total(f: map<Jid, int>): int
    decreases f.Keys
  {
    if f.Keys == {} then 0 else var k :| k in f.Keys; f[k] + Total(f - {k})
  }

  lemma {:induction false} TotalWithout(f: map<Jid, int>, k: Jid)
    requires k in f
    ensures Total(f) == f[k] + Total(f - {k})
    decreases f.Keys
  {
    var x :| x in f.Keys && Total(f) == f[x] + Total(f - {x});
    if x != k {
      TotalWithout(f - {x}, k);
      TotalWithout(f - {k}, x);
      assert f - {x} - {k} == f - {k} - {x};
    }
  }

  lemma TotalSet(f: map<Jid, int>, k: Jid, v: int)
    ensures Total(f[k := v]) == v + Total(f - {k})
    ensures Total(f[k := v]) == Total(f) + v - (if k in f then f[k] else 0)
  {
    TotalWithout(f[k := v], k);
    assert f[k := v] - {k} == f - {k};
    if k in f { TotalWithout(f, k); } else { assert f - {k} == f; }
  }

  lemma {:induction false} TotalNonNegative(f: map<Jid, int>)
    requires forall k :: k in f ==> f[k] >= 0
    ensures Total(f) >= 0
    decreases f.Keys
  {
    if f.Keys == {} {
    } else {
      var x :| x in f.Keys && Total(f) == f[x] + Total(f - {x});
      TotalNonNegative(f - {x});
    }
  }

  /** How often each job may still run. */
  ghost function Left(p: Pool): map<Jid, int>
    requires p.runs.Keys == p.jobs.Keys
  {
    map id | id in p.jobs :: Limit(p.jobs[id]) - p.runs[id]
  }

  /** Does this step start a handler run? */
  ghost predicate Starts(p: Pool, a: Act) {
    a.TryClaim? && Enabled(p, a) && Claimable(p.jobs, p.workers[a.w].list[0], p.now)
  }

  /** What this step adds to the queue's budget. */
  ghost function Adds(p: Pool, a: Act): nat {
    if a.Enqueue? && Enabled(p, a) then if a.maxAttempts < 1 then 1 else a.maxAttempts else 0
  }

  ghost predicate Kept(p: Pool, q: Pool) {
    p.runs.Keys == p.jobs.Keys && q.runs.Keys == q.jobs.Keys
  }

  /** Only enqueueing and starting a run change what is left. */
  lemma OthersSpendNothing(p: Pool, a: Act)
    requires Kept(p, Next(p, a)) && !Starts(p, a) && !(a.Enqueue? && Enabled(p, a))
    ensures Left(Next(p, a)) == Left(p)
  {
    var q := Next(p, a);
    assert q.jobs.Keys == p.jobs.Keys && q.runs == p.runs;
    forall id | id in p.jobs ensures Limit(q.jobs[id]) == Limit(p.jobs[id]) {}
  }

  lemma ClaimSpendsOne(p: Pool, a: Act)
    requires Kept(p, Next(p, a)) && Starts(p, a)
    ensures Total(Left(Next(p, a))) == Total(Left(p)) - 1
  {
    hide Total;
    var id := p.workers[a.w].list[0];
    assert Left(Next(p, a)) == Left(p)[id := Left(p)[id] - 1];
    TotalSet(Left(p), id, Left(p)[id] - 1);
  }

  lemma EnqueueAddsLimit(p: Pool, a: Act)
    requires Kept(p, Next(p, a)) && a.Enqueue? && Enabled(p, a)
    ensures Total(Left(Next(p, a))) == Total(Left(p)) + Adds(p, a)
  {
    hide Total;
    assert Left(Next(p, a)) == Left(p)[a.id := Adds(p, a)];
    TotalSet(Left(p), a.id, Adds(p, a));
  }

  lemma StepSpends(p: Pool, a: Act)
    requires Kept(p, Next(p, a))
    ensures Total(Left(Next(p, a))) == Total(Left(p)) + Adds(p, a) - (if Starts(p, a) then 1 else 0)
  {
    hide Total, Left, Next;
    if Starts(p, a) {
      ClaimSpendsOne(p, a);
    } else if a.Enqueue? && Enabled(p, a) {
      EnqueueAddsLimit(p, a);
    } else {
      OthersSpendNothing(p, a);
    }
  }

  ghost function HandlerRuns(acts: seq<Act>): nat {
    if acts == [] then 0
    else
      var front := acts[..|acts| - 1];
      HandlerRuns(front) + if Starts(Run(EMPTY, front), acts[|acts| - 1]) then 1 else 0
  }

  ghost function Budget(acts: seq<Act>): nat {
    if acts == [] then 0
    else
      var front := acts[..|acts| - 1];
      Budget(front) + Adds(Run(EMPTY, front), acts[|acts| - 1])
  }

  lemma {:induction false} SpentAndLeft(acts: seq<Act>)
    ensures Inv(Run(EMPTY, acts)) && HandlerRuns(acts) + Total(Left(Run(EMPTY, acts))) == Budget(acts)
  {
    RunInv(EMPTY, acts);
    if acts == [] {
    } else {
      var front, a := acts[..|acts| - 1], acts[|acts| - 1];
      SpentAndLeft(front);
      assert Inv(Run(EMPTY, front)) && Inv(Next(Run(EMPTY, front), a));
      StepSpends(Run(EMPTY, front), a);
    }
  }

  /** Over any run, all workers together start the handler at most as often as the enqueued jobs
      allow: the sum of max(1, maxAttempts). */
  lemma HandlerRunsWithinBudget(acts: seq<Act>)
    ensures HandlerRuns(acts) <= Budget(acts)
  {
    SpentAndLeft(acts);
    var p := Run(EMPTY, acts);
    forall id | id in Left(p) ensures Left(p)[id] >= 0 { assert JobInv(p, id); }
    TotalNonNegative(Left(p));
  }
}
